// Reconciliation: recompute every balance and every transaction total from the entries.
module Reconciliation {
  import opened Prelude
  import opened Schema
  import opened Sequential
  import opened Books
  import Isolation
  import Machine

  datatype Mismatch = Mismatch(account: AccountId, stored: int64, computed: int64, delta: int64)

  datatype Report = Report(accountsChecked: nat, transactionsChecked: nat, mismatches: seq<Mismatch>, unbalanced: seq<Id>)

  // A failed query is an error, as is a sum that does not fit the int64 it is scanned into.
  datatype Result = QueryError | ScanError | Ran(report: Report)

  predicate OK(r: Report) {
    r.mismatches == [] && r.unbalanced == []
  }

  function AccountSum(s: Store, a: AccountId): int {
    Sum(Select(s.entries, OfAccount(a)))
  }

  function TxnSum(s: Store, t: Id): int {
    Sum(Select(s.entries, OfTxn(t)))
  }

  // ----- what the two passes decide -----

  predicate AccountsScan(s: Store, accounts: seq<AccountId>) {
    forall a :: a in accounts ==> Fits(AccountSum(s, a))
  }

  predicate TxnsScan(s: Store, txns: seq<Id>) {
    forall t :: t in txns ==> Fits(TxnSum(s, t))
  }

  // The rows a query delivers when it breaks off after `cut` of them.
  function Delivered(rows: seq<nat>, cut: Option<nat>): seq<nat> {
    if cut.Some? && cut.value < |rows| then rows[..cut.value] else rows
  }

  ghost predicate BalancesAgree(s: Store) {
    forall a :: a in s.balances ==> s.balances[a].amount == AccountSum(s, a)
  }

  ghost predicate TransactionsBalance(s: Store) {
    forall t :: t in s.txns ==> |Select(s.entries, OfTxn(t))| >= 2 && Sum(Select(s.entries, OfTxn(t))) == 0
  }

  // The rows a query returns, in whatever order.
  ghost predicate Lists<K(!new)>(order: seq<K>, keys: set<K>) {
    && (forall k :: k in order <==> k in keys)
    && (forall i, j :: 0 <= i < j < |order| ==> order[i] != order[j])
  }

  function MismatchOf(s: Store, a: AccountId): Mismatch
    requires a in s.balances && Fits(AccountSum(s, a))
  {
    Mismatch(a, s.balances[a].amount, AccountSum(s, a), Wrap(s.balances[a].amount - AccountSum(s, a)))
  }

  // The disagreeing accounts among the first n rows, in row order.
  function Disagreeing(s: Store, order: seq<AccountId>, n: nat): seq<AccountId>
    requires n <= |order| && forall a :: a in order ==> a in s.balances
  {
    if n == 0 then []
    else
      var before := Disagreeing(s, order, n - 1);
      if s.balances[order[n - 1]].amount != AccountSum(s, order[n - 1]) then before + [order[n - 1]] else before
  }

  function Unbalanced(s: Store, order: seq<Id>, n: nat): seq<Id>
    requires n <= |order|
  {
    if n == 0 then []
    else
      var before := Unbalanced(s, order, n - 1);
      if !Balanced(Select(s.entries, OfTxn(order[n - 1]))) then before + [order[n - 1]] else before
  }

  lemma {:induction false} DisagreeingAre(s: Store, order: seq<AccountId>, n: nat)
    requires n <= |order| && forall a :: a in order ==> a in s.balances
    ensures forall a :: a in Disagreeing(s, order, n) <==>
      a in order[..n] && s.balances[a].amount != AccountSum(s, a)
  {
    hide AccountSum;
    if n > 0 {
      DisagreeingAre(s, order, n - 1);
      assert order[..n] == order[..n - 1] + [order[n - 1]];
    }
  }

  lemma {:induction false} UnbalancedAre(s: Store, order: seq<Id>, n: nat)
    requires n <= |order|
    ensures forall t :: t in Unbalanced(s, order, n) <==> t in order[..n] && !Balanced(Select(s.entries, OfTxn(t)))
  {
    hide Select, Balanced;
    if n > 0 {
      UnbalancedAre(s, order, n - 1);
      assert order[..n] == order[..n - 1] + [order[n - 1]];
    }
  }

  // What a report must say about the snapshots it was made from.
  ghost predicate Truthful(r: Report, s1: Store, accounts: seq<AccountId>, s2: Store, txns: seq<Id>) {
    && r.accountsChecked == |accounts| && r.transactionsChecked == |txns|
    && (forall a :: a in accounts ==> a in s1.balances)
    && ReportsAccounts(r.mismatches, s1, Disagreeing(s1, accounts, |accounts|))
    && r.unbalanced == Unbalanced(s2, txns, |txns|)
  }

  predicate Reported(m: Mismatch, s: Store, a: AccountId) {
    a in s.balances && Fits(AccountSum(s, a)) && m == MismatchOf(s, a)
  }

  ghost predicate ReportsAccounts(ms: seq<Mismatch>, s: Store, accounts: seq<AccountId>) {
    && |ms| == |accounts|
    && forall i :: 0 <= i < |ms| ==> Reported(ms[i], s, accounts[i])
  }

  /** For any two snapshots the report is OK exactly when every balance equals the sum of its
      account's entries, zero if it has none, and every transaction has at least two entries and
      sums to zero. */
  lemma OkExactly(r: Report, s1: Store, accounts: seq<AccountId>, s2: Store, txns: seq<Id>)
    requires Lists(accounts, s1.balances.Keys) && Lists(txns, s2.txns.Keys) && Truthful(r, s1, accounts, s2, txns)
    ensures OK(r) <==> BalancesAgree(s1) && TransactionsBalance(s2)
  {
    hide AccountSum, Select, Sum, Disagreeing, Unbalanced;
    DisagreeingAre(s1, accounts, |accounts|);
    UnbalancedAre(s2, txns, |txns|);
    assert accounts[..|accounts|] == accounts && txns[..|txns|] == txns;
    NoMembers(Disagreeing(s1, accounts, |accounts|));
    NoMembers(Unbalanced(s2, txns, |txns|));
    assert BalancesAgree(s1) <==> forall a :: a in accounts ==> s1.balances[a].amount == AccountSum(s1, a);
    assert TransactionsBalance(s2) <==> forall t :: t in txns ==> Balanced(Select(s2.entries, OfTxn(t)));
  }

  /** What a report says: exactly the accounts whose balance is not the sum of their entries, each with
      both figures, and exactly the transactions with fewer than two entries or a sum that is not zero. */
  lemma ReportExactly(r: Report, s1: Store, accounts: seq<AccountId>, s2: Store, txns: seq<Id>, a: AccountId, t: Id)
    requires Lists(accounts, s1.balances.Keys) && Lists(txns, s2.txns.Keys) && Truthful(r, s1, accounts, s2, txns)
    ensures (exists i :: 0 <= i < |r.mismatches| && r.mismatches[i].account == a)
      <==> a in s1.balances && s1.balances[a].amount as int != Sum(Select(s1.entries, OfAccount(a)))
    ensures forall i :: 0 <= i < |r.mismatches| && r.mismatches[i].account == a && a in s1.balances ==>
      r.mismatches[i].stored == s1.balances[a].amount && r.mismatches[i].computed as int == Sum(Select(s1.entries, OfAccount(a)))
    ensures t in r.unbalanced <==>
      t in s2.txns && (|Select(s2.entries, OfTxn(t))| < 2 || Sum(Select(s2.entries, OfTxn(t))) != 0)
    ensures r.accountsChecked == |accounts| && r.transactionsChecked == |txns|
  {
    hide Select, Sum;
    DisagreeingAre(s1, accounts, |accounts|);
    UnbalancedAre(s2, txns, |txns|);
    assert accounts[..|accounts|] == accounts && txns[..|txns|] == txns;
    var wrong := Disagreeing(s1, accounts, |accounts|);
    forall i | 0 <= i < |wrong| ensures Reported(r.mismatches[i], s1, wrong[i]) {
    }
    if a in wrong {
      var i :| 0 <= i < |wrong| && wrong[i] == a;
      assert r.mismatches[i].account == a;
    }
    forall i | 0 <= i < |r.mismatches| && r.mismatches[i].account == a ensures wrong[i] == a && a in wrong {
    }
  }

  lemma NoMembers(x: seq<nat>)
    ensures x == [] <==> forall k :: k !in x
  {
    if x != [] { assert x[0] in x; }
  }

  // Delta is exact for a balance the ledger could hold; in general it wraps.
  lemma DeltaExactly(s: Store, a: AccountId)
    requires a in s.balances && Fits(AccountSum(s, a))
    ensures MismatchOf(s, a).delta == s.balances[a].amount - AccountSum(s, a)
      <==> Fits(s.balances[a].amount - AccountSum(s, a))
    ensures s.balances[a].amount >= 0 && AccountSum(s, a) >= 0 ==>
      MismatchOf(s, a).delta == s.balances[a].amount - AccountSum(s, a)
  {
    hide AccountSum;
  }

  // ----- on the live ledger -----

  lemma SoundReconciles(s: Store)
    requires Sound(s)
    ensures BalancesAgree(s) && TransactionsBalance(s)
    ensures forall a :: a in s.balances ==> Fits(AccountSum(s, a))
    ensures forall t :: t in s.txns ==> Fits(TxnSum(s, t))
  {
    hide Select, Sum;
    forall a | a in s.balances ensures s.balances[a].amount == AccountSum(s, a) {
      assert Projects(s.balances[a], Select(s.entries, OfAccount(a)));
    }
    forall t | t in s.txns ensures |Select(s.entries, OfTxn(t))| >= 2 && Sum(Select(s.entries, OfTxn(t))) == 0 {
      assert TxnOk(s.txns[t], Select(s.entries, OfTxn(t)));
    }
  }

  lemma {:induction false} PrefixIsRun(h: Key -> int, moves: seq<Machine.Move>, i: nat)
    requires Machine.IsRun(h, moves) && i <= |moves|
    ensures Machine.IsRun(h, moves[..i])
  {
    hide Machine.Enabled, Machine.AfterRun;
    if i == |moves| {
      assert moves[..i] == moves;
    } else {
      assert moves[..|moves| - 1][..i] == moves[..i];
      PrefixIsRun(h, moves[..|moves| - 1], i);
    }
  }

  /** Against concurrent payments, with each query on whatever has committed by then, every sum
      scans and the report is always OK. */
  lemma LiveIsOk(h: Key -> int, moves: seq<Machine.Move>, i: nat, accounts: seq<AccountId>, txns: seq<Id>, r: Report)
    requires Machine.IsRun(h, moves) && i <= |moves|
    ensures var s1, s2 := Machine.AfterRun(moves[..i]).store, Machine.AfterRun(moves).store;
      Lists(accounts, s1.balances.Keys) && Lists(txns, s2.txns.Keys) ==>
        AccountsScan(s1, accounts) && TxnsScan(s2, txns) && (Truthful(r, s1, accounts, s2, txns) ==> OK(r))
  {
    hide Machine.IsRun, Machine.AfterRun, Sound, Truthful, AccountSum, TxnSum, BalancesAgree, TransactionsBalance, OK;
    PrefixIsRun(h, moves, i);
    Isolation.RunsAreSequential(h, moves[..i]);
    Isolation.RunsAreSequential(h, moves);
    var s1, s2 := Machine.AfterRun(moves[..i]).store, Machine.AfterRun(moves).store;
    SoundReconciles(s1);
    SoundReconciles(s2);
    if Lists(accounts, s1.balances.Keys) && Lists(txns, s2.txns.Keys) && Truthful(r, s1, accounts, s2, txns) {
      OkExactly(r, s1, accounts, s2, txns);
    }
  }

  // ----- the code -----

  lemma NothingReported(s1: Store, accounts: seq<AccountId>, s2: Store, txns: seq<Id>)
    requires forall a :: a in accounts ==> a in s1.balances
    ensures AccountsScan(s1, []) && ReportsAccounts([], s1, Disagreeing(s1, accounts, 0))
    ensures TxnsScan(s2, []) && Unbalanced(s2, txns, 0) == []
  {
  }

  lemma ReportNext(s: Store, accounts: seq<AccountId>, i: nat, ms: seq<Mismatch>)
    requires i < |accounts| && (forall a :: a in accounts ==> a in s.balances) && Fits(AccountSum(s, accounts[i]))
    requires ReportsAccounts(ms, s, Disagreeing(s, accounts, i))
    ensures var disagrees := s.balances[accounts[i]].amount != AccountSum(s, accounts[i]);
      ReportsAccounts(if disagrees then ms + [MismatchOf(s, accounts[i])] else ms, s, Disagreeing(s, accounts, i + 1))
  {
    hide AccountSum;
  }

  lemma UnbalancedNext(s: Store, txns: seq<Id>, i: nat)
    requires i < |txns|
    ensures var before, t := Unbalanced(s, txns, i), txns[i];
      Unbalanced(s, txns, i + 1)
        == if TxnSum(s, t) != 0 || |Select(s.entries, OfTxn(t))| < 2 then before + [t] else before
  {
    hide Sum, Select;
  }

  lemma ScanNext(s: Store, rows: seq<nat>, i: nat)
    requires i < |rows|
    ensures AccountsScan(s, rows[..i + 1]) <==> AccountsScan(s, rows[..i]) && Fits(AccountSum(s, rows[i]))
    ensures TxnsScan(s, rows[..i + 1]) <==> TxnsScan(s, rows[..i]) && Fits(TxnSum(s, rows[i]))
    ensures AccountsScan(s, rows) ==> AccountsScan(s, rows[..i + 1])
    ensures TxnsScan(s, rows) ==> TxnsScan(s, rows[..i + 1])
  {
    hide AccountSum, TxnSum;
    assert rows[..i + 1] == rows[..i] + [rows[i]];
  }

  /** The two queries, each on its own snapshot; a failing one breaks off after `cut1` or `cut2` rows. */
  method Run(s1: Store, accounts: seq<AccountId>, s2: Store, txns: seq<Id>, cut1: Option<nat>, cut2: Option<nat>)
    returns (r: Result)
    requires Lists(accounts, s1.balances.Keys) && Lists(txns, s2.txns.Keys)
    ensures var scan1, scan2 := AccountsScan(s1, Delivered(accounts, cut1)), TxnsScan(s2, Delivered(txns, cut2));
      && (r.QueryError? <==> scan1 && (cut1.Some? || (scan2 && cut2.Some?)))
      && (r.ScanError? <==> !scan1 || (cut1.None? && !scan2))
    ensures r.Ran? ==> Truthful(r.report, s1, accounts, s2, txns)
  {
    hide AccountSum, TxnSum, AccountsScan, TxnsScan, Select, ReportsAccounts, Disagreeing, Unbalanced;
    var balances, totals := Delivered(accounts, cut1), Delivered(txns, cut2);
    var mismatches: seq<Mismatch> := [];
    NothingReported(s1, accounts, s2, txns);
    for i := 0 to |balances|
      invariant AccountsScan(s1, balances[..i])
      invariant ReportsAccounts(mismatches, s1, Disagreeing(s1, accounts, i))
    {
      var stored, computed := s1.balances[balances[i]].amount, AccountSum(s1, balances[i]);
      ScanNext(s1, balances, i);
      if !Fits(computed) {
        return ScanError;
      }
      ReportNext(s1, accounts, i, mismatches);
      if stored != computed {
        mismatches := mismatches + [Mismatch(balances[i], stored, computed, Wrap(stored - computed))];
      }
    }
    assert balances[..|balances|] == balances;
    if cut1.Some? {
      return QueryError;
    }
    var unbalanced: seq<Id> := [];
    for i := 0 to |totals|
      invariant TxnsScan(s2, totals[..i])
      invariant unbalanced == Unbalanced(s2, txns, i)
    {
      var total, count := TxnSum(s2, totals[i]), |Select(s2.entries, OfTxn(totals[i]))|;
      ScanNext(s2, totals, i);
      if !Fits(total) {
        return ScanError;
      }
      UnbalancedNext(s2, txns, i);
      if total != 0 || count < 2 {
        unbalanced := unbalanced + [totals[i]];
      }
    }
    assert totals[..|totals|] == totals;
    if cut2.Some? {
      return QueryError;
    }
    return Ran(Report(|accounts|, |txns|, mismatches, unbalanced));
  }
}
