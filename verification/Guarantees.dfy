// What callers get from every run: exactly-once effects, history that is never rewritten, books
// that balance in every currency, and reversals that cancel.
module Guarantees {
  import opened Prelude
  import opened Schema
  import opened Sequential
  import opened Books
  import opened Machine
  import opened Isolation

  // ----- exactly once -----

  ghost predicate KeepsRecords(s: Store, s': Store) {
    forall k :: k in s.records ==> k in s'.records && s'.records[k] == s.records[k]
  }

  lemma DeltaRecords(c: Call, s: Store)
    ensures forall k :: k in Exec(c, s).delta.records ==> k == c.cmd.req.key && k !in s.records
  {
  }

  lemma AfterKeepsRecords(c: Call, s: Store)
    ensures KeepsRecords(s, After(c, s))
  {
    hide Exec;
    DeltaRecords(c, s);
  }

  // The record a success leaves or found.
  predicate Stored(s: Store, r: Reply) {
    && r.answer.Ok?
    && r.call.cmd.req.key in s.records
    && var rec := s.records[r.call.cmd.req.key];
       rec.hash == r.call.cmd.req.hash && rec.state == Completed(r.answer.status, r.answer.body)
  }

  lemma OkStored(c: Call, s: Store)
    requires Exec(c, s).answer.Ok?
    ensures Stored(After(c, s), Reply(c, Exec(c, s).answer))
  {
    hide Prepare, HeaderError, EntriesError, Apply, SortEntries, TriggerPasses;
    var key := c.cmd.req.key;
    if key in s.records {
      OverlayEmpty(s);
    }
  }

  lemma {:induction false} CorrectPrefix(log: seq<Reply>, i: nat)
    requires Correct(log) && i <= |log|
    ensures Correct(log[..i])
  {
    hide CorrectReply, RunLog;
    if i < |log| {
      CorrectPrefix(log[..|log| - 1], i);
      assert log[..|log| - 1][..i] == log[..i];
    } else {
      assert log[..i] == log;
    }
  }

  lemma {:induction false} CorrectSound(log: seq<Reply>)
    requires Correct(log)
    ensures Sound(RunLog(log))
  {
    hide Sound;
    if log == [] {
      EmptySound();
    } else {
      CorrectSound(log[..|log| - 1]);
      ExecKeepsSound(log[|log| - 1].call, RunLog(log[..|log| - 1]));
    }
  }

  lemma CorrectAt(log: seq<Reply>, i: nat)
    requires Correct(log) && i < |log|
    ensures CorrectReply(log[i], RunLog(log[..i]))
    ensures RunLog(log[..i + 1]) == After(log[i].call, RunLog(log[..i]))
  {
    hide CorrectReply, After, Exec;
    CorrectPrefix(log, i + 1);
    assert log[..i + 1][..i] == log[..i] && log[..i + 1][i] == log[i];
  }

  lemma {:induction false} RecordsStay(log: seq<Reply>, i: nat, j: nat)
    requires Correct(log) && i <= j <= |log|
    ensures KeepsRecords(RunLog(log[..i]), RunLog(log[..j]))
    decreases j
  {
    hide KeepsRecords, Exec, Overlay, CorrectReply;
    if i < j {
      RecordsStay(log, i, j - 1);
      CorrectAt(log, j - 1);
      AfterKeepsRecords(log[j - 1].call, RunLog(log[..j - 1]));
      KeepsRecordsOn(RunLog(log[..i]), RunLog(log[..j - 1]), RunLog(log[..j]));
    } else {
      KeepsRecordsOn(RunLog(log[..i]), RunLog(log[..i]), RunLog(log[..i]));
    }
  }

  lemma KeepsRecordsOn(s: Store, s1: Store, s2: Store)
    ensures KeepsRecords(s, s)
    ensures KeepsRecords(s, s1) && KeepsRecords(s1, s2) ==> KeepsRecords(s, s2)
  {
  }

  lemma RepeatAnswer(c: Call, s: Store, first: Reply)
    requires Sound(s) && Stored(s, first) && c.cmd.req.key == first.call.cmd.req.key
    ensures After(c, s) == s
    ensures c.cmd.req.hash == first.call.cmd.req.hash ==>
      Exec(c, s).answer == Ok(first.answer.status, first.answer.body, true)
    ensures c.cmd.req.hash != first.call.cmd.req.hash ==> Exec(c, s).answer == Fail(Conflict)
  {
    OverlayEmpty(s);
    assert RecordOk(s, s.records[c.cmd.req.key]);
  }

  /** Exactly once. After a success for a (scope, key), every later request with that key changes
      nothing: the same request gets the same status and body back, a different one a conflict. */
  lemma ExactlyOnce(log: seq<Reply>, i: nat, j: nat)
    requires Correct(log) && i < j < |log|
    requires log[i].answer.Ok? && log[i].call.cmd.req.key == log[j].call.cmd.req.key
    ensures RunLog(log[..j + 1]) == RunLog(log[..j])
    ensures log[i].call.cmd.req.hash == log[j].call.cmd.req.hash ==>
      log[j].answer == Ok(log[i].answer.status, log[i].answer.body, true)
    ensures log[i].call.cmd.req.hash != log[j].call.cmd.req.hash ==> log[j].answer == Fail(Conflict)
  {
    hide Sound, Exec, Overlay;
    CorrectAt(log, i);
    OkStored(log[i].call, RunLog(log[..i]));
    RecordsStay(log, i + 1, j);
    CorrectAt(log, j);
    CorrectPrefix(log, j);
    CorrectSound(log[..j]);
    RepeatAnswer(log[j].call, RunLog(log[..j]), log[i]);
  }

  // No request ever meets a committed in-progress record, and a failure leaves no record behind.
  lemma NeverInProgress(log: seq<Reply>, i: nat)
    requires Correct(log) && i < |log|
    ensures log[i].answer != Fail(KeyInProgress)
    ensures log[i].answer.Fail? ==> RunLog(log[..i + 1]) == RunLog(log[..i])
  {
    CorrectAt(log, i);
    CorrectPrefix(log, i);
    CorrectSound(log[..i]);
    ExecKeepsSound(log[i].call, RunLog(log[..i]));
    NoInProgressAnswer(log[i].call, RunLog(log[..i]));
  }

  lemma NoInProgressAnswer(c: Call, s: Store)
    requires RecordsOk(s)
    ensures Exec(c, s).answer != Fail(KeyInProgress)
  {
    if c.cmd.req.key in s.records {
      assert RecordOk(s, s.records[c.cmd.req.key]);
    } else if !c.cmd.Create? {
      EntriesErrorKinds(c, s);
    }
  }

  lemma EntriesErrorKinds(c: Call, s: Store)
    requires !c.cmd.Create?
    ensures Prepare(c, s).Stop? ==> Prepare(c, s).error != KeyInProgress
    ensures Prepare(c, s).Go? ==> Post(c.cmd.req, s, Prepare(c, s).plan).answer != Fail(KeyInProgress)
  {
    if Prepare(c, s).Go? {
      var p := Prepare(c, s).plan;
      EntriesErrorKind(s.accounts, s.txns[p.id := p.txn], p.entries, |p.entries|);
      BrokenKind(s.balances, SortEntries(p.entries), |SortEntries(p.entries)|);
    }
  }

  lemma {:induction false} EntriesErrorKind(accounts: map<AccountId, Account>, txns: map<Id, Txn>, es: seq<Entry>, n: nat)
    requires n <= |es|
    ensures EntriesError(accounts, txns, es, n) != Some(KeyInProgress)
  {
    if n > 0 { EntriesErrorKind(accounts, txns, es, n - 1); }
  }

  lemma {:induction false} BrokenKind(base: map<AccountId, Balance>, es: seq<Entry>, n: nat)
    requires n <= |es|
    ensures Apply(base, es, n) != Broken(KeyInProgress)
  {
    if n > 0 { BrokenKind(base, es, n - 1); }
  }

  // ----- history is append-only -----

  // Once committed, a transaction, its entries and its response never change.
  ghost predicate Extends(s: Store, s': Store) {
    && s.entries <= s'.entries
    && KeepsTxns(s, s')
    && KeepsRecords(s, s')
  }

  lemma DeltaTxns(c: Call, s: Store)
    requires Sound(s) && Valid(c.cmd) && Fresh(c, s)
    ensures KeepsTxns(s, After(c, s))
  {
    hide Sound, PlanOk, Prepare, Post, EntriesOk;
    OverlayEmpty(s);
    assert s.entries + [] == s.entries;
    if c.cmd.req.key !in s.records && !c.cmd.Create? && Prepare(c, s).Go? {
      PreparedOk(c, s);
      PostFailsClean(c.cmd.req, s, Prepare(c, s).plan);
      if Post(c.cmd.req, s, Prepare(c, s).plan).answer.Ok? {
        PostKeepsOld(c.cmd.req, s, Prepare(c, s).plan);
      }
    }
  }

  lemma PostKeepsOld(req: Request, s: Store, p: Plan)
    requires Sound(s) && PlanOk(req, s, p) && Post(req, s, p).answer.Ok?
    ensures KeepsTxns(s, Overlay(s, Post(req, s, p).delta))
  {
    hide EntriesOk, TxnsOk, ReversalsOk, SumsOk, RowsOk, NetOk, RecordsOk, OutboxOk;
    PlanLeavesTxns(s, p, Post(req, s, p).delta);
  }

  lemma ExtendsOn(s: Store, s1: Store, s2: Store)
    ensures Extends(s, s)
    ensures Extends(s, s1) && Extends(s1, s2) ==> Extends(s, s2)
  {
  }

  lemma AfterExtends(c: Call, s: Store)
    requires Sound(s) && Valid(c.cmd) && Fresh(c, s)
    ensures Extends(s, After(c, s))
  {
    hide Sound, Exec, Valid, Fresh, KeepsTxns, KeepsRecords;
    DeltaTxns(c, s);
    AfterKeepsRecords(c, s);
  }

  lemma {:induction false} HistoryStays(log: seq<Reply>, i: nat)
    requires Correct(log) && i <= |log|
    ensures Extends(RunLog(log[..i]), RunLog(log))
  {
    hide Sound, Exec, Valid, Fresh, Extends, Overlay;
    if i == |log| {
      assert log[..i] == log;
      ExtendsOn(RunLog(log), RunLog(log), RunLog(log));
    } else {
      var init, last := log[..|log| - 1], log[|log| - 1];
      HistoryStays(init, i);
      assert init[..i] == log[..i];
      CorrectSound(init);
      AfterExtends(last.call, RunLog(init));
      ExtendsOn(RunLog(log[..i]), RunLog(init), RunLog(log));
    }
  }

  // ----- books -----

  ghost function InCurrency(s: Store, c: string): map<AccountId, int>
    requires RowsOk(s)
  {
    map a | a in s.balances && s.accounts[a].currency == c :: s.balances[a].amount
  }

  function ByAccount(e: Entry): nat { e.account }
  function ByTxn(e: Entry): nat { e.txn }

  ghost function KeyIs(key: Entry -> nat, g: nat): Entry -> bool { (e: Entry) => key(e) == g }
  ghost function KeyIn(key: Entry -> nat, groups: set<nat>): Entry -> bool { (e: Entry) => key(e) in groups }

  ghost function Grouped(key: Entry -> nat, groups: set<nat>, log: seq<Entry>): map<nat, int> {
    map g | g in groups :: Sum(Select(log, KeyIs(key, g)))
  }

  lemma SumSnoc(init: seq<Entry>, e: Entry, p: Entry -> bool)
    ensures Sum(Select(init + [e], p)) == Sum(Select(init, p)) + if p(e) then e.amount else 0
  {
  }

  lemma GroupedStep(key: Entry -> nat, groups: set<nat>, init: seq<Entry>, e: Entry)
    ensures MapSum(Grouped(key, groups, init + [e]))
      == MapSum(Grouped(key, groups, init)) + if key(e) in groups then e.amount else 0
  {
    hide Sum, Select;
    var before, after := Grouped(key, groups, init), Grouped(key, groups, init + [e]);
    forall g | g in groups ensures after[g] == before[g] + if key(e) == g then e.amount else 0 {
      SumSnoc(init, e, KeyIs(key, g));
    }
    if key(e) in groups {
      var v := before[key(e)] + e.amount;
      MapSumUpdate(before, key(e), v);
      assert after == before[key(e) := v];
      assert MapSum(after) == MapSum(before) + e.amount;
    } else {
      assert after == before;
    }
  }

  // Summing group by group is summing the entries of the groups.
  lemma {:induction false} SumByGroup(key: Entry -> nat, groups: set<nat>, log: seq<Entry>)
    ensures MapSum(Grouped(key, groups, log)) == Sum(Select(log, KeyIn(key, groups)))
  {
    if log == [] {
      MapSumZero(Grouped(key, groups, log));
    } else {
      var init, e := log[..|log| - 1], log[|log| - 1];
      assert log == init + [e];
      SumByGroup(key, groups, init);
      GroupedStep(key, groups, init, e);
      SumSnoc(init, e, KeyIn(key, groups));
    }
  }

  lemma {:induction false} SelectSame(log: seq<Entry>, p: Entry -> bool, q: Entry -> bool)
    requires forall i :: 0 <= i < |log| ==> p(log[i]) == q(log[i])
    ensures Select(log, p) == Select(log, q)
  {
    if log != [] {
      SelectSame(log[..|log| - 1], p, q);
    }
  }

  ghost function AccountsIn(s: Store, c: string): set<nat> {
    set a | a in s.accounts && s.accounts[a].currency == c
  }

  ghost function TxnsIn(s: Store, c: string): set<nat> {
    set t | t in s.txns && s.txns[t].currency == c
  }

  /** Double entry: in every currency the balances of all accounts sum to zero. */
  lemma BooksBalance(s: Store, c: string)
    requires Sound(s)
    ensures MapSum(InCurrency(s, c)) == 0
  {
    hide RowsOk, ReversalsOk, NetOk, RecordsOk, OutboxOk, SumsOk, EntriesOk, TxnsOk;
    BalancesAreGroups(s, c);
    SumByGroup(ByAccount, AccountsIn(s, c), s.entries);
    SameEntries(s, c);
    SumByGroup(ByTxn, TxnsIn(s, c), s.entries);
    TxnGroupsAreZero(s, c);
  }

  lemma BalancesAreGroups(s: Store, c: string)
    requires RowsOk(s) && SumsOk(s)
    ensures InCurrency(s, c) == Grouped(ByAccount, AccountsIn(s, c), s.entries)
  {
    forall a | a in AccountsIn(s, c)
      ensures s.balances[a].amount == Sum(Select(s.entries, KeyIs(ByAccount, a)))
    {
      SelectSame(s.entries, OfAccount(a), KeyIs(ByAccount, a));
      assert Projects(s.balances[a], Select(s.entries, OfAccount(a)));
    }
  }

  lemma SameEntry(s: Store, c: string, e: Entry)
    requires EntryOk(s, e)
    ensures e.account in AccountsIn(s, c) <==> e.txn in TxnsIn(s, c)
  {
  }

  lemma SameEntries(s: Store, c: string)
    requires EntriesOk(s)
    ensures Select(s.entries, KeyIn(ByAccount, AccountsIn(s, c))) == Select(s.entries, KeyIn(ByTxn, TxnsIn(s, c)))
  {
    hide AccountsIn, TxnsIn, EntryOk;
    forall i | 0 <= i < |s.entries|
      ensures KeyIn(ByAccount, AccountsIn(s, c))(s.entries[i]) == KeyIn(ByTxn, TxnsIn(s, c))(s.entries[i])
    {
      var e := s.entries[i];
      assert EntryOk(s, e);
      SameEntry(s, c, e);
      assert KeyIn(ByAccount, AccountsIn(s, c))(e) == (ByAccount(e) in AccountsIn(s, c));
      assert KeyIn(ByTxn, TxnsIn(s, c))(e) == (ByTxn(e) in TxnsIn(s, c));
    }
    SelectSame(s.entries, KeyIn(ByAccount, AccountsIn(s, c)), KeyIn(ByTxn, TxnsIn(s, c)));
  }

  lemma TxnGroupsAreZero(s: Store, c: string)
    requires TxnsOk(s)
    ensures MapSum(Grouped(ByTxn, TxnsIn(s, c), s.entries)) == 0
  {
    var groups := Grouped(ByTxn, TxnsIn(s, c), s.entries);
    forall t | t in groups ensures groups[t] == 0 {
      SelectSame(s.entries, OfTxn(t), KeyIs(ByTxn, t));
      assert TxnOk(s.txns[t], Select(s.entries, OfTxn(t)));
    }
    MapSumZero(groups);
  }

  predicate Cancels(es: seq<Entry>) {
    && |es| == 2 && es[0].amount as int + es[1].amount as int == 0
    && Negated(es[0].amount) == es[1].amount && Negated(es[1].amount) == es[0].amount
    && Gross(es) == (if es[0].amount > 0 then es[0].amount else es[1].amount)
    && Gross(es) > 0
  }

  lemma PairCancels(es: seq<Entry>)
    requires |es| == 2 && Sum(es) == 0 && Mirrorable(es[0]) && Mirrorable(es[1])
    ensures Cancels(es)
  {
    assert es[..1] == [es[0]];
    assert Sum([es[0]]) == es[0].amount && Gross([es[0]]) == (if es[0].amount > 0 then es[0].amount else 0) by {
      assert [es[0]][..0] == [];
    }
  }

  /** Go's int64 arithmetic is exact on every committed transaction: negating an entry and summing
      the positive entries never wrap, and the two entries cancel. */
  lemma NoWrap(s: Store, t: Id)
    requires Sound(s) && t in s.txns
    ensures Cancels(Select(s.entries, OfTxn(t)))
  {
    hide RowsOk, NetOk, RecordsOk, OutboxOk, SumsOk, ReversalsOk, Cancels;
    var es := Select(s.entries, OfTxn(t));
    assert TxnOk(s.txns[t], es);
    TxnEntriesMirrorable(s, t);
    assert EntryOk(s, es[0]) && EntryOk(s, es[1]);
    PairCancels(es);
  }

  /** Reversals cancel: a balance is the sum of the entries of those transactions that are neither
      reversals nor reversed, and a user account's balance is never negative. */
  lemma BalanceIsNet(s: Store, a: AccountId)
    requires Sound(s) && a in s.balances
    ensures s.balances[a].amount == Net(s.entries, Settled(s), a)
    ensures !s.accounts[a].system ==> s.balances[a].amount >= 0
  {
    assert Projects(s.balances[a], Select(s.entries, OfAccount(a)));
    assert RowOk(s.accounts[a], s.balances[a]);
  }

  /** Chains have depth one and nothing is reversed twice. */
  lemma ReversedAtMostOnce(s: Store, r: Id, q: Id)
    requires Sound(s) && r in s.txns && q in s.txns && s.txns[r].reverses.Some?
    ensures s.txns[r].kind == ReversalKind && s.txns[r].reverses.value in s.txns
    ensures s.txns[s.txns[r].reverses.value].reverses.None?
    ensures s.txns[r].reverses == s.txns[q].reverses ==> r == q
  {
    hide RowsOk, NetOk, RecordsOk, OutboxOk, SumsOk, EntriesOk;
    var t := s.txns[r].reverses.value;
    assert ReversedOnce(s, t);
    assert TxnOk(s.txns[r], Select(s.entries, OfTxn(r)));
    assert TxnOk(s.txns[t], Select(s.entries, OfTxn(t)));
  }

  /** A transaction is shown as reversed exactly by the transaction that reverses it, with its entries in
      order. */
  lemma ShowsReversal(s: Store, t: Id, r: Id)
    requires Sound(s) && t in s.txns
    ensures var body := Load(s, t);
      && body.txnId == t && body.txn == s.txns[t] && (forall i :: 0 <= i < |body.entries| ==> body.entries[i].pos == i)
      && (forall e :: e in body.entries <==> e in s.entries && e.txn == t)
      && (body.reversedBy == Some(r) <==> r in s.txns && s.txns[r].reverses == Some(t))
  {
    hide RowsOk, NetOk, RecordsOk, OutboxOk, SumsOk, EntriesOk;
    SelectMembers(s.entries, OfTxn(t));
    assert TxnOk(s.txns[t], Select(s.entries, OfTxn(t)));
    if t in s.oneReversal { assert ReversedOnce(s, t); }
  }

  // ----- for every run of the interleaved sessions -----

  /** In every reachable state the books balance in every currency, each balance is the net of the
      transactions that are neither reversals nor reversed, and no user account is below zero. */
  lemma EveryRunBalances(h: Key -> int, moves: seq<Move>, c: string, a: AccountId)
    requires IsRun(h, moves)
    ensures Sound(AfterRun(moves).store) && MapSum(InCurrency(AfterRun(moves).store, c)) == 0
    ensures var s := AfterRun(moves).store; a in s.balances ==>
      s.balances[a].amount == Net(s.entries, Settled(s), a) && (!s.accounts[a].system ==> s.balances[a].amount >= 0)
  {
    hide Sound, IsRun, AfterRun, Reached, Correct, Net, Settled;
    RunsAreSequential(h, moves);
    var s := AfterRun(moves).store;
    BooksBalance(s, c);
    if a in s.balances { BalanceIsNet(s, a); }
  }

  /** In every run, once a request has succeeded, each later answer for its key is the same status
      and body, or a conflict if the request differs. */
  lemma EveryRunIsExactlyOnce(h: Key -> int, moves: seq<Move>, i: nat, j: nat)
    requires IsRun(h, moves) && i < j < |AfterRun(moves).log|
    requires var log := AfterRun(moves).log; log[i].answer.Ok? && log[i].call.cmd.req.key == log[j].call.cmd.req.key
    ensures var log := AfterRun(moves).log;
      log[j].answer == if log[i].call.cmd.req.hash != log[j].call.cmd.req.hash then Fail(Conflict)
                       else Ok(log[i].answer.status, log[i].answer.body, true)
  {
    hide Sound, IsRun, AfterRun, Reached, Correct, RunLog;
    RunsAreSequential(h, moves);
    ExactlyOnce(AfterRun(moves).log, i, j);
  }
}
