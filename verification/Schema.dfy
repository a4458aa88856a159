// The tables of the ledger schema, and the rows an open transaction adds to them.
module Schema {
  import opened Prelude

  // An account ID stands for its rank in byte order, so `<` is the order of sort.Strings;
  // the lowest string, the empty one, is 0.
  type AccountId = nat
  const NO_ACCOUNT: AccountId := 0

  type Id = nat  // a UUID

  datatype Key = Key(scope: string, key: string)

  datatype Account = Account(currency: string, system: bool, overdraft: bool, metadata: string)
  datatype Balance = Balance(amount: int64, version: int64, overdraft: bool)

  datatype TxKind = TransferKind | FundingKind | ReversalKind
  datatype Txn = Txn(kind: TxKind, currency: string, description: string,
                     externalRef: Option<string>, reverses: Option<Id>)
  datatype Entry = Entry(txn: Id, account: AccountId, amount: int64, currency: string, pos: nat)

  // The JSON object stored as a response: what it was rendered from.
  datatype Body =
    | AccountBody(id: AccountId, account: Account)
    | TxnBody(txnId: Id, txn: Txn, reversedBy: Option<Id>, entries: seq<Entry>)

  datatype RecordState = InProgress | Completed(status: int, body: Body)
  datatype Record = Record(hash: string, state: RecordState, txn: Option<Id>)

  datatype EventType = PaymentCreated | PaymentReversed
  datatype Event = Event(eventType: EventType, aggregate: Id, amount: int64, entries: seq<Entry>)

  /** The database. `oneReversal` is the partial unique index on reverses_transaction_id,
      from the original to its reversal. A value of this type also serves as the write set
      of an open transaction: only its own new or changed rows. */
  datatype Store = Store(
    accounts: map<AccountId, Account>,
    balances: map<AccountId, Balance>,
    txns: map<Id, Txn>,
    oneReversal: map<Id, Id>,
    entries: seq<Entry>,
    reversals: map<Id, Id>,
    records: map<Key, Record>,
    outbox: map<Id, Event>)

  const EMPTY := Store(map[], map[], map[], map[], [], map[], map[], map[])

  // What a transaction with write set w sees over the committed store s, and what
  // committing it leaves.
  function Overlay(s: Store, w: Store): Store {
    Store(s.accounts + w.accounts, s.balances + w.balances, s.txns + w.txns,
          s.oneReversal + w.oneReversal, s.entries + w.entries, s.reversals + w.reversals,
          s.records + w.records, s.outbox + w.outbox)
  }

  lemma OverlayEmpty(s: Store)
    ensures Overlay(s, EMPTY) == s
  {
    PlusEmpty(s.accounts);
    PlusEmpty(s.balances);
    PlusEmpty(s.txns);
    PlusEmpty(s.oneReversal);
    PlusEmpty(s.reversals);
    PlusEmpty(s.records);
    PlusEmpty(s.outbox);
    assert s.entries + [] == s.entries;
  }

  lemma PlusEmpty<K, V>(m: map<K, V>)
    ensures m + map[] == m
  {
  }

  lemma PlusOne<K, V>(m: map<K, V>, k: K, v: V)
    ensures m + map[k := v] == m[k := v]
  {
  }

  // ----- selecting and summing entries -----

  function Select(log: seq<Entry>, p: Entry -> bool): seq<Entry> {
    if log == [] then []
    else if p(log[|log| - 1]) then Select(log[..|log| - 1], p) + [log[|log| - 1]]
    else Select(log[..|log| - 1], p)
  }

  lemma {:induction false} SelectMembers(log: seq<Entry>, p: Entry -> bool)
    ensures forall e :: e in Select(log, p) <==> e in log && p(e)
    ensures |Select(log, p)| <= |log|
  {
    if log != [] {
      SelectMembers(log[..|log| - 1], p);
      assert log == log[..|log| - 1] + [log[|log| - 1]];
    }
  }

  function Sum(es: seq<Entry>): int {
    if es == [] then 0 else Sum(es[..|es| - 1]) + es[|es| - 1].amount
  }

  function OfAccount(a: AccountId): Entry -> bool { (e: Entry) => e.account == a }
  function OfTxn(t: Id): Entry -> bool { (e: Entry) => e.txn == t }
  ghost function OutsideOf(dead: set<Id>): Entry -> bool { (e: Entry) => e.txn !in dead }

  lemma {:induction false} SelectAppend(x: seq<Entry>, y: seq<Entry>, p: Entry -> bool)
    ensures Select(x + y, p) == Select(x, p) + Select(y, p)
  {
    if y == [] {
      assert x + y == x;
    } else {
      assert (x + y)[..|x + y| - 1] == x + y[..|y| - 1];
      SelectAppend(x, y[..|y| - 1], p);
    }
  }

  lemma {:induction false} SumAppend(x: seq<Entry>, y: seq<Entry>)
    ensures Sum(x + y) == Sum(x) + Sum(y)
  {
    if y == [] {
      assert x + y == x;
    } else {
      assert (x + y)[..|x + y| - 1] == x + y[..|y| - 1];
      SumAppend(x, y[..|y| - 1]);
    }
  }

  lemma {:induction false} SelectNone(log: seq<Entry>, p: Entry -> bool)
    requires forall e :: e in log ==> !p(e)
    ensures Select(log, p) == []
  {
    if log != [] {
      SelectNone(log[..|log| - 1], p);
    }
  }

  lemma {:induction false} SelectAll(log: seq<Entry>, p: Entry -> bool)
    requires forall e :: e in log ==> p(e)
    ensures Select(log, p) == log
  {
    if log != [] {
      SelectAll(log[..|log| - 1], p);
      assert log == log[..|log| - 1] + [log[|log| - 1]];
    }
  }

  lemma SelectOne(e: Entry, p: Entry -> bool)
    ensures Select([e], p) == if p(e) then [e] else []
  {
    assert [e][..0] == [];
  }

  // ----- the order of account IDs -----

  // Go's insertion sort by account ID: an element settles after every element that is
  // not greater, so equal accounts keep their order.
  function Insert(es: seq<Entry>, e: Entry): seq<Entry> {
    if es == [] || es[|es| - 1].account <= e.account then es + [e]
    else Insert(es[..|es| - 1], e) + [es[|es| - 1]]
  }

  function SortEntries(es: seq<Entry>): seq<Entry> {
    if es == [] then [] else Insert(SortEntries(es[..|es| - 1]), es[|es| - 1])
  }

  predicate Ascending(es: seq<Entry>) {
    forall i, j :: 0 <= i < j < |es| ==> es[i].account <= es[j].account
  }

  predicate AllUpTo(es: seq<Entry>, a: AccountId) {
    forall i :: 0 <= i < |es| ==> es[i].account <= a
  }

  lemma {:induction false} InsertUpTo(es: seq<Entry>, e: Entry, a: AccountId)
    requires AllUpTo(es, a) && e.account <= a
    ensures AllUpTo(Insert(es, e), a)
  {
    if es != [] && es[|es| - 1].account > e.account {
      InsertUpTo(es[..|es| - 1], e, a);
    }
  }

  lemma AscendingAppend(es: seq<Entry>, e: Entry)
    requires Ascending(es) && (es == [] || es[|es| - 1].account <= e.account || AllUpTo(es, e.account))
    ensures Ascending(es + [e])
  {
  }

  lemma {:induction false} InsertKeeps(es: seq<Entry>, e: Entry)
    requires Ascending(es)
    ensures Ascending(Insert(es, e))
  {
    if es == [] || es[|es| - 1].account <= e.account {
      AscendingAppend(es, e);
    } else {
      var init, last := es[..|es| - 1], es[|es| - 1];
      InsertKeeps(init, e);
      InsertUpTo(init, e, last.account);
      AscendingAppend(Insert(init, e), last);
    }
  }

  lemma {:induction false} InsertPermutes(es: seq<Entry>, e: Entry)
    ensures multiset(Insert(es, e)) == multiset(es) + multiset{e}
  {
    if es != [] && es[|es| - 1].account > e.account {
      InsertPermutes(es[..|es| - 1], e);
      assert es == es[..|es| - 1] + [es[|es| - 1]];
    }
  }

  lemma {:induction false} InsertIsStable(es: seq<Entry>, e: Entry, a: AccountId)
    requires Ascending(es)
    ensures Select(Insert(es, e), OfAccount(a)) == Select(es + [e], OfAccount(a))
  {
    if es == [] || es[|es| - 1].account <= e.account {
    } else {
      var init, last, p := es[..|es| - 1], es[|es| - 1], OfAccount(a);
      assert es == init + [last];
      InsertIsStable(init, e, a);
      assert Select([last], p) == [] || Select([e], p) == [] by { SelectOne(e, p); SelectOne(last, p); }
      SelectAppend(Insert(init, e), [last], p);
      SelectAppend(init, [e], p);
      SelectAppend(init, [last], p);
      SelectAppend(es, [e], p);
      Swap(Select(init, p), Select([last], p), Select([e], p));
    }
  }

  lemma Swap(x: seq<Entry>, y: seq<Entry>, z: seq<Entry>)
    requires y == [] || z == []
    ensures x + y + z == x + z + y
  {
  }

  // A stable sorted permutation: ascending, and each account's entries in their old order.
  lemma {:induction false} SortIsStable(es: seq<Entry>)
    ensures Ascending(SortEntries(es))
    ensures multiset(SortEntries(es)) == multiset(es)
    ensures forall a :: Select(SortEntries(es), OfAccount(a)) == Select(es, OfAccount(a))
  {
    if es != [] {
      var init, last := es[..|es| - 1], es[|es| - 1];
      assert es == init + [last];
      SortIsStable(init);
      InsertKeeps(SortEntries(init), last);
      InsertPermutes(SortEntries(init), last);
      forall a ensures Select(SortEntries(es), OfAccount(a)) == Select(es, OfAccount(a)) {
        InsertIsStable(SortEntries(init), last, a);
        SelectAppend(SortEntries(init), [last], OfAccount(a));
        SelectAppend(init, [last], OfAccount(a));
      }
    }
  }

  // The order in which lockBalances takes its row locks: sorted, each account once.
  function InsertId(ids: seq<AccountId>, a: AccountId): seq<AccountId> {
    if ids == [] || ids[|ids| - 1] < a then ids + [a]
    else if ids[|ids| - 1] == a then ids
    else InsertId(ids[..|ids| - 1], a) + [ids[|ids| - 1]]
  }

  function LockOrder(ids: seq<AccountId>): seq<AccountId> {
    if ids == [] then [] else InsertId(LockOrder(ids[..|ids| - 1]), ids[|ids| - 1])
  }

  predicate StrictlyAscending(ids: seq<AccountId>) {
    forall i, j :: 0 <= i < j < |ids| ==> ids[i] < ids[j]
  }

  lemma {:induction false} InsertIdKeeps(ids: seq<AccountId>, a: AccountId)
    requires StrictlyAscending(ids)
    ensures StrictlyAscending(InsertId(ids, a))
    ensures forall x :: x in InsertId(ids, a) <==> x == a || x in ids
  {
    if ids == [] || ids[|ids| - 1] <= a {
    } else {
      var init, last := ids[..|ids| - 1], ids[|ids| - 1];
      assert ids == init + [last];
      InsertIdKeeps(init, a);
      var r := InsertId(init, a);
      forall i | 0 <= i < |r| ensures r[i] < last {
        assert r[i] in r;
        if r[i] != a { var j :| 0 <= j < |init| && init[j] == r[i]; assert ids[j] == r[i]; }
      }
      assert InsertId(ids, a) == r + [last];
    }
  }

  lemma {:induction false} LockOrderAscends(ids: seq<AccountId>)
    ensures StrictlyAscending(LockOrder(ids))
    ensures forall x :: x in LockOrder(ids) <==> x in ids
  {
    if ids != [] {
      LockOrderAscends(ids[..|ids| - 1]);
      InsertIdKeeps(LockOrder(ids[..|ids| - 1]), ids[|ids| - 1]);
      assert ids == ids[..|ids| - 1] + [ids[|ids| - 1]];
    }
  }

  function AccountsOf(es: seq<Entry>): (r: seq<AccountId>)
    ensures |r| == |es| && forall i :: 0 <= i < |es| ==> r[i] == es[i].account
  {
    seq(|es|, i requires 0 <= i < |es| => es[i].account)
  }

  lemma LastIsGreatest(x: seq<AccountId>, a: AccountId)
    requires StrictlyAscending(x) && a in x
    ensures a <= x[|x| - 1]
    ensures a in x[..|x| - 1] <==> a < x[|x| - 1]
  {
    var i :| 0 <= i < |x| && x[i] == a;
  }

  lemma SameTail(x: seq<AccountId>, y: seq<AccountId>, a: AccountId)
    requires StrictlyAscending(x) && StrictlyAscending(y) && x != [] && y != []
    requires x[|x| - 1] == y[|y| - 1] && (a in x <==> a in y)
    ensures a in x[..|x| - 1] <==> a in y[..|y| - 1]
  {
  }

  lemma {:induction false} SameSetSameOrder(x: seq<AccountId>, y: seq<AccountId>)
    requires StrictlyAscending(x) && StrictlyAscending(y)
    requires forall a :: a in x <==> a in y
    ensures x == y
  {
    assert x != [] ==> x[0] in y;
    assert y != [] ==> y[0] in x;
    if x != [] && y != [] {
      var m, n := |x| - 1, |y| - 1;
      assert x[m] == y[n] by {
        LastIsGreatest(x, y[n]);
        LastIsGreatest(y, x[m]);
      }
      forall a ensures a in x[..m] <==> a in y[..n] { SameTail(x, y, a); }
      SameSetSameOrder(x[..m], y[..n]);
      assert x == x[..m] + [x[m]] && y == y[..n] + [y[n]];
    }
  }

  // Each account where it first comes up.
  function SkipRepeats(ids: seq<AccountId>): seq<AccountId> {
    if ids == [] then []
    else
      var before, last := SkipRepeats(ids[..|ids| - 1]), ids[|ids| - 1];
      if last in before then before else before + [last]
  }

  predicate Nondecreasing(ids: seq<AccountId>) {
    forall i, j :: 0 <= i < j < |ids| ==> ids[i] <= ids[j]
  }

  lemma {:induction false} SkipMembers(ids: seq<AccountId>)
    ensures forall a :: a in SkipRepeats(ids) <==> a in ids
  {
    if ids != [] {
      SkipMembers(ids[..|ids| - 1]);
      assert ids == ids[..|ids| - 1] + [ids[|ids| - 1]];
    }
  }

  lemma AscendingSnoc(ids: seq<AccountId>, a: AccountId)
    requires StrictlyAscending(ids) && forall x :: x in ids ==> x < a
    ensures StrictlyAscending(ids + [a])
  {
    assert forall i :: 0 <= i < |ids| ==> ids[i] in ids;
  }

  // In a sorted sequence, skipping repeats leaves strictly ascending accounts.
  lemma {:induction false} SkipAscends(ids: seq<AccountId>)
    requires Nondecreasing(ids)
    ensures StrictlyAscending(SkipRepeats(ids))
  {
    if ids != [] {
      var init, last := ids[..|ids| - 1], ids[|ids| - 1];
      SkipAscends(init);
      SkipMembers(init);
      if last !in SkipRepeats(init) {
        forall x | x in SkipRepeats(init) ensures x < last {
          var j :| 0 <= j < |init| && init[j] == x;
          assert ids[j] == x;
        }
        AscendingSnoc(SkipRepeats(init), last);
      }
    }
  }

  /** Visiting the entries in update order meets the accounts in exactly the order their rows were locked. */
  lemma UpdateOrderIsLockOrder(es: seq<Entry>)
    ensures SkipRepeats(AccountsOf(SortEntries(es))) == LockOrder(AccountsOf(es))
  {
    SortIsStable(es);
    var sorted := SortEntries(es);
    assert Nondecreasing(AccountsOf(sorted));
    SkipAscends(AccountsOf(sorted));
    SkipMembers(AccountsOf(sorted));
    LockOrderAscends(AccountsOf(es));
    forall a ensures a in AccountsOf(sorted) <==> a in AccountsOf(es) {
      if a in AccountsOf(sorted) {
        var i :| 0 <= i < |sorted| && sorted[i].account == a;
        assert sorted[i] in multiset(sorted) && sorted[i] in es;
      }
      if a in AccountsOf(es) {
        var i :| 0 <= i < |es| && es[i].account == a;
        assert es[i] in multiset(es) && es[i] in sorted;
      }
    }
    SameSetSameOrder(SkipRepeats(AccountsOf(sorted)), LockOrder(AccountsOf(es)));
  }
}
