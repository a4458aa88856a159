// The statements of one open transaction, in the order the Go code issues them, proved against the
// specification functions the sequential machine is made of.
module Repository {
  import opened Prelude
  import opened Schema
  import opened Sequential
  import opened Books
  import opened Machine
  import opened Linearizable

  // ----- sorting -----

  // Where insertion sort stops swapping is where Insert puts the element.
  lemma {:induction false} InsertSplit(es: seq<Entry>, e: Entry, j: nat)
    requires j <= |es| && (j > 0 ==> es[j - 1].account <= e.account)
    requires forall k :: j <= k < |es| ==> es[k].account > e.account
    ensures Insert(es, e) == es[..j] + [e] + es[j..]
  {
    if j < |es| {
      var init := es[..|es| - 1];
      InsertSplit(init, e, j);
      assert init[..j] == es[..j] && init[j..] + [es[|es| - 1]] == es[j..];
    } else {
      assert es[..j] == es && es[j..] == [];
    }
  }

  // Element i with everything before it in place, after it has been swapped down to position j.
  ghost predicate Sunk(now: seq<Entry>, placed: seq<Entry>, e: Entry, j: nat) {
    j <= |placed| && now == placed[..j] + [e] + placed[j..]
  }

  lemma SinksFrom(placed: seq<Entry>, e: Entry)
    ensures Sunk(placed + [e], placed, e, |placed|)
  {
  }

  lemma SunkAt(now: seq<Entry>, placed: seq<Entry>, e: Entry, j: nat)
    requires Sunk(now, placed, e, j)
    ensures |now| == |placed| + 1 && now[j] == e && (j > 0 ==> now[j - 1] == placed[j - 1])
  {
  }

  // One swap.
  lemma SinksOn(now: seq<Entry>, placed: seq<Entry>, e: Entry, j: nat)
    requires 0 < j <= |placed| && Sunk(now, placed, e, j)
    ensures |now| == |placed| + 1 && now[j] == e && now[j - 1] == placed[j - 1]
    ensures Sunk(now[j := now[j - 1]][j - 1 := now[j]], placed, e, j - 1)
  {
    SunkAt(now, placed, e, j);
    assert now[j := now[j - 1]][j - 1 := now[j]] == placed[..j - 1] + [e] + placed[j - 1..];
  }

  // The inner loop: swap element i down past every greater one.
  method Sink(out: array<Entry>, i: nat)
    requires i < out.Length
    modifies out
    ensures out[..i + 1] == Insert(old(out[..i]), old(out[i]))
    ensures forall k :: i < k < out.Length ==> out[k] == old(out[k])
  {
    ghost var placed, e := out[..i], out[i];
    var j := i;
    assert out[..i + 1] == placed + [e];
    hide Sunk, Insert;
    SinksFrom(placed, e);
    while j > 0 && out[j].account < out[j - 1].account
      invariant j <= i && Sunk(out[..i + 1], placed, e, j)
      invariant forall k :: j <= k < i ==> placed[k].account > e.account
      invariant forall k :: i < k < out.Length ==> out[k] == old(out[k])
    {
      ghost var now := out[..i + 1];
      SinksOn(now, placed, e, j);
      assert now[j] == out[j] && now[j - 1] == out[j - 1];
      out[j], out[j - 1] := out[j - 1], out[j];
      assert out[..i + 1] == now[j := now[j - 1]][j - 1 := now[j]];
      j := j - 1;
    }
    SunkAt(out[..i + 1], placed, e, j);
    assert out[..i + 1][j] == out[j] && (j > 0 ==> out[..i + 1][j - 1] == out[j - 1]);
    InsertSplit(placed, e, j);
  }

  lemma SortOne(es: seq<Entry>)
    requires es != []
    ensures SortEntries(es[..1]) == [es[0]]
  {
    assert es[..1][..0] == [];
  }

  lemma SortNext(es: seq<Entry>, i: nat)
    requires i < |es|
    ensures SortEntries(es[..i + 1]) == Insert(SortEntries(es[..i]), es[i])
  {
    assert es[..i + 1][..i] == es[..i];
  }

  // sortedEntriesByAccount: copy, then insertion sort by swapping neighbours.
  method SortedEntriesByAccount(entries: seq<Entry>) returns (sorted: seq<Entry>)
    ensures sorted == SortEntries(entries)
  {
    var out := new Entry[|entries|](i requires 0 <= i < |entries| => entries[i]);
    if |entries| == 0 {
      return [];
    }
    hide SortEntries, Insert;
    var i := 1;
    SortOne(entries);
    assert out[..1] == [entries[0]];
    while i < out.Length
      invariant 1 <= i <= out.Length == |entries|
      invariant out[..i] == SortEntries(entries[..i])
      invariant forall k :: i <= k < out.Length ==> out[k] == entries[k]
    {
      Sink(out, i);
      SortNext(entries, i);
      i := i + 1;
    }
    assert entries[..i] == entries && out[..i] == out[..];
    return out[..];
  }

  // sort.Strings on account IDs.
  function InsertSorted(ids: seq<AccountId>, a: AccountId): seq<AccountId> {
    if ids == [] || ids[|ids| - 1] <= a then ids + [a]
    else InsertSorted(ids[..|ids| - 1], a) + [ids[|ids| - 1]]
  }

  function SortIds(ids: seq<AccountId>): seq<AccountId> {
    if ids == [] then [] else InsertSorted(SortIds(ids[..|ids| - 1]), ids[|ids| - 1])
  }

  predicate IdsUpTo(ids: seq<AccountId>, a: AccountId) {
    forall i :: 0 <= i < |ids| ==> ids[i] <= a
  }

  lemma {:induction false} InsertSortedUpTo(ids: seq<AccountId>, a: AccountId, bound: AccountId)
    requires IdsUpTo(ids, bound) && a <= bound
    ensures IdsUpTo(InsertSorted(ids, a), bound)
  {
    if ids != [] && ids[|ids| - 1] > a {
      InsertSortedUpTo(ids[..|ids| - 1], a, bound);
    }
  }

  lemma {:induction false} InsertSortedKeeps(ids: seq<AccountId>, a: AccountId)
    requires Nondecreasing(ids)
    ensures Nondecreasing(InsertSorted(ids, a))
  {
    if ids != [] && ids[|ids| - 1] > a {
      InsertSortedKeeps(ids[..|ids| - 1], a);
      InsertSortedUpTo(ids[..|ids| - 1], a, ids[|ids| - 1]);
    }
  }

  lemma {:induction false} InsertSortedPermutes(ids: seq<AccountId>, a: AccountId)
    ensures multiset(InsertSorted(ids, a)) == multiset(ids) + multiset{a}
  {
    if ids != [] && ids[|ids| - 1] > a {
      InsertSortedPermutes(ids[..|ids| - 1], a);
      assert ids == ids[..|ids| - 1] + [ids[|ids| - 1]];
    }
  }

  lemma {:induction false} SortIdsSorts(ids: seq<AccountId>)
    ensures Nondecreasing(SortIds(ids))
    ensures multiset(SortIds(ids)) == multiset(ids)
  {
    if ids != [] {
      SortIdsSorts(ids[..|ids| - 1]);
      InsertSortedKeeps(SortIds(ids[..|ids| - 1]), ids[|ids| - 1]);
      InsertSortedPermutes(SortIds(ids[..|ids| - 1]), ids[|ids| - 1]);
      assert ids == ids[..|ids| - 1] + [ids[|ids| - 1]];
    }
  }

  // Sorting first, then skipping accounts already seen, gives the lock order.
  lemma SortThenSkip(ids: seq<AccountId>)
    ensures SkipRepeats(SortIds(ids)) == LockOrder(ids)
  {
    SortIdsSorts(ids);
    SkipAscends(SortIds(ids));
    SkipMembers(SortIds(ids));
    LockOrderAscends(ids);
    forall a ensures a in ids <==> a in SortIds(ids) {
      assert a in multiset(ids) <==> a in multiset(SortIds(ids));
    }
    SameSetSameOrder(SkipRepeats(SortIds(ids)), LockOrder(ids));
  }

  lemma SkipNext(ids: seq<AccountId>, i: nat)
    requires i < |ids|
    ensures var before := SkipRepeats(ids[..i]);
      SkipRepeats(ids[..i + 1]) == if ids[i] in before then before else before + [ids[i]]
  {
    assert ids[..i + 1][..i] == ids[..i];
  }

  lemma {:induction false} SkipPrefix(ids: seq<AccountId>, i: nat)
    requires i <= |ids|
    ensures SkipRepeats(ids[..i]) <= SkipRepeats(ids)
    decreases |ids| - i
  {
    if i < |ids| {
      SkipNext(ids, i);
      SkipPrefix(ids, i + 1);
    } else {
      assert ids[..i] == ids;
    }
  }

  lemma {:induction false} MissingPrefix(s: Store, x: seq<AccountId>, y: seq<AccountId>, n: nat)
    requires n <= |x| && x <= y
    ensures Missing(s, x, n) == Missing(s, y, n)
  {
    if n > 0 { MissingPrefix(s, x, y, n - 1); }
  }

  lemma SkipNone()
    ensures SkipRepeats([]) == []
  {
  }

  // ----- the transaction -----

  class Tx {
    const committed: Store       // what its statements see under their own writes
    var w: Store                 // its own writes
    var locks: seq<AccountId>    // balance rows locked, in order

    constructor (s: Store)
      ensures committed == s && w == EMPTY && locks == []
    {
      committed := s;
      w := EMPTY;
      locks := [];
    }

    // lockBalances
    method LockBalances(ids: seq<AccountId>) returns (out: map<AccountId, Locked>, err: Option<Error>)
      requires locks == []
      modifies this`locks
      ensures Missing(committed, LockOrder(ids), |LockOrder(ids)|).None? <==> err.None?
      ensures err.Some? ==> err.value == UnknownAccount(Missing(committed, LockOrder(ids), |LockOrder(ids)|).value)
      ensures err.None? ==> locks == LockOrder(ids)
      ensures err.None? ==> forall a :: a in ids ==> a in out && Lockable(committed, a) && out[a] == Seen(committed, a)
    {
      hide SkipRepeats, LockOrder, Missing, SortIds, Lockable, Seen;
      SkipNone();
      var ordered := SortIds(ids);
      SortThenSkip(ids);
      out := map[];
      var i := 0;
      assert ordered[..0] == [];
      while i < |ordered|
        invariant i <= |ordered|
        invariant locks == SkipRepeats(ordered[..i])
        invariant forall a :: a in out <==> a in locks
        invariant forall a :: a in out ==> Lockable(committed, a) && out[a] == Seen(committed, a)
      {
        var id := ordered[i];
        SkipNext(ordered, i);
        if id !in out {
          SkipPrefix(ordered, i + 1);
          if !Lockable(committed, id) {
            FirstUnlockable(committed, LockOrder(ids), locks, id);
            return out, Some(UnknownAccount(id));
          }
          out := out[id := Seen(committed, id)];
          locks := locks + [id];
        }
        i := i + 1;
      }
      assert ordered[..i] == ordered;
      AllLocked(committed, ids, locks);
      err := None;
    }

    // insertTransaction
    method InsertTransaction(p: Plan) returns (err: Option<Error>)
      modifies this`w
      ensures err == HeaderError(committed.txns + old(w.txns), committed.oneReversal + old(w.oneReversal), p)
      ensures err.None? ==> w == old(w).(txns := map[p.id := p.txn], oneReversal := NewReversals(p))
    {
      err := HeaderError(committed.txns + w.txns, committed.oneReversal + w.oneReversal, p);
      if err.None? {
        w := w.(txns := map[p.id := p.txn], oneReversal := NewReversals(p));
      }
    }

    // insertEntries
    method InsertEntries(es: seq<Entry>) returns (err: Option<Error>)
      requires w.entries == []
      modifies this`w
      ensures err.None? <==> EntriesError(committed.accounts + old(w.accounts), committed.txns + old(w.txns), es, |es|).None?
      ensures err.Some? ==> err == EntriesError(committed.accounts + old(w.accounts), committed.txns + old(w.txns), es, |es|)
      ensures err.None? ==> w == old(w).(entries := es)
    {
      ghost var accounts, txns := committed.accounts + w.accounts, committed.txns + w.txns;
      var i := 0;
      while i < |es|
        invariant i <= |es|
        invariant w == old(w).(entries := es[..i])
        invariant EntriesError(accounts, txns, es, i).None?
      {
        err := EntryError(committed.accounts + w.accounts, committed.txns + w.txns, es[i]);
        if err.Some? {
          EntriesErrorPersists(accounts, txns, es, i + 1, |es|);
          return;
        }
        assert es[..i + 1] == es[..i] + [es[i]];
        w := w.(entries := w.entries + [es[i]]);
        i := i + 1;
      }
      assert es[..i] == es;
      err := None;
    }

    // the loop over sortedEntriesByAccount and applyBalanceDelta
    method ApplyBalances(es: seq<Entry>) returns (err: Option<Error>)
      requires w.balances == map[]
      modifies this`w
      ensures err.None? <==> Apply(committed.balances, SortEntries(es), |SortEntries(es)|).Rows?
      ensures err.Some? ==> Apply(committed.balances, SortEntries(es), |SortEntries(es)|) == Broken(err.value)
      ensures err.None? ==>
        w == old(w).(balances := Apply(committed.balances, SortEntries(es), |SortEntries(es)|).rows)
    {
      hide SortEntries, UpdateRow;
      var sorted := SortedEntriesByAccount(es);
      var i := 0;
      while i < |sorted|
        invariant i <= |sorted| && sorted == SortEntries(es)
        invariant Apply(committed.balances, sorted, i) == Applied.Rows(w.balances)
        invariant w == old(w).(balances := w.balances)
      {
        var u := UpdateRow(committed.balances + w.balances, sorted[i]);
        if u.Refused? {
          BrokenPersists(committed.balances, sorted, i + 1, |sorted|);
          return Some(u.error);
        }
        w := w.(balances := w.balances[sorted[i].account := u.row]);
        i := i + 1;
      }
      err := None;
    }
  }

  lemma FirstUnlockable(s: Store, full: seq<AccountId>, locked: seq<AccountId>, id: AccountId)
    requires locked + [id] <= full && !Lockable(s, id)
    requires forall a :: a in locked ==> Lockable(s, a)
    ensures Missing(s, full, |full|) == Some(id)
  {
    MissingNone(s, locked, |locked|);
    assert locked <= full;
    MissingPrefix(s, locked, full, |locked|);
    assert full[|locked|] == id;
    MissingPersists(s, full, |locked| + 1, |full|);
  }

  lemma AllLocked(s: Store, ids: seq<AccountId>, locked: seq<AccountId>)
    requires locked == LockOrder(ids) && forall a :: a in locked ==> Lockable(s, a)
    ensures Missing(s, LockOrder(ids), |LockOrder(ids)|).None?
    ensures forall a :: a in ids ==> a in locked
  {
    LockOrderAscends(ids);
    MissingNone(s, LockOrder(ids), |LockOrder(ids)|);
  }
}
