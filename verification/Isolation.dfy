// Locks and uncommitted keys keep concurrent sessions out of each other's way, so what a session
// knows stays true while others commit; hence every run is a sequential history.
module Isolation {
  import opened Prelude
  import opened Schema
  import opened Sequential
  import opened Books
  import opened Machine
  import opened Linearizable

  // ----- commits of other sessions -----

  // s' is s after commits that leave alone everything `me` relies on.
  ghost predicate Leaves(s: Store, s': Store, me: Session) {
    && KeepsAccounts(s, s', me) && KeepsTxns(s, s')
    && Fresh(me.call, s')
    && (me.phase != Begun ==> KeepsRecord(s, s', me.call.cmd.req.key))
    && (forall a :: a in me.w.accounts ==> a !in s'.accounts)
    && (forall t :: t in me.w.oneReversal ==> KeepsOriginal(s, s', t))
  }

  ghost predicate KeepsAccounts(s: Store, s': Store, me: Session) {
    && (forall a :: a in s.accounts ==> a in s'.accounts && s'.accounts[a] == s.accounts[a])
    && (forall a :: a in s.balances ==> a in s'.balances)
    && (forall a :: a in me.seen && a in s.balances ==> s'.balances[a] == s.balances[a])
  }

  ghost predicate KeepsTxns(s: Store, s': Store) {
    forall t :: t in s.txns ==> KeepsTxn(s, s', t)
  }

  ghost predicate KeepsTxn(s: Store, s': Store, t: Id)
    requires t in s.txns
  {
    t in s'.txns && s'.txns[t] == s.txns[t] && Select(s'.entries, OfTxn(t)) == Select(s.entries, OfTxn(t))
  }

  predicate KeepsRecord(s: Store, s': Store, k: Key) {
    (k in s.records <==> k in s'.records) && (k in s.records ==> s'.records[k] == s.records[k])
  }

  predicate KeepsOriginal(s: Store, s': Store, t: Id) {
    (t in s.oneReversal <==> t in s'.oneReversal) && (t in s.reversals <==> t in s'.reversals)
  }

  lemma SeenStays(s: Store, s': Store, me: Session)
    requires SeenOk(s, me) && KeepsAccounts(s, s', me)
    ensures SeenOk(s', me)
  {
  }

  lemma {:induction false} MissingAll(s: Store, order: seq<AccountId>, n: nat, i: nat)
    requires i < n <= |order| && Missing(s, order, n).None?
    ensures Lockable(s, order[i])
  {
    if i < n - 1 { MissingAll(s, order, n - 1, i); }
  }

  lemma NoneMissing(s: Store, s': Store, me: Session, order: seq<AccountId>)
    requires KeepsAccounts(s, s', me) && Missing(s, order, |order|).None?
    ensures Missing(s', order, |order|).None?
  {
    forall i | 0 <= i < |order| ensures Lockable(s', order[i]) { MissingAll(s, order, |order|, i); }
    MissingNone(s', order, |order|);
  }

  lemma PayReadyStays(s: Store, s': Store, me: Session, p: Plan)
    requires me.call.cmd.Transfer? && PreparePay(me.call, s) == Go(p) && Covers(me, p)
    requires SeenOk(s, me) && KeepsAccounts(s, s', me)
    ensures PreparePay(me.call, s') == Go(p)
  {
    var cmd := me.call.cmd;
    NoneMissing(s, s', me, PayOrder(cmd));
    assert p.entries[0].account == cmd.source && p.entries[1].account == cmd.dest;
  }

  lemma UndoStays(s: Store, s': Store, me: Session, t: Id)
    requires KeepsTxns(s, s') && Undoable(s, me.call, t)
    ensures Undoable(s', me.call, t) && UndoOrder(s', t) == UndoOrder(s, t) && s'.txns[t] == s.txns[t]
    ensures Select(s'.entries, OfTxn(t)) == Select(s.entries, OfTxn(t))
  {
    assert KeepsTxn(s, s', t);
  }

  lemma ReadyStays(s: Store, s': Store, me: Session, p: Plan)
    requires Ready(s, me.call, p) && Covers(me, p)
    requires SeenOk(s, me) && KeepsAccounts(s, s', me) && KeepsTxns(s, s')
    ensures Ready(s', me.call, p)
  {
    hide KeepsTxns, KeepsAccounts, SeenOk, Covers, Missing;
    if me.call.cmd.Transfer? {
      PayReadyStays(s, s', me, p);
    } else {
      var t := me.call.cmd.target.id;
      UndoStays(s, s', me, t);
      NoneMissing(s, s', me, UndoOrder(s, t));
    }
  }

  lemma AimsStay(s: Store, s': Store, me: Session, order: seq<AccountId>, original: Loaded)
    requires Aims(s, me.call, order, original) && KeepsTxns(s, s')
    ensures Aims(s', me.call, order, original)
  {
    if original.Original? { UndoStays(s, s', me, original.id); }
  }

  lemma ReadyId(s: Store, c: Call, p: Plan)
    requires Ready(s, c, p)
    ensures p.id == c.txnId && p.eventId == c.eventId
    ensures p.txn.reverses.Some? ==> p.txn.reverses.value in s.txns
  {
  }

  lemma HeaderDoneStays(s: Store, s': Store, me: Session, p: Plan)
    requires HeaderDone(s, me, p) && me.w.oneReversal == NewReversals(p)
    requires SeenOk(s, me) && Leaves(s, s', me)
    ensures HeaderDone(s', me, p)
  {
    hide Ready, KeepsAccounts, KeepsTxns, Covers, SeenOk;
    ReadyStays(s, s', me, p);
    ReadyId(s, me.call, p);
    ReadyId(s', me.call, p);
    if p.txn.reverses.Some? {
      assert KeepsOriginal(s, s', p.txn.reverses.value);
    }
  }

  lemma EntryStillOk(s: Store, s': Store, me: Session, id: Id, txn: Txn, e: Entry)
    requires KeepsAccounts(s, s', me) && KeepsTxns(s, s')
    requires EntryError(s.accounts, s.txns[id := txn], e).None?
    ensures EntryError(s'.accounts, s'.txns[id := txn], e).None?
  {
    assert e.txn in s.txns ==> KeepsTxn(s, s', e.txn);
  }

  lemma {:induction false} EntriesStay(s: Store, s': Store, me: Session, p: Plan, n: nat)
    requires KeepsAccounts(s, s', me) && KeepsTxns(s, s') && EntriesDone(s, p, n)
    ensures EntriesDone(s', p, n)
  {
    if n > 0 {
      EntriesStay(s, s', me, p, n - 1);
      EntryStillOk(s, s', me, p.id, p.txn, p.entries[n - 1]);
    }
  }

  lemma {:induction false} ApplyFrame(base: map<AccountId, Balance>, base': map<AccountId, Balance>,
                                      es: seq<Entry>, n: nat)
    requires n <= |es|
    requires forall i :: 0 <= i < n ==> es[i].account in base && es[i].account in base'
    requires forall i :: 0 <= i < n ==> base'[es[i].account] == base[es[i].account]
    ensures Apply(base', es, n) == Apply(base, es, n)
  {
    if n > 0 { ApplyFrame(base, base', es, n - 1); }
  }

  lemma SortedCovered(me: Session, p: Plan, i: nat)
    requires Covers(me, p) && i < |SortEntries(p.entries)|
    ensures SortEntries(p.entries)[i].account in me.seen
  {
    SortIsStable(p.entries);
    var e := SortEntries(p.entries)[i];
    assert e in multiset(SortEntries(p.entries));
    assert e in p.entries;
    var j :| 0 <= j < |p.entries| && p.entries[j] == e;
  }

  lemma RowsStay(s: Store, s': Store, me: Session, p: Plan, n: nat)
    requires Covers(me, p) && SeenOk(s, me) && KeepsAccounts(s, s', me) && RowsDone(s, p, n)
    ensures RowsDone(s', p, n) && RowsSoFar(s', p, n) == RowsSoFar(s, p, n)
  {
    var es := SortEntries(p.entries);
    forall i | 0 <= i < n
      ensures es[i].account in s.balances && es[i].account in s'.balances
      ensures s'.balances[es[i].account] == s.balances[es[i].account]
    {
      SortedCovered(me, p, i);
    }
    ApplyFrame(s.balances, s'.balances, es, n);
  }

  lemma NotNotedStays(s: Store, s': Store, me: Session, p: Plan)
    requires NotNoted(s, p) && Leaves(s, s', me) && me.w.oneReversal == NewReversals(p)
    ensures NotNoted(s', p)
  {
    if p.txn.reverses.Some? { assert KeepsOriginal(s, s', p.txn.reverses.value); }
  }

  lemma CreatingStays(s: Store, s': Store, me: Session)
    requires Creating(s, me) && Leaves(s, s', me) && me.call.cmd.id in me.w.accounts
    ensures Creating(s', me)
  {
  }

  lemma EarlyStays(s: Store, s': Store, me: Session)
    requires Progress(s, me) && Leaves(s, s', me)
    requires me.phase.Begun? || me.phase.KeyHeld? || me.phase.Claimed? || me.phase.AccountRow? || me.phase.Hit?
    ensures Progress(s', me)
  {
    hide PostingsOk, UpdatesOk, PostedOk, FinalOk, LockingOk, KeepsAccounts, KeepsTxns, SeenOk;
    if !me.phase.Begun? && !me.phase.KeyHeld? && !me.phase.Hit? { SeenStays(s, s', me); }
    if me.phase.Hit? { HitStays(s, s', me); }
  }

  lemma HitStays(s: Store, s': Store, me: Session)
    requires me.call.cmd.req.key in s.records && KeepsTxns(s, s') && KeepsRecord(s, s', me.call.cmd.req.key)
    requires Replay(s, s.records[me.call.cmd.req.key], me.call.cmd.req.hash).Ok?
    ensures Replay(s', s'.records[me.call.cmd.req.key], me.call.cmd.req.hash)
      == Replay(s, s.records[me.call.cmd.req.key], me.call.cmd.req.hash)
  {
    var rec := s.records[me.call.cmd.req.key];
    if rec.txn.Some? { assert KeepsTxn(s, s', rec.txn.value); }
  }

  lemma LockingStays(s: Store, s': Store, me: Session)
    requires Progress(s, me) && Leaves(s, s', me) && (me.phase.Locking? || me.phase.Header?)
    ensures Progress(s', me)
  {
    hide PostingsOk, UpdatesOk, PostedOk, FinalOk, KeepsAccounts, KeepsTxns, SeenOk, Locks, Ready, Covers, Aims;
    SeenStays(s, s', me);
    match me.phase
    case Locking(order, n, original) => AimsStay(s, s', me, order, original);
    case Header(p) => ReadyStays(s, s', me, p);
  }

  lemma PostingStays(s: Store, s': Store, me: Session)
    requires Progress(s, me) && Leaves(s, s', me) && (me.phase.Postings? || me.phase.Updates?)
    ensures Progress(s', me)
  {
    hide PostedOk, FinalOk, KeepsAccounts, KeepsTxns, SeenOk, LockingOk, HeaderDone, EntriesDone, RowsDone;
    SeenStays(s, s', me);
    match me.phase
    case Postings(p, n) =>
      HeaderDoneStays(s, s', me, p);
      EntriesStay(s, s', me, p, n);
    case Updates(p, n) =>
      HeaderDoneStays(s, s', me, p);
      EntriesStay(s, s', me, p, |p.entries|);
      HeaderCovers(s, me, p);
      RowsStay(s, s', me, p, n);
  }

  lemma HeaderCovers(s: Store, me: Session, p: Plan)
    requires HeaderDone(s, me, p)
    ensures Covers(me, p)
  {
  }

  lemma PostedStays(s: Store, s': Store, me: Session, p: Plan, reversals: map<Id, Id>, outbox: map<Id, Event>)
    requires PostedOk(s, me, p, reversals, outbox) && SeenOk(s, me) && Leaves(s, s', me)
    ensures PostedOk(s', me, p, reversals, outbox)
  {
    hide KeepsAccounts, KeepsTxns, SeenOk, HeaderDone, EntriesDone, RowsDone;
    HeaderDoneStays(s, s', me, p);
    EntriesStay(s, s', me, p, |p.entries|);
    HeaderCovers(s, me, p);
    RowsStay(s, s', me, p, |SortEntries(p.entries)|);
  }

  lemma FinalStays(s: Store, s': Store, me: Session, p: Plan)
    requires FinalOk(s, me, p) && SeenOk(s, me) && Leaves(s, s', me)
    ensures FinalOk(s', me, p)
  {
    hide KeepsAccounts, KeepsTxns, SeenOk, HeaderDone, EntriesDone, RowsDone, NotNoted;
    HeaderDoneStays(s, s', me, p);
    EntriesStay(s, s', me, p, |p.entries|);
    HeaderCovers(s, me, p);
    RowsStay(s, s', me, p, |SortEntries(p.entries)|);
    NotNotedStays(s, s', me, p);
  }

  lemma PostedIndex(s: Store, me: Session, p: Plan, reversals: map<Id, Id>, outbox: map<Id, Event>)
    requires PostedOk(s, me, p, reversals, outbox)
    ensures me.w.oneReversal == NewReversals(p)
  {
  }

  lemma LateStays(s: Store, s': Store, me: Session)
    requires Progress(s, me) && Leaves(s, s', me)
    requires me.phase.ReversalRow? || me.phase.EventRow? || me.phase.Completing? || me.phase.Committing?
    ensures Progress(s', me)
  {
    hide PostedOk, FinalOk, KeepsAccounts, KeepsTxns, SeenOk, LockingOk, PostingsOk, UpdatesOk, Creating, NotNoted;
    SeenStays(s, s', me);
    match me.phase
    case ReversalRow(p) => PostedStays(s, s', me, p, map[], map[]);
    case EventRow(p) =>
      PostedStays(s, s', me, p, NewReversals(p), map[]);
      PostedIndex(s, me, p, NewReversals(p), map[]);
      NotNotedStays(s, s', me, p);
    case Completing(Some(p)) =>
      PostedStays(s, s', me, p, NewReversals(p), map[p.eventId := p.event]);
      PostedIndex(s, me, p, NewReversals(p), map[p.eventId := p.event]);
      NotNotedStays(s, s', me, p);
    case Completing(None) =>
      CreateIsMine(s, me);
      CreatingStays(s, s', me);
    case Committing(Some(p), _) => FinalStays(s, s', me, p);
    case Committing(None, _) =>
      CreateIsMine(s, me);
      CreatingStays(s, s', me);
  }

  lemma CreateIsMine(s: Store, me: Session)
    requires Creating(s, me) && (me.w == CreateDelta(me.call.cmd) || me.w == CreateWritten(me.call.cmd))
    ensures me.call.cmd.id in me.w.accounts
  {
  }

  // What a session knows stays true while other sessions commit.
  lemma Stays(s: Store, s': Store, me: Session)
    requires Progress(s, me) && Leaves(s, s', me)
    ensures Progress(s', me)
  {
    hide Progress, Leaves;
    if me.phase.Locking? || me.phase.Header? {
      LockingStays(s, s', me);
    } else if me.phase.Postings? || me.phase.Updates? {
      PostingStays(s, s', me);
    } else if me.phase.ReversalRow? || me.phase.EventRow? || me.phase.Completing? || me.phase.Committing? {
      LateStays(s, s', me);
    } else {
      EarlyStays(s, s', me);
    }
  }

  // ----- mutual exclusion -----

  // Two open sessions never hold the same advisory lock, balance row, account ID or original.
  ghost predicate Apart(h: Key -> int, me: Session, other: Session) {
    && DistinctIds(me.call, other.call)
    && (me.phase != Begun && other.phase != Begun ==> h(me.call.cmd.req.key) != h(other.call.cmd.req.key))
    && me.seen.Keys !! other.seen.Keys
    && me.w.accounts.Keys !! other.w.accounts.Keys
    && me.w.oneReversal.Keys !! other.w.oneReversal.Keys
  }

  lemma ApartSymmetric(h: Key -> int, me: Session, other: Session)
    requires Apart(h, me, other)
    ensures Apart(h, other, me)
  {
  }

  // A statement takes only what it did not have to wait for.
  lemma StaysApart(h: Key -> int, s: Store, me: Session, other: Session, next: Session)
    requires Apart(h, me, other) && !WaitsFor(h, me, other) && Progress(s, me)
    requires Local(s, me) == Continue(next)
    ensures Apart(h, next, other)
  {
    hide Progress, Local, WaitsFor, Apart;
    match me.phase
    case Claimed =>
      ClaimedHasNoAccount(s, me);
      AccountApart(h, s, me, other, next);
    case Header(p) =>
      HeaderHasNoOriginal(s, me);
      OriginalApart(h, s, me, other, next);
    case Locking(_, _, _) => RowApart(h, s, me, other, next);
    case Begun => KeyApart(h, s, me, other, next);
    case KeyHeld => KeyApart(h, s, me, other, next);
    case Hit(_) => KeyApart(h, s, me, other, next);
    case _ =>
      LaterTakesNothing(s, me, next);
      SameApart(h, me, other, next);
  }

  lemma KeyApart(h: Key -> int, s: Store, me: Session, other: Session, next: Session)
    requires Apart(h, me, other) && !WaitsFor(h, me, other) && (me.phase.Begun? || me.phase.KeyHeld? || me.phase.Hit?)
    requires Local(s, me) == Continue(next)
    ensures Apart(h, next, other)
  {
  }

  lemma AccountApart(h: Key -> int, s: Store, me: Session, other: Session, next: Session)
    requires Apart(h, me, other) && !WaitsFor(h, me, other) && me.phase.Claimed?
    requires me.w == Claim(me.call.cmd.req) && Local(s, me) == Continue(next)
    ensures Apart(h, next, other)
  {
  }

  lemma RowApart(h: Key -> int, s: Store, me: Session, other: Session, next: Session)
    requires Apart(h, me, other) && !WaitsFor(h, me, other) && me.phase.Locking?
    requires Local(s, me) == Continue(next)
    ensures Apart(h, next, other)
  {
  }

  lemma OriginalApart(h: Key -> int, s: Store, me: Session, other: Session, next: Session)
    requires Apart(h, me, other) && !WaitsFor(h, me, other) && me.phase.Header?
    requires me.w == Claim(me.call.cmd.req) && Local(s, me) == Continue(next)
    ensures Apart(h, next, other)
  {
  }

  lemma SameApart(h: Key -> int, me: Session, other: Session, next: Session)
    requires Apart(h, me, other) && me.phase != Begun && next.phase != Begun && Same(me, next)
    requires next.w.accounts == me.w.accounts && next.w.oneReversal == me.w.oneReversal
    ensures Apart(h, next, other)
  {
  }

  lemma ClaimedHasNoAccount(s: Store, me: Session)
    requires Progress(s, me) && me.phase.Claimed?
    ensures me.w == Claim(me.call.cmd.req)
  {
  }

  lemma HeaderHasNoOriginal(s: Store, me: Session)
    requires Progress(s, me) && me.phase.Header?
    ensures me.w == Claim(me.call.cmd.req)
  {
  }

  lemma LaterTakesNothing(s: Store, me: Session, next: Session)
    requires Local(s, me) == Continue(next)
    requires me.phase.AccountRow? || me.phase.Postings? || me.phase.Updates? || me.phase.ReversalRow? || me.phase.EventRow? ||
             me.phase.Completing? || me.phase.Committing?
    ensures next.phase != Begun && Same(me, next)
    ensures next.w.accounts == me.w.accounts && next.w.oneReversal == me.w.oneReversal
  {
    hide EntryError, UpdateRow, SortEntries, Load, Overlay, TriggersPass;
  }

  // ----- a commit leaves the others alone -----

  lemma {:induction false} ApplyTouches(base: map<AccountId, Balance>, es: seq<Entry>, n: nat, a: AccountId)
    requires n <= |es| && Apply(base, es, n).Rows? && a in Apply(base, es, n).rows
    ensures exists i :: 0 <= i < n && es[i].account == a
  {
    if n > 0 && es[n - 1].account != a { ApplyTouches(base, es, n - 1, a); }
  }

  lemma PlanLeavesAccounts(s: Store, p: Plan, me: Session, req: Request, other: Session)
    requires RowsDone(s, p, |SortEntries(p.entries)|) && Covers(me, p) && me.seen.Keys !! other.seen.Keys
    ensures KeepsAccounts(s, Overlay(s, PlanDelta(req, p, RowsSoFar(s, p, |SortEntries(p.entries)|))), other)
  {
    var es := SortEntries(p.entries);
    forall a | a in RowsSoFar(s, p, |es|) ensures a !in other.seen {
      ApplyTouches(s.balances, es, |es|, a);
      var i :| 0 <= i < |es| && es[i].account == a;
      SortedCovered(me, p, i);
    }
  }

  lemma PlanLeavesTxns(s: Store, p: Plan, d: Store)
    requires EntriesOk(s) && p.id !in s.txns && OwnEntries(p)
    requires d.txns == map[p.id := p.txn] && d.entries == p.entries
    ensures KeepsTxns(s, Overlay(s, d))
  {
    forall t | t in s.txns ensures KeepsTxn(s, Overlay(s, d), t) { PostedEntries(s, p, t); }
  }

  // The keys a commit writes in the tables other than balances and entries.
  lemma PlanKeys(s: Store, me: Session, p: Plan, d: Store)
    requires FinalOk(s, me, p) && d == me.w
    ensures d.accounts == map[] && d.entries == p.entries && d.txns == map[p.id := p.txn]
    ensures d.oneReversal == d.reversals == NewReversals(p)
    ensures d.records.Keys == {me.call.cmd.req.key} && d.outbox.Keys == {p.eventId}
    ensures d == PlanDelta(me.call.cmd.req, p, RowsSoFar(s, p, |SortEntries(p.entries)|))
  {
  }

  lemma KeysLeave(h: Key -> int, s: Store, d: Store, me: Session, other: Session)
    requires Apart(h, me, other) && Fresh(other.call, s) && me.phase != Begun
    requires d.txns.Keys <= {me.call.txnId} && d.outbox.Keys <= {me.call.eventId}
    requires d.records.Keys == {me.call.cmd.req.key}
    ensures Fresh(other.call, Overlay(s, d))
    ensures other.phase != Begun ==> KeepsRecord(s, Overlay(s, d), other.call.cmd.req.key)
  {
  }

  lemma OriginalsLeave(h: Key -> int, s: Store, d: Store, me: Session, other: Session)
    requires Apart(h, me, other)
    requires d.oneReversal.Keys <= me.w.oneReversal.Keys && d.reversals.Keys <= me.w.oneReversal.Keys
    ensures forall t :: t in other.w.oneReversal ==> KeepsOriginal(s, Overlay(s, d), t)
  {
  }

  lemma AccountsLeave(h: Key -> int, s: Store, d: Store, me: Session, other: Session)
    requires Apart(h, me, other) && d.accounts.Keys <= me.w.accounts.Keys
    requires forall a :: a in other.w.accounts ==> a !in s.accounts
    ensures forall a :: a in other.w.accounts ==> a !in Overlay(s, d).accounts
  {
  }

  lemma PostingLeaves(h: Key -> int, s: Store, me: Session, p: Plan, other: Session)
    requires EntriesOk(s) && FinalOk(s, me, p) && PlanOk(me.call.cmd.req, s, p) && me.phase != Begun
    requires Apart(h, me, other) && Fresh(other.call, s)
    requires forall a :: a in other.w.accounts ==> a !in s.accounts
    ensures Leaves(s, Overlay(s, me.w), other)
  {
    hide EntriesOk, Ready, KeepsAccounts, KeepsTxns, RowsDone, EntriesDone, OwnEntries, Undoes, Fresh,
         KeepsRecord, KeepsOriginal, Overlay, PlanDelta;
    HeaderCovers(s, me, p);
    ReadyId(s, me.call, p);
    PlanKeys(s, me, p, me.w);
    PlanLeavesAccounts(s, p, me, me.call.cmd.req, other);
    PlanLeavesTxns(s, p, me.w);
    KeysLeave(h, s, me.w, me, other);
    OriginalsLeave(h, s, me.w, me, other);
    AccountsLeave(h, s, me.w, me, other);
  }

  lemma CreateKeepsAccounts(s: Store, me: Session, other: Session)
    requires RowsOk(s) && Creating(s, me) && me.w == CreateDelta(me.call.cmd)
    ensures KeepsAccounts(s, Overlay(s, me.w), other)
  {
  }

  lemma CreateKeepsTxns(s: Store, me: Session)
    requires Creating(s, me) && me.w == CreateDelta(me.call.cmd)
    ensures KeepsTxns(s, Overlay(s, me.w))
  {
    assert s.entries + [] == s.entries;
  }

  lemma CreateLeaves(h: Key -> int, s: Store, me: Session, other: Session)
    requires RowsOk(s) && Creating(s, me) && me.w == CreateDelta(me.call.cmd) && me.phase != Begun
    requires Apart(h, me, other) && Fresh(other.call, s)
    requires forall a :: a in other.w.accounts ==> a !in s.accounts
    ensures Leaves(s, Overlay(s, me.w), other)
  {
    hide RowsOk, KeepsAccounts, KeepsTxns, Fresh, KeepsRecord, KeepsOriginal, Overlay, Apart;
    CreateKeepsAccounts(s, me, other);
    CreateKeepsTxns(s, me);
    KeysLeave(h, s, me.w, me, other);
    OriginalsLeave(h, s, me.w, me, other);
    AccountsLeave(h, s, me.w, me, other);
  }

  lemma AccountsPending(s: Store, me: Session)
    requires Progress(s, me)
    ensures forall a :: a in me.w.accounts ==> a !in s.accounts
  {
    hide Covers, SeenOk, Ready, HeaderDone, RowsDone, EntriesDone, Locks, Aims;
  }

  lemma NothingLeaves(s: Store, me: Session)
    requires Fresh(me.call, s) && (forall a :: a in me.w.accounts ==> a !in s.accounts)
    ensures Leaves(s, s, me)
  {
  }

  lemma CommitPhases(s: Store, me: Session)
    requires Progress(s, me) && Local(s, me).Done?
    ensures Local(s, me).delta == EMPTY || (me.phase.Committing? && Local(s, me).delta == me.w)
  {
    hide Progress;
  }

  // Ending a session changes nothing any other session relies on.
  lemma EndingLeaves(h: Key -> int, s: Store, me: Session, other: Session)
    requires Sound(s) && Progress(s, me) && Progress(s, other) && Apart(h, me, other) && Local(s, me).Done?
    ensures Leaves(s, Overlay(s, Local(s, me).delta), other)
  {
    hide Leaves, Apart, PlanOk, Ready, EntriesOk, TxnsOk, ReversalsOk, SumsOk, RowsOk, NetOk, RecordsOk, OutboxOk,
         PostedOk, PostingsOk, UpdatesOk, LockingOk, SeenOk, Creating, FinalOk, Local;
    CommitPhases(s, me);
    AccountsPending(s, other);
    if Local(s, me).delta == EMPTY {
      OverlayEmpty(s);
      NothingLeaves(s, other);
    } else {
      match me.phase
      case Committing(None, _) => CreateLeaves(h, s, me, other);
      case Committing(Some(p), _) =>
        FinalReady(s, me, p);
        ReadyPlanOk(s, me.call, p);
        PostingLeaves(h, s, me, p, other);
    }
  }

  // ----- every run -----

  ghost function RunLog(log: seq<Reply>): Store {
    if log == [] then EMPTY else After(log[|log| - 1].call, RunLog(log[..|log| - 1]))
  }

  // Every answer in the log is the sequential machine's, on the store its predecessors left, for
  // a validated command with new UUIDs.
  ghost predicate Correct(log: seq<Reply>) {
    log == [] ||
    (Correct(log[..|log| - 1]) && CorrectReply(log[|log| - 1], RunLog(log[..|log| - 1])))
  }

  ghost predicate CorrectReply(r: Reply, s: Store) {
    Valid(r.call.cmd) && Fresh(r.call, s) && r.answer == Exec(r.call, s).answer
  }

  ghost predicate Guarded(h: Key -> int, m: State) {
    && (forall sid :: sid in m.sessions ==> Progress(m.store, m.sessions[sid]))
    && (forall sid, t :: sid in m.sessions && t in m.sessions && sid != t ==>
          Apart(h, m.sessions[sid], m.sessions[t]))
  }

  ghost predicate History(m: State) {
    m.store == RunLog(m.log) && Correct(m.log)
  }

  ghost predicate Reached(h: Key -> int, m: State) {
    Sound(m.store) && Guarded(h, m) && History(m)
  }

  lemma BeginGuarded(h: Key -> int, m: State, sid: Sid, call: Call)
    requires Guarded(h, m) && Enabled(h, m, Begin(sid, call))
    ensures Guarded(h, Step(m, Begin(sid, call)))
  {
    hide Progress, Valid, Fresh;
    FresherProgress(m.store, call);
    forall t | t in m.sessions ensures Apart(h, Fresher(call), m.sessions[t]) && Apart(h, m.sessions[t], Fresher(call)) {
      FresherApart(h, call, m.sessions[t]);
    }
  }

  lemma ApartIds(h: Key -> int, me: Session, other: Session)
    requires Apart(h, me, other)
    ensures DistinctIds(me.call, other.call)
  {
  }

  lemma FresherApart(h: Key -> int, call: Call, other: Session)
    requires DistinctIds(call, other.call)
    ensures Apart(h, Fresher(call), other) && Apart(h, other, Fresher(call))
  {
  }

  lemma FresherProgress(s: Store, call: Call)
    requires Valid(call.cmd) && Fresh(call, s)
    ensures Progress(s, Fresher(call))
  {
  }

  lemma ProgressFresh(s: Store, me: Session)
    requires Progress(s, me)
    ensures Valid(me.call.cmd) && Fresh(me.call, s)
  {
  }

  lemma RestartGuarded(h: Key -> int, m: State, sid: Sid)
    requires Guarded(h, m) && sid in m.sessions
    ensures Guarded(h, Step(m, Restart(sid)))
  {
    hide Progress, Valid, Fresh, Apart;
    var call := m.sessions[sid].call;
    GuardedProgress(h, m, sid);
    ProgressFresh(m.store, m.sessions[sid]);
    FresherProgress(m.store, call);
    forall t | t in m.sessions && t != sid
      ensures Apart(h, Fresher(call), m.sessions[t]) && Apart(h, m.sessions[t], Fresher(call))
    {
      assert DistinctIds(call, m.sessions[t].call) by { ApartIds(h, m.sessions[sid], m.sessions[t]); }
      FresherApart(h, call, m.sessions[t]);
    }
  }

  lemma RunGuarded(h: Key -> int, m: State, sid: Sid)
    requires Sound(m.store) && Guarded(h, m) && Enabled(h, m, Run(sid))
    ensures Guarded(h, Step(m, Run(sid)))
  {
    hide Sound, Progress, Apart, WaitsFor, Local, Leaves;
    var me, s := m.sessions[sid], m.store;
    match Local(s, me)
    case Continue(next) =>
      GoesOn(s, me, next);
      forall t | t in m.sessions && t != sid
        ensures Apart(h, next, m.sessions[t]) && Apart(h, m.sessions[t], next)
      {
        StaysApart(h, s, me, m.sessions[t], next);
        ApartSymmetric(h, next, m.sessions[t]);
      }
    case Done(answer, delta) =>
      forall t | t in m.sessions && t != sid ensures Progress(Overlay(s, delta), m.sessions[t]) {
        EndingLeaves(h, s, me, m.sessions[t]);
        Stays(s, Overlay(s, delta), m.sessions[t]);
      }
  }

  lemma RunHistory(m: State, sid: Sid)
    requires Sound(m.store) && History(m) && sid in m.sessions && Progress(m.store, m.sessions[sid])
    ensures History(Step(m, Run(sid))) && Sound(Step(m, Run(sid)).store)
  {
    hide Sound, Progress, Local, Exec, Overlay, Valid, Fresh;
    var me, s := m.sessions[sid], m.store;
    if Local(s, me).Done? {
      AnswersSequentially(s, me);
      ProgressFresh(s, me);
      ExecKeepsSound(me.call, s);
      var log := Step(m, Run(sid)).log;
      assert log[..|log| - 1] == m.log;
    }
  }

  lemma StepReached(h: Key -> int, m: State, mv: Move)
    requires Reached(h, m) && Enabled(h, m, mv)
    ensures Reached(h, Step(m, mv))
  {
    hide Sound, Progress, Apart, Blocked, Local, Guarded, History;
    match mv
    case Begin(sid, call) =>
      BeginGuarded(h, m, sid, call);
      SameHistory(m, Step(m, mv));
    case Run(sid) =>
      RunGuarded(h, m, sid);
      GuardedProgress(h, m, sid);
      RunHistory(m, sid);
    case Abort(sid) =>
      AbortGuarded(h, m, sid);
      SameHistory(m, Step(m, mv));
    case Restart(sid) =>
      RestartGuarded(h, m, sid);
      SameHistory(m, Step(m, mv));
  }

  lemma SameHistory(m: State, m': State)
    requires History(m) && m'.store == m.store && m'.log == m.log
    ensures History(m')
  {
  }

  lemma GuardedProgress(h: Key -> int, m: State, sid: Sid)
    requires Guarded(h, m) && sid in m.sessions
    ensures Progress(m.store, m.sessions[sid])
  {
  }

  lemma AbortGuarded(h: Key -> int, m: State, sid: Sid)
    requires Guarded(h, m)
    ensures Guarded(h, m.(sessions := m.sessions - {sid}))
  {
    hide Progress, Apart;
  }

  /** Serializability. However sessions interleave, abort and retry, the committed store is the one
      the sequential machine reaches by running the answered commands in order, every answer,
      success or refusal, is its answer at that point, and the books are sound throughout. */
  lemma {:induction false} RunsAreSequential(h: Key -> int, moves: seq<Move>)
    requires IsRun(h, moves)
    ensures AfterRun(moves).store == RunLog(AfterRun(moves).log)
    ensures Correct(AfterRun(moves).log)
    ensures Sound(AfterRun(moves).store)
    ensures Reached(h, AfterRun(moves))
  {
    hide Sound, Guarded, Enabled, Step;
    if moves == [] {
      EmptySound();
      StartGuarded(h);
    } else {
      var init := moves[..|moves| - 1];
      RunsAreSequential(h, init);
      StepReached(h, AfterRun(init), moves[|moves| - 1]);
    }
  }

  lemma StartGuarded(h: Key -> int)
    ensures Guarded(h, START)
  {
  }
}
