// No deadlock: some session can always go on, and without aborts every session gets its answer.
module Liveness {
  import opened Prelude
  import opened Schema
  import opened Sequential
  import opened Books
  import opened Machine
  import opened Linearizable
  import opened Isolation

  // ----- what a session may hold in each phase -----

  predicate Writing(phase: Phase) {
    phase.Postings? || phase.Updates? || phase.ReversalRow? || phase.EventRow? || phase.Completing? || phase.Committing?
  }

  ghost predicate Holdings(me: Session) {
    && me.w.records.Keys <= {me.call.cmd.req.key}
    && (me.w.records != map[] ==> me.phase != Begun)
    && (me.w.accounts != map[] ==> me.phase.AccountRow? || me.phase.Completing? || me.phase.Committing?)
    && (me.seen != map[] ==> me.phase.Locking? || me.phase.Header? || Writing(me.phase))
    && (me.w.oneReversal != map[] ==> Writing(me.phase))
    && me.w.reversals.Keys <= me.w.oneReversal.Keys
    && (me.phase.ReversalRow? ==> NewReversals(me.phase.p).Keys == me.w.oneReversal.Keys)
  }

  lemma Holds(s: Store, me: Session)
    requires Progress(s, me)
    ensures Holdings(me)
  {
    hide Ready, Covers, SeenOk, EntriesDone, RowsDone, Aims, Locks, HeaderDone;
  }

  // The rows of an update are already locked.
  lemma UpdatesLocked(s: Store, me: Session, p: Plan, n: nat)
    requires Progress(s, me) && me.phase == Updates(p, n) && n < |SortEntries(p.entries)|
    ensures SortEntries(p.entries)[n].account in me.seen
  {
    hide Ready, EntriesDone, SeenOk;
    SortedCovered(me, p, n);
  }

  lemma LocksAscend(s: Store, me: Session, order: seq<AccountId>, n: nat, original: Loaded)
    requires Progress(s, me) && me.phase == Locking(order, n, original)
    ensures n <= |order| && StrictlyAscending(order) && Locks(me, order, n)
  {
    hide SeenOk;
    if original.Original? {
      LockOrderAscends(AccountsOf(original.entries));
    } else {
      LockOrderAscends([me.call.cmd.source, me.call.cmd.dest]);
    }
  }

  // ----- who can wait for whom -----

  predicate MayWait(me: Session) {
    me.phase.Begun? || (me.phase.Claimed? && me.call.cmd.Create?) || me.phase.Locking? || me.phase.Header?
  }

  // Advisory locks and row locks already held make the other guards vacuous.
  lemma OthersNeverWait(h: Key -> int, s: Store, me: Session, other: Session)
    requires Progress(s, me) && Progress(s, other) && Apart(h, me, other) && !MayWait(me)
    ensures !WaitsFor(h, me, other)
  {
    hide Progress;
    Holds(s, me);
    Holds(s, other);
    match me.phase
    case Updates(p, n) => if n < |SortEntries(p.entries)| { UpdatesLocked(s, me, p, n); }
    case _ =>
  }

  lemma Unblocked(h: Key -> int, m: State, sid: Sid)
    requires Guarded(h, m) && sid in m.sessions && !MayWait(m.sessions[sid])
    ensures !Blocked(h, m, sid)
  {
    hide Progress, Apart, WaitsFor, MayWait;
    forall t | t in m.sessions && t != sid ensures !WaitsFor(h, m.sessions[sid], m.sessions[t]) {
      OthersNeverWait(h, m.store, m.sessions[sid], m.sessions[t]);
    }
  }

  // A session waited for at an account or an original is writing, and writing never waits.
  lemma HolderWrites(h: Key -> int, s: Store, me: Session, other: Session)
    requires Progress(s, other) && WaitsFor(h, me, other) && (me.phase.Claimed? || me.phase.Header?)
    ensures !MayWait(other)
  {
    hide Progress;
    Holds(s, other);
  }

  // The balance row a session is about to lock.
  predicate Wants(me: Session, a: AccountId) {
    me.phase.Locking? && me.phase.n < |me.phase.order| && me.phase.order[me.phase.n] == a
  }

  ghost function WantingMore(m: State, a: AccountId): set<Sid> {
    set t | t in m.sessions && m.sessions[t].phase.Locking?
            && m.sessions[t].phase.n < |m.sessions[t].phase.order|
            && m.sessions[t].phase.order[m.sessions[t].phase.n] > a
  }

  lemma HolderWantsMore(s: Store, other: Session, a: AccountId)
    requires Progress(s, other) && a in other.seen && other.phase.Locking?
    requires other.phase.n < |other.phase.order|
    ensures other.phase.order[other.phase.n] > a
  {
    hide Progress;
    var Locking(order, n, original) := other.phase;
    LocksAscend(s, other, order, n, original);
    var i :| 0 <= i < |order[..n]| && order[..n][i] == a;
  }

  lemma MoreShrinks(m: State, t: Sid, a: AccountId, b: AccountId)
    requires a < b && t in m.sessions && Wants(m.sessions[t], b)
    ensures |WantingMore(m, b)| < |WantingMore(m, a)|
  {
    assert t in WantingMore(m, a) && t !in WantingMore(m, b);
    assert WantingMore(m, b) <= WantingMore(m, a) - {t};
    Subset(WantingMore(m, b), WantingMore(m, a) - {t});
  }

  lemma {:induction false} Subset(x: set<Sid>, y: set<Sid>)
    requires x <= y
    ensures |x| <= |y|
  {
    if x != {} {
      var k :| k in x;
      Subset(x - {k}, y - {k});
    }
  }

  ghost predicate CanRun(h: Key -> int, m: State, r: Sid) {
    r in m.sessions && !Blocked(h, m, r)
  }

  lemma RunnableHeader(h: Key -> int, m: State, sid: Sid) returns (r: Sid)
    requires Guarded(h, m) && sid in m.sessions && (m.sessions[sid].phase.Header? || m.sessions[sid].phase.Claimed?)
    ensures CanRun(h, m, r)
  {
    hide Progress, Apart, WaitsFor, MayWait;
    r := sid;
    if Blocked(h, m, sid) {
      var t :| t in m.sessions && t != sid && WaitsFor(h, m.sessions[sid], m.sessions[t]);
      HolderWrites(h, m.store, m.sessions[sid], m.sessions[t]);
      Unblocked(h, m, t);
      r := t;
    }
  }

  // Rows are locked in ascending order, so a chain of waiting sessions climbs and ends.
  lemma RunnableLocking(h: Key -> int, m: State, sid: Sid) returns (r: Sid)
    requires Guarded(h, m) && sid in m.sessions && m.sessions[sid].phase.Locking?
    requires m.sessions[sid].phase.n < |m.sessions[sid].phase.order|
    ensures CanRun(h, m, r)
    decreases |WantingMore(m, m.sessions[sid].phase.order[m.sessions[sid].phase.n])|
  {
    hide Progress, Apart, WantingMore;
    r := sid;
    if Blocked(h, m, sid) {
      var t :| t in m.sessions && t != sid && WaitsFor(h, m.sessions[sid], m.sessions[t]);
      var a := m.sessions[sid].phase.order[m.sessions[sid].phase.n];
      var other := m.sessions[t];
      assert Progress(m.store, other);
      Holds(m.store, other);
      if other.phase.Locking? && other.phase.n < |other.phase.order| {
        HolderWantsMore(m.store, other, a);
        MoreShrinks(m, t, a, other.phase.order[other.phase.n]);
        r := RunnableLocking(h, m, t);
      } else if other.phase.Locking? {
        r := t;
      } else if other.phase.Header? {
        r := RunnableHeader(h, m, t);
      } else {
        Unblocked(h, m, t);
        r := t;
      }
    }
  }

  lemma RunnableActive(h: Key -> int, m: State, sid: Sid) returns (r: Sid)
    requires Guarded(h, m) && sid in m.sessions && m.sessions[sid].phase != Begun
    ensures CanRun(h, m, r)
  {
    hide Progress, Apart, Guarded;
    var me := m.sessions[sid];
    if me.phase.Header? || me.phase.Claimed? {
      r := RunnableHeader(h, m, sid);
    } else if me.phase.Locking? && me.phase.n < |me.phase.order| {
      r := RunnableLocking(h, m, sid);
    } else if me.phase.Locking? {
      r := sid;
    } else {
      Unblocked(h, m, sid);
      r := sid;
    }
  }

  /** Deadlock freedom: whenever sessions are open, one of them is not waiting. */
  lemma NoDeadlock(h: Key -> int, m: State) returns (r: Sid)
    requires Reached(h, m) && m.sessions != map[]
    ensures r in m.sessions && !Blocked(h, m, r)
  {
    hide Progress, Apart, WaitsFor, Sound, History, Guarded;
    var sid :| sid in m.sessions;
    r := sid;
    if m.sessions[sid].phase != Begun {
      r := RunnableActive(h, m, sid);
    } else if Blocked(h, m, sid) {
      var t :| t in m.sessions && t != sid && WaitsFor(h, m.sessions[sid], m.sessions[t]);
      assert m.sessions[t].phase != Begun by { KeyHolder(h, m.sessions[sid], m.sessions[t]); }
      r := RunnableActive(h, m, t);
    }
  }

  lemma KeyHolder(h: Key -> int, me: Session, other: Session)
    requires me.phase == Begun && WaitsFor(h, me, other)
    ensures other.phase != Begun
  {
  }

  // ----- every session gets its answer -----

  function Left(size: nat, n: nat): nat { if n < size then size - n else 0 }

  // Statements a session still has to issue, at most.
  function Remaining(phase: Phase): nat {
    match phase
    case Begun => 20
    case KeyHeld => 19
    case Hit(_) => 1
    case Claimed => 18
    case AccountRow => 3
    case Locking(order, n, _) => 14 + Left(|order|, n)
    case Header(p) => 13
    case Postings(p, n) => 9 + Left(|p.entries|, n)
    case Updates(p, n) => 5 + Left(|SortEntries(p.entries)|, n)
    case ReversalRow(_) => 4
    case EventRow(_) => 3
    case Completing(_) => 2
    case Committing(_, _) => 1
  }

  lemma {:induction false} LockOrderShort(ids: seq<AccountId>)
    ensures |LockOrder(ids)| <= |ids|
  {
    if ids != [] {
      LockOrderShort(ids[..|ids| - 1]);
      InsertIdShort(LockOrder(ids[..|ids| - 1]), ids[|ids| - 1]);
    }
  }

  lemma {:induction false} InsertIdShort(ids: seq<AccountId>, a: AccountId)
    ensures |InsertId(ids, a)| <= |ids| + 1
  {
    if ids != [] && ids[|ids| - 1] > a { InsertIdShort(ids[..|ids| - 1], a); }
  }

  lemma StartWorks(s: Store, me: Session, next: Session)
    requires TxnsOk(s) && me.phase.Claimed? && StartStep(s, me) == Continue(next)
    ensures Remaining(next.phase) < 18
  {
    match me.call.cmd
    case Create(_, _, _, _) =>
    case Transfer(_, source, dest, _, _, _, _) => LockOrderShort([source, dest]);
    case Reverse(_, target, _) =>
      var es := Select(s.entries, OfTxn(target.id));
      assert TxnOk(s.txns[target.id], es);
      LockOrderShort(AccountsOf(es));
  }

  lemma HeaderSize(s: Store, me: Session, p: Plan)
    requires Sound(s) && Progress(s, me) && me.phase == Header(p)
    ensures |p.entries| == 2
  {
    hide SeenOk, Covers;
    ReadyPlanOk(s, me.call, p);
  }

  lemma PlanSize(s: Store, me: Session, p: Plan, n: nat)
    requires Sound(s) && Progress(s, me) && me.phase == Postings(p, n)
    ensures |p.entries| == 2 && |SortEntries(p.entries)| == 2 && n <= 2
  {
    hide SeenOk, Covers, Ready, EntriesError, RowsDone, Locks, SortEntries, OwnEntries, Undoes, RowsOk, SumsOk, EntriesOk,
         TxnsOk, ReversalsOk, NetOk, RecordsOk, OutboxOk, Valid, Fresh;
    ReadyPlanOk(s, me.call, p);
    SortSize(p.entries);
  }

  lemma SortSize(es: seq<Entry>)
    ensures |SortEntries(es)| == |es|
  {
    hide SortEntries;
    SortIsStable(es);
    assert |multiset(es)| == |es|;
    assert |multiset(SortEntries(es))| == |SortEntries(es)|;
  }

  // Each statement that does not end its session brings the end nearer.
  lemma StatementWorks(s: Store, me: Session, next: Session)
    requires Sound(s) && Progress(s, me) && Local(s, me) == Continue(next)
    ensures Remaining(next.phase) < Remaining(me.phase)
  {
    hide Sound, Progress, StartStep, LockStep, CheckStep, HeaderStep, PostingStep, UpdateStep, ReversalStep, EventStep,
         CompleteStep, CommitStep;
    match me.phase
    case Claimed => StartWorksSound(s, me, next);
    case Locking(order, n, _) => LockWorks(s, me, next);
    case Header(p) =>
      HeaderSize(s, me, p);
      PlanWorks(s, me, next);
    case Postings(p, n) =>
      PlanSize(s, me, p, n);
      PlanWorks(s, me, next);
    case Updates(p, n) => UpdateWorks(s, me, next);
    case Begun =>
    case KeyHeld =>
    case Hit(_) =>
    case _ => LateWorks(s, me, next);
  }

  lemma LockWorks(s: Store, me: Session, next: Session)
    requires me.phase.Locking? && Local(s, me) == Continue(next)
    ensures Remaining(next.phase) < Remaining(me.phase)
  {
    hide Refusal, Seen, Lockable, Load, Overlay, PayPlan, UndoPlan;
  }

  lemma PlanWorks(s: Store, me: Session, next: Session)
    requires me.phase.Header? || me.phase.Postings?
    requires Local(s, me) == Continue(next) && |me.phase.p.entries| == 2
    requires me.phase.Postings? ==> |SortEntries(me.phase.p.entries)| == 2
    ensures Remaining(next.phase) < Remaining(me.phase)
  {
    hide HeaderError, EntryError, SortEntries, Overlay;
  }

  lemma UpdateWorks(s: Store, me: Session, next: Session)
    requires me.phase.Updates? && Local(s, me) == Continue(next)
    ensures Remaining(next.phase) < Remaining(me.phase)
  {
    hide UpdateRow, SortEntries, Overlay;
  }

  lemma LateWorks(s: Store, me: Session, next: Session)
    requires me.phase.AccountRow? || me.phase.ReversalRow? || me.phase.EventRow? || me.phase.Completing? || me.phase.Committing?
    requires Local(s, me) == Continue(next)
    ensures Remaining(next.phase) < Remaining(me.phase)
  {
    hide Load, Overlay, NewReversals, TriggersPass;
  }

  lemma StartWorksSound(s: Store, me: Session, next: Session)
    requires Sound(s) && me.phase.Claimed? && StartStep(s, me) == Continue(next)
    ensures Remaining(next.phase) < 18
  {
    hide RowsOk, SumsOk, EntriesOk, TxnsOk, ReversalsOk, NetOk, RecordsOk, OutboxOk, StartStep, Remaining;
    StartWorks(s, me, next);
  }

  ghost function WorkOf(m: State): map<nat, int> {
    map sid | sid in m.sessions :: Remaining(m.sessions[sid].phase) as int
  }

  ghost function Work(m: State): nat {
    MapSumNonneg(WorkOf(m));
    MapSum(WorkOf(m))
  }

  lemma RunWorks(h: Key -> int, m: State, sid: Sid)
    requires Reached(h, m) && Enabled(h, m, Run(sid))
    ensures Work(Step(m, Run(sid))) < Work(m)
  {
    hide Sound, Progress, Apart, Local, Blocked, History, Remaining, Overlay;
    var me, next := m.sessions[sid], Step(m, Run(sid));
    match Local(m.store, me)
    case Continue(n) =>
      StatementWorks(m.store, me, n);
      assert WorkOf(next) == WorkOf(m)[sid := Remaining(n.phase)];
      MapSumUpdate(WorkOf(m), sid, Remaining(n.phase));
    case Done(_, _) =>
      assert WorkOf(next) == WorkOf(m) - {sid};
      MapSumRemove(WorkOf(m), sid);
      AlwaysWorks(me.phase);
  }

  lemma AlwaysWorks(phase: Phase)
    ensures Remaining(phase) > 0
  {
  }

  ghost predicate OnlyRuns(moves: seq<Move>) {
    forall i :: 0 <= i < |moves| ==> moves[i].Run?
  }

  /** Bounded work: however the scheduler chooses, without new sessions, aborts and retries a run
      stops within Work statements. */
  lemma {:induction false} RunsBounded(h: Key -> int, moves: seq<Move>, more: seq<Move>)
    requires IsRun(h, moves + more) && OnlyRuns(more)
    ensures |more| + Work(AfterRun(moves + more)) <= Work(AfterRun(moves))
  {
    hide Enabled, Step, Work, Reached, Sound;
    if more == [] {
      assert moves + more == moves;
    } else {
      var init := more[..|more| - 1];
      assert (moves + more)[..|moves + more| - 1] == moves + init;
      RunsBounded(h, moves, init);
      RunsAreSequential(h, moves + init);
      RunWorks(h, AfterRun(moves + init), more[|more| - 1].sid);
    }
  }

  /** Progress: from every reachable state, letting the sessions run answers all of them. */
  lemma {:induction false} Drains(h: Key -> int, moves: seq<Move>) returns (more: seq<Move>)
    requires IsRun(h, moves)
    ensures IsRun(h, moves + more) && OnlyRuns(more)
    ensures AfterRun(moves + more).sessions == map[]
    decreases Work(AfterRun(moves))
  {
    hide Step, Work, Reached, Sound, Blocked;
    var m := AfterRun(moves);
    if m.sessions == map[] {
      more := [];
      assert moves + more == moves;
    } else {
      RunsAreSequential(h, moves);
      var r := NoDeadlock(h, m);
      RunWorks(h, m, r);
      assert (moves + [Run(r)])[..|moves + [Run(r)]| - 1] == moves;
      var rest := Drains(h, moves + [Run(r)]);
      more := [Run(r)] + rest;
      assert moves + more == moves + [Run(r)] + rest;
    }
  }
}
