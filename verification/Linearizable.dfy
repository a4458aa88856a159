// Every interleaved run answers and writes as the sequential machine does.
module Linearizable {
  import opened Prelude
  import opened Schema
  import opened Sequential
  import opened Books
  import opened Machine

  // ----- what a session knows before each of its statements -----

  // A row read under its lock still reads the same.
  ghost predicate SeenOk(s: Store, me: Session) {
    forall a :: a in me.seen ==> Lockable(s, a) && me.seen[a] == Seen(s, a)
  }

  ghost predicate Locks(me: Session, order: seq<AccountId>, n: nat)
    requires n <= |order|
  {
    forall a :: a in me.seen <==> a in order[..n]
  }

  ghost predicate Covers(me: Session, p: Plan) {
    forall i :: 0 <= i < |p.entries| ==> p.entries[i].account in me.seen
  }

  ghost predicate Undoable(s: Store, c: Call, t: Id) {
    c.cmd.Reverse? && c.cmd.target == Target(t) && t in s.txns && s.txns[t].kind != ReversalKind
  }

  // The order being locked is the one the command calls for, and a loaded original is as stored.
  ghost predicate Aims(s: Store, c: Call, order: seq<AccountId>, original: Loaded) {
    match original
    case NotLoaded => c.cmd.Transfer? && order == PayOrder(c.cmd)
    case Original(t, txn, es) =>
      Undoable(s, c, t) && order == UndoOrder(s, t) && txn == s.txns[t] && es == Select(s.entries, OfTxn(t))
  }

  // The plan is the one the sequential machine would make now, but for the already-reversed
  // check, which was made before the locks and may be out of date.
  ghost predicate Ready(s: Store, c: Call, p: Plan) {
    match c.cmd
    case Create(_, _, _, _) => false
    case Transfer(_, _, _, _, _, _, _) => PreparePay(c, s) == Go(p)
    case Reverse(_, target, _) =>
      && target.Target? && Undoable(s, c, target.id)
      && Missing(s, UndoOrder(s, target.id), |UndoOrder(s, target.id)|).None?
      && p == UndoPlan(c, target.id, s.txns[target.id], Select(s.entries, OfTxn(target.id)))
  }

  ghost predicate HeaderDone(s: Store, me: Session, p: Plan) {
    Ready(s, me.call, p) && Covers(me, p) && HeaderError(s.txns, s.oneReversal, p).None?
  }

  ghost predicate EntriesDone(s: Store, p: Plan, n: nat) {
    n <= |p.entries| && EntriesError(s.accounts, s.txns[p.id := p.txn], p.entries, n).None?
  }

  ghost predicate RowsDone(s: Store, p: Plan, n: nat) {
    n <= |SortEntries(p.entries)| && Apply(s.balances, SortEntries(p.entries), n).Rows?
  }

  ghost function RowsSoFar(s: Store, p: Plan, n: nat): map<AccountId, Balance>
    requires RowsDone(s, p, n)
  {
    Apply(s.balances, SortEntries(p.entries), n).rows
  }

  ghost predicate RowsAllDone(s: Store, p: Plan) {
    EntriesDone(s, p, |p.entries|) && RowsDone(s, p, |SortEntries(p.entries)|)
  }

  ghost predicate NotNoted(s: Store, p: Plan) {
    p.txn.reverses.Some? ==> p.txn.reverses.value !in s.reversals
  }

  // The write set of a posting with n entries inserted, the given rows updated, and so on.
  ghost function Written(req: Request, p: Plan, n: nat, rows: map<AccountId, Balance>,
                         reversals: map<Id, Id>, outbox: map<Id, Event>): Store
    requires n <= |p.entries|
  {
    Store(map[], rows, map[p.id := p.txn], NewReversals(p), p.entries[..n], reversals,
          map[req.key := Record(req.hash, InProgress, None)], outbox)
  }

  ghost function CreateWritten(cmd: Command): Store
    requires cmd.Create?
  {
    CreateDelta(cmd).(records := map[cmd.req.key := Record(cmd.req.hash, InProgress, None)])
  }

  ghost predicate Creating(s: Store, me: Session) {
    me.call.cmd.Create? && me.call.cmd.id !in s.accounts && me.seen == map[]
  }

  ghost predicate LockingOk(s: Store, me: Session, order: seq<AccountId>, n: nat, original: Loaded) {
    n <= |order| && Locks(me, order, n) && Aims(s, me.call, order, original) && me.w == Claim(me.call.cmd.req)
  }

  ghost predicate PostingsOk(s: Store, me: Session, p: Plan, n: nat) {
    HeaderDone(s, me, p) && EntriesDone(s, p, n) && me.w == Written(me.call.cmd.req, p, n, map[], map[], map[])
  }

  ghost predicate UpdatesOk(s: Store, me: Session, p: Plan, n: nat) {
    && HeaderDone(s, me, p) && EntriesDone(s, p, |p.entries|) && RowsDone(s, p, n)
    && me.w == Written(me.call.cmd.req, p, |p.entries|, RowsSoFar(s, p, n), map[], map[])
  }

  // After the updates: the rows are all done, and w has the given reversals and outbox rows.
  ghost predicate PostedOk(s: Store, me: Session, p: Plan, reversals: map<Id, Id>, outbox: map<Id, Event>) {
    && HeaderDone(s, me, p) && RowsAllDone(s, p)
    && me.w == Written(me.call.cmd.req, p, |p.entries|, RowsSoFar(s, p, |SortEntries(p.entries)|),
                       reversals, outbox)
  }

  ghost predicate FinalOk(s: Store, me: Session, p: Plan) {
    && HeaderDone(s, me, p) && RowsAllDone(s, p) && NotNoted(s, p)
    && me.w == PlanDelta(me.call.cmd.req, p, RowsSoFar(s, p, |SortEntries(p.entries)|))
  }

  ghost predicate Working(s: Store, me: Session) {
    match me.phase
    case Claimed => me.w == Claim(me.call.cmd.req) && me.seen == map[]
    case AccountRow =>
      Creating(s, me) && me.w == Claim(me.call.cmd.req).(accounts := map[me.call.cmd.id := me.call.cmd.account])
    case Locking(order, n, original) => LockingOk(s, me, order, n, original)
    case Header(p) => Ready(s, me.call, p) && Covers(me, p) && me.w == Claim(me.call.cmd.req)
    case Postings(p, n) => PostingsOk(s, me, p, n)
    case Updates(p, n) => UpdatesOk(s, me, p, n)
    case ReversalRow(p) => PostedOk(s, me, p, map[], map[])
    case EventRow(p) => NotNoted(s, p) && PostedOk(s, me, p, NewReversals(p), map[])
    case Completing(None) => Creating(s, me) && me.w == CreateWritten(me.call.cmd)
    case Completing(Some(p)) => NotNoted(s, p) && PostedOk(s, me, p, NewReversals(p), map[p.eventId := p.event])
    case Committing(None, body) => Creating(s, me) && me.w == CreateDelta(me.call.cmd) && body == CreateBody(me.call.cmd)
    case Committing(Some(p), body) => FinalOk(s, me, p) && body == PlanBody(p)
    case _ => false
  }

  ghost predicate Progress(s: Store, me: Session) {
    && Valid(me.call.cmd) && Fresh(me.call, s)
    && match me.phase
       case Begun => me.w == EMPTY && me.seen == map[]
       case KeyHeld => me.w == EMPTY && me.seen == map[]
       case Hit(answer) =>
         && me.w == EMPTY && me.seen == map[] && me.call.cmd.req.key in s.records && answer.Ok?
         && answer == Replay(s, s.records[me.call.cmd.req.key], me.call.cmd.req.hash)
       case _ => me.call.cmd.req.key !in s.records && SeenOk(s, me) && Working(s, me)
  }

  // ----- prefixes of checks -----

  lemma {:induction false} MissingNone(s: Store, order: seq<AccountId>, n: nat)
    requires n <= |order| && forall i :: 0 <= i < n ==> Lockable(s, order[i])
    ensures Missing(s, order, n).None?
  {
    if n > 0 { MissingNone(s, order, n - 1); }
  }

  lemma {:induction false} MissingPersists(s: Store, order: seq<AccountId>, k: nat, n: nat)
    requires k <= n <= |order| && Missing(s, order, k).Some?
    ensures Missing(s, order, n) == Missing(s, order, k)
  {
    if k < n { MissingPersists(s, order, k, n - 1); }
  }

  lemma {:induction false} EntriesErrorPersists(accounts: map<AccountId, Account>, txns: map<Id, Txn>,
                                                es: seq<Entry>, k: nat, n: nat)
    requires k <= n <= |es| && EntriesError(accounts, txns, es, k).Some?
    ensures EntriesError(accounts, txns, es, n) == EntriesError(accounts, txns, es, k)
  {
    if k < n { EntriesErrorPersists(accounts, txns, es, k, n - 1); }
  }

  lemma {:induction false} BrokenPersists(base: map<AccountId, Balance>, es: seq<Entry>, k: nat, n: nat)
    requires k <= n <= |es| && Apply(base, es, k).Broken?
    ensures Apply(base, es, n) == Apply(base, es, k)
  {
    if k < n { BrokenPersists(base, es, k, n - 1); }
  }

  // ----- each statement goes on as planned -----

  predicate Same(me: Session, next: Session) {
    next.call == me.call && next.seen == me.seen
  }

  lemma LockGoesOn(s: Store, me: Session, order: seq<AccountId>, n: nat, original: Loaded, next: Session)
    requires me.phase == Locking(order, n, original) && n < |order|
    requires SeenOk(s, me) && LockingOk(s, me, order, n, original) && LockStep(s, me) == Continue(next)
    ensures next.call == me.call && next.phase == Locking(order, n + 1, original)
    ensures SeenOk(s, next) && LockingOk(s, next, order, n + 1, original)
  {
    assert order[..n + 1] == order[..n] + [order[n]];
  }

  lemma CheckGoesOn(s: Store, me: Session, order: seq<AccountId>, original: Loaded, next: Session)
    requires me.phase == Locking(order, |order|, original)
    requires SeenOk(s, me) && LockingOk(s, me, order, |order|, original) && CheckStep(me) == Continue(next)
    ensures next.phase.Header? && Same(me, next) && next.w == Claim(me.call.cmd.req)
    ensures Ready(s, me.call, next.phase.p) && Covers(next, next.phase.p)
  {
    AllLockable(s, me, order);
    if me.call.cmd.Transfer? {
      PayReady(s, me, next);
    } else {
      UndoCovers(s, me, next);
    }
  }

  lemma AllLockable(s: Store, me: Session, order: seq<AccountId>)
    requires SeenOk(s, me) && Locks(me, order, |order|)
    ensures Missing(s, order, |order|).None?
  {
    assert order[..|order|] == order;
    MissingNone(s, order, |order|);
  }

  lemma PayReady(s: Store, me: Session, next: Session)
    requires SeenOk(s, me) && me.call.cmd.Transfer? && Missing(s, PayOrder(me.call.cmd), |PayOrder(me.call.cmd)|).None?
    requires me.phase.Locking? && CheckStep(me) == Continue(next)
    ensures next.phase.Header? && Ready(s, me.call, next.phase.p) && Covers(next, next.phase.p)
  {
  }

  lemma UndoCovers(s: Store, me: Session, next: Session)
    requires me.phase.Locking? && !me.call.cmd.Transfer? && CheckStep(me) == Continue(next)
    requires LockingOk(s, me, me.phase.order, |me.phase.order|, me.phase.original)
    ensures next.phase.Header? && Covers(next, next.phase.p)
  {
    var Original(t, txn, es) := me.phase.original;
    var order := me.phase.order;
    LockOrderAscends(AccountsOf(es));
    var p := UndoPlan(me.call, t, txn, es);
    if es != [] { MirrorAt(es, p.id, 0); }
    forall i | 0 <= i < |p.entries| ensures p.entries[i].account in me.seen {
      MirrorAt(es, p.id, i);
      assert AccountsOf(es)[i] in order;
      assert order[..|order|] == order;
    }
  }

  lemma HeaderGoesOn(s: Store, me: Session, p: Plan, next: Session)
    requires Ready(s, me.call, p) && Covers(me, p) && me.w == Claim(me.call.cmd.req)
    requires HeaderStep(s, me, p) == Continue(next)
    ensures next.phase == Postings(p, 0) && Same(me, next) && PostingsOk(s, next, p, 0)
  {
    hide Ready;
    PlusEmpty(s.txns);
    PlusEmpty(s.oneReversal);
    assert p.entries[..0] == [];
  }

  lemma PostingGoesOn(s: Store, me: Session, p: Plan, n: nat, next: Session)
    requires PostingsOk(s, me, p, n) && PostingStep(s, me, p, n) == Continue(next)
    ensures Same(me, next)
    ensures n < |p.entries| ==> next.phase == Postings(p, n + 1) && PostingsOk(s, next, p, n + 1)
    ensures n == |p.entries| ==> next.phase == Updates(p, 0) && UpdatesOk(s, next, p, 0)
  {
    hide HeaderDone;
    PlusEmpty(s.accounts);
    PlusOne(s.txns, p.id, p.txn);
    HeaderDoneSame(s, me, next, p);
    if n < |p.entries| {
      assert p.entries[..n + 1] == p.entries[..n] + [p.entries[n]];
    }
  }

  lemma HeaderDoneSame(s: Store, me: Session, next: Session, p: Plan)
    requires HeaderDone(s, me, p) && Same(me, next)
    ensures HeaderDone(s, next, p)
  {
  }

  lemma UpdateGoesOn(s: Store, me: Session, p: Plan, n: nat, next: Session)
    requires UpdatesOk(s, me, p, n) && UpdateStep(s, me, p, n) == Continue(next)
    ensures Same(me, next)
    ensures n < |SortEntries(p.entries)| ==> next.phase == Updates(p, n + 1) && UpdatesOk(s, next, p, n + 1)
    ensures n == |SortEntries(p.entries)| ==> next.phase == ReversalRow(p) && PostedOk(s, next, p, map[], map[])
  {
    hide HeaderDone, EntriesDone;
    HeaderDoneSame(s, me, next, p);
  }

  lemma ReversalGoesOn(s: Store, me: Session, p: Plan, next: Session)
    requires PostedOk(s, me, p, map[], map[]) && ReversalStep(s, me, p) == Continue(next)
    ensures next.phase == EventRow(p) && Same(me, next) && NotNoted(s, p)
    ensures PostedOk(s, next, p, NewReversals(p), map[])
  {
    hide HeaderDone, EntriesDone;
    HeaderDoneSame(s, me, next, p);
    PlusEmpty(s.reversals);
  }

  lemma EventGoesOn(s: Store, me: Session, p: Plan, next: Session)
    requires PostedOk(s, me, p, NewReversals(p), map[]) && EventStep(me, p) == Continue(next)
    ensures next.phase == Completing(Some(p)) && Same(me, next)
    ensures PostedOk(s, next, p, NewReversals(p), map[p.eventId := p.event])
  {
    hide HeaderDone, EntriesDone;
    HeaderDoneSame(s, me, next, p);
  }

  // The reloaded transaction is the planned one: nothing else carries its ID.
  lemma ReloadIsPlan(s: Store, req: Request, p: Plan, rows: map<AccountId, Balance>)
    requires EntriesOk(s) && ReversalsOk(s) && p.id !in s.txns && OwnEntries(p)
    requires p.txn.reverses.Some? ==> p.txn.reverses.value in s.txns
    ensures p.id in Overlay(s, Written(req, p, |p.entries|, rows, NewReversals(p), map[p.eventId := p.event])).txns
    ensures Load(Overlay(s, Written(req, p, |p.entries|, rows, NewReversals(p), map[p.eventId := p.event])), p.id)
      == PlanBody(p)
  {
    hide ReversalsOk;
    NewNotReversed(s, p.id);
    PostedEntries(s, p, p.id);
    assert p.entries[..|p.entries|] == p.entries;
  }

  lemma ReadyPlanOk(s: Store, c: Call, p: Plan)
    requires EntriesOk(s) && TxnsOk(s) && Valid(c.cmd) && Fresh(c, s) && c.cmd.req.key !in s.records
    requires Ready(s, c, p)
    ensures PlanOk(c.cmd.req, s, p)
  {
    hide PlanOk;
    if c.cmd.Transfer? {
      PayPlanOk(c, s, Seen(s, c.cmd.source));
    } else {
      UndoPlanOk(c, s, c.cmd.target.id);
    }
  }

  lemma CompleteGoesOn(s: Store, me: Session, p: Plan, next: Session)
    requires EntriesOk(s) && ReversalsOk(s) && PlanOk(me.call.cmd.req, s, p) && NotNoted(s, p)
    requires PostedOk(s, me, p, NewReversals(p), map[p.eventId := p.event])
    requires CompleteStep(s, me, Some(p)) == Continue(next)
    ensures next.phase == Committing(Some(p), PlanBody(p)) && Same(me, next) && FinalOk(s, next, p)
  {
    hide EntriesOk, ReversalsOk, HeaderDone, EntriesError, Apply, SortEntries, Load, Overlay, TriggersPass, OwnEntries,
         NotNoted, NewReversals;
    ReloadIsPlan(s, me.call.cmd.req, p, RowsSoFar(s, p, |SortEntries(p.entries)|));
    HeaderDoneSame(s, me, next, p);
    assert p.entries[..|p.entries|] == p.entries;
  }

  lemma CompleteAccountGoesOn(s: Store, me: Session, next: Session)
    requires Creating(s, me) && me.w == CreateWritten(me.call.cmd)
    requires CompleteStep(s, me, None) == Continue(next)
    ensures next.phase == Committing(None, CreateBody(me.call.cmd)) && Same(me, next)
    ensures next.w == CreateDelta(me.call.cmd)
  {
  }

  lemma EarlyGoesOn(s: Store, me: Session, next: Session)
    requires Progress(s, me) && Local(s, me) == Continue(next)
    requires me.phase.Begun? || me.phase.KeyHeld? || me.phase.Claimed? || me.phase.AccountRow?
    ensures Progress(s, next)
  {
    hide PostingsOk, UpdatesOk, PostedOk, FinalOk;
  }

  lemma LockingGoesOn(s: Store, me: Session, next: Session)
    requires Progress(s, me) && Local(s, me) == Continue(next) && me.phase.Locking?
    ensures Progress(s, next)
  {
    hide PostingsOk, UpdatesOk, PostedOk, FinalOk, LockingOk, SeenOk, LockStep, CheckStep;
    var Locking(order, n, original) := me.phase;
    assert LockingOk(s, me, order, n, original);
    LockBound(s, me, order, n, original);
    if n < |order| {
      LockGoesOn(s, me, order, n, original, next);
    } else {
      CheckGoesOn(s, me, order, original, next);
      SeenSame(s, me, next);
    }
  }

  lemma LockBound(s: Store, me: Session, order: seq<AccountId>, n: nat, original: Loaded)
    requires LockingOk(s, me, order, n, original)
    ensures n <= |order|
  {
  }

  lemma SeenSame(s: Store, me: Session, next: Session)
    requires SeenOk(s, me) && Same(me, next)
    ensures SeenOk(s, next)
  {
  }

  lemma PostingPhasesGoOn(s: Store, me: Session, next: Session)
    requires Progress(s, me) && Local(s, me) == Continue(next)
    requires me.phase.Header? || me.phase.Postings? || me.phase.Updates? || me.phase.ReversalRow? || me.phase.EventRow?
    ensures Progress(s, next)
  {
    hide PostingsOk, UpdatesOk, PostedOk, FinalOk, LockingOk, SeenOk, Ready, Covers,
         HeaderStep, PostingStep, UpdateStep, ReversalStep, EventStep;
    match me.phase
    case Header(p) =>
      HeaderGoesOn(s, me, p, next);
      SeenSame(s, me, next);
    case Postings(p, n) =>
      PostingGoesOn(s, me, p, n, next);
      SeenSame(s, me, next);
      assert n <= |p.entries| by { PostingBound(s, me, p, n); }
    case Updates(p, n) =>
      UpdateGoesOn(s, me, p, n, next);
      SeenSame(s, me, next);
      assert n <= |SortEntries(p.entries)| by { UpdateBound(s, me, p, n); }
    case ReversalRow(p) =>
      ReversalGoesOn(s, me, p, next);
      SeenSame(s, me, next);
    case EventRow(p) =>
      EventGoesOn(s, me, p, next);
      SeenSame(s, me, next);
  }

  lemma PostingBound(s: Store, me: Session, p: Plan, n: nat)
    requires PostingsOk(s, me, p, n)
    ensures n <= |p.entries|
  {
  }

  lemma UpdateBound(s: Store, me: Session, p: Plan, n: nat)
    requires UpdatesOk(s, me, p, n)
    ensures n <= |SortEntries(p.entries)|
  {
  }

  lemma LateGoesOn(s: Store, me: Session, next: Session)
    requires Sound(s) && Progress(s, me) && Local(s, me) == Continue(next)
    requires me.phase.Completing? || me.phase.Committing? || me.phase.Hit?
    ensures Progress(s, next)
  {
    hide PostingsOk, UpdatesOk, PostedOk, FinalOk, LockingOk, SeenOk, CompleteStep, Creating, PlanOk,
         EntriesOk, TxnsOk, ReversalsOk, SumsOk, RowsOk, NetOk, RecordsOk, OutboxOk;
    match me.phase
    case Completing(None) =>
      CompleteAccountGoesOn(s, me, next);
      CreatingSame(s, me, next);
      SeenSame(s, me, next);
    case Completing(Some(p)) =>
      PostedReady(s, me, p, NewReversals(p), map[p.eventId := p.event]);
      ReadyPlanOk(s, me.call, p);
      CompleteGoesOn(s, me, p, next);
      SeenSame(s, me, next);
    case Committing(_, _) =>
    case Hit(_) =>
  }

  lemma CreatingSame(s: Store, me: Session, next: Session)
    requires Creating(s, me) && Same(me, next)
    ensures Creating(s, next)
  {
  }

  lemma PostedReady(s: Store, me: Session, p: Plan, reversals: map<Id, Id>, outbox: map<Id, Event>)
    requires PostedOk(s, me, p, reversals, outbox)
    ensures Ready(s, me.call, p)
  {
  }

  // A statement that does not end its session leaves it knowing what its next statement needs.
  lemma GoesOn(s: Store, me: Session, next: Session)
    requires Sound(s) && Progress(s, me) && Local(s, me) == Continue(next)
    ensures Progress(s, next)
  {
    hide Sound, Progress, Local;
    if me.phase.Completing? || me.phase.Committing? || me.phase.Hit? {
      LateGoesOn(s, me, next);
    } else if me.phase.Locking? {
      LockingGoesOn(s, me, next);
    } else if me.phase.Begun? || me.phase.KeyHeld? || me.phase.Claimed? || me.phase.AccountRow? {
      EarlyGoesOn(s, me, next);
    } else {
      PostingPhasesGoOn(s, me, next);
    }
  }

  // ----- each answer is the sequential answer -----

  ghost predicate Answers(s: Store, me: Session, r: Result) {
    r.Done? && Exec(me.call, s) == Outcome(r.delta, r.answer)
  }

  lemma KeyAnswers(s: Store, me: Session)
    requires me.call.cmd.req.key in s.records
    requires (me.phase.KeyHeld? && Local(s, me).Done?) ||
             (me.phase.Hit? && me.phase.answer == Replay(s, s.records[me.call.cmd.req.key], me.call.cmd.req.hash))
    ensures Answers(s, me, Local(s, me))
  {
  }

  lemma StartAnswers(s: Store, me: Session)
    requires me.call.cmd.req.key !in s.records && StartStep(s, me).Done?
    ensures Answers(s, me, StartStep(s, me))
  {
  }

  // A missing row is the first missing one; every account of a stored transaction has its row.
  lemma LockAnswers(s: Store, me: Session, order: seq<AccountId>, n: nat, original: Loaded)
    requires me.phase == Locking(order, n, original) && n < |order| && me.call.cmd.req.key !in s.records
    requires RowsOk(s) && EntriesOk(s) && SeenOk(s, me) && LockingOk(s, me, order, n, original)
    requires LockStep(s, me).Done?
    ensures Answers(s, me, LockStep(s, me))
  {
    if original.Original? {
      UndoLockable(s, original.id, n);
    } else {
      SomeLockable(s, me, order, n);
      MissingPersists(s, order, n + 1, |order|);
    }
  }

  lemma SomeLockable(s: Store, me: Session, order: seq<AccountId>, n: nat)
    requires n <= |order| && SeenOk(s, me) && Locks(me, order, n)
    ensures Missing(s, order, n).None?
  {
    forall i | 0 <= i < n ensures Lockable(s, order[i]) {
      assert order[i] in order[..n];
    }
    MissingNone(s, order, n);
  }

  lemma UndoLockable(s: Store, t: Id, n: nat)
    requires RowsOk(s) && EntriesOk(s) && n < |UndoOrder(s, t)|
    ensures Lockable(s, UndoOrder(s, t)[n])
  {
    var es := Select(s.entries, OfTxn(t));
    LockOrderAscends(AccountsOf(es));
    var a := UndoOrder(s, t)[n];
    assert a in AccountsOf(es);
    var i :| 0 <= i < |es| && AccountsOf(es)[i] == a;
    TxnEntriesMirrorable(s, t);
    assert EntryOk(s, es[i]);
  }

  lemma CheckAnswers(s: Store, me: Session, order: seq<AccountId>, original: Loaded)
    requires me.phase == Locking(order, |order|, original) && me.call.cmd.req.key !in s.records
    requires SeenOk(s, me) && LockingOk(s, me, order, |order|, original) && CheckStep(me).Done?
    ensures Answers(s, me, CheckStep(me))
  {
    if original.NotLoaded? {
      AllLockable(s, me, order);
      PayOrderHas(me.call.cmd);
      assert order[..|order|] == order;
    }
  }

  lemma PayOrderHas(cmd: Command)
    requires cmd.Transfer?
    ensures cmd.source in PayOrder(cmd) && cmd.dest in PayOrder(cmd)
  {
    LockOrderAscends([cmd.source, cmd.dest]);
    assert [cmd.source, cmd.dest][0] == cmd.source && [cmd.source, cmd.dest][1] == cmd.dest;
  }

  // Past the header, the plan is exactly the sequential one; a stale already-reversed check shows
  // up here, as the same answer.
  lemma ExecIsPost(s: Store, c: Call, p: Plan)
    requires Ready(s, c, p) && c.cmd.req.key !in s.records && HeaderError(s.txns, s.oneReversal, p).None?
    ensures Exec(c, s) == Post(c.cmd.req, s, p)
  {
    hide Post;
  }

  lemma HeaderAnswers(s: Store, me: Session, p: Plan)
    requires Ready(s, me.call, p) && me.call.cmd.req.key !in s.records && PlanOk(me.call.cmd.req, s, p)
    requires me.w == Claim(me.call.cmd.req) && HeaderStep(s, me, p).Done?
    ensures Answers(s, me, HeaderStep(s, me, p))
  {
    hide Post;
    PlusEmpty(s.txns);
    PlusEmpty(s.oneReversal);
  }

  lemma PostingAnswers(s: Store, me: Session, p: Plan, n: nat)
    requires me.call.cmd.req.key !in s.records && PostingsOk(s, me, p, n) && PostingStep(s, me, p, n).Done?
    ensures Answers(s, me, PostingStep(s, me, p, n))
  {
    hide Ready;
    PlusEmpty(s.accounts);
    PlusOne(s.txns, p.id, p.txn);
    ExecIsPost(s, me.call, p);
    EntriesErrorPersists(s.accounts, s.txns[p.id := p.txn], p.entries, n + 1, |p.entries|);
  }

  lemma UpdateAnswers(s: Store, me: Session, p: Plan, n: nat)
    requires me.call.cmd.req.key !in s.records && UpdatesOk(s, me, p, n) && UpdateStep(s, me, p, n).Done?
    ensures Answers(s, me, UpdateStep(s, me, p, n))
  {
    hide Ready, Exec, Prepare, HeaderError, EntriesError, SortEntries, UpdateRow, Covers, PlanDelta;
    ExecIsPost(s, me.call, p);
    BrokenPersists(s.balances, SortEntries(p.entries), n + 1, |SortEntries(p.entries)|);
  }

  lemma ReversalAnswers(s: Store, me: Session, p: Plan)
    requires me.call.cmd.req.key !in s.records && PostedOk(s, me, p, map[], map[]) && ReversalStep(s, me, p).Done?
    ensures Answers(s, me, ReversalStep(s, me, p))
  {
    hide Ready;
    PlusEmpty(s.reversals);
    ExecIsPost(s, me.call, p);
  }

  // The deferred triggers look at the entries of the new transaction and nothing else.
  lemma TriggersSeePlan(s: Store, p: Plan, w: Store)
    requires EntriesOk(s) && p.id !in s.txns && OwnEntries(p) && w.entries == p.entries
    ensures TriggersPass(s, w) <==> TriggerPasses(p.entries)
  {
    PostedEntries(s, p, p.id);
    if p.entries != [] {
      assert p.entries[0] in w.entries;
    }
  }

  lemma CommitAnswers(s: Store, me: Session, p: Plan)
    requires EntriesOk(s) && me.call.cmd.req.key !in s.records && FinalOk(s, me, p)
    requires PlanOk(me.call.cmd.req, s, p)
    ensures Answers(s, me, CommitStep(s, me, PlanBody(p)))
  {
    hide Ready, TriggersPass, TriggerPasses, EntriesOk;
    TriggersSeePlan(s, p, me.w);
    ExecIsPost(s, me.call, p);
  }

  lemma CommitAccountAnswers(s: Store, me: Session)
    requires me.call.cmd.req.key !in s.records && Creating(s, me) && me.w == CreateDelta(me.call.cmd)
    ensures Answers(s, me, CommitStep(s, me, CreateBody(me.call.cmd)))
  {
  }

  lemma CompleteNeverFails(s: Store, me: Session, p: Plan)
    requires PostedOk(s, me, p, NewReversals(p), map[p.eventId := p.event])
    ensures CompleteStep(s, me, Some(p)).Continue?
  {
  }

  lemma EarlyAnswers(s: Store, me: Session)
    requires Progress(s, me) && Local(s, me).Done?
    requires me.phase.Begun? || me.phase.KeyHeld? || me.phase.Claimed? || me.phase.AccountRow? || me.phase.Hit?
    ensures Answers(s, me, Local(s, me))
  {
    hide PostingsOk, UpdatesOk, PostedOk, FinalOk, LockingOk, SeenOk, Exec, StartStep, Answers;
    if me.phase.Claimed? { StartAnswers(s, me); }
    if me.phase.KeyHeld? || me.phase.Hit? { KeyAnswersLocal(s, me); }
  }

  lemma KeyAnswersLocal(s: Store, me: Session)
    requires Progress(s, me) && Local(s, me).Done? && (me.phase.KeyHeld? || me.phase.Hit?)
    ensures Answers(s, me, Local(s, me))
  {
    hide Exec, Replay, Working, Answers;
    KeyAnswers(s, me);
  }

  lemma LockingAnswers(s: Store, me: Session)
    requires Sound(s) && Progress(s, me) && Local(s, me).Done? && me.phase.Locking?
    ensures Answers(s, me, Local(s, me))
  {
    hide PostingsOk, UpdatesOk, PostedOk, FinalOk, LockingOk, SeenOk, LockStep, CheckStep, Exec, Answers,
         EntriesOk, TxnsOk, ReversalsOk, SumsOk, RowsOk, NetOk, RecordsOk, OutboxOk;
    var Locking(order, n, original) := me.phase;
    LockBound(s, me, order, n, original);
    if n < |order| {
      LockAnswers(s, me, order, n, original);
    } else {
      CheckAnswers(s, me, order, original);
    }
  }

  lemma PostingPhasesAnswer(s: Store, me: Session)
    requires Sound(s) && Progress(s, me) && Local(s, me).Done?
    requires me.phase.Header? || me.phase.Postings? || me.phase.Updates? || me.phase.ReversalRow? || me.phase.EventRow?
    ensures Answers(s, me, Local(s, me))
  {
    hide PostingsOk, UpdatesOk, PostedOk, FinalOk, LockingOk, SeenOk, Ready, Covers, Exec, Answers, PlanOk,
         HeaderStep, PostingStep, UpdateStep, ReversalStep, EntriesOk, TxnsOk, ReversalsOk, SumsOk, RowsOk,
         NetOk, RecordsOk, OutboxOk;
    match me.phase
    case Header(p) =>
      ReadyPlanOk(s, me.call, p);
      HeaderAnswers(s, me, p);
    case Postings(p, n) => PostingAnswers(s, me, p, n);
    case Updates(p, n) => UpdateAnswers(s, me, p, n);
    case ReversalRow(p) => ReversalAnswers(s, me, p);
    case EventRow(p) =>
  }

  lemma LateAnswers(s: Store, me: Session)
    requires Sound(s) && Progress(s, me) && Local(s, me).Done? && (me.phase.Completing? || me.phase.Committing?)
    ensures Answers(s, me, Local(s, me))
  {
    hide PostingsOk, UpdatesOk, PostedOk, FinalOk, LockingOk, SeenOk, CompleteStep, CommitStep, Creating, PlanOk,
         Exec, Answers, EntriesOk, TxnsOk, ReversalsOk, SumsOk, RowsOk, NetOk, RecordsOk, OutboxOk;
    match me.phase
    case Completing(None) => CreateCompletes(s, me);
    case Completing(Some(p)) => CompleteNeverFails(s, me, p);
    case Committing(None, _) => CommitAccountAnswers(s, me);
    case Committing(Some(p), _) =>
      FinalReady(s, me, p);
      ReadyPlanOk(s, me.call, p);
      CommitAnswers(s, me, p);
  }

  lemma CreateCompletes(s: Store, me: Session)
    requires Creating(s, me) && me.w == CreateWritten(me.call.cmd)
    ensures CompleteStep(s, me, None).Continue?
  {
  }

  lemma FinalReady(s: Store, me: Session, p: Plan)
    requires FinalOk(s, me, p)
    ensures Ready(s, me.call, p)
  {
  }

  // A statement that ends its session answers and writes what the sequential machine would, run
  // whole on the committed store of that moment.
  lemma AnswersSequentially(s: Store, me: Session)
    requires Sound(s) && Progress(s, me) && Local(s, me).Done?
    ensures Exec(me.call, s) == Outcome(Local(s, me).delta, Local(s, me).answer)
  {
    assert Answers(s, me, Local(s, me)) by {
      hide Sound, Progress, Local, Answers;
      if me.phase.Completing? || me.phase.Committing? {
        LateAnswers(s, me);
      } else if me.phase.Locking? {
        LockingAnswers(s, me);
      } else if me.phase.Header? || me.phase.Postings? || me.phase.Updates? || me.phase.ReversalRow? || me.phase.EventRow? {
        PostingPhasesAnswer(s, me);
      } else {
        EarlyAnswers(s, me);
      }
    }
  }
}
