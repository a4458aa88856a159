// The payment transaction as concurrent sessions that interleave one database statement at a time.
// READ COMMITTED: a statement sees the latest committed store and its own transaction's writes.
// Locks and uncommitted unique keys are held until the transaction ends.
module Machine {
  import opened Prelude
  import opened Schema
  import opened Sequential
  import opened Books

  type Sid = nat

  datatype Loaded = NotLoaded | Original(id: Id, txn: Txn, entries: seq<Entry>)

  // The statement a session issues next. Each failpoint lies between two of these.
  datatype Phase =
    | Begun                                                  // advisory lock on the key
    | KeyHeld                                                // claim
    | Hit(answer: Answer)                                    // commit the empty transaction
    | Claimed                                                // insert account, or read what to lock
    | AccountRow                                             // insert its balance row
    | Locking(order: seq<AccountId>, n: nat, original: Loaded)  // lock row n, then check
    | Header(p: Plan)                                        // insert the transaction header
    | Postings(p: Plan, n: nat)                              // insert entry n
    | Updates(p: Plan, n: nat)                               // update balance n
    | ReversalRow(p: Plan)                                   // insert into reversals
    | EventRow(p: Plan)                                      // insert into outbox_events
    | Completing(plan: Option<Plan>)                         // complete the idempotency record
    | Committing(plan: Option<Plan>, body: Body)             // COMMIT

  // `seen` holds the balance rows this session has locked, as it read them under the lock.
  datatype Session = Session(call: Call, phase: Phase, seen: map<AccountId, Locked>, w: Store)

  datatype Reply = Reply(call: Call, answer: Answer)

  // `log` is ghost history: every answer the database gave, in the order it gave them.
  datatype State = State(store: Store, sessions: map<Sid, Session>, log: seq<Reply>)

  datatype Result = Continue(next: Session) | Done(answer: Answer, delta: Store)

  function Fails(e: Error): Result {
    Done(Fail(e), EMPTY)
  }

  // ----- one statement of one session -----

  function Claim(req: Request): Store {
    EMPTY.(records := map[req.key := Record(req.hash, InProgress, None)])
  }

  function ClaimStep(s: Store, me: Session): Result {
    var req := me.call.cmd.req;
    if req.key in s.records then
      var answer := Replay(s, s.records[req.key], req.hash);
      if answer.Fail? then Fails(answer.error) else Continue(me.(phase := Hit(answer)))
    else Continue(me.(phase := Claimed, w := Claim(req)))
  }

  function StartStep(s: Store, me: Session): Result {
    match me.call.cmd
    case Create(_, id, _, account) =>
      if id in s.accounts then Fails(AccountExists)
      else Continue(me.(phase := AccountRow, w := me.w.(accounts := map[id := account])))
    case Transfer(_, _, _, _, _, _, _) =>
      Continue(me.(phase := Locking(PayOrder(me.call.cmd), 0, NotLoaded)))
    case Reverse(_, target, _) =>
      var error := LoadError(s, target);
      if error.Some? then Fails(error.value)
      else
        var t := target.id;
        Continue(me.(phase := Locking(UndoOrder(s, t), 0, Original(t, s.txns[t], Select(s.entries, OfTxn(t))))))
  }

  function AccountRowStep(me: Session): Result {
    match me.call.cmd
    case Create(_, id, _, account) =>
      Continue(me.(phase := Completing(None), w := me.w.(balances := map[id := Balance(0, 0, account.overdraft)])))
    case _ => Fails(Internal)
  }

  function LockStep(s: Store, me: Session): Result
    requires me.phase.Locking? && me.phase.n < |me.phase.order|
  {
    var Locking(order, n, original) := me.phase;
    if !Lockable(s, order[n]) then Fails(UnknownAccount(order[n]))
    else Continue(me.(phase := Locking(order, n + 1, original), seen := me.seen[order[n] := Seen(s, order[n])]))
  }

  // After the last lock: the checks, made on what was read under the locks.
  function CheckStep(me: Session): Result
    requires me.phase.Locking?
  {
    var cmd := me.call.cmd;
    if cmd.Transfer? && cmd.source in me.seen && cmd.dest in me.seen then
      var refusal := Refusal(cmd, me.seen[cmd.source], me.seen[cmd.dest]);
      if refusal.Some? then Fails(refusal.value)
      else Continue(me.(phase := Header(PayPlan(me.call, me.seen[cmd.source]))))
    else if cmd.Reverse? && me.phase.original.Original? then
      var Original(t, txn, es) := me.phase.original;
      Continue(me.(phase := Header(UndoPlan(me.call, t, txn, es))))
    else Fails(Internal)
  }

  function HeaderStep(s: Store, me: Session, p: Plan): Result {
    var error := HeaderError(s.txns + me.w.txns, s.oneReversal + me.w.oneReversal, p);
    if error.Some? then Fails(error.value)
    else Continue(me.(phase := Postings(p, 0),
                      w := me.w.(txns := map[p.id := p.txn], oneReversal := NewReversals(p))))
  }

  function PostingStep(s: Store, me: Session, p: Plan, n: nat): Result {
    if n >= |p.entries| then Continue(me.(phase := Updates(p, 0)))
    else
      var error := EntryError(s.accounts + me.w.accounts, s.txns + me.w.txns, p.entries[n]);
      if error.Some? then Fails(error.value)
      else Continue(me.(phase := Postings(p, n + 1), w := me.w.(entries := me.w.entries + [p.entries[n]])))
  }

  function UpdateStep(s: Store, me: Session, p: Plan, n: nat): Result {
    var es := SortEntries(p.entries);
    if n >= |es| then Continue(me.(phase := ReversalRow(p)))
    else
      var u := UpdateRow(s.balances + me.w.balances, es[n]);
      if u.Refused? then Fails(u.error)
      else Continue(me.(phase := Updates(p, n + 1), w := me.w.(balances := me.w.balances[es[n].account := u.row])))
  }

  function ReversalStep(s: Store, me: Session, p: Plan): Result {
    if p.txn.reverses.Some? && p.txn.reverses.value in s.reversals + me.w.reversals then
      Fails(AlreadyReversed(p.txn.reverses.value))
    else Continue(me.(phase := EventRow(p), w := me.w.(reversals := NewReversals(p))))
  }

  function EventStep(me: Session, p: Plan): Result {
    Continue(me.(phase := Completing(Some(p)), w := me.w.(outbox := map[p.eventId := p.event])))
  }

  // Reload what the transaction stored, render it, and store it as the response.
  function CompleteStep(s: Store, me: Session, plan: Option<Plan>): Result {
    var req, view := me.call.cmd.req, Overlay(s, me.w);
    match plan
    case Some(p) =>
      if p.id !in view.txns then Fails(TransactionNotFound)
      else
        var body := Load(view, p.id);
        Continue(me.(phase := Committing(plan, body),
                     w := me.w.(records := map[req.key := Record(req.hash, Completed(201, body), Some(p.id))])))
    case None =>
      if !me.call.cmd.Create? || me.call.cmd.id !in me.w.accounts then Fails(Internal)
      else
        var body := AccountBody(me.call.cmd.id, me.w.accounts[me.call.cmd.id]);
        Continue(me.(phase := Committing(plan, body),
                     w := me.w.(records := map[req.key := Record(req.hash, Completed(201, body), None)])))
  }

  predicate TriggersPass(s: Store, w: Store) {
    forall e :: e in w.entries ==> Balanced(Select(s.entries + w.entries, OfTxn(e.txn)))
  }

  function CommitStep(s: Store, me: Session, body: Body): Result {
    if TriggersPass(s, me.w) then Done(Ok(201, body, false), me.w) else Fails(Internal)
  }

  // What the session's next statement does once nothing makes it wait.
  function Local(s: Store, me: Session): Result {
    match me.phase
    case Begun => Continue(me.(phase := KeyHeld))
    case KeyHeld => ClaimStep(s, me)
    case Hit(answer) => Done(answer, EMPTY)
    case Claimed => StartStep(s, me)
    case AccountRow => AccountRowStep(me)
    case Locking(order, n, _) => if n < |order| then LockStep(s, me) else CheckStep(me)
    case Header(p) => HeaderStep(s, me, p)
    case Postings(p, n) => PostingStep(s, me, p, n)
    case Updates(p, n) => UpdateStep(s, me, p, n)
    case ReversalRow(p) => ReversalStep(s, me, p)
    case EventRow(p) => EventStep(me, p)
    case Completing(plan) => CompleteStep(s, me, plan)
    case Committing(_, body) => CommitStep(s, me, body)
  }

  // ----- waiting -----

  // The statement waits while another open transaction holds the lock, or has an uncommitted
  // row with the unique key it is about to insert. Distinct keys may share an advisory lock:
  // h is the hash LockKey takes.
  ghost predicate WaitsFor(h: Key -> int, me: Session, other: Session) {
    match me.phase
    case Begun => other.phase != Begun && h(other.call.cmd.req.key) == h(me.call.cmd.req.key)
    case KeyHeld => me.call.cmd.req.key in other.w.records
    case Claimed => me.call.cmd.Create? && me.call.cmd.id in other.w.accounts
    case Locking(order, n, _) => n < |order| && order[n] in other.seen
    case Header(p) => p.txn.reverses.Some? && p.txn.reverses.value in other.w.oneReversal
    case Updates(p, n) => n < |SortEntries(p.entries)| && SortEntries(p.entries)[n].account in other.seen
    case ReversalRow(p) => p.txn.reverses.Some? && p.txn.reverses.value in other.w.reversals
    case _ => false
  }

  ghost predicate Blocked(h: Key -> int, m: State, sid: Sid)
    requires sid in m.sessions
  {
    exists t :: t in m.sessions && t != sid && WaitsFor(h, m.sessions[sid], m.sessions[t])
  }

  // ----- runs -----

  /** Begin opens a session for a validated call. Run issues one statement. Abort ends a session
      without an answer: an injected failure, a panic, a crash, a lost connection, a timeout.
      Restart is InTx's retry after a rollback. */
  datatype Move = Begin(sid: Sid, call: Call) | Run(sid: Sid) | Abort(sid: Sid) | Restart(sid: Sid)

  function Fresher(call: Call): Session {
    Session(call, Begun, map[], EMPTY)
  }

  ghost predicate Enabled(h: Key -> int, m: State, mv: Move) {
    match mv
    case Begin(sid, call) =>
      && sid !in m.sessions && Valid(call.cmd) && Fresh(call, m.store)
      && forall t :: t in m.sessions ==> DistinctIds(call, m.sessions[t].call)
    case Run(sid) => sid in m.sessions && !Blocked(h, m, sid)
    case Abort(sid) => sid in m.sessions
    case Restart(sid) => sid in m.sessions
  }

  predicate DistinctIds(c: Call, d: Call) {
    c.txnId != d.txnId && c.eventId != d.eventId
  }

  function Step(m: State, mv: Move): State {
    if !mv.Begin? && mv.sid !in m.sessions then m
    else match mv
    case Begin(sid, call) => m.(sessions := m.sessions[sid := Fresher(call)])
    case Run(sid) =>
      var me := m.sessions[sid];
      (match Local(m.store, me)
       case Continue(next) => m.(sessions := m.sessions[sid := next])
       case Done(answer, delta) =>
         State(Overlay(m.store, delta), m.sessions - {sid}, m.log + [Reply(me.call, answer)]))
    case Abort(sid) => m.(sessions := m.sessions - {sid})
    case Restart(sid) => m.(sessions := m.sessions[sid := Fresher(m.sessions[sid].call)])
  }

  const START := State(EMPTY, map[], [])

  function AfterRun(moves: seq<Move>): State {
    if moves == [] then START else Step(AfterRun(moves[..|moves| - 1]), moves[|moves| - 1])
  }

  // A run: every move is enabled where it is made.
  ghost predicate IsRun(h: Key -> int, moves: seq<Move>) {
    moves == [] ||
    (IsRun(h, moves[..|moves| - 1]) && Enabled(h, AfterRun(moves[..|moves| - 1]), moves[|moves| - 1]))
  }
}
