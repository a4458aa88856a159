// Ledger, outbox, replay and webhook consumer together.
module Pipeline {
  import opened Prelude
  import opened Schema
  import opened Sequential
  import opened Books
  import Isolation
  import Liveness
  import Machine
  import Outbox
  import Webhook

  // What a consumer reads: the event's content, and whether this copy is a replay.
  datatype Payload = Payload(event: Event, replay: bool)

  // `commits` is history: the calls the ledger has executed, in commit order.
  datatype State = State(store: Store, box: Outbox.State, hooks: Webhook.Rows<Payload>, commits: seq<Call>)

  datatype Config = Config(max: nat, ttl: Outbox.Time, endpoints: seq<string>)

  /** Commit: one command takes effect, with the outbox row it inserted in the same transaction.
      Publish: anything a publisher does. Replay: a listed row is published again. Consume: some
      message of the topic is handled, in any order and any number of times. */
  datatype Move =
    | Commit(call: Call)
    | Publish(mv: Outbox.Move)
    | Replay(id: Id)
    | Consume(offset: nat, fault: Webhook.Fault)

  ghost predicate Enabled(m: State, mv: Move) {
    match mv
    case Commit(call) => Valid(call.cmd) && Fresh(call, m.store)
    case Publish(omv) => !omv.Insert?
    case Replay(id) => id in m.box.rows
    case Consume(offset, _) => offset < |m.box.topic|
  }

  // The outbox table holds one row for each event of the ledger.
  function WithRows(rows: map<Id, Outbox.Row>, events: map<Id, Event>, now: Outbox.Time): map<Id, Outbox.Row> {
    map id | id in rows.Keys + events.Keys :: if id in rows then rows[id] else Outbox.NewRow(now)
  }

  function Decoded(m: State, x: Outbox.Message): Webhook.Message<Payload> {
    if x.event in m.store.outbox then Webhook.Payment(x.event, Payload(m.store.outbox[x.event], x.replay))
    else Webhook.Malformed
  }

  function Step(cfg: Config, m: State, mv: Move): State {
    match mv
    case Commit(call) =>
      var store := After(call, m.store);
      State(store, m.box.(rows := WithRows(m.box.rows, store.outbox, m.box.now)), m.hooks, m.commits + [call])
    case Publish(omv) => m.(box := Outbox.Step(m.box, omv, cfg.max, cfg.ttl))
    case Replay(id) => m.(box := m.box.(topic := m.box.topic + [Outbox.Message(id, true)]))
    case Consume(offset, fault) =>
      if offset < |m.box.topic| then
        m.(hooks := Webhook.Handled(m.hooks, Webhook.Handling(Decoded(m, m.box.topic[offset]), fault), cfg.endpoints))
      else m
  }

  function Run(cfg: Config, moves: seq<Move>): State {
    if moves == [] then State(EMPTY, Outbox.START, map[], [])
    else Step(cfg, Run(cfg, moves[..|moves| - 1]), moves[|moves| - 1])
  }

  ghost predicate IsRun(cfg: Config, moves: seq<Move>) {
    moves == [] ||
    (IsRun(cfg, moves[..|moves| - 1]) && Enabled(Run(cfg, moves[..|moves| - 1]), moves[|moves| - 1]))
  }

  // The ledger alone, executing calls one after another.
  function Executed(calls: seq<Call>): Store {
    if calls == [] then EMPTY else After(calls[|calls| - 1], Executed(calls[..|calls| - 1]))
  }

  function Commits(moves: seq<Move>): seq<Call> {
    if moves == [] then []
    else
      var before := Commits(moves[..|moves| - 1]);
      if moves[|moves| - 1].Commit? then before + [moves[|moves| - 1].call] else before
  }

  /** Publishing, replaying and delivering never touch the ledger: it is what the committed calls
      alone make it. */
  lemma {:induction false} PipelineLeavesLedger(cfg: Config, moves: seq<Move>)
    ensures Run(cfg, moves).store == Executed(Commits(moves))
    ensures Run(cfg, moves).commits == Commits(moves)
  {
    hide After;
    if moves != [] {
      PipelineLeavesLedger(cfg, moves[..|moves| - 1]);
    }
  }

  // ----- conservation -----

  predicate Hooked(m: State, k: (Id, string))
    requires k in m.hooks
  {
    && k.0 in m.store.outbox && m.hooks[k].event == m.store.outbox[k.0]
    && Outbox.Message(k.0, m.hooks[k].replay) in m.box.topic
  }

  ghost predicate Conserved(cfg: Config, m: State) {
    && Sound(m.store)
    && m.box.rows.Keys == m.store.outbox.Keys
    && Outbox.Inv(m.box, cfg.max)
    && forall k :: k in m.hooks ==> Hooked(m, k)
  }

  lemma CommitKeeps(cfg: Config, m: State, call: Call)
    requires Conserved(cfg, m) && Enabled(m, Commit(call)) && cfg.max >= 1
    ensures Conserved(cfg, Step(cfg, m, Commit(call)))
  {
    hide Sound, After, Outbox.Inv, Valid, Fresh;
    ExecKeepsSound(call, m.store);
    var store := After(call, m.store);
    OutboxGrows(call, m.store);
    NewRowsKeep(m.box, store.outbox, cfg.max);
  }

  lemma OutboxGrows(call: Call, s: Store)
    requires Fresh(call, s)
    ensures forall e :: e in s.outbox ==> e in After(call, s).outbox && After(call, s).outbox[e] == s.outbox[e]
  {
    hide Prepare, HeaderError, EntriesError, Apply, SortEntries, TriggerPasses, Fresh;
    DeltaOutbox(call, s);
  }

  lemma DeltaOutbox(call: Call, s: Store)
    requires Fresh(call, s)
    ensures forall e :: e in Exec(call, s).delta.outbox ==> e !in s.outbox && e == call.eventId
  {
    hide HeaderError, EntriesError, Apply, SortEntries, TriggerPasses, LoadError, Refusal, Missing, Lockable, Mirror, Gross;
  }

  /** To the outbox a command is nothing, or the insertion of the one row of its event. */
  lemma CommitIsInsert(cfg: Config, m: State, call: Call)
    requires Conserved(cfg, m) && Enabled(m, Commit(call))
    ensures Step(cfg, m, Commit(call)).box
      == if call.eventId in After(call, m.store).outbox then Outbox.Step(m.box, Outbox.Insert(call.eventId), cfg.max, cfg.ttl)
         else m.box
  {
    hide Sound, Exec, Outbox.Inv, Valid;
    DeltaOutbox(call, m.store);
    var events := After(call, m.store).outbox;
    assert m.box.rows.Keys == m.store.outbox.Keys && call.eventId !in m.store.outbox;
    if call.eventId in events {
      assert events.Keys == m.store.outbox.Keys + {call.eventId};
      assert WithRows(m.box.rows, events, m.box.now) == m.box.rows[call.eventId := Outbox.NewRow(m.box.now)];
    } else {
      assert events.Keys == m.store.outbox.Keys;
      assert WithRows(m.box.rows, events, m.box.now) == m.box.rows;
    }
  }

  lemma NewRowsKeep(box: Outbox.State, events: map<Id, Event>, max: nat)
    requires Outbox.Inv(box, max) && max >= 1
    ensures Outbox.Inv(box.(rows := WithRows(box.rows, events, box.now)), max)
  {
  }

  lemma PublishKeeps(cfg: Config, m: State, mv: Outbox.Move)
    requires Conserved(cfg, m) && !mv.Insert? && cfg.max >= 1
    ensures Conserved(cfg, Step(cfg, m, Publish(mv)))
  {
    hide Sound, Outbox.Inv;
    Outbox.StepKeepsInv(m.box, mv, cfg.max, cfg.ttl);
  }

  lemma HookedAfter(rows: Webhook.Rows<Payload>, id: Id, endpoints: seq<string>, p: Payload, k: (Id, string))
    requires k in Webhook.AllEnqueued(rows, id, endpoints, p)
    ensures k in rows ==> Webhook.AllEnqueued(rows, id, endpoints, p)[k] == rows[k]
    ensures k !in rows ==> k.0 == id && Webhook.AllEnqueued(rows, id, endpoints, p)[k] == p
  {
    Webhook.EnqueueGet(rows, id, endpoints, p, k.0, k.1);
  }

  lemma ConsumeKeeps(cfg: Config, m: State, offset: nat, fault: Webhook.Fault)
    requires Conserved(cfg, m)
    ensures Conserved(cfg, Step(cfg, m, Consume(offset, fault)))
  {
    hide Sound, Outbox.Inv, Webhook.AllEnqueued;
    var m' := Step(cfg, m, Consume(offset, fault));
    if offset < |m.box.topic| {
      var msg := Decoded(m, m.box.topic[offset]);
      forall k | k in m'.hooks ensures Hooked(m', k) {
        if msg.Payment? {
          HookedAfter(m.hooks, msg.id, Webhook.Reached(fault, cfg.endpoints), msg.payload, k);
          assert k in m.hooks ==> Hooked(m, k);
        } else {
          assert Hooked(m, k);
        }
      }
    }
  }

  lemma {:induction false} RunConserves(cfg: Config, moves: seq<Move>)
    requires IsRun(cfg, moves) && cfg.max >= 1
    ensures Conserved(cfg, Run(cfg, moves))
  {
    hide Conserved, Step;
    if moves == [] {
      StartConserved(cfg);
    } else {
      var m, mv := Run(cfg, moves[..|moves| - 1]), moves[|moves| - 1];
      RunConserves(cfg, moves[..|moves| - 1]);
      match mv
      case Commit(call) => CommitKeeps(cfg, m, call);
      case Publish(omv) => PublishKeeps(cfg, m, omv);
      case Replay(id) => ReplayKeeps(cfg, m, id);
      case Consume(offset, fault) => ConsumeKeeps(cfg, m, offset, fault);
    }
  }

  lemma StartConserved(cfg: Config)
    ensures Conserved(cfg, State(EMPTY, Outbox.START, map[], []))
  {
    EmptySound();
  }

  lemma ReplayKeeps(cfg: Config, m: State, id: Id)
    requires Conserved(cfg, m) && id in m.box.rows
    ensures Conserved(cfg, Step(cfg, m, Replay(id)))
  {
    hide Sound, Outbox.Inv;
    Outbox.MessageKeeps(m.box, Outbox.Message(id, true), cfg.max);
  }

  // The outbox row of a transaction.
  ghost predicate RowFor(m: State, t: Id, e: Id) {
    e in m.box.rows && e in m.store.outbox && m.store.outbox[e].aggregate == t
  }

  /** Event conservation, in every reachable state: each committed transaction has exactly one outbox
      row, which tells its entries and amount, and each row exactly one transaction; every message,
      first publication or replay, is some row's; every published row has a message; and every webhook
      row holds a committed event, marked as a replay only if some message of it is. */
  lemma EventsConserved(cfg: Config, moves: seq<Move>)
    requires IsRun(cfg, moves) && cfg.max >= 1
    ensures var m := Run(cfg, moves);
      && (forall t :: t in m.store.txns ==> exists e :: RowFor(m, t, e))
      && (forall t, d, e :: RowFor(m, t, d) && RowFor(m, t, e) ==> d == e)
      && (forall e :: e in m.box.rows ==> e in m.store.outbox && Tells(m.store, m.store.outbox[e]))
      && (forall i :: 0 <= i < |m.box.topic| ==> m.box.topic[i].event in m.box.rows)
      && (forall e :: e in m.box.rows && m.box.rows[e].status == Outbox.Published ==> Outbox.HasMessage(m.box.topic, e))
      && (forall k :: k in m.hooks ==> Hooked(m, k))
  {
    RunConserves(cfg, moves);
    var m := Run(cfg, moves);
    RowsAndTransactions(cfg, m);
    forall e | e in m.box.rows && m.box.rows[e].status == Outbox.Published ensures Outbox.HasMessage(m.box.topic, e) {
      assert Outbox.PublishedWasSent(m.box, e);
    }
    forall e | e in m.box.rows ensures Tells(m.store, m.store.outbox[e]) {
      EventTells(m.store, m.store.outbox[e]);
    }
  }

  // The event of a transaction in the ledger: its two entries, what they move, and what it is.
  predicate Tells(s: Store, ev: Event) {
    && ev.aggregate in s.txns
    && var txn, es := s.txns[ev.aggregate], Select(s.entries, OfTxn(ev.aggregate));
       && ev.entries == es && |es| == 2 && ev.amount > 0 && ev.amount in {es[0].amount, es[1].amount}
       && (ev.eventType == PaymentReversed <==> txn.kind == ReversalKind)
       && (txn.kind == FundingKind ==> es[0].account in s.accounts && s.accounts[es[0].account].system)
       && (txn.kind == TransferKind ==> es[0].account in s.accounts && !s.accounts[es[0].account].system)
  }

  lemma EventTells(s: Store, ev: Event)
    requires Sound(s) && EventOk(s, ev)
    ensures Tells(s, ev)
  {
    hide RowsOk, SumsOk, EntriesOk, ReversalsOk, NetOk, RecordsOk, OutboxOk, Select;
    assert TxnOk(s.txns[ev.aggregate], Select(s.entries, OfTxn(ev.aggregate)));
  }

  lemma RowsAndTransactions(cfg: Config, m: State)
    requires OutboxOk(m.store) && m.box.rows.Keys == m.store.outbox.Keys
    ensures forall t :: t in m.store.txns ==> exists e :: RowFor(m, t, e)
    ensures forall t, d, e :: RowFor(m, t, d) && RowFor(m, t, e) ==> d == e
    ensures forall e :: e in m.box.rows ==> e in m.store.outbox && EventOk(m.store, m.store.outbox[e])
  {
    forall t | t in m.store.txns ensures exists e :: RowFor(m, t, e) {
      assert Announced(m.store, t);
      var e :| e in m.store.outbox && m.store.outbox[e].aggregate == t;
      assert RowFor(m, t, e);
    }
    forall e | e in m.box.rows ensures EventOk(m.store, m.store.outbox[e]) {
      assert e in m.store.outbox;
    }
  }

  // ----- the concurrent ledger behind Commit -----

  function Calls(log: seq<Machine.Reply>): seq<Call> {
    if log == [] then [] else Calls(log[..|log| - 1]) + [log[|log| - 1].call]
  }

  lemma {:induction false} RunLogIsExecuted(log: seq<Machine.Reply>)
    ensures Isolation.RunLog(log) == Executed(Calls(log))
  {
    hide After;
    if log != [] {
      RunLogIsExecuted(log[..|log| - 1]);
    }
  }

  // Validated calls, each with new UUIDs when its turn comes.
  ghost predicate Issued(calls: seq<Call>) {
    calls == [] ||
    (Issued(calls[..|calls| - 1]) && Valid(calls[|calls| - 1].cmd) && Fresh(calls[|calls| - 1], Executed(calls[..|calls| - 1])))
  }

  lemma {:induction false} CorrectIsIssued(log: seq<Machine.Reply>)
    requires Isolation.Correct(log)
    ensures Issued(Calls(log))
  {
    hide Fresh, Valid, Executed, Isolation.RunLog, Exec;
    if log != [] {
      CorrectIsIssued(log[..|log| - 1]);
      RunLogIsExecuted(log[..|log| - 1]);
      assert Calls(log)[..|Calls(log)| - 1] == Calls(log[..|log| - 1]);
    }
  }

  /** Every committed store of the interleaved sessions is what issuing the answered calls one after
      another by Commit moves makes. */
  lemma SessionsAreCommits(h: Key -> int, moves: seq<Machine.Move>)
    requires Machine.IsRun(h, moves)
    ensures var calls := Calls(Machine.AfterRun(moves).log);
      Issued(calls) && Machine.AfterRun(moves).store == Executed(calls)
  {
    hide Machine.IsRun, Machine.AfterRun, Sound, Isolation.Reached, Issued, Executed;
    Isolation.RunsAreSequential(h, moves);
    RunLogIsExecuted(Machine.AfterRun(moves).log);
    CorrectIsIssued(Machine.AfterRun(moves).log);
  }

  lemma CallStays(s: Store, me: Machine.Session)
    ensures Machine.Local(s, me).Continue? ==> Machine.Local(s, me).next.call == me.call
  {
  }

  // One open session, and no answer given since `log`; or none open, and one answer, to its call.
  predicate OneAnswer(m: Machine.State, c: Call, log: seq<Machine.Reply>) {
    (m.sessions.Keys == {0} && m.sessions[0].call == c && Calls(m.log) == Calls(log))
    || (m.sessions == map[] && Calls(m.log) == Calls(log) + [c])
  }

  lemma StepOneAnswer(h: Key -> int, m: Machine.State, sid: Machine.Sid, c: Call, log: seq<Machine.Reply>)
    requires OneAnswer(m, c, log) && Machine.Enabled(h, m, Machine.Run(sid))
    ensures OneAnswer(Machine.Step(m, Machine.Run(sid)), c, log)
  {
    hide Machine.Local, Machine.Blocked, Overlay;
    CallStays(m.store, m.sessions[sid]);
    assert sid == 0;
  }

  lemma {:induction false} RunsOneAnswer(h: Key -> int, begun: seq<Machine.Move>, more: seq<Machine.Move>, c: Call,
                                         log: seq<Machine.Reply>)
    requires Machine.IsRun(h, begun + more) && Liveness.OnlyRuns(more) && OneAnswer(Machine.AfterRun(begun), c, log)
    ensures OneAnswer(Machine.AfterRun(begun + more), c, log)
  {
    hide Machine.Step, Machine.Enabled, OneAnswer;
    if more == [] {
      assert begun + more == begun;
    } else {
      var init, last := more[..|more| - 1], more[|more| - 1];
      assert (begun + more)[..|begun + more| - 1] == begun + init;
      RunsOneAnswer(h, begun, init, c, log);
      StepOneAnswer(h, Machine.AfterRun(begun + init), last.sid, c, log);
    }
  }

  lemma BeginOne(h: Key -> int, moves: seq<Machine.Move>, c: Call)
    requires Machine.IsRun(h, moves) && Machine.AfterRun(moves).sessions == map[]
    requires Valid(c.cmd) && Fresh(c, Machine.AfterRun(moves).store)
    ensures Machine.IsRun(h, moves + [Machine.Begin(0, c)])
    ensures OneAnswer(Machine.AfterRun(moves + [Machine.Begin(0, c)]), c, Machine.AfterRun(moves).log)
  {
    hide Valid, Fresh;
    var begun := moves + [Machine.Begin(0, c)];
    assert begun[..|begun| - 1] == moves;
  }

  /** And conversely: any calls so issued are answered, in that order, by some run of the sessions. */
  lemma {:induction false} CommitsAreSessions(h: Key -> int, calls: seq<Call>) returns (moves: seq<Machine.Move>)
    requires Issued(calls)
    ensures Machine.IsRun(h, moves) && Machine.AfterRun(moves).sessions == map[]
    ensures Calls(Machine.AfterRun(moves).log) == calls && Machine.AfterRun(moves).store == Executed(calls)
  {
    hide Machine.IsRun, Machine.AfterRun, Valid, Fresh, Executed, Issued, Calls;
    if calls == [] {
      moves := [];
      NoMoves(h);
    } else {
      var init, c := calls[..|calls| - 1], calls[|calls| - 1];
      IssuedLast(calls);
      var before := CommitsAreSessions(h, init);
      BeginOne(h, before, c);
      var begun := before + [Machine.Begin(0, c)];
      var more := Liveness.Drains(h, begun);
      moves := begun + more;
      RunsOneAnswer(h, begun, more, c, Machine.AfterRun(before).log);
      SessionsAreCommits(h, moves);
      assert calls == init + [c];
    }
  }

  lemma NoMoves(h: Key -> int)
    ensures Machine.IsRun(h, []) && Machine.AfterRun([]) == Machine.START && Executed([]) == EMPTY && Calls([]) == []
  {
  }

  lemma IssuedLast(calls: seq<Call>)
    requires Issued(calls) && calls != []
    ensures var init, c := calls[..|calls| - 1], calls[|calls| - 1];
      Issued(init) && Valid(c.cmd) && Fresh(c, Executed(init))
  {
    hide Valid, Fresh, Executed;
  }
}
