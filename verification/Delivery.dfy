// Webhook delivery: loops that read due rows without locking them, post, and record each outcome.
module Delivery {
  import opened Prelude
  import opened Schema
  import Publisher

  type Loop = nat
  type Time = int

  datatype Status = Pending | Delivered | DeadLetter

  datatype Row = Row(status: Status, attempts: nat, nextAt: Time, deliveredAt: Option<Time>)

  function NewRow(now: Time): Row {
    Row(Pending, 0, now, None)
  }

  // UPDATE ... WHERE status <> 'delivered'; delivered_at keeps its first value.
  function DeliveredRow(row: Row, now: Time): Row {
    if row.status.Delivered? then row
    else row.(status := Delivered, attempts := row.attempts + 1,
              deliveredAt := if row.deliveredAt.Some? then row.deliveredAt else Some(now))
  }

  // UPDATE with no condition on the status, and no CHECK that would refuse it.
  function FailedRow(row: Row, now: Time, delay: Time, max: nat): Row {
    row.(status := if row.attempts + 1 >= max then DeadLetter else Pending, attempts := row.attempts + 1,
         nextAt := now + delay)
  }

  predicate Terminal(row: Row) {
    row.status.Delivered? || row.status.DeadLetter?
  }

  predicate Due(row: Row, now: Time) {
    row.status.Pending? && row.nextAt <= now
  }

  // ----- runs -----

  // `hands` is each loop's batch in memory.
  datatype State = State(rows: map<Id, Row>, now: Time, hands: map<Loop, set<Id>>)

  /** Enqueue: the consumer adds a row. Claim: a loop that has finished its last batch reads due rows.
      Skip: the outcome could not be recorded. Stop: the context ended or the process died. */
  datatype Move =
    | Enqueue(id: Id)
    | Tick(elapsed: nat)
    | Claim(loop: Loop, ids: set<Id>)
    | Deliver(loop: Loop, id: Id)
    | Fail(loop: Loop, id: Id, delay: Time)
    | Skip(loop: Loop, id: Id)
    | Stop(loop: Loop)

  function Hand(m: State, loop: Loop): set<Id> {
    if loop in m.hands then m.hands[loop] else {}
  }

  predicate Enabled(m: State, mv: Move) {
    match mv
    case Enqueue(id) => id !in m.rows
    case Tick(_) => true
    case Claim(loop, ids) => Hand(m, loop) == {} && forall id :: id in ids ==> id in m.rows && Due(m.rows[id], m.now)
    case Deliver(loop, id) => id in Hand(m, loop) && id in m.rows
    case Fail(loop, id, _) => id in Hand(m, loop) && id in m.rows
    case Skip(loop, id) => id in Hand(m, loop)
    case Stop(loop) => true
  }

  function Drops(m: State, loop: Loop, id: Id): State {
    m.(hands := m.hands[loop := Hand(m, loop) - {id}])
  }

  function Step(m: State, mv: Move, max: nat): State {
    if !Enabled(m, mv) then m
    else match mv
    case Enqueue(id) => m.(rows := m.rows[id := NewRow(m.now)])
    case Tick(elapsed) => m.(now := m.now + elapsed)
    case Claim(loop, ids) => m.(hands := m.hands[loop := ids])
    case Deliver(loop, id) => Drops(m.(rows := m.rows[id := DeliveredRow(m.rows[id], m.now)]), loop, id)
    case Fail(loop, id, delay) => Drops(m.(rows := m.rows[id := FailedRow(m.rows[id], m.now, delay, max)]), loop, id)
    case Skip(loop, id) => Drops(m, loop, id)
    case Stop(loop) => m.(hands := m.hands[loop := {}])
  }

  const START := State(map[], 0, map[])

  function Run(moves: seq<Move>, max: nat): State {
    if moves == [] then START else Step(Run(moves[..|moves| - 1], max), moves[|moves| - 1], max)
  }

  // ----- exactly when a terminal row stays -----

  // An effective mark that changes a terminal row: any failure, or a delivery of a dead letter.
  predicate Disturbs(m: State, mv: Move, id: Id) {
    && Enabled(m, mv)
    && ((mv.Fail? && mv.id == id) || (mv.Deliver? && mv.id == id && id in m.rows && m.rows[id].status.DeadLetter?))
  }

  predicate Undisturbed(moves: seq<Move>, i: nat, id: Id, max: nat) {
    forall j :: i <= j < |moves| ==> !Disturbs(Run(moves[..j], max), moves[j], id)
  }

  lemma StepDisturbs(m: State, mv: Move, id: Id, max: nat)
    requires id in m.rows
    ensures id in Step(m, mv, max).rows && m.rows[id].attempts <= Step(m, mv, max).rows[id].attempts
    ensures Terminal(m.rows[id]) ==> (Step(m, mv, max).rows[id] == m.rows[id] <==> !Disturbs(m, mv, id))
    ensures Disturbs(m, mv, id) ==> m.rows[id].attempts < Step(m, mv, max).rows[id].attempts
  {
  }

  lemma {:induction false} AttemptsGrow(moves: seq<Move>, i: nat, id: Id, max: nat)
    requires i <= |moves| && id in Run(moves[..i], max).rows
    ensures id in Run(moves, max).rows && Run(moves[..i], max).rows[id].attempts <= Run(moves, max).rows[id].attempts
    ensures !Undisturbed(moves, i, id, max) ==>
      Run(moves[..i], max).rows[id].attempts < Run(moves, max).rows[id].attempts
  {
    hide Step, Disturbs;
    if i == |moves| {
      assert moves[..i] == moves;
    } else {
      var n := |moves| - 1;
      var init := moves[..n];
      assert init[..i] == moves[..i];
      AttemptsGrow(init, i, id, max);
      StepDisturbs(Run(init, max), moves[n], id, max);
      UndisturbedInit(moves, i, id, max);
    }
  }

  lemma UndisturbedInit(moves: seq<Move>, i: nat, id: Id, max: nat)
    requires i < |moves|
    ensures var n := |moves| - 1;
      Undisturbed(moves, i, id, max) <==>
        Undisturbed(moves[..n], i, id, max) && !Disturbs(Run(moves[..n], max), moves[n], id)
  {
    hide Run, Disturbs;
    var n := |moves| - 1;
    forall j | i <= j < n ensures moves[..n][..j] == moves[..j] {
    }
    if Undisturbed(moves[..n], i, id, max) {
      forall j | i <= j < n ensures !Disturbs(Run(moves[..j], max), moves[j], id) {
        assert moves[..n][j] == moves[j];
      }
    }
  }

  /** For any number of loops: a row delivered or dead at some point is the same at the end exactly
      when no failure of it, and no delivery of it while dead, has been recorded since. */
  lemma {:induction false} TerminalStaysExactly(moves: seq<Move>, i: nat, id: Id, max: nat)
    requires i <= |moves| && id in Run(moves[..i], max).rows && Terminal(Run(moves[..i], max).rows[id])
    ensures id in Run(moves, max).rows
    ensures Run(moves, max).rows[id] == Run(moves[..i], max).rows[id] <==> Undisturbed(moves, i, id, max)
  {
    hide Step, Disturbs;
    AttemptsGrow(moves, i, id, max);
    if i == |moves| {
      assert moves[..i] == moves;
    } else if Undisturbed(moves, i, id, max) {
      var init := moves[..|moves| - 1];
      assert init[..i] == moves[..i];
      UndisturbedInit(moves, i, id, max);
      TerminalStaysExactly(init, i, id, max);
      StepDisturbs(Run(init, max), moves[|moves| - 1], id, max);
    }
  }

  // ----- when a row is due, and when it was delivered -----

  predicate Changes(mv: Move, id: Id) {
    (mv.Enqueue? || mv.Deliver? || mv.Fail?) && mv.id == id
  }

  // Nothing that writes the row takes effect after position i.
  predicate Untouched(moves: seq<Move>, i: nat, id: Id, max: nat) {
    forall k :: i < k < |moves| ==> !(Changes(moves[k], id) && Enabled(Run(moves[..k], max), moves[k]))
  }

  lemma StepUntouched(m: State, mv: Move, id: Id, max: nat)
    requires id in m.rows && !(Changes(mv, id) && Enabled(m, mv))
    ensures id in Step(m, mv, max).rows && Step(m, mv, max).rows[id] == m.rows[id]
    ensures m.now <= Step(m, mv, max).now
  {
  }

  lemma {:induction false} RowUntouched(moves: seq<Move>, i: nat, id: Id, max: nat)
    requires i < |moves| && id in Run(moves[..i + 1], max).rows && Untouched(moves, i, id, max)
    ensures id in Run(moves, max).rows && Run(moves, max).rows[id] == Run(moves[..i + 1], max).rows[id]
    ensures Run(moves[..i + 1], max).now <= Run(moves, max).now
  {
    hide Step, Enabled;
    if i + 1 == |moves| {
      assert moves[..i + 1] == moves;
    } else {
      var n := |moves| - 1;
      var init := moves[..n];
      assert init[..i + 1] == moves[..i + 1];
      forall k | i < k < n ensures !(Changes(init[k], id) && Enabled(Run(init[..k], max), init[k])) {
        assert init[..k] == moves[..k];
      }
      RowUntouched(init, i, id, max);
      StepUntouched(Run(init, max), moves[n], id, max);
    }
  }

  // Right after the row was written by `mv`.
  lemma DueAfter(m: State, mv: Move, id: Id, now: Time, max: nat)
    requires Changes(mv, id) && Enabled(m, mv) && m.now <= now
    ensures id in Step(m, mv, max).rows
    ensures Due(Step(m, mv, max).rows[id], now) <==>
      mv.Enqueue? || (mv.Fail? && m.rows[id].attempts + 1 < max && m.now + mv.delay <= now)
    ensures m.now <= Step(m, mv, max).now
  {
  }

  lemma RunTo(moves: seq<Move>, k: nat, max: nat)
    requires k < |moves|
    ensures Run(moves[..k + 1], max) == Step(Run(moves[..k], max), moves[k], max)
  {
    hide Step;
    assert moves[..k + 1][..k] == moves[..k];
  }

  /** Exactly when a loop with nothing in hand can take up a row, by what was last done to it at i: at
      once if it was enqueued then, if it failed then with attempts left only when its delay has run out,
      and never if it was delivered or used up its attempts. */
  lemma DueExactly(moves: seq<Move>, i: nat, id: Id, loop: Loop, max: nat)
    requires i < |moves| && Changes(moves[i], id) && Enabled(Run(moves[..i], max), moves[i])
    requires Untouched(moves, i, id, max) && Hand(Run(moves, max), loop) == {}
    ensures Enabled(Run(moves, max), Claim(loop, {id})) <==>
      moves[i].Enqueue? ||
      (moves[i].Fail? && id in Run(moves[..i], max).rows && Run(moves[..i], max).rows[id].attempts + 1 < max
       && Run(moves[..i], max).now + moves[i].delay <= Run(moves, max).now)
  {
    hide Run, Step, Due;
    RunTo(moves, i, max);
    DueAfter(Run(moves[..i], max), moves[i], id, Run(moves[..i], max).now, max);
    RowUntouched(moves, i, id, max);
    DueAfter(Run(moves[..i], max), moves[i], id, Run(moves, max).now, max);
  }

  predicate Dated(row: Row) {
    row.status.Delivered? ==> row.deliveredAt.Some?
  }

  lemma {:induction false} DeliveredIsDated(moves: seq<Move>, max: nat)
    ensures forall id :: id in Run(moves, max).rows ==> Dated(Run(moves, max).rows[id])
  {
    if moves != [] {
      DeliveredIsDated(moves[..|moves| - 1], max);
    }
  }

  /** For any number of loops: the time of the first recorded delivery is kept, whatever is recorded
      later. */
  lemma {:induction false} FirstDeliveryStays(moves: seq<Move>, i: nat, id: Id, max: nat)
    requires i < |moves| && moves[i].Deliver? && moves[i].id == id && Enabled(Run(moves[..i], max), moves[i])
    requires Run(moves[..i], max).rows[id].deliveredAt.None?
    ensures id in Run(moves, max).rows && Run(moves, max).rows[id].deliveredAt == Some(Run(moves[..i], max).now)
  {
    hide Step, Dated;
    var n := |moves| - 1;
    if i == n {
      DeliveredIsDated(moves[..i], max);
      DeliversNow(Run(moves[..i], max), moves[i], max);
    } else {
      assert moves[..n][..i] == moves[..i];
      FirstDeliveryStays(moves[..n], i, id, max);
      KeepsDate(Run(moves[..n], max), moves[n], id, max);
    }
  }

  lemma DeliversNow(m: State, mv: Move, max: nat)
    requires mv.Deliver? && Enabled(m, mv) && m.rows[mv.id].deliveredAt.None? && Dated(m.rows[mv.id])
    ensures mv.id in Step(m, mv, max).rows && Step(m, mv, max).rows[mv.id].deliveredAt == Some(m.now)
  {
  }

  lemma KeepsDate(m: State, mv: Move, id: Id, max: nat)
    requires id in m.rows && m.rows[id].deliveredAt.Some?
    ensures id in Step(m, mv, max).rows && Step(m, mv, max).rows[id].deliveredAt == m.rows[id].deliveredAt
  {
  }

  // ----- the guard: no row is in two loops' hands -----

  ghost predicate Unshared(m: State) {
    forall k, l, id :: id in Hand(m, k) && id in Hand(m, l) ==> k == l
  }

  ghost predicate NeverShared(moves: seq<Move>, max: nat) {
    forall i :: 0 <= i <= |moves| ==> Unshared(Run(moves[..i], max))
  }

  predicate RowOk(row: Row, max: nat) {
    && (row.status.Pending? ==> row.attempts < max)
    && (row.status.DeadLetter? ==> row.attempts == max)
    && (row.status.Delivered? ==> 1 <= row.attempts <= max)
    && (row.status.Delivered? <==> row.deliveredAt.Some?)
  }

  predicate Waits(m: State, id: Id) {
    id in m.rows && m.rows[id].status.Pending?
  }

  // Every row in some hand is pending.
  ghost predicate Inv(m: State, max: nat) {
    && (forall id :: id in m.rows ==> RowOk(m.rows[id], max))
    && (forall l, id :: id in Hand(m, l) ==> Waits(m, id))
  }

  lemma StepKeepsInv(m: State, mv: Move, max: nat)
    requires Inv(m, max) && Unshared(m) && max >= 1
    ensures Inv(Step(m, mv, max), max)
  {
    if Enabled(m, mv) {
      var m' := Step(m, mv, max);
      assert mv.Deliver? || mv.Fail? ==> Waits(m, mv.id);
      forall l, id | id in Hand(m', l) ensures Waits(m', id) {
        if !mv.Claim? {
          assert id in Hand(m, l) && Waits(m, id);
        } else if l != mv.loop {
          assert id in Hand(m, l) && Waits(m, id);
        }
      }
    }
  }

  /** While no two hands share a row: pending rows have attempts left, a dead letter has used exactly
      `max`, and what any loop still holds is pending. */
  lemma {:induction false} RunKeepsInv(moves: seq<Move>, max: nat)
    requires NeverShared(moves, max) && max >= 1
    ensures Inv(Run(moves, max), max)
  {
    hide Inv, Step, Unshared;
    if moves == [] {
      EmptyInv(max);
    } else {
      var n := |moves| - 1;
      NeverSharedPrefix(moves, n, max);
      RunKeepsInv(moves[..n], max);
      assert moves[..n] == moves[..n][..n];
      StepKeepsInv(Run(moves[..n], max), moves[n], max);
    }
  }

  lemma NeverSharedPrefix(moves: seq<Move>, n: nat, max: nat)
    requires NeverShared(moves, max) && n <= |moves|
    ensures NeverShared(moves[..n], max)
  {
    hide Run, Unshared;
    forall i | 0 <= i <= n ensures Unshared(Run(moves[..n][..i], max)) {
      assert moves[..n][..i] == moves[..i];
    }
  }

  lemma EmptyInv(max: nat)
    ensures Inv(START, max)
  {
  }

  /** While no two hands share a row, `delivered` and `dead_letter` are terminal. */
  lemma {:induction false} TerminalStays(moves: seq<Move>, i: nat, id: Id, max: nat)
    requires NeverShared(moves, max) && max >= 1 && i <= |moves|
    requires id in Run(moves[..i], max).rows && Terminal(Run(moves[..i], max).rows[id])
    ensures id in Run(moves, max).rows && Run(moves, max).rows[id] == Run(moves[..i], max).rows[id]
    decreases |moves|
  {
    hide Run, Inv, Disturbs, NeverShared, Terminal;
    forall j | i <= j < |moves| ensures !Disturbs(Run(moves[..j], max), moves[j], id) {
      assert moves[..j][..i] == moves[..i];
      NeverSharedPrefix(moves, j, max);
      TerminalStays(moves[..j], i, id, max);
      RunKeepsInv(moves[..j], max);
      HeldIsPending(Run(moves[..j], max), moves[j], id, max);
    }
    TerminalStaysExactly(moves, i, id, max);
  }

  lemma HeldIsPending(m: State, mv: Move, id: Id, max: nat)
    requires Inv(m, max) && id in m.rows && Terminal(m.rows[id])
    ensures !Disturbs(m, mv, id)
  {
    if mv.Fail? || mv.Deliver? {
      assert id in Hand(m, mv.loop) ==> Waits(m, id);
    }
  }

  // ----- one loop -----

  predicate Loops(mv: Move) {
    !mv.Enqueue? && !mv.Tick?
  }

  predicate OneLoop(moves: seq<Move>, loop: Loop) {
    forall i :: 0 <= i < |moves| && Loops(moves[i]) ==> moves[i].loop == loop
  }

  // One running loop shares no row with another.
  lemma {:induction false} OneLoopUnshared(moves: seq<Move>, loop: Loop, max: nat)
    requires OneLoop(moves, loop)
    ensures forall l :: l in Run(moves, max).hands ==> l == loop
  {
    if moves != [] {
      OneLoopUnshared(moves[..|moves| - 1], loop, max);
    }
  }

  lemma OneLoopNeverShares(moves: seq<Move>, loop: Loop, max: nat)
    requires OneLoop(moves, loop)
    ensures NeverShared(moves, max)
  {
    hide Run;
    forall i | 0 <= i <= |moves| ensures Unshared(Run(moves[..i], max)) {
      OneLoopUnshared(moves[..i], loop, max);
    }
  }

  /** So with one delivery loop running, both statuses are terminal. */
  lemma OneLoopStays(moves: seq<Move>, i: nat, id: Id, loop: Loop, max: nat)
    requires OneLoop(moves, loop) && max >= 1 && i <= |moves|
    requires id in Run(moves[..i], max).rows && Terminal(Run(moves[..i], max).rows[id])
    ensures id in Run(moves, max).rows && Run(moves, max).rows[id] == Run(moves[..i], max).rows[id]
    ensures Inv(Run(moves, max), max)
  {
    hide Run, Inv, NeverShared, Terminal;
    OneLoopNeverShares(moves, loop, max);
    TerminalStays(moves, i, id, max);
    RunKeepsInv(moves, max);
  }

  // ----- what the guard rules out -----

  lemma RunAppend(moves: seq<Move>, mv: Move, max: nat)
    ensures Run(moves + [mv], max) == Step(Run(moves, max), mv, max)
  {
    hide Step;
    assert (moves + [mv])[..|moves|] == moves;
  }

  function BothClaim(id: Id): seq<Move> {
    [] + [Enqueue(id)] + [Claim(0, {id})] + [Claim(1, {id})]
  }

  lemma BothHold(id: Id, max: nat)
    ensures var m := Run(BothClaim(id), max);
      m.rows == map[id := NewRow(0)] && m.now == 0 && Hand(m, 0) == {id} && Hand(m, 1) == {id}
  {
    hide Run;
    RunAppend([], Enqueue(id), max);
    RunAppend([] + [Enqueue(id)], Claim(0, {id}), max);
    RunAppend([] + [Enqueue(id)] + [Claim(0, {id})], Claim(1, {id}), max);
    assert Run([], max) == START by { RunEmpty(max); }
  }

  lemma RunEmpty(max: nat)
    ensures Run([], max) == START
  {
  }

  /** With two loops it fails: both read the row, one delivers it, and the other's failure puts it
      back to `pending`, to be delivered again, or to `dead_letter` when one attempt was allowed. */
  lemma TwoLoopsUndoDelivery(id: Id, delay: Time, max: nat)
    requires max >= 1
    ensures var m := Run(BothClaim(id) + [Deliver(0, id)], max); id in m.rows && m.rows[id].status == Delivered
    ensures var m := Run(BothClaim(id) + [Deliver(0, id)] + [Fail(1, id, delay)], max);
      id in m.rows && m.rows[id].attempts == 2 && m.rows[id].status == if max <= 2 then DeadLetter else Pending
  {
    hide Run;
    BothHold(id, max);
    RunAppend(BothClaim(id), Deliver(0, id), max);
    RunAppend(BothClaim(id) + [Deliver(0, id)], Fail(1, id, delay), max);
  }

  // ----- the code -----

  // What the database makes of a mark: kept, kept with the reply lost, or not kept.
  datatype Mark = Recorded | Unacknowledged | NotRecorded

  // `draw` is the random number of the backoff.
  datatype Outcome = Posted(mark: Mark) | NotPosted(draw: real, mark: Mark)

  datatype Config = Config(max: nat, base: real, maxDelay: real) {
    function Delay(row: Row, draw: real): Time {
      Publisher.Backoff(row.attempts + 1, base, maxDelay, draw)
    }
  }

  function AfterOutcome(cfg: Config, row: Row, o: Outcome, now: Time): Row {
    if o.mark.NotRecorded? then row
    else match o
      case Posted(_) => DeliveredRow(row, now)
      case NotPosted(draw, _) => FailedRow(row, now, cfg.Delay(row, draw), cfg.max)
  }

  // What one attempt at a due row leaves: delivered now, or due again once the backoff of its next
  // attempt has passed, or dead with its attempts used up; or nothing new, if it was not recorded.
  ghost predicate Settles(cfg: Config, before: Row, after: Row, o: Outcome, now: Time) {
    if o.mark.NotRecorded? then after == before
    else if o.Posted? then after == Row(Delivered, before.attempts + 1, before.nextAt, Some(now))
    else
      var delay := Publisher.Backoff(before.attempts + 1, cfg.base, cfg.maxDelay, o.draw);
      && after.attempts == before.attempts + 1 && after.nextAt == now + delay && after.deliveredAt.None?
      && if before.attempts + 1 < cfg.max then forall t :: Due(after, t) <==> now + delay <= t else after.status.DeadLetter?
  }

  // The posts of these rows whose delivery was recorded and acknowledged.
  ghost function Acknowledged(ids: seq<Id>, outcome: Id -> Outcome): set<Id> {
    set id | id in ids && outcome(id) == Posted(Recorded)
  }

  lemma AcknowledgedNext(ids: seq<Id>, id: Id, outcome: Id -> Outcome)
    requires id !in ids
    ensures |Acknowledged(ids + [id], outcome)|
      == |Acknowledged(ids, outcome)| + if outcome(id) == Posted(Recorded) then 1 else 0
  {
    var before := Acknowledged(ids, outcome);
    assert Acknowledged(ids + [id], outcome) == if outcome(id) == Posted(Recorded) then before + {id} else before;
  }

  class DeliveryLoop {
    const cfg: Config
    var rows: map<Id, Row>
    var now: Time

    constructor (cfg: Config)
      requires cfg.max >= 1
      ensures this.cfg == cfg && rows == map[]
    {
      this.cfg := cfg;
      rows, now := map[], 0;
    }

    method MarkDelivered(id: Id, mark: Mark) returns (err: bool)
      modifies this`rows
      ensures err == !mark.Recorded?
      ensures rows == if id in old(rows) && !mark.NotRecorded? then old(rows)[id := DeliveredRow(old(rows)[id], now)]
        else old(rows)
    {
      if mark.NotRecorded? {
        return true;
      }
      if id in rows && !rows[id].status.Delivered? {
        var row := rows[id];
        rows := rows[id := row.(status := Delivered, attempts := row.attempts + 1,
                                deliveredAt := if row.deliveredAt.Some? then row.deliveredAt else Some(now))];
      }
      return mark.Unacknowledged?;
    }

    // None when there is no such row, or no reply.
    method MarkFailed(id: Id, delay: Time, mark: Mark) returns (r: Option<(nat, bool)>)
      modifies this`rows
      ensures rows == if id in old(rows) && !mark.NotRecorded? then old(rows)[id := FailedRow(old(rows)[id], now, delay, cfg.max)]
        else old(rows)
      ensures r == if id in old(rows) && mark.Recorded? then Some((rows[id].attempts, rows[id].status.DeadLetter?)) else None
    {
      if id !in rows || mark.NotRecorded? {
        return None;
      }
      rows := rows[id := FailedRow(rows[id], now, delay, cfg.max)];
      return if mark.Unacknowledged? then None else Some((rows[id].attempts, rows[id].status.DeadLetter?));
    }

    // False also for a post whose delivery was recorded without the reply arriving.
    method Deliver(id: Id, o: Outcome) returns (delivered: bool)
      requires id in rows
      modifies this`rows
      ensures rows == old(rows)[id := AfterOutcome(cfg, old(rows)[id], o, now)]
      ensures delivered <==> o.Posted? && o.mark.Recorded?
    {
      if o.NotPosted? {
        var _ := MarkFailed(id, Publisher.Backoff(rows[id].attempts + 1, cfg.base, cfg.maxDelay, o.draw), o.mark);
        return false;
      }
      var err := MarkDelivered(id, o.mark);
      return !err;
    }

    /** One pass over a batch read as due. The context ends after `stop` rows. Alone, it takes every
        row to its outcome and leaves terminal rows as they were. */
    method DeliverOnce(batch: seq<Id>, outcome: Id -> Outcome, stop: nat) returns (delivered: nat)
      requires forall i :: 0 <= i < |batch| ==> batch[i] in rows && Due(rows[batch[i]], now)
      requires forall i, j :: 0 <= i < j < |batch| ==> batch[i] != batch[j]
      requires cfg.max >= 1 && forall id :: id in rows ==> RowOk(rows[id], cfg.max)
      modifies this`rows
      ensures rows.Keys == old(rows.Keys)
      ensures var done := batch[..if stop < |batch| then stop else |batch|];
        && delivered == |Acknowledged(done, outcome)|
        && forall id :: id in rows ==>
             if id in done then Settles(cfg, old(rows)[id], rows[id], outcome(id), now) else rows[id] == old(rows)[id]
      ensures forall id :: id in rows ==>
        RowOk(rows[id], cfg.max) && (Terminal(old(rows)[id]) ==> rows[id] == old(rows)[id])
    {
      hide Settles, Acknowledged, AfterOutcome;
      delivered := 0;
      assert Acknowledged(batch[..0], outcome) == {} by { NoneAcknowledged(outcome); }
      var i := 0;
      while i < |batch| && i < stop
        invariant i <= |batch| && i <= stop && delivered == |Acknowledged(batch[..i], outcome)|
        invariant rows.Keys == old(rows.Keys)
        invariant forall id :: id in rows ==>
          if id in batch[..i] then Settles(cfg, old(rows)[id], rows[id], outcome(id), now) else rows[id] == old(rows)[id]
        invariant forall id :: id in rows ==>
          RowOk(rows[id], cfg.max) && (Terminal(old(rows)[id]) ==> rows[id] == old(rows)[id])
      {
        assert batch[..i + 1] == batch[..i] + [batch[i]];
        assert batch[i] !in batch[..i];
        OutcomeSettles(cfg, rows[batch[i]], outcome(batch[i]), now);
        AcknowledgedNext(batch[..i], batch[i], outcome);
        var ok := Deliver(batch[i], outcome(batch[i]));
        if ok {
          delivered := delivered + 1;
        }
        i := i + 1;
      }
    }
  }

  lemma NoneAcknowledged(outcome: Id -> Outcome)
    ensures Acknowledged([], outcome) == {}
  {
  }

  lemma OutcomeSettles(cfg: Config, row: Row, o: Outcome, now: Time)
    requires RowOk(row, cfg.max) && row.status.Pending?
    ensures RowOk(AfterOutcome(cfg, row, o, now), cfg.max) && Settles(cfg, row, AfterOutcome(cfg, row, o, now), o, now)
  {
    hide Publisher.Backoff;
  }
}
