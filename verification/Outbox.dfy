// The outbox: rows claimed by workers for a limited time, published to Kafka, and marked.
module Outbox {
  import opened Prelude
  import opened Schema

  type Worker = nat
  type Time = int

  datatype Status = Pending | Publishing | Published | DeadLetter

  datatype Row = Row(status: Status, attempts: nat, claimedBy: Option<Worker>, claimedAt: Option<Time>,
                     nextAt: Time, publishedAt: Option<Time>)

  function NewRow(now: Time): Row {
    Row(Pending, 0, None, None, now, None)
  }

  // The CHECK constraint on the table.
  predicate Allowed(row: Row) {
    row.status.Published? <==> row.publishedAt.Some?
  }

  // ----- the four statements, on one row -----

  predicate Claimable(row: Row) {
    row.status.Pending? || row.status.Publishing?
  }

  predicate Due(row: Row, now: Time, ttl: Time) {
    && Claimable(row) && row.nextAt <= now
    && (row.status.Pending? || row.claimedAt.None? || row.claimedAt.value < now - ttl)
  }

  function ClaimedRow(row: Row, worker: Worker, now: Time): Row {
    row.(status := Publishing, claimedBy := Some(worker), claimedAt := Some(now))
  }

  // UPDATE ... WHERE status <> 'published'.
  function PublishedRow(row: Row, now: Time): Row {
    if row.status.Published? then row
    else row.(status := Published, attempts := row.attempts + 1, publishedAt := Some(now), claimedBy := None, claimedAt := None)
  }

  // The UPDATE of MarkFailed has no condition on the status. The CHECK constraint refuses it when
  // the result would not be allowed, and the row stays.
  function FailureUpdate(row: Row, now: Time, delay: Time, max: nat): Row {
    row.(status := if row.attempts + 1 >= max then DeadLetter else Pending, attempts := row.attempts + 1,
         claimedBy := None, claimedAt := None, nextAt := now + delay)
  }

  function FailedRow(row: Row, now: Time, delay: Time, max: nat): Row {
    if Allowed(FailureUpdate(row, now, delay, max)) then FailureUpdate(row, now, delay, max) else row
  }

  // ----- what every row keeps -----

  predicate RowOk(row: Row, now: Time, max: nat) {
    && Allowed(row)
    && (row.status.Publishing? <==> row.claimedBy.Some?)
    && (row.status.Publishing? <==> row.claimedAt.Some?)
    && (row.claimedAt.Some? ==> row.claimedAt.value <= now)
    && (Claimable(row) ==> row.attempts < max)
    && (row.status.DeadLetter? ==> row.attempts >= max)
  }

  // Published is final; a dead letter can only become published; attempts never fall.
  predicate Onward(before: Row, after: Row) {
    && (before.status.Published? ==> after == before)
    && (before.status.DeadLetter? ==> after.status.DeadLetter? || after.status.Published?)
    && before.attempts <= after.attempts
  }

  // MarkFailed, with no status guard, still leaves a published row alone: the CHECK refuses it.
  lemma CheckGuardsPublished(row: Row, now: Time, delay: Time, max: nat)
    requires Allowed(row)
    ensures FailedRow(row, now, delay, max) == row <==> row.status.Published?
    ensures Allowed(FailureUpdate(row, now, delay, max)) <==> !row.status.Published?
  {
    var after := FailureUpdate(row, now, delay, max);
    assert after.attempts == row.attempts + 1;
  }

  // ----- runs of many workers -----

  // A record in a worker's batch: claimed, or written to Kafka and not yet marked.
  datatype Hand = Held | Sent

  datatype Message = Message(event: Id, replay: bool)

  datatype State = State(rows: map<Id, Row>, now: Time, hands: map<(Worker, Id), Hand>, topic: seq<Message>)

  /** A worker keeps its batch in memory, so its marks may come long after its claim expired.
      `Unsure` is a publish that reported an error although the broker kept the message. */
  datatype Move =
    | Insert(id: Id)
    | Tick(elapsed: nat)
    | Claim(worker: Worker, id: Id)
    | Send(worker: Worker, id: Id)
    | Unsure(worker: Worker, id: Id)
    | MarkPublished(worker: Worker, id: Id)
    | MarkFailed(worker: Worker, id: Id, delay: Time)
    | Crash(worker: Worker, id: Id)

  predicate Holds(m: State, worker: Worker, id: Id, hand: Hand) {
    (worker, id) in m.hands && m.hands[(worker, id)] == hand
  }

  predicate Enabled(m: State, mv: Move, ttl: Time) {
    match mv
    case Insert(id) => id !in m.rows
    case Tick(_) => true
    case Claim(_, id) => id in m.rows && Due(m.rows[id], m.now, ttl)
    case Send(worker, id) => Holds(m, worker, id, Held)
    case Unsure(worker, id) => Holds(m, worker, id, Held)
    case MarkPublished(worker, id) => Holds(m, worker, id, Sent) && id in m.rows
    case MarkFailed(worker, id, _) => Holds(m, worker, id, Held) && id in m.rows
    case Crash(worker, id) => (worker, id) in m.hands
  }

  function Step(m: State, mv: Move, max: nat, ttl: Time): State {
    if !Enabled(m, mv, ttl) then m
    else match mv
    case Insert(id) => m.(rows := m.rows[id := NewRow(m.now)])
    case Tick(elapsed) => m.(now := m.now + elapsed)
    case Claim(worker, id) =>
      m.(rows := m.rows[id := ClaimedRow(m.rows[id], worker, m.now)], hands := m.hands[(worker, id) := Held])
    case Send(worker, id) =>
      m.(hands := m.hands[(worker, id) := Sent], topic := m.topic + [Message(id, false)])
    case Unsure(worker, id) => m.(topic := m.topic + [Message(id, false)])
    case MarkPublished(worker, id) =>
      m.(rows := m.rows[id := PublishedRow(m.rows[id], m.now)], hands := m.hands - {(worker, id)})
    case MarkFailed(worker, id, delay) =>
      m.(rows := m.rows[id := FailedRow(m.rows[id], m.now, delay, max)], hands := m.hands - {(worker, id)})
    case Crash(worker, id) => m.(hands := m.hands - {(worker, id)})
  }

  const START := State(map[], 0, map[], [])

  function Run(moves: seq<Move>, max: nat, ttl: Time): State {
    if moves == [] then START else Step(Run(moves[..|moves| - 1], max, ttl), moves[|moves| - 1], max, ttl)
  }

  // ----- the invariant -----

  predicate HasMessage(topic: seq<Message>, id: Id) {
    exists i :: 0 <= i < |topic| && topic[i].event == id
  }

  ghost predicate Inv(m: State, max: nat) {
    && (forall id :: id in m.rows ==> RowOk(m.rows[id], m.now, max))
    && (forall h :: h in m.hands ==> HandOk(m, h))
    && (forall i :: 0 <= i < |m.topic| ==> m.topic[i].event in m.rows)
    && (forall id :: id in m.rows ==> PublishedWasSent(m, id))
  }

  predicate HandOk(m: State, h: (Worker, Id))
    requires h in m.hands
  {
    h.1 in m.rows && (m.hands[h].Sent? ==> HasMessage(m.topic, h.1))
  }

  predicate PublishedWasSent(m: State, id: Id)
    requires id in m.rows
  {
    m.rows[id].status.Published? ==> HasMessage(m.topic, id)
  }

  lemma SentGrows(topic: seq<Message>, x: Message, id: Id)
    ensures HasMessage(topic + [x], id) <==> HasMessage(topic, id) || x.event == id
  {
    if HasMessage(topic, id) {
      var i :| 0 <= i < |topic| && topic[i].event == id;
      assert (topic + [x])[i].event == id;
    }
    if x.event == id {
      assert (topic + [x])[|topic|].event == id;
    }
  }

  // A message for an existing row, whoever publishes it, keeps the invariant.
  lemma MessageKeeps(m: State, x: Message, max: nat)
    requires Inv(m, max) && x.event in m.rows
    ensures Inv(m.(topic := m.topic + [x]), max)
  {
    hide RowOk, HasMessage;
    var m' := m.(topic := m.topic + [x]);
    forall id | id in m'.rows ensures PublishedWasSent(m', id) {
      assert PublishedWasSent(m, id);
      SentGrows(m.topic, x, id);
    }
    forall h | h in m'.hands ensures HandOk(m', h) {
      assert HandOk(m, h);
      SentGrows(m.topic, x, h.1);
    }
  }

  // A row changed by a statement that leaves it well formed keeps the invariant.
  lemma RowKeeps(m: State, id: Id, row: Row, max: nat)
    requires Inv(m, max) && RowOk(row, m.now, max)
    requires row.status.Published? ==> HasMessage(m.topic, id)
    ensures Inv(m.(rows := m.rows[id := row]), max)
  {
  }

  lemma HandsKeep(m: State, hands: map<(Worker, Id), Hand>, max: nat)
    requires Inv(m, max)
    requires forall h :: h in hands ==> HandOk(m.(hands := hands), h)
    ensures Inv(m.(hands := hands), max)
  {
  }

  lemma TickKeeps(m: State, elapsed: nat, max: nat)
    requires Inv(m, max)
    ensures Inv(m.(now := m.now + elapsed), max)
  {
  }

  lemma StatementsKeep(row: Row, now: Time, ttl: Time, max: nat, worker: Worker, delay: Time)
    requires RowOk(row, now, max)
    ensures Due(row, now, ttl) ==> RowOk(ClaimedRow(row, worker, now), now, max)
    ensures RowOk(PublishedRow(row, now), now, max)
    ensures RowOk(FailedRow(row, now, delay, max), now, max)
    ensures FailedRow(row, now, delay, max).status.Published? <==> row.status.Published?
    ensures Due(row, now, ttl) ==> Onward(row, ClaimedRow(row, worker, now))
    ensures Onward(row, PublishedRow(row, now)) && Onward(row, FailedRow(row, now, delay, max))
  {
    hide Due;
    assert Due(row, now, ttl) ==> Claimable(row) by { DueIsClaimable(row, now, ttl); }
  }

  lemma DueIsClaimable(row: Row, now: Time, ttl: Time)
    ensures Due(row, now, ttl) ==> Claimable(row)
  {
  }

  lemma ClaimKeeps(m: State, worker: Worker, id: Id, max: nat, ttl: Time)
    requires Inv(m, max) && id in m.rows && Due(m.rows[id], m.now, ttl)
    ensures Inv(Step(m, Claim(worker, id), max, ttl), max)
  {
  }

  lemma MarkKeeps(m: State, worker: Worker, id: Id, row: Row, max: nat)
    requires Inv(m, max) && RowOk(row, m.now, max)
    requires row.status.Published? ==> HasMessage(m.topic, id)
    ensures Inv(m.(rows := m.rows[id := row], hands := m.hands - {(worker, id)}), max)
  {
  }

  lemma SendKeeps(m: State, worker: Worker, id: Id, max: nat)
    requires Inv(m, max) && (worker, id) in m.hands
    ensures Inv(m.(hands := m.hands[(worker, id) := Sent], topic := m.topic + [Message(id, false)]), max)
  {
    hide RowOk, HasMessage;
    assert HandOk(m, (worker, id));
    MessageKeeps(m, Message(id, false), max);
    var m1 := m.(topic := m.topic + [Message(id, false)]);
    SentGrows(m.topic, Message(id, false), id);
    forall h | h in m1.hands ensures HandOk(m1, h) {
    }
    HandsKeep(m1, m1.hands[(worker, id) := Sent], max);
  }

  lemma CrashKeeps(m: State, h: (Worker, Id), max: nat)
    requires Inv(m, max)
    ensures Inv(m.(hands := m.hands - {h}), max)
  {
  }

  lemma StepKeepsInv(m: State, mv: Move, max: nat, ttl: Time)
    requires Inv(m, max) && max >= 1
    ensures Inv(Step(m, mv, max, ttl), max)
  {
    hide Inv, RowOk, Due, HasMessage, FailedRow, PublishedRow;
    if Enabled(m, mv, ttl) {
      match mv
      case Insert(id) =>
        NewRowOk(m.now, max);
        RowKeeps(m, id, NewRow(m.now), max);
      case Tick(elapsed) => TickKeeps(m, elapsed, max);
      case Claim(worker, id) => ClaimKeeps(m, worker, id, max, ttl);
      case Send(worker, id) => SendKeeps(m, worker, id, max);
      case Unsure(worker, id) =>
        HandHasRow(m, (worker, id), max);
        MessageKeeps(m, Message(id, false), max);
      case MarkPublished(worker, id) =>
        RowIsOk(m, id, max);
        HandHasRow(m, (worker, id), max);
        StatementsKeep(m.rows[id], m.now, ttl, max, worker, 0);
        MarkKeeps(m, worker, id, PublishedRow(m.rows[id], m.now), max);
      case MarkFailed(worker, id, delay) =>
        RowIsOk(m, id, max);
        StatementsKeep(m.rows[id], m.now, ttl, max, worker, delay);
        MarkKeeps(m, worker, id, FailedRow(m.rows[id], m.now, delay, max), max);
      case Crash(worker, id) => CrashKeeps(m, (worker, id), max);
    }
  }

  lemma NewRowOk(now: Time, max: nat)
    requires max >= 1
    ensures RowOk(NewRow(now), now, max)
  {
  }

  lemma HandHasRow(m: State, h: (Worker, Id), max: nat)
    requires Inv(m, max) && h in m.hands
    ensures h.1 in m.rows && (m.hands[h].Sent? ==> HasMessage(m.topic, h.1))
  {
    assert HandOk(m, h);
  }

  lemma RowIsOk(m: State, id: Id, max: nat)
    requires Inv(m, max) && id in m.rows
    ensures RowOk(m.rows[id], m.now, max)
    ensures m.rows[id].status.Published? ==> HasMessage(m.topic, id)
  {
    assert PublishedWasSent(m, id);
  }

  /** In every reachable state, with any number of stale and crashed workers: a row is `publishing`
      exactly when it has a claimant and a claim time, a claimable row has attempts left and a dead
      letter has none, every message carries the ID of an existing row, and every published row has
      such a message. */
  lemma {:induction false} RunKeepsInv(moves: seq<Move>, max: nat, ttl: Time)
    requires max >= 1
    ensures Inv(Run(moves, max, ttl), max)
  {
    hide Inv, Step;
    if moves == [] {
      EmptyInv(max);
    } else {
      RunKeepsInv(moves[..|moves| - 1], max, ttl);
      StepKeepsInv(Run(moves[..|moves| - 1], max, ttl), moves[|moves| - 1], max, ttl);
    }
  }

  lemma EmptyInv(max: nat)
    ensures Inv(START, max)
  {
  }

  // ----- finality -----

  lemma StepOnward(m: State, mv: Move, id: Id, max: nat, ttl: Time)
    requires Inv(m, max) && id in m.rows
    ensures id in Step(m, mv, max, ttl).rows && Onward(m.rows[id], Step(m, mv, max, ttl).rows[id])
    ensures m.now <= Step(m, mv, max, ttl).now
  {
  }

  lemma SameIsOnward(row: Row)
    ensures Onward(row, row)
  {
  }

  lemma OnwardOn(a: Row, b: Row, c: Row)
    requires Onward(a, b) && Onward(b, c)
    ensures Onward(a, c)
  {
  }

  /** Over any run a published row never changes again, and a dead letter stays dead until some
      stale worker's success publishes it. */
  lemma {:induction false} PublishedIsFinal(moves: seq<Move>, i: nat, id: Id, max: nat, ttl: Time)
    requires max >= 1 && i <= |moves| && id in Run(moves[..i], max, ttl).rows
    ensures id in Run(moves, max, ttl).rows
    ensures Onward(Run(moves[..i], max, ttl).rows[id], Run(moves, max, ttl).rows[id])
  {
    hide Inv, Step, Onward;
    if i == |moves| {
      assert moves[..i] == moves;
      SameIsOnward(Run(moves, max, ttl).rows[id]);
    } else {
      var init := moves[..|moves| - 1];
      assert init[..i] == moves[..i];
      PublishedIsFinal(init, i, id, max, ttl);
      RunKeepsInv(init, max, ttl);
      StepOnward(Run(init, max, ttl), moves[|moves| - 1], id, max, ttl);
      OnwardOn(Run(moves[..i], max, ttl).rows[id], Run(init, max, ttl).rows[id], Run(moves, max, ttl).rows[id]);
    }
  }

  /** A row published at some point keeps that time, with one attempt more than before. */
  lemma PublishedWhen(moves: seq<Move>, i: nat, id: Id, max: nat, ttl: Time)
    requires max >= 1 && i < |moves| && moves[i].MarkPublished? && moves[i].id == id
    requires Enabled(Run(moves[..i], max, ttl), moves[i], ttl) && !Run(moves[..i], max, ttl).rows[id].status.Published?
    ensures id in Run(moves, max, ttl).rows
    ensures var before, row := Run(moves[..i], max, ttl), Run(moves, max, ttl).rows[id];
      row.status.Published? && row.publishedAt == Some(before.now) && row.attempts == before.rows[id].attempts + 1
  {
    hide Run;
    RunTo(moves, i, max, ttl);
    PublishedIsFinal(moves, i + 1, id, max, ttl);
  }

  // A new row can be claimed at once, and has made no attempt.
  lemma InsertedIsDue(m: State, id: Id, max: nat, ttl: Time)
    requires id !in m.rows
    ensures var m' := Step(m, Insert(id), max, ttl); id in m'.rows && Due(m'.rows[id], m.now, ttl) && m'.rows[id].attempts == 0
  {
  }

  // Nothing a publisher does looks like a replay.
  lemma {:induction false} NoReplays(moves: seq<Move>, max: nat, ttl: Time)
    ensures forall i :: 0 <= i < |Run(moves, max, ttl).topic| ==> !Run(moves, max, ttl).topic[i].replay
  {
    hide PublishedRow, FailedRow, Due;
    if moves != [] {
      NoReplays(moves[..|moves| - 1], max, ttl);
    }
  }

  // ----- claims -----

  predicate Marks(mv: Move, id: Id) {
    (mv.MarkPublished? || mv.MarkFailed?) && mv.id == id
  }

  // From a claim at `since` until the row is next marked.
  predicate ClaimedSince(m: State, id: Id, since: Time) {
    id in m.rows && m.rows[id].status.Publishing? && m.rows[id].claimedAt.Some? && since <= m.rows[id].claimedAt.value
    && since <= m.now
  }

  lemma StaysClaimed(m: State, mv: Move, id: Id, since: Time, max: nat, ttl: Time)
    requires ClaimedSince(m, id, since) && !Marks(mv, id)
    ensures ClaimedSince(Step(m, mv, max, ttl), id, since)
  {
    hide Due;
  }

  lemma {:induction false} ClaimedUntilMarked(moves: seq<Move>, i: nat, id: Id, max: nat, ttl: Time)
    requires i < |moves| && moves[i].Claim? && moves[i].id == id
    requires Enabled(Run(moves[..i], max, ttl), moves[i], ttl)
    requires forall k :: i < k < |moves| ==> !Marks(moves[k], id)
    ensures ClaimedSince(Run(moves, max, ttl), id, Run(moves[..i], max, ttl).now)
  {
    hide Step, ClaimedSince, Enabled;
    var init := moves[..|moves| - 1];
    if i == |init| {
      JustClaimed(Run(init, max, ttl), moves[i], max, ttl);
    } else {
      assert init[..i] == moves[..i];
      ClaimedUntilMarked(init, i, id, max, ttl);
      StaysClaimed(Run(init, max, ttl), moves[|init|], id, Run(moves[..i], max, ttl).now, max, ttl);
    }
  }

  lemma JustClaimed(m: State, mv: Move, max: nat, ttl: Time)
    requires mv.Claim? && Enabled(m, mv, ttl)
    ensures ClaimedSince(Step(m, mv, max, ttl), mv.id, m.now)
  {
    hide Due;
  }

  /** Two claims of one row with no mark of it between them are more than the TTL apart. */
  lemma ClaimsAreApart(moves: seq<Move>, i: nat, j: nat, max: nat, ttl: Time)
    requires i < j < |moves| && moves[i].Claim? && moves[j].Claim? && moves[i].id == moves[j].id
    requires Enabled(Run(moves[..i], max, ttl), moves[i], ttl) && Enabled(Run(moves[..j], max, ttl), moves[j], ttl)
    requires forall k :: i < k < j ==> !Marks(moves[k], moves[i].id)
    ensures Run(moves[..j], max, ttl).now - Run(moves[..i], max, ttl).now > ttl
  {
    hide Run, Step;
    assert moves[..j][..i] == moves[..i];
    ClaimedUntilMarked(moves[..j], i, moves[i].id, max, ttl);
  }

  // ----- exactly when a row can be claimed again within the TTL -----

  predicate Changes(mv: Move, id: Id) {
    (mv.Claim? || mv.MarkPublished? || mv.MarkFailed?) && mv.id == id
  }

  // No claim or mark of the row takes effect after position i.
  predicate Untouched(moves: seq<Move>, i: nat, id: Id, max: nat, ttl: Time)
  {
    forall k :: i < k < |moves| ==> !(Changes(moves[k], id) && Enabled(Run(moves[..k], max, ttl), moves[k], ttl))
  }

  lemma StepUntouched(m: State, mv: Move, id: Id, max: nat, ttl: Time)
    requires id in m.rows && !(Changes(mv, id) && Enabled(m, mv, ttl))
    ensures id in Step(m, mv, max, ttl).rows && Step(m, mv, max, ttl).rows[id] == m.rows[id]
    ensures m.now <= Step(m, mv, max, ttl).now
  {
  }

  lemma {:induction false} RowUntouched(moves: seq<Move>, i: nat, id: Id, max: nat, ttl: Time)
    requires i < |moves| && id in Run(moves[..i + 1], max, ttl).rows && Untouched(moves, i, id, max, ttl)
    ensures id in Run(moves, max, ttl).rows && Run(moves, max, ttl).rows[id] == Run(moves[..i + 1], max, ttl).rows[id]
    ensures Run(moves[..i + 1], max, ttl).now <= Run(moves, max, ttl).now
  {
    hide Step, Enabled;
    if i + 1 == |moves| {
      assert moves[..i + 1] == moves;
    } else {
      var n := |moves| - 1;
      var init := moves[..n];
      assert init[..i + 1] == moves[..i + 1];
      forall k | i < k < n ensures !(Changes(init[k], id) && Enabled(Run(init[..k], max, ttl), init[k], ttl)) {
        assert init[..k] == moves[..k];
      }
      RowUntouched(init, i, id, max, ttl);
      StepUntouched(Run(init, max, ttl), moves[n], id, max, ttl);
    }
  }

  // The last claim or mark of the row is the failure mark at k; it left the row pending, and its
  // delay has run out.
  predicate FailedAndWaited(moves: seq<Move>, k: nat, id: Id, max: nat, ttl: Time)
    requires k < |moves|
  {
    var m, mv := Run(moves[..k], max, ttl), moves[k];
    && mv.MarkFailed? && mv.id == id && Enabled(m, mv, ttl) && Untouched(moves, k, id, max, ttl)
    && id in Step(m, mv, max, ttl).rows && Step(m, mv, max, ttl).rows[id].status.Pending?
    && m.now + mv.delay <= Run(moves, max, ttl).now
  }

  // The last position from i on at which a claim or mark of the row took effect.
  lemma {:induction false} LastTouch(moves: seq<Move>, i: nat, id: Id, max: nat, ttl: Time) returns (k: nat)
    requires i < |moves| && Changes(moves[i], id) && Enabled(Run(moves[..i], max, ttl), moves[i], ttl)
    ensures i <= k < |moves| && Changes(moves[k], id) && Enabled(Run(moves[..k], max, ttl), moves[k], ttl)
    ensures Untouched(moves, k, id, max, ttl)
  {
    var n := |moves| - 1;
    if i == n || (Changes(moves[n], id) && Enabled(Run(moves[..n], max, ttl), moves[n], ttl)) {
      k := n;
    } else {
      var init := moves[..n];
      assert init[..i] == moves[..i];
      k := LastTouch(init, i, id, max, ttl);
      assert init[..k] == moves[..k];
      forall j | k < j < |moves| ensures !(Changes(moves[j], id) && Enabled(Run(moves[..j], max, ttl), moves[j], ttl)) {
        if j < n { assert init[..j] == moves[..j]; }
      }
    }
  }

  // Right after a claim or mark at `at`, as long as nothing else touches the row.
  lemma DueAfterTouch(m: State, mv: Move, now: Time, id: Id, max: nat, ttl: Time)
    requires Inv(m, max) && Changes(mv, id) && Enabled(m, mv, ttl) && m.now <= now
    ensures id in Step(m, mv, max, ttl).rows
    ensures var row := Step(m, mv, max, ttl).rows[id];
      Due(row, now, ttl) <==>
        (mv.Claim? && now - m.now > ttl) || (mv.MarkFailed? && row.status.Pending? && m.now + mv.delay <= now)
  {
    assert RowOk(m.rows[id], m.now, max);
  }

  /** Exactly when a row claimed at i, and not since, can be claimed again within the TTL: when the
      last thing done to it is a failure mark that left it pending and whose delay has run out. */
  lemma ReclaimedEarlyExactly(moves: seq<Move>, i: nat, worker: Worker, max: nat, ttl: Time)
    requires max >= 1 && i < |moves| && moves[i].Claim? && Enabled(Run(moves[..i], max, ttl), moves[i], ttl)
    requires forall k :: i < k < |moves| && moves[k].Claim? && moves[k].id == moves[i].id ==>
      !Enabled(Run(moves[..k], max, ttl), moves[k], ttl)
    requires Run(moves, max, ttl).now - Run(moves[..i], max, ttl).now <= ttl
    ensures Enabled(Run(moves, max, ttl), Claim(worker, moves[i].id), ttl)
      <==> exists k :: i < k < |moves| && FailedAndWaited(moves, k, moves[i].id, max, ttl)
  {
    hide Inv, Step, Run, Due;
    var id := moves[i].id;
    var k := LastTouch(moves, i, id, max, ttl);
    var m := Run(moves[..k], max, ttl);
    RunKeepsInv(moves[..k], max, ttl);
    RunTo(moves, k, max, ttl);
    StepOnwardTime(m, moves[k], max, ttl);
    RowPresent(m, moves[k], id, max, ttl);
    RowUntouched(moves, k, id, max, ttl);
    DueAfterTouch(m, moves[k], Run(moves, max, ttl).now, id, max, ttl);
    forall j | i < j < |moves| && FailedAndWaited(moves, j, id, max, ttl) ensures j == k {
      assert Changes(moves[j], id);
    }
    assert moves[k].Claim? ==> k == i;
    assert Enabled(Run(moves, max, ttl), Claim(worker, id), ttl) <==> moves[k].MarkFailed? && FailedAndWaited(moves, k, id, max, ttl);
  }

  lemma RunTo(moves: seq<Move>, k: nat, max: nat, ttl: Time)
    requires k < |moves|
    ensures Run(moves[..k + 1], max, ttl) == Step(Run(moves[..k], max, ttl), moves[k], max, ttl)
  {
    hide Step;
    assert moves[..k + 1][..k] == moves[..k];
  }

  lemma StepOnwardTime(m: State, mv: Move, max: nat, ttl: Time)
    ensures m.now <= Step(m, mv, max, ttl).now
  {
  }

  lemma RowPresent(m: State, mv: Move, id: Id, max: nat, ttl: Time)
    requires Changes(mv, id) && Enabled(m, mv, ttl)
    ensures id in Step(m, mv, max, ttl).rows
  {
  }

  // ----- what a stale worker can do -----

  function Overlap(id: Id, ttl: nat, d: nat): seq<Move> {
    [] + [Insert(id)] + [Claim(0, id)] + [Tick(ttl + 1)] + [Claim(1, id)] + [MarkFailed(0, id, d)] + [Tick(d)]
  }

  lemma RunAppend(moves: seq<Move>, mv: Move, max: nat, ttl: Time)
    ensures Run(moves + [mv], max, ttl) == Step(Run(moves, max, ttl), mv, max, ttl)
  {
    hide Step;
    assert (moves + [mv])[..|moves|] == moves;
  }

  lemma SecondClaim(id: Id, max: nat, ttl: nat)
    ensures var m := Run([] + [Insert(id)] + [Claim(0, id)] + [Tick(ttl + 1)] + [Claim(1, id)], max, ttl);
      m.rows == map[id := Row(Publishing, 0, Some(1), Some(ttl + 1), 0, None)] && m.now == ttl + 1
      && Holds(m, 0, id, Held) && Holds(m, 1, id, Held)
  {
    hide Run;
    assert Run([], max, ttl) == START by { RunEmpty(max, ttl); }
    RunAppend([], Insert(id), max, ttl);
    RunAppend([] + [Insert(id)], Claim(0, id), max, ttl);
    RunAppend([] + [Insert(id)] + [Claim(0, id)], Tick(ttl + 1), max, ttl);
    RunAppend([] + [Insert(id)] + [Claim(0, id)] + [Tick(ttl + 1)], Claim(1, id), max, ttl);
  }

  lemma RunEmpty(max: nat, ttl: Time)
    ensures Run([], max, ttl) == START
  {
  }

  /** Worker 0's claim expires and worker 1 claims the row; then worker 0's late failure releases it,
      and after the backoff worker 2 claims it too, though worker 1's claim is still within the TTL. */
  lemma StaleMarkReleases(id: Id, max: nat, ttl: nat, d: nat)
    requires 0 < d <= ttl && max >= 2
    ensures var m := Run(Overlap(id, ttl, d), max, ttl);
      Enabled(m, Claim(2, id), ttl) && Holds(m, 1, id, Held) && m.now - (ttl + 1) == d
  {
    hide Run;
    SecondClaim(id, max, ttl);
    var four := [] + [Insert(id)] + [Claim(0, id)] + [Tick(ttl + 1)] + [Claim(1, id)];
    RunAppend(four, MarkFailed(0, id, d), max, ttl);
    RunAppend(four + [MarkFailed(0, id, d)], Tick(d), max, ttl);
  }
}
