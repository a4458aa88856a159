// One publisher: it claims a batch, publishes each record, and records each outcome.
module Publisher {
  import opened Prelude
  import opened Schema
  import opened Outbox

  // ----- backoff -----

  function Exponential(attempt: int, base: real, maxDelay: real): real {
    var a := if attempt < 1 then 1 else attempt;
    var exp := base * (Power2(a - 1) as real);
    if exp > maxDelay then maxDelay else exp
  }

  // `draw` is rand.Float64(), in [0, 1); the result is truncated to whole nanoseconds.
  function Jittered(exp: real, min: real, draw: real): Time {
    (if exp <= min then exp else min + Share(draw, exp - min)).Floor
  }

  function Share(draw: real, width: real): real {
    draw * width
  }

  function Backoff(attempt: int, base: real, maxDelay: real, draw: real): Time {
    Jittered(Exponential(attempt, base, maxDelay), base / 2.0, draw)
  }

  lemma BaseGrows(base: real, power: real)
    requires base >= 0.0 && power >= 1.0
    ensures base * power >= base
  {
  }

  lemma ExponentialBounds(attempt: int, base: real, maxDelay: real)
    requires base >= 0.0 && maxDelay >= 0.0
    ensures 0.0 <= Exponential(attempt, base, maxDelay) <= maxDelay
    ensures attempt >= 1 ==> Exponential(attempt, base, maxDelay) <= base * (Power2(attempt - 1) as real)
    ensures base <= Exponential(attempt, base, maxDelay) || Exponential(attempt, base, maxDelay) == maxDelay
  {
    var a := if attempt < 1 then 1 else attempt;
    Power2Grows(0, a - 1);
    BaseGrows(base, Power2(a - 1) as real);
  }

  lemma ShareBounds(draw: real, width: real)
    requires 0.0 <= draw < 1.0 && width > 0.0
    ensures 0.0 <= Share(draw, width) < width
  {
  }

  lemma JitterBounds(exp: real, min: real, draw: real)
    requires 0.0 <= exp && 0.0 <= min && 0.0 <= draw < 1.0
    ensures 0 <= Jittered(exp, min, draw) && Jittered(exp, min, draw) as real <= exp
    ensures min <= exp ==> min.Floor <= Jittered(exp, min, draw)
  {
    hide Share;
    if exp > min {
      ShareBounds(draw, exp - min);
      FloorBetween(min + Share(draw, exp - min), min, exp);
    } else {
      FloorBetween(exp, exp, exp);
    }
  }

  lemma FloorBetween(x: real, lo: real, hi: real)
    requires 0.0 <= lo <= x <= hi
    ensures 0 <= lo.Floor <= x.Floor && x.Floor as real <= hi
  {
  }

  // Every delay is nonnegative and at most the cap and the doubled base, and at least half the base
  // unless the cap is lower.
  lemma BackoffBounds(attempt: int, base: real, maxDelay: real, draw: real)
    requires base >= 0.0 && maxDelay >= 0.0 && 0.0 <= draw < 1.0
    ensures 0 <= Backoff(attempt, base, maxDelay, draw)
    ensures Backoff(attempt, base, maxDelay, draw) as real <= maxDelay
    ensures attempt >= 1 ==> Backoff(attempt, base, maxDelay, draw) as real <= base * (Power2(attempt - 1) as real)
    ensures base / 2.0 <= maxDelay ==> (base / 2.0).Floor <= Backoff(attempt, base, maxDelay, draw)
  {
    hide Exponential, Jittered;
    ExponentialBounds(attempt, base, maxDelay);
    JitterBounds(Exponential(attempt, base, maxDelay), base / 2.0, draw);
  }

  // Jitter is full: every delay between half the base and the ceiling has a draw that gives it.
  lemma BackoffReaches(attempt: int, base: real, maxDelay: real, delay: real) returns (draw: real)
    requires base >= 0.0 && maxDelay >= 0.0 && base / 2.0 <= delay < Exponential(attempt, base, maxDelay)
    ensures 0.0 <= draw < 1.0 && Backoff(attempt, base, maxDelay, draw) == delay.Floor
  {
    hide Exponential;
    var min, exp := base / 2.0, Exponential(attempt, base, maxDelay);
    draw := (delay - min) / (exp - min);
    Quotient(delay - min, exp - min);
  }

  lemma Quotient(x: real, y: real)
    requires 0.0 <= x < y
    ensures 0.0 <= x / y < 1.0 && Share(x / y, y) == x
  {
  }

  // The cap on the delay starts at the base, doubles with each attempt until it meets maxDelay, and stays there.
  lemma CeilingDoubles(attempt: nat, base: real, maxDelay: real)
    requires attempt >= 1 && base >= 0.0 && maxDelay >= 0.0
    ensures forall first :: first <= 1 ==> Exponential(first, base, maxDelay) == if base > maxDelay then maxDelay else base
    ensures Exponential(attempt + 1, base, maxDelay)
      == if 2.0 * Exponential(attempt, base, maxDelay) > maxDelay then maxDelay
         else 2.0 * Exponential(attempt, base, maxDelay)
  {
    Power2Grows(0, attempt - 1);
    BaseGrows(base, Power2(attempt - 1) as real);
    assert Power2(attempt) as real == 2.0 * (Power2(attempt - 1) as real);
    assert base * (Power2(attempt) as real) == 2.0 * (base * (Power2(attempt - 1) as real));
  }

  // ----- what one batch does -----

  datatype Outcome =
    | FailpointBefore              // failed before the broker was called
    | PublishFails(kept: bool)     // the broker reported an error, and kept the message or not
    | FailureLost(kept: bool, marked: bool)  // the same, and recording it failed or lost its reply
    | CrashAfter                   // stopped between the publish and the mark
    | MarkLost(marked: bool)       // published, and the mark failed or lost its reply
    | Succeeds

  predicate Sends(o: Outcome) {
    match o
    case FailpointBefore => false
    case PublishFails(kept) => kept
    case FailureLost(kept, _) => kept
    case _ => true
  }

  // The database has the outcome, whether or not the worker learned so.
  predicate Recorded(o: Outcome) {
    o.FailpointBefore? || o.PublishFails? || o.Succeeds? || ((o.FailureLost? || o.MarkLost?) && o.marked)
  }

  predicate Publishes(o: Outcome) {
    o.Succeeds? || (o.MarkLost? && o.marked)
  }

  function AfterOutcome(row: Row, o: Outcome, now: Time, delay: Time, max: nat): Row {
    match o
    case FailpointBefore => FailedRow(row, now, delay, max)
    case PublishFails(_) => FailedRow(row, now, delay, max)
    case FailureLost(_, marked) => if marked then FailedRow(row, now, delay, max) else row
    case MarkLost(marked) => if marked then PublishedRow(row, now) else row
    case CrashAfter => row
    case Succeeds => PublishedRow(row, now)
  }

  // What one attempt leaves of a row not yet published: published now, or due again after the backoff
  // of its next attempt, or dead with its attempts used up; or as it was, if nothing was recorded.
  ghost predicate Settles(cfg: Config, before: Row, after: Row, o: Outcome, now: Time, draw: real) {
    match o
    case CrashAfter => after == before
    case MarkLost(false) => after == before
    case FailureLost(_, false) => after == before
    case MarkLost(true) => after == Row(Published, before.attempts + 1, None, None, before.nextAt, Some(now))
    case Succeeds => after == Row(Published, before.attempts + 1, None, None, before.nextAt, Some(now))
    case _ =>
      var delay := Backoff(before.attempts + 1, cfg.base, cfg.maxDelay, draw);
      && after.attempts == before.attempts + 1 && after.nextAt == now + delay
      && after.claimedBy.None? && after.claimedAt.None? && after.publishedAt.None?
      && if before.attempts + 1 < cfg.max then after.status.Pending? && forall t :: Due(after, t, cfg.ttl) <==> now + delay <= t
         else after.status.DeadLetter?
  }

  lemma NextSettles(cfg: Config, row: Row, o: Outcome, now: Time, draw: real)
    requires RowOk(row, now, cfg.max) && !row.status.Published?
    ensures Settles(cfg, row, cfg.Next(row, o, now, draw), o, now, draw)
  {
    hide Backoff;
  }

  // The first `limit` due rows in index order, skipping those other transactions have locked.
  function DueIds(order: seq<Id>, rows: map<Id, Row>, now: Time, ttl: Time, locked: set<Id>, limit: nat): seq<Id>
    requires forall id :: id in order ==> id in rows
  {
    if order == [] then []
    else
      var init, id := order[..|order| - 1], order[|order| - 1];
      var before := DueIds(init, rows, now, ttl, locked, limit);
      if |before| < limit && Due(rows[id], now, ttl) && id !in locked then before + [id] else before
  }

  function Claims(rows: map<Id, Row>, batch: set<Id>, worker: Worker, now: Time): map<Id, Row> {
    map id | id in rows :: if id in batch then ClaimedRow(rows[id], worker, now) else rows[id]
  }

  datatype Config = Config(worker: Worker, batchSize: nat, ttl: Time, max: nat, base: real, maxDelay: real) {
    // What the configuration loader insists on.
    predicate Ok() {
      max >= 1
    }

    function Next(row: Row, o: Outcome, now: Time, draw: real): Row {
      AfterOutcome(row, o, now, Backoff(row.attempts + 1, base, maxDelay, draw), max)
    }
  }

  predicate Distinct(ids: seq<Id>) {
    forall i, j :: 0 <= i < j < |ids| ==> ids[i] != ids[j]
  }

  // At most `limit` rows, all due and unlocked, the oldest first; and all of those, when the limit is
  // not met.
  lemma {:induction false} DueIdsAreDue(order: seq<Id>, rows: map<Id, Row>, now: Time, ttl: Time, locked: set<Id>, limit: nat)
    requires forall id :: id in order ==> id in rows
    requires Distinct(order)
    ensures var due := DueIds(order, rows, now, ttl, locked, limit);
      && |due| <= limit && Distinct(due)
      && (forall id :: id in due ==> id in order && Due(rows[id], now, ttl) && id !in locked)
      && (|due| < limit ==> forall id :: id in order && Due(rows[id], now, ttl) && id !in locked ==> id in due)
      && (forall i, j :: 0 <= i < j < |order| && order[j] in due && Due(rows[order[i]], now, ttl) && order[i] !in locked
            ==> order[i] in due)
  {
    hide Due;
    if order != [] {
      var init, id := order[..|order| - 1], order[|order| - 1];
      DueIdsAreDue(init, rows, now, ttl, locked, limit);
      assert order == init + [id];
      assert id !in init;
      assert forall i :: 0 <= i < |init| ==> order[i] == init[i] && order[i] in init;
    }
  }

  lemma SomeIsDue(order: seq<Id>, rows: map<Id, Row>, now: Time, ttl: Time, limit: nat, id: Id)
    requires (forall x :: x in order ==> x in rows) && Distinct(order) && limit >= 1
    requires id in order && Due(rows[id], now, ttl)
    ensures DueIds(order, rows, now, ttl, {}, limit) != []
  {
    hide Due, DueIds;
    DueIdsAreDue(order, rows, now, ttl, {}, limit);
  }

  // ----- termination -----

  ghost function Left(rows: map<Id, Row>, max: nat): map<nat, int> {
    map id | id in rows :: if Claimable(rows[id]) then max - rows[id].attempts else 0
  }

  // Attempts left over all rows still to publish.
  ghost function Work(rows: map<Id, Row>, max: nat): int {
    MapSum(Left(rows, max))
  }

  /** Every recorded outcome of a claimable row takes at least one attempt off the work left: a
      failure exactly one, a success all that row had. */
  lemma OutcomeWorks(rows: map<Id, Row>, id: Id, o: Outcome, now: Time, delay: Time, max: nat)
    requires id in rows && RowOk(rows[id], now, max) && Claimable(rows[id]) && Recorded(o)
    ensures Work(rows[id := AfterOutcome(rows[id], o, now, delay, max)], max)
      == Work(rows, max) - if Publishes(o) then max - rows[id].attempts else 1
    ensures Work(rows[id := AfterOutcome(rows[id], o, now, delay, max)], max) < Work(rows, max)
  {
    var row := AfterOutcome(rows[id], o, now, delay, max);
    var left := if Claimable(row) then max - row.attempts else 0;
    MapSumUpdate(Left(rows, max), id, left);
    assert Left(rows[id := row], max) == Left(rows, max)[id := left];
  }

  lemma WorkNonneg(rows: map<Id, Row>, now: Time, max: nat)
    requires forall id :: id in rows ==> RowOk(rows[id], now, max)
    ensures Work(rows, max) >= 0
    ensures Work(rows, max) == 0 ==> forall id :: id in rows ==> !Claimable(rows[id])
  {
    MapSumNonneg(Left(rows, max));
    forall id | id in rows && Work(rows, max) == 0 ensures !Claimable(rows[id]) {
      assert Left(rows, max)[id] <= 0;
    }
  }

  lemma {:induction false} MapSumBelow(m: map<nat, int>, n: map<nat, int>)
    requires m.Keys == n.Keys && forall k :: k in m ==> m[k] <= n[k]
    ensures MapSum(m) <= MapSum(n)
    ensures (exists k :: k in m && m[k] < n[k]) ==> MapSum(m) < MapSum(n)
    decreases |m|
  {
    if m != map[] {
      var k :| k in m && ((exists j :: j in m && m[j] < n[j]) ==> m[k] < n[k]);
      MapSumRemove(m, k);
      MapSumRemove(n, k);
      MapSumBelow(m - {k}, n - {k});
    } else {
      assert n == map[];
    }
  }

  // ----- what the table has recorded -----

  // A failure or a success that took effect on a row.
  datatype Mark = Mark(id: Id, published: bool)

  function Count(marks: seq<Mark>, id: Id, published: bool): nat {
    if marks == [] then 0
    else Count(marks[..|marks| - 1], id, published) + if marks[|marks| - 1] == Mark(id, published) then 1 else 0
  }

  // What an outcome adds: nothing on a row already published.
  function Effect(id: Id, row: Row, o: Outcome): seq<Mark> {
    if row.status.Published? || !Recorded(o) then [] else [Mark(id, Publishes(o))]
  }

  lemma CountNext(marks: seq<Mark>, m: Mark, id: Id, published: bool)
    ensures Count(marks + [m], id, published) == Count(marks, id, published) + if m == Mark(id, published) then 1 else 0
  {
    assert (marks + [m])[..|marks|] == marks;
  }

  // Of each record done, its effect has been recorded, once.
  ghost predicate Logged(rows: map<Id, Row>, before: seq<Mark>, after: seq<Mark>, done: set<Id>, outcome: Id -> Outcome) {
    forall id, published :: Count(after, id, published) == Count(before, id, published)
      + if id in done && id in rows && Effect(id, rows[id], outcome(id)) == [Mark(id, published)] then 1 else 0
  }

  lemma NothingLogged(rows: map<Id, Row>, marks: seq<Mark>, outcome: Id -> Outcome)
    ensures Logged(rows, marks, marks, {}, outcome)
  {
  }

  lemma LogOne(rows: map<Id, Row>, before: seq<Mark>, after: seq<Mark>, done: set<Id>, outcome: Id -> Outcome, id: Id)
    requires Logged(rows, before, after, done, outcome) && id in rows && id !in done
    ensures Logged(rows, before, after + Effect(id, rows[id], outcome(id)), done + {id}, outcome)
  {
    hide Recorded, Publishes;
    var effect := Effect(id, rows[id], outcome(id));
    assert effect == [] ==> after + effect == after;
    forall i, published
      ensures Count(after + effect, i, published)
        == Count(after, i, published) + if effect == [Mark(i, published)] then 1 else 0
    {
      if effect != [] { CountNext(after, effect[0], i, published); }
    }
  }

  // ----- one batch -----

  ghost function Oks(done: set<Id>, outcome: Id -> Outcome): set<Id> {
    set id | id in done && outcome(id).Succeeds?
  }

  lemma NoOks(outcome: Id -> Outcome)
    ensures Oks({}, outcome) == {}
  {
  }

  lemma OneOk(done: set<Id>, outcome: Id -> Outcome, id: Id)
    requires id !in done
    ensures |Oks(done + {id}, outcome)| == |Oks(done, outcome)| + if outcome(id).Succeeds? then 1 else 0
  {
    if outcome(id).Succeeds? {
      assert Oks(done + {id}, outcome) == Oks(done, outcome) + {id};
    } else {
      assert Oks(done + {id}, outcome) == Oks(done, outcome);
    }
  }

  // The new messages are first publications of exactly those records done whose outcome sends one.
  ghost predicate Announces(before: seq<Message>, after: seq<Message>, done: set<Id>, outcome: Id -> Outcome) {
    && before <= after
    && (forall id :: id in done && Sends(outcome(id)) ==> Message(id, false) in after[|before|..])
    && (forall x :: x in after[|before|..] ==> x.event in done && Sends(outcome(x.event)) && !x.replay)
  }

  lemma Silent(topic: seq<Message>, outcome: Id -> Outcome)
    ensures Announces(topic, topic, {}, outcome)
  {
  }

  lemma AnnounceOne(before: seq<Message>, after: seq<Message>, done: set<Id>, outcome: Id -> Outcome, id: Id)
    requires Announces(before, after, done, outcome)
    ensures Announces(before, if Sends(outcome(id)) then after + [Message(id, false)] else after, done + {id}, outcome)
  {
    var next := after + [Message(id, false)];
    assert next[|before|..] == after[|before|..] + [Message(id, false)];
  }

  // The rows of the records done have their outcome; no other row changed.
  ghost predicate Marked(cfg: Config, now: Time, before: map<Id, Row>, after: map<Id, Row>, done: set<Id>,
                         outcome: Id -> Outcome, draw: Id -> real) {
    && after.Keys == before.Keys
    && forall id :: id in before ==>
         after[id] == if id in done then cfg.Next(before[id], outcome(id), now, draw(id)) else before[id]
  }

  lemma Unmarked(cfg: Config, now: Time, rows: map<Id, Row>, outcome: Id -> Outcome, draw: Id -> real)
    ensures Marked(cfg, now, rows, rows, {}, outcome, draw)
  {
  }

  lemma MarkOne(cfg: Config, now: Time, before: map<Id, Row>, after: map<Id, Row>, done: set<Id>,
                outcome: Id -> Outcome, draw: Id -> real, id: Id)
    requires Marked(cfg, now, before, after, done, outcome, draw) && id in before && id !in done
    ensures Marked(cfg, now, before, after[id := cfg.Next(after[id], outcome(id), now, draw(id))], done + {id},
                   outcome, draw)
  {
  }

  // The parts of the database and the broker a batch changes.
  datatype Snapshot = Snapshot(rows: map<Id, Row>, topic: seq<Message>, marks: seq<Mark>)

  ghost predicate BatchDone(cfg: Config, now: Time, before: Snapshot, after: Snapshot, done: set<Id>,
                            outcome: Id -> Outcome, draw: Id -> real) {
    && Marked(cfg, now, before.rows, after.rows, done, outcome, draw)
    && Announces(before.topic, after.topic, done, outcome)
    && Logged(before.rows, before.marks, after.marks, done, outcome)
  }

  lemma BatchStarts(cfg: Config, now: Time, m: Snapshot, outcome: Id -> Outcome, draw: Id -> real)
    ensures BatchDone(cfg, now, m, m, {}, outcome, draw)
  {
    Unmarked(cfg, now, m.rows, outcome, draw);
    Silent(m.topic, outcome);
    NothingLogged(m.rows, m.marks, outcome);
  }

  // What publishing one record makes of the three.
  function AfterOne(cfg: Config, now: Time, m: Snapshot, id: Id, o: Outcome, draw: real): Snapshot
    requires id in m.rows
  {
    Snapshot(m.rows[id := cfg.Next(m.rows[id], o, now, draw)],
             if Sends(o) then m.topic + [Message(id, false)] else m.topic,
             m.marks + Effect(id, m.rows[id], o))
  }

  lemma BatchGoesOn(cfg: Config, now: Time, before: Snapshot, after: Snapshot, done: set<Id>, outcome: Id -> Outcome,
                    draw: Id -> real, id: Id)
    requires BatchDone(cfg, now, before, after, done, outcome, draw) && id in before.rows && id !in done
    ensures id in after.rows
    ensures BatchDone(cfg, now, before, AfterOne(cfg, now, after, id, outcome(id), draw(id)), done + {id}, outcome, draw)
  {
    hide Announces, Logged, Config.Next, Effect, Sends;
    AnnounceOne(before.topic, after.topic, done, outcome, id);
    MarkOne(cfg, now, before.rows, after.rows, done, outcome, draw, id);
    LogOne(before.rows, before.marks, after.marks, done, outcome, id);
  }

  // ----- one row under one worker -----

  // Where a row stands after some recorded failures and successes of a single worker.
  predicate Progress(start: Row, row: Row, fails: int, oks: int, max: nat) {
    && fails >= 0 && oks >= 0 && row.attempts == start.attempts + fails + oks
    && oks <= 1 && (row.status.Published? <==> oks == 1)
    && (row.status.DeadLetter? ==> row.attempts == max)
  }

  lemma OutcomeProgresses(start: Row, row: Row, fails: int, oks: int, o: Outcome, worker: Worker, now: Time, ttl: Time,
                          delay: Time, max: nat)
    requires Progress(start, row, fails, oks, max) && RowOk(row, now, max) && Due(row, now, ttl) && Recorded(o)
    ensures var row' := AfterOutcome(ClaimedRow(row, worker, now), o, now, delay, max);
      && RowOk(row', now, max) && row'.attempts == row.attempts + 1
      && Progress(start, row', if Publishes(o) then fails else fails + 1, if Publishes(o) then oks + 1 else oks, max)
  {
    assert Claimable(row);
  }

  lemma LaterIsOk(row: Row, now: Time, later: Time, max: nat)
    requires RowOk(row, now, max) && now <= later
    ensures RowOk(row, later, max)
  {
  }

  // The clock reading from which a claimable row is due.
  function DueFrom(row: Row, now: Time, ttl: Time): Time {
    var t := if row.claimedAt.Some? && row.claimedAt.value + ttl + 1 > row.nextAt then row.claimedAt.value + ttl + 1
             else row.nextAt;
    if t > now then t else now
  }

  lemma DueByThen(row: Row, now: Time, ttl: Time)
    requires Claimable(row)
    ensures Due(row, DueFrom(row, now, ttl), ttl) && now <= DueFrom(row, now, ttl)
  {
  }

  // Every row stands as the marks since `base` say.
  ghost predicate Standing(start: map<Id, Row>, rows: map<Id, Row>, base: seq<Mark>, marks: seq<Mark>, max: nat) {
    && rows.Keys == start.Keys
    && forall id :: id in rows ==>
         Stands(start[id], rows[id], Since(base, marks, id, false), Since(base, marks, id, true), max)
  }

  function Since(base: seq<Mark>, marks: seq<Mark>, id: Id, published: bool): int {
    Count(marks, id, published) - Count(base, id, published)
  }

  predicate Stands(start: Row, row: Row, fails: int, oks: int, max: nat) {
    if Claimable(start) then Progress(start, row, fails, oks, max) else row == start && fails == 0 && oks == 0
  }

  ghost predicate AllRecorded(done: set<Id>, outcome: Id -> Outcome) {
    forall id :: id in done ==> Recorded(outcome(id))
  }

  ghost predicate AllDue(rows: map<Id, Row>, done: set<Id>, now: Time, cfg: Config) {
    forall id :: id in done ==> id in rows && RowOk(rows[id], now, cfg.max) && Due(rows[id], now, cfg.ttl)
  }

  ghost function Waiting(rows: map<Id, Row>): set<Id> {
    set id | id in rows && Claimable(rows[id])
  }

  lemma NoneWaiting(rows: map<Id, Row>)
    requires |Waiting(rows)| == 0
    ensures forall id :: id in rows ==> !Claimable(rows[id])
  {
    assert forall id :: id in rows && Claimable(rows[id]) ==> id in Waiting(rows);
  }

  lemma NothingYet(rows: map<Id, Row>, marks: seq<Mark>, max: nat)
    ensures Standing(rows, rows, marks, marks, max)
  {
  }

  lemma {:induction false} ElementsSize(ids: seq<Id>)
    ensures |Elements(ids)| <= |ids|
    ensures ids != [] ==> ids[0] in Elements(ids)
  {
    if ids != [] {
      var init, last := ids[..|ids| - 1], ids[|ids| - 1];
      ElementsSize(init);
      assert Elements(ids) == Elements(init) + {last};
    }
  }

  lemma SubsetSize(d: set<Id>, batch: set<Id>)
    requires d <= batch && |d| >= |batch|
    ensures d == batch
  {
    assert |batch - d| == |batch| - |d|;
  }

  lemma RowStands(cfg: Config, now: Time, start: Row, row: Row, fails: int, oks: int, o: Outcome, draw: real)
    requires Stands(start, row, fails, oks, cfg.max) && RowOk(row, now, cfg.max) && Due(row, now, cfg.ttl) && Recorded(o)
    ensures Stands(start, cfg.Next(ClaimedRow(row, cfg.worker, now), o, now, draw),
                   if Publishes(o) then fails else fails + 1, if Publishes(o) then oks + 1 else oks, cfg.max)
  {
    hide Progress, AfterOutcome, Backoff, RowOk;
    OutcomeProgresses(start, row, fails, oks, o, cfg.worker, now, cfg.ttl,
                      Backoff(ClaimedRow(row, cfg.worker, now).attempts + 1, cfg.base, cfg.maxDelay, draw), cfg.max);
  }

  lemma RoundStands(cfg: Config, now: Time, start: map<Id, Row>, before: Snapshot, after: Snapshot, done: set<Id>,
                    outcome: Id -> Outcome, draw: Id -> real, base: seq<Mark>)
    requires Standing(start, before.rows, base, before.marks, cfg.max)
    requires AllRecorded(done, outcome) && AllDue(before.rows, done, now, cfg)
    requires Marked(cfg, now, Claims(before.rows, done, cfg.worker, now), after.rows, done, outcome, draw)
    requires Logged(Claims(before.rows, done, cfg.worker, now), before.marks, after.marks, done, outcome)
    ensures Standing(start, after.rows, base, after.marks, cfg.max)
  {
    hide RowOk, Due, Stands, Recorded, Publishes, Config.Next, Count;
    forall id | id in after.rows
      ensures Stands(start[id], after.rows[id], Since(base, after.marks, id, false), Since(base, after.marks, id, true), cfg.max)
    {
      assert Stands(start[id], before.rows[id], Since(base, before.marks, id, false), Since(base, before.marks, id, true), cfg.max);
      if id in done {
        RowStands(cfg, now, start[id], before.rows[id], Since(base, before.marks, id, false),
                  Since(base, before.marks, id, true), outcome(id), draw(id));
      }
    }
  }

  lemma LeftFalls(cfg: Config, now: Time, row: Row, o: Outcome, draw: real)
    requires RowOk(row, now, cfg.max) && Due(row, now, cfg.ttl) && Recorded(o)
    ensures Claimable(row)
    ensures var row' := cfg.Next(ClaimedRow(row, cfg.worker, now), o, now, draw);
      (if Claimable(row') then cfg.max - row'.attempts else 0) < cfg.max - row.attempts
  {
    hide Backoff;
  }

  lemma RoundWorks(cfg: Config, now: Time, before: map<Id, Row>, after: map<Id, Row>, done: set<Id>,
                   outcome: Id -> Outcome, draw: Id -> real)
    requires AllRecorded(done, outcome) && AllDue(before, done, now, cfg) && done != {}
    requires Marked(cfg, now, Claims(before, done, cfg.worker, now), after, done, outcome, draw)
    ensures Work(after, cfg.max) < Work(before, cfg.max)
  {
    hide RowOk, Due, Recorded, Config.Next, ClaimedRow, Claimable;
    var l, r := Left(after, cfg.max), Left(before, cfg.max);
    forall id | id in l ensures l[id] <= r[id] && (id in done ==> l[id] < r[id]) {
      if id in done {
        LeftFalls(cfg, now, before[id], outcome(id), draw(id));
      }
    }
    var id :| id in done;
    assert l[id] < r[id];
    MapSumBelow(l, r);
  }

  lemma IsPublished(row: Row, now: Time)
    ensures PublishedRow(row, now).status.Published?
  {
  }

  // ----- the code -----

  class OutboxPublisher {
    const cfg: Config
    var rows: map<Id, Row>
    var order: seq<Id>  // the index on (created_at, id)
    var now: Time
    var topic: seq<Message>
    ghost var marks: seq<Mark>  // history: every mark that took effect, in order
    ghost var cycles: nat       // history: how often RunOnce has run

    ghost function Now(): Snapshot
      reads this
    {
      Snapshot(rows, topic, marks)
    }

    ghost predicate Valid()
      reads this`rows, this`order, this`now
    {
      && cfg.Ok()
      && (forall id :: id in order <==> id in rows) && Distinct(order)
      && forall id :: id in rows ==> RowOk(rows[id], now, cfg.max)
    }

    constructor (cfg: Config)
      requires cfg.Ok()
      ensures Valid() && this.cfg == cfg && rows == map[] && order == [] && topic == [] && marks == [] && cycles == 0
    {
      this.cfg := cfg;
      rows, order, now, topic, marks, cycles := map[], [], 0, [], [], 0;
    }

    method Backlog() returns (n: nat)
      requires Valid()
      ensures n == |Waiting(rows)|
    {
      n := 0;
      ghost var seen: set<Id> := {};
      for i := 0 to |order|
        invariant seen == set id | id in order[..i] && Claimable(rows[id])
        invariant n == |seen|
      {
        assert order[..i + 1] == order[..i] + [order[i]];
        assert order[i] !in order[..i];
        if Claimable(rows[order[i]]) {
          seen := seen + {order[i]};
          n := n + 1;
        }
      }
      assert order[..|order|] == order;
      assert seen == Waiting(rows);
    }

    method Claim(locked: set<Id>) returns (batch: set<Id>)
      requires Valid()
      modifies this`rows
      ensures Valid()
      ensures batch == Elements(DueIds(order, old(rows), now, cfg.ttl, locked, cfg.batchSize))
      ensures rows == Claims(old(rows), batch, cfg.worker, now)
    {
      var picked: seq<Id> := [];
      for i := 0 to |order|
        invariant picked == DueIds(order[..i], rows, now, cfg.ttl, locked, cfg.batchSize)
      {
        assert order[..i + 1][..i] == order[..i];
        if |picked| < cfg.batchSize && Due(rows[order[i]], now, cfg.ttl) && order[i] !in locked {
          picked := picked + [order[i]];
        }
      }
      assert order[..|order|] == order;
      batch := Elements(picked);
      DueIdsAreDue(order, rows, now, cfg.ttl, locked, cfg.batchSize);
      rows := Claims(rows, batch, cfg.worker, now);
      assert forall id :: id in rows ==> RowOk(rows[id], now, cfg.max);
    }

    method MarkPublished(id: Id)
      requires Valid()
      modifies this`rows, this`marks
      ensures Valid()
      ensures rows == if id in old(rows) then old(rows)[id := PublishedRow(old(rows)[id], now)] else old(rows)
      ensures marks == if id in old(rows) && !old(rows)[id].status.Published? then old(marks) + [Mark(id, true)] else old(marks)
    {
      if id in rows && !rows[id].status.Published? {
        var row := rows[id];
        rows := rows[id := row.(status := Published, attempts := row.attempts + 1, publishedAt := Some(now),
                                claimedBy := None, claimedAt := None)];
        marks := marks + [Mark(id, true)];
      }
    }

    // None when the statement fails: no such row, or the CHECK constraint refuses the new one.
    method MarkFailed(id: Id, delay: Time) returns (r: Option<(nat, bool)>)
      requires Valid()
      modifies this`rows, this`marks
      ensures Valid()
      ensures rows == if id in old(rows) then old(rows)[id := FailedRow(old(rows)[id], now, delay, cfg.max)] else old(rows)
      ensures r.None? <==> id !in old(rows) || old(rows)[id].status.Published?
      ensures r.Some? ==> r.value == (rows[id].attempts, rows[id].status.DeadLetter?)
      ensures marks == if r.Some? then old(marks) + [Mark(id, false)] else old(marks)
    {
      if id !in rows || !Allowed(FailureUpdate(rows[id], now, delay, cfg.max)) {
        return None;
      }
      rows := rows[id := FailureUpdate(rows[id], now, delay, cfg.max)];
      marks := marks + [Mark(id, false)];
      return Some((rows[id].attempts, rows[id].status.DeadLetter?));
    }

    method Fail(id: Id, draw: real, marked: bool)
      requires Valid() && id in rows
      modifies this`rows, this`marks
      ensures Valid()
      ensures rows == if !marked then old(rows)
        else old(rows)[id := FailedRow(old(rows)[id], now, Backoff(old(rows)[id].attempts + 1, cfg.base, cfg.maxDelay, draw), cfg.max)]
      ensures marks == if marked && !old(rows)[id].status.Published? then old(marks) + [Mark(id, false)] else old(marks)
    {
      var delay := Backoff(rows[id].attempts + 1, cfg.base, cfg.maxDelay, draw);
      if marked {
        var _ := MarkFailed(id, delay);
      }
    }

    // True only when the mark was acknowledged; the row may be published without that.
    method PublishOne(id: Id, o: Outcome, draw: real) returns (published: bool)
      requires Valid() && id in rows
      modifies this`rows, this`topic, this`marks
      ensures Valid() && published == o.Succeeds?
      ensures published ==> rows[id].status.Published?
      ensures !old(rows)[id].status.Published? ==> Settles(cfg, old(rows)[id], rows[id], o, now, draw)
      ensures topic == if o.FailpointBefore? || ((o.PublishFails? || o.FailureLost?) && !o.kept) then old(topic)
        else old(topic) + [Message(id, false)]
      ensures Now() == AfterOne(cfg, now, old(Now()), id, o, draw)
    {
      hide OutboxPublisher.Valid, RowOk, FailedRow, PublishedRow, Backoff, Settles;
      IsPublished(rows[id], now);
      if !rows[id].status.Published? { ThisSettles(id, o, draw); }
      if o.FailpointBefore? {
        Fail(id, draw, true);
        return false;
      }
      if Sends(o) {
        topic := topic + [Message(id, false)];
      }
      if o.PublishFails? || o.FailureLost? {
        Fail(id, draw, if o.FailureLost? then o.marked else true);
        return false;
      }
      if o.CrashAfter? {
        return false;
      }
      if o.MarkLost? {
        if o.marked {
          MarkPublished(id);
        }
        return false;
      }
      MarkPublished(id);
      return true;
    }

    lemma ThisSettles(id: Id, o: Outcome, draw: real)
      requires Valid() && id in rows && !rows[id].status.Published?
      ensures Settles(cfg, rows[id], cfg.Next(rows[id], o, now, draw), o, now, draw)
    {
      hide RowOk;
      NextSettles(cfg, rows[id], o, now, draw);
    }

    /** Publishes a claimed batch in whatever order its rows come back. The context ends after `stop`
        records; what is left of the batch stays claimed. */
    method PublishBatch(batch: set<Id>, outcome: Id -> Outcome, draw: Id -> real, stop: nat)
      returns (published: nat, done: set<Id>)
      requires Valid() && batch <= rows.Keys
      modifies this`rows, this`topic, this`marks
      ensures Valid()
      ensures done <= batch && (done == batch || |done| == stop)
      ensures published == |Oks(done, outcome)|
      ensures BatchDone(cfg, now, old(Now()), Now(), done, outcome, draw)
    {
      hide OutboxPublisher.Valid, BatchDone, Oks, AfterOne;
      published, done := 0, {};
      NoOks(outcome);
      BatchStarts(cfg, now, Now(), outcome, draw);
      while done != batch && |done| < stop
        invariant Valid() && done <= batch && |done| <= stop
        invariant published == |Oks(done, outcome)|
        invariant BatchDone(cfg, now, old(Now()), Now(), done, outcome, draw)
        decreases |batch - done|
      {
        var id :| id in batch - done;
        BatchGoesOn(cfg, now, old(Now()), Now(), done, outcome, draw, id);
        OneOk(done, outcome, id);
        var ok := PublishOne(id, outcome(id), draw(id));
        done := done + {id};
        if ok {
          published := published + 1;
        }
      }
    }

    method RunOnce(locked: set<Id>, outcome: Id -> Outcome, draw: Id -> real, stop: nat)
      returns (published: nat, batch: set<Id>, done: set<Id>)
      requires Valid()
      modifies this`rows, this`topic, this`marks, this`cycles
      ensures cycles == old(cycles) + 1
      ensures Valid()
      ensures batch == Elements(DueIds(order, old(rows), now, cfg.ttl, locked, cfg.batchSize))
      ensures done <= batch && (done == batch || |done| == stop)
      ensures published == |Oks(done, outcome)|
      ensures BatchDone(cfg, now, old(Now()).(rows := Claims(old(rows), batch, cfg.worker, now)), Now(), done, outcome, draw)
    {
      hide RowOk, Due, BatchDone, Oks;
      DueIdsAreDue(order, rows, now, cfg.ttl, locked, cfg.batchSize);
      cycles := cycles + 1;
      batch := Claim(locked);
      published, done := PublishBatch(batch, outcome, draw, stop);
    }

    // One undisturbed round takes at least one due row, and only due ones.
    method Round(outcome: Id -> Outcome, draw: Id -> real, ghost first: Id) returns (done: set<Id>)
      requires Valid() && cfg.batchSize >= 1 && first in rows && Due(rows[first], now, cfg.ttl)
      modifies this`rows, this`topic, this`marks, this`cycles
      ensures cycles == old(cycles) + 1
      ensures Valid() && done != {} && AllDue(old(rows), done, now, cfg)
      ensures BatchDone(cfg, now, old(Now()).(rows := Claims(old(rows), done, cfg.worker, now)), Now(), done, outcome, draw)
    {
      hide RowOk, Due, BatchDone, Oks, Claims, DueIds;
      DueIdsAreDue(order, rows, now, cfg.ttl, {}, cfg.batchSize);
      ghost var due := DueIds(order, rows, now, cfg.ttl, {}, cfg.batchSize);
      ElementsSize(due);
      SomeIsDue(order, rows, now, cfg.ttl, cfg.batchSize, first);
      var published, batch, d := RunOnce({}, outcome, draw, cfg.batchSize);
      SubsetSize(d, batch);
      done := d;
    }

    method WaitFor(first: Id)
      requires Valid() && first in rows && Claimable(rows[first])
      modifies this`now
      ensures Valid() && Due(rows[first], now, cfg.ttl)
    {
      DueByThen(rows[first], now, cfg.ttl);
      var later := DueFrom(rows[first], now, cfg.ttl);
      forall id | id in rows ensures RowOk(rows[id], later, cfg.max) {
        LaterIsOk(rows[id], now, later, cfg.max);
      }
      now := later;
    }

    method Poll(outcome: Id -> Outcome, draw: Id -> real, ghost start: map<Id, Row>, ghost base: seq<Mark>)
      requires Valid() && cfg.batchSize >= 1 && |Waiting(rows)| > 0 && Standing(start, rows, base, marks, cfg.max)
      requires forall id :: Recorded(outcome(id))
      modifies this`rows, this`topic, this`now, this`marks, this`cycles
      ensures cycles == old(cycles) + 1
      ensures Valid() && Standing(start, rows, base, marks, cfg.max) && Work(rows, cfg.max) < Work(old(rows), cfg.max)
    {
      hide OutboxPublisher.Valid, RowOk, Due, Marked, Logged, Announces, Claims, Recorded, AllDue, Work, Waiting, Standing;
      var first := SomeWaiting();
      WaitFor(first);
      ghost var before := Now();
      var done := Round(outcome, draw, first);
      RoundStands(cfg, now, start, before, Now(), done, outcome, draw, base);
      RoundWorks(cfg, now, before.rows, rows, done, outcome, draw);
    }

    /** Run, with one worker and every outcome recorded, polling until something is due: the backlog
        empties, and each row that was waiting ends published, or dead after exactly `max` failures,
        counting the failures and successes recorded for it since the start. */
    method Drain(outcomes: nat -> (Id -> Outcome), draws: nat -> (Id -> real)) returns (rounds: nat)
      requires Valid() && cfg.batchSize >= 1 && forall n, id :: Recorded(outcomes(n)(id))
      modifies this`rows, this`topic, this`now, this`marks, this`cycles
      ensures Valid() && (forall id :: id in rows ==> !Claimable(rows[id]))
      ensures Standing(old(rows), rows, old(marks), marks, cfg.max)
      ensures rounds == cycles - old(cycles) <= Work(old(rows), cfg.max)
    {
      hide OutboxPublisher.Valid, Standing, Recorded, Work, Waiting, Claimable;
      rounds := 0;
      NothingYet(rows, marks, cfg.max);
      var n := Backlog();
      WorkLeft();
      while n > 0
        invariant Valid() && n == |Waiting(rows)|
        invariant Standing(old(rows), rows, old(marks), marks, cfg.max)
        invariant rounds == cycles - old(cycles)
        invariant rounds + Work(rows, cfg.max) <= Work(old(rows), cfg.max) && Work(rows, cfg.max) >= 0
        decreases Work(rows, cfg.max)
      {
        Poll(outcomes(rounds), draws(rounds), old(rows), old(marks));
        rounds := rounds + 1;
        n := Backlog();
        WorkLeft();
      }
      NoneWaiting(rows);
    }

    lemma WorkLeft()
      requires Valid()
      ensures Work(rows, cfg.max) >= 0
    {
      WorkNonneg(rows, now, cfg.max);
    }

    method SomeWaiting() returns (first: Id)
      requires Valid() && |Waiting(rows)| > 0
      ensures first in rows && Claimable(rows[first])
    {
      assert exists id :: id in Waiting(rows);
      first :| first in rows && Claimable(rows[first]);
    }
  }

  // What a drained row's counts mean.
  lemma DrainedRow(start: Row, row: Row, fails: int, oks: int, max: nat)
    requires Stands(start, row, fails, oks, max) && !Claimable(row) && Claimable(start) && start.attempts < max
    ensures row.status.Published? <==> oks == 1
    ensures row.status.DeadLetter? <==> oks == 0 && fails == max - start.attempts
    ensures row.status.DeadLetter? && start.attempts == 0 ==> fails == max
  {
  }
}
