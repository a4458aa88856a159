// Replay: republish selected outbox rows under their original event IDs.
module Replay {
  import opened Prelude
  import opened Schema

  type Time = int

  datatype Meta = Meta(replayId: Id, at: Time, requestedBy: string, seqNo: nat)

  // A stored payload: an event envelope, or something that does not decode as one.
  datatype Payload = Envelope(eventId: Id, txnId: Id, content: string, replay: Option<Meta>) | Undecodable

  datatype Field = Text(text: string) | Uuid(id: Id)

  datatype OutboxRecord = OutboxRecord(id: Id, topic: string, eventType: string, aggregate: Id, partition: string,
                                       payload: Payload, headers: map<string, Field>, createdAt: Time)

  datatype KafkaMessage = KafkaMessage(topic: string, key: string, value: Payload, headers: map<string, Field>)

  // An absent transaction ID or bound is None.
  datatype ReplayRequest = ReplayRequest(txn: Option<Id>, from: Option<Time>, to: Option<Time>, limit: int,
                                         requestedBy: string, dryRun: bool)

  predicate Valid(req: ReplayRequest) {
    && (req.txn.Some? || req.from.Some? || req.to.Some?)
    && (req.from.Some? && req.to.Some? ==> req.from.value <= req.to.value)
    && 0 <= req.limit <= 10000
  }

  predicate Matches(req: ReplayRequest, r: OutboxRecord) {
    && (req.txn.Some? ==> r.aggregate == req.txn.value)
    && (req.from.Some? ==> r.createdAt >= req.from.value)
    && (req.to.Some? ==> r.createdAt <= req.to.value)
  }

  // The listing query over the table in (created_at, id) order.
  function Listed(table: seq<OutboxRecord>, req: ReplayRequest, limit: nat): seq<OutboxRecord> {
    if table == [] then []
    else
      var before := Listed(table[..|table| - 1], req, limit);
      var r := table[|table| - 1];
      if |before| < limit && Matches(req, r) then before + [r] else before
  }

  // The rows at these positions, in order.
  function Picked(table: seq<OutboxRecord>, picks: seq<nat>): seq<OutboxRecord>
    requires forall k :: 0 <= k < |picks| ==> picks[k] < |table|
  {
    seq(|picks|, k requires 0 <= k < |picks| => table[picks[k]])
  }

  // The row is of the transaction asked for and in the time range asked for, bounds included.
  predicate Wanted(req: ReplayRequest, r: OutboxRecord) {
    && (req.txn.None? || r.aggregate == req.txn.value)
    && (req.from.None? || req.from.value <= r.createdAt) && (req.to.None? || r.createdAt <= req.to.value)
  }

  /** The listing takes, in table order, the first `limit` of the rows asked for, or all of them. */
  lemma {:induction false} ListedMatches(table: seq<OutboxRecord>, req: ReplayRequest, limit: nat) returns (picks: seq<nat>)
    ensures |picks| <= limit && (forall k :: 0 <= k < |picks| ==> picks[k] < |table| && Wanted(req, table[picks[k]]))
    ensures forall j, k :: 0 <= j < k < |picks| ==> picks[j] < picks[k]
    ensures Listed(table, req, limit) == Picked(table, picks)
    ensures forall i :: 0 <= i < |table| && Wanted(req, table[i]) && i !in picks ==>
      |picks| == limit && forall k :: 0 <= k < |picks| ==> picks[k] < i
  {
    picks := [];
    if table != [] {
      var n := |table| - 1;
      picks := ListedMatches(table[..n], req, limit);
      assert Picked(table, picks) == Picked(table[..n], picks);
      if |picks| < limit && Wanted(req, table[n]) {
        assert Picked(table, picks + [n]) == Picked(table, picks) + [table[n]];
        forall i | 0 <= i < |table| && Wanted(req, table[i]) ensures i in picks + [n] {
          assert i < n ==> table[..n][i] == table[i];
        }
        picks := picks + [n];
      } else {
        forall i | 0 <= i < |table| && Wanted(req, table[i]) && i !in picks
          ensures |picks| == limit && forall k :: 0 <= k < |picks| ==> picks[k] < i
        {
          assert i < n ==> table[..n][i] == table[i];
        }
      }
    }
  }

  // ----- one record -----

  function EventHeaders(r: OutboxRecord): map<string, Field> {
    r.headers["event_id" := Uuid(r.id)]["transaction_id" := Uuid(r.aggregate)]["event_type" := Text(r.eventType)]
  }

  function MarkReplayed(p: Payload, meta: Meta): Option<Payload> {
    match p
    case Envelope(e, t, content, _) => Some(Envelope(e, t, content, Some(meta)))
    case Undecodable => None
  }

  function ReplayMessage(r: OutboxRecord, value: Payload, replayId: Id): KafkaMessage {
    KafkaMessage(r.topic, r.partition, value, EventHeaders(r)["replay" := Text("true")]["replay_id" := Uuid(replayId)])
  }

  // An acknowledged publish, or an error after which the broker may have kept the message.
  datatype Send = Acked | Errored(kept: bool)

  function MetaAt(req: ReplayRequest, replayId: Id, at: Time, i: nat): Meta {
    Meta(replayId, at, req.requestedBy, i)
  }

  // The messages the first n records put on the topic.
  function Replayed(records: seq<OutboxRecord>, req: ReplayRequest, replayId: Id, at: Time, sends: nat -> Send, n: nat)
    : seq<KafkaMessage>
    requires n <= |records|
  {
    if n == 0 then []
    else
      var before := Replayed(records, req, replayId, at, sends, n - 1);
      var marked := MarkReplayed(records[n - 1].payload, MetaAt(req, replayId, at, n - 1));
      if marked.Some? && sends(n - 1) != Errored(false) then
        before + [ReplayMessage(records[n - 1], marked.value, replayId)]
      else before
  }

  // An outbox row as the ledger writes it.
  predicate Genuine(r: OutboxRecord) {
    r.payload.Envelope? && r.payload.eventId == r.id && r.payload.txnId == r.aggregate && r.payload.replay.None?
  }

  // A message under a record's own event ID, equal to its first publication but for the replay marks.
  predicate Repeats(x: KafkaMessage, r: OutboxRecord) {
    && x.value.Envelope? && x.value.(replay := None) == r.payload && x.value.eventId == r.id
    && x.topic == r.topic && x.key == r.partition
    && x.headers - MARKS == r.headers - MARKS && MARKS <= x.headers.Keys
    && x.headers["event_id"] == Uuid(r.id) && x.headers["transaction_id"] == Uuid(r.aggregate)
    && x.headers["event_type"] == Text(r.eventType)
  }

  const MARKS := {"event_id", "transaction_id", "event_type", "replay", "replay_id"}

  // Marked in payload and headers as the i-th record of this replay.
  predicate Flagged(x: KafkaMessage, req: ReplayRequest, replayId: Id, at: Time, i: nat) {
    && x.value.Envelope? && x.value.replay == Some(Meta(replayId, at, req.requestedBy, i))
    && "replay" in x.headers && x.headers["replay"] == Text("true")
    && "replay_id" in x.headers && x.headers["replay_id"] == Uuid(replayId)
  }

  lemma MessageRepeats(r: OutboxRecord, meta: Meta, replayId: Id)
    requires Genuine(r)
    ensures Repeats(ReplayMessage(r, MarkReplayed(r.payload, meta).value, replayId), r)
  {
    var x := ReplayMessage(r, MarkReplayed(r.payload, meta).value, replayId);
    assert x.headers - MARKS == r.headers - MARKS;
  }

  lemma GenuineSent(r: OutboxRecord, req: ReplayRequest, replayId: Id, at: Time, i: nat)
    requires Genuine(r)
    ensures var marked := MarkReplayed(r.payload, MetaAt(req, replayId, at, i));
      && marked.Some? && Repeats(ReplayMessage(r, marked.value, replayId), r)
      && Flagged(ReplayMessage(r, marked.value, replayId), req, replayId, at, i)
  {
    MessageRepeats(r, MetaAt(req, replayId, at, i), replayId);
  }

  /** Every replayed message is some listed row's event, with its event ID, topic and content
      unchanged, and marked as that row of this replay. */
  lemma {:induction false} ReplayKeepsEvents(records: seq<OutboxRecord>, req: ReplayRequest, replayId: Id, at: Time,
                                             sends: nat -> Send, n: nat, k: nat) returns (i: nat)
    requires n <= |records| && forall j :: 0 <= j < n ==> Genuine(records[j])
    requires k < |Replayed(records, req, replayId, at, sends, n)|
    ensures k <= i < n && Repeats(Replayed(records, req, replayId, at, sends, n)[k], records[i])
    ensures Flagged(Replayed(records, req, replayId, at, sends, n)[k], req, replayId, at, i)
  {
    hide Repeats, Flagged, Genuine, ReplayMessage, MarkReplayed, MetaAt;
    GenuineSent(records[n - 1], req, replayId, at, n - 1);
    var before := Replayed(records, req, replayId, at, sends, n - 1);
    if k < |before| {
      i := ReplayKeepsEvents(records, req, replayId, at, sends, n - 1, k);
    } else {
      SentExactly(records, req, replayId, at, sends, n - 1);
      BelowSize(KeptSends(records, sends, n - 1), n - 1);
      i := n - 1;
    }
  }

  // The records whose message the broker has, acknowledged or not.
  ghost function KeptSends(records: seq<OutboxRecord>, sends: nat -> Send, n: nat): set<nat>
    requires n <= |records|
  {
    set i | 0 <= i < n && records[i].payload.Envelope? && (sends(i).Acked? || sends(i).kept)
  }

  ghost function AckedSends(records: seq<OutboxRecord>, sends: nat -> Send, n: nat): set<nat>
    requires n <= |records|
  {
    set i | 0 <= i < n && records[i].payload.Envelope? && sends(i).Acked?
  }

  /** A message goes out for exactly the records that decode and whose publish did not fail outright;
      only acknowledged ones are counted. */
  lemma {:induction false} SentExactly(records: seq<OutboxRecord>, req: ReplayRequest, replayId: Id, at: Time,
                                       sends: nat -> Send, n: nat)
    requires n <= |records|
    ensures |Replayed(records, req, replayId, at, sends, n)| == |KeptSends(records, sends, n)|
    ensures AckedCount(records, sends, n) == |AckedSends(records, sends, n)|
  {
    hide ReplayMessage, KeptSends, AckedSends, MetaAt;
    if n > 0 {
      SentExactly(records, req, replayId, at, sends, n - 1);
      KeptNext(records, sends, n);
      AckedNext(records, sends, n);
    } else {
      NoSends(records, sends);
    }
  }

  lemma NoSends(records: seq<OutboxRecord>, sends: nat -> Send)
    ensures KeptSends(records, sends, 0) == {} == AckedSends(records, sends, 0)
  {
  }

  lemma KeptNext(records: seq<OutboxRecord>, sends: nat -> Send, n: nat)
    requires 0 < n <= |records|
    ensures |KeptSends(records, sends, n)| == |KeptSends(records, sends, n - 1)|
      + if records[n - 1].payload.Envelope? && (sends(n - 1).Acked? || sends(n - 1).kept) then 1 else 0
  {
    var before, x := KeptSends(records, sends, n - 1), sends(n - 1);
    if records[n - 1].payload.Envelope? && (x.Acked? || x.kept) {
      assert KeptSends(records, sends, n) == before + {n - 1};
    } else {
      assert KeptSends(records, sends, n) == before;
    }
  }

  lemma AckedNext(records: seq<OutboxRecord>, sends: nat -> Send, n: nat)
    requires 0 < n <= |records|
    ensures |AckedSends(records, sends, n)| == |AckedSends(records, sends, n - 1)|
      + if records[n - 1].payload.Envelope? && sends(n - 1).Acked? then 1 else 0
  {
    var before := AckedSends(records, sends, n - 1);
    if records[n - 1].payload.Envelope? && sends(n - 1).Acked? {
      assert AckedSends(records, sends, n) == before + {n - 1};
    } else {
      assert AckedSends(records, sends, n) == before;
    }
  }

  lemma {:induction false} BelowSize(s: set<nat>, n: nat)
    requires forall i :: i in s ==> i < n
    ensures |s| <= n
  {
    if n > 0 {
      BelowSize(s - {n - 1}, n - 1);
    } else {
      assert s == {};
    }
  }

  /** When the broker takes every message, each listed row is republished exactly once, in listing
      order, marked with its position. */
  lemma {:induction false} ReplayIsComplete(records: seq<OutboxRecord>, req: ReplayRequest, replayId: Id, at: Time,
                                            sends: nat -> Send, n: nat)
    requires n <= |records| && forall j :: 0 <= j < n ==> Genuine(records[j]) && sends(j).Acked?
    ensures var sent := Replayed(records, req, replayId, at, sends, n);
      |sent| == n && forall i :: 0 <= i < n ==> Repeats(sent[i], records[i]) && Flagged(sent[i], req, replayId, at, i)
  {
    hide Repeats, Flagged, Genuine, ReplayMessage, MarkReplayed, MetaAt;
    if n > 0 {
      ReplayIsComplete(records, req, replayId, at, sends, n - 1);
      GenuineSent(records[n - 1], req, replayId, at, n - 1);
    }
  }

  // ----- the code -----

  datatype ReplayResult = ReplayResult(replayId: Id, matched: nat, published: nat, failed: nat, dryRun: bool,
                                       eventIds: seq<Id>)
  datatype Outcome = Refused | QueryFailed | Done(result: ReplayResult)

  // Publishes acknowledged among the first n records.
  function AckedCount(records: seq<OutboxRecord>, sends: nat -> Send, n: nat): nat
    requires n <= |records|
  {
    if n == 0 then 0
    else AckedCount(records, sends, n - 1) + if records[n - 1].payload.Envelope? && sends(n - 1).Acked? then 1 else 0
  }

  predicate Reports(r: ReplayResult, records: seq<OutboxRecord>, req: ReplayRequest, replayId: Id, sends: nat -> Send) {
    && r.matched == |records| == |r.eventIds| && (forall i :: 0 <= i < |records| ==> r.eventIds[i] == records[i].id)
    && r.dryRun == req.dryRun && r.replayId == replayId
    && (if req.dryRun then r.published == r.failed == 0
        else r.published == AckedCount(records, sends, |records|) && r.published + r.failed == r.matched)
  }

  class Replayer {
    const table: seq<OutboxRecord>  // outbox_events in (created_at, id) order: replay never writes it
    var topic: seq<KafkaMessage>

    constructor (table: seq<OutboxRecord>)
      ensures this.table == table && topic == []
    {
      this.table := table;
      topic := [];
    }

    method RepublishAll(records: seq<OutboxRecord>, req: ReplayRequest, replayId: Id, at: Time, sends: nat -> Send)
      returns (result: ReplayResult)
      modifies this`topic
      ensures Reports(result, records, req, replayId, sends)
      ensures topic == if req.dryRun then old(topic)
        else old(topic) + Replayed(records, req, replayId, at, sends, |records|)
    {
      hide ReplayMessage;
      var published, failed := 0, 0;
      var eventIds: seq<Id> := [];
      for i := 0 to |records|
        invariant |eventIds| == i && forall k :: 0 <= k < i ==> eventIds[k] == records[k].id
        invariant req.dryRun ==> published == failed == 0 && topic == old(topic)
        invariant !req.dryRun ==> published == AckedCount(records, sends, i) && published + failed == i
        invariant !req.dryRun ==> topic == old(topic) + Replayed(records, req, replayId, at, sends, i)
      {
        eventIds := eventIds + [records[i].id];
        if req.dryRun {
          continue;
        }
        var payload := MarkReplayed(records[i].payload, MetaAt(req, replayId, at, i));
        if payload.None? {
          failed := failed + 1;
          continue;
        }
        if sends(i) != Errored(false) {
          topic := topic + [ReplayMessage(records[i], payload.value, replayId)];
        }
        if sends(i).Errored? {
          failed := failed + 1;
          continue;
        }
        published := published + 1;
      }
      return ReplayResult(replayId, |records|, published, failed, req.dryRun, eventIds);
    }

    /** `listed` says whether the listing query succeeds. */
    method Replay(req: ReplayRequest, replayId: Id, at: Time, listed: bool, sends: nat -> Send) returns (r: Outcome)
      modifies this`topic
      ensures r.Refused? <==>
        (req.txn.None? && req.from.None? && req.to.None?) || req.limit < 0 || req.limit > 10000
        || (req.from.Some? && req.to.Some? && req.to.value < req.from.value)
      ensures r.QueryFailed? <==> !r.Refused? && !listed
      ensures !r.Done? || req.dryRun ==> topic == old(topic)
      ensures r.Done? ==> var records := Listed(table, req, if req.limit == 0 then 1000 else req.limit);
        && Reports(r.result, records, req, replayId, sends)
        && (!req.dryRun ==> topic == old(topic) + Replayed(records, req, replayId, at, sends, |records|))
    {
      if !Valid(req) {
        return Refused;
      }
      var limit := req.limit;
      if limit == 0 {
        limit := 1000;
      }
      if !listed {
        return QueryFailed;
      }
      var result := RepublishAll(Listed(table, req, limit), req, replayId, at, sends);
      return Done(result);
    }
  }
}
