// The webhook consumer: one row for each event and endpoint, however often the event is delivered.
module Webhook {
  import opened Prelude
  import opened Schema

  datatype Message<P> = Malformed | NoEventId | Payment(id: Id, payload: P)

  // What can stop the handler: the failpoint before anything is stored, or the n-th insert.
  datatype Fault = Clean | Failpoint | InsertFails(n: nat)

  datatype Handling<P> = Handling(msg: Message<P>, fault: Fault)

  // webhook_deliveries, as far as the consumer writes it.
  type Rows<P> = map<(Id, string), P>

  // How many endpoints the handler gets to.
  function Reach(fault: Fault, endpoints: seq<string>): (n: nat)
    ensures n <= |endpoints|
  {
    match fault
    case Clean => |endpoints|
    case Failpoint => 0
    case InsertFails(n) => if n < |endpoints| then n else |endpoints|
  }

  function Reached(fault: Fault, endpoints: seq<string>): seq<string> {
    endpoints[..Reach(fault, endpoints)]
  }

  // INSERT ... ON CONFLICT DO NOTHING.
  function Enqueued<P>(rows: Rows<P>, id: Id, endpoint: string, payload: P): Rows<P> {
    if (id, endpoint) in rows then rows else rows[(id, endpoint) := payload]
  }

  function AllEnqueued<P>(rows: Rows<P>, id: Id, endpoints: seq<string>, payload: P): Rows<P> {
    if endpoints == [] then rows
    else Enqueued(AllEnqueued(rows, id, endpoints[..|endpoints| - 1], payload), id, endpoints[|endpoints| - 1], payload)
  }

  function Handled<P>(rows: Rows<P>, h: Handling<P>, endpoints: seq<string>): Rows<P> {
    if h.msg.Payment? then AllEnqueued(rows, h.msg.id, Reached(h.fault, endpoints), h.msg.payload) else rows
  }

  function After<P>(stream: seq<Handling<P>>, endpoints: seq<string>): Rows<P> {
    if stream == [] then map[] else Handled(After(stream[..|stream| - 1], endpoints), stream[|stream| - 1], endpoints)
  }

  // ----- what one row holds -----

  function Get<P>(rows: Rows<P>, id: Id, endpoint: string): Option<P> {
    if (id, endpoint) in rows then Some(rows[(id, endpoint)]) else None
  }

  predicate Touches<P>(h: Handling<P>, endpoints: seq<string>, id: Id, endpoint: string) {
    h.msg.Payment? && h.msg.id == id && endpoint in Reached(h.fault, endpoints)
  }

  // The payload of the first handling that got as far as this endpoint.
  function FirstAt<P>(stream: seq<Handling<P>>, endpoints: seq<string>, id: Id, endpoint: string): Option<P> {
    if stream == [] then None
    else
      var before := FirstAt(stream[..|stream| - 1], endpoints, id, endpoint);
      var h := stream[|stream| - 1];
      if before.Some? then before
      else if Touches(h, endpoints, id, endpoint) then Some(h.msg.payload) else None
  }

  // The payload of the first handling of this event, whatever became of it.
  function First<P>(stream: seq<Handling<P>>, id: Id): Option<P> {
    if stream == [] then None
    else
      var before := First(stream[..|stream| - 1], id);
      var h := stream[|stream| - 1];
      if before.Some? then before
      else if h.msg.Payment? && h.msg.id == id then Some(h.msg.payload) else None
  }

  lemma {:induction false} EnqueueGet<P>(rows: Rows<P>, id: Id, endpoints: seq<string>, payload: P, i: Id, endpoint: string)
    ensures Get(AllEnqueued(rows, id, endpoints, payload), i, endpoint) ==
      if Get(rows, i, endpoint).Some? then Get(rows, i, endpoint)
      else if i == id && endpoint in endpoints then Some(payload) else None
  {
    if endpoints != [] {
      EnqueueGet(rows, id, endpoints[..|endpoints| - 1], payload, i, endpoint);
      assert endpoints == endpoints[..|endpoints| - 1] + [endpoints[|endpoints| - 1]];
    }
  }

  /** A row exists exactly when some handling of its event got as far as its endpoint, and it keeps
      the payload of the first one that did. */
  lemma {:induction false} RowIsFirst<P>(stream: seq<Handling<P>>, endpoints: seq<string>, id: Id, endpoint: string)
    ensures Get(After(stream, endpoints), id, endpoint) == FirstAt(stream, endpoints, id, endpoint)
  {
    if stream != [] {
      var init, h := stream[..|stream| - 1], stream[|stream| - 1];
      RowIsFirst(init, endpoints, id, endpoint);
      if h.msg.Payment? {
        EnqueueGet(After(init, endpoints), h.msg.id, Reached(h.fault, endpoints), h.msg.payload, id, endpoint);
      }
    }
  }

  // ----- against exactly-once delivery -----

  // The first message of each event, each handled without error.
  function Once<P>(stream: seq<Handling<P>>): seq<Handling<P>> {
    if stream == [] then []
    else
      var init, h := stream[..|stream| - 1], stream[|stream| - 1];
      if h.msg.Payment? && First(init, h.msg.id).None? then Once(init) + [Handling(h.msg, Clean)] else Once(init)
  }

  lemma {:induction false} OnceGet<P>(stream: seq<Handling<P>>, endpoints: seq<string>, id: Id, endpoint: string)
    ensures FirstAt(Once(stream), endpoints, id, endpoint) == if endpoint in endpoints then First(stream, id) else None
  {
    if stream != [] {
      var init, h := stream[..|stream| - 1], stream[|stream| - 1];
      OnceGet(init, endpoints, id, endpoint);
      if h.msg.Payment? && First(init, h.msg.id).None? {
        assert Once(stream)[..|Once(stream)| - 1] == Once(init);
        assert Reached(Clean, endpoints) == endpoints;
      }
    }
  }

  // Every event that arrived has, at every endpoint, been stored with the payload it first arrived with.
  ghost predicate Settled<P(!new)>(stream: seq<Handling<P>>, endpoints: seq<string>) {
    forall id, endpoint :: endpoint in endpoints ==> FirstAt(stream, endpoints, id, endpoint) == First(stream, id)
  }

  lemma {:induction false} OnlyEndpoints<P>(stream: seq<Handling<P>>, endpoints: seq<string>, id: Id, endpoint: string)
    requires endpoint !in endpoints
    ensures FirstAt(stream, endpoints, id, endpoint).None?
  {
    if stream != [] {
      OnlyEndpoints(stream[..|stream| - 1], endpoints, id, endpoint);
    }
  }

  lemma SameGets<P(!new)>(x: Rows<P>, y: Rows<P>)
    requires forall id, endpoint :: Get(x, id, endpoint) == Get(y, id, endpoint)
    ensures x == y
  {
    forall k: (Id, string) ensures (k in x <==> k in y) && (k in x ==> x[k] == y[k]) {
      assert Get(x, k.0, k.1) == Get(y, k.0, k.1);
    }
  }

  /** A stream with duplicates, replays, malformed messages and errors gives the same rows as its
      first occurrences handled cleanly, exactly when every event has settled at every endpoint. */
  lemma SameAsOnceExactly<P(!new)>(stream: seq<Handling<P>>, endpoints: seq<string>)
    ensures After(stream, endpoints) == After(Once(stream), endpoints) <==> Settled(stream, endpoints)
  {
    forall id, endpoint
      ensures Get(After(stream, endpoints), id, endpoint) == FirstAt(stream, endpoints, id, endpoint)
      ensures Get(After(Once(stream), endpoints), id, endpoint) == if endpoint in endpoints then First(stream, id) else None
      ensures endpoint !in endpoints ==> FirstAt(stream, endpoints, id, endpoint).None?
    {
      RowIsFirst(stream, endpoints, id, endpoint);
      RowIsFirst(Once(stream), endpoints, id, endpoint);
      OnceGet(stream, endpoints, id, endpoint);
      if endpoint !in endpoints { OnlyEndpoints(stream, endpoints, id, endpoint); }
    }
    if Settled(stream, endpoints) {
      SameGets(After(stream, endpoints), After(Once(stream), endpoints));
    }
  }

  // ----- when it does settle -----

  predicate Completes<P(==)>(h: Handling<P>, endpoints: seq<string>, msg: Message<P>) {
    h.msg == msg && Reach(h.fault, endpoints) == |endpoints|
  }

  // After an incomplete handling of an event, the same message is handled to the end before any
  // other message of that event.
  predicate Redelivered<P(==)>(stream: seq<Handling<P>>, endpoints: seq<string>) {
    forall i :: 0 <= i < |stream| && stream[i].msg.Payment? && !Completes(stream[i], endpoints, stream[i].msg) ==>
      RedeliveredAfter(stream, endpoints, i)
  }

  predicate RedeliveredAfter<P(==)>(stream: seq<Handling<P>>, endpoints: seq<string>, i: nat)
    requires i < |stream|
  {
    exists j :: i < j < |stream| && Completes(stream[j], endpoints, stream[i].msg) && SameUntil(stream, i, j)
  }

  predicate SameEvent<P>(x: Message<P>, y: Message<P>) {
    x.Payment? && y.Payment? && x.id == y.id
  }

  predicate SameUntil<P(==)>(stream: seq<Handling<P>>, i: nat, j: nat)
    requires i < j < |stream|
  {
    forall k :: i < k < j && SameEvent(stream[k].msg, stream[j].msg) ==> stream[k].msg == stream[j].msg
  }

  // The payload is the first one's as long as only that message of the event has been handled.
  lemma {:induction false} FirstAtSame<P>(stream: seq<Handling<P>>, endpoints: seq<string>, msg: Message<P>, endpoint: string)
    requires msg.Payment?
    requires forall k :: 0 <= k < |stream| && stream[k].msg.Payment? && stream[k].msg.id == msg.id ==> stream[k].msg == msg
    ensures FirstAt(stream, endpoints, msg.id, endpoint) in {None, Some(msg.payload)}
    ensures First(stream, msg.id) in {None, Some(msg.payload)}
  {
    if stream != [] {
      FirstAtSame(stream[..|stream| - 1], endpoints, msg, endpoint);
    }
  }

  lemma {:induction false} FirstStays<P>(stream: seq<Handling<P>>, n: nat, endpoints: seq<string>, id: Id, endpoint: string)
    requires n <= |stream|
    ensures First(stream[..n], id).Some? ==> First(stream, id) == First(stream[..n], id)
    ensures FirstAt(stream[..n], endpoints, id, endpoint).Some? ==>
      FirstAt(stream, endpoints, id, endpoint) == FirstAt(stream[..n], endpoints, id, endpoint)
  {
    if n < |stream| {
      var init := stream[..|stream| - 1];
      FirstStays(init, n, endpoints, id, endpoint);
      assert init[..n] == stream[..n];
    } else {
      assert stream[..n] == stream;
    }
  }

  // The position at which an event first arrives.
  lemma {:induction false} FirstIndex<P>(stream: seq<Handling<P>>, id: Id) returns (i: nat)
    requires First(stream, id).Some?
    ensures i < |stream| && stream[i].msg == Payment(id, First(stream, id).value) && First(stream[..i], id).None?
  {
    var init, h := stream[..|stream| - 1], stream[|stream| - 1];
    if First(init, id).Some? {
      i := FirstIndex(init, id);
      assert init[..i] == stream[..i];
    } else {
      i := |init|;
    }
  }

  lemma {:induction false} NoneBefore<P>(stream: seq<Handling<P>>, endpoints: seq<string>, id: Id, endpoint: string, k: nat)
    requires First(stream, id).None? && k < |stream|
    ensures FirstAt(stream, endpoints, id, endpoint).None?
    ensures !(stream[k].msg.Payment? && stream[k].msg.id == id)
  {
    var init := stream[..|stream| - 1];
    if k < |init| {
      NoneBefore(init, endpoints, id, endpoint, k);
    } else if init != [] {
      NoneBefore(init, endpoints, id, endpoint, 0);
    }
  }

  lemma SettlesAt<P>(stream: seq<Handling<P>>, endpoints: seq<string>, i: nat, j: nat, endpoint: string)
    requires i <= j < |stream| && stream[i].msg.Payment? && First(stream[..i], stream[i].msg.id).None?
    requires Completes(stream[j], endpoints, stream[i].msg) && (i < j ==> SameUntil(stream, i, j)) && endpoint in endpoints
    ensures FirstAt(stream, endpoints, stream[i].msg.id, endpoint) == Some(stream[i].msg.payload)
  {
    var msg := stream[i].msg;
    var upto := stream[..j + 1];
    forall k | 0 <= k < |upto| && upto[k].msg.Payment? && upto[k].msg.id == msg.id ensures upto[k].msg == msg {
      if k < i {
        NoneBefore(stream[..i], endpoints, msg.id, endpoint, k);
      }
    }
    FirstAtSame(upto, endpoints, msg, endpoint);
    assert Reached(stream[j].fault, endpoints) == endpoints;
    assert Touches(upto[j], endpoints, msg.id, endpoint);
    FirstStays(stream, j + 1, endpoints, msg.id, endpoint);
  }

  /** Redelivery after every error settles every event: the rows and their payloads are those of the
      first occurrences, each handled once. */
  lemma RedeliverySettles<P(!new)>(stream: seq<Handling<P>>, endpoints: seq<string>)
    requires Redelivered(stream, endpoints)
    ensures Settled(stream, endpoints) && After(stream, endpoints) == After(Once(stream), endpoints)
  {
    forall id, endpoint | endpoint in endpoints
      ensures FirstAt(stream, endpoints, id, endpoint) == First(stream, id)
    {
      SettlesEvent(stream, endpoints, id, endpoint);
    }
    SameAsOnceExactly(stream, endpoints);
  }

  lemma SettlesEvent<P>(stream: seq<Handling<P>>, endpoints: seq<string>, id: Id, endpoint: string)
    requires Redelivered(stream, endpoints) && endpoint in endpoints
    ensures FirstAt(stream, endpoints, id, endpoint) == First(stream, id)
  {
    hide Completes, SameUntil;
    if First(stream, id).Some? {
      var i := FirstIndex(stream, id);
      if Completes(stream[i], endpoints, stream[i].msg) {
        SettlesAt(stream, endpoints, i, i, endpoint);
      } else {
        assert RedeliveredAfter(stream, endpoints, i);
        var j :| i < j < |stream| && Completes(stream[j], endpoints, stream[i].msg) && SameUntil(stream, i, j);
        SettlesAt(stream, endpoints, i, j, endpoint);
      }
    } else if stream != [] {
      NoneBefore(stream, endpoints, id, endpoint, 0);
    }
  }

  // An original that fails after one endpoint, then a replay of it: the second endpoint gets the
  // replay's payload.
  lemma ReplayAfterError(a: string, b: string, p: string, q: string)
    requires a != b && p != q
    ensures var stream := [Handling(Payment(0, p), InsertFails(1)), Handling(Payment(0, q), Clean)];
      !Settled(stream, [a, b]) && Get(After(stream, [a, b]), 0, b) == Some(q)
  {
    var stream := [Handling(Payment(0, p), InsertFails(1)), Handling(Payment(0, q), Clean)];
    RowIsFirst(stream, [a, b], 0, b);
    assert stream[..1] == [stream[0]] && stream[..1][..0] == [];
    assert First(stream[..1], 0) == Some(p) && FirstAt(stream[..1], [a, b], 0, b) == None;
    assert [a, b][..2][1] == b;
  }

  // ----- the code -----

  class Consumer<P(==)> {
    const endpoints: seq<string>
    var rows: Rows<P>
    var duplicates: nat

    constructor (endpoints: seq<string>)
      ensures this.endpoints == endpoints && rows == map[] && duplicates == 0
    {
      this.endpoints := endpoints;
      rows, duplicates := map[], 0;
    }

    method Enqueue(id: Id, endpoint: string, payload: P) returns (created: bool)
      modifies this`rows
      ensures rows == Enqueued(old(rows), id, endpoint, payload)
      ensures created <==> (id, endpoint) !in old(rows)
    {
      if (id, endpoint) in rows {
        return false;
      }
      rows := rows[(id, endpoint) := payload];
      return true;
    }

    /** Each endpoint reached is either a new row or counted as a duplicate. Returning an error leaves
        the Kafka offset uncommitted. */
    method HandleEvent(h: Handling<P>) returns (err: bool)
      modifies this`rows, this`duplicates
      ensures rows == Handled(old(rows), h, endpoints)
      ensures err <==> h.msg.Payment? && (h.fault.Failpoint? || (h.fault.InsertFails? && h.fault.n < |endpoints|))
      ensures duplicates - old(duplicates) + |rows| - |old(rows)|
        == if h.msg.Payment? then |Reached(h.fault, endpoints)| else 0
    {
      if h.msg.Malformed? {
        return false;
      }
      if h.msg.NoEventId? {
        return false;
      }
      if h.fault.Failpoint? {
        return true;
      }
      for i := 0 to |endpoints|
        invariant h.fault.InsertFails? ==> i <= h.fault.n
        invariant rows == AllEnqueued(old(rows), h.msg.id, endpoints[..i], h.msg.payload)
        invariant duplicates - old(duplicates) + |rows| - |old(rows)| == i
      {
        if h.fault.InsertFails? && h.fault.n == i {
          return true;
        }
        assert endpoints[..i + 1][..i] == endpoints[..i];
        var created := Enqueue(h.msg.id, endpoints[i], h.msg.payload);
        if !created {
          duplicates := duplicates + 1;
          continue;
        }
      }
      assert endpoints[..|endpoints|] == endpoints;
      return false;
    }
  }
}
