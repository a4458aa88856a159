// The fixed-window rate limiter: one Redis counter for each client and window.
module RateLimit {
  import opened Prelude

  type Client = string

  // What became of the pipeline: answered, never run, or run with its reply lost.
  datatype Reply = Answered | Unreachable | Lost

  datatype Request = Request(client: Client, at: nat, reply: Reply)  // time in nanoseconds

  predicate Counted(r: Request, client: Client, window: nat, w: nat)
    requires window > 0
  {
    r.client == client && r.at / window == w && !r.reply.Unreachable?
  }

  // The client's requests in window w that Redis counted.
  function Seen(trace: seq<Request>, client: Client, window: nat, w: nat): nat
    requires window > 0
  {
    if trace == [] then 0
    else
      var last := trace[|trace| - 1];
      Seen(trace[..|trace| - 1], client, window, w) + if Counted(last, client, window, w) then 1 else 0
  }

  // What the limiter answers to the last request of the trace: without a reply it lets it through.
  predicate Passes(trace: seq<Request>, limit: nat, window: nat)
    requires window > 0 && trace != []
  {
    var last := trace[|trace| - 1];
    !last.reply.Answered? || Seen(trace, last.client, window, last.at / window) <= limit
  }

  // How many of the client's requests in [from, to) were allowed.
  function Allowed(trace: seq<Request>, client: Client, limit: nat, window: nat, from: nat, to: nat): nat
    requires window > 0
  {
    if trace == [] then 0
    else
      var last := trace[|trace| - 1];
      Allowed(trace[..|trace| - 1], client, limit, window, from, to) +
      if last.client == client && from <= last.at < to && Passes(trace, limit, window) then 1 else 0
  }

  // How many of them Redis gave no reply to.
  function Unheard(trace: seq<Request>, client: Client, from: nat, to: nat): nat {
    if trace == [] then 0
    else
      var last := trace[|trace| - 1];
      Unheard(trace[..|trace| - 1], client, from, to) +
      if last.client == client && from <= last.at < to && !last.reply.Answered? then 1 else 0
  }

  lemma TimesGrows(a: nat, b: nat, n: nat)
    requires a <= b
    ensures a * n <= b * n
  {
  }

  lemma Division(at: nat, window: nat)
    requires window > 0
    ensures (at / window) * window <= at < (at / window) * window + window
  {
    assert at == window * (at / window) + at % window;
  }

  lemma WindowOf(at: nat, window: nat, w: nat)
    requires window > 0
    ensures at / window == w <==> w * window <= at < w * window + window
  {
    var q := at / window;
    Division(at, window);
    if q < w {
      TimesGrows(q + 1, w, window);
    } else if q > w {
      TimesGrows(w + 1, q, window);
    }
  }

  /** In an aligned window exactly the first `limit` requests of a client are allowed, and beyond
      them only requests Redis gave no reply to. */
  lemma {:induction false} WindowAllows(trace: seq<Request>, client: Client, limit: nat, window: nat, w: nat)
    requires window > 0
    ensures var seen, from, to := Seen(trace, client, window, w), w * window, w * window + window;
      var first := if seen <= limit then seen else limit;
      first <= Allowed(trace, client, limit, window, from, to) <= first + Unheard(trace, client, from, to)
  {
    if trace != [] {
      WindowAllows(trace[..|trace| - 1], client, limit, window, w);
      WindowOf(trace[|trace| - 1].at, window, w);
    }
  }

  lemma {:induction false} AllowedWithin(trace: seq<Request>, client: Client, limit: nat, window: nat, from: nat, to: nat,
                                         mid: nat, lo: nat, hi: nat)
    requires window > 0 && lo <= from && to <= hi && lo <= mid <= hi
    ensures Allowed(trace, client, limit, window, from, to) - Unheard(trace, client, from, to)
      <= Allowed(trace, client, limit, window, lo, mid) - Unheard(trace, client, lo, mid)
        + Allowed(trace, client, limit, window, mid, hi) - Unheard(trace, client, mid, hi)
  {
    if trace != [] {
      AllowedWithin(trace[..|trace| - 1], client, limit, window, from, to, mid, lo, hi);
    }
  }

  lemma NextEdge(w: nat, window: nat)
    ensures (w + 1) * window == w * window + window
  {
  }

  /** At most 2 * limit of a client's requests are allowed in any half-open interval one window long,
      besides those Redis gave no reply to. */
  lemma IntervalAllows(trace: seq<Request>, client: Client, limit: nat, window: nat, from: nat)
    requires window > 0
    ensures Allowed(trace, client, limit, window, from, from + window)
      <= 2 * limit + Unheard(trace, client, from, from + window)
  {
    hide Seen, Allowed, Unheard;
    var w := from / window;
    var lo := w * window;
    WindowOf(from, window, w);
    WindowAllows(trace, client, limit, window, w);
    NextEdge(w, window);
    WindowAllows(trace, client, limit, window, w + 1);
    AllowedWithin(trace, client, limit, window, from, from + window, lo + window, lo, lo + window + window);
  }

  function Burst(client: Client, at: nat, n: nat): seq<Request> {
    if n == 0 then [] else Burst(client, at, n - 1) + [Request(client, at, Answered)]
  }

  lemma SeenNext(trace: seq<Request>, r: Request, client: Client, window: nat, w: nat)
    requires window > 0
    ensures Seen(trace + [r], client, window, w)
      == Seen(trace, client, window, w) + if Counted(r, client, window, w) then 1 else 0
  {
    assert (trace + [r])[..|trace|] == trace;
  }

  lemma AllowedNext(trace: seq<Request>, r: Request, limit: nat, window: nat, from: nat, to: nat)
    requires window > 0 && from <= r.at < to && Seen(trace + [r], r.client, window, r.at / window) <= limit
    ensures Allowed(trace + [r], r.client, limit, window, from, to) == Allowed(trace, r.client, limit, window, from, to) + 1
  {
    hide Seen;
    assert (trace + [r])[..|trace|] == trace;
  }

  lemma {:induction false} BurstElsewhere(client: Client, at: nat, n: nat, window: nat, w: nat)
    requires window > 0 && at / window != w
    ensures Seen(Burst(client, at, n), client, window, w) == 0
  {
    if n > 0 {
      hide Seen;
      BurstElsewhere(client, at, n - 1, window, w);
      SeenNext(Burst(client, at, n - 1), Request(client, at, Answered), client, window, w);
    }
  }

  lemma {:induction false} BurstPasses(before: seq<Request>, client: Client, limit: nat, window: nat, at: nat, n: nat, from: nat, to: nat)
    requires window > 0 && n <= limit && from <= at < to && Seen(before, client, window, at / window) == 0
    ensures Seen(before + Burst(client, at, n), client, window, at / window) == n
    ensures Allowed(before + Burst(client, at, n), client, limit, window, from, to)
      == Allowed(before, client, limit, window, from, to) + n
  {
    hide Seen, Allowed;
    if n == 0 {
      assert before + Burst(client, at, n) == before;
    } else {
      var trace, r := before + Burst(client, at, n - 1), Request(client, at, Answered);
      BurstPasses(before, client, limit, window, at, n - 1, from, to);
      assert before + Burst(client, at, n) == trace + [r];
      SeenNext(trace, r, client, window, at / window);
      AllowedNext(trace, r, limit, window, from, to);
    }
  }

  // The bound is met: bursts on both sides of a window's edge all pass.
  lemma BoundIsTight(client: Client, limit: nat, window: nat)
    requires window >= 2
    ensures var trace := Burst(client, window - 1, limit) + Burst(client, window, limit);
      Allowed(trace, client, limit, window, window - 1, 2 * window - 1) == 2 * limit
  {
    hide Seen, Allowed, Burst;
    var from, to := window - 1, 2 * window - 1;
    var first := Burst(client, from, limit);
    WindowOf(from, window, 0);
    WindowOf(window, window, 1);
    NoneYet(client, limit, window, 0, from, to);
    BurstPasses([], client, limit, window, from, limit, from, to);
    assert [] + first == first;
    BurstElsewhere(client, from, limit, window, 1);
    BurstPasses(first, client, limit, window, window, limit, from, to);
  }

  lemma NoneYet(client: Client, limit: nat, window: nat, w: nat, from: nat, to: nat)
    requires window > 0
    ensures Seen([], client, window, w) == 0 && Allowed([], client, limit, window, from, to) == 0
  {
  }

  // ----- the code -----

  datatype Counter = Counter(count: nat, expires: nat)

  // A counter counts its window's requests, and outlives the window; where there is none, there were none.
  ghost predicate CountOk(trace: seq<Request>, counters: map<(Client, nat), Counter>, window: nat, k: (Client, nat))
    requires window > 0
  {
    var seen := Seen(trace, k.0, window, k.1);
    if k in counters then counters[k].count == seen && k.1 * window + window <= counters[k].expires else seen == 0
  }

  class Limiter {
    const limit: nat
    const window: nat
    var counters: map<(Client, nat), Counter>  // in Redis, shared by all replicas
    ghost var trace: seq<Request>

    ghost predicate Valid()
      reads this
    {
      && window > 0
      && forall k :: CountOk(trace, counters, window, k)
    }

    constructor (limit: nat, window: nat)
      requires limit > 0 && window > 0
      ensures Valid() && this.limit == limit && this.window == window && trace == []
    {
      this.limit, this.window := limit, window;
      counters, trace := map[], [];
    }

    // INCR starts over from an expired counter; EXPIRE sets two windows from now.
    method Incr(k: (Client, nat), now: nat) returns (count: nat)
      requires window > 0 && Valid() && k.1 == now / window
      modifies this`counters
      ensures count == Seen(trace, k.0, window, k.1) + 1
      ensures counters == old(counters)[k := Counter(count, now + 2 * window)]
    {
      assert CountOk(trace, counters, window, k);
      WindowOf(now, window, k.1);
      count := if k in counters && now < counters[k].expires then counters[k].count + 1 else 1;
      counters := counters[k := Counter(count, now + 2 * window)];
    }

    /** Allowed exactly when Redis gave no reply, or has counted no more than `limit` requests of the
        client in this window, however counters expire. A lost reply leaves the request counted. */
    method Allow(client: Client, now: nat, reply: Reply) returns (ok: bool, retryAfter: nat)
      requires Valid()
      modifies this`counters, this`trace
      ensures Valid()
      ensures trace == old(trace) + [Request(client, now, reply)] && (ok <==> Passes(trace, limit, window))
      ensures reply.Unreachable? ==> counters == old(counters)
      ensures !reply.Unreachable? ==>
        var count := Seen(trace, client, window, now / window);
        counters == old(counters)[(client, now / window) := Counter(count, now + 2 * window)]
      ensures retryAfter == if ok then 0 else window
    {
      hide Seen;
      var k := (client, now / window);
      ghost var before, was, r := trace, counters, Request(client, now, reply);
      var count := 0;
      if !reply.Unreachable? {
        count := Incr(k, now);
      }
      trace := trace + [r];
      WindowOf(now, window, k.1);
      forall j ensures CountOk(trace, counters, window, j) {
        assert CountOk(before, was, window, j);
        SeenNext(before, r, j.0, window, j.1);
      }
      SeenNext(before, r, client, window, k.1);
      if !reply.Answered? {
        return true, 0;
      }
      if count > limit {
        return false, window;
      }
      return true, 0;
    }
  }
}
