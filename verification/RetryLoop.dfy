// The retry loop around a database transaction, and its backoff.
module RetryLoop {
  import opened Prelude

  // An error, with the server's code when the server sent one.
  datatype Failure = Plain | Server(code: string)

  // What the database and the closure do in one attempt.
  datatype Attempt =
    | BeginFails(error: Failure)
    | BodyFails(error: Failure)
    | BodyPanics
    | CommitRefused(error: Failure)  // the server rolled the transaction back
    | AckLost                        // it committed, and the connection broke before the reply
    | Commits

  datatype Outcome = Nil | Failed(error: Failure) | Exhausted(last: Option<Failure>) | Cancelled | Panicked

  // The wait before a retry: the context is done first, or the timer fires.
  datatype Wait = Done | Elapsed

  predicate Keeps(a: Attempt) {
    a.Commits? || a.AckLost?
  }

  function AttemptOutcome(a: Attempt): Outcome {
    match a
    case Commits => Nil
    case BodyPanics => Panicked
    case AckLost => Failed(Plain)
    case BeginFails(e) => Failed(e)
    case BodyFails(e) => Failed(e)
    case CommitRefused(e) => Failed(e)
  }

  predicate Retryable(e: Failure) {
    e.Server? && (e.code == "40P01" || e.code == "40001" || e.code == "55P03" || e.code == "57014")
  }

  predicate Retried(a: Attempt) {
    AttemptOutcome(a).Failed? && Retryable(AttemptOutcome(a).error)
  }

  // ----- backoff -----

  const BASE: int64 := 5_000_000        // 5 ms, in nanoseconds
  const MAX_DELAY: int64 := 500_000_000  // 500 ms

  // Go's x << k on int64.
  function ShiftLeft(x: int64, k: nat): int64 {
    if k == 0 then x else Wrap(2 * ShiftLeft(x, k - 1))
  }

  function Ceiling(attempt: nat): int64 {
    var delay := ShiftLeft(BASE, attempt);
    if delay > MAX_DELAY then MAX_DELAY else delay
  }

  // rand.Int63n(n) panics unless n is positive; the draw is any value below n.
  predicate Panics(attempt: nat) {
    Ceiling(attempt) <= 0
  }

  function Backoff(attempt: nat, draw: nat): (d: int64)
    requires !Panics(attempt) && draw < Ceiling(attempt)
    ensures BASE <= d < BASE + Ceiling(attempt)
  {
    draw + BASE
  }

  lemma WrapIs(x: int, y: int, q: int)
    requires Fits(y) && x == y + q * TWO64
    ensures Wrap(x) == y
  {
    assert (x - MIN64) % TWO64 == y - MIN64;
  }

  lemma ShiftStep(k: nat, y: int, q: int)
    requires Fits(y) && 2 * ShiftLeft(BASE, k) == y + q * TWO64
    ensures ShiftLeft(BASE, k + 1) == y
  {
    WrapIs(2 * ShiftLeft(BASE, k), y, q);
  }

  lemma ShiftNone()
    ensures ShiftLeft(BASE, 0) == BASE
  {
  }

  lemma PowerAt40()
    ensures Power2(40) == 0x100_0000_0000
  {
    assert Power2(10) == 0x400;
    assert Power2(20) == 0x10_0000;
    assert Power2(30) == 0x4000_0000;
  }

  lemma {:induction false} ShiftExact(k: nat)
    requires k <= 40
    ensures ShiftLeft(BASE, k) == BASE * Power2(k)
  {
    hide ShiftLeft;
    if k > 0 {
      ShiftExact(k - 1);
      PowerAt40();
      Power2Grows(k, 40);
      ShiftStep(k - 1, BASE * Power2(k), 0);
    } else {
      ShiftNone();
    }
  }

  // Up to attempt 40 the shift is exact, so the ceiling doubles from 10 ms and stops at 500 ms.
  lemma CeilingDoubles(attempt: nat)
    requires 1 <= attempt <= 40
    ensures Ceiling(attempt) == if attempt <= 6 then 5_000_000 * Power2(attempt) else 500_000_000
    ensures !Panics(attempt)
  {
    ShiftExact(attempt);
    Power2Grows(1, attempt);
    if attempt > 6 {
      Power2Grows(7, attempt);
      assert Power2(7) == 128;
    } else {
      Power2Grows(attempt, 6);
      assert Power2(6) == 64;
    }
  }

  // Past attempt 40 the bits of the base fall off the top of the word.
  lemma ShiftWraps()
    ensures ShiftLeft(BASE, 41) == -7451627795949551616 && ShiftLeft(BASE, 42) == 3543488481810448384
    ensures ShiftLeft(BASE, 43) == 7086976963620896768 && ShiftLeft(BASE, 44) == -4272790146467758080
    ensures ShiftLeft(BASE, 45) == -8545580292935516160 && ShiftLeft(BASE, 46) == 1355583487838519296
    ensures ShiftLeft(BASE, 47) == 2711166975677038592 && ShiftLeft(BASE, 48) == 5422333951354077184
    ensures ShiftLeft(BASE, 49) == -7602076171001397248 && ShiftLeft(BASE, 50) == 3242591731706757120
    ensures ShiftLeft(BASE, 51) == 6485183463413514240 && ShiftLeft(BASE, 52) == -5476377146882523136
    ensures ShiftLeft(BASE, 53) == 7493989779944505344 && ShiftLeft(BASE, 54) == -3458764513820540928
    ensures ShiftLeft(BASE, 55) == -6917529027641081856 && ShiftLeft(BASE, 56) == 4611686018427387904
    ensures ShiftLeft(BASE, 57) == MIN64 && ShiftLeft(BASE, 58) == 0
  {
    hide ShiftLeft;
    ShiftExact(40);
    PowerAt40();
    ShiftStep(40, -7451627795949551616, 1);
    ShiftStep(41, 3543488481810448384, -1);
    ShiftStep(42, 7086976963620896768, 0);
    ShiftStep(43, -4272790146467758080, 1);
    ShiftStep(44, -8545580292935516160, 0);
    ShiftStep(45, 1355583487838519296, -1);
    ShiftStep(46, 2711166975677038592, 0);
    ShiftStep(47, 5422333951354077184, 0);
    ShiftStep(48, -7602076171001397248, 1);
    ShiftStep(49, 3242591731706757120, -1);
    ShiftStep(50, 6485183463413514240, 0);
    ShiftStep(51, -5476377146882523136, 1);
    ShiftStep(52, 7493989779944505344, -1);
    ShiftStep(53, -3458764513820540928, 1);
    ShiftStep(54, -6917529027641081856, 0);
    ShiftStep(55, 4611686018427387904, -1);
    ShiftStep(56, MIN64, 1);
    ShiftStep(57, 0, -1);
  }

  lemma {:induction false} ShiftedOut(k: nat)
    requires k >= 58
    ensures ShiftLeft(BASE, k) == 0
  {
    if k == 58 {
      ShiftWraps();
    } else {
      ShiftedOut(k - 1);
    }
  }

  /** Exactly when a retry has a delay at all: the random draw panics on the attempts whose shifted
      base wraps to a negative number or to zero, the first of them attempt 41. */
  lemma PanicsExactly(attempt: nat)
    requires attempt >= 1
    ensures Panics(attempt) <==> attempt in {41, 44, 45, 49, 52, 54, 55, 57} || attempt >= 58
  {
    hide ShiftLeft;
    if attempt <= 40 {
      CeilingDoubles(attempt);
    } else if attempt >= 58 {
      ShiftedOut(attempt);
    } else {
      ShiftWraps();
    }
  }

  // ----- the loop -----

  // What happens before attempt k runs, when attempt k - 1 was retryable.
  function Pause(waits: seq<Wait>, k: nat): Option<Outcome>
    requires k < |waits|
  {
    if k == 0 then None
    else if Panics(k) then Some(Panicked)
    else if waits[k].Done? then Some(Cancelled)
    else None
  }

  // How the loop ends, entered at attempt k, and how many attempts it has run by then.
  datatype End = End(outcome: Outcome, attempts: nat)

  function Loop(script: seq<Attempt>, waits: seq<Wait>, k: nat, last: Option<Failure>): (r: End)
    requires k <= |script| == |waits|
    ensures k <= r.attempts <= |script|
    decreases |script| - k
  {
    if k == |script| then End(Exhausted(last), k)
    else
      var pause := Pause(waits, k);
      if pause.Some? then End(pause.value, k)
      else if Retried(script[k]) then Loop(script, waits, k + 1, Some(AttemptOutcome(script[k]).error))
      else End(AttemptOutcome(script[k]), k + 1)
  }

  function Kept(script: seq<Attempt>, n: nat): seq<nat>
    requires n <= |script|
  {
    if n == 0 then []
    else if Keeps(script[n - 1]) then Kept(script, n - 1) + [n - 1] else Kept(script, n - 1)
  }

  lemma {:induction false} NoneKept(script: seq<Attempt>, n: nat)
    requires n <= |script| && forall i :: 0 <= i < n ==> Retried(script[i])
    ensures Kept(script, n) == []
  {
    if n > 0 {
      NoneKept(script, n - 1);
    }
  }

  // Entered at attempt k after k retryable failures.
  lemma {:induction false} LoopEnds(script: seq<Attempt>, waits: seq<Wait>, k: nat, last: Option<Failure>)
    requires k <= |script| == |waits| && forall i :: 0 <= i < k ==> Retried(script[i])
    ensures var End(r, n) := Loop(script, waits, k, last);
      && (forall i :: 0 <= i < n - 1 ==> Retried(script[i]))
      && (r.Nil? ==> n >= 1 && script[n - 1].Commits?)
      && (r.Exhausted? ==> n == |script|)
      && (r.Nil? || r.Failed? ==> n >= 1 && r == AttemptOutcome(script[n - 1]) && !Retried(script[n - 1]))
      && (!r.Nil? && !r.Failed? ==> forall i :: 0 <= i < n ==> !Keeps(script[i]))
    decreases |script| - k
  {
    if k < |script| && Pause(waits, k).None? && Retried(script[k]) {
      LoopEnds(script, waits, k + 1, Some(AttemptOutcome(script[k]).error));
    }
  }

  /** At most one attempt commits, and only the last one run. A nil result means exactly one did;
      any other result means none did, except for a lost acknowledgement, which is not retried. */
  lemma CommitsAtMostOnce(script: seq<Attempt>, waits: seq<Wait>)
    requires |script| == |waits|
    ensures var End(r, n) := Loop(script, waits, 0, None);
      && n <= |script|
      && Kept(script, n) == (if n > 0 && Keeps(script[n - 1]) then [n - 1] else [])
      && (r.Nil? ==> Kept(script, n) == [n - 1])
      && (Kept(script, n) != [] ==> r.Nil? || (r == Failed(Plain) && script[n - 1].AckLost?))
  {
    LoopEnds(script, waits, 0, None);
    var n := Loop(script, waits, 0, None).attempts;
    if n > 0 {
      NoneKept(script, n - 1);
    }
  }

  // ----- exactly what is retried -----

  /** Attempt k, once it runs, is followed by another exactly if it could not begin, failed or was
      refused at COMMIT with one of the server's codes for a deadlock, a serialization failure, a lock
      timeout or a cancelled statement, and attempts, a delay and the context are left. Anything else
      ends the loop with that very result. */
  lemma RetriedExactly(script: seq<Attempt>, waits: seq<Wait>, k: nat, last: Option<Failure>)
    requires k < |script| == |waits| && (k == 0 || (!Panics(k) && waits[k].Elapsed?))
    ensures var a, r := script[k], Loop(script, waits, k, last);
      var fails := a.BeginFails? || a.BodyFails? || a.CommitRefused?;
      if fails && a.error.Server? && a.error.code in {"40P01", "40001", "55P03", "57014"} then
        if k + 1 == |script| then r == End(Exhausted(Some(a.error)), k + 1)
        else if Panics(k + 1) then r == End(Panicked, k + 1)
        else if waits[k + 1].Done? then r == End(Cancelled, k + 1)
        else r.attempts > k + 1 && r == Loop(script, waits, k + 1, Some(a.error))
      else
        r == End(if fails then Failed(a.error) else if a.BodyPanics? then Panicked
                 else if a.AckLost? then Failed(Plain) else Nil, k + 1)
  {
  }

  // ----- exactly when it succeeds -----

  // An attempt that failed with one of the four codes.
  predicate Transient(a: Attempt) {
    && (a.BeginFails? || a.BodyFails? || a.CommitRefused?)
    && a.error in {Server("40P01"), Server("40001"), Server("55P03"), Server("57014")}
  }

  predicate Reaches(script: seq<Attempt>, waits: seq<Wait>, k: nat)
    requires k < |script| == |waits|
  {
    forall i :: 0 <= i <= k ==> (i > 0 ==> !Panics(i) && waits[i].Elapsed?) && (i < k ==> Transient(script[i]))
  }

  lemma {:induction false} SucceedsFrom(script: seq<Attempt>, waits: seq<Wait>, j: nat, k: nat, last: Option<Failure>)
    requires j <= k < |script| == |waits| && Reaches(script, waits, k) && script[k].Commits?
    ensures Loop(script, waits, j, last) == End(Nil, k + 1)
    decreases k - j
  {
    if j < k {
      SucceedsFrom(script, waits, j + 1, k, Some(AttemptOutcome(script[j]).error));
    }
  }

  lemma {:induction false} ReachesItsEnd(script: seq<Attempt>, waits: seq<Wait>, k: nat, last: Option<Failure>)
    requires k < |script| == |waits| && Loop(script, waits, k, last).outcome.Nil?
    requires k > 0 ==> Reaches(script, waits, k - 1) && Retried(script[k - 1])
    ensures exists j :: k <= j < |script| && Reaches(script, waits, j) && script[j].Commits?
    decreases |script| - k
  {
    assert Reaches(script, waits, k);
    if Retried(script[k]) {
      ReachesItsEnd(script, waits, k + 1, Some(AttemptOutcome(script[k]).error));
    }
  }

  // Success is exactly a commit preceded only by transient failures and completed waits.
  lemma SucceedsExactly(script: seq<Attempt>, waits: seq<Wait>)
    requires 0 < |script| == |waits|
    ensures Loop(script, waits, 0, None).outcome.Nil?
      <==> exists k :: 0 <= k < |script| && Reaches(script, waits, k) && script[k].Commits?
  {
    if Loop(script, waits, 0, None).outcome.Nil? {
      ReachesItsEnd(script, waits, 0, None);
    }
    forall k | 0 <= k < |script| && Reaches(script, waits, k) && script[k].Commits?
      ensures Loop(script, waits, 0, None).outcome.Nil?
    {
      SucceedsFrom(script, waits, 0, k, None);
    }
  }

  // Attempts that got as far as the closure.
  function Entered(script: seq<Attempt>, n: nat): (r: nat)
    requires n <= |script|
    ensures r <= n
  {
    if n == 0 then 0 else Entered(script, n - 1) + if script[n - 1].BeginFails? then 0 else 1
  }

  // The wait before attempt k: 5 ms and a random share of the ceiling.
  predicate Slept(delay: nat, k: nat, draws: seq<nat>) {
    k < |draws| && Ceiling(k) > 0 && delay == 5_000_000 + draws[k] % Ceiling(k)
  }

  // ----- the code -----

  class Db {
    const maxRetries: nat
    var calls: nat          // how often the closure was entered
    var open: bool          // a transaction is open on the connection
    var committed: seq<nat> // attempts whose writes the database has kept
    var delays: seq<nat>    // time slept before each retry

    constructor (maxRetries: nat)
      requires maxRetries >= 1
      ensures this.maxRetries == maxRetries && calls == 0 && !open && committed == [] && delays == []
    {
      this.maxRetries := maxRetries;
      calls, open, committed, delays := 0, false, [], [];
    }

    method RunOnce(k: nat, a: Attempt) returns (r: Outcome)
      requires !open
      modifies this`calls, this`open, this`committed
      ensures !open && r == AttemptOutcome(a)
      ensures calls == old(calls) + if a.BeginFails? then 0 else 1
      ensures committed == old(committed) + if Keeps(a) then [k] else []
    {
      if a.BeginFails? {
        return Failed(a.error);
      }
      open := true;
      calls := calls + 1;
      if a.BodyPanics? {
        open := false;
        return Panicked;
      }
      if a.BodyFails? {
        open := false;
        return Failed(a.error);
      }
      if a.CommitRefused? {
        open := false;
        return Failed(a.error);
      }
      committed := committed + [k];
      open := false;
      return if a.AckLost? then Failed(Plain) else Nil;
    }

    // `draws` are the random numbers, reduced below each ceiling.
    method InTx(script: seq<Attempt>, waits: seq<Wait>, draws: seq<nat>) returns (r: Outcome)
      requires !open && |script| == |waits| == |draws| == maxRetries
      modifies this`calls, this`open, this`committed, this`delays
      ensures r == Loop(script, waits, 0, None).outcome
      ensures committed == old(committed) + Kept(script, Loop(script, waits, 0, None).attempts)
      ensures !open && calls == old(calls) + Entered(script, Loop(script, waits, 0, None).attempts) <= old(calls) + maxRetries
      ensures old(delays) <= delays
      ensures var n := Loop(script, waits, 0, None).attempts; |delays| == |old(delays)| + if n == 0 then 0 else n - 1
      ensures forall i :: |old(delays)| <= i < |delays| ==> Slept(delays[i], i - |old(delays)| + 1, draws)
    {
      hide Ceiling, Retryable, AttemptOutcome, Keeps;
      var last := None;
      var k := 0;
      while k < maxRetries
        invariant k <= maxRetries && !open
        invariant Loop(script, waits, k, last) == Loop(script, waits, 0, None)
        invariant calls == old(calls) + Entered(script, k)
        invariant committed == old(committed) + Kept(script, k)
        invariant |delays| == |old(delays)| + (if k == 0 then 0 else k - 1) && old(delays) <= delays
        invariant forall i :: |old(delays)| <= i < |delays| ==> Slept(delays[i], i - |old(delays)| + 1, draws)
      {
        if k > 0 {
          if Panics(k) {
            return Panicked;
          }
          if waits[k].Done? {
            return Cancelled;
          }
          delays := delays + [Backoff(k, draws[k] % Ceiling(k))];
        }
        var err := RunOnce(k, script[k]);
        if !err.Failed? || !Retryable(err.error) {
          return err;
        }
        last := Some(err.error);
        k := k + 1;
      }
      return Exhausted(last);
    }
  }
}
