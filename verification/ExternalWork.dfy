// Idempotency for work outside the database: claim, work and completion are three separate steps,
// and a process may die between any two of them.
module ExternalWork {
  import opened Prelude
  import opened Schema

  type Rid = nat  // a request, numbered in order of arrival

  datatype Response = Response(status: int, body: string)

  // `owner` is history: the request whose claim inserted the row.
  datatype Row = Row(hash: string, done: Option<Response>, owner: Rid)

  type Rows = map<Key, Row>

  // ----- idempotency_records -----

  function Claimed(rows: Rows, k: Key, hash: string, r: Rid): Rows {
    if k in rows then rows else rows[k := Row(hash, None, r)]
  }

  // UPDATE ... WHERE scope and key match: whatever the state.
  function Finished(rows: Rows, k: Key, response: Response): Rows {
    if k in rows then rows[k := rows[k].(done := Some(response))] else rows
  }

  // DELETE ... WHERE the state is in_progress.
  function Discarded(rows: Rows, k: Key): Rows {
    if k in rows && rows[k].done.None? then rows - {k} else rows
  }

  // ----- one request -----

  datatype Phase = Claiming | Working | Worked(response: Response) | Broken

  // `claimed` is the handler's local variable, which every attempt of the claim transaction shares.
  datatype Request = Request(key: Key, hash: string, claimed: bool, phase: Phase)

  datatype Verdict = KeyConflict | KeyBusy | Go(claimed: bool, replay: Option<Response>)

  // The claim transaction's closure.
  function Closure(rows: Rows, q: Request): Verdict {
    if q.key !in rows then Go(true, None)
    else if rows[q.key].hash != q.hash then KeyConflict
    else if rows[q.key].done.None? then KeyBusy
    else Go(q.claimed, rows[q.key].done)
  }

  // ----- runs -----

  datatype Reply = Reply(key: Key, hash: string, response: Response)
  datatype Success = Success(key: Key, r: Rid)

  // `stale`, `successes` and `replies` are history; `stale` holds the requests that made a stale claim.
  datatype State = State(rows: Rows, live: map<Rid, Request>, next: Rid, stale: set<Rid>, successes: seq<Success>,
                         replies: seq<Reply>)

  const START := State(map[], map[], 0, {}, [], [])

  /** ClaimRetries: the closure finished, and COMMIT was refused with a code InTx retries.
      ClaimLost: the claim committed or not, but the request got an error or died.
      CompleteLost and Discards too leave the database as `kept` says. */
  datatype Move =
    | Arrive(key: Key, hash: string)
    | ClaimCommits(r: Rid)
    | ClaimRetries(r: Rid)
    | ClaimLost(r: Rid, kept: bool)
    | WorkEnds(r: Rid, result: Option<Response>)
    | Completes(r: Rid)
    | CompleteLost(r: Rid, kept: bool)
    | Discards(r: Rid, kept: bool)
    | Dies(r: Rid)

  predicate Enabled(m: State, mv: Move) {
    match mv
    case Arrive(_, _) => true
    case ClaimCommits(r) => r in m.live && m.live[r].phase.Claiming?
    case ClaimRetries(r) => r in m.live && m.live[r].phase.Claiming?
    case ClaimLost(r, _) => r in m.live && m.live[r].phase.Claiming?
    case WorkEnds(r, _) => r in m.live && m.live[r].phase.Working?
    case Completes(r) => r in m.live && m.live[r].phase.Worked?
    case CompleteLost(r, _) => r in m.live && m.live[r].phase.Worked?
    case Discards(r, _) => r in m.live && m.live[r].phase.Broken?
    case Dies(r) => r in m.live
  }

  function Ends(m: State, r: Rid): State {
    m.(live := m.live - {r})
  }

  function Enters(m: State, r: Rid, phase: Phase): State
    requires r in m.live
  {
    m.(live := m.live[r := m.live[r].(phase := phase)])
  }

  // The failing branch: a finished row of the request's own hash, and `claimed` still set by an
  // attempt that was rolled back.
  predicate FindsStale(rows: Rows, q: Request) {
    q.claimed && q.key in rows && rows[q.key].hash == q.hash && rows[q.key].done.Some?
  }

  predicate StaleClaim(m: State, mv: Move) {
    mv.ClaimCommits? && Enabled(m, mv) && FindsStale(m.rows, m.live[mv.r])
  }

  function ClaimStep(m: State, r: Rid): State
    requires r in m.live
  {
    var q := m.live[r];
    match Closure(m.rows, q)
    case KeyConflict => Ends(m, r)
    case KeyBusy => Ends(m, r)
    case Go(claimed, replay) =>
      var m' := m.(rows := Claimed(m.rows, q.key, q.hash, r));
      if claimed then
        m'.(live := m.live[r := q.(claimed := true, phase := Working)],
            stale := if FindsStale(m.rows, q) then m.stale + {r} else m.stale)
      else Ends(if replay.Some? then m'.(replies := m.replies + [Reply(q.key, q.hash, replay.value)]) else m', r)
  }

  function WorkStep(m: State, r: Rid, result: Option<Response>): State
    requires r in m.live
  {
    match result
    case None => Enters(m, r, Broken)
    case Some(response) =>
      Enters(m, r, Worked(response)).(successes := m.successes + [Success(m.live[r].key, r)])
  }

  function FinishStep(m: State, r: Rid): State
    requires r in m.live && m.live[r].phase.Worked?
  {
    Ends(m.(rows := Finished(m.rows, m.live[r].key, m.live[r].phase.response)), r)
  }

  function Step(m: State, mv: Move): State {
    if !Enabled(m, mv) then m
    else match mv
    case Arrive(key, hash) => m.(live := m.live[m.next := Request(key, hash, false, Claiming)], next := m.next + 1)
    case ClaimCommits(r) => ClaimStep(m, r)
    case ClaimRetries(r) =>
      if Closure(m.rows, m.live[r]).Go? then
        m.(live := m.live[r := m.live[r].(claimed := Closure(m.rows, m.live[r]).claimed)])
      else m
    case ClaimLost(r, kept) =>
      Ends(if kept then m.(rows := Claimed(m.rows, m.live[r].key, m.live[r].hash, r)) else m, r)
    case WorkEnds(r, result) => WorkStep(m, r, result)
    case Completes(r) =>
      var q := m.live[r];
      FinishStep(m, r).(replies := m.replies + [Reply(q.key, q.hash, q.phase.response)])
    case CompleteLost(r, kept) => if kept then FinishStep(m, r) else Ends(m, r)
    case Discards(r, kept) => Ends(if kept then m.(rows := Discarded(m.rows, m.live[r].key)) else m, r)
    case Dies(r) => Ends(m, r)
  }

  function Run(moves: seq<Move>): State {
    if moves == [] then START else Step(Run(moves[..|moves| - 1]), moves[|moves| - 1])
  }

  // ----- the invariant -----

  predicate AtWork(q: Request) {
    !q.phase.Claiming?
  }

  // A request past its claim holds its own row, still in progress; one that made a stale claim
  // works on another's finished row.
  predicate RequestOk(m: State, r: Rid)
    requires r in m.live
  {
    var q := m.live[r];
    && r < m.next && (r in m.stale ==> AtWork(q))
    && (AtWork(q) && r !in m.stale ==> Holds(m.rows, q, r))
    && (AtWork(q) && r in m.stale ==> q.key in m.rows && m.rows[q.key].hash == q.hash && m.rows[q.key].done.Some?)
    && (q.phase.Worked? ==> Success(q.key, r) in m.successes)
  }

  predicate Holds(rows: Rows, q: Request, r: Rid) {
    q.key in rows && rows[q.key] == Row(q.hash, None, r)
  }

  // A row's owner never made a stale claim, and a finished row has its owner's success.
  predicate OwnerOk(m: State, k: Key)
    requires k in m.rows
  {
    var r := m.rows[k].owner;
    && r < m.next && r !in m.stale
    && (r in m.live ==> AtWork(m.live[r]) && m.live[r].key == k)
    && (m.rows[k].done.Some? ==> Success(k, r) in m.successes)
  }

  // Work that succeeded keeps its row: finished, held by its worker, or abandoned by a dead one.
  predicate SuccessOk(m: State, x: Success) {
    && x.r < m.next && x.key in m.rows
    && (x.r in m.stale ==> m.rows[x.key].done.Some?)
    && (x.r !in m.stale ==> m.rows[x.key].owner == x.r)
    && (x.r !in m.stale && m.rows[x.key].done.None? && x.r in m.live ==> m.live[x.r].phase.Worked?)
  }

  // Work on the key has succeeded for a request that made a stale claim.
  predicate StaleSuccess(m: State, k: Key) {
    exists r :: r in m.stale && Success(k, r) in m.successes
  }

  predicate ReplyOk(m: State, x: Reply) {
    && x.key in m.rows && m.rows[x.key].hash == x.hash && m.rows[x.key].done.Some?
    && (m.rows[x.key].done == Some(x.response) || StaleSuccess(m, x.key))
  }

  predicate OneStale(stale: set<Rid>, x: Success, y: Success) {
    x.key == y.key ==> x.r in stale || y.r in stale
  }

  predicate Inv(m: State) {
    && (forall r :: r in m.live ==> RequestOk(m, r))
    && (forall k :: k in m.rows ==> OwnerOk(m, k))
    && (forall i :: 0 <= i < |m.successes| ==> SuccessOk(m, m.successes[i]))
    && (forall i, j :: 0 <= i < j < |m.successes| ==> OneStale(m.stale, m.successes[i], m.successes[j]))
    && (forall i :: 0 <= i < |m.replies| ==> ReplyOk(m, m.replies[i]))
    && (forall r :: r in m.stale ==> r < m.next)
  }

  lemma EndKeeps(m: State, r: Rid)
    requires Inv(m) && r in m.live
    ensures Inv(Ends(m, r))
  {
  }

  lemma ArriveKeeps(m: State, mv: Move)
    requires Inv(m) && mv.Arrive?
    ensures Inv(Step(m, mv))
  {
  }

  lemma FreshClaimKeeps(m: State, r: Rid)
    requires Inv(m) && Enabled(m, ClaimCommits(r)) && m.live[r].key !in m.rows
    ensures Inv(ClaimStep(m, r))
  {
  }

  lemma StaleClaimKeeps(m: State, r: Rid)
    requires Inv(m) && Enabled(m, ClaimCommits(r)) && FindsStale(m.rows, m.live[r])
    ensures Inv(ClaimStep(m, r))
  {
  }

  lemma ReplayKeeps(m: State, r: Rid, x: Reply)
    requires Inv(m) && r in m.live && ReplyOk(m, x)
    ensures Inv(Ends(m.(replies := m.replies + [x]), r))
  {
  }

  lemma ClaimKeeps(m: State, r: Rid)
    requires Inv(m) && Enabled(m, ClaimCommits(r))
    ensures Inv(ClaimStep(m, r))
  {
    hide Inv;
    var q := m.live[r];
    if q.key !in m.rows {
      FreshClaimKeeps(m, r);
    } else if FindsStale(m.rows, q) {
      StaleClaimKeeps(m, r);
    } else if m.rows[q.key].hash == q.hash && m.rows[q.key].done.Some? {
      ReplayKeeps(m, r, Reply(q.key, q.hash, m.rows[q.key].done.value));
    } else {
      EndKeeps(m, r);
    }
  }

  lemma ClaimRetryKeeps(m: State, mv: Move)
    requires Inv(m) && Enabled(m, mv) && mv.ClaimRetries?
    ensures Inv(Step(m, mv))
  {
  }

  lemma ClaimLostKeeps(m: State, mv: Move)
    requires Inv(m) && Enabled(m, mv) && mv.ClaimLost?
    ensures Inv(Step(m, mv))
  {
    hide Inv;
    if mv.kept { AbandonedKeeps(m, mv.r); } else { EndKeeps(m, mv.r); }
  }

  lemma AbandonedKeeps(m: State, r: Rid)
    requires Inv(m) && Enabled(m, ClaimCommits(r))
    ensures Inv(Ends(m.(rows := Claimed(m.rows, m.live[r].key, m.live[r].hash, r)), r))
  {
    hide OneStale;
  }

  lemma WorkFailsKeeps(m: State, r: Rid)
    requires Inv(m) && Enabled(m, WorkEnds(r, None))
    ensures Inv(WorkStep(m, r, None))
  {
  }

  lemma WorkSucceedsKeeps(m: State, r: Rid, response: Response)
    requires Inv(m) && Enabled(m, WorkEnds(r, Some(response)))
    ensures Inv(WorkStep(m, r, Some(response)))
  {
    hide OneStale;
    forall i | 0 <= i < |m.successes| ensures OneStale(m.stale, m.successes[i], Success(m.live[r].key, r)) {
      WorkSucceedsOnce(m, r, m.successes[i]);
    }
  }

  lemma WorkSucceedsOnce(m: State, r: Rid, x: Success)
    requires r in m.live && m.live[r].phase.Working? && RequestOk(m, r) && SuccessOk(m, x)
    ensures OneStale(m.stale, x, Success(m.live[r].key, r))
  {
  }

  lemma FinishKeeps(m: State, r: Rid)
    requires Inv(m) && Enabled(m, Completes(r))
    ensures Inv(FinishStep(m, r))
  {
    hide RequestOk, SuccessOk, ReplyOk, OneStale;
    var m' := FinishStep(m, r);
    assert RequestOk(m, r);
    forall r' | r' in m'.live ensures RequestOk(m', r') { FinishKeepsRequest(m, r, r'); }
    forall i | 0 <= i < |m.successes| ensures SuccessOk(m', m.successes[i]) { FinishKeepsSuccess(m, r, m.successes[i]); }
    forall i | 0 <= i < |m.replies| ensures ReplyOk(m', m.replies[i]) { FinishKeepsReply(m, r, m.replies[i]); }
    forall k | k in m'.rows ensures OwnerOk(m', k) { FinishKeepsOwner(m, r, k); }
  }

  lemma FinishKeepsRequest(m: State, r: Rid, r': Rid)
    requires Enabled(m, Completes(r)) && RequestOk(m, r) && r' in m.live && r' != r && RequestOk(m, r')
    ensures RequestOk(FinishStep(m, r), r')
  {
  }

  lemma FinishKeepsSuccess(m: State, r: Rid, x: Success)
    requires Enabled(m, Completes(r)) && RequestOk(m, r) && SuccessOk(m, x)
    ensures SuccessOk(FinishStep(m, r), x)
  {
  }

  lemma FinishKeepsReply(m: State, r: Rid, x: Reply)
    requires Enabled(m, Completes(r)) && RequestOk(m, r) && ReplyOk(m, x)
    ensures ReplyOk(FinishStep(m, r), x)
  {
  }

  lemma FinishKeepsOwner(m: State, r: Rid, k: Key)
    requires Enabled(m, Completes(r)) && RequestOk(m, r) && k in m.rows && OwnerOk(m, k)
    ensures OwnerOk(FinishStep(m, r), k)
  {
  }

  lemma CompleteKeeps(m: State, r: Rid)
    requires Inv(m) && Enabled(m, Completes(r))
    ensures Inv(Step(m, Completes(r)))
  {
    hide Inv;
    var q := m.live[r];
    FinishKeeps(m, r);
    AtWorkHasRow(m, r);
    ReplyKeeps(FinishStep(m, r), Reply(q.key, q.hash, q.phase.response));
  }

  lemma ReplyKeeps(m: State, x: Reply)
    requires Inv(m) && ReplyOk(m, x)
    ensures Inv(m.(replies := m.replies + [x]))
  {
  }

  lemma DiscardKeeps(m: State, r: Rid)
    requires Inv(m) && Enabled(m, Discards(r, true))
    ensures Inv(Step(m, Discards(r, true)))
  {
  }

  lemma AtWorkHasRow(m: State, r: Rid)
    requires Inv(m) && r in m.live && AtWork(m.live[r])
    ensures m.live[r].key in m.rows && m.rows[m.live[r].key].hash == m.live[r].hash
  {
    assert RequestOk(m, r);
  }

  lemma StepKeeps(m: State, mv: Move)
    requires Inv(m)
    ensures Inv(Step(m, mv))
  {
    hide Inv;
    if Enabled(m, mv) {
      match mv
      case Arrive(_, _) => ArriveKeeps(m, mv);
      case ClaimCommits(r) => ClaimKeeps(m, r);
      case ClaimRetries(_) => ClaimRetryKeeps(m, mv);
      case ClaimLost(_, _) => ClaimLostKeeps(m, mv);
      case WorkEnds(r, None) => WorkFailsKeeps(m, r);
      case WorkEnds(r, Some(response)) => WorkSucceedsKeeps(m, r, response);
      case Completes(r) => CompleteKeeps(m, r);
      case CompleteLost(r, kept) => if kept { FinishKeeps(m, r); } else { EndKeeps(m, r); }
      case Discards(r, kept) => if kept { DiscardKeeps(m, r); } else { EndKeeps(m, r); }
      case Dies(r) => EndKeeps(m, r);
    }
  }

  lemma {:induction false} RunKeepsInv(moves: seq<Move>)
    ensures Inv(Run(moves))
  {
    hide Inv, Step;
    if moves == [] {
      EmptyInv();
    } else {
      RunKeepsInv(moves[..|moves| - 1]);
      StepKeeps(Run(moves[..|moves| - 1]), moves[|moves| - 1]);
    }
  }

  lemma EmptyInv()
    ensures Inv(START)
  {
  }

  // ----- stale claims -----

  predicate ClaimedStaleAt(moves: seq<Move>, i: nat, r: Rid)
    requires i < |moves|
  {
    moves[i] == ClaimCommits(r) && StaleClaim(Run(moves[..i]), moves[i])
  }

  lemma StepStale(m: State, mv: Move, r: Rid)
    ensures r in Step(m, mv).stale <==> r in m.stale || (mv == ClaimCommits(r) && StaleClaim(m, mv))
  {
  }

  // The history field is what it says.
  lemma {:induction false} StaleExactly(moves: seq<Move>, r: Rid)
    ensures r in Run(moves).stale <==> exists i :: 0 <= i < |moves| && ClaimedStaleAt(moves, i, r)
  {
    hide Step, StaleClaim;
    if moves != [] {
      var n := |moves| - 1;
      var init := moves[..n];
      StaleExactly(init, r);
      StepStale(Run(init), moves[n], r);
      forall i | 0 <= i < n ensures ClaimedStaleAt(moves, i, r) <==> ClaimedStaleAt(init, i, r) {
        assert init[..i] == moves[..i];
      }
      assert ClaimedStaleAt(moves, n, r) <==> moves[n] == ClaimCommits(r) && StaleClaim(Run(init), moves[n]);
    }
  }

  // The guard a caller could check: no committed claim finds a finished row with `claimed` still set.
  predicate NoStaleClaim(moves: seq<Move>) {
    forall i :: 0 <= i < |moves| ==> !StaleClaim(Run(moves[..i]), moves[i])
  }

  lemma NoneStale(moves: seq<Move>)
    requires NoStaleClaim(moves)
    ensures Run(moves).stale == {}
  {
    forall r ensures r !in Run(moves).stale {
      StaleExactly(moves, r);
    }
  }

  // ----- what it gives, over every run -----

  /** A request at work on a claim that was not stale holds its own row, in progress, and is the only
      one at work on its key: two requests at work on one key both made stale claims. */
  lemma OneWorker(moves: seq<Move>, r: Rid, q: Rid)
    requires var live := Run(moves).live;
      r in live && q in live && AtWork(live[r]) && AtWork(live[q]) && live[r].key == live[q].key
    ensures r !in Run(moves).stale ==> r == q && Holds(Run(moves).rows, Run(moves).live[r], r)
    ensures NoStaleClaim(moves) ==> r == q && Holds(Run(moves).rows, Run(moves).live[r], r)
  {
    RunKeepsInv(moves);
    assert RequestOk(Run(moves), r) && RequestOk(Run(moves), q);
    if NoStaleClaim(moves) { NoneStale(moves); }
  }

  predicate OnceFor(done: seq<Success>, k: Key) {
    forall i, j :: 0 <= i < j < |done| ==> !(done[i].key == k && done[j].key == k)
  }

  /** Exactly when work on a key succeeds at most once, whatever dies in between: when no request
      that made a stale claim has its work on the key succeed. */
  lemma WorksOnceExactly(moves: seq<Move>, k: Key)
    ensures OnceFor(Run(moves).successes, k) <==> !StaleSuccess(Run(moves), k)
    ensures NoStaleClaim(moves) ==> OnceFor(Run(moves).successes, k)
  {
    RunKeepsInv(moves);
    OnceInInv(Run(moves), k);
    if NoStaleClaim(moves) { NoneStale(moves); }
  }

  lemma OnceInInv(m: State, k: Key)
    requires Inv(m)
    ensures OnceFor(m.successes, k) <==> !StaleSuccess(m, k)
  {
    if StaleSuccess(m, k) {
      var r :| r in m.stale && Success(k, r) in m.successes;
      var i :| 0 <= i < |m.successes| && m.successes[i] == Success(k, r);
      assert SuccessOk(m, m.successes[i]) && OwnerOk(m, k);
      var j :| 0 <= j < |m.successes| && m.successes[j] == Success(k, m.rows[k].owner);
      assert i < j || j < i;
    } else {
      forall i, j | 0 <= i < j < |m.successes| && m.successes[i].key == k && m.successes[j].key == k
        ensures OneStale(m.stale, m.successes[i], m.successes[j])
        ensures m.successes[i] == Success(k, m.successes[i].r) && m.successes[i] in m.successes
        ensures m.successes[j] == Success(k, m.successes[j].r) && m.successes[j] in m.successes
      {
      }
    }
  }

  /** Every response given for a key is the one stored for it, so all agree, unless a stale claim's
      work has succeeded and overwritten it. */
  lemma RepliesAgree(moves: seq<Move>, i: nat, j: nat)
    requires i < |Run(moves).replies| && j < |Run(moves).replies|
    requires Run(moves).replies[i].key == Run(moves).replies[j].key && !StaleSuccess(Run(moves), Run(moves).replies[i].key)
    ensures Run(moves).replies[i] == Run(moves).replies[j]
  {
    RunKeepsInv(moves);
    var m := Run(moves);
    assert ReplyOk(m, m.replies[i]) && ReplyOk(m, m.replies[j]);
  }

  /** Once work on a key has succeeded, only a request that made a stale claim is ever at it again,
      even if the process died before completing; and a claim goes to work exactly if it is stale. */
  lemma NeverAgain(moves: seq<Move>, i: nat, r: Rid)
    requires i < |Run(moves).successes|
    requires r in Run(moves).live && Run(moves).live[r].key == Run(moves).successes[i].key
    ensures Run(moves).live[r].phase.Working? || Run(moves).live[r].phase.Broken? ==> r in Run(moves).stale
    ensures Run(moves).live[r].phase.Claiming? ==>
      (r in Step(Run(moves), ClaimCommits(r)).live <==> StaleClaim(Run(moves), ClaimCommits(r)))
  {
    RunKeepsInv(moves);
    var m := Run(moves);
    assert SuccessOk(m, m.successes[i]) && RequestOk(m, r);
  }

  // ----- completed records -----

  predicate SameRecord(before: Row, after: Row) {
    after.hash == before.hash && after.owner == before.owner && after.done.Some?
  }

  lemma CompletedOn(m: State, mv: Move, k: Key)
    requires Inv(m) && k in m.rows && m.rows[k].done.Some?
    ensures k in Step(m, mv).rows && SameRecord(m.rows[k], Step(m, mv).rows[k])
    ensures Step(m, mv).rows[k] == m.rows[k] || StaleSuccess(m, k)
    ensures StaleSuccess(m, k) ==> StaleSuccess(Step(m, mv), k)
  {
    hide StaleSuccess;
    if Enabled(m, mv) && !mv.Arrive? {
      assert RequestOk(m, mv.r);
      if m.live[mv.r].phase.Worked? && mv.r in m.stale { WorkedStale(m, mv.r); }
    }
    StaleSuccessStays(m, mv, k);
  }

  lemma WorkedStale(m: State, r: Rid)
    requires r in m.live && RequestOk(m, r) && m.live[r].phase.Worked? && r in m.stale
    ensures StaleSuccess(m, m.live[r].key)
  {
  }

  lemma StaleSuccessStays(m: State, mv: Move, k: Key)
    ensures StaleSuccess(m, k) ==> StaleSuccess(Step(m, mv), k)
  {
    if StaleSuccess(m, k) {
      var r :| r in m.stale && Success(k, r) in m.successes;
      assert r in Step(m, mv).stale && Success(k, r) in Step(m, mv).successes;
    }
  }

  /** A completed record is never withdrawn, in any run, and its response changes only if a stale
      claim's work has succeeded. */
  lemma {:induction false} CompletedStays(moves: seq<Move>, i: nat, k: Key)
    requires i <= |moves|
    requires k in Run(moves[..i]).rows && Run(moves[..i]).rows[k].done.Some?
    ensures k in Run(moves).rows && SameRecord(Run(moves[..i]).rows[k], Run(moves).rows[k])
    ensures !StaleSuccess(Run(moves), k) ==> Run(moves).rows[k] == Run(moves[..i]).rows[k]
  {
    hide Inv, Step;
    if i == |moves| {
      assert moves[..i] == moves;
    } else {
      var init := moves[..|moves| - 1];
      assert init[..i] == moves[..i];
      CompletedStays(init, i, k);
      RunKeepsInv(init);
      CompletedOn(Run(init), moves[|moves| - 1], k);
    }
  }

  // ----- what the guard rules out -----

  lemma RunAppend(moves: seq<Move>, mv: Move)
    ensures Run(moves + [mv]) == Step(Run(moves), mv)
  {
    hide Step;
    assert (moves + [mv])[..|moves|] == moves;
  }

  lemma RunAppendTwo(moves: seq<Move>, mv: Move, mw: Move)
    ensures Run(moves + [mv, mw]) == Step(Step(Run(moves), mv), mw)
  {
    hide Step, Run;
    RunAppend(moves, mv);
    RunAppend(moves + [mv], mw);
    assert moves + [mv] + [mw] == moves + [mv, mw];
  }

  function Arrivals(k: Key, hash: string): seq<Move> {
    [] + [Arrive(k, hash), Arrive(k, hash)]
  }

  function RolledBack(k: Key, hash: string): seq<Move> {
    Arrivals(k, hash) + [ClaimRetries(0), ClaimCommits(1)]
  }

  function OneDone(k: Key, hash: string, a: Response): seq<Move> {
    RolledBack(k, hash) + [WorkEnds(1, Some(a)), Completes(1)]
  }

  lemma AfterArrivals(k: Key, hash: string)
    ensures Run(Arrivals(k, hash)) ==
      State(map[], map[0 := Request(k, hash, false, Claiming), 1 := Request(k, hash, false, Claiming)], 2, {}, [], [])
  {
    RunAppendTwo([], Arrive(k, hash), Arrive(k, hash));
  }

  lemma AfterRollback(k: Key, hash: string)
    ensures Run(RolledBack(k, hash)) ==
      State(map[k := Row(hash, None, 1)],
            map[0 := Request(k, hash, true, Claiming), 1 := Request(k, hash, true, Working)], 2, {}, [], [])
  {
    hide Run;
    AfterArrivals(k, hash);
    RunAppendTwo(Arrivals(k, hash), ClaimRetries(0), ClaimCommits(1));
    var m := Step(Run(Arrivals(k, hash)), ClaimRetries(0));
    var m' := Step(m, ClaimCommits(1));
    assert m'.rows == map[k := Row(hash, None, 1)];
    assert m'.live == map[0 := Request(k, hash, true, Claiming), 1 := Request(k, hash, true, Working)];
  }

  lemma AfterOne(k: Key, hash: string, a: Response)
    ensures Run(OneDone(k, hash, a)) ==
      State(map[k := Row(hash, Some(a), 1)], map[0 := Request(k, hash, true, Claiming)], 2, {},
            [Success(k, 1)], [Reply(k, hash, a)])
  {
    hide Run;
    AfterRollback(k, hash);
    RunAppendTwo(RolledBack(k, hash), WorkEnds(1, Some(a)), Completes(1));
  }

  /** Without the guard all of this fails: request 0's claim is rolled back at COMMIT, request 1
      claims, works and completes, and request 0's second attempt finds the completed record, keeps
      the `claimed` its first attempt set, works again and overwrites the stored response. */
  lemma RetriedClaimWorksTwice(k: Key, hash: string, a: Response, b: Response)
    ensures var m := Run(OneDone(k, hash, a) + [ClaimCommits(0), WorkEnds(0, Some(b))] + [Completes(0)]);
      m.successes == [Success(k, 1), Success(k, 0)] && k in m.rows && m.rows[k].done == Some(b)
  {
    hide Run;
    AfterOne(k, hash, a);
    RunAppendTwo(OneDone(k, hash, a), ClaimCommits(0), WorkEnds(0, Some(b)));
    RunAppend(OneDone(k, hash, a) + [ClaimCommits(0), WorkEnds(0, Some(b))], Completes(0));
  }

  // ----- the code -----

  class RecordTable {
    var rows: Rows

    constructor ()
      ensures rows == map[]
    {
      rows := map[];
    }

    // None when the row was inserted, otherwise the row already there.
    method Claim(k: Key, hash: string, r: Rid) returns (existing: Option<Row>)
      modifies this
      ensures existing == if k in old(rows) then Some(old(rows)[k]) else None
      ensures rows == Claimed(old(rows), k, hash, r)
    {
      if k !in rows {
        rows := rows[k := Row(hash, None, r)];
        return None;
      }
      return Some(rows[k]);
    }

    method Complete(k: Key, response: Response)
      modifies this
      ensures rows == Finished(old(rows), k, response)
    {
      if k in rows {
        rows := rows[k := rows[k].(done := Some(response))];
      }
    }

    method Discard(k: Key)
      modifies this
      ensures rows == Discarded(old(rows), k)
    {
      if k in rows && rows[k].done.None? {
        rows := rows - {k};
      }
    }
  }

  datatype Answer = Answered(response: Response) | Refused(verdict: Verdict) | Failed

  /** One request alone: `retries` times COMMIT refuses the claim and InTx runs the closure again,
      `result` is what the work gives, and `stored` whether completing it commits. */
  method RunExternalIdempotent(t: RecordTable, q: Request, r: Rid, retries: nat, result: Option<Response>, stored: bool)
    returns (answer: Answer, worked: bool)
    requires !q.claimed && q.phase.Claiming?
    modifies t
    ensures worked <==> q.key !in old(t.rows)
    ensures !worked ==> t.rows == old(t.rows)
    ensures worked && result.None? ==> t.rows == old(t.rows) && answer == Failed
    ensures worked && result.Some? ==>
      t.rows == old(t.rows)[q.key := Row(q.hash, if stored then result else None, r)]
      && answer == if stored then Answered(result.value) else Failed
    ensures !worked && old(t.rows)[q.key].hash != q.hash ==> answer == Refused(KeyConflict)
    ensures !worked && old(t.rows)[q.key].hash == q.hash ==>
      answer == if old(t.rows)[q.key].done.None? then Refused(KeyBusy) else Answered(old(t.rows)[q.key].done.value)
  {
    var claimed, replay := false, None;
    var n := 0;
    while n <= retries
      invariant n <= retries + 1
      invariant n <= retries ==> t.rows == old(t.rows)
      invariant n > retries ==> t.rows == Claimed(old(t.rows), q.key, q.hash, r)
      invariant n > 0 ==> (claimed <==> q.key !in old(t.rows))
      invariant n == 0 ==> !claimed
      invariant n > 0 && q.key in old(t.rows) ==>
        old(t.rows)[q.key].hash == q.hash && old(t.rows)[q.key].done.Some? && replay == old(t.rows)[q.key].done
    {
      var before := t.rows;
      var existing := t.Claim(q.key, q.hash, r);
      if existing.None? {
        claimed := true;
      } else if existing.value.hash != q.hash {
        return Refused(KeyConflict), false;
      } else if existing.value.done.None? {
        return Refused(KeyBusy), false;
      } else {
        replay := existing.value.done;
      }
      if n < retries {
        t.rows := before;  // rolled back
      }
      n := n + 1;
    }
    if !claimed {
      return Answered(replay.value), false;
    }
    if result.None? {
      t.Discard(q.key);
      assert t.rows == old(t.rows);
      return Failed, true;
    }
    if !stored {
      return Failed, true;
    }
    t.Complete(q.key, result.value);
    return Answered(result.value), true;
  }
}
