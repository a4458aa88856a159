// The three mutating ledger endpoints: cache, then ledger, then cache again.
module Handlers {
  import opened Prelude
  import opened Schema
  import opened Sequential
  import opened Books
  import opened Guarantees
  import opened Cache
  import Effects
  import Service

  function ScopeOf(cmd: Command): string {
    match cmd
    case Create(_, _, _, _) => "POST /v1/accounts"
    case Transfer(_, _, _, _, _, _, _) => "POST /v1/transfers"
    case Reverse(_, _, _) => "POST /v1/transactions/reverse"
  }

  predicate Scoped(cmd: Command) {
    cmd.req.key.scope == ScopeOf(cmd)
  }

  lemma ScopeHasNoColon(cmd: Command)
    ensures ':' !in ScopeOf(cmd)
  {
  }

  // The Idempotency-Key header is required and has at most 255 characters.
  predicate KeyOk(key: string) {
    0 < |key| <= 255
  }

  // The ledger service: validation, then the transaction.
  function Serve(c: Call, s: Store): Outcome {
    if Valid(c.cmd) then Exec(c, s) else Outcome(EMPTY, Fail(InvalidRequest))
  }

  // replayFromCache, on a hit.
  function FromCache(req: Request, v: Cached): Answer {
    if v.hash != req.hash then Fail(Conflict) else Ok(v.status, v.body, true)
  }

  predicate Hit(c: Call, entries: map<string, Cached>, answers: bool) {
    KeyOk(c.cmd.req.key.key) && answers && CacheKey(c.cmd.req.key) in entries
  }

  function Handle(c: Call, s: Store, entries: map<string, Cached>, answers: bool): Outcome {
    if !KeyOk(c.cmd.req.key.key) then Outcome(EMPTY, Fail(InvalidRequest))
    else if Hit(c, entries, answers) then
      Outcome(EMPTY, FromCache(c.cmd.req, entries[CacheKey(c.cmd.req.key)]))
    else Serve(c, s)
  }

  // ----- what the cache may hold -----

  predicate Matches(rec: Record, v: Cached) {
    rec.state == Completed(v.status, v.body) && rec.hash == v.hash
  }

  // A committed record stands behind the entry.
  ghost predicate Backed(s: Store, at: string, v: Cached) {
    exists k :: k in s.records && ':' !in k.scope && CacheKey(k) == at && Matches(s.records[k], v)
  }

  lemma BackedHere(s: Store, k: Key, v: Cached)
    requires Backed(s, CacheKey(k), v) && ':' !in k.scope
    ensures k in s.records && Matches(s.records[k], v)
  {
    var j :| j in s.records && ':' !in j.scope && CacheKey(j) == CacheKey(k) && Matches(s.records[j], v);
    CacheKeyIsInjective(j, k);
  }

  lemma StaysBacked(s: Store, s': Store, at: string, v: Cached)
    requires Backed(s, at, v) && KeepsRecords(s, s')
    ensures Backed(s', at, v)
  {
  }

  ghost predicate Coherent(s: Store, entries: map<string, Cached>) {
    forall at :: at in entries ==> Backed(s, at, entries[at])
  }

  // ----- one request -----

  // On a hit the ledger would have changed nothing and, for a valid command, said the same.
  lemma HitIsExec(c: Call, s: Store, v: Cached)
    requires RecordsOk(s) && Scoped(c.cmd) && Backed(s, CacheKey(c.cmd.req.key), v)
    ensures Exec(c, s) == Outcome(EMPTY, FromCache(c.cmd.req, v))
    ensures FromCache(c.cmd.req, v) != Fail(InvalidRequest)
  {
    ScopeHasNoColon(c.cmd);
    BackedHere(s, c.cmd.req.key, v);
    assert RecordOk(s, s.records[c.cmd.req.key]);
  }

  /** The cache never changes what is committed, and it changes the answer exactly when it answers
      a command that validation would have refused. */
  lemma TransparentExactly(c: Call, s: Store, entries: map<string, Cached>, answers: bool)
    requires RecordsOk(s) && Coherent(s, entries) && Scoped(c.cmd)
    ensures Handle(c, s, entries, answers).delta == Handle(c, s, map[], false).delta
    ensures Handle(c, s, entries, answers).answer == Handle(c, s, map[], false).answer
      <==> !Hit(c, entries, answers) || Valid(c.cmd)
  {
    hide RecordsOk, Exec, Valid, FromCache;
    if Hit(c, entries, answers) {
      HitIsExec(c, s, entries[CacheKey(c.cmd.req.key)]);
    }
  }

  // ----- which requests are invalid -----

  // Three upper-case letters.
  predicate Iso(currency: string) {
    |currency| == 3 && forall ch :: ch in currency ==> 'A' <= ch <= 'Z'
  }

  lemma IsoIsCurrency(currency: string)
    ensures Iso(currency) <==> IsCurrency(currency)
  {
    if |currency| == 3 {
      assert forall i :: 0 <= i < 3 ==> currency[i] in currency;
      assert forall ch :: ch in currency ==> exists i :: 0 <= i < 3 && currency[i] == ch;
    }
  }

  // What is wrong with a command, whether it shows at once or in the ledger.
  predicate Faulty(cmd: Command, s: Store) {
    match cmd
    case Create(_, _, textOk, a) => !textOk || !Iso(a.currency) || (a.overdraft && !a.system)
    case Transfer(_, source, dest, amount, currency, description, reference) =>
      source == 0 || dest == 0 || source == dest || amount <= 0 || !Iso(currency) || |description| > 512 || |reference| > 256
    case Reverse(req, target, _) =>
      target.NoTarget? || (req.key !in s.records && (target.NotUuid? || (target.id in s.txns && s.txns[target.id].kind == ReversalKind)))
  }

  /** Exactly which requests are answered as invalid: those whose idempotency key is missing or longer
      than 255 characters, and, unless the cache answers, faulty commands. */
  lemma InvalidExactly(c: Call, s: Store, entries: map<string, Cached>, answers: bool)
    requires Sound(s) && Coherent(s, entries) && Scoped(c.cmd) && Fresh(c, s)
    ensures Handle(c, s, entries, answers).answer == Fail(InvalidRequest)
      <==> |c.cmd.req.key.key| == 0 || |c.cmd.req.key.key| > 255
           || (!(answers && CacheKey(c.cmd.req.key) in entries) && Faulty(c.cmd, s))
  {
    hide Sound, Exec, Coherent, Fresh, Valid, Faulty;
    if Hit(c, entries, answers) {
      SoundRecords(s);
      assert Backed(s, CacheKey(c.cmd.req.key), entries[CacheKey(c.cmd.req.key)]) by { CoherentAt(s, entries, CacheKey(c.cmd.req.key)); }
      HitIsExec(c, s, entries[CacheKey(c.cmd.req.key)]);
    } else {
      InvalidServed(c, s);
    }
  }

  lemma CoherentAt(s: Store, entries: map<string, Cached>, at: string)
    requires Coherent(s, entries) && at in entries
    ensures Backed(s, at, entries[at])
  {
  }

  lemma InvalidServed(c: Call, s: Store)
    requires Sound(s) && Fresh(c, s)
    ensures Serve(c, s).answer == Fail(InvalidRequest) <==> Faulty(c.cmd, s)
  {
    hide Sound, Exec, Fresh, IsCurrency, Iso;
    if c.cmd.Create? { IsoIsCurrency(c.cmd.account.currency); }
    if c.cmd.Transfer? { IsoIsCurrency(c.cmd.currency); }
    if Valid(c.cmd) {
      if c.cmd.req.key in s.records {
        ReplayIsValid(c, s);
      } else {
        match c.cmd
        case Create(_, _, _, _) => Effects.CreateOpens(c, s);
        case Transfer(_, _, _, _, _, _, _) => Effects.TransferRefusals(c, s);
        case Reverse(_, _, _) => Effects.ReverseRefusals(c, s);
      }
    }
  }

  lemma ReplayIsValid(c: Call, s: Store)
    requires c.cmd.req.key in s.records
    ensures Exec(c, s).answer != Fail(InvalidRequest)
  {
  }

  /** Two endpoints never share a cached or stored response, whatever keys their clients choose. */
  lemma EndpointsAreApart(c: Command, d: Command)
    requires Scoped(c) && Scoped(d) && CacheKey(c.req.key) == CacheKey(d.req.key)
    ensures c.req.key.key == d.req.key.key
    ensures (c.Create? <==> d.Create?) && (c.Transfer? <==> d.Transfer?) && (c.Reverse? <==> d.Reverse?)
  {
    ScopeHasNoColon(c);
    ScopeHasNoColon(d);
    CacheKeyIsInjective(c.req.key, d.req.key);
  }

  // ----- whole runs -----

  /** A request is served; a response waiting to be cached lands, at any later time and any number
      of times; Redis loses an entry. */
  datatype Move = Serving(call: Call, answers: bool) | Land(at: string, v: Cached) | Lose(at: string)

  datatype State = State(store: Store, entries: map<string, Cached>, puts: set<(string, Cached)>, answers: seq<Answer>)

  function Puts(c: Call, answer: Answer): set<(string, Cached)> {
    if answer.Ok? then {(CacheKey(c.cmd.req.key), Cached(answer.status, answer.body, c.cmd.req.hash))} else {}
  }

  function ServeMove(m: State, c: Call, answers: bool): State {
    var o := Handle(c, m.store, m.entries, answers);
    State(Overlay(m.store, o.delta), m.entries,
          if Hit(c, m.entries, answers) then m.puts else m.puts + Puts(c, o.answer), m.answers + [o.answer])
  }

  function Step(m: State, mv: Move): State {
    match mv
    case Serving(c, answers) => ServeMove(m, c, answers)
    case Land(at, v) => if (at, v) in m.puts then m.(entries := m.entries[at := v]) else m
    case Lose(at) => m.(entries := m.entries - {at})
  }

  function Run(moves: seq<Move>): State {
    if moves == [] then State(EMPTY, map[], {}, [])
    else Step(Run(moves[..|moves| - 1]), moves[|moves| - 1])
  }

  // The same requests with Redis down throughout.
  function Uncached(mv: Move): Move {
    if mv.Serving? then Serving(mv.call, false) else Lose("")
  }

  function WithoutCache(moves: seq<Move>): (r: seq<Move>)
    ensures |r| == |moves| && forall i :: 0 <= i < |moves| ==> r[i] == Uncached(moves[i])
  {
    seq(|moves|, i requires 0 <= i < |moves| => Uncached(moves[i]))
  }

  ghost predicate Admissible(moves: seq<Move>) {
    moves == [] ||
    (Admissible(moves[..|moves| - 1]) && Acceptable(moves[|moves| - 1], Run(moves[..|moves| - 1]).store))
  }

  ghost predicate Acceptable(mv: Move, s: Store) {
    mv.Serving? ==> Scoped(mv.call.cmd) && Fresh(mv.call, s)
  }

  // Whether some request was answered from the cache although validation would have refused it.
  predicate InvalidHit(moves: seq<Move>) {
    moves != [] && (InvalidHit(moves[..|moves| - 1]) || InvalidHitAt(Run(moves[..|moves| - 1]), moves[|moves| - 1]))
  }

  predicate InvalidHitAt(m: State, mv: Move) {
    mv.Serving? && Hit(mv.call, m.entries, mv.answers) && !Valid(mv.call.cmd)
  }

  ghost predicate Backing(m: State) {
    && Sound(m.store) && Coherent(m.store, m.entries)
    && forall p :: p in m.puts ==> Backed(m.store, p.0, p.1)
  }

  lemma ServeKeepsBacking(m: State, c: Call, answers: bool)
    requires Backing(m) && Scoped(c.cmd) && Fresh(c, m.store)
    ensures Backing(ServeMove(m, c, answers))
  {
    hide Sound, Exec, Overlay, Valid, Fresh, Backed;
    var m' := ServeMove(m, c, answers);
    OverlayEmpty(m.store);
    if !KeyOk(c.cmd.req.key.key) || Hit(c, m.entries, answers) || !Valid(c.cmd) {
      assert m'.store == m.store;
    } else {
      ExecKeepsSound(c, m.store);
      AfterKeepsRecords(c, m.store);
      forall at, v | Backed(m.store, at, v) ensures Backed(m'.store, at, v) {
        StaysBacked(m.store, m'.store, at, v);
      }
      OkIsBacked(c, m.store);
    }
  }

  lemma OkIsBacked(c: Call, s: Store)
    requires Scoped(c.cmd)
    ensures forall p :: p in Puts(c, Exec(c, s).answer) ==> Backed(After(c, s), p.0, p.1)
  {
    hide Exec, Overlay;
    if Exec(c, s).answer.Ok? {
      OkStored(c, s);
      ScopeHasNoColon(c.cmd);
    }
  }

  lemma {:induction false} RunKeepsBacking(moves: seq<Move>)
    requires Admissible(moves)
    ensures Backing(Run(moves))
  {
    hide Sound, ServeMove, Backed, Fresh;
    if moves == [] {
      EmptySound();
    } else {
      var m, mv := Run(moves[..|moves| - 1]), moves[|moves| - 1];
      RunKeepsBacking(moves[..|moves| - 1]);
      if mv.Serving? {
        ServeKeepsBacking(m, mv.call, mv.answers);
      } else if mv.Land? && (mv.at, mv.v) in m.puts {
        assert Backed(m.store, mv.at, mv.v);
      }
    }
  }

  /** Whatever Redis loses, delays or withholds, the ledger ends up the same as without it, and the
      answers are the same exactly when no refused command was answered from the cache. */
  lemma {:induction false} CacheIsTransparent(moves: seq<Move>)
    requires Admissible(moves)
    ensures Run(moves).store == Run(WithoutCache(moves)).store
    ensures Run(moves).answers == Run(WithoutCache(moves)).answers <==> !InvalidHit(moves)
    ensures |Run(moves).answers| == |Run(WithoutCache(moves)).answers|
    ensures forall at :: at in Run(moves).entries ==> Backed(Run(moves).store, at, Run(moves).entries[at])
  {
    hide Sound, Handle, Hit, Valid, Fresh, Backed, Overlay;
    RunKeepsBacking(moves);
    if moves != [] {
      var init, last := moves[..|moves| - 1], moves[|moves| - 1];
      CacheIsTransparent(init);
      assert WithoutCache(moves)[..|moves| - 1] == WithoutCache(init);
      RunKeepsBacking(init);
      var m, n := Run(init), Run(WithoutCache(init));
      if last.Serving? {
        SoundRecords(m.store);
        TransparentExactly(last.call, m.store, m.entries, last.answers);
        NoAnswerNoHit(last.call, m.store, n.entries);
        AppendEqual(m.answers, n.answers, Handle(last.call, m.store, m.entries, last.answers).answer,
                    Handle(last.call, m.store, map[], false).answer);
      }
    }
  }

  lemma SoundRecords(s: Store)
    requires Sound(s)
    ensures RecordsOk(s)
  {
  }

  lemma NoAnswerNoHit(c: Call, s: Store, entries: map<string, Cached>)
    ensures Handle(c, s, entries, false) == Handle(c, s, map[], false)
  {
  }

  lemma AppendEqual(x: seq<Answer>, y: seq<Answer>, a: Answer, b: Answer)
    requires |x| == |y|
    ensures x + [a] == y + [b] <==> x == y && a == b
  {
    if x + [a] == y + [b] {
      assert x == (x + [a])[..|x|] && y == (y + [b])[..|y|];
      assert a == (x + [a])[|x|] && b == (y + [b])[|y|];
    }
  }

  // ----- hits do skip validation -----

  lemma RunAppend(moves: seq<Move>, mv: Move)
    ensures Run(moves + [mv]) == Step(Run(moves), mv)
    ensures Admissible(moves + [mv]) <==> Admissible(moves) && Acceptable(mv, Run(moves).store)
    ensures InvalidHit(moves + [mv]) <==> InvalidHit(moves) || InvalidHitAt(Run(moves), mv)
  {
    hide Step, Run, Acceptable, InvalidHitAt;
    assert (moves + [mv])[..|moves|] == moves;
    RunSnoc(moves + [mv]);
  }

  lemma RunSnoc(moves: seq<Move>)
    requires moves != []
    ensures Run(moves) == Step(Run(moves[..|moves| - 1]), moves[|moves| - 1])
  {
  }

  // Serve a command, let its response land in the cache, then send another with the same key.
  function SentAgain(moves: seq<Move>, c: Call, bad: Call): seq<Move> {
    var answer := Handle(c, Run(moves).store, Run(moves).entries, false).answer;
    moves + [Serving(c, false)]
      + [if answer.Ok? then Land(CacheKey(c.cmd.req.key), Cached(answer.status, answer.body, c.cmd.req.hash)) else Lose("")]
      + [Serving(bad, true)]
  }

  /** After any run, once a command has succeeded and its response has landed, an invalid command sent
      with its key is answered from the cache, and differently from what the ledger would say. */
  lemma InvalidCommandHits(moves: seq<Move>, c: Call, bad: Call)
    requires Admissible(moves) && Scoped(c.cmd) && Fresh(c, Run(moves).store)
    requires Handle(c, Run(moves).store, Run(moves).entries, false).answer.Ok?
    requires Scoped(bad.cmd) && !Valid(bad.cmd) && bad.cmd.req.key == c.cmd.req.key
    requires Fresh(bad, Overlay(Run(moves).store, Handle(c, Run(moves).store, Run(moves).entries, false).delta))
    ensures var all := SentAgain(moves, c, bad);
      Admissible(all) && InvalidHit(all) && Run(all).answers != Run(WithoutCache(all)).answers
  {
    hide Run, Exec, Overlay, Valid, Fresh, Scoped, Backed, Admissible, InvalidHit;
    var answer := Handle(c, Run(moves).store, Run(moves).entries, false).answer;
    var at, v := CacheKey(c.cmd.req.key), Cached(answer.status, answer.body, c.cmd.req.hash);
    var served := moves + [Serving(c, false)];
    RunAppend(moves, Serving(c, false));
    assert (at, v) in Run(served).puts;
    RunAppend(served, Land(at, v));
    RunAppend(served + [Land(at, v)], Serving(bad, true));
    CacheIsTransparent(SentAgain(moves, c, bad));
  }

  function CreateCall(key: string, id: AccountId, system: bool): Call {
    Call(Create(Request(Key("POST /v1/accounts", key), key), id, true, Account("USD", system, system, "")), 0, 0)
  }

  function PayCall(amount: int64, hash: string, txnId: Id): Call {
    Call(Transfer(Request(Key("POST /v1/transfers", "k"), hash), 1, 2, amount, "USD", "", ""), txnId, txnId)
  }

  const TWO_ACCOUNTS := [] + [Serving(CreateCall("a", 1, true), false)] + [Serving(CreateCall("b", 2, false), false)]

  lemma TwoAccountsOpen()
    ensures Admissible(TWO_ACCOUNTS)
    ensures var s := Run(TWO_ACCOUNTS).store;
      && s.accounts == map[1 := Account("USD", true, true, ""), 2 := Account("USD", false, false, "")]
      && s.balances == map[1 := Balance(0, 0, true), 2 := Balance(0, 0, false)]
      && s.txns == map[] && s.outbox == map[] && Key("POST /v1/transfers", "k") !in s.records
  {
    hide Run, Exec, Overlay, Admissible;
    var c, d := CreateCall("a", 1, true), CreateCall("b", 2, false);
    EmptyRun();
    RunAppend([], Serving(c, false));
    Effects.CreateOpens(c, EMPTY);
    RunAppend([] + [Serving(c, false)], Serving(d, false));
    Effects.CreateOpens(d, After(c, EMPTY));
  }

  lemma EmptyRun()
    ensures Run([]) == State(EMPTY, map[], {}, []) && Admissible([])
  {
  }

  /** A run that does it: open a system account and a user account, pay 5 with key "k", and when the
      response has been cached send a payment of nothing with the same key. */
  lemma HitsSkipValidation()
    ensures var all := SentAgain(TWO_ACCOUNTS, PayCall(5, "h", 0), PayCall(0, "g", 1));
      Admissible(all) && InvalidHit(all) && Run(all).answers != Run(WithoutCache(all)).answers
  {
    hide Run, Exec, Overlay, Admissible, InvalidHit, SentAgain, Sound;
    TwoAccountsOpen();
    RunKeepsBacking(TWO_ACCOUNTS);
    var c, s := PayCall(5, "h", 0), Run(TWO_ACCOUNTS).store;
    Effects.TransferSucceedsExactly(c, s);
    FreshAfter(c, s, PayCall(0, "g", 1));
    InvalidCommandHits(TWO_ACCOUNTS, c, PayCall(0, "g", 1));
  }

  // A payment adds only its own transaction and event.
  lemma FreshAfter(c: Call, s: Store, d: Call)
    requires c.cmd.Transfer? && s.txns == map[] && s.outbox == map[] && d.txnId != c.txnId && d.eventId != c.eventId
    requires c.cmd.req.key !in s.records
    ensures Fresh(d, After(c, s))
  {
    hide Apply, SortEntries, HeaderError, EntriesError, TriggerPasses, Refusal, Missing, Mirror, Gross, Select, LockOrder,
         Valid;
  }

  // ----- the code -----

  class Server {
    const cache: RedisCache
    const ledger: Service.Ledger

    constructor (cache: RedisCache, ledger: Service.Ledger)
      ensures this.cache == cache && this.ledger == ledger
    {
      this.cache, this.ledger := cache, ledger;
    }

    method ReplayFromCache(req: Request, answers: bool) returns (r: Option<Answer>)
      ensures r.Some? <==> cache.enabled && answers && CacheKey(req.key) in cache.entries
      ensures r.Some? ==> r.value == FromCache(req, cache.entries[CacheKey(req.key)])
    {
      var cached := cache.Get(req.key, answers);
      if cached.None? {
        return None;
      }
      if cached.value.hash != req.hash {
        return Some(Fail(Conflict));
      }
      return Some(Ok(cached.value.status, cached.value.body, true));
    }

    method CallLedger(c: Call) returns (answer: Answer)
      requires Fresh(c, ledger.store) && Sound(ledger.store)
      modifies ledger
      ensures answer == Serve(c, old(ledger.store)).answer
      ensures ledger.store == Overlay(old(ledger.store), Serve(c, old(ledger.store)).delta)
      ensures Sound(ledger.store)
    {
      hide Sound, Exec, Overlay, Valid, Fresh;
      OverlayEmpty(ledger.store);
      match c.cmd
      case Create(_, _, _, _) => answer := ledger.CreateAccount(c);
      case Transfer(_, _, _, _, _, _, _) => answer := ledger.Transfer(c, None);
      case Reverse(_, _, _) => answer := ledger.Reverse(c, None);
    }

    // Called after the commit, never before.
    method FinishIdempotent(req: Request, status: int, body: Body, accepted: bool)
      modifies cache`entries
      ensures cache.entries == if cache.enabled && accepted
        then old(cache.entries)[CacheKey(req.key) := Cached(status, body, req.hash)] else old(cache.entries)
    {
      cache.Put(req.key, Cached(status, body, req.hash), accepted);
    }

    // An endpoint handler keeps the cache coherent with the committed records.
    method HandleRequest(c: Call, answers: bool, accepted: bool) returns (answer: Answer)
      requires Scoped(c.cmd) && Fresh(c, ledger.store) && Sound(ledger.store) && Coherent(ledger.store, cache.entries)
      modifies ledger, cache`entries
      ensures answer == Handle(c, old(ledger.store), old(cache.entries), cache.enabled && answers).answer
      ensures ledger.store
        == Overlay(old(ledger.store), Handle(c, old(ledger.store), old(cache.entries), cache.enabled && answers).delta)
      ensures Sound(ledger.store) && Coherent(ledger.store, cache.entries)
    {
      hide Sound, Exec, Overlay, Valid, Fresh, Backed, Serve;
      ghost var m := State(ledger.store, cache.entries, {}, []);
      ServeKeepsBacking(m, c, cache.enabled && answers);
      OverlayEmpty(ledger.store);
      if !KeyOk(c.cmd.req.key.key) {
        return Fail(InvalidRequest);
      }
      var replayed := ReplayFromCache(c.cmd.req, answers);
      if replayed.Some? {
        return replayed.value;
      }
      answer := CallLedger(c);
      if answer.Ok? {
        FinishIdempotent(c.cmd.req, answer.status, answer.body, accepted);
        assert (CacheKey(c.cmd.req.key), Cached(answer.status, answer.body, c.cmd.req.hash)) in Puts(c, answer);
      }
    }
  }
}
