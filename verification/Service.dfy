// Transfer, Reverse and CreateAccount as the service runs them: one database transaction, statement
// by statement, with an injected failure possible at every failpoint.
module Service {
  import opened Prelude
  import opened Schema
  import opened Sequential
  import opened Books
  import opened Machine
  import opened Linearizable
  import opened Repository

  datatype Failpoint =
    | BeforeTxBegin | AfterAccountsLocked | AfterEntriesWritten | AfterBalancesUpdated
    | AfterOutboxWritten | BeforeCommit | AfterCommit

  // The failpoints a command passes on its way to COMMIT.
  predicate InTransaction(fault: Option<Failpoint>) {
    fault in {Some(AfterAccountsLocked), Some(AfterEntriesWritten), Some(AfterBalancesUpdated), Some(AfterOutboxWritten),
              Some(BeforeCommit)}
  }

  // Whether the command gets as far as the failure injected: before BEGIN every command does, and inside
  // the transaction at least every one that is new and would go through.
  predicate Stopped(c: Call, s: Store, fault: Option<Failpoint>) {
    fault == Some(BeforeTxBegin) || (InTransaction(fault) && c.cmd.req.key !in s.records && Exec(c, s).answer.Ok?)
  }

  // How a transaction closure ends: ready to commit, with an application error, or injected.
  datatype Closure = Ready(answer: Answer) | Refuse(error: Error) | Injected

  // The closure's verdict and write set are those of the sequential machine, up to the deferred
  // trigger that COMMIT still has to run.
  ghost predicate Faithful(c: Call, s: Store, w: Store, r: Closure) {
    match r
    case Injected => true
    case Refuse(e) => Exec(c, s) == Outcome(EMPTY, Fail(e))
    case Ready(answer) =>
      Exec(c, s) == if TriggersPass(s, w) then Outcome(w, answer) else Outcome(EMPTY, Fail(Internal))
  }

  // What one request may leave: nothing and an internal error, or exactly what Exec says.
  ghost predicate Atomic(c: Call, s: Store, s': Store, answer: Answer) {
    (s' == s && answer == Fail(Internal)) || (s' == After(c, s) && answer == Exec(c, s).answer)
  }

  lemma RefusalIsExec(c: Call, s: Store, p: Plan, e: Error)
    requires !c.cmd.Create? && c.cmd.req.key !in s.records && Prepare(c, s) == Go(p)
    requires Post(c.cmd.req, s, p) == Outcome(EMPTY, Fail(e))
    ensures Exec(c, s) == Outcome(EMPTY, Fail(e))
  {
  }

  lemma ReadyIsExec(c: Call, s: Store, p: Plan, w: Store)
    requires EntriesOk(s) && !c.cmd.Create? && c.cmd.req.key !in s.records && Prepare(c, s) == Go(p)
    requires PlanOk(c.cmd.req, s, p) && HeaderError(s.txns, s.oneReversal, p).None?
    requires RowsAllDone(s, p) && NotNoted(s, p)
    requires w == PlanDelta(c.cmd.req, p, RowsSoFar(s, p, |SortEntries(p.entries)|))
    ensures Faithful(c, s, w, Ready(Ok(201, PlanBody(p), false)))
  {
    hide EntriesOk, Prepare, TriggersPass, TriggerPasses;
    TriggersSeePlan(s, p, w);
  }

  // The steps Transfer and Reverse share, from the locked and checked plan to the stored response.
  method Write(tx: Tx, c: Call, p: Plan, fault: Option<Failpoint>) returns (r: Closure)
    requires Sound(tx.committed) && !c.cmd.Create? && c.cmd.req.key !in tx.committed.records
    requires Prepare(c, tx.committed) == Go(p) && PlanOk(c.cmd.req, tx.committed, p)
    requires tx.w == Claim(c.cmd.req)
    modifies tx`w
    ensures r != Injected ==> Faithful(c, tx.committed, tx.w, r)
    ensures fault.None? ==> r != Injected
    ensures r.Ready? ==> !InTransaction(fault) || fault == Some(AfterAccountsLocked)
  {
    hide Prepare, Faithful, PlanOk, Sound, HeaderError, EntriesError, SortEntries, Apply;
    ghost var s := tx.committed;
    PlusEmpty(s.txns);
    PlusEmpty(s.oneReversal);
    PlusEmpty(s.accounts);
    PlusOne(s.txns, p.id, p.txn);
    PlusEmpty(s.reversals);
    var err := tx.InsertTransaction(p);
    if err.Some? {
      PostRefuses(c, s, p, err.value, tx.w);
      return Refuse(err.value);
    }
    err := tx.InsertEntries(p.entries);
    if err.Some? {
      PostRefuses(c, s, p, err.value, tx.w);
      return Refuse(err.value);
    }
    if fault == Some(AfterEntriesWritten) { return Injected; }
    err := tx.ApplyBalances(p.entries);
    if err.Some? {
      PostRefuses(c, s, p, err.value, tx.w);
      return Refuse(err.value);
    }
    if fault == Some(AfterBalancesUpdated) { return Injected; }
    if p.txn.reverses.Some? {
      if p.txn.reverses.value in tx.committed.reversals + tx.w.reversals {
        PostRefuses(c, s, p, AlreadyReversed(p.txn.reverses.value), tx.w);
        return Refuse(AlreadyReversed(p.txn.reverses.value));
      }
      tx.w := tx.w.(reversals := map[p.txn.reverses.value := p.id]);
    }
    tx.w := tx.w.(outbox := map[p.eventId := p.event]);
    if fault == Some(AfterOutboxWritten) { return Injected; }
    r := Complete(tx, c, p);
    if fault == Some(BeforeCommit) { return Injected; }
  }

  lemma PostRefuses(c: Call, s: Store, p: Plan, e: Error, w: Store)
    requires !c.cmd.Create? && c.cmd.req.key !in s.records && Prepare(c, s) == Go(p)
    requires
      || HeaderError(s.txns, s.oneReversal, p) == Some(e)
      || (HeaderError(s.txns, s.oneReversal, p).None?
          && EntriesError(s.accounts, s.txns[p.id := p.txn], p.entries, |p.entries|) == Some(e))
      || (HeaderError(s.txns, s.oneReversal, p).None? && EntriesDone(s, p, |p.entries|)
          && Apply(s.balances, SortEntries(p.entries), |SortEntries(p.entries)|) == Broken(e))
      || (HeaderError(s.txns, s.oneReversal, p).None? && RowsAllDone(s, p) && !NotNoted(s, p)
          && e == AlreadyReversed(p.txn.reverses.value))
    ensures Faithful(c, s, w, Refuse(e))
  {
    hide Prepare;
    RefusalIsExec(c, s, p, e);
  }

  // Reload the transaction, render it, and complete the idempotency record with it.
  method Complete(tx: Tx, c: Call, p: Plan) returns (r: Closure)
    requires Sound(tx.committed) && !c.cmd.Create? && c.cmd.req.key !in tx.committed.records
    requires Prepare(c, tx.committed) == Go(p) && PlanOk(c.cmd.req, tx.committed, p)
    requires HeaderError(tx.committed.txns, tx.committed.oneReversal, p).None?
    requires RowsAllDone(tx.committed, p) && NotNoted(tx.committed, p)
    requires tx.w == Written(c.cmd.req, p, |p.entries|, RowsSoFar(tx.committed, p, |SortEntries(p.entries)|),
                             NewReversals(p), map[p.eventId := p.event])
    modifies tx`w
    ensures r.Ready? && Faithful(c, tx.committed, tx.w, r)
  {
    hide Prepare, Faithful, EntriesDone, RowsDone, EntriesOk, TxnsOk, ReversalsOk, SumsOk, RowsOk, NetOk, RecordsOk,
         OutboxOk, Load, Overlay, Apply, SortEntries, HeaderError, NotNoted, NewReversals;
    ghost var s := tx.committed;
    ReloadIsPlan(s, c.cmd.req, p, RowsSoFar(s, p, |SortEntries(p.entries)|));
    var body := Load(Overlay(tx.committed, tx.w), p.id);
    var req := c.cmd.req;
    tx.w := tx.w.(records := map[req.key := Record(req.hash, Completed(201, body), Some(p.id))]);
    assert p.entries[..|p.entries|] == p.entries;
    ReadyIsExec(c, s, p, tx.w);
    r := Ready(Ok(201, body, false));
  }

  // executeTransfer, with the claim already made.
  method ExecuteTransfer(tx: Tx, c: Call, fault: Option<Failpoint>) returns (r: Closure)
    requires Sound(tx.committed) && Valid(c.cmd) && Fresh(c, tx.committed)
    requires c.cmd.Transfer? && c.cmd.req.key !in tx.committed.records
    requires tx.w == Claim(c.cmd.req) && tx.locks == []
    modifies tx
    ensures r != Injected ==> Faithful(c, tx.committed, tx.w, r)
    ensures fault.None? ==> r != Injected
    ensures r.Ready? ==> !InTransaction(fault)
  {
    hide Faithful, Sound, Missing, LockOrder, Fresh, Valid;
    var cmd := c.cmd;
    var accounts, err := tx.LockBalances([cmd.source, cmd.dest]);
    if err.Some? {
      StopIsExec(c, tx.committed, err.value, tx.w);
      return Refuse(err.value);
    }
    if fault == Some(AfterAccountsLocked) { return Injected; }
    assert [cmd.source, cmd.dest][0] == cmd.source && [cmd.source, cmd.dest][1] == cmd.dest;
    var source, dest := accounts[cmd.source], accounts[cmd.dest];
    var refusal := Refusal(cmd, source, dest);
    if refusal.Some? {
      StopIsExec(c, tx.committed, refusal.value, tx.w);
      return Refuse(refusal.value);
    }
    var p := PayPlan(c, source);
    PreparedOk(c, tx.committed);
    r := Write(tx, c, p, fault);
  }

  lemma StopIsExec(c: Call, s: Store, e: Error, w: Store)
    requires !c.cmd.Create? && c.cmd.req.key !in s.records && Prepare(c, s) == Stop(e)
    ensures Faithful(c, s, w, Refuse(e))
  {
    hide Prepare;
  }

  // The part of Reverse after the claim.
  method ExecuteReverse(tx: Tx, c: Call, fault: Option<Failpoint>) returns (r: Closure)
    requires Sound(tx.committed) && Valid(c.cmd) && Fresh(c, tx.committed)
    requires c.cmd.Reverse? && c.cmd.req.key !in tx.committed.records
    requires tx.w == Claim(c.cmd.req) && tx.locks == []
    modifies tx
    ensures r != Injected ==> Faithful(c, tx.committed, tx.w, r)
    ensures fault.None? ==> r != Injected
    ensures r.Ready? ==> !InTransaction(fault)
  {
    hide Faithful, Sound, Missing, LockOrder, Fresh, Valid, Select, AccountsOf;
    var error := LoadError(tx.committed, c.cmd.target);
    if error.Some? {
      StopIsExec(c, tx.committed, error.value, tx.w);
      return Refuse(error.value);
    }
    var t := c.cmd.target.id;
    var entries := Select(tx.committed.entries, OfTxn(t));
    var accounts, err := tx.LockBalances(AccountsOf(entries));
    if err.Some? {
      StopIsExec(c, tx.committed, err.value, tx.w);
      return Refuse(err.value);
    }
    if fault == Some(AfterAccountsLocked) { return Injected; }
    var mirrored := MirrorEntries(entries, c.txnId);
    var amount := ReversalAmount(entries);
    var p := Plan(c.txnId,
                  Txn(ReversalKind, tx.committed.txns[t].currency, ReversalText(t, c.cmd.reason), None, Some(t)),
                  mirrored, c.eventId, Event(PaymentReversed, c.txnId, amount, mirrored));
    PreparedOk(c, tx.committed);
    r := Write(tx, c, p, fault);
  }

  // The loop that negates each original entry.
  method MirrorEntries(es: seq<Entry>, id: Id) returns (r: seq<Entry>)
    ensures r == Mirror(es, id)
  {
    r := [];
    var i := 0;
    assert es[..0] == [];
    while i < |es|
      invariant i <= |es| && r == Mirror(es[..i], id)
    {
      assert es[..i + 1][..i] == es[..i];
      r := r + [Entry(id, es[i].account, Negated(es[i].amount), es[i].currency, es[i].pos)];
      i := i + 1;
    }
    assert es[..i] == es;
  }

  // reversalAmount: the sum of the positive entries.
  method ReversalAmount(es: seq<Entry>) returns (total: int64)
    ensures total == Gross(es)
  {
    total := 0;
    var i := 0;
    assert es[..0] == [];
    while i < |es|
      invariant i <= |es| && total == Gross(es[..i])
    {
      assert es[..i + 1][..i] == es[..i];
      if es[i].amount > 0 {
        total := Wrap(total as int + es[i].amount as int);
      }
      i := i + 1;
    }
    assert es[..i] == es;
  }

  // Transaction.Sum
  method SumEntries(es: seq<Entry>) returns (total: int64)
    ensures total == Wrap(Sum(es))
  {
    total := 0;
    var i := 0;
    assert es[..0] == [];
    while i < |es|
      invariant i <= |es| && total == Wrap(Sum(es[..i]))
    {
      assert es[..i + 1][..i] == es[..i];
      WrapAdds(Sum(es[..i]), es[i].amount);
      total := Wrap(total as int + es[i].amount as int);
      i := i + 1;
    }
    assert es[..i] == es;
  }

  // Wrapping as one goes is wrapping at the end.
  lemma WrapAdds(x: int, y: int)
    ensures Wrap(Wrap(x) as int + y) == Wrap(x + y)
  {
    var q := (x - MIN64) / TWO64;
    assert Wrap(x) as int == x - q * TWO64;
    assert (x + y - MIN64 - q * TWO64) % TWO64 == (x + y - MIN64) % TWO64;
  }

  // ----- the service -----

  class Ledger {
    var store: Store

    // idempotency.Claim inside the transaction: insert, or return the record already there.
    method ClaimKey(tx: Tx, req: Request) returns (existing: Option<Record>)
      requires tx.w == EMPTY
      modifies tx`w
      ensures req.key in tx.committed.records ==> existing == Some(tx.committed.records[req.key]) && tx.w == EMPTY
      ensures req.key !in tx.committed.records ==> existing.None? && tx.w == Claim(req)
    {
      if req.key in tx.committed.records {
        return Some(tx.committed.records[req.key]);
      }
      tx.w := tx.w.(records := map[req.key := Record(req.hash, InProgress, None)]);
      existing := None;
    }

    // runOnce: COMMIT runs the deferred triggers; anything but Ready rolls back.
    method Finish(tx: Tx, ghost c: Call, r: Closure) returns (answer: Answer)
      requires tx.committed == store && (r != Injected ==> Faithful(c, store, tx.w, r))
      modifies this
      ensures Atomic(c, old(store), store, answer)
      ensures r != Injected ==> store == After(c, old(store)) && answer == Exec(c, old(store)).answer
      ensures r == Injected ==> store == old(store) && answer == Fail(Internal)
      ensures r.Refuse? ==> answer.Fail?
    {
      OverlayEmpty(store);
      match r
      case Injected => answer := Fail(Internal);
      case Refuse(e) => answer := Fail(e);
      case Ready(a) =>
        if TriggersPass(store, tx.w) {
          store := Overlay(store, tx.w);
          answer := a;
        } else {
          answer := Fail(Internal);
        }
    }

    // The claim, then either the stored response or the command's own work.
    method Attempt(c: Call, fault: Option<Failpoint>) returns (answer: Answer)
      requires Sound(store) && Valid(c.cmd) && Fresh(c, store)
      modifies this
      ensures Atomic(c, old(store), store, answer)
      ensures fault.None? || fault == Some(AfterCommit) || c.cmd.Create? || c.cmd.req.key in old(store).records ==>
        store == After(c, old(store)) && answer == Exec(c, old(store)).answer
      ensures !c.cmd.Create? && InTransaction(fault) && Stopped(c, old(store), fault) ==>
        store == old(store) && answer == Fail(Internal)
    {
      hide Sound, Valid, Fresh, Atomic, Exec, Faithful;
      var tx := new Tx(store);
      var existing := ClaimKey(tx, c.cmd.req);
      var r: Closure;
      if existing.Some? {
        var replay := Replay(tx.committed, existing.value, c.cmd.req.hash);
        ReplayIsExec(c, store, tx.w, replay);
        r := if replay.Ok? then Ready(replay) else Refuse(replay.error);
      } else if c.cmd.Create? {
        r := ExecuteCreate(tx, c);
      } else if c.cmd.Transfer? {
        r := ExecuteTransfer(tx, c, if fault == Some(AfterCommit) then None else fault);
      } else {
        r := ExecuteReverse(tx, c, if fault == Some(AfterCommit) then None else fault);
      }
      answer := Finish(tx, c, r);
    }

    // Transfer: a response lost after COMMIT leaves the payment made; a replayed one is not lost.
    method Transfer(c: Call, fault: Option<Failpoint>) returns (answer: Answer)
      requires Sound(store) && Fresh(c, store) && c.cmd.Transfer?
      modifies this
      ensures !Valid(c.cmd) ==> store == old(store) && answer == Fail(InvalidRequest)
      ensures Valid(c.cmd) && (fault.None? || (InTransaction(fault) && c.cmd.req.key in old(store).records)) ==>
        store == After(c, old(store)) && answer == Exec(c, old(store)).answer
      ensures Valid(c.cmd) && fault == Some(AfterCommit) ==>
        && store == After(c, old(store))
        && answer == (if Exec(c, old(store)).answer.Ok? && !Exec(c, old(store)).answer.replayed then Fail(Internal)
                      else Exec(c, old(store)).answer)
      ensures Valid(c.cmd) && fault != Some(AfterCommit) ==> Atomic(c, old(store), store, answer)
      ensures Valid(c.cmd) && Stopped(c, old(store), fault) ==> store == old(store) && answer == Fail(Internal)
      ensures Sound(store)
    {
      hide Sound, Fresh, Exec, Valid;
      if !Valid(c.cmd) {
        return Fail(InvalidRequest);
      }
      ExecKeepsSound(c, store);
      if fault == Some(BeforeTxBegin) {
        return Fail(Internal);
      }
      answer := Attempt(c, fault);
      if answer.Ok? && !answer.replayed && fault == Some(AfterCommit) {
        answer := Fail(Internal);
      }
    }

    // Reverse: here the failpoint after COMMIT also loses a replayed response.
    method Reverse(c: Call, fault: Option<Failpoint>) returns (answer: Answer)
      requires Sound(store) && Fresh(c, store) && c.cmd.Reverse?
      modifies this
      ensures !Valid(c.cmd) ==> store == old(store) && answer == Fail(InvalidRequest)
      ensures Valid(c.cmd) && (fault.None? || (InTransaction(fault) && c.cmd.req.key in old(store).records)) ==>
        store == After(c, old(store)) && answer == Exec(c, old(store)).answer
      ensures Valid(c.cmd) && fault == Some(AfterCommit) ==>
        && store == After(c, old(store))
        && answer == (if Exec(c, old(store)).answer.Ok? then Fail(Internal) else Exec(c, old(store)).answer)
      ensures Valid(c.cmd) && fault != Some(AfterCommit) ==> Atomic(c, old(store), store, answer)
      ensures Valid(c.cmd) && Stopped(c, old(store), fault) ==> store == old(store) && answer == Fail(Internal)
      ensures Sound(store)
    {
      hide Sound, Fresh, Exec, Valid;
      if !Valid(c.cmd) {
        return Fail(InvalidRequest);
      }
      ExecKeepsSound(c, store);
      if fault == Some(BeforeTxBegin) {
        return Fail(Internal);
      }
      answer := Attempt(c, fault);
      if answer.Ok? && fault == Some(AfterCommit) {
        answer := Fail(Internal);
      }
    }

    method CreateAccount(c: Call) returns (answer: Answer)
      requires Sound(store) && Fresh(c, store) && c.cmd.Create?
      modifies this
      ensures !Valid(c.cmd) ==> store == old(store) && answer == Fail(InvalidRequest)
      ensures Valid(c.cmd) ==> store == After(c, old(store)) && answer == Exec(c, old(store)).answer
      ensures Sound(store)
    {
      hide Sound, Fresh, Exec, Valid;
      if !Valid(c.cmd) {
        return Fail(InvalidRequest);
      }
      ExecKeepsSound(c, store);
      answer := Attempt(c, None);
    }
  }

  lemma ReplayIsExec(c: Call, s: Store, w: Store, replay: Answer)
    requires c.cmd.req.key in s.records && w == EMPTY
    requires replay == Replay(s, s.records[c.cmd.req.key], c.cmd.req.hash)
    ensures Faithful(c, s, w, if replay.Ok? then Ready(replay) else Refuse(replay.error))
  {
  }

  // Insert the account and its zero balance row, and complete the record.
  method ExecuteCreate(tx: Tx, c: Call) returns (r: Closure)
    requires c.cmd.Create? && c.cmd.req.key !in tx.committed.records && tx.w == Claim(c.cmd.req)
    modifies tx`w
    ensures r != Injected && Faithful(c, tx.committed, tx.w, r)
  {
    var cmd := c.cmd;
    if cmd.id in tx.committed.accounts {
      return Refuse(AccountExists);
    }
    tx.w := tx.w.(accounts := map[cmd.id := cmd.account]);
    tx.w := tx.w.(balances := map[cmd.id := Balance(0, 0, cmd.account.overdraft)]);
    var body := AccountBody(cmd.id, cmd.account);
    tx.w := tx.w.(records := map[cmd.req.key := Record(cmd.req.hash, Completed(201, body), None)]);
    r := Ready(Ok(201, body, false));
  }
}
