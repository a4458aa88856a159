// The ledger as a sequential machine: what one command, run alone, answers and writes.
module Sequential {
  import opened Prelude
  import opened Schema

  datatype Error =
    | InvalidRequest
    | UnknownAccount(account: AccountId)
    | CurrencyMismatch(account: AccountId)
    | InsufficientFunds(account: AccountId)
    | Conflict
    | KeyInProgress
    | AlreadyReversed(original: Id)
    | TransactionNotFound
    | AccountExists
    | Internal

  datatype Answer = Ok(status: int, body: Body, replayed: bool) | Fail(error: Error)

  datatype Request = Request(key: Key, hash: string)
  datatype Target = NoTarget | NotUuid | Target(id: Id)

  // `textOk` says that the account ID matches its pattern and the kind is `user` or `system`: the model
  // keeps neither text.
  datatype Command =
    | Create(req: Request, id: AccountId, textOk: bool, account: Account)
    | Transfer(req: Request, source: AccountId, dest: AccountId, amount: int64, currency: string,
               description: string, reference: string)
    | Reverse(req: Request, target: Target, reason: string)

  // A command with the UUIDs drawn for it before its database transaction begins.
  datatype Call = Call(cmd: Command, txnId: Id, eventId: Id)

  predicate IsCurrency(c: string) {
    |c| == 3 && forall i :: 0 <= i < 3 ==> 'A' <= c[i] <= 'Z'
  }

  predicate Valid(cmd: Command) {
    match cmd
    case Create(_, _, textOk, a) =>
      textOk && IsCurrency(a.currency) && (a.overdraft ==> a.system)
    case Transfer(_, source, dest, amount, currency, description, reference) =>
      && source != NO_ACCOUNT && dest != NO_ACCOUNT && source != dest
      && amount > 0 && IsCurrency(currency)
      && |description| <= 512 && |reference| <= 256
    case Reverse(_, target, _) => target != NoTarget
  }

  // A posting about to be written: header, entries in order, and the event announcing it.
  datatype Plan = Plan(id: Id, txn: Txn, entries: seq<Entry>, eventId: Id, event: Event)

  datatype Prepared = Go(plan: Plan) | Stop(error: Error)

  datatype Outcome = Outcome(delta: Store, answer: Answer)

  // ----- reading -----

  function Replay(s: Store, rec: Record, hash: string): Answer {
    if rec.hash != hash then Fail(Conflict)
    else if rec.state.InProgress? then Fail(KeyInProgress)
    else if rec.txn.Some? && rec.txn.value !in s.txns then Fail(TransactionNotFound)
    else Ok(rec.state.status, rec.state.body, true)
  }

  function Load(s: Store, t: Id): Body
    requires t in s.txns
  {
    TxnBody(t, s.txns[t], if t in s.oneReversal then Some(s.oneReversal[t]) else None,
            Select(s.entries, OfTxn(t)))
  }

  predicate Lockable(s: Store, a: AccountId) {
    a in s.balances && a in s.accounts
  }

  // The first of order[..n] that has no balance row to lock.
  function Missing(s: Store, order: seq<AccountId>, n: nat): Option<AccountId>
    requires n <= |order|
  {
    if n == 0 then None
    else
      var before := Missing(s, order, n - 1);
      if before.Some? then before
      else if Lockable(s, order[n - 1]) then None else Some(order[n - 1])
  }

  datatype Locked = Locked(currency: string, system: bool, overdraft: bool, amount: int64)

  function Seen(s: Store, a: AccountId): Locked
    requires Lockable(s, a)
  {
    Locked(s.accounts[a].currency, s.accounts[a].system, s.balances[a].overdraft, s.balances[a].amount)
  }

  // The checks executeTransfer makes on the two locked rows.
  function Refusal(cmd: Command, source: Locked, dest: Locked): Option<Error>
    requires cmd.Transfer?
  {
    if source.currency != cmd.currency then Some(CurrencyMismatch(cmd.source))
    else if dest.currency != cmd.currency then Some(CurrencyMismatch(cmd.dest))
    else if !source.overdraft && source.amount < cmd.amount then Some(InsufficientFunds(cmd.source))
    else None
  }

  // ----- planning -----

  function PayOrder(cmd: Command): seq<AccountId>
    requires cmd.Transfer?
  {
    LockOrder([cmd.source, cmd.dest])
  }

  // Go's unary minus on int64.
  function Negated(x: int64): int64 {
    Wrap(0 - x as int)
  }

  function PayPlan(c: Call, source: Locked): Plan
    requires c.cmd.Transfer?
  {
    var cmd, id := c.cmd, c.txnId;
    var entries := [Entry(id, cmd.source, Negated(cmd.amount), cmd.currency, 0),
                    Entry(id, cmd.dest, cmd.amount, cmd.currency, 1)];
    Plan(id,
         Txn(if source.system then FundingKind else TransferKind, cmd.currency, cmd.description,
             if cmd.reference == "" then None else Some(cmd.reference), None),
         entries, c.eventId, Event(PaymentCreated, id, cmd.amount, entries))
  }

  function Mirror(es: seq<Entry>, id: Id): seq<Entry> {
    if es == [] then []
    else
      var e := es[|es| - 1];
      Mirror(es[..|es| - 1], id) + [Entry(id, e.account, Negated(e.amount), e.currency, e.pos)]
  }

  // Sum of the positive entries, in Go's arithmetic.
  function Gross(es: seq<Entry>): int64 {
    if es == [] then 0
    else
      var e := es[|es| - 1];
      if e.amount > 0 then Wrap(Gross(es[..|es| - 1]) + e.amount) else Gross(es[..|es| - 1])
  }

  // The text reversalDescription builds; Digits stands for printing a UUID.
  function ReversalText(original: Id, reason: string): string {
    if reason == "" then "Reversal of " + Digits(original)
    else "Reversal of " + Digits(original) + ": " + reason
  }

  function Digits(n: nat): string {
    if n < 10 then ["0123456789"[n]] else Digits(n / 10) + ["0123456789"[n % 10]]
  }

  function UndoPlan(c: Call, original: Id, txn: Txn, es: seq<Entry>): Plan
    requires c.cmd.Reverse?
  {
    var entries := Mirror(es, c.txnId);
    Plan(c.txnId,
         Txn(ReversalKind, txn.currency, ReversalText(original, c.cmd.reason), None, Some(original)),
         entries, c.eventId, Event(PaymentReversed, c.txnId, Gross(es), entries))
  }

  function PreparePay(c: Call, s: Store): Prepared
    requires c.cmd.Transfer?
  {
    var order := PayOrder(c.cmd);
    var missing := Missing(s, order, |order|);
    if missing.Some? then Stop(UnknownAccount(missing.value))
    else if !Lockable(s, c.cmd.source) || !Lockable(s, c.cmd.dest) then Stop(Internal)
    else
      var refusal := Refusal(c.cmd, Seen(s, c.cmd.source), Seen(s, c.cmd.dest));
      if refusal.Some? then Stop(refusal.value) else Go(PayPlan(c, Seen(s, c.cmd.source)))
  }

  // The checks Reverse makes on the transaction it loads, before taking any row lock.
  function LoadError(s: Store, target: Target): Option<Error> {
    match target
    case NoTarget => Some(InvalidRequest)
    case NotUuid => Some(InvalidRequest)
    case Target(t) =>
      if t !in s.txns then Some(TransactionNotFound)
      else if s.txns[t].kind == ReversalKind then Some(InvalidRequest)
      else if t in s.oneReversal then Some(AlreadyReversed(t))
      else None
  }

  function UndoOrder(s: Store, t: Id): seq<AccountId> {
    LockOrder(AccountsOf(Select(s.entries, OfTxn(t))))
  }

  function PrepareUndo(c: Call, s: Store): Prepared
    requires c.cmd.Reverse?
  {
    var error := LoadError(s, c.cmd.target);
    if error.Some? then Stop(error.value)
    else
      var t := c.cmd.target.id;
      var order := UndoOrder(s, t);
      var missing := Missing(s, order, |order|);
      if missing.Some? then Stop(UnknownAccount(missing.value))
      else Go(UndoPlan(c, t, s.txns[t], Select(s.entries, OfTxn(t))))
  }

  // ----- constraint checks -----

  // Inserting the header: its CHECK and foreign key, then the one-reversal index.
  function HeaderError(txns: map<Id, Txn>, oneReversal: map<Id, Id>, p: Plan): Option<Error> {
    if p.id in txns || (p.txn.kind == ReversalKind) != p.txn.reverses.Some? then Some(Internal)
    else if p.txn.reverses.None? then None
    else if p.txn.reverses.value in oneReversal then Some(AlreadyReversed(p.txn.reverses.value))
    else if p.txn.reverses.value !in txns then Some(Internal)
    else None
  }

  // Inserting one entry: the amount CHECK, then the two composite foreign keys.
  function EntryError(accounts: map<AccountId, Account>, txns: map<Id, Txn>, e: Entry): Option<Error> {
    if e.amount == 0 then Some(Internal)
    else if e.account !in accounts || accounts[e.account].currency != e.currency
      || e.txn !in txns || txns[e.txn].currency != e.currency then Some(CurrencyMismatch(e.account))
    else None
  }

  function EntriesError(accounts: map<AccountId, Account>, txns: map<Id, Txn>, es: seq<Entry>, n: nat)
    : Option<Error>
    requires n <= |es|
  {
    if n == 0 then None
    else
      var before := EntriesError(accounts, txns, es, n - 1);
      if before.Some? then before else EntryError(accounts, txns, es[n - 1])
  }

  datatype Updated = Row(row: Balance) | Refused(error: Error)

  // UPDATE balances SET amount = amount + delta, version = version + 1: BIGINT range, then CHECK.
  function Bump(b: Balance, delta: int64): Updated {
    if !Fits(b.amount + delta) || !Fits(b.version + 1) then Refused(Internal)
    else Row(Balance(b.amount + delta, b.version + 1, b.overdraft))
  }

  function UpdateRow(balances: map<AccountId, Balance>, e: Entry): Updated {
    if e.account !in balances then Refused(UnknownAccount(e.account))
    else
      var u := Bump(balances[e.account], e.amount);
      if u.Row? && !u.row.overdraft && u.row.amount < 0 then Refused(InsufficientFunds(e.account))
      else u
  }

  datatype Applied = Rows(rows: map<AccountId, Balance>) | Broken(error: Error)

  // The balance rows changed by the first n updates.
  function Apply(base: map<AccountId, Balance>, es: seq<Entry>, n: nat): Applied
    requires n <= |es|
  {
    if n == 0 then Rows(map[])
    else
      var before := Apply(base, es, n - 1);
      if before.Broken? then before
      else
        var u := UpdateRow(base + before.rows, es[n - 1]);
        if u.Refused? then Broken(u.error) else Rows(before.rows[es[n - 1].account := u.row])
  }

  predicate Balanced(es: seq<Entry>) {
    |es| >= 2 && Sum(es) == 0
  }

  // The deferred trigger: it runs at COMMIT, once for each entry the transaction inserted.
  predicate TriggerPasses(es: seq<Entry>) {
    es == [] || Balanced(es)
  }

  // ----- the whole command -----

  function NewReversals(p: Plan): map<Id, Id> {
    if p.txn.reverses.Some? then map[p.txn.reverses.value := p.id] else map[]
  }

  function PlanBody(p: Plan): Body {
    TxnBody(p.id, p.txn, None, p.entries)
  }

  function PlanRecord(req: Request, p: Plan): Record {
    Record(req.hash, Completed(201, PlanBody(p)), Some(p.id))
  }

  function PlanDelta(req: Request, p: Plan, rows: map<AccountId, Balance>): Store {
    Store(map[], rows, map[p.id := p.txn], NewReversals(p), p.entries, NewReversals(p),
          map[req.key := PlanRecord(req, p)], map[p.eventId := p.event])
  }

  function Post(req: Request, s: Store, p: Plan): Outcome {
    var header := HeaderError(s.txns, s.oneReversal, p);
    var es := SortEntries(p.entries);
    var entries := EntriesError(s.accounts, s.txns[p.id := p.txn], p.entries, |p.entries|);
    var rows := Apply(s.balances, es, |es|);
    if header.Some? then Outcome(EMPTY, Fail(header.value))
    else if entries.Some? then Outcome(EMPTY, Fail(entries.value))
    else if rows.Broken? then Outcome(EMPTY, Fail(rows.error))
    else if p.txn.reverses.Some? && p.txn.reverses.value in s.reversals then
      Outcome(EMPTY, Fail(AlreadyReversed(p.txn.reverses.value)))
    else if !TriggerPasses(p.entries) then Outcome(EMPTY, Fail(Internal))
    else Outcome(PlanDelta(req, p, rows.rows), Ok(201, PlanBody(p), false))
  }

  function CreateBody(cmd: Command): Body
    requires cmd.Create?
  {
    AccountBody(cmd.id, cmd.account)
  }

  function CreateDelta(cmd: Command): Store
    requires cmd.Create?
  {
    EMPTY.(accounts := map[cmd.id := cmd.account],
           balances := map[cmd.id := Balance(0, 0, cmd.account.overdraft)],
           records := map[cmd.req.key := Record(cmd.req.hash, Completed(201, CreateBody(cmd)), None)])
  }

  function Prepare(c: Call, s: Store): Prepared
    requires !c.cmd.Create?
  {
    if c.cmd.Transfer? then PreparePay(c, s) else PrepareUndo(c, s)
  }

  function Exec(c: Call, s: Store): Outcome {
    var req := c.cmd.req;
    if req.key in s.records then Outcome(EMPTY, Replay(s, s.records[req.key], req.hash))
    else if c.cmd.Create? then
      if c.cmd.id in s.accounts then Outcome(EMPTY, Fail(AccountExists))
      else Outcome(CreateDelta(c.cmd), Ok(201, CreateBody(c.cmd), false))
    else
      var prepared := Prepare(c, s);
      if prepared.Stop? then Outcome(EMPTY, Fail(prepared.error)) else Post(req, s, prepared.plan)
  }

  function After(c: Call, s: Store): Store {
    Overlay(s, Exec(c, s).delta)
  }
}
