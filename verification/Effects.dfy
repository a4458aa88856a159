// What a payment and a reversal do to the balances, and exactly when a payment goes through.
module Effects {
  import opened Prelude
  import opened Schema
  import opened Sequential
  import opened Books

  // What the entries of es add to account a.
  function Delta(es: seq<Entry>, a: AccountId): int {
    Sum(Select(es, OfAccount(a)))
  }

  function Count(es: seq<Entry>, a: AccountId): nat {
    |Select(es, OfAccount(a))|
  }

  ghost predicate Posted(s: Store, s': Store, p: Plan) {
    && s'.accounts == s.accounts && s'.balances.Keys == s.balances.Keys
    && s'.txns == s.txns[p.id := p.txn] && s'.entries == s.entries + p.entries
    && forall a :: a in s.balances ==> Shifted(s.balances[a], s'.balances[a], p.entries, a)
  }

  predicate Shifted(b: Balance, b': Balance, es: seq<Entry>, a: AccountId) {
    b'.amount == b.amount + Delta(es, a) && b'.version == b.version + Count(es, a) && b'.overdraft == b.overdraft
  }

  lemma PostMoves(c: Call, s: Store, p: Plan)
    requires Sound(s) && !c.cmd.Create? && c.cmd.req.key !in s.records && Prepare(c, s) == Go(p)
    requires Exec(c, s).answer.Ok?
    ensures Posted(s, After(c, s), p)
  {
    hide Prepare, HeaderError, EntriesError, SortEntries, TriggerPasses, EntriesOk, TxnsOk, ReversalsOk, SumsOk, NetOk,
         RecordsOk, OutboxOk, RowsOk, PlanBody;
    var es := SortEntries(p.entries);
    var rows := Apply(s.balances, es, |es|).rows;
    SortIsStable(p.entries);
    PlusEmpty(s.accounts);
    PlusOne(s.txns, p.id, p.txn);
    forall a ensures a in rows ==> a in s.balances {
      ApplyMoves(s.balances, es, |es|, a);
    }
    forall a | a in s.balances ensures Shifted(s.balances[a], (s.balances + rows)[a], p.entries, a) {
      ApplyMoves(s.balances, es, |es|, a);
      assert es[..|es|] == es;
    }
    assert (s.balances + rows).Keys == s.balances.Keys;
  }

  // ----- transfer -----

  lemma PairDelta(x: Entry, y: Entry, a: AccountId)
    ensures Delta([x, y], a) == (if x.account == a then x.amount as int else 0) + (if y.account == a then y.amount as int else 0)
    ensures Count([x, y], a) == (if x.account == a then 1 else 0) + (if y.account == a then 1 else 0)
  {
    assert [x, y] == [x] + [y];
    SelectAppend([x], [y], OfAccount(a));
    SelectOne(x, OfAccount(a));
    SelectOne(y, OfAccount(a));
    SumAppend(Select([x], OfAccount(a)), Select([y], OfAccount(a)));
    assert [x][..0] == [] && [y][..0] == [];
  }

  /** A payment that goes through takes the amount from the source, gives it to the destination, and
      leaves every other balance alone. */
  lemma TransferMoves(c: Call, s: Store, a: AccountId)
    requires Sound(s) && Valid(c.cmd) && c.cmd.Transfer? && c.cmd.req.key !in s.records
    requires Exec(c, s).answer.Ok? && a in s.balances
    ensures var b, b' := s.balances[a], After(c, s).balances;
      a in b' && b'[a].overdraft == b.overdraft
      && b'[a].amount as int == (if a == c.cmd.source then b.amount as int - c.cmd.amount as int
                                 else if a == c.cmd.dest then b.amount as int + c.cmd.amount as int else b.amount as int)
      && b'[a].version as int == b.version as int + if a == c.cmd.source || a == c.cmd.dest then 1 else 0
  {
    hide Sound, Exec, Delta, Count, Refusal, Missing;
    PayIsPrepared(c, s);
    var p := PayPlan(c, Seen(s, c.cmd.source));
    PostMoves(c, s, p);
    assert Shifted(s.balances[a], After(c, s).balances[a], p.entries, a);
    PairDelta(p.entries[0], p.entries[1], a);
    assert p.entries == [p.entries[0], p.entries[1]];
  }

  lemma PayIsPrepared(c: Call, s: Store)
    requires c.cmd.Transfer? && c.cmd.req.key !in s.records && Exec(c, s).answer.Ok?
    ensures Lockable(s, c.cmd.source) && Prepare(c, s) == Go(PayPlan(c, Seen(s, c.cmd.source)))
  {
    hide Post, Missing, Refusal;
  }

  // ----- when a transfer goes through -----

  // What a caller could check first: the accounts, their currency, the funds, and room in 64 bits.
  predicate CanPay(cmd: Command, s: Store)
    requires cmd.Transfer?
  {
    && Lockable(s, cmd.source) && Lockable(s, cmd.dest)
    && s.accounts[cmd.source].currency == cmd.currency == s.accounts[cmd.dest].currency
    && var from, to := s.balances[cmd.source], s.balances[cmd.dest];
       && (from.overdraft || from.amount >= cmd.amount)
       && Fits(from.amount as int - cmd.amount as int) && Fits(from.version + 1)
       && Fits(to.amount + cmd.amount) && Fits(to.version + 1)
  }

  lemma SortedPair(x: Entry, y: Entry)
    ensures SortEntries([x, y]) == if x.account <= y.account then [x, y] else [y, x]
  {
    assert [x, y][..1] == [x] && [x][..0] == [];
    assert SortEntries([x]) == [x];
    assert Insert([], y) == [y];
  }

  function ErrorOf(r: Applied): Option<Error> {
    if r.Broken? then Some(r.error) else None
  }

  function FirstRefused(u: Updated, v: Updated): Option<Error> {
    if u.Refused? then Some(u.error) else if v.Refused? then Some(v.error) else None
  }

  lemma ApplyTwo(base: map<AccountId, Balance>, x: Entry, y: Entry)
    requires x.account != y.account
    ensures ErrorOf(Apply(base, [x, y], 2)) == FirstRefused(UpdateRow(base, x), UpdateRow(base, y))
  {
    PlusEmpty(base);
    assert Apply(base, [x, y], 0) == Rows(map[]);
    var first := Apply(base, [x, y], 1);
    if first.Rows? {
      assert first == Rows(map[x.account := UpdateRow(base, x).row]);
      assert UpdateRow(base + first.rows, y) == UpdateRow(base, y);
    }
  }

  // Two updates of different accounts refuse what either would alone, the lower account first.
  lemma PairApplies(base: map<AccountId, Balance>, x: Entry, y: Entry)
    requires x.account != y.account
    ensures var es, u, v := SortEntries([x, y]), UpdateRow(base, x), UpdateRow(base, y);
      ErrorOf(Apply(base, es, |es|)) == if x.account < y.account then FirstRefused(u, v) else FirstRefused(v, u)
  {
    SortedPair(x, y);
    ApplyTwo(base, x, y);
    ApplyTwo(base, y, x);
  }

  lemma PairErrors(accounts: map<AccountId, Account>, txns: map<Id, Txn>, x: Entry, y: Entry)
    ensures EntriesError(accounts, txns, [x, y], 2).None?
      <==> EntryError(accounts, txns, x).None? && EntryError(accounts, txns, y).None?
  {
    assert EntriesError(accounts, txns, [x, y], 0).None?;
    assert EntriesError(accounts, txns, [x, y], 1) == EntryError(accounts, txns, x);
  }

  lemma PairBalances(x: Entry, y: Entry)
    ensures Balanced([x, y]) <==> x.amount as int + y.amount as int == 0
  {
    assert [x, y][..1] == [x] && [x][..0] == [];
    assert Sum([x]) == x.amount;
  }

  // The rows the two updates leave are there exactly when there is room, and funds.
  lemma UpdatesFit(c: Call, s: Store)
    requires RowsOk(s) && c.cmd.Transfer? && c.cmd.amount > 0 && Lockable(s, c.cmd.source) && Lockable(s, c.cmd.dest)
    ensures var p := PayPlan(c, Seen(s, c.cmd.source)); var from, to := s.balances[c.cmd.source], s.balances[c.cmd.dest];
      UpdateRow(s.balances, p.entries[0]).Row? && UpdateRow(s.balances, p.entries[1]).Row? <==>
        (from.overdraft || from.amount >= c.cmd.amount)
        && Fits(from.amount as int - c.cmd.amount as int) && Fits(from.version + 1)
        && Fits(to.amount + c.cmd.amount) && Fits(to.version + 1)
  {
    assert RowOk(s.accounts[c.cmd.dest], s.balances[c.cmd.dest]);
    assert Negated(c.cmd.amount) as int == -(c.cmd.amount as int);
  }

  lemma PlanPosts(c: Call, s: Store)
    requires RowsOk(s) && Valid(c.cmd) && c.cmd.Transfer? && Fresh(c, s) && CanPay(c.cmd, s)
    ensures Post(c.cmd.req, s, PayPlan(c, Seen(s, c.cmd.source))).answer.Ok?
  {
    hide SortEntries, Apply, UpdateRow, EntriesError, RowsOk, Balanced;
    var p := PayPlan(c, Seen(s, c.cmd.source));
    var x, y := p.entries[0], p.entries[1];
    assert p.entries == [x, y];
    UpdatesFit(c, s);
    PairApplies(s.balances, x, y);
    PairErrors(s.accounts, s.txns[p.id := p.txn], x, y);
    PairBalances(x, y);
  }

  lemma OkApplies(c: Call, s: Store, p: Plan)
    requires c.cmd.req.key !in s.records && !c.cmd.Create? && Prepare(c, s) == Go(p) && Exec(c, s).answer.Ok?
    ensures Apply(s.balances, SortEntries(p.entries), |SortEntries(p.entries)|).Rows?
  {
    hide Prepare, HeaderError, EntriesError, SortEntries, TriggerPasses, Apply;
  }

  lemma CanPayPrepares(c: Call, s: Store)
    requires c.cmd.Transfer? && CanPay(c.cmd, s)
    ensures Prepare(c, s) == Go(PayPlan(c, Seen(s, c.cmd.source)))
  {
    hide LockOrder;
    LockOrderAscends([c.cmd.source, c.cmd.dest]);
    var order := PayOrder(c.cmd);
    forall a | a in order ensures Lockable(s, a) {
      assert a in [c.cmd.source, c.cmd.dest];
    }
    NothingMissing(s, order, |order|);
  }

  lemma {:induction false} NothingMissing(s: Store, order: seq<AccountId>, n: nat)
    requires n <= |order| && forall a :: a in order ==> Lockable(s, a)
    ensures Missing(s, order, n).None?
  {
    if n > 0 { NothingMissing(s, order, n - 1); }
  }

  lemma OkCouldPay(c: Call, s: Store)
    requires RowsOk(s) && Valid(c.cmd) && c.cmd.Transfer? && c.cmd.req.key !in s.records && Exec(c, s).answer.Ok?
    ensures CanPay(c.cmd, s)
  {
    hide SortEntries, Apply, UpdateRow, Exec, RowsOk, Missing, LockOrder;
    PayIsPrepared(c, s);
    var p := PayPlan(c, Seen(s, c.cmd.source));
    OkApplies(c, s, p);
    assert p.entries == [p.entries[0], p.entries[1]];
    PairApplies(s.balances, p.entries[0], p.entries[1]);
    UpdatesFit(c, s);
  }

  /** A new valid transfer goes through exactly when both accounts exist in its currency, the source
      may overdraw or has the funds, and the new balances and versions fit in 64 bits. */
  lemma TransferSucceedsExactly(c: Call, s: Store)
    requires Sound(s) && Valid(c.cmd) && c.cmd.Transfer? && Fresh(c, s) && c.cmd.req.key !in s.records
    ensures Exec(c, s).answer.Ok? <==> CanPay(c.cmd, s)
  {
    hide SumsOk, EntriesOk, TxnsOk, ReversalsOk, NetOk, RecordsOk, OutboxOk, RowsOk, Prepare, Post, CanPay, Valid, Fresh;
    if Exec(c, s).answer.Ok? {
      OkCouldPay(c, s);
    }
    if CanPay(c.cmd, s) {
      CanPayPrepares(c, s);
      PlanPosts(c, s);
    }
  }

  // ----- why a transfer is refused -----

  // The account named when one or both are missing: the first that the lock order reaches.
  function FirstMissing(cmd: Command, s: Store): AccountId
    requires cmd.Transfer?
  {
    if !Lockable(s, cmd.source) && (Lockable(s, cmd.dest) || cmd.source < cmd.dest) then cmd.source else cmd.dest
  }

  lemma PairOrder(x: AccountId, y: AccountId)
    requires x != y
    ensures LockOrder([x, y]) == if x < y then [x, y] else [y, x]
  {
    assert [x, y][..1] == [x] && [x][..0] == [];
    assert LockOrder([x]) == [x];
    assert InsertId([], y) == [y];
  }

  lemma MissingOfTwo(s: Store, x: AccountId, y: AccountId)
    ensures Missing(s, [x, y], 2) == if !Lockable(s, x) then Some(x) else if !Lockable(s, y) then Some(y) else None
  {
    assert Missing(s, [x, y], 0) == None;
    assert Missing(s, [x, y], 1) == if !Lockable(s, x) then Some(x) else None;
  }

  lemma PayMissing(cmd: Command, s: Store)
    requires cmd.Transfer? && cmd.source != cmd.dest
    ensures Missing(s, PayOrder(cmd), |PayOrder(cmd)|) ==
      if Lockable(s, cmd.source) && Lockable(s, cmd.dest) then None else Some(FirstMissing(cmd, s))
  {
    hide Lockable;
    PairOrder(cmd.source, cmd.dest);
    MissingOfTwo(s, cmd.source, cmd.dest);
    MissingOfTwo(s, cmd.dest, cmd.source);
  }

  /** Every refusal of a new valid transfer, in the order of the checks: a missing account, the
      source's currency, the destination's, the funds, and otherwise only a balance or a version
      that would not fit in 64 bits. */
  lemma TransferRefusals(c: Call, s: Store)
    requires Sound(s) && Valid(c.cmd) && c.cmd.Transfer? && Fresh(c, s) && c.cmd.req.key !in s.records
    ensures var cmd, answer := c.cmd, Exec(c, s).answer;
      if !Lockable(s, cmd.source) || !Lockable(s, cmd.dest) then answer == Fail(UnknownAccount(FirstMissing(cmd, s)))
      else if s.accounts[cmd.source].currency != cmd.currency then answer == Fail(CurrencyMismatch(cmd.source))
      else if s.accounts[cmd.dest].currency != cmd.currency then answer == Fail(CurrencyMismatch(cmd.dest))
      else if !s.balances[cmd.source].overdraft && s.balances[cmd.source].amount < cmd.amount then
        answer == Fail(InsufficientFunds(cmd.source))
      else answer.Ok? || answer == Fail(Internal)
  {
    hide SumsOk, EntriesOk, TxnsOk, ReversalsOk, NetOk, RecordsOk, OutboxOk, RowsOk, Post, CanPay, Missing, FirstMissing,
         PayOrder, PayPlan, Lockable;
    PayMissing(c.cmd, s);
    if Prepare(c, s).Go? {
      OverflowIsInternal(c, s);
    }
  }

  lemma OverflowIsInternal(c: Call, s: Store)
    requires Sound(s) && Valid(c.cmd) && c.cmd.Transfer? && Fresh(c, s) && c.cmd.req.key !in s.records && Prepare(c, s).Go?
    ensures Exec(c, s).answer.Ok? || Exec(c, s).answer == Fail(Internal)
  {
    hide SumsOk, EntriesOk, TxnsOk, ReversalsOk, NetOk, RecordsOk, OutboxOk, RowsOk, Missing, SortEntries, Apply, EntriesError,
         UpdateRow, Balanced, LockOrder, PlanBody;
    var p := PayPlan(c, Seen(s, c.cmd.source));
    var x, y := p.entries[0], p.entries[1];
    assert p.entries == [x, y];
    PairErrors(s.accounts, s.txns[p.id := p.txn], x, y);
    PairBalances(x, y);
    FundsLeft(c, s);
    PairApplies(s.balances, x, y);
  }

  // Both rows exist and neither ends below zero, so only the 64-bit range can refuse an update.
  lemma FundsLeft(c: Call, s: Store)
    requires RowsOk(s) && c.cmd.Transfer? && c.cmd.amount > 0 && Lockable(s, c.cmd.source) && Lockable(s, c.cmd.dest)
    requires s.balances[c.cmd.source].overdraft || s.balances[c.cmd.source].amount >= c.cmd.amount
    ensures var p := PayPlan(c, Seen(s, c.cmd.source));
      RowOrInternal(UpdateRow(s.balances, p.entries[0])) && RowOrInternal(UpdateRow(s.balances, p.entries[1]))
  {
    assert RowOk(s.accounts[c.cmd.dest], s.balances[c.cmd.dest]);
    assert Negated(c.cmd.amount) as int == -(c.cmd.amount as int);
  }

  predicate RowOrInternal(u: Updated) {
    u.Row? || u.error == Internal
  }

  // ----- reversal -----

  /** A reversal that goes through takes back exactly what its original gave each account. */
  lemma ReverseMoves(c: Call, s: Store, a: AccountId)
    requires Sound(s) && c.cmd.Reverse? && c.cmd.req.key !in s.records
    requires Exec(c, s).answer.Ok? && a in s.balances
    ensures c.cmd.target.Target? && c.cmd.target.id in s.txns
    ensures a in After(c, s).balances && After(c, s).balances[a].amount ==
      s.balances[a].amount - Delta(Select(s.entries, OfTxn(c.cmd.target.id)), a)
  {
    hide Sound, Exec, Count, Missing, Prepare;
    UndoIsPrepared(c, s);
    var t := c.cmd.target.id;
    var es := Select(s.entries, OfTxn(t));
    var p := UndoPlan(c, t, s.txns[t], es);
    PostMoves(c, s, p);
    assert Shifted(s.balances[a], After(c, s).balances[a], p.entries, a);
    SoundEntries(s, t);
    MirrorSums(es, c.txnId, a);
  }

  // Why entry e of an original cannot be taken back from its account: no room in 64 bits, or the
  // money has been spent.
  function CannotTakeBack(s: Store, e: Entry): Option<Error>
    requires e.account in s.balances
  {
    var b := s.balances[e.account];
    if !Fits(b.amount as int - e.amount as int) || !Fits(b.version + 1) then Some(Internal)
    else if !b.overdraft && b.amount < e.amount then Some(InsufficientFunds(e.account))
    else None
  }

  // The lower account is updated first, so its error is the one reported.
  function CannotUndo(s: Store, x: Entry, y: Entry): Option<Error>
    requires x.account in s.balances && y.account in s.balances
  {
    var u, v := CannotTakeBack(s, x), CannotTakeBack(s, y);
    if x.account < y.account then (if u.Some? then u else v) else (if v.Some? then v else u)
  }

  lemma OriginalPair(s: Store, t: Id)
    requires Sound(s) && t in s.txns
    ensures var es := Select(s.entries, OfTxn(t));
      && |es| == 2 && es[0].account != es[1].account && es == [es[0], es[1]]
      && Mirrorable(es[0]) && Mirrorable(es[1]) && es[0].account in s.balances && es[1].account in s.balances
  {
    hide NetOk, RecordsOk, OutboxOk, SumsOk, ReversalsOk, Select;
    var es := Select(s.entries, OfTxn(t));
    assert TxnOk(s.txns[t], es);
    SelectMembers(s.entries, OfTxn(t));
    assert es[0] in s.entries && es[1] in s.entries;
    var i :| 0 <= i < |s.entries| && s.entries[i] == es[0];
    var j :| 0 <= j < |s.entries| && s.entries[j] == es[1];
    assert EntryOk(s, s.entries[i]) && EntryOk(s, s.entries[j]);
  }

  /** Every refusal of a new reversal, and exactly when it goes through: what cannot be reversed at
      all, then whether each account of the original, the lower first, can give back what it got. */
  lemma ReverseRefusals(c: Call, s: Store)
    requires Sound(s) && Valid(c.cmd) && c.cmd.Reverse? && Fresh(c, s) && c.cmd.req.key !in s.records
    ensures var target, answer := c.cmd.target, Exec(c, s).answer;
      if target.NotUuid? then answer == Fail(InvalidRequest)
      else if target.id !in s.txns then answer == Fail(TransactionNotFound)
      else if s.txns[target.id].kind == ReversalKind then answer == Fail(InvalidRequest)
      else if target.id in s.oneReversal then answer == Fail(AlreadyReversed(target.id))
      else
        var es := Select(s.entries, OfTxn(target.id));
        |es| == 2 && es[0].account in s.balances && es[1].account in s.balances &&
        match CannotUndo(s, es[0], es[1])
        case Some(error) => answer == Fail(error)
        case None => answer.Ok?
  {
    hide SumsOk, EntriesOk, TxnsOk, ReversalsOk, NetOk, RecordsOk, OutboxOk, RowsOk, Post, UndoPlan, UndoOrder, Missing,
         Select, CannotUndo;
    if c.cmd.target.Target? && LoadError(s, c.cmd.target).None? {
      UndoLocks(c, s);
      OriginalPair(s, c.cmd.target.id);
      UndoPosts(c, s, Prepare(c, s).plan);
    }
  }

  lemma UndoLocks(c: Call, s: Store)
    requires Sound(s) && c.cmd.Reverse? && c.cmd.target.Target? && LoadError(s, c.cmd.target).None?
    ensures Prepare(c, s).Go?
  {
    hide SumsOk, TxnsOk, ReversalsOk, NetOk, RecordsOk, OutboxOk, Select, LockOrder, UndoPlan;
    var es := Select(s.entries, OfTxn(c.cmd.target.id));
    LockOrderAscends(AccountsOf(es));
    SelectMembers(s.entries, OfTxn(c.cmd.target.id));
    var order := UndoOrder(s, c.cmd.target.id);
    forall a | a in order ensures Lockable(s, a) {
      var i :| 0 <= i < |es| && es[i].account == a;
      assert es[i] in s.entries;
      var j :| 0 <= j < |s.entries| && s.entries[j] == es[i];
      assert EntryOk(s, s.entries[j]);
    }
    NothingMissing(s, order, |order|);
  }

  lemma MirrorPair(x: Entry, y: Entry, id: Id)
    ensures Mirror([x, y], id) == [Entry(id, x.account, Negated(x.amount), x.currency, x.pos),
                                   Entry(id, y.account, Negated(y.amount), y.currency, y.pos)]
  {
    assert [x, y][..1] == [x] && [x][..0] == [];
    assert Mirror([x], id) == [Entry(id, x.account, Negated(x.amount), x.currency, x.pos)];
  }

  lemma TakeBackIsUpdate(s: Store, e: Entry, m: Entry)
    requires e.account in s.balances && Mirrorable(e) && m.account == e.account && m.amount == Negated(e.amount)
    ensures CannotTakeBack(s, e) == if UpdateRow(s.balances, m).Refused? then Some(UpdateRow(s.balances, m).error) else None
  {
    assert Negated(e.amount) as int == -(e.amount as int);
  }

  // Nothing about the plan itself can be refused: only a balance can.
  lemma UndoPosts(c: Call, s: Store, p: Plan)
    requires Sound(s) && Valid(c.cmd) && c.cmd.Reverse? && Fresh(c, s) && c.cmd.req.key !in s.records
    requires Prepare(c, s) == Go(p)
    ensures c.cmd.target.Target? && c.cmd.target.id in s.txns
    ensures var es := Select(s.entries, OfTxn(c.cmd.target.id)); var answer := Post(c.cmd.req, s, p).answer;
      |es| == 2 && es[0].account in s.balances && es[1].account in s.balances &&
      match CannotUndo(s, es[0], es[1])
      case Some(error) => answer == Fail(error)
      case None => answer.Ok?
  {
    hide SumsOk, EntriesOk, TxnsOk, NetOk, RecordsOk, OutboxOk, RowsOk, Prepare, EntriesError, Apply, SortEntries,
         Balanced, PlanOk, UndoOrder, Missing, Select, UpdateRow, CannotTakeBack, Mirror, Gross;
    UndoShape(c, s, p);
    OriginalPair(s, c.cmd.target.id);
    var es := Select(s.entries, OfTxn(c.cmd.target.id));
    MirrorPair(es[0], es[1], c.txnId);
    UndoEntriesPass(c, s, p);
    TakeBackIsUpdate(s, es[0], p.entries[0]);
    TakeBackIsUpdate(s, es[1], p.entries[1]);
    PairApplies(s.balances, p.entries[0], p.entries[1]);
    UndoBalances(s, c.cmd.target.id, c.txnId);
  }

  lemma UndoBalances(s: Store, t: Id, id: Id)
    requires Sound(s) && t in s.txns
    ensures Balanced(Mirror(Select(s.entries, OfTxn(t)), id))
  {
    hide NetOk, RecordsOk, OutboxOk, SumsOk, ReversalsOk, RowsOk, EntriesOk, Select, Mirror;
    SoundEntries(s, t);
    assert TxnOk(s.txns[t], Select(s.entries, OfTxn(t)));
    MirrorSums(Select(s.entries, OfTxn(t)), id, 0);
  }

  lemma UndoShape(c: Call, s: Store, p: Plan)
    requires c.cmd.Reverse? && Prepare(c, s) == Go(p)
    ensures c.cmd.target.Target? && LoadError(s, c.cmd.target).None? && p.txn.reverses == Some(c.cmd.target.id)
    ensures p == UndoPlan(c, c.cmd.target.id, s.txns[c.cmd.target.id], Select(s.entries, OfTxn(c.cmd.target.id)))
  {
    hide Missing;
  }

  // Each entry of the plan mirrors one of the original's.
  lemma UndoEntry(c: Call, s: Store, p: Plan, i: nat)
    requires Sound(s) && c.cmd.Reverse? && Prepare(c, s) == Go(p) && i < |p.entries|
    ensures var e := p.entries[i]; var t := c.cmd.target;
      t.Target? && t.id in s.txns && e.txn == p.id == c.txnId && e.amount != 0 && e.account in s.accounts
      && s.accounts[e.account].currency == e.currency == s.txns[t.id].currency == p.txn.currency
  {
    hide SumsOk, TxnsOk, ReversalsOk, NetOk, RecordsOk, OutboxOk, RowsOk, Select, Prepare, Mirror;
    UndoShape(c, s, p);
    var es := Select(s.entries, OfTxn(c.cmd.target.id));
    SelectMembers(s.entries, OfTxn(c.cmd.target.id));
    MirrorLength(es, c.txnId);
    MirrorAt(es, c.txnId, i);
    assert es[i] in s.entries;
    var j :| 0 <= j < |s.entries| && s.entries[j] == es[i];
    assert EntryOk(s, s.entries[j]);
  }

  lemma {:induction false} MirrorLength(es: seq<Entry>, id: Id)
    ensures |Mirror(es, id)| == |es|
  {
    if es != [] { MirrorLength(es[..|es| - 1], id); }
  }

  lemma UndoEntriesPass(c: Call, s: Store, p: Plan)
    requires Sound(s) && c.cmd.Reverse? && Prepare(c, s) == Go(p)
    ensures EntriesError(s.accounts, s.txns[p.id := p.txn], p.entries, |p.entries|).None?
  {
    hide SumsOk, EntriesOk, TxnsOk, ReversalsOk, NetOk, RecordsOk, OutboxOk, RowsOk, Prepare, EntriesError;
    forall i | 0 <= i < |p.entries| ensures EntryError(s.accounts, s.txns[p.id := p.txn], p.entries[i]).None? {
      UndoEntry(c, s, p, i);
    }
    AllPass(s.accounts, s.txns[p.id := p.txn], p.entries, |p.entries|);
  }

  lemma {:induction false} AllPass(accounts: map<AccountId, Account>, txns: map<Id, Txn>, es: seq<Entry>, n: nat)
    requires n <= |es| && forall i :: 0 <= i < |es| ==> EntryError(accounts, txns, es[i]).None?
    ensures EntriesError(accounts, txns, es, n).None?
  {
    if n > 0 { AllPass(accounts, txns, es, n - 1); }
  }

  lemma UndoIsPrepared(c: Call, s: Store)
    requires c.cmd.Reverse? && c.cmd.req.key !in s.records && Exec(c, s).answer.Ok?
    ensures c.cmd.target.Target? && c.cmd.target.id in s.txns
    ensures var t := c.cmd.target.id; Prepare(c, s) == Go(UndoPlan(c, t, s.txns[t], Select(s.entries, OfTxn(t))))
  {
    hide Post, Missing;
  }

  lemma SoundEntries(s: Store, t: Id)
    requires Sound(s) && t in s.txns
    ensures forall i :: 0 <= i < |Select(s.entries, OfTxn(t))| ==> Mirrorable(Select(s.entries, OfTxn(t))[i])
  {
    hide RowsOk, NetOk, RecordsOk, OutboxOk, SumsOk, ReversalsOk, TxnsOk, Select;
    TxnEntriesMirrorable(s, t);
  }

  // ----- what is stored and answered -----

  // The tables a posting adds to, and its answer.
  lemma PostStores(c: Call, s: Store, p: Plan)
    requires !c.cmd.Create? && c.cmd.req.key !in s.records && Prepare(c, s) == Go(p) && Exec(c, s).answer.Ok?
    ensures var s', body := After(c, s), TxnBody(p.id, p.txn, None, p.entries);
      && s'.accounts == s.accounts && s'.txns == s.txns[p.id := p.txn] && s'.entries == s.entries + p.entries
      && s'.outbox == s.outbox[p.eventId := p.event]
      && s'.oneReversal == s.oneReversal + NewReversals(p) && s'.reversals == s.reversals + NewReversals(p)
      && s'.records == s.records[c.cmd.req.key := Record(c.cmd.req.hash, Completed(201, body), Some(p.id))]
      && Exec(c, s).answer == Ok(201, body, false)
  {
    hide Prepare, HeaderError, EntriesError, SortEntries, Apply, TriggerPasses, NewReversals;
    PostShape(c.cmd.req, s, p, After(c, s));
  }

  /** What a new payment stores, announces and answers: funding out of a system account, a transfer
      otherwise, in the command's own terms, with two entries that the event and the answer repeat. */
  lemma PaymentStores(c: Call, s: Store)
    requires Sound(s) && Valid(c.cmd) && c.cmd.Transfer? && c.cmd.req.key !in s.records && Exec(c, s).answer.Ok?
    ensures c.cmd.source in s.accounts
    ensures var cmd, t, s' := c.cmd, c.txnId, After(c, s);
      var txn := Txn(if s.accounts[cmd.source].system then FundingKind else TransferKind, cmd.currency, cmd.description,
                     if cmd.reference == "" then None else Some(cmd.reference), None);
      var es := [Entry(t, cmd.source, -cmd.amount, cmd.currency, 0), Entry(t, cmd.dest, cmd.amount, cmd.currency, 1)];
      var body := TxnBody(t, txn, None, es);
      && s'.txns == s.txns[t := txn] && s'.entries == s.entries + es
      && s'.outbox == s.outbox[c.eventId := Event(PaymentCreated, t, cmd.amount, es)]
      && s'.accounts == s.accounts && s'.oneReversal == s.oneReversal && s'.reversals == s.reversals
      && s'.records == s.records[cmd.req.key := Record(cmd.req.hash, Completed(201, body), Some(t))]
      && Exec(c, s).answer == Ok(201, body, false)
  {
    hide Sound, Exec, Overlay, Refusal, Missing, Prepare;
    PayIsPrepared(c, s);
    PostStores(c, s, PayPlan(c, Seen(s, c.cmd.source)));
    assert Negated(c.cmd.amount) as int == -(c.cmd.amount as int);
    PlusEmpty(s.oneReversal);
    PlusEmpty(s.reversals);
  }

  // The printed ID names one transaction.
  lemma {:induction false} DigitsName(m: Id, n: Id)
    requires Digits(m) == Digits(n)
    ensures m == n
  {
    if m >= 10 && n >= 10 {
      assert Digits(m)[..|Digits(m)| - 1] == Digits(m / 10) && Digits(n)[..|Digits(n)| - 1] == Digits(n / 10);
      DigitsName(m / 10, n / 10);
      assert Digits(m)[|Digits(m)| - 1] == Digits(n)[|Digits(n)| - 1];
    }
  }

  predicate Opposite(e: Entry, original: Entry, t: Id) {
    && e.txn == t && e.account == original.account && e.currency == original.currency && e.pos == original.pos
    && e.amount as int == -(original.amount as int)
  }

  /** What a new reversal stores, announces and answers: a transaction that names its original, has
      its currency, gives back its two entries, and announces the amount the original moved. */
  lemma ReversalStores(c: Call, s: Store) returns (txn: Txn, es: seq<Entry>, amount: int64)
    requires Sound(s) && c.cmd.Reverse? && c.cmd.req.key !in s.records && Exec(c, s).answer.Ok?
    ensures c.cmd.target.Target? && c.cmd.target.id in s.txns
    ensures var original := c.cmd.target.id;
      && txn.kind == ReversalKind && txn.reverses == Some(original) && txn.currency == s.txns[original].currency
      && txn.externalRef == None
      && txn.description == "Reversal of " + Digits(original) + (if c.cmd.reason == "" then "" else ": " + c.cmd.reason)
    ensures var was := Select(s.entries, OfTxn(c.cmd.target.id));
      && |es| == |was| == 2 && Opposite(es[0], was[0], c.txnId) && Opposite(es[1], was[1], c.txnId)
      && amount > 0 && amount in {was[0].amount, was[1].amount}
    ensures var t, s', body := c.txnId, After(c, s), TxnBody(c.txnId, txn, None, es);
      && s'.txns == s.txns[t := txn] && s'.entries == s.entries + es && s'.accounts == s.accounts
      && s'.outbox == s.outbox[c.eventId := Event(PaymentReversed, t, amount, es)]
      && s'.oneReversal == s'.reversals == s.oneReversal[c.cmd.target.id := t]
      && s'.records == s.records[c.cmd.req.key := Record(c.cmd.req.hash, Completed(201, body), Some(t))]
      && Exec(c, s).answer == Ok(201, body, false)
  {
    hide RowsOk, SumsOk, EntriesOk, TxnsOk, ReversalsOk, NetOk, RecordsOk, OutboxOk, Exec, Overlay, Missing, Prepare, Select,
         Gross, Mirror, Digits;
    UndoIsPrepared(c, s);
    var t := c.cmd.target.id;
    var was := Select(s.entries, OfTxn(t));
    var p := UndoPlan(c, t, s.txns[t], was);
    PostStores(c, s, p);
    OriginalPair(s, t);
    OriginalBalances(s, t);
    MirrorPair(was[0], was[1], c.txnId);
    PairGross(was);
    assert Negated(was[0].amount) as int == -(was[0].amount as int) && Negated(was[1].amount) as int == -(was[1].amount as int);
    PlusOne(s.oneReversal, t, c.txnId);
    txn, es, amount := p.txn, p.entries, p.event.amount;
  }

  lemma OriginalBalances(s: Store, t: Id)
    requires Sound(s) && t in s.txns
    ensures var es := Select(s.entries, OfTxn(t)); Balanced(es) && |es| == 2 && es[0].pos == 0 && es[1].pos == 1
    ensures s.reversals == s.oneReversal
  {
    hide RowsOk, SumsOk, EntriesOk, NetOk, RecordsOk, OutboxOk, Select, Balanced;
    assert TxnOk(s.txns[t], Select(s.entries, OfTxn(t)));
  }

  /** Creating an account: an ID that is taken is refused and nothing changes; otherwise the account is
      stored and answered as given, with a balance of nothing, and no other row changes. */
  lemma CreateOpens(c: Call, s: Store)
    requires c.cmd.Create? && c.cmd.req.key !in s.records
    ensures var id, account, answer, s' := c.cmd.id, c.cmd.account, Exec(c, s).answer, After(c, s);
      if id in s.accounts then answer == Fail(AccountExists) && s' == s
      else
        && answer == Ok(201, AccountBody(id, account), false)
        && s' == s.(accounts := s.accounts[id := account],
                    balances := s.balances[id := Balance(0, 0, account.overdraft)],
                    records := s.records[c.cmd.req.key :=
                      Record(c.cmd.req.hash, Completed(201, AccountBody(id, account)), None)])
  {
    OverlayEmpty(s);
    if c.cmd.id !in s.accounts { CreateShape(c.cmd, s, After(c, s)); }
  }

  /** Round trip: a payment followed at once by its reversal restores every amount. */
  lemma UndoRestores(pay: Call, undo: Call, s: Store, a: AccountId)
    requires Sound(s) && Valid(pay.cmd) && Fresh(pay, s) && pay.cmd.Transfer? && pay.cmd.req.key !in s.records
    requires Exec(pay, s).answer.Ok? && a in s.balances
    requires undo.cmd.Reverse? && undo.cmd.target == Target(pay.txnId)
    requires undo.cmd.req.key !in After(pay, s).records && Exec(undo, After(pay, s)).answer.Ok?
    ensures var s2 := After(undo, After(pay, s)); a in s2.balances && s2.balances[a].amount == s.balances[a].amount
  {
    hide Sound, Exec, Delta, Count, Valid, Fresh, Posted, Overlay, After;
    PayIsPrepared(pay, s);
    var p := PayPlan(pay, Seen(s, pay.cmd.source));
    PostMoves(pay, s, p);
    PostedBalance(s, After(pay, s), p, a);
    ExecKeepsSound(pay, s);
    OwnEntriesOf(pay, s, p);
    ReverseMoves(undo, After(pay, s), a);
  }

  lemma PostedBalance(s: Store, s': Store, p: Plan, a: AccountId)
    requires Posted(s, s', p) && a in s.balances
    ensures a in s'.balances && s'.balances[a].amount == s.balances[a].amount + Delta(p.entries, a)
  {
    assert Shifted(s.balances[a], s'.balances[a], p.entries, a);
  }

  lemma OwnEntriesOf(pay: Call, s: Store, p: Plan)
    requires Sound(s) && Valid(pay.cmd) && pay.cmd.Transfer? && Fresh(pay, s) && pay.cmd.req.key !in s.records
    requires Prepare(pay, s) == Go(p) && Posted(s, After(pay, s), p)
    ensures Select(After(pay, s).entries, OfTxn(pay.txnId)) == p.entries
  {
    hide RowsOk, NetOk, RecordsOk, OutboxOk, SumsOk, ReversalsOk, TxnsOk, Select, EntriesOk, After, Missing, Refusal;
    PreparedOk(pay, s);
    PostedEntries(s, p, p.id);
  }
}
