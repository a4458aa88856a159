// What every committed ledger state satisfies, and that every command keeps it.
module Books {
  import opened Prelude
  import opened Schema
  import opened Sequential

  // ----- the invariant -----

  // One balance row an account; overdraft copied from the account and only on system accounts;
  // no other balance below zero.
  ghost predicate RowsOk(s: Store) {
    && s.accounts.Keys == s.balances.Keys
    && forall a :: a in s.balances ==> RowOk(s.accounts[a], s.balances[a])
  }

  predicate RowOk(account: Account, b: Balance) {
    && b.overdraft == account.overdraft
    && (account.overdraft ==> account.system)
    && (b.overdraft || b.amount >= 0)
  }

  // Each balance is the sum of its account's entries, and its version counts them.
  ghost predicate SumsOk(s: Store) {
    forall a :: a in s.balances ==> Projects(s.balances[a], Select(s.entries, OfAccount(a)))
  }

  predicate Projects(b: Balance, es: seq<Entry>) {
    b.amount == Sum(es) && b.version == |es|
  }

  ghost predicate EntriesOk(s: Store) {
    forall i :: 0 <= i < |s.entries| ==> EntryOk(s, s.entries[i])
  }

  predicate EntryOk(s: Store, e: Entry) {
    && e.txn in s.txns && s.txns[e.txn].currency == e.currency
    && e.account in s.accounts && s.accounts[e.account].currency == e.currency
    && Mirrorable(e)
  }

  // Nonzero, and its negation does not wrap.
  predicate Mirrorable(e: Entry) {
    -MAX64 <= e.amount <= MAX64 && e.amount != 0
  }

  ghost predicate TxnsOk(s: Store) {
    forall t :: t in s.txns ==>
      TxnOk(s.txns[t], Select(s.entries, OfTxn(t))) && KindOk(s.accounts, s.txns[t], Select(s.entries, OfTxn(t)))
  }

  // The first entry of a payment takes from its source; a payment out of a system account is funding.
  predicate KindOk(accounts: map<AccountId, Account>, txn: Txn, es: seq<Entry>) {
    txn.kind != ReversalKind ==>
      && |es| == 2 && es[0].amount < 0 && es[0].account in accounts
      && (txn.kind == FundingKind <==> accounts[es[0].account].system)
  }

  ghost predicate TxnOk(txn: Txn, es: seq<Entry>) {
    && Balanced(es) && |es| == 2 && es[0].account != es[1].account
    && (forall i :: 0 <= i < |es| ==> es[i].pos == i)
    && (txn.kind == ReversalKind <==> txn.reverses.Some?)
  }

  // The reverses relation is a one-to-one map from reversals to transactions that are not
  // reversals, mirrored entry by entry, and the reversals table agrees with the index.
  ghost predicate ReversalsOk(s: Store) {
    && s.reversals == s.oneReversal
    && (forall t :: t in s.oneReversal ==> ReversedOnce(s, t))
    && Indexed(s)
  }

  ghost predicate Indexed(s: Store) {
    forall r :: r in s.txns && s.txns[r].reverses.Some? ==>
      s.txns[r].reverses.value in s.oneReversal && s.oneReversal[s.txns[r].reverses.value] == r
  }

  ghost predicate ReversedOnce(s: Store, t: Id)
    requires t in s.oneReversal
  {
    var r := s.oneReversal[t];
    && t in s.txns && s.txns[t].kind != ReversalKind
    && r in s.txns && s.txns[r].reverses == Some(t)
    && Select(s.entries, OfTxn(r)) == Mirror(Select(s.entries, OfTxn(t)), r)
  }

  // Only transactions neither reversed nor reversals count: the rest cancel.
  ghost function Settled(s: Store): set<Id> {
    set t | t in s.txns && (s.txns[t].kind == ReversalKind || t in s.oneReversal)
  }

  ghost function Net(log: seq<Entry>, dead: set<Id>, a: AccountId): int {
    Sum(Select(Select(log, OutsideOf(dead)), OfAccount(a)))
  }

  ghost predicate NetOk(s: Store) {
    forall a :: Net(s.entries, Settled(s), a) == Sum(Select(s.entries, OfAccount(a)))
  }

  // Every stored record is a completed success; the transaction, or else the account, is stored as answered.
  ghost predicate RecordsOk(s: Store) {
    && (forall k :: k in s.records ==> RecordOk(s, s.records[k]))
    && (forall k, l :: k in s.records && l in s.records && SameTxn(s.records[k], s.records[l]) ==> k == l)
  }

  predicate SameTxn(x: Record, y: Record) {
    x.txn.Some? && x.txn == y.txn
  }

  ghost predicate RecordOk(s: Store, rec: Record) {
    && rec.state.Completed? && rec.state.status == 201
    && (rec.txn.Some? ==>
          && rec.txn.value in s.txns
          && rec.state.body == TxnBody(rec.txn.value, s.txns[rec.txn.value], None,
                                       Select(s.entries, OfTxn(rec.txn.value))))
    && (rec.txn.None? ==>
          && rec.state.body.AccountBody? && rec.state.body.id in s.accounts
          && rec.state.body.account == s.accounts[rec.state.body.id])
  }

  // Outbox rows and transactions correspond one to one.
  ghost predicate OutboxOk(s: Store) {
    && (forall e :: e in s.outbox ==> EventOk(s, s.outbox[e]))
    && (forall e, f :: e in s.outbox && f in s.outbox && s.outbox[e].aggregate == s.outbox[f].aggregate
          ==> e == f)
    && (forall t :: t in s.txns ==> Announced(s, t))
  }

  ghost predicate Announced(s: Store, t: Id) {
    exists e :: e in s.outbox && s.outbox[e].aggregate == t
  }

  ghost predicate EventOk(s: Store, ev: Event) {
    && ev.aggregate in s.txns
    && ev.entries == Select(s.entries, OfTxn(ev.aggregate))
    && (ev.eventType == PaymentReversed <==> s.txns[ev.aggregate].kind == ReversalKind)
    && AmountOk(ev)
  }

  // The amount announced is what the transaction moves: its positive entry.
  predicate AmountOk(ev: Event) {
    && ev.amount > 0 && |ev.entries| == 2
    && (ev.amount == ev.entries[0].amount || ev.amount == ev.entries[1].amount)
  }

  ghost predicate Sound(s: Store) {
    RowsOk(s) && SumsOk(s) && EntriesOk(s) && TxnsOk(s) && ReversalsOk(s) && NetOk(s)
    && RecordsOk(s) && OutboxOk(s)
  }

  lemma EmptySound()
    ensures Sound(EMPTY)
  {
  }

  // ----- sums -----

  lemma {:induction false} MirrorSums(es: seq<Entry>, id: Id, a: AccountId)
    requires forall i :: 0 <= i < |es| ==> Mirrorable(es[i])
    ensures |Mirror(es, id)| == |es|
    ensures Sum(Mirror(es, id)) == -Sum(es)
    ensures Sum(Select(Mirror(es, id), OfAccount(a))) == -Sum(Select(es, OfAccount(a)))
  {
    if es != [] {
      var init, e := es[..|es| - 1], es[|es| - 1];
      var m := Entry(id, e.account, Negated(e.amount), e.currency, e.pos);
      MirrorSums(init, id, a);
      assert m.amount as int == -(e.amount as int);
      assert Mirror(es, id) == Mirror(init, id) + [m];
      assert Mirror(es, id)[..|es| - 1] == Mirror(init, id);
    }
  }

  lemma {:induction false} MirrorAt(es: seq<Entry>, id: Id, i: nat)
    requires i < |es|
    ensures |Mirror(es, id)| == |es|
    ensures Mirror(es, id)[i] == Entry(id, es[i].account, Negated(es[i].amount), es[i].currency, es[i].pos)
  {
    if |es| > 1 {
      MirrorAt(es[..|es| - 1], id, if i == |es| - 1 then 0 else i);
    }
  }

  // Striking transaction t from the count removes exactly its own entries.
  lemma {:induction false} NetDrop(log: seq<Entry>, dead: set<Id>, t: Id, a: AccountId)
    requires t !in dead
    ensures Net(log, dead + {t}, a) == Net(log, dead, a) - Sum(Select(Select(log, OfTxn(t)), OfAccount(a)))
  {
    if log != [] {
      var init, last := log[..|log| - 1], log[|log| - 1];
      assert log == init + [last];
      NetDrop(init, dead, t, a);
      NetAppend(init, [last], dead, a);
      NetAppend(init, [last], dead + {t}, a);
      SelectAppend(init, [last], OfTxn(t));
      SumForAppend(Select(init, OfTxn(t)), Select([last], OfTxn(t)), a);
      NetDropOne(last, dead, t, a);
    }
  }

  lemma NetOne(e: Entry, dead: set<Id>, a: AccountId)
    ensures Net([e], dead, a) == if e.txn !in dead && e.account == a then e.amount else 0
  {
    SelectOne(e, OutsideOf(dead));
    if e.txn !in dead {
      SumForOne(e, a);
    }
  }

  lemma SumForOne(e: Entry, a: AccountId)
    ensures Sum(Select([e], OfAccount(a))) == if e.account == a then e.amount else 0
  {
    SelectOne(e, OfAccount(a));
    assert [e][..0] == [];
  }

  lemma NetDropOne(e: Entry, dead: set<Id>, t: Id, a: AccountId)
    requires t !in dead
    ensures Net([e], dead + {t}, a) == Net([e], dead, a) - Sum(Select(Select([e], OfTxn(t)), OfAccount(a)))
  {
    NetOne(e, dead, a);
    NetOne(e, dead + {t}, a);
    SelectOne(e, OfTxn(t));
    SumForOne(e, a);
  }

  lemma {:induction false} NetUnused(log: seq<Entry>, dead: set<Id>, t: Id, a: AccountId)
    requires forall i :: 0 <= i < |log| ==> log[i].txn != t
    ensures Net(log, dead + {t}, a) == Net(log, dead, a)
  {
    if log != [] {
      var init, last := log[..|log| - 1], log[|log| - 1];
      assert log == init + [last];
      NetUnused(init, dead, t, a);
      NetAppend(init, [last], dead, a);
      NetAppend(init, [last], dead + {t}, a);
      NetOne(last, dead, a);
      NetOne(last, dead + {t}, a);
    }
  }

  lemma NetAppend(x: seq<Entry>, y: seq<Entry>, dead: set<Id>, a: AccountId)
    ensures Net(x + y, dead, a) == Net(x, dead, a) + Net(y, dead, a)
  {
    SelectAppend(x, y, OutsideOf(dead));
    var p, q := Select(x, OutsideOf(dead)), Select(y, OutsideOf(dead));
    SelectAppend(p, q, OfAccount(a));
    SumAppend(Select(p, OfAccount(a)), Select(q, OfAccount(a)));
  }

  lemma SumForAppend(x: seq<Entry>, y: seq<Entry>, a: AccountId)
    ensures Sum(Select(x + y, OfAccount(a))) == Sum(Select(x, OfAccount(a))) + Sum(Select(y, OfAccount(a)))
    ensures |Select(x + y, OfAccount(a))| == |Select(x, OfAccount(a))| + |Select(y, OfAccount(a))|
  {
    SelectAppend(x, y, OfAccount(a));
    SumAppend(Select(x, OfAccount(a)), Select(y, OfAccount(a)));
  }

  // Running n updates moves each balance by its own entries, keeps its row valid, and adds no row.
  ghost predicate Moved(before: Balance, after: Balance, es: seq<Entry>) {
    && after.amount == before.amount + Sum(es)
    && after.version == before.version + |es|
    && after.overdraft == before.overdraft
  }

  lemma MoveOne(b0: Balance, b1: Balance, b2: Balance, es: seq<Entry>, e: Entry, a: AccountId)
    requires Moved(b0, b1, Select(es, OfAccount(a)))
    requires if e.account == a then Bump(b1, e.amount) == Row(b2) else b2 == b1
    ensures Moved(b0, b2, Select(es + [e], OfAccount(a)))
  {
    SumForAppend(es, [e], a);
    SelectOne(e, OfAccount(a));
    assert [e][..0] == [];
  }

  lemma ApplyStep(base: map<AccountId, Balance>, es: seq<Entry>, n: nat)
    requires 0 < n <= |es| && Apply(base, es, n).Rows?
    ensures Apply(base, es, n - 1).Rows?
    ensures UpdateRow(base + Apply(base, es, n - 1).rows, es[n - 1]).Row?
    ensures Apply(base, es, n).rows
      == Apply(base, es, n - 1).rows[es[n - 1].account :=
           UpdateRow(base + Apply(base, es, n - 1).rows, es[n - 1]).row]
  {
  }

  lemma {:induction false} ApplyMoves(base: map<AccountId, Balance>, es: seq<Entry>, n: nat, a: AccountId)
    requires n <= |es| && Apply(base, es, n).Rows?
    ensures a in Apply(base, es, n).rows ==> a in base
    ensures a in base ==> Moved(base[a], (base + Apply(base, es, n).rows)[a], Select(es[..n], OfAccount(a)))
    ensures a in Apply(base, es, n).rows ==>
      Apply(base, es, n).rows[a].overdraft || Apply(base, es, n).rows[a].amount >= 0
  {
    if n > 0 {
      ApplyStep(base, es, n);
      ApplyMoves(base, es, n - 1, a);
      assert es[..n] == es[..n - 1] + [es[n - 1]];
      if a in base {
        MoveOne(base[a], (base + Apply(base, es, n - 1).rows)[a], (base + Apply(base, es, n).rows)[a],
                es[..n - 1], es[n - 1], a);
      }
    }
  }

  // ----- a posting keeps the books -----

  // The facts about a plan that keep the books: it is new, and a reversal mirrors its original.
  ghost predicate PlanOk(req: Request, s: Store, p: Plan) {
    && p.id !in s.txns && p.eventId !in s.outbox && req.key !in s.records
    && OwnEntries(p) && |p.entries| == 2 && p.entries[0].account != p.entries[1].account
    && p.event.aggregate == p.id && p.event.entries == p.entries
    && (p.event.eventType == PaymentReversed <==> p.txn.kind == ReversalKind)
    && AmountOk(p.event) && KindOk(s.accounts, p.txn, p.entries)
    && (p.txn.reverses.Some? ==> Undoes(s, p, p.txn.reverses.value))
  }

  ghost predicate OwnEntries(p: Plan) {
    forall i :: 0 <= i < |p.entries| ==>
      p.entries[i].txn == p.id && p.entries[i].pos == i && Mirrorable(p.entries[i])
  }

  ghost predicate Undoes(s: Store, p: Plan, t: Id) {
    t in s.txns && s.txns[t].kind != ReversalKind && p.entries == Mirror(Select(s.entries, OfTxn(t)), p.id)
  }

  // Entries of other transactions are untouched, and the new one's are exactly the plan's.
  lemma PostedEntries(s: Store, p: Plan, t: Id)
    requires EntriesOk(s) && p.id !in s.txns && OwnEntries(p)
    ensures t == p.id ==> Select(s.entries + p.entries, OfTxn(t)) == p.entries
    ensures t in s.txns ==> Select(s.entries + p.entries, OfTxn(t)) == Select(s.entries, OfTxn(t))
  {
    SelectAppend(s.entries, p.entries, OfTxn(t));
    if t == p.id {
      SelectAll(p.entries, OfTxn(t));
      forall e | e in s.entries ensures !OfTxn(t)(e) {
        var i :| 0 <= i < |s.entries| && s.entries[i] == e;
        assert EntryOk(s, s.entries[i]);
      }
      SelectNone(s.entries, OfTxn(t));
    } else if t in s.txns {
      SelectNone(p.entries, OfTxn(t));
    }
  }

  lemma {:induction false} EntriesChecked(accounts: map<AccountId, Account>, txns: map<Id, Txn>, es: seq<Entry>,
                                          n: nat, i: nat)
    requires i < n <= |es| && EntriesError(accounts, txns, es, n).None?
    ensures EntryError(accounts, txns, es[i]).None?
  {
    if i < n - 1 {
      EntriesChecked(accounts, txns, es, n - 1, i);
    }
  }

  lemma PostKeepsRows(s: Store, es: seq<Entry>, rows: map<AccountId, Balance>, s': Store)
    requires RowsOk(s) && Apply(s.balances, es, |es|) == Rows(rows)
    requires s'.accounts == s.accounts && s'.balances == s.balances + rows
    ensures RowsOk(s')
  {
    forall a ensures a in rows ==> a in s.balances {
      ApplyMoves(s.balances, es, |es|, a);
    }
    forall a | a in s'.balances ensures RowOk(s'.accounts[a], s'.balances[a]) {
      ApplyMoves(s.balances, es, |es|, a);
      assert RowOk(s.accounts[a], s.balances[a]);
    }
  }

  lemma PostKeepsSums(s: Store, es: seq<Entry>, rows: map<AccountId, Balance>, s': Store)
    requires SumsOk(s) && Apply(s.balances, SortEntries(es), |SortEntries(es)|) == Rows(rows)
    requires s'.entries == s.entries + es && s'.balances == s.balances + rows
    ensures SumsOk(s')
  {
    var sorted := SortEntries(es);
    SortIsStable(es);
    assert sorted[..|sorted|] == sorted;
    forall a | a in s'.balances ensures Projects(s'.balances[a], Select(s'.entries, OfAccount(a))) {
      ApplyMoves(s.balances, sorted, |sorted|, a);
      assert Projects(s.balances[a], Select(s.entries, OfAccount(a)));
      SumForAppend(s.entries, es, a);
    }
  }

  lemma PostKeepsEntries(s: Store, p: Plan, s': Store)
    requires EntriesOk(s) && p.id !in s.txns && OwnEntries(p)
    requires EntriesError(s.accounts, s.txns[p.id := p.txn], p.entries, |p.entries|).None?
    requires s'.accounts == s.accounts && s'.txns == s.txns[p.id := p.txn] && s'.entries == s.entries + p.entries
    ensures EntriesOk(s')
  {
    forall i | 0 <= i < |s'.entries| ensures EntryOk(s', s'.entries[i]) {
      if i < |s.entries| {
        assert EntryOk(s, s.entries[i]);
      } else {
        EntriesChecked(s.accounts, s.txns[p.id := p.txn], p.entries, |p.entries|, i - |s.entries|);
      }
    }
  }

  lemma PostKeepsTxns(s: Store, p: Plan, s': Store)
    requires TxnsOk(s) && EntriesOk(s) && p.id !in s.txns && OwnEntries(p)
    requires |p.entries| == 2 && p.entries[0].account != p.entries[1].account
    requires Balanced(p.entries) && HeaderError(s.txns, s.oneReversal, p).None? && KindOk(s.accounts, p.txn, p.entries)
    requires s'.accounts == s.accounts && s'.txns == s.txns[p.id := p.txn] && s'.entries == s.entries + p.entries
    ensures TxnsOk(s')
  {
    forall t | t in s'.txns
      ensures TxnOk(s'.txns[t], Select(s'.entries, OfTxn(t))) && KindOk(s'.accounts, s'.txns[t], Select(s'.entries, OfTxn(t)))
    {
      PostedEntries(s, p, t);
      assert t in s.txns ==> TxnOk(s.txns[t], Select(s.entries, OfTxn(t)));
    }
  }

  lemma OldReversalStays(s: Store, p: Plan, s': Store, t: Id)
    requires EntriesOk(s) && p.id !in s.txns && OwnEntries(p)
    requires t in s.oneReversal && ReversedOnce(s, t) && t in s'.oneReversal
    requires s'.txns == s.txns[p.id := p.txn] && s'.entries == s.entries + p.entries
    requires s'.oneReversal[t] == s.oneReversal[t]
    ensures ReversedOnce(s', t)
  {
    PostedEntries(s, p, t);
    PostedEntries(s, p, s.oneReversal[t]);
  }

  lemma NewReversalMirrors(s: Store, p: Plan, s': Store, t: Id)
    requires EntriesOk(s) && p.id !in s.txns && OwnEntries(p)
    requires p.txn.reverses == Some(t) && Undoes(s, p, t)
    requires s'.txns == s.txns[p.id := p.txn] && s'.entries == s.entries + p.entries
    requires t in s'.oneReversal && s'.oneReversal[t] == p.id
    ensures ReversedOnce(s', t)
  {
    PostedEntries(s, p, t);
    PostedEntries(s, p, p.id);
  }

  lemma PostKeepsIndex(s: Store, p: Plan, s': Store)
    requires Indexed(s)
    requires p.txn.reverses.Some? ==> p.txn.reverses.value !in s.oneReversal
    requires s'.txns == s.txns[p.id := p.txn] && s'.oneReversal == s.oneReversal + NewReversals(p)
    ensures Indexed(s')
  {
  }

  lemma PostKeepsReversals(s: Store, p: Plan, s': Store)
    requires ReversalsOk(s) && EntriesOk(s) && p.id !in s.txns && OwnEntries(p)
    requires p.txn.reverses.Some? ==> Undoes(s, p, p.txn.reverses.value)
    requires p.txn.reverses.Some? ==> p.txn.reverses.value !in s.oneReversal
    requires s'.txns == s.txns[p.id := p.txn] && s'.entries == s.entries + p.entries
    requires s'.oneReversal == s.oneReversal + NewReversals(p) && s'.reversals == s.reversals + NewReversals(p)
    ensures ReversalsOk(s')
  {
    forall t | t in s'.oneReversal ensures ReversedOnce(s', t) {
      if t in s.oneReversal {
        OldReversalStays(s, p, s', t);
      } else {
        NewReversalMirrors(s, p, s', t);
      }
    }
    PostKeepsIndex(s, p, s');
  }

  lemma SettledAfterPay(s: Store, p: Plan, s': Store)
    requires p.id !in s.txns && p.id !in s.oneReversal && p.txn.kind != ReversalKind
    requires s'.txns == s.txns[p.id := p.txn] && s'.oneReversal == s.oneReversal
    ensures Settled(s') == Settled(s) && p.id !in Settled(s)
  {
  }

  lemma SettledAfterUndo(s: Store, p: Plan, t: Id, s': Store)
    requires p.id !in s.txns && p.txn.kind == ReversalKind
    requires t in s.txns && s.txns[t].kind != ReversalKind && t !in s.oneReversal
    requires s'.txns == s.txns[p.id := p.txn] && s'.oneReversal == s.oneReversal[t := p.id]
    ensures Settled(s') == Settled(s) + {t} + {p.id}
    ensures t !in Settled(s)
  {
  }

  lemma PayKeepsNet(s: Store, p: Plan, s': Store)
    requires NetOk(s) && OwnEntries(p)
    requires Settled(s') == Settled(s) && p.id !in Settled(s) && s'.entries == s.entries + p.entries
    ensures NetOk(s')
  {
    forall a ensures Net(s'.entries, Settled(s'), a) == Sum(Select(s'.entries, OfAccount(a))) {
      SumForAppend(s.entries, p.entries, a);
      NetAppend(s.entries, p.entries, Settled(s), a);
      SelectAll(p.entries, OutsideOf(Settled(s)));
    }
  }

  // Original and reversal leave the count together, and together they are worth nothing.
  lemma UndoKeepsNet(s: Store, p: Plan, t: Id, s': Store)
    requires NetOk(s) && EntriesOk(s) && p.id !in s.txns && OwnEntries(p)
    requires p.entries == Mirror(Select(s.entries, OfTxn(t)), p.id)
    requires Settled(s') == Settled(s) + {t} + {p.id} && t !in Settled(s)
    requires s'.entries == s.entries + p.entries
    ensures NetOk(s')
  {
    var dead := Settled(s');
    forall i | 0 <= i < |s.entries| ensures s.entries[i].txn != p.id { assert EntryOk(s, s.entries[i]); }
    TxnEntriesMirrorable(s, t);
    forall a ensures Net(s'.entries, dead, a) == Sum(Select(s'.entries, OfAccount(a))) {
      SumForAppend(s.entries, p.entries, a);
      NetAppend(s.entries, p.entries, dead, a);
      NetUnused(s.entries, Settled(s) + {t}, p.id, a);
      NetDrop(s.entries, Settled(s), t, a);
      SelectNone(p.entries, OutsideOf(dead));
      MirrorSums(Select(s.entries, OfTxn(t)), p.id, a);
    }
  }

  lemma TxnEntriesMirrorable(s: Store, t: Id)
    requires EntriesOk(s)
    ensures forall i :: 0 <= i < |Select(s.entries, OfTxn(t))| ==>
      EntryOk(s, Select(s.entries, OfTxn(t))[i]) && Select(s.entries, OfTxn(t))[i].txn == t
  {
    SelectMembers(s.entries, OfTxn(t));
    var es := Select(s.entries, OfTxn(t));
    forall i | 0 <= i < |es| ensures EntryOk(s, es[i]) && es[i].txn == t {
      assert es[i] in es;
      var j :| 0 <= j < |s.entries| && s.entries[j] == es[i];
    }
  }

  lemma PostKeepsRecords(req: Request, s: Store, p: Plan, s': Store)
    requires RecordsOk(s) && EntriesOk(s) && p.id !in s.txns && OwnEntries(p)
    requires s'.accounts == s.accounts && s'.txns == s.txns[p.id := p.txn] && s'.entries == s.entries + p.entries
    requires s'.records == s.records[req.key := PlanRecord(req, p)]
    ensures RecordsOk(s')
  {
    forall k | k in s'.records ensures RecordOk(s', s'.records[k]) {
      PostedEntries(s, p, p.id);
      if k != req.key {
        assert RecordOk(s, s.records[k]);
        if s.records[k].txn.Some? { PostedEntries(s, p, s.records[k].txn.value); }
      }
    }
    forall k | k in s.records ensures s.records[k].txn != Some(p.id) { assert RecordOk(s, s.records[k]); }
  }

  lemma PostKeepsOutbox(req: Request, s: Store, p: Plan, s': Store)
    requires OutboxOk(s) && EntriesOk(s) && PlanOk(req, s, p)
    requires s'.txns == s.txns[p.id := p.txn] && s'.entries == s.entries + p.entries
    requires s'.outbox == s.outbox[p.eventId := p.event]
    ensures OutboxOk(s')
  {
    hide AmountOk, KindOk, Undoes, EntriesOk, OwnEntries, EventOk;
    forall e | e in s'.outbox ensures EventOk(s', s'.outbox[e]) {
      if e != p.eventId {
        EventStays(s, p, s', s.outbox[e]);
      } else {
        NewEventOk(req, s, p, s');
      }
    }
    assert forall e :: e in s.outbox ==> s.outbox[e].aggregate != p.id by { NotYetAnnounced(s, p.id); }
    forall t | t in s'.txns ensures Announced(s', t) {
      if t == p.id {
        assert s'.outbox[p.eventId].aggregate == t;
      } else {
        assert Announced(s, t);
        var e :| e in s.outbox && s.outbox[e].aggregate == t;
        assert e in s'.outbox && s'.outbox[e].aggregate == t;
      }
    }
  }

  lemma NotYetAnnounced(s: Store, t: Id)
    requires OutboxOk(s) && t !in s.txns
    ensures forall e :: e in s.outbox ==> s.outbox[e].aggregate != t
  {
    forall e | e in s.outbox ensures s.outbox[e].aggregate != t { assert EventOk(s, s.outbox[e]); }
  }

  lemma EventStays(s: Store, p: Plan, s': Store, ev: Event)
    requires EntriesOk(s) && p.id !in s.txns && OwnEntries(p) && EventOk(s, ev)
    requires s'.txns == s.txns[p.id := p.txn] && s'.entries == s.entries + p.entries
    ensures EventOk(s', ev)
  {
    hide EntriesOk, OwnEntries, AmountOk;
    PostedEntries(s, p, ev.aggregate);
  }

  lemma NewEventOk(req: Request, s: Store, p: Plan, s': Store)
    requires EntriesOk(s) && PlanOk(req, s, p)
    requires s'.txns == s.txns[p.id := p.txn] && s'.entries == s.entries + p.entries
    ensures EventOk(s', p.event)
  {
    hide EntriesOk, OwnEntries, AmountOk, KindOk, Undoes;
    PostedEntries(s, p, p.id);
  }

  // The store a successful posting leaves, table by table.
  lemma PostShape(req: Request, s: Store, p: Plan, s': Store)
    requires Post(req, s, p).answer.Ok? && s' == Overlay(s, Post(req, s, p).delta)
    ensures HeaderError(s.txns, s.oneReversal, p).None? && TriggerPasses(p.entries)
    ensures EntriesError(s.accounts, s.txns[p.id := p.txn], p.entries, |p.entries|).None?
    ensures Apply(s.balances, SortEntries(p.entries), |SortEntries(p.entries)|).Rows?
    ensures s'.accounts == s.accounts && s'.entries == s.entries + p.entries
    ensures s'.balances == s.balances + Apply(s.balances, SortEntries(p.entries), |SortEntries(p.entries)|).rows
    ensures s'.txns == s.txns[p.id := p.txn] && s'.outbox == s.outbox[p.eventId := p.event]
    ensures s'.oneReversal == s.oneReversal + NewReversals(p) && s'.reversals == s.reversals + NewReversals(p)
    ensures s'.records == s.records[req.key := PlanRecord(req, p)]
  {
    PlusEmpty(s.accounts);
    PlusOne(s.txns, p.id, p.txn);
    PlusOne(s.outbox, p.eventId, p.event);
    PlusOne(s.records, req.key, PlanRecord(req, p));
  }

  lemma PostKeepsNet(s: Store, p: Plan, s': Store)
    requires NetOk(s) && EntriesOk(s) && p.id !in s.txns && p.id !in s.oneReversal && OwnEntries(p)
    requires p.txn.reverses.Some? ==> Undoes(s, p, p.txn.reverses.value)
    requires HeaderError(s.txns, s.oneReversal, p).None?
    requires s'.txns == s.txns[p.id := p.txn] && s'.entries == s.entries + p.entries
    requires s'.oneReversal == s.oneReversal + NewReversals(p)
    ensures NetOk(s')
  {
    if p.txn.reverses.None? {
      PlusEmpty(s.oneReversal);
      SettledAfterPay(s, p, s');
      PayKeepsNet(s, p, s');
    } else {
      var t := p.txn.reverses.value;
      PlusOne(s.oneReversal, t, p.id);
      SettledAfterUndo(s, p, t, s');
      UndoKeepsNet(s, p, t, s');
    }
  }

  lemma NewNotReversed(s: Store, id: Id)
    requires ReversalsOk(s) && id !in s.txns
    ensures id !in s.oneReversal
  {
    assert id in s.oneReversal ==> ReversedOnce(s, id);
  }

  lemma PostFailsClean(req: Request, s: Store, p: Plan)
    ensures Post(req, s, p).answer.Fail? ==> Post(req, s, p).delta == EMPTY
  {
  }

  lemma PostKeepsSound(req: Request, s: Store, p: Plan, s': Store)
    requires Sound(s) && PlanOk(req, s, p)
    requires Post(req, s, p).answer.Ok? && s' == Overlay(s, Post(req, s, p).delta)
    ensures Sound(s')
  {
    hide RowsOk, SumsOk, EntriesOk, TxnsOk, ReversalsOk, NetOk, RecordsOk, OutboxOk;
    PostShape(req, s, p, s');
    var es := SortEntries(p.entries);
    PostKeepsRows(s, es, Apply(s.balances, es, |es|).rows, s');
    PostKeepsSums(s, p.entries, Apply(s.balances, es, |es|).rows, s');
    PostKeepsEntries(s, p, s');
    PostKeepsTxns(s, p, s');
    PostKeepsReversals(s, p, s');
    NewNotReversed(s, p.id);
    PostKeepsNet(s, p, s');
    PostKeepsRecords(req, s, p, s');
    PostKeepsOutbox(req, s, p, s');
  }

  // ----- the other commands -----

  lemma CreateKeepsSound(cmd: Command, s: Store, s': Store)
    requires Sound(s) && cmd.Create? && Valid(cmd)
    requires cmd.id !in s.accounts && cmd.req.key !in s.records
    requires s' == Overlay(s, CreateDelta(cmd))
    ensures Sound(s')
  {
    hide RowsOk, SumsOk, EntriesOk, TxnsOk, ReversalsOk, NetOk, RecordsOk, OutboxOk;
    CreateShape(cmd, s, s');
    CreateKeepsRows(cmd, s, s');
    CreateKeepsSums(s, cmd.id, Balance(0, 0, cmd.account.overdraft), s');
    CreateKeepsEntries(s, cmd.id, cmd.account, s');
    CreateKeepsRecords(s, cmd.req.key, s');
    SameLedger(s, s');
  }

  lemma CreateShape(cmd: Command, s: Store, s': Store)
    requires cmd.Create? && s' == Overlay(s, CreateDelta(cmd))
    ensures s'.accounts == s.accounts[cmd.id := cmd.account]
    ensures s'.balances == s.balances[cmd.id := Balance(0, 0, cmd.account.overdraft)]
    ensures s'.txns == s.txns && s'.oneReversal == s.oneReversal && s'.entries == s.entries
    ensures s'.reversals == s.reversals && s'.outbox == s.outbox
    ensures s'.records
      == s.records[cmd.req.key := Record(cmd.req.hash, Completed(201, CreateBody(cmd)), None)]
  {
    PlusOne(s.accounts, cmd.id, cmd.account);
    PlusOne(s.balances, cmd.id, Balance(0, 0, cmd.account.overdraft));
    PlusOne(s.records, cmd.req.key, Record(cmd.req.hash, Completed(201, CreateBody(cmd)), None));
    PlusEmpty(s.txns);
    PlusEmpty(s.oneReversal);
    PlusEmpty(s.reversals);
    PlusEmpty(s.outbox);
    assert s.entries + [] == s.entries;
  }

  lemma CreateKeepsRows(cmd: Command, s: Store, s': Store)
    requires RowsOk(s) && cmd.Create? && Valid(cmd)
    requires s'.accounts == s.accounts[cmd.id := cmd.account]
    requires s'.balances == s.balances[cmd.id := Balance(0, 0, cmd.account.overdraft)]
    ensures RowsOk(s')
  {
  }

  lemma CreateKeepsSums(s: Store, a: AccountId, b: Balance, s': Store)
    requires SumsOk(s) && EntriesOk(s) && a !in s.accounts && b.amount == 0 && b.version == 0
    requires s'.balances == s.balances[a := b] && s'.entries == s.entries
    ensures SumsOk(s')
  {
    forall e | e in s.entries ensures !OfAccount(a)(e) {
      var i :| 0 <= i < |s.entries| && s.entries[i] == e;
      assert EntryOk(s, s.entries[i]);
    }
    SelectNone(s.entries, OfAccount(a));
  }

  lemma CreateKeepsEntries(s: Store, a: AccountId, account: Account, s': Store)
    requires EntriesOk(s) && a !in s.accounts
    requires s'.accounts == s.accounts[a := account] && s'.txns == s.txns && s'.entries == s.entries
    ensures EntriesOk(s')
  {
    forall i | 0 <= i < |s'.entries| ensures EntryOk(s', s'.entries[i]) {
      assert EntryOk(s, s.entries[i]);
    }
  }

  ghost predicate AccountsStay(s: Store, s': Store) {
    forall a :: a in s.accounts ==> a in s'.accounts && s'.accounts[a] == s.accounts[a]
  }

  lemma CreateKeepsRecords(s: Store, k: Key, s': Store)
    requires RecordsOk(s) && AccountsStay(s, s') && s'.txns == s.txns && s'.entries == s.entries
    requires k in s'.records && s'.records == s.records[k := s'.records[k]]
    requires s'.records[k].txn.None? && RecordOk(s', s'.records[k])
    ensures RecordsOk(s')
  {
    forall l | l in s'.records && l != k ensures RecordOk(s', s'.records[l]) {
      assert RecordOk(s, s.records[l]);
    }
  }

  // The parts of the invariant that speak of transactions, entries and events alone.
  lemma SameLedger(s: Store, s': Store)
    requires TxnsOk(s) && ReversalsOk(s) && NetOk(s) && OutboxOk(s) && AccountsStay(s, s')
    requires s'.txns == s.txns && s'.oneReversal == s.oneReversal && s'.entries == s.entries
    requires s'.reversals == s.reversals && s'.outbox == s.outbox
    ensures TxnsOk(s') && ReversalsOk(s') && NetOk(s') && OutboxOk(s')
  {
    TxnsSame(s, s');
    ReversalsSame(s, s');
    assert Settled(s') == Settled(s);
    OutboxSame(s, s');
  }

  lemma TxnsSame(s: Store, s': Store)
    requires TxnsOk(s) && AccountsStay(s, s') && s'.txns == s.txns && s'.entries == s.entries
    ensures TxnsOk(s')
  {
  }

  lemma ReversalsSame(s: Store, s': Store)
    requires ReversalsOk(s) && s'.txns == s.txns && s'.oneReversal == s.oneReversal
    requires s'.entries == s.entries && s'.reversals == s.reversals
    ensures ReversalsOk(s')
  {
    forall t | t in s'.oneReversal ensures ReversedOnce(s', t) {
      assert ReversedOnce(s, t);
    }
  }

  lemma OutboxSame(s: Store, s': Store)
    requires OutboxOk(s) && s'.txns == s.txns && s'.entries == s.entries && s'.outbox == s.outbox
    ensures OutboxOk(s')
  {
    forall t | t in s'.txns ensures Announced(s', t) {
      assert Announced(s, t);
    }
    forall e | e in s'.outbox ensures EventOk(s', s'.outbox[e]) {
      assert EventOk(s, s.outbox[e]);
    }
  }

  // What Begin establishes: the UUIDs drawn for a call are new.
  predicate Fresh(c: Call, s: Store) {
    c.txnId !in s.txns && c.eventId !in s.outbox
  }

  lemma PayPlanOk(c: Call, s: Store, source: Locked)
    requires Valid(c.cmd) && c.cmd.Transfer? && Fresh(c, s) && c.cmd.req.key !in s.records
    requires Lockable(s, c.cmd.source) && source == Seen(s, c.cmd.source)
    ensures PlanOk(c.cmd.req, s, PayPlan(c, source))
  {
  }

  lemma UndoPlanOk(c: Call, s: Store, t: Id)
    requires EntriesOk(s) && TxnsOk(s) && c.cmd.Reverse? && Fresh(c, s) && c.cmd.req.key !in s.records
    requires t in s.txns && s.txns[t].kind != ReversalKind
    ensures PlanOk(c.cmd.req, s, UndoPlan(c, t, s.txns[t], Select(s.entries, OfTxn(t))))
  {
    var es := Select(s.entries, OfTxn(t));
    TxnEntriesMirrorable(s, t);
    assert TxnOk(s.txns[t], es) && EntryOk(s, es[0]) && EntryOk(s, es[1]);
    var p := UndoPlan(c, t, s.txns[t], es);
    MirrorAt(es, p.id, 0);
    MirrorAt(es, p.id, 1);
    PairGross(es);
    forall i | 0 <= i < |p.entries|
      ensures p.entries[i].txn == p.id && p.entries[i].pos == i && Mirrorable(p.entries[i])
    {
      MirrorAt(es, p.id, i);
      assert EntryOk(s, es[i]);
    }
  }

  // Of two balanced entries the positive one is the gross amount, and minus the other.
  lemma PairGross(es: seq<Entry>)
    requires |es| == 2 && Balanced(es) && Mirrorable(es[0]) && Mirrorable(es[1])
    ensures Gross(es) > 0 && Gross(es) as int == if es[0].amount > 0 then es[0].amount as int else -(es[0].amount as int)
    ensures es[1].amount as int == -(es[0].amount as int)
  {
    assert es[..1][..0] == [] && es[..1][0] == es[0];
    assert Sum(es[..1]) == es[0].amount;
    assert Gross(es[..1]) == if es[0].amount > 0 then es[0].amount else 0;
  }

  lemma PreparedOk(c: Call, s: Store)
    requires Sound(s) && Valid(c.cmd) && !c.cmd.Create? && Fresh(c, s) && c.cmd.req.key !in s.records
    requires Prepare(c, s).Go?
    ensures PlanOk(c.cmd.req, s, Prepare(c, s).plan)
  {
    hide PlanOk, RowsOk, SumsOk, EntriesOk, TxnsOk, ReversalsOk, NetOk, RecordsOk, OutboxOk, Fresh, Valid, PayPlan, UndoPlan,
         Missing, Refusal, LockOrder, Select;
    if c.cmd.Transfer? {
      PayPlanOk(c, s, Seen(s, c.cmd.source));
    } else {
      UndoPlanOk(c, s, c.cmd.target.id);
    }
  }

  // Every validated command, run on sound books, leaves sound books; a failed one leaves them as
  // they were.
  lemma ExecKeepsSound(c: Call, s: Store)
    requires Sound(s) && Valid(c.cmd) && Fresh(c, s)
    ensures Sound(After(c, s))
    ensures Exec(c, s).answer.Fail? ==> After(c, s) == s
  {
    hide Sound, PlanOk, Prepare, Post, CreateDelta;
    OverlayEmpty(s);
    if c.cmd.req.key !in s.records {
      if c.cmd.Create? {
        if c.cmd.id !in s.accounts { CreateKeepsSound(c.cmd, s, After(c, s)); }
      } else if Prepare(c, s).Go? {
        PreparedOk(c, s);
        PostFailsClean(c.cmd.req, s, Prepare(c, s).plan);
        if Post(c.cmd.req, s, Prepare(c, s).plan).answer.Ok? {
          PostKeepsSound(c.cmd.req, s, Prepare(c, s).plan, After(c, s));
        }
      }
    }
  }
}
