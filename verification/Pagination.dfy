// Keyset pagination over an account's entries, newest first.
module Pagination {
  import opened Prelude

  // Where an entry stands in its account's history: creation time, then ID.
  datatype Position = Position(at: int, id: nat)

  predicate Before(x: Position, y: Position) {
    x.at < y.at || (x.at == y.at && x.id < y.id)
  }

  // The account's entries in index order, newest first.
  type Index = seq<Position>

  predicate Descends(index: Index) {
    forall i, j :: 0 <= i < j < |index| ==> Before(index[j], index[i])
  }

  // A cursor that decodes may carry no ID, which the query reads as NULL, or something that is not a UUID.
  datatype Cursor = NoCursor | At(p: Position) | NullId(at: int) | NotUuid | Garbled
  datatype Page = Page(entries: seq<Position>, next: Cursor)

  // A limit that is not positive, or above 500, becomes 100.
  function Clamp(limit: int): (n: nat)
    ensures 1 <= n <= 500
  {
    if limit <= 0 || limit > 500 then 100 else limit
  }

  // The row comparison with the cursor: with a NULL ID it holds only of strictly older entries.
  predicate Past(c: Cursor, p: Position) {
    (c.At? ==> Before(p, c.p)) && (c.NullId? ==> p.at < c.at)
  }

  // The entries older than the cursor.
  function Rest(index: Index, c: Cursor): Index {
    if index == [] then []
    else
      var p := index[|index| - 1];
      if Past(c, p) then Rest(index[..|index| - 1], c) + [p] else Rest(index[..|index| - 1], c)
  }

  function Fetch(index: Index, c: Cursor, limit: int): Page {
    var rest, n := Rest(index, c), Clamp(limit);
    if |rest| > n then Page(rest[..n], At(rest[n - 1])) else Page(rest, NoCursor)
  }

  lemma {:induction false} RestIs(index: Index, c: Cursor)
    requires Descends(index)
    ensures Descends(Rest(index, c))
    ensures forall p :: p in Rest(index, c) <==> p in index && Past(c, p)
  {
    if index != [] {
      var init, p := index[..|index| - 1], index[|index| - 1];
      assert index == init + [p];
      RestIs(init, c);
      var r := Rest(init, c);
      forall i | 0 <= i < |r| ensures Before(p, r[i]) {
        assert r[i] in r && r[i] in init;
        var k :| 0 <= k < |init| && init[k] == r[i];
        assert index[k] == r[i] && index[|init|] == p;
      }
    }
  }

  // What each cursor leaves to list; one without an ID also passes over the entries of its own instant.
  lemma CursorExactly(index: Index, p: Position, at: int, id: nat)
    requires Descends(index)
    ensures p in Rest(index, At(Position(at, id))) <==> p in index && (p.at < at || (p.at == at && p.id < id))
    ensures p in Rest(index, NullId(at)) <==> p in index && p.at < at
    ensures p in Rest(index, NoCursor) <==> p in index
  {
    RestIs(index, At(Position(at, id)));
    RestIs(index, NullId(at));
    RestIs(index, NoCursor);
  }

  // ----- a walk over a growing table -----

  /** Following NextCursor: fetch k reads the table as it is then, `tables[k]`, with any limit. The
      walk stops when a page has no cursor, or when `tables` gives out. */
  function Walk(tables: seq<Index>, limits: seq<int>, c: Cursor): seq<Page>
    requires |tables| == |limits|
  {
    if tables == [] then []
    else
      var page := Fetch(tables[0], c, limits[0]);
      if page.next.NoCursor? then [page] else [page] + Walk(tables[1..], limits[1..], page.next)
  }

  predicate Ended(pages: seq<Page>) {
    pages != [] && pages[|pages| - 1].next.NoCursor?
  }

  function Concat(pages: seq<Page>): seq<Position> {
    if pages == [] then [] else pages[0].entries + Concat(pages[1..])
  }

  // New entries may be appended anywhere between fetches; none ever leaves.
  predicate Grows(tables: seq<Index>) {
    && (forall k :: 0 <= k < |tables| ==> Descends(tables[k]))
    && forall j, k, p :: 0 <= j <= k < |tables| && p in tables[j] ==> p in tables[k]
  }

  lemma GrowsTail(tables: seq<Index>)
    requires Grows(tables) && tables != []
    ensures Grows(tables[1..])
    ensures Descends(tables[0])
  {
  }

  lemma FetchDescends(index: Index, c: Cursor, limit: int)
    requires Descends(index)
    ensures var page := Fetch(index, c, limit);
      && Descends(page.entries) && (page.next.At? || page.next.NoCursor?)
      && (forall p :: p in page.entries ==> p in index && Past(c, p))
      && (page.next.At? ==> page.next.p in index && Past(c, page.next.p) && (forall p :: p in page.entries ==> !Past(page.next, p)))
  {
    RestIs(index, c);
    var rest, n := Rest(index, c), Clamp(limit);
    if |rest| > n {
      assert forall p :: p in rest[..n] ==> p in rest;
      forall p | p in rest[..n] ensures !Before(p, rest[n - 1]) {
        var i :| 0 <= i < n && rest[i] == p;
        NotBoth(rest[n - 1], p);
      }
    }
  }

  lemma NotBoth(x: Position, y: Position)
    ensures !(Before(x, y) && Before(y, x)) && !Before(x, x)
  {
  }

  // Whatever is older than the cursor is on this page or older than the next cursor.
  lemma FetchSplits(index: Index, c: Cursor, limit: int, p: Position)
    requires Descends(index) && p in index && Past(c, p)
    ensures var page := Fetch(index, c, limit); p in page.entries || (page.next.At? && Past(page.next, p))
  {
    RestIs(index, c);
    var rest, n := Rest(index, c), Clamp(limit);
    if |rest| > n {
      var i :| 0 <= i < |rest| && rest[i] == p;
      if i < n {
        assert rest[..n][i] == p;
      }
    }
  }

  lemma DescendsAppend(x: Index, y: Index, c: Cursor)
    requires Descends(x) && Descends(y)
    requires (forall p :: p in x ==> !Past(c, p)) && (forall p :: p in y ==> Past(c, p)) && c.At?
    ensures Descends(x + y)
  {
    var z := x + y;
    forall i, j | 0 <= i < j < |z| ensures Before(z[j], z[i]) {
      if i < |x| <= j {
        assert z[i] in x && z[j] in y;
        Above(z[i], c.p, z[j]);
      }
    }
  }

  lemma Above(x: Position, c: Position, y: Position)
    requires !Before(x, c) && Before(y, c)
    ensures Before(y, x)
  {
  }

  /** No entry is ever returned twice: the whole walk strictly descends. */
  lemma {:induction false} WalkDescends(tables: seq<Index>, limits: seq<int>, c: Cursor)
    requires |tables| == |limits| && Grows(tables)
    ensures Descends(Concat(Walk(tables, limits, c)))
    ensures forall p :: p in Concat(Walk(tables, limits, c)) ==> Past(c, p) && p in tables[|tables| - 1]
  {
    hide Fetch, Grows, Past, Descends;
    if tables == [] {
      NothingDescends();
    } else {
      GrowsTail(tables);
      FetchDescends(tables[0], c, limits[0]);
      InLast(tables);
      var page := Fetch(tables[0], c, limits[0]);
      if page.next.NoCursor? {
        assert [page][1..] == [];
        assert page.entries + [] == page.entries;
      } else {
        var tail := Walk(tables[1..], limits[1..], page.next);
        WalkDescends(tables[1..], limits[1..], page.next);
        assert ([page] + tail)[1..] == tail;
        DescendsAppend(page.entries, Concat(tail), page.next);
        forall p | p in Concat(tail) ensures Past(c, p) && p in tables[|tables| - 1] {
          PastOn(c, page.next, p);
        }
      }
    }
  }

  lemma NothingDescends()
    ensures Descends([])
  {
  }

  lemma InLast(tables: seq<Index>)
    requires Grows(tables) && tables != []
    ensures forall p :: p in tables[0] ==> p in tables[|tables| - 1]
  {
  }

  lemma PastOn(c: Cursor, next: Cursor, p: Position)
    requires next.At? && Past(c, next.p) && Past(next, p)
    ensures Past(c, p)
  {
  }

  /** A walk that reaches its end has returned every entry that was there at the first fetch. */
  lemma {:induction false} WalkCompletes(tables: seq<Index>, limits: seq<int>, c: Cursor, p: Position)
    requires |tables| == |limits| && Grows(tables) && Ended(Walk(tables, limits, c))
    requires p in tables[0] && Past(c, p)
    ensures p in Concat(Walk(tables, limits, c))
  {
    hide Fetch, Grows, Past, Descends;
    GrowsTail(tables);
    FetchSplits(tables[0], c, limits[0], p);
    FetchDescends(tables[0], c, limits[0]);
    var page := Fetch(tables[0], c, limits[0]);
    if page.next.At? {
      var tail := Walk(tables[1..], limits[1..], page.next);
      assert ([page] + tail)[1..] == tail;
      assert tail != [];
      if p !in page.entries {
        InNext(tables, p);
        WalkCompletes(tables[1..], limits[1..], page.next, p);
      }
    }
  }

  lemma InNext(tables: seq<Index>, p: Position)
    requires Grows(tables) && |tables| > 1 && p in tables[0]
    ensures p in tables[1]
  {
  }

  // ----- each exactly once -----

  function Occurrences(s: seq<Position>, p: Position): nat {
    multiset(s)[p]
  }

  lemma {:induction false} DescendsOnce(x: Index, p: Position)
    requires Descends(x)
    ensures Occurrences(x, p) == if p in x then 1 else 0
  {
    if x != [] {
      var init, last := x[..|x| - 1], x[|x| - 1];
      DescendsOnce(init, p);
      assert x == init + [last];
      forall i | 0 <= i < |init| ensures init[i] != last {
        assert x[i] == init[i] && Before(x[|init|], x[i]);
        NotBoth(last, last);
      }
    }
  }

  /** While new entries are appended between fetches, a walk from the first page to the last returns
      each entry present at the first fetch exactly once, and no entry twice. */
  lemma PagesAreExact(tables: seq<Index>, limits: seq<int>, p: Position)
    requires |tables| == |limits| && Grows(tables) && Ended(Walk(tables, limits, NoCursor))
    ensures p in tables[0] ==> Occurrences(Concat(Walk(tables, limits, NoCursor)), p) == 1
    ensures Occurrences(Concat(Walk(tables, limits, NoCursor)), p) <= 1
  {
    hide Concat, Descends, Grows, Fetch;
    WalkDescends(tables, limits, NoCursor);
    DescendsOnce(Concat(Walk(tables, limits, NoCursor)), p);
    if p in tables[0] {
      WalkCompletes(tables, limits, NoCursor, p);
    }
  }

  // ----- a fixed table -----

  lemma {:induction false} SameMembersSame(x: Index, y: Index)
    requires Descends(x) && Descends(y) && forall p :: p in x <==> p in y
    ensures x == y
  {
    SomeMember(x);
    SomeMember(y);
    if x != [] && y != [] {
      FirstIsGreatest(x, y);
      forall p ensures p in x[1..] <==> p in y[1..] {
        InTail(x, p);
        InTail(y, p);
      }
      SameMembersSame(x[1..], y[1..]);
      assert x == [x[0]] + x[1..] && y == [y[0]] + y[1..];
    }
  }

  lemma SomeMember(x: Index)
    ensures x != [] ==> exists p :: p in x
  {
    if x != [] { assert x[0] in x; }
  }

  lemma FirstIsGreatest(x: Index, y: Index)
    requires Descends(x) && Descends(y) && x != [] && y != [] && forall p :: p in x <==> p in y
    ensures x[0] == y[0]
  {
    BelowFirst(x);
    BelowFirst(y);
    assert x[0] in y && y[0] in x;
    NotBoth(x[0], y[0]);
  }

  lemma BelowFirst(x: Index)
    requires Descends(x) && x != []
    ensures forall p :: p in x && p != x[0] ==> Before(p, x[0])
  {
  }

  lemma InTail(x: Index, p: Position)
    requires Descends(x) && x != []
    ensures p in x[1..] <==> p in x && p != x[0]
  {
  }

  // The next cursor stands exactly at the end of the page.
  lemma RestAfterPage(index: Index, c: Cursor, n: nat)
    requires Descends(index) && 1 <= n < |Rest(index, c)|
    ensures Rest(index, At(Rest(index, c)[n - 1])) == Rest(index, c)[n..]
  {
    var rest := Rest(index, c);
    var next := At(rest[n - 1]);
    RestIs(index, c);
    RestIs(index, next);
    forall p ensures p in rest[n..] <==> p in index && Past(next, p) {
      AfterNth(rest, n, p);
      if p in index && Past(next, p) {
        assert rest[n - 1] in rest;
        PastOn(c, next, p);
      }
    }
    SameMembersSame(Rest(index, next), rest[n..]);
  }

  lemma AfterNth(rest: Index, n: nat, p: Position)
    requires Descends(rest) && 1 <= n < |rest|
    ensures p in rest[n..] <==> p in rest && Before(p, rest[n - 1])
  {
  }

  function Same(index: Index, n: nat): (r: seq<Index>)
    ensures |r| == n
  {
    seq(n, _ => index)
  }

  /** Over a fixed table the walk ends after at most one page more than there are entries, and its
      pages are the table's list of entries, newest first. */
  lemma {:induction false} PagesConcatenate(index: Index, limits: seq<int>, c: Cursor)
    requires Descends(index) && |limits| > |Rest(index, c)|
    ensures Ended(Walk(Same(index, |limits|), limits, c))
    ensures Concat(Walk(Same(index, |limits|), limits, c)) == Rest(index, c)
    decreases |limits|
  {
    hide Rest, Descends;
    var rest, n := Rest(index, c), Clamp(limits[0]);
    var page := Fetch(index, c, limits[0]);
    if |rest| > n {
      RestAfterPage(index, c, n);
      assert Same(index, |limits|)[1..] == Same(index, |limits[1..]|);
      PagesConcatenate(index, limits[1..], page.next);
      var tail := Walk(Same(index, |limits[1..]|), limits[1..], page.next);
      assert ([page] + tail)[1..] == tail;
      assert rest[..n] + rest[n..] == rest;
    } else {
      assert [page][1..] == [];
      assert page.entries + [] == page.entries;
    }
  }

  lemma AllRest(index: Index)
    requires Descends(index)
    ensures Rest(index, NoCursor) == index
  {
    RestIs(index, NoCursor);
    SameMembersSame(Rest(index, NoCursor), index);
  }

  // ----- the code -----

  datatype Listing = NoSuchAccount | InvalidCursor | DatabaseError | Listed(page: Page)

  lemma {:induction false} RestPrefix(index: Index, i: nat, c: Cursor)
    requires i <= |index|
    ensures Rest(index[..i], c) <= Rest(index, c)
  {
    if i < |index| {
      RestPrefix(index[..|index| - 1], i, c);
      assert index[..|index| - 1][..i] == index[..i];
    } else {
      assert index[..i] == index;
    }
  }

  /** A page holds as many of the remaining entries as asked for, 100 when that is not between 1 and
      500, and gives a cursor exactly if entries are left after it. */
  method ListEntries(known: bool, index: Index, limit: int, cursor: Cursor) returns (r: Listing)
    ensures r.NoSuchAccount? <==> !known
    ensures r.InvalidCursor? <==> known && cursor.Garbled?
    ensures r.DatabaseError? <==> known && cursor.NotUuid?
    ensures r.Listed? ==> r.page == Fetch(index, cursor, limit)
    ensures r.Listed? ==>
      var rest, size := |Rest(index, cursor)|, if 1 <= limit <= 500 then limit else 100;
      |r.page.entries| == (if size < rest then size else rest) && (r.page.next.NoCursor? <==> rest <= size)
  {
    if !known {
      return NoSuchAccount;
    }
    var n := limit;
    if limit <= 0 || limit > 500 {
      n := 100;
    }
    if cursor.Garbled? {
      return InvalidCursor;
    }
    if cursor.NotUuid? {
      return DatabaseError;
    }
    var entries: seq<Position> := [];
    var i := 0;
    while i < |index| && |entries| < n + 1
      invariant i <= |index| && entries == Rest(index[..i], cursor) && |entries| <= n + 1
    {
      assert index[..i + 1][..i] == index[..i];
      if Past(cursor, index[i]) {
        entries := entries + [index[i]];
      }
      i := i + 1;
    }
    RestPrefix(index, i, cursor);
    var next := NoCursor;
    if |entries| > n {
      next := At(entries[n - 1]);
      entries := entries[..n];
    } else {
      assert index[..i] == index;
    }
    return Listed(Page(entries, next));
  }
}
