/** Keyset paging with filtering after the limit, and the client loop that collects the pages. */
module Paging {
  import opened Basics

  /** A listed row: its timestamp, its id, and whatever else the filter looks at. */
  datatype Row = Row(ts: int, id: Id, subject: Id)

  /** ORDER BY ts DESC, id. */
  predicate Precedes(a: Row, b: Row) { a.ts > b.ts || (a.ts == b.ts && a.id < b.id) }

  /** The table in listing order; ids are unique, and never the nil uuid. */
  ghost predicate Listed(table: seq<Row>)
  {
    && (forall i, j :: 0 <= i < j < |table| ==> Precedes(table[i], table[j]))
    && (forall i :: 0 <= i < |table| ==> table[i].id != 0)
  }

  datatype Cursor = Cursor(ts: int, id: Id)

  /** The next-page token; None is the empty token. */
  type Token = Option<Cursor>

  /** Decoding refuses a cursor without an id. */
  predicate Decodes(t: Token) { t.Some? ==> t.value.id != 0 }

  /** The WHERE clause of the paged queries. */
  predicate Beyond(t: Token, r: Row)
  {
    t.None? || r.ts < t.value.ts || (r.ts == t.value.ts && r.id > t.value.id)
  }

  function Filter(rows: seq<Row>, keep: Row -> bool): seq<Row>
  {
    if rows == [] then []
    else Filter(rows[..|rows| - 1], keep) + if keep(rows[|rows| - 1]) then [rows[|rows| - 1]] else []
  }

  lemma {:induction false} FilterConcat(a: seq<Row>, b: seq<Row>, keep: Row -> bool)
    ensures Filter(a + b, keep) == Filter(a, keep) + Filter(b, keep)
    decreases |b|
  {
    if b == [] {
      assert a + b == a;
    } else {
      FilterConcat(a, b[..|b| - 1], keep);
      assert (a + b)[..|a + b| - 1] == a + b[..|b| - 1];
    }
  }

  lemma {:induction false} FilterAll(rows: seq<Row>, keep: Row -> bool, all: bool)
    requires forall i :: 0 <= i < |rows| ==> keep(rows[i]) == all
    ensures Filter(rows, keep) == if all then rows else []
    decreases |rows|
  {
    if rows != [] {
      FilterAll(rows[..|rows| - 1], keep, all);
      assert rows == rows[..|rows| - 1] + [rows[|rows| - 1]];
    }
  }

  function IsBeyond(t: Token): Row -> bool { r => Beyond(t, r) }

  /** The paged query: the first `limit` rows beyond the cursor. */
  function SqlPage(table: seq<Row>, t: Token, limit: nat): seq<Row>
  {
    var rows := Filter(table, IsBeyond(t));
    if |rows| <= limit then rows else rows[..limit]
  }

  function ClampPageSize(n: int): (limit: nat)
    ensures 1 <= limit <= 100
    ensures 1 <= n <= 100 <==> limit == n
    ensures limit == n || limit == 50
  {
    if n <= 0 || n > 100 then 50 else n
  }

  /** The cursor stands after the first p rows of the table. */
  ghost predicate StandsAt(table: seq<Row>, t: Token, p: nat)
  {
    p <= |table| && t == if p == 0 then None else Some(Cursor(table[p - 1].ts, table[p - 1].id))
  }

  /** From there the query sees exactly the rest of the table. */
  lemma BeyondIsRest(table: seq<Row>, t: Token, p: nat)
    requires Listed(table) && StandsAt(table, t, p)
    ensures Filter(table, IsBeyond(t)) == table[p..]
  {
    assert table == table[..p] + table[p..];
    FilterConcat(table[..p], table[p..], IsBeyond(t));
    forall i | 0 <= i < |table[p..]| ensures IsBeyond(t)(table[p..][i]) {
      if p > 0 { assert Precedes(table[p - 1], table[p + i]); }
    }
    forall i | 0 <= i < |table[..p]| && p > 0 ensures !IsBeyond(t)(table[..p][i]) {
      if i < p - 1 { assert Precedes(table[i], table[p - 1]); }
    }
    FilterAll(table[p..], IsBeyond(t), true);
    if p > 0 { FilterAll(table[..p], IsBeyond(t), false); }
  }

  /** One page: the cursor follows the last row scanned, the filter comes after. None for a bad token. */
  method ListPaged(table: seq<Row>, pageSize: int, t: Token, keep: Row -> bool)
    returns (page: Option<(seq<Row>, Token)>)
    ensures page.None? <==> !Decodes(t)
    ensures page.Some? ==>
      var rows := SqlPage(table, t, ClampPageSize(pageSize));
      && page.value.0 == Filter(rows, keep)
      && page.value.1 ==
         if |rows| == ClampPageSize(pageSize) then Some(Cursor(rows[|rows| - 1].ts, rows[|rows| - 1].id)) else None
  {
    if t.Some? && t.value.id == 0 { return None; }
    var limit := ClampPageSize(pageSize);
    var rows := SqlPage(table, t, limit);
    var next: Token := None;
    if |rows| == limit { next := Some(Cursor(rows[|rows| - 1].ts, rows[|rows| - 1].id)); }
    var out: seq<Row> := [];
    var i := 0;
    while i < |rows|
      invariant 0 <= i <= |rows| && out == Filter(rows[..i], keep)
    {
      assert rows[..i + 1][..i] == rows[..i];
      if keep(rows[i]) { out := out + [rows[i]]; }
      i := i + 1;
    }
    assert rows[..|rows|] == rows;
    return Some((out, next));
  }

  /** What a page from position p is, and where it leaves the cursor. */
  lemma PageStep(table: seq<Row>, t: Token, p: nat, limit: nat, keep: Row -> bool)
    requires Listed(table) && StandsAt(table, t, p) && limit > 0
    ensures var rows := SqlPage(table, t, limit); var q := p + |rows|;
      && q <= |table| && rows == table[p..q] && (|rows| < limit ==> q == |table|)
      && Filter(table[..q], keep) == Filter(table[..p], keep) + Filter(rows, keep)
      && (|rows| == limit ==> StandsAt(table, Some(Cursor(rows[|rows| - 1].ts, rows[|rows| - 1].id)), q))
  {
    BeyondIsRest(table, t, p);
    var rows := SqlPage(table, t, limit);
    assert table[..p + |rows|] == table[..p] + rows;
    FilterConcat(table[..p], rows, keep);
  }

  /** collectPages over an unchanging table: it ends, and returns exactly the filter of the whole table in
      order, however many pages are filtered away. */
  method CollectPages(table: seq<Row>, pageSize: int, keep: Row -> bool) returns (all: Option<seq<Row>>)
    requires Listed(table)
    ensures all == Some(Filter(table, keep))
  {
    var got: seq<Row> := [];
    var token: Token := None;
    ghost var p := 0;
    while true
      invariant StandsAt(table, token, p) && got == Filter(table[..p], keep) && Decodes(token)
      decreases |table| - p
    {
      PageStep(table, token, p, ClampPageSize(pageSize), keep);
      ghost var n := |SqlPage(table, token, ClampPageSize(pageSize))|;
      var page := ListPaged(table, pageSize, token, keep);
      if page.None? { return None; }
      var (items, next) := page.value;
      got := got + items;
      p := p + n;
      if next.None? {
        assert table[..p] == table;
        return Some(got);
      }
      token := next;
    }
  }
}
