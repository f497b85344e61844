/** Reading a whole table page by page while rows may be appended between requests. */
module Paging {
  import opened Options

  datatype Row = Row(id: nat, body: string)

  /**
   * The rows there at the start, what is appended before each later request, and the requests
   * answered with no list.
   */
  datatype Server = Server(initial: seq<Row>, appended: seq<seq<Row>>, broken: set<nat>)

  function Concat(parts: seq<seq<Row>>): seq<Row> {
    if parts == [] then [] else Concat(parts[..|parts| - 1]) + parts[|parts| - 1]
  }

  /** The table request k sees. */
  function Table(s: Server, k: nat): seq<Row> {
    s.initial + Concat(if k < |s.appended| then s.appended[..k] else s.appended)
  }

  function Final(s: Server): seq<Row> { Table(s, |s.appended|) }

  /** Ids are positive and grow along the table. */
  predicate IdsGrow(rows: seq<Row>) {
    && (forall i :: 0 <= i < |rows| ==> rows[i].id > 0)
    && forall i, j :: 0 <= i < j < |rows| ==> rows[i].id < rows[j].id
  }

  lemma {:induction false} ConcatGrows(parts: seq<seq<Row>>, k: nat)
    requires k <= |parts|
    ensures Concat(parts[..k]) <= Concat(parts)
    decreases |parts|
  {
    if k == |parts| {
      assert parts[..k] == parts;
    } else {
      var n := |parts| - 1;
      ConcatGrows(parts[..n], k);
      assert parts[..n][..k] == parts[..k];
    }
  }

  lemma TableGrows(s: Server, j: nat, k: nat)
    requires j <= k
    ensures Table(s, j) <= Table(s, k) <= Final(s)
    ensures s.initial <= Table(s, j)
  {
    var all := s.appended;
    assert all[..|all|] == all;
    if k < |all| {
      ConcatGrows(all, k);
      ConcatGrows(all[..k], j);
      assert all[..k][..j] == all[..j];
    } else if j < |all| {
      ConcatGrows(all, j);
    }
  }

  // ----- by key

  /** Rows above an id, in id order, at most limit of them. */
  function Above(rows: seq<Row>, after: nat, limit: nat): seq<Row> {
    if rows == [] || limit == 0 then []
    else if rows[0].id > after then [rows[0]] + Above(rows[1..], after, limit - 1)
    else Above(rows[1..], after, limit)
  }

  lemma {:induction false} AllAbove(rows: seq<Row>, after: nat, limit: nat)
    requires forall i :: 0 <= i < |rows| ==> rows[i].id > after
    ensures Above(rows, after, limit) == if limit < |rows| then rows[..limit] else rows
  {
    if rows != [] && limit > 0 {
      AllAbove(rows[1..], after, limit - 1);
      assert rows == [rows[0]] + rows[1..];
    }
  }

  /** Asking above the last id read continues where the reading stopped. */
  lemma {:induction false} AboveContinues(rows: seq<Row>, read: nat, after: nat, limit: nat)
    requires read <= |rows|
    requires forall i :: 0 <= i < read ==> rows[i].id <= after
    requires forall i :: read <= i < |rows| ==> rows[i].id > after
    ensures Above(rows, after, limit) == rows[read..if read + limit < |rows| then read + limit else |rows|]
  {
    if read == 0 {
      AllAbove(rows, after, limit);
    } else if limit > 0 {
      AboveContinues(rows[1..], read - 1, after, limit);
    }
  }

  function LastId(rows: seq<Row>): nat { if rows == [] then 0 else rows[|rows| - 1].id }

  /** A request above the last id read is the next page of what it sees. */
  lemma NextPage(now: seq<Row>, rows: seq<Row>, limit: nat)
    requires IdsGrow(now) && rows <= now
    ensures var data := Above(now, LastId(rows), limit);
      && |data| <= limit && rows + data <= now
      && (|data| < limit ==> rows + data == now)
  {
    AboveContinues(now, |rows|, LastId(rows), limit);
  }

  /**
   * The rows of the table the last request saw, each once and in id order; a broken answer ends the
   * reading early, unnoticed.
   */
  method Page(s: Server, pageSize: nat) returns (rows: seq<Row>, requests: nat)
    requires pageSize > 0 && IdsGrow(Final(s))
    ensures requests > 0 && rows <= Table(s, requests - 1)
    ensures requests - 1 !in s.broken ==> rows == Table(s, requests - 1) && s.initial <= rows
    ensures IdsGrow(rows)
    ensures forall k :: 0 <= k < requests - 1 ==> k !in s.broken
  {
    hide Table, Final, Above;
    rows, requests := [], 0;
    var after := 0;
    TableGrows(s, 0, 0);
    while true
      invariant rows <= Table(s, requests) <= Final(s)
      invariant after == LastId(rows)
      invariant forall k :: 0 <= k < requests ==> k !in s.broken
      decreases |Final(s)| - |rows|
    {
      ghost var now := Table(s, requests);
      TableGrows(s, requests, requests + 1);
      requests := requests + 1;
      if requests - 1 in s.broken { break; }
      var data := Above(Table(s, requests - 1), after, pageSize);
      NextPage(now, rows, pageSize);
      if data == [] { break; }
      rows := rows + data;
      after := data[|data| - 1].id;
      if |data| < pageSize { break; }
    }
  }

  // ----- by offset

  function From(rows: seq<Row>, offset: nat, limit: nat): seq<Row> {
    if offset >= |rows| then [] else if offset + limit < |rows| then rows[offset..offset + limit] else rows[offset..]
  }

  lemma NextSlice(now: seq<Row>, rows: seq<Row>, limit: nat)
    requires rows <= now
    ensures var data := From(now, |rows|, limit);
      && |data| <= limit && rows + data <= now
      && (|data| < limit ==> rows + data == now)
  {
  }

  /** The whole table, also when rows are appended meanwhile; a broken answer is an error here. */
  method GetAll(s: Server, limit: nat) returns (r: Option<seq<Row>>, requests: nat)
    requires limit > 0
    ensures requests > 0
    ensures r.Some? ==> r.value == Table(s, requests - 1) && s.initial <= r.value
    ensures r.None? <==> requests - 1 in s.broken
    ensures s.appended == [] && r.Some? ==> r.value == s.initial
  {
    hide Table, Final, From;
    var rows: seq<Row> := [];
    var offset := 0;
    requests := 0;
    TableGrows(s, 0, 0);
    while true
      invariant |rows| == offset && rows <= Table(s, requests) <= Final(s)
      decreases |Final(s)| - |rows|
    {
      TableGrows(s, requests, requests + 1);
      ghost var now := Table(s, requests);
      requests := requests + 1;
      if requests - 1 in s.broken { return None, requests; }
      var page := From(Table(s, requests - 1), offset, limit);
      NextSlice(now, rows, limit);
      rows := rows + page;
      if |page| < limit { break; }
      offset := offset + limit;
    }
    if s.appended == [] { Stable(s, requests - 1); }
    return Some(rows), requests;
  }

  lemma Stable(s: Server, k: nat)
    requires s.appended == []
    ensures Table(s, k) == s.initial
  {
    assert Concat([]) == [];
  }

  /** A row deleted between two requests makes the offset reading miss one that was there all along. */
  lemma DeletionLosesARow(a: Row, b: Row, c: Row)
    requires a != b && b != c && a != c
    ensures var first, second := From([a, b, c], 0, 1), From([b, c], 1, 1); b !in first + second
  {
    assert [b, c][1..] == [c];
    assert [a, b, c][0..1] == [a];
  }
}
