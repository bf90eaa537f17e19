/** The usage query (apps/web/src/server/usage/store.ts): totals, points and groups of the
    selected bucket rows, and the rounded change against the previous period. */
module Query {
  import opened UsageTypes
  import opened Arithmetic

  /** A bucket row as the SQL query yields it. */
  datatype Row = Row(start: int, user: User, machine: string, upload: int, download: int,
                     estimated: bool, incomplete: bool)

  datatype Cell = Cell(upload: int, download: int, estimated: bool, incomplete: bool)

  /** An insertion-ordered map of cells. */
  datatype Table<K> = Table(order: seq<K>, cells: map<K, Cell>)

  function Plus(c: Cell, row: Row, flagged: bool): Cell {
    Cell(c.upload + row.upload, c.download + row.download,
         c.estimated || row.estimated, c.incomplete || row.incomplete || flagged)
  }

  function Insert<K(==)>(t: Table<K>, k: K, row: Row, flagged: bool): Table<K> {
    var cell := if k in t.cells then t.cells[k] else Cell(0, 0, false, false);
    Table(if k in t.cells then t.order else t.order + [k], t.cells[k := Plus(cell, row, flagged)])
  }

  function GroupKey(row: Row): (User, string) { (row.user, row.machine) }

  // ---------------------------------------------------------------- reference sums

  function Amount(row: Row, dir: Direction): int { if dir == Up then row.upload else row.download }

  function CellAmount(c: Cell, dir: Direction): int { if dir == Up then c.upload else c.download }

  ghost function RowTotal(rows: seq<Row>, dir: Direction): int {
    if rows == [] then 0 else RowTotal(rows[..|rows| - 1], dir) + Amount(rows[|rows| - 1], dir)
  }

  /** The rows that carry a tag. */
  ghost function Labelled<K(!new)>(rows: seq<Row>, tag: Row -> K, k: K): seq<Row> {
    if rows == [] then []
    else
      var last := rows[|rows| - 1];
      Labelled(rows[..|rows| - 1], tag, k) + if tag(last) == k then [last] else []
  }

  /** A cell carries exactly the bytes and flags of its rows. */
  ghost predicate Matches(c: Cell, rows: seq<Row>, flag: Row -> bool) {
    && c.upload == RowTotal(rows, Up) && c.download == RowTotal(rows, Down)
    && (c.estimated <==> exists r :: r in rows && r.estimated)
    && (c.incomplete <==> exists r :: r in rows && (r.incomplete || flag(r)))
  }

  /** Every key is listed, once. */
  ghost predicate Listed<K>(t: Table<K>) {
    && (forall i :: 0 <= i < |t.order| ==> t.order[i] in t.cells)
    && (forall i, j :: 0 <= i < j < |t.order| ==> t.order[i] != t.order[j])
    && (forall k :: k in t.cells ==> k in t.order)
  }

  /** The keys are the tags of the rows, and every cell matches the rows of its tag. */
  ghost predicate Filled<K(!new)>(t: Table<K>, rows: seq<Row>, tag: Row -> K, flag: Row -> bool) {
    forall k :: && (k in t.cells <==> Labelled(rows, tag, k) != [])
                && (k in t.cells ==> Matches(t.cells[k], Labelled(rows, tag, k), flag))
  }

  ghost function TableTotal<K>(t: Table<K>, n: nat, dir: Direction): int
    requires n <= |t.order| && Listed(t)
  {
    if n == 0 then 0 else TableTotal(t, n - 1, dir) + CellAmount(t.cells[t.order[n - 1]], dir)
  }

  lemma RowTotalAppend(rows: seq<Row>, row: Row, dir: Direction)
    ensures RowTotal(rows + [row], dir) == RowTotal(rows, dir) + Amount(row, dir)
  {
    assert (rows + [row])[..|rows|] == rows;
  }

  lemma LabelledAppend<K(!new)>(rows: seq<Row>, row: Row, tag: Row -> K, k: K)
    ensures Labelled(rows + [row], tag, k) == Labelled(rows, tag, k) + if tag(row) == k then [row] else []
  {
    assert (rows + [row])[..|rows|] == rows;
  }

  lemma PlusMatches(c: Cell, rows: seq<Row>, row: Row, flag: Row -> bool)
    requires Matches(c, rows, flag)
    ensures Matches(Plus(c, row, flag(row)), rows + [row], flag)
  {
    hide RowTotal;
    RowTotalAppend(rows, row, Up);
    RowTotalAppend(rows, row, Down);
    assert forall r :: r in rows + [row] <==> r in rows || r == row;
  }

  lemma InsertListed<K>(t: Table<K>, k: K, row: Row, flagged: bool)
    requires Listed(t)
    ensures Listed(Insert(t, k, row, flagged))
  {
    var u := Insert(t, k, row, flagged);
    forall j | j in u.cells ensures j in u.order {
      if j in t.cells { assert j in t.order; } else { assert u.order[|t.order|] == k; }
    }
  }

  lemma InsertFilled<K(!new)>(t: Table<K>, rows: seq<Row>, row: Row, tag: Row -> K, flag: Row -> bool)
    requires Filled(t, rows, tag, flag)
    ensures Filled(Insert(t, tag(row), row, flag(row)), rows + [row], tag, flag)
  {
    hide Matches;
    hide Labelled;
    var k := tag(row);
    var u := Insert(t, k, row, flag(row));
    NothingMatches(flag);
    PlusMatches(if k in t.cells then t.cells[k] else Cell(0, 0, false, false), Labelled(rows, tag, k), row, flag);
    forall j
      ensures j in u.cells <==> Labelled(rows + [row], tag, j) != []
      ensures j in u.cells ==> Matches(u.cells[j], Labelled(rows + [row], tag, j), flag)
    {
      LabelledAppend(rows, row, tag, j);
      if j != k { assert Labelled(rows + [row], tag, j) == Labelled(rows, tag, j); }
    }
  }

  lemma NothingMatches(flag: Row -> bool)
    ensures Matches(Cell(0, 0, false, false), [], flag)
  {}

  /** Inserting a row raises the table's total by the row's bytes. */
  lemma {:induction false} InsertTotal<K>(t: Table<K>, k: K, row: Row, flagged: bool, n: nat, dir: Direction)
    requires Listed(t) && Listed(Insert(t, k, row, flagged)) && n <= |t.order|
    ensures TableTotal(Insert(t, k, row, flagged), n, dir)
            == TableTotal(t, n, dir) + if k in t.order[..n] then Amount(row, dir) else 0
  {
    hide Listed;
    if n > 0 {
      InsertTotal(t, k, row, flagged, n - 1, dir);
      InsertAt(t, k, row, flagged, n - 1);
      assert t.order[..n] == t.order[..n - 1] + [t.order[n - 1]];
    }
  }

  lemma InsertAt<K>(t: Table<K>, k: K, row: Row, flagged: bool, i: nat)
    requires Listed(t) && i < |t.order|
    ensures var u := Insert(t, k, row, flagged);
            && i < |u.order| && u.order[i] == t.order[i] && t.order[i] in t.cells && t.order[i] in u.cells
            && u.cells[t.order[i]] == (if t.order[i] == k then Plus(t.cells[k], row, flagged) else t.cells[t.order[i]])
            && t.order[i] !in t.order[..i]
  {}

  lemma InsertTotals<K>(t: Table<K>, k: K, row: Row, flagged: bool, dir: Direction)
    requires Listed(t)
    ensures var u := Insert(t, k, row, flagged);
            Listed(u) && TableTotal(u, |u.order|, dir) == TableTotal(t, |t.order|, dir) + Amount(row, dir)
  {
    InsertListed(t, k, row, flagged);
    InsertTotal(t, k, row, flagged, |t.order|, dir);
    assert t.order[..|t.order|] == t.order;
  }

  // ---------------------------------------------------------------- the query loop

  method Add<K(!new, ==)>(t: Table<K>, ghost rows: seq<Row>, row: Row, tag: Row -> K, flag: Row -> bool)
    returns (u: Table<K>)
    requires Listed(t) && Filled(t, rows, tag, flag)
    ensures Listed(u) && Filled(u, rows + [row], tag, flag)
    ensures TableTotal(u, |u.order|, Up) == TableTotal(t, |t.order|, Up) + row.upload
    ensures TableTotal(u, |u.order|, Down) == TableTotal(t, |t.order|, Down) + row.download
  {
    hide Listed;
    hide Filled;
    u := Insert(t, tag(row), row, flag(row));
    InsertFilled(t, rows, row, tag, flag);
    InsertTotals(t, tag(row), row, flag(row), Up);
    InsertTotals(t, tag(row), row, flag(row), Down);
  }

  function StartOf(row: Row): int { row.start }

  function Unflagged(row: Row): bool { false }

  /** Totals, points and groups agree: both tables list each tag once, carry exactly the
      bytes and flags of its rows, and add up to the returned totals. A machine that is not
      reporting marks its groups incomplete. */
  method Totals(rows: seq<Row>, issues: set<string>)
    returns (upload: int, download: int, points: Table<int>, groups: Table<(User, string)>)
    ensures upload == RowTotal(rows, Up) && download == RowTotal(rows, Down)
    ensures Listed(points) && Filled(points, rows, StartOf, Unflagged)
    ensures Listed(groups) && Filled(groups, rows, GroupKey, (r: Row) => r.machine in issues)
    ensures TableTotal(points, |points.order|, Up) == upload == TableTotal(groups, |groups.order|, Up)
    ensures TableTotal(points, |points.order|, Down) == download == TableTotal(groups, |groups.order|, Down)
  {
    hide Filled;
    var silent := (r: Row) => r.machine in issues;
    upload, download := 0, 0;
    points, groups := Table([], map[]), Table([], map[]);
    EmptyFilled(points, StartOf, Unflagged);
    EmptyFilled(groups, GroupKey, silent);
    for i := 0 to |rows|
      invariant upload == RowTotal(rows[..i], Up) && download == RowTotal(rows[..i], Down)
      invariant Listed(points) && Filled(points, rows[..i], StartOf, Unflagged)
      invariant Listed(groups) && Filled(groups, rows[..i], GroupKey, silent)
      invariant TableTotal(points, |points.order|, Up) == upload == TableTotal(groups, |groups.order|, Up)
      invariant TableTotal(points, |points.order|, Down) == download == TableTotal(groups, |groups.order|, Down)
    {
      var row := rows[i];
      assert rows[..i + 1] == rows[..i] + [row];
      RowTotalAppend(rows[..i], row, Up);
      RowTotalAppend(rows[..i], row, Down);
      points := Add(points, rows[..i], row, StartOf, Unflagged);
      groups := Add(groups, rows[..i], row, GroupKey, silent);
      upload := upload + row.upload;
      download := download + row.download;
    }
    assert rows[..|rows|] == rows;
  }

  lemma EmptyFilled<K(!new)>(t: Table<K>, tag: Row -> K, flag: Row -> bool)
    requires t == Table([], map[])
    ensures Filled(t, [], tag, flag)
  {}

  // ---------------------------------------------------------------- the change in percent

  /** The change in hundredths of a percent, with BigInt division of non-negative operands. */
  function BasisPoints(current: int, previous: int): int
    requires 0 < previous
  {
    var numerator := (current - previous) * 10_000;
    if numerator >= 0 then (numerator + previous / 2) / previous else -((-numerator + previous / 2) / previous)
  }

  /** The nearest integer to n / d, halves rounded away from zero. */
  ghost predicate Nearest(b: int, n: int, d: int) {
    var twice := 2 * (n - b * d);
    -d <= twice <= d && (twice == d ==> n < 0) && (twice == -d ==> n > 0)
  }

  /** changePercent is the nearest hundredth of a percent, ties away from zero for growth
      and decline alike, and no other value is. */
  lemma ChangeRounded(current: int, previous: int, b: int)
    requires 0 < previous
    ensures Nearest(b, (current - previous) * 10_000, previous) <==> b == BasisPoints(current, previous)
  {
    var n := (current - previous) * 10_000;
    if n >= 0 {
      RoundHalfUp(n, previous, b);
    } else {
      RoundHalfUp(-n, previous, -b);
      assert -n - -b * previous == -(n - b * previous) by { assert -b * previous == -(b * previous); }
    }
  }

  lemma RoundHalfUp(n: int, d: int, b: int)
    requires 0 <= n && 0 < d
    ensures Nearest(b, n, d) <==> b == (n + d / 2) / d
  {
    var q := (n + d / 2) / d;
    FloorDivision(n + d / 2, d);
    assert d * q == q * d && d * b == b * d;
    assert Nearest(q, n, d);
    if Nearest(b, n, d) {
      QuotientUnique(n + d / 2, d, b);
    }
  }
}
