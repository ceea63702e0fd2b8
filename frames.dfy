/** The sales tables the dashboard works on: rows, the optional date and
    month columns, the agency stamp each loader adds, and the consolidation
    of the three agency tables into one global table. */
module Frames {
  import opened Wrappers

  /** The fixed agency labels the three loaders stamp. */
  const Douala: string := "Douala"
  const Yaounde: string := "Yaoundé"
  const Garoua: string := "Garoua"

  lemma AgencyLabelsDistinct()
    ensures Douala != Yaounde && Douala != Garoua && Yaounde != Garoua
  {
    assert Douala[0] != Yaounde[0] && Douala[0] != Garoua[0] && Yaounde[0] != Garoua[0];
  }

  /** Errors the pipeline can raise. */
  datatype Error =
    | NoTablesToConcatenate          // every table handed to the concatenation was absent
    | UnparseableDate(cell: Date)    // a Date cell that is not a calendar date
    | MissingColumn(column: string)  // a rollup grouped by a column the table lacks

  /** A Date cell as it comes out of a source file, before it is parsed. */
  datatype Date = Date(year: int, month: int, day: int)

  predicate IsLeapYear(year: int) {
    (year % 4 == 0 && year % 100 != 0) || year % 400 == 0
  }

  function DaysInMonth(year: int, month: int): (n: int)
    requires 1 <= month <= 12
    ensures 28 <= n <= 31
    ensures n == 29 <==> month == 2 && IsLeapYear(year)
  {
    if month == 2 then (if IsLeapYear(year) then 29 else 28)
    else if month == 4 || month == 6 || month == 9 || month == 11 then 30
    else 31
  }

  /** A cell the date parser accepts: a real day of the Gregorian calendar. */
  predicate IsValidDate(d: Date) {
    1 <= d.month <= 12 && 1 <= d.day <= DaysInMonth(d.year, d.month)
  }

  /** Full month name, as formatted for the month rollup. */
  function MonthName(month: int): (name: string)
    requires 1 <= month <= 12
    ensures |name| >= 3
  {
    ["January", "February", "March", "April", "May", "June", "July",
     "August", "September", "October", "November", "December"][month - 1]
  }

  /** The month a full month name stands for; 0 for any other string. */
  function MonthNumber(name: string): (m: int)
    ensures 0 <= m <= 12
  {
    if name == "January" then 1 else if name == "February" then 2
    else if name == "March" then 3 else if name == "April" then 4
    else if name == "May" then 5 else if name == "June" then 6
    else if name == "July" then 7 else if name == "August" then 8
    else if name == "September" then 9 else if name == "October" then 10
    else if name == "November" then 11 else if name == "December" then 12
    else 0
  }

  /** A month name gives back its month, so different months have
      different names. */
  lemma MonthNameRoundTrip(month: int)
    requires 1 <= month <= 12
    ensures MonthNumber(MonthName(month)) == month
  {
  }

  lemma MonthNamesDistinct(m1: int, m2: int)
    requires 1 <= m1 <= 12 && 1 <= m2 <= 12
    ensures MonthName(m1) == MonthName(m2) <==> m1 == m2
  {
    MonthNameRoundTrip(m1);
    MonthNameRoundTrip(m2);
  }

  /** One sale. `vendeur`, `date`, `mois` and `moisNom` are nullable cells;
      `montant` is an integer amount that is never null. */
  datatype Row = Row(
    agence: string,
    vendeur: Option<string>,
    montant: int,
    date: Option<Date>,
    mois: Option<int>,
    moisNom: Option<string>)

  /** A table: its rows and whether it carries a Date column and the pair
      of derived month columns (Mois, Mois_Nom). */
  datatype Frame = Frame(hasDate: bool, hasMonth: bool, rows: seq<Row>)

  /** A cell of a column the table lacks is null. */
  predicate WellFormed(f: Frame) {
    forall r :: r in f.rows ==>
      (!f.hasDate ==> r.date.None?) &&
      (!f.hasMonth ==> r.mois.None? && r.moisNom.None?)
  }

  type Table = f: Frame | WellFormed(f) witness Frame(false, false, [])

  /** Two rows record the same sale: they agree on every column except
      the agency. */
  predicate SameSale(a: Row, b: Row) {
    a.vendeur == b.vendeur && a.montant == b.montant && a.date == b.date &&
    a.mois == b.mois && a.moisNom == b.moisNom
  }

  /** Sum of `Montant` over the rows (an empty sum is 0). */
  function Total(rows: seq<Row>): int {
    if rows == [] then 0 else rows[0].montant + Total(rows[1..])
  }

  lemma {:induction false} TotalAppend(a: seq<Row>, b: seq<Row>)
    ensures Total(a + b) == Total(a) + Total(b)
  {
    if a != [] {
      assert (a + b)[1..] == a[1..] + b;
      TotalAppend(a[1..], b);
    } else {
      assert a + b == b;
    }
  }

  /** Rows that pairwise agree on their amounts have the same total. */
  lemma {:induction false} TotalOfSameAmounts(a: seq<Row>, b: seq<Row>)
    requires |a| == |b|
    requires forall i :: 0 <= i < |a| ==> a[i].montant == b[i].montant
    ensures Total(a) == Total(b)
  {
    if a != [] {
      TotalOfSameAmounts(a[1..], b[1..]);
    }
  }

  // ---------------------------------------------------------------------
  // Loading: the part of each loader that follows the file decoding.

  /** The table with the column `Agence` set to `agency` on every row. */
  function Stamp(t: Table, agency: string): (r: Table)
    ensures r.hasDate == t.hasDate && r.hasMonth == t.hasMonth
    ensures |r.rows| == |t.rows|
    ensures forall i :: 0 <= i < |r.rows| ==>
      r.rows[i].agence == agency && SameSale(r.rows[i], t.rows[i])
  {
    var rows := seq(|t.rows|, i requires 0 <= i < |t.rows| => t.rows[i].(agence := agency));
    assert forall r :: r in rows ==> exists i :: 0 <= i < |t.rows| && r == t.rows[i].(agence := agency);
    Frame(t.hasDate, t.hasMonth, rows)
  }

  /** Stamping does not touch the Date cells. */
  lemma StampKeepsDates(t: Table, agency: string)
    ensures DatesParse(Stamp(t, agency).rows) <==> DatesParse(t.rows)
  {
    var s := Stamp(t, agency);
    assert forall i :: 0 <= i < |t.rows| ==> s.rows[i].date == t.rows[i].date;
  }

  // ---------------------------------------------------------------------
  // Concatenation: absent tables are skipped, rows are kept in order and
  // the column set is the union of the inputs' column sets.

  /** The tables that are present, in order. */
  function Present(frames: seq<Option<Table>>): (ts: seq<Table>)
    ensures |ts| <= |frames|
    ensures ts == [] <==> forall i :: 0 <= i < |frames| ==> frames[i].None?
  {
    if frames == [] then []
    else (if frames[0].Some? then [frames[0].value] else []) + Present(frames[1..])
  }

  /** Each loaded table is kept as many times as it occurs, and nothing
      else is. */
  lemma {:induction false} PresentCounts(frames: seq<Option<Table>>)
    ensures forall t :: multiset(Present(frames))[t] == multiset(frames)[Some(t)]
  {
    if frames != [] {
      PresentCounts(frames[1..]);
      PresentCountsStep(frames[0], frames[1..], Present(frames[1..]));
      assert [frames[0]] + frames[1..] == frames;
    }
  }

  lemma PresentCountsStep(f: Option<Table>, rest: seq<Option<Table>>, ts: seq<Table>)
    requires forall t :: multiset(ts)[t] == multiset(rest)[Some(t)]
    ensures forall t :: multiset((if f.Some? then [f.value] else []) + ts)[t] == multiset([f] + rest)[Some(t)]
  {
    var head := if f.Some? then [f.value] else [];
    forall t ensures multiset(head + ts)[t] == multiset([f] + rest)[Some(t)] {
      assert multiset(head + ts) == multiset(head) + multiset(ts);
      assert multiset([f] + rest) == multiset([f]) + multiset(rest);
    }
  }

  /** Skipping absent tables commutes with splitting the list: the present
      tables of `a + b` are those of `a`, then those of `b`, in order. */
  lemma {:induction false} PresentAppend(a: seq<Option<Table>>, b: seq<Option<Table>>)
    ensures Present(a + b) == Present(a) + Present(b)
  {
    if a == [] {
      assert a + b == b;
    } else {
      assert (a + b)[0] == a[0] && (a + b)[1..] == a[1..] + b;
      PresentAppend(a[1..], b);
    }
  }

  /** The rows of every table, table after table. */
  function AllRows(ts: seq<Table>): seq<Row> {
    if ts == [] then [] else ts[0].rows + AllRows(ts[1..])
  }

  predicate AnyDate(ts: seq<Table>) {
    exists i :: 0 <= i < |ts| && ts[i].hasDate
  }

  predicate AnyMonth(ts: seq<Table>) {
    exists i :: 0 <= i < |ts| && ts[i].hasMonth
  }

  lemma {:induction false} AllRowsWellFormed(ts: seq<Table>)
    ensures WellFormed(Frame(AnyDate(ts), AnyMonth(ts), AllRows(ts)))
  {
    if ts != [] {
      AllRowsWellFormed(ts[1..]);
      assert AnyDate(ts[1..]) ==> AnyDate(ts) by {
        if AnyDate(ts[1..]) {
          var i :| 0 <= i < |ts[1..]| && ts[1..][i].hasDate;
          assert ts[i + 1].hasDate;
        }
      }
      assert AnyMonth(ts[1..]) ==> AnyMonth(ts) by {
        if AnyMonth(ts[1..]) {
          var i :| 0 <= i < |ts[1..]| && ts[1..][i].hasMonth;
          assert ts[i + 1].hasMonth;
        }
      }
      assert ts[0].hasDate ==> AnyDate(ts);
      assert ts[0].hasMonth ==> AnyMonth(ts);
    }
  }

  /** The concatenation of the tables that are present; it fails only
      when none is. */
  function Concat(frames: seq<Option<Table>>): (r: Result<Table, Error>)
    ensures r.Failure? <==> forall i :: 0 <= i < |frames| ==> frames[i].None?
    ensures r.Failure? ==> r.error == NoTablesToConcatenate
  {
    var ts := Present(frames);
    if ts == [] then Failure(NoTablesToConcatenate)
    else
      AllRowsWellFormed(ts);
      Success(Frame(AnyDate(ts), AnyMonth(ts), AllRows(ts)))
  }

  // ---------------------------------------------------------------------
  // Date standardisation and the derived month columns.

  /** Every non-null Date cell parses. */
  predicate DatesParse(rows: seq<Row>) {
    forall i :: 0 <= i < |rows| && rows[i].date.Some? ==> IsValidDate(rows[i].date.value)
  }

  lemma DatesParseAppend(a: seq<Row>, b: seq<Row>)
    ensures DatesParse(a + b) <==> DatesParse(a) && DatesParse(b)
  {
    if DatesParse(a) && DatesParse(b) {
      forall i | 0 <= i < |a + b| && (a + b)[i].date.Some? ensures IsValidDate((a + b)[i].date.value) {
        if i >= |a| {
          assert (a + b)[i] == b[i - |a|];
        }
      }
    }
    if DatesParse(a + b) {
      forall i | 0 <= i < |a| && a[i].date.Some? ensures IsValidDate(a[i].date.value) {
        assert (a + b)[i] == a[i];
      }
      forall i | 0 <= i < |b| && b[i].date.Some? ensures IsValidDate(b[i].date.value) {
        assert (a + b)[|a| + i] == b[i];
      }
    }
  }

  /** The first Date cell, in row order, that does not parse. */
  function FirstBadDate(rows: seq<Row>): (r: Option<Date>)
    ensures r.None? <==> DatesParse(rows)
    ensures r.Some? ==> !IsValidDate(r.value)
    ensures r.Some? ==> exists i :: 0 <= i < |rows| && rows[i].date == r && DatesParse(rows[..i])
  {
    if rows == [] then None
    else if rows[0].date.Some? && !IsValidDate(rows[0].date.value) then
      assert DatesParse(rows[..0]);
      rows[0].date
    else
      var rest := FirstBadDate(rows[1..]);
      assert forall i :: 1 <= i < |rows| ==> rows[i] == rows[1..][i - 1];
      assert DatesParse(rows) <==> DatesParse(rows[1..]);
      if rest.Some? then
        FirstBadDateShift(rows, rest.value);
        rest
      else
        rest
  }

  /** A bad date that is the first in `rows[1..]` is the first in `rows`
      when `rows[0]`'s date parses. */
  lemma FirstBadDateShift(rows: seq<Row>, d: Date)
    requires rows != [] && (rows[0].date.Some? ==> IsValidDate(rows[0].date.value))
    requires exists j :: 0 <= j < |rows[1..]| && rows[1..][j].date == Some(d) && DatesParse(rows[1..][..j])
    ensures exists i :: 0 <= i < |rows| && rows[i].date == Some(d) && DatesParse(rows[..i])
  {
    var j :| 0 <= j < |rows[1..]| && rows[1..][j].date == Some(d) && DatesParse(rows[1..][..j]);
    assert rows[..j + 1] == [rows[0]] + rows[1..][..j];
    DatesParseAppend([rows[0]], rows[1..][..j]);
    assert rows[j + 1].date == Some(d);
  }

  /** The month columns of a row agree with its date: null for a null
      date, otherwise the date's month number and its name. */
  predicate MonthsFromDate(r: Row) {
    match r.date
    case None => r.mois.None? && r.moisNom.None?
    case Some(d) => IsValidDate(d) && r.mois == Some(d.month) && r.moisNom == Some(MonthName(d.month))
  }

  /** The row with its month columns derived from its date; every other
      cell is kept. */
  function WithMonth(r: Row): (r': Row)
    requires r.date.Some? ==> IsValidDate(r.date.value)
    ensures r'.agence == r.agence && r'.vendeur == r.vendeur && r'.montant == r.montant && r'.date == r.date
    ensures MonthsFromDate(r')
  {
    match r.date
    case None => r.(mois := None, moisNom := None)
    case Some(d) => r.(mois := Some(d.month), moisNom := Some(MonthName(d.month)))
  }

  /** When the table has a Date column, every date is parsed (the step
      fails on the first cell that does not parse) and the month number and
      month name columns are added; otherwise the table is unchanged. */
  function AddMonths(t: Table): (r: Result<Table, Error>)
    ensures !t.hasDate ==> r == Success(t)
    ensures t.hasDate ==> (r.Success? <==> DatesParse(t.rows))
    ensures r.Failure? ==> r.error.UnparseableDate? && !IsValidDate(r.error.cell)
    ensures r.Failure? ==>
      exists i :: 0 <= i < |t.rows| && t.rows[i].date == Some(r.error.cell) && DatesParse(t.rows[..i])
    ensures r.Success? ==> r.value.hasDate == t.hasDate && |r.value.rows| == |t.rows|
    ensures r.Success? && t.hasDate ==> r.value.hasMonth && forall i :: 0 <= i < |t.rows| ==>
      r.value.rows[i].agence == t.rows[i].agence && r.value.rows[i].vendeur == t.rows[i].vendeur &&
      r.value.rows[i].montant == t.rows[i].montant && r.value.rows[i].date == t.rows[i].date &&
      MonthsFromDate(r.value.rows[i])
  {
    if !t.hasDate then Success(t)
    else match FirstBadDate(t.rows)
      case Some(d) => Failure(UnparseableDate(d))
      case None =>
        var rows := seq(|t.rows|, i requires 0 <= i < |t.rows| => WithMonth(t.rows[i]));
        Success(Frame(true, true, rows))
  }

  /** The whole consolidation: concatenate, then standardise dates. */
  function Consolidated(frames: seq<Option<Table>>): Result<Table, Error> {
    match Concat(frames)
    case Failure(e) => Failure(e)
    case Success(t) => AddMonths(t)
  }

  /** The global table after the three loaders have stamped their tables
      and the consolidation has run. */
  function GlobalOf(d: Table, y: Table, g: Table): Result<Table, Error> {
    Consolidated([Some(Stamp(d, Douala)), Some(Stamp(y, Yaounde)), Some(Stamp(g, Garoua))])
  }

  // ---------------------------------------------------------------------
  // Properties of consolidating the three agency tables.

  /** With the three tables present, the concatenation is Douala's rows,
      then Yaoundé's, then Garoua's, each in its own order, nothing dropped
      or merged, and its columns are the union of theirs. */
  lemma ConcatInOrder(d: Table, y: Table, g: Table)
    ensures Concat([Some(d), Some(y), Some(g)]).Success?
    ensures Concat([Some(d), Some(y), Some(g)]).value ==
      Frame(d.hasDate || y.hasDate || g.hasDate, d.hasMonth || y.hasMonth || g.hasMonth, d.rows + y.rows + g.rows)
  {
    var frames := [Some(d), Some(y), Some(g)];
    assert frames[1..] == [Some(y), Some(g)];
    assert frames[1..][1..] == [Some(g)];
    assert [Some(g)][1..] == [];
    assert Present([Some(g)]) == [g];
    assert Present([Some(y), Some(g)]) == [y, g];
    assert Present(frames) == [d, y, g];
    var ts := [d, y, g];
    assert ts[1..] == [y, g] && ts[1..][1..] == [g] && [g][1..] == [];
    assert AllRows([g]) == g.rows;
    assert AllRows([y, g]) == y.rows + g.rows;
    assert AllRows(ts) == d.rows + (y.rows + g.rows);
    assert AnyDate(ts) == (d.hasDate || y.hasDate || g.hasDate) by {
      if AnyDate(ts) { var i :| 0 <= i < 3 && ts[i].hasDate; }
      if d.hasDate { assert ts[0].hasDate; }
      if y.hasDate { assert ts[1].hasDate; }
      if g.hasDate { assert ts[2].hasDate; }
    }
    assert AnyMonth(ts) == (d.hasMonth || y.hasMonth || g.hasMonth) by {
      if AnyMonth(ts) { var i :| 0 <= i < 3 && ts[i].hasMonth; }
      if d.hasMonth { assert ts[0].hasMonth; }
      if y.hasMonth { assert ts[1].hasMonth; }
      if g.hasMonth { assert ts[2].hasMonth; }
    }
  }

  /** Consolidation is lossless: when it succeeds, the global table has
      exactly the three tables' rows, in order, each still the same sale
      with the same agency. It fails only on an unparseable date. */
  lemma ConsolidatedLossless(d: Table, y: Table, g: Table)
    ensures var r := Consolidated([Some(d), Some(y), Some(g)]);
      (r.Failure? ==> r.error.UnparseableDate?) &&
      (r.Success? ==>
        |r.value.rows| == |d.rows| + |y.rows| + |g.rows| &&
        forall i :: 0 <= i < |r.value.rows| ==>
          r.value.rows[i].agence == (d.rows + y.rows + g.rows)[i].agence &&
          r.value.rows[i].vendeur == (d.rows + y.rows + g.rows)[i].vendeur &&
          r.value.rows[i].montant == (d.rows + y.rows + g.rows)[i].montant &&
          r.value.rows[i].date == (d.rows + y.rows + g.rows)[i].date)
  {
    ConcatInOrder(d, y, g);
  }

  /** After the three loaders have run, every row of the global table
      carries the agency of the table it came from. */
  lemma ConsolidatedAgencies(d0: Table, y0: Table, g0: Table)
    ensures var d, y, g := Stamp(d0, Douala), Stamp(y0, Yaounde), Stamp(g0, Garoua);
      var r := Consolidated([Some(d), Some(y), Some(g)]);
      r.Success? ==>
        forall i :: 0 <= i < |r.value.rows| ==>
          r.value.rows[i].agence in {Douala, Yaounde, Garoua} &&
          (i < |d0.rows| ==> r.value.rows[i].agence == Douala) &&
          (|d0.rows| <= i < |d0.rows| + |y0.rows| ==> r.value.rows[i].agence == Yaounde) &&
          (|d0.rows| + |y0.rows| <= i ==> r.value.rows[i].agence == Garoua)
  {
    var d, y, g := Stamp(d0, Douala), Stamp(y0, Yaounde), Stamp(g0, Garoua);
    ConsolidatedLossless(d, y, g);
  }

  /** Consolidating three tables succeeds exactly when every Date cell
      of every table parses; a table without a Date column has none. */
  lemma ConsolidatedSucceeds(d: Table, y: Table, g: Table)
    ensures Consolidated([Some(d), Some(y), Some(g)]).Success? <==>
      DatesParse(d.rows) && DatesParse(y.rows) && DatesParse(g.rows)
  {
    ConcatInOrder(d, y, g);
    var t := Concat([Some(d), Some(y), Some(g)]).value;
    DatesParseAppend(d.rows + y.rows, g.rows);
    DatesParseAppend(d.rows, y.rows);
    if !t.hasDate {
      forall i | 0 <= i < |t.rows| ensures t.rows[i].date.None? {
        assert t.rows[i] in t.rows;
      }
    }
  }

  /** When no table carries a Date column, consolidation adds no month
      columns: the global table has them only if some input already did. */
  lemma NoDateNoMonths(d: Table, y: Table, g: Table)
    requires !d.hasDate && !y.hasDate && !g.hasDate
    ensures var r := Consolidated([Some(d), Some(y), Some(g)]);
      r.Success? && !r.value.hasDate &&
      r.value.hasMonth == (d.hasMonth || y.hasMonth || g.hasMonth) &&
      r.value.rows == d.rows + y.rows + g.rows
  {
    ConcatInOrder(d, y, g);
  }

  /** When some table carries a Date column and consolidation succeeds,
      every row's month columns are derived from its date. */
  lemma DatedMonthsDerived(d: Table, y: Table, g: Table)
    requires d.hasDate || y.hasDate || g.hasDate
    ensures var r := Consolidated([Some(d), Some(y), Some(g)]);
      r.Success? ==> (r.value.hasMonth &&
        forall i :: 0 <= i < |r.value.rows| ==>
          MonthsFromDate(r.value.rows[i]) &&
          (r.value.rows[i].mois.Some? ==> 1 <= r.value.rows[i].mois.value <= 12))
  {
    ConcatInOrder(d, y, g);
  }
}
