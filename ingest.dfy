/** Reading and validating the uploaded table: the required-column check,
    the coercion of the `Date` and `Amount` columns, and the `dropna` that
    removes rows whose date or amount did not parse. */
module Ingest {
  import opened Wrappers
  import opened Seqs
  import opened Dates
  import opened Records

  const RequiredColumns: seq<string> := ["Date", "Category", "Amount", "Payment Method", "Description"]

  /** A row as read from the CSV: the cells of the five required columns;
      an empty description cell is `None`. */
  datatype RawRow = RawRow(
    date: string,
    category: string,
    amount: string,
    payment: string,
    description: Option<string>)

  /** The uploaded table: its header and its rows. */
  datatype RawTable = RawTable(columns: set<string>, rows: seq<RawRow>)

  /** `pd.to_datetime(_, errors='coerce')` and `pd.to_numeric(_, errors='coerce')`
      on one cell: `None` where pandas produces NaT / NaN. */
  datatype Parsers = Parsers(date: string -> Option<Date>, amount: string -> Option<int>)

  datatype LoadError = MissingColumns(expected: seq<string>)

  predicate HasRequiredColumns(columns: set<string>) {
    forall i :: 0 <= i < |RequiredColumns| ==> RequiredColumns[i] in columns
  }

  /** Both the date and the amount of `row` parse. */
  predicate Parses(row: RawRow, ps: Parsers) {
    ps.date(row.date).Some? && ps.amount(row.amount).Some?
  }

  /** The canonical record of a row whose date and amount parse. */
  function Canonical(row: RawRow, ps: Parsers): Record
    requires Parses(row, ps)
  {
    Record(ps.date(row.date).value, row.category, ps.amount(row.amount).value, row.payment, row.description)
  }

  function Canonicals(rows: seq<RawRow>, ps: Parsers): (rs: seq<Record>)
    requires forall i :: 0 <= i < |rows| ==> Parses(rows[i], ps)
    ensures |rs| == |rows|
  {
    seq(|rows|, i requires 0 <= i < |rows| => Canonical(rows[i], ps))
  }

  /** The whole ingestion step: a missing required column fails the load,
      otherwise the rows whose date and amount parse are kept, in order. */
  function Load(t: RawTable, ps: Parsers): Result<seq<Record>, LoadError> {
    if !HasRequiredColumns(t.columns) then Failure(MissingColumns(RequiredColumns))
    else Success(Canonicals(Filter(t.rows, Parses, ps), ps))
  }

  /** The load fails exactly when one of the five required columns is absent. */
  lemma LoadFailsIffColumnMissing(t: RawTable, ps: Parsers)
    ensures Load(t, ps).Failure? <==> exists c :: c in RequiredColumns && c !in t.columns
  {
  }

  /** A successful load yields exactly the rows whose date and amount parse,
      converted, in input order. */
  lemma LoadKeepsParsedRowsInOrder(t: RawTable, ps: Parsers)
    requires HasRequiredColumns(t.columns)
    ensures Load(t, ps).Success?
    ensures var out := Load(t, ps).value;
      exists idx ::
        && IncreasingIndices(idx, |t.rows|)
        && |idx| == |out|
        && (forall k :: 0 <= k < |idx| ==> Parses(t.rows[idx[k]], ps) && out[k] == Canonical(t.rows[idx[k]], ps))
        && (forall i :: 0 <= i < |t.rows| ==> (Parses(t.rows[i], ps) <==> i in idx))
  {
    FilterPicksPassingPositions(t.rows, Parses, ps);
    var idx :| PicksOut(Filter(t.rows, Parses, ps), t.rows, idx) &&
               forall i :: 0 <= i < |t.rows| ==> (Parses(t.rows[i], ps) <==> i in idx);
    var kept := Filter(t.rows, Parses, ps);
    var out := Load(t, ps).value;
    assert out == Canonicals(kept, ps);
    forall k | 0 <= k < |idx|
      ensures Parses(t.rows[idx[k]], ps) && out[k] == Canonical(t.rows[idx[k]], ps)
    {
      assert kept[k] == t.rows[idx[k]];
    }
    assert IncreasingIndices(idx, |t.rows|) && |idx| == |out|;
  }

  /** The date parser yields only calendar dates, as `pd.to_datetime` does. */
  ghost predicate ValidParsers(ps: Parsers) {
    forall s :: ps.date(s).Some? ==> ps.date(s).value.Valid()
  }

  /** With such a parser, every loaded record carries a calendar date. */
  lemma LoadYieldsValidDates(t: RawTable, ps: Parsers)
    requires ValidParsers(ps)
    ensures Load(t, ps).Success? ==>
      forall i :: 0 <= i < |Load(t, ps).value| ==> Load(t, ps).value[i].date.Valid()
  {
    if HasRequiredColumns(t.columns) {
      var kept := Filter(t.rows, Parses, ps);
      forall i | 0 <= i < |kept|
        ensures Canonicals(kept, ps)[i].date.Valid()
      {
        assert ps.date(kept[i].date).Some?;
      }
    }
  }

  // ---- The DataFrame, changed in place ----

  /** A cell of a column before and after coercion: still text, a parsed
      value, or missing (NaT / NaN). */
  datatype Cell<T> = Text(text: string) | Value(value: T) | Missing

  datatype Column = DateColumn | AmountColumn

  datatype FrameRow = FrameRow(
    date: Cell<Date>,
    category: string,
    amount: Cell<int>,
    payment: string,
    description: Option<string>)

  /** A row as `read_csv` leaves it: date and amount are still text. */
  function AsRead(r: RawRow): FrameRow {
    FrameRow(Text(r.date), r.category, Text(r.amount), r.payment, r.description)
  }

  /** `errors='coerce'`: text that parses becomes a value, other text missing. */
  function Coerce<T>(c: Cell<T>, parse: string -> Option<T>): Cell<T> {
    match c
    case Text(s) => (match parse(s) case Some(v) => Value(v) case None => Missing)
    case _ => c
  }

  /** None of the columns in `subset` is missing in `r`; `dropna` keeps a
      cell that is still text, as it keeps any non-NaN value. */
  predicate HasValues(r: FrameRow, subset: set<Column>) {
    && (DateColumn in subset ==> !r.date.Missing?)
    && (AmountColumn in subset ==> !r.amount.Missing?)
  }

  predicate IsComplete(r: FrameRow) {
    r.date.Value? && r.amount.Value?
  }

  function FrameRecord(r: FrameRow): Record
    requires IsComplete(r)
  {
    Record(r.date.value, r.category, r.amount.value, r.payment, r.description)
  }

  /** The pandas DataFrame `df` of app.py: a header and rows, both updated in place. */
  class ExpenseFrame {
    var columns: set<string>
    var rows: seq<FrameRow>

    /** `pd.read_csv`. */
    constructor (t: RawTable)
      ensures columns == t.columns
      ensures |rows| == |t.rows| && forall i :: 0 <= i < |rows| ==> rows[i] == AsRead(t.rows[i])
    {
      columns := t.columns;
      rows := seq(|t.rows|, i requires 0 <= i < |t.rows| => AsRead(t.rows[i]));
    }

    /** `df['Date'] = pd.to_datetime(df['Date'], errors='coerce')`. */
    method CoerceDates(parse: string -> Option<Date>)
      modifies this
      ensures columns == old(columns) && |rows| == |old(rows)|
      ensures forall i :: 0 <= i < |rows| ==> rows[i] == old(rows[i]).(date := Coerce(old(rows[i]).date, parse))
    {
      var old_rows := rows;
      rows := seq(|old_rows|, i requires 0 <= i < |old_rows| => old_rows[i].(date := Coerce(old_rows[i].date, parse)));
    }

    /** `df['Amount'] = pd.to_numeric(df['Amount'], errors='coerce')`. */
    method CoerceAmounts(parse: string -> Option<int>)
      modifies this
      ensures columns == old(columns) && |rows| == |old(rows)|
      ensures forall i :: 0 <= i < |rows| ==> rows[i] == old(rows[i]).(amount := Coerce(old(rows[i]).amount, parse))
    {
      var old_rows := rows;
      rows := seq(|old_rows|, i requires 0 <= i < |old_rows| => old_rows[i].(amount := Coerce(old_rows[i].amount, parse)));
    }

    /** `df.dropna(subset=..., inplace=True)`. */
    method DropMissing(subset: set<Column>)
      modifies this
      ensures columns == old(columns)
      ensures rows == Filter(old(rows), HasValues, subset)
    {
      rows := Filter(rows, HasValues, subset);
    }

    /** The rows as canonical records, once no date or amount is missing. */
    function Records(): (rs: seq<Record>)
      reads this
      requires forall i :: 0 <= i < |rows| ==> IsComplete(rows[i])
      ensures |rs| == |rows|
    {
      var rs := rows;
      seq(|rs|, i requires 0 <= i < |rs| => FrameRecord(rs[i]))
    }
  }

  /** A raw row after both coercions. */
  function Coerced(r: RawRow, ps: Parsers): FrameRow {
    AsRead(r).(date := Coerce(Text(r.date), ps.date)).(amount := Coerce(Text(r.amount), ps.amount))
  }

  function CoercedAll(rows: seq<RawRow>, ps: Parsers): (fs: seq<FrameRow>)
    ensures |fs| == |rows|
  {
    seq(|rows|, i requires 0 <= i < |rows| => Coerced(rows[i], ps))
  }

  /** Dropping incomplete coerced rows is coercing the rows that parse. */
  lemma {:induction false} DropAfterCoerce(rows: seq<RawRow>, ps: Parsers)
    ensures Filter(CoercedAll(rows, ps), HasValues, {DateColumn, AmountColumn}) ==
            CoercedAll(Filter(rows, Parses, ps), ps)
    decreases |rows|
  {
    if rows != [] {
      DropAfterCoerce(rows[1..], ps);
      assert CoercedAll(rows, ps)[1..] == CoercedAll(rows[1..], ps);
      if Parses(rows[0], ps) {
        assert CoercedAll(Filter(rows, Parses, ps), ps) ==
               [Coerced(rows[0], ps)] + CoercedAll(Filter(rows[1..], Parses, ps), ps);
      }
    }
  }

  /** app.py lines 30-38: read the table, stop if a required column is
      missing, coerce the date and amount columns and drop the rows where
      either is missing. */
  method Ingest(t: RawTable, ps: Parsers) returns (r: Result<seq<Record>, LoadError>)
    ensures r == Load(t, ps)
  {
    var df := new ExpenseFrame(t);
    if !HasRequiredColumns(df.columns) {
      return Failure(MissingColumns(RequiredColumns));
    }
    df.CoerceDates(ps.date);
    df.CoerceAmounts(ps.amount);
    assert df.rows == CoercedAll(t.rows, ps);
    df.DropMissing({DateColumn, AmountColumn});
    DropAfterCoerce(t.rows, ps);
    var kept := Filter(t.rows, Parses, ps);
    assert df.rows == CoercedAll(kept, ps);
    forall i | 0 <= i < |kept|
      ensures df.Records()[i] == Canonicals(kept, ps)[i]
    {
      assert Parses(kept[i], ps);
    }
    assert df.Records() == Canonicals(kept, ps);
    r := Success(df.Records());
  }
}
