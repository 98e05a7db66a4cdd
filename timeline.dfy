/** The cumulative-spending series of app.py lines 117-118: the filtered
    records sorted by date, and the running sum of their amounts. */
module Timeline {
  import opened Seqs
  import opened Dates
  import opened Records

  /** Dates never decrease along `s`. */
  predicate DateSorted(s: seq<Record>) {
    forall i, j :: 0 <= i < j < |s| ==> NotAfter(s[i].date, s[j].date)
  }

  /** Puts `x` before the first record of `s` whose date is not earlier. */
  function InsertByDate(x: Record, s: seq<Record>): seq<Record>
    decreases |s|
  {
    if s == [] then [x]
    else if Before(s[0].date, x.date) then [s[0]] + InsertByDate(x, s[1..])
    else [x] + s
  }

  /** `sort_values('Date')`, with equal dates kept in input order. */
  function SortByDate(s: seq<Record>): seq<Record>
    decreases |s|
  {
    if s == [] then [] else InsertByDate(s[0], SortByDate(s[1..]))
  }

  lemma {:induction false} InsertByDatePermutes(x: Record, s: seq<Record>)
    ensures multiset(InsertByDate(x, s)) == multiset(s) + multiset{x}
    decreases |s|
  {
    if s != [] && Before(s[0].date, x.date) {
      InsertByDatePermutes(x, s[1..]);
      assert s == [s[0]] + s[1..];
    }
  }

  lemma {:induction false} InsertByDateSorted(x: Record, s: seq<Record>)
    requires DateSorted(s)
    ensures DateSorted(InsertByDate(x, s))
    decreases |s|
  {
    if s != [] && Before(s[0].date, x.date) {
      var rest := InsertByDate(x, s[1..]);
      InsertByDateSorted(x, s[1..]);
      InsertByDatePermutes(x, s[1..]);
      forall k | 0 <= k < |rest|
        ensures NotAfter(s[0].date, rest[k].date)
      {
        assert rest[k] in multiset(rest);
        if rest[k] != x {
          assert rest[k] in s[1..];
        }
      }
      var r := [s[0]] + rest;
      forall i, j | 0 <= i < j < |r|
        ensures NotAfter(r[i].date, r[j].date)
      {
        if i > 0 {
          assert r[i] == rest[i - 1] && r[j] == rest[j - 1];
        }
      }
    }
  }

  /** The sorted series is date-ordered and holds the same records. */
  lemma {:induction false} SortByDateSpec(s: seq<Record>)
    ensures DateSorted(SortByDate(s))
    ensures multiset(SortByDate(s)) == multiset(s)
    ensures |SortByDate(s)| == |s|
    decreases |s|
  {
    if s != [] {
      SortByDateSpec(s[1..]);
      InsertByDateSorted(s[0], SortByDate(s[1..]));
      InsertByDatePermutes(s[0], SortByDate(s[1..]));
      assert s == [s[0]] + s[1..];
    }
    assert |SortByDate(s)| == |multiset(SortByDate(s))|;
  }

  /** `Amount.cumsum()`: entry `i` is the total of the first `i + 1` records. */
  function RunningTotals(rs: seq<Record>): (cs: seq<int>)
    ensures |cs| == |rs|
  {
    seq(|rs|, i requires 0 <= i < |rs| => Total(rs[..i + 1]))
  }

  /** The last running total is the total of all records. */
  lemma RunningTotalsEndAtTotal(rs: seq<Record>)
    requires |rs| > 0
    ensures RunningTotals(rs)[|rs| - 1] == Total(rs)
  {
    assert rs[..|rs|] == rs;
  }

  lemma {:induction false} TotalNonNegative(rs: seq<Record>)
    requires forall i :: 0 <= i < |rs| ==> rs[i].amount >= 0
    ensures Total(rs) >= 0
    decreases |rs|
  {
    if rs != [] {
      TotalNonNegative(rs[1..]);
    }
  }

  /** With no negative amounts the running totals never decrease. */
  lemma RunningTotalsNondecreasing(rs: seq<Record>)
    requires forall i :: 0 <= i < |rs| ==> rs[i].amount >= 0
    ensures forall i, j :: 0 <= i <= j < |rs| ==> RunningTotals(rs)[i] <= RunningTotals(rs)[j]
  {
    var cs := RunningTotals(rs);
    forall i, j | 0 <= i <= j < |rs|
      ensures cs[i] <= cs[j]
    {
      assert rs[..j + 1] == rs[..i + 1] + rs[i + 1..j + 1];
      SumByAppend(rs[..i + 1], rs[i + 1..j + 1], AmountOf);
      TotalNonNegative(rs[i + 1..j + 1]);
    }
  }

  /** Line 118: `Amount.cumsum()` written into a new column. */
  method CumulativeColumn(sorted: seq<Record>) returns (cumulative: array<int>)
    ensures fresh(cumulative)
    ensures cumulative.Length == |sorted|
    ensures cumulative[..] == RunningTotals(sorted)
  {
    cumulative := new int[|sorted|];
    var acc := 0;
    for i := 0 to |sorted|
      invariant acc == Total(sorted[..i])
      invariant forall k :: 0 <= k < i ==> cumulative[k] == Total(sorted[..k + 1])
    {
      SumByPrefixStep(sorted, i, AmountOf);
      acc := acc + sorted[i].amount;
      cumulative[i] := acc;
    }
  }

  /** Lines 117-118: sort the filtered records by date and add the
      `Cumulative` column, whose last entry is the total spent. */
  method CumulativeSeries(filtered: seq<Record>) returns (sorted: seq<Record>, cumulative: array<int>)
    ensures fresh(cumulative)
    ensures sorted == SortByDate(filtered)
    ensures DateSorted(sorted) && multiset(sorted) == multiset(filtered)
    ensures cumulative.Length == |filtered|
    ensures cumulative[..] == RunningTotals(sorted)
    ensures |filtered| > 0 ==> cumulative[|filtered| - 1] == Total(filtered)
  {
    sorted := SortByDate(filtered);
    SortByDateSpec(filtered);
    cumulative := CumulativeColumn(sorted);
    if |filtered| > 0 {
      RunningTotalsEndAtTotal(sorted);
      SumByPermutation(sorted, filtered, AmountOf);
      assert cumulative[|filtered| - 1] == cumulative[..][|filtered| - 1];
    }
  }
}
