/** The aggregations and KPIs of app.py lines 69-81 and 102: monthly and
    per-category sums, total, average per month, largest expense, count, and
    the comparison with the "previous month". */
module Kpis {
  import opened Wrappers
  import opened Seqs
  import opened Dates
  import opened Records
  import opened Grouping

  /** Python's `<` on `str`: lexicographic by code point. */
  predicate StrLess(a: string, b: string)
    decreases |a|
  {
    if a == [] then b != []
    else if b == [] then false
    else if a[0] != b[0] then a[0] < b[0]
    else StrLess(a[1..], b[1..])
  }

  lemma {:induction false} StrLessIrreflexive(a: string)
    ensures !StrLess(a, a)
    decreases |a|
  {
    if a != [] { StrLessIrreflexive(a[1..]); }
  }

  lemma {:induction false} StrLessTransitive(a: string, b: string, c: string)
    requires StrLess(a, b) && StrLess(b, c)
    ensures StrLess(a, c)
    decreases |a|
  {
    if a != [] && a[0] == b[0] && b[0] == c[0] {
      StrLessTransitive(a[1..], b[1..], c[1..]);
    }
  }

  lemma {:induction false} StrLessTotal(a: string, b: string)
    requires a != b
    ensures StrLess(a, b) || StrLess(b, a)
    decreases |a|
  {
    if a != [] && b != [] && a[0] == b[0] {
      assert a == [a[0]] + a[1..] && b == [b[0]] + b[1..];
      StrLessTotal(a[1..], b[1..]);
    }
  }

  /** Category keys are sorted by a strict total order. */
  lemma StrLessIsStrictOrder()
    ensures StrictOrder(StrLess)
  {
    forall a: string
      ensures !StrLess(a, a)
    {
      StrLessIrreflexive(a);
    }
    forall a: string, b: string, c: string | StrLess(a, b) && StrLess(b, c)
      ensures StrLess(a, c)
    {
      StrLessTransitive(a, b, c);
    }
    forall a: string, b: string | a != b
      ensures StrLess(a, b) || StrLess(b, a)
    {
      StrLessTotal(a, b);
    }
  }

  /** Month keys are sorted by a strict total order. */
  lemma MonthBeforeIsStrictOrder()
    ensures StrictOrder(MonthBefore)
  {
  }

  /** `filtered.groupby('Month')['Amount'].sum()` (line 73). */
  function MonthlySums(rs: seq<Record>): seq<Bucket<MonthKey>> {
    GroupSum(rs, MonthKeyOf, AmountOf, MonthBefore)
  }

  /** `filtered.groupby('Category')['Amount'].sum()` (line 102). */
  function CategorySums(rs: seq<Record>): seq<Bucket<string>> {
    GroupSum(rs, CategoryOf, AmountOf, StrLess)
  }

  /** Monthly buckets: ascending distinct months, exactly the months that have
      a record, each holding its month's total, together summing to the total. */
  lemma MonthlySumsSpec(rs: seq<Record>)
    ensures var m := MonthlySums(rs);
      && Ascending(m, MonthBefore)
      && KeysOf(m) == KeysPresent(rs, MonthKeyOf)
      && (forall i :: 0 <= i < |m| ==> m[i].sum == SumWhere(rs, MonthKeyOf, AmountOf, m[i].key))
      && BucketTotal(m) == Total(rs)
  {
    MonthBeforeIsStrictOrder();
    GroupSumSpec(rs, MonthKeyOf, AmountOf, MonthBefore);
  }

  /** Category buckets: one per distinct category present, each holding that
      category's total, together summing to the total. */
  lemma CategorySumsSpec(rs: seq<Record>)
    ensures var g := CategorySums(rs);
      && Ascending(g, StrLess)
      && DistinctKeys(g)
      && KeysOf(g) == KeysPresent(rs, CategoryOf)
      && (forall i :: 0 <= i < |g| ==> g[i].sum == SumWhere(rs, CategoryOf, AmountOf, g[i].key))
      && BucketTotal(g) == Total(rs)
  {
    StrLessIsStrictOrder();
    GroupSumSpec(rs, CategoryOf, AmountOf, StrLess);
    AscendingDistinct(CategorySums(rs), StrLess);
  }

  /** `filtered['Amount'].max()` (line 75). */
  function MaxExpense(rs: seq<Record>): (m: int)
    requires |rs| > 0
    ensures exists i :: 0 <= i < |rs| && rs[i].amount == m
    ensures forall i :: 0 <= i < |rs| ==> rs[i].amount <= m
    decreases |rs|
  {
    if |rs| == 1 then rs[0].amount
    else
      var rest := MaxExpense(rs[1..]);
      assert forall i :: 1 <= i < |rs| ==> rs[i] == rs[1..][i - 1];
      if rs[0].amount >= rest then rs[0].amount else rest
  }

  /** `monthly_sum.mean()` (line 74). */
  function AvgPerMonth(monthly: seq<Bucket<MonthKey>>): real
    requires |monthly| > 0
  {
    BucketTotal(monthly) as real / |monthly| as real
  }

  /** A non-empty record set has at least one monthly bucket, and the average
      per month is the total divided by the number of buckets. */
  lemma AvgPerMonthIsTotalOverMonths(rs: seq<Record>)
    requires |rs| > 0
    ensures 0 < |MonthlySums(rs)| <= |rs|
    ensures AvgPerMonth(MonthlySums(rs)) == Total(rs) as real / |MonthlySums(rs)| as real
  {
    MonthlySumsSpec(rs);
    assert MonthKeyOf(rs[0]) in KeysPresent(rs, MonthKeyOf);
    BucketCountAtMostRecords(rs);
  }

  lemma {:induction false} BucketCountAtMostRecords(rs: seq<Record>)
    ensures |MonthlySums(rs)| <= |rs|
    decreases |rs|
  {
    if rs != [] {
      BucketCountAtMostRecords(rs[1..]);
      AddToGrowsByAtMostOne(MonthlySums(rs[1..]), MonthKeyOf(rs[0]), rs[0].amount);
    }
  }

  lemma {:induction false} AddToGrowsByAtMostOne(bs: seq<Bucket<MonthKey>>, k: MonthKey, v: int)
    ensures |AddTo(bs, k, v, MonthBefore)| <= |bs| + 1
    decreases |bs|
  {
    if bs != [] && bs[0].key != k && !MonthBefore(k, bs[0].key) {
      AddToGrowsByAtMostOne(bs[1..], k, v);
    }
  }

  /** Line 81: the change of the average against `prev_spent`, defined only
      when `prev_spent` is present and strictly positive. */
  function ChangeAgainst(avg: real, prev: Option<int>): Option<real> {
    match prev
    case Some(p) => if p > 0 then Some((avg - p as real) / p as real * 100.0) else None
    case None => None
  }

  /** Lines 79-81 as written: `prev_month` is `start - MonthBegin(1)` and it is
      looked up in the monthly sums of the filtered records. */
  function PctChange(avg: real, monthly: seq<Bucket<MonthKey>>, start: Date): Option<real> {
    ChangeAgainst(avg, Lookup(monthly, PrevMonthKey(start)))
  }

  /** `pct_change` is defined iff the key is a bucket with a positive sum, and
      then it is the relative change of the average against that sum, in percent. */
  lemma PctChangeDefinedIff(avg: real, monthly: seq<Bucket<MonthKey>>, start: Date)
    requires DistinctKeys(monthly)
    ensures PctChange(avg, monthly, start).Some? <==>
            exists i :: 0 <= i < |monthly| && monthly[i].key == PrevMonthKey(start) && monthly[i].sum > 0
    ensures forall i :: 0 <= i < |monthly| && monthly[i].key == PrevMonthKey(start) && monthly[i].sum > 0 ==>
            PctChange(avg, monthly, start) ==
            Some((avg - monthly[i].sum as real) / monthly[i].sum as real * 100.0)
  {
    var k := PrevMonthKey(start);
    forall i | 0 <= i < |monthly| && monthly[i].key == k
      ensures Lookup(monthly, k) == Some(monthly[i].sum)
    {
      LookupFindsBucket(monthly, i);
    }
    LookupNoneIffAbsent(monthly, k);
    if Lookup(monthly, k).Some? {
      var b :| b in monthly && b.key == k;
      var i :| 0 <= i < |monthly| && monthly[i] == b;
    }
  }

  /** The KPI row of the dashboard (lines 72-81). */
  datatype KpiSet = KpiSet(
    total: int,
    avgPerMonth: real,
    maxExpense: int,
    count: nat,
    pctChange: Option<real>)

  /** Lines 72-81 on a non-empty filtered set whose window starts at `start`. */
  function ComputeKpis(filtered: seq<Record>, start: Date): KpiSet
    requires |filtered| > 0
  {
    AvgPerMonthIsTotalOverMonths(filtered);
    var monthly := MonthlySums(filtered);
    var avg := AvgPerMonth(monthly);
    KpiSet(Total(filtered), avg, MaxExpense(filtered), |filtered|, PctChange(avg, monthly, start))
  }

  /** What the KPI row promises: the count is the number of records, the
      largest expense is one of the amounts and bounds them all, the average
      is the total over the number of monthly buckets, the monthly and the
      category sums both add up to the total, and the comparison is defined
      exactly when the looked-up bucket has a positive sum. */
  lemma ComputeKpisSpec(filtered: seq<Record>, start: Date)
    requires |filtered| > 0
    ensures var k := ComputeKpis(filtered, start);
      var monthly := MonthlySums(filtered);
      && k.count == |filtered|
      && (exists i :: 0 <= i < |filtered| && filtered[i].amount == k.maxExpense)
      && (forall i :: 0 <= i < |filtered| ==> filtered[i].amount <= k.maxExpense)
      && 0 < |monthly|
      && k.avgPerMonth == k.total as real / |monthly| as real
      && BucketTotal(monthly) == k.total
      && BucketTotal(CategorySums(filtered)) == k.total
      && (k.pctChange.Some? <==>
          exists i :: 0 <= i < |monthly| && monthly[i].key == PrevMonthKey(start) && monthly[i].sum > 0)
  {
    var monthly := MonthlySums(filtered);
    AvgPerMonthIsTotalOverMonths(filtered);
    MonthlySumsSpec(filtered);
    CategorySumsSpec(filtered);
    MonthBeforeIsStrictOrder();
    AscendingDistinct(monthly, MonthBefore);
    PctChangeDefinedIff(AvgPerMonth(monthly), monthly, start);
  }

  /** As written, the comparison never reaches a month before the window: a
      window starting on the 1st looks up a month no filtered record is in,
      so there is never a comparison; any other start looks up the window's
      own first month. */
  lemma PctChangeStaysInsideWindow(filtered: seq<Record>, start: Date, avg: real)
    requires forall i :: 0 <= i < |filtered| ==> NotAfter(start, filtered[i].date)
    ensures start.day == 1 ==> PctChange(avg, MonthlySums(filtered), start) == None
    ensures start.day != 1 ==> PrevMonthKey(start) == MonthOf(start)
  {
    if start.day == 1 {
      var key := PrevMonthKey(start);
      var monthly := MonthlySums(filtered);
      MonthlySumsSpec(filtered);
      forall i | 0 <= i < |filtered|
        ensures MonthKeyOf(filtered[i]) != key
      {
        MonthOfMonotone(start, filtered[i].date);
        PreviousMonthIsEarlier(MonthOf(start));
      }
      assert key !in KeysPresent(filtered, MonthKeyOf);
      LookupNoneIffAbsent(monthly, key);
    }
  }

  /** The comparison against the calendar month before the window, looked up
      in the monthly sums of the whole validated data set. */
  function PriorMonthPctChange(avg: real, allMonthly: seq<Bucket<MonthKey>>, start: Date): Option<real> {
    ChangeAgainst(avg, Lookup(allMonthly, PreviousMonth(MonthOf(start))))
  }

  /** Looking a month up in the monthly sums finds that month's total when
      some record falls in it, and nothing otherwise. */
  lemma MonthlyLookup(rs: seq<Record>, k: MonthKey)
    ensures Lookup(MonthlySums(rs), k) ==
            if k in KeysPresent(rs, MonthKeyOf) then Some(SumWhere(rs, MonthKeyOf, AmountOf, k)) else None
  {
    var monthly := MonthlySums(rs);
    MonthlySumsSpec(rs);
    MonthBeforeIsStrictOrder();
    AscendingDistinct(monthly, MonthBefore);
    LookupNoneIffAbsent(monthly, k);
    if k in KeysOf(monthly) {
      var b :| b in monthly && b.key == k;
      var i :| 0 <= i < |monthly| && monthly[i] == b;
      LookupFindsBucket(monthly, i);
    }
  }

  /** The calendar month before the window's month precedes every date of the window. */
  lemma PriorMonthBeforeWindow(start: Date, d: Date)
    requires NotAfter(start, d)
    ensures MonthBefore(PreviousMonth(MonthOf(start)), MonthOf(d))
  {
    MonthOfMonotone(start, d);
    PreviousMonthIsEarlier(MonthOf(start));
  }

  /** The corrected comparison is defined iff the data set has spending in the
      month before the window's month, with a positive total, and it then
      compares the average with that total. */
  lemma PriorMonthPctChangeSpec(all: seq<Record>, avg: real, start: Date)
    ensures var prior := PreviousMonth(MonthOf(start));
      var pct := PriorMonthPctChange(avg, MonthlySums(all), start);
      var spent := SumWhere(all, MonthKeyOf, AmountOf, prior);
      && (pct.Some? <==> prior in KeysPresent(all, MonthKeyOf) && spent > 0)
      && (pct.Some? ==> pct.value == (avg - spent as real) / spent as real * 100.0)
  {
    MonthlyLookup(all, PreviousMonth(MonthOf(start)));
  }

  /** The KPIs with the corrected comparison against the whole data set `all`. */
  function ComputeKpisCorrected(filtered: seq<Record>, all: seq<Record>, start: Date): KpiSet
    requires |filtered| > 0
  {
    var k := ComputeKpis(filtered, start);
    k.(pctChange := PriorMonthPctChange(k.avgPerMonth, MonthlySums(all), start))
  }
}
