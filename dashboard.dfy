/** The analytics pass of app.py from the filtered set to the insight
    (lines 56-156 without the charts, the forecast and the export), and the
    whole script from the uploaded table on. */
module Dashboard {
  import opened Wrappers
  import opened Seqs
  import opened Dates
  import opened Records
  import opened Grouping
  import opened Ingest
  import opened Filters
  import opened Timeline
  import opened Kpis
  import opened Rules

  /** What the page shows: nothing past the "no expenses match" warning, or
      the KPIs, the budget verdict, the category and monthly series, the
      date-sorted records with their cumulative column, and the insight.
      The insight is `None` when the page never reaches it: the forecast fit
      of line 128 raises on fewer than two monthly rows, and the handler of
      lines 158-159 shows an error instead of lines 137-156. */
  datatype View =
    | NoMatches
    | Summary(
        kpis: KpiSet,
        budget: BudgetStatus,
        categories: seq<Bucket<string>>,
        monthly: seq<Bucket<MonthKey>>,
        timeline: seq<Record>,
        cumulative: seq<int>,
        insight: Option<Insight>)

  /** Prophet's `fit` needs at least two rows of `monthly` (lines 126-128). */
  predicate ForecastFits(monthly: seq<Bucket<MonthKey>>) {
    2 <= |monthly|
  }

  function Summarize(filtered: seq<Record>, kpis: KpiSet, budget: int): View
    requires |filtered| > 0
  {
    var timeline := SortByDate(filtered);
    var monthly := MonthlySums(filtered);
    Summary(kpis, BudgetCheck(kpis.total, budget), CategorySums(filtered), monthly,
            timeline, RunningTotals(timeline),
            if ForecastFits(monthly) then Some(TrendInsight(kpis.pctChange)) else None)
  }

  /** Lines 56-156 as written: filter, stop on an empty result, and compute
      the dashboard, comparing with `prev_month` in the filtered monthly sums. */
  function Analyze(data: seq<Record>, c: Criteria, budget: int): View {
    var filtered := ApplyFilters(data, c);
    if filtered == [] then NoMatches
    else Summarize(filtered, ComputeKpis(filtered, c.start), budget)
  }

  /** The same pass with the comparison against the calendar month before the
      window, taken from the whole validated data set. */
  function AnalyzeCorrected(data: seq<Record>, c: Criteria, budget: int): View {
    var filtered := ApplyFilters(data, c);
    if filtered == [] then NoMatches
    else Summarize(filtered, ComputeKpisCorrected(filtered, data, c.start), budget)
  }

  /** The script from the uploaded table to the page. */
  function Run(t: RawTable, ps: Parsers, c: Criteria, budget: int): Result<View, LoadError> {
    match Load(t, ps)
    case Failure(e) => Failure(e)
    case Success(data) => Success(Analyze(data, c, budget))
  }

  /** A missing column stops the script before any analytics; otherwise
      the analytics stop exactly when no validated record passes the filters. */
  lemma RunStopsIff(t: RawTable, ps: Parsers, c: Criteria, budget: int)
    ensures Run(t, ps, c, budget).Failure? <==> exists col :: col in RequiredColumns && col !in t.columns
    ensures Run(t, ps, c, budget).Success? ==>
            (Run(t, ps, c, budget).value.NoMatches? <==> ApplyFilters(Load(t, ps).value, c) == [])
  {
    LoadFailsIffColumnMissing(t, ps);
  }

  /** Everything the page shows agrees: the count is the number of filtered
      records; the monthly sums, the category sums and the last cumulative
      entry all equal the total; the cumulative series has one entry per
      record over date-sorted records that are a permutation of the filtered
      ones; the budget verdict follows from the KPIs, and the insight is
      shown exactly when the filtered records span two or more months, and
      then follows from the KPIs. */
  lemma AnalyzeConsistent(data: seq<Record>, c: Criteria, budget: int)
    ensures var v := Analyze(data, c, budget);
      var filtered := ApplyFilters(data, c);
      && (v.NoMatches? <==> filtered == [])
      && (v.Summary? ==>
          && v.kpis.count == |filtered|
          && v.kpis.total == Total(filtered)
          && BucketTotal(v.monthly) == v.kpis.total
          && BucketTotal(v.categories) == v.kpis.total
          && 0 < |v.monthly| && v.kpis.avgPerMonth == v.kpis.total as real / |v.monthly| as real
          && |v.cumulative| == v.kpis.count
          && v.cumulative[|v.cumulative| - 1] == v.kpis.total
          && DateSorted(v.timeline)
          && multiset(v.timeline) == multiset(filtered)
          && (forall i :: 0 <= i < |v.timeline| ==> v.cumulative[i] == Total(v.timeline[..i + 1]))
          && v.budget == BudgetCheck(v.kpis.total, budget)
          && (v.insight.Some? <==> 2 <= |v.monthly|)
          && (v.insight.Some? ==> v.insight.value == TrendInsight(v.kpis.pctChange)))
  {
    var filtered := ApplyFilters(data, c);
    if filtered != [] {
      ComputeKpisSpec(filtered, c.start);
      var timeline := SortByDate(filtered);
      SortByDateSpec(filtered);
      RunningTotalsEndAtTotal(timeline);
      SumByPermutation(timeline, filtered, AmountOf);
    }
  }

  /** The comparison as written is never against a month before the window:
      with a window starting on the 1st, whenever the insight is reached it
      is "not enough data". */
  lemma AnalyzeNeverComparesWithPriorMonth(data: seq<Record>, c: Criteria, budget: int)
    requires c.start.day == 1
    ensures Analyze(data, c, budget).Summary? && Analyze(data, c, budget).insight.Some? ==>
            Analyze(data, c, budget).insight.value == NotEnoughData
  {
    var filtered := ApplyFilters(data, c);
    if filtered != [] {
      forall i | 0 <= i < |filtered|
        ensures NotAfter(c.start, filtered[i].date)
      {
        KeptWithinWindow(data, c, i);
      }
      var monthly := MonthlySums(filtered);
      AvgPerMonthIsTotalOverMonths(filtered);
      PctChangeStaysInsideWindow(filtered, c.start, AvgPerMonth(monthly));
    }
  }

  /** January 10,000 cents, February and March 15,000 cents each. */
  function CounterexampleRecords(): seq<Record> {
    [Record(Date(2024, 1, 10), "Food", 10000, "Card", None),
     Record(Date(2024, 2, 10), "Food", 15000, "Card", None),
     Record(Date(2024, 3, 10), "Food", 15000, "Card", None)]
  }

  /** A window from `start` to the end of March, everything else selected. */
  function CounterexampleCriteria(start: Date): Criteria {
    Criteria(start, Date(2024, 3, 31), {"Food"}, {"Card"}, "")
  }

  lemma CounterexampleFilter(start: Date)
    requires start == Date(2024, 2, 1) || start == Date(2024, 2, 5)
    ensures ApplyFilters(CounterexampleRecords(), CounterexampleCriteria(start)) == CounterexampleRecords()[1..]
  {
    var rs := CounterexampleRecords();
    var c := CounterexampleCriteria(start);
    assert IsBlank("");
    assert rs[1..][1..] == [rs[2]] && [rs[2]][1..] == [];
    assert !InMask(rs[0], c) && InMask(rs[1], c) && InMask(rs[2], c);
    assert Filter([rs[2]], InMask, c) == [rs[2]];
    assert Filter(rs[1..], InMask, c) == rs[1..];
  }

  lemma CounterexampleMonthly()
    ensures MonthlySums(CounterexampleRecords()[1..]) ==
            [Bucket(MonthKey(2024, 2), 15000), Bucket(MonthKey(2024, 3), 15000)]
    ensures MonthlySums(CounterexampleRecords()) ==
            [Bucket(MonthKey(2024, 1), 10000), Bucket(MonthKey(2024, 2), 15000), Bucket(MonthKey(2024, 3), 15000)]
  {
    var rs := CounterexampleRecords();
    assert rs[1..][1..] == [rs[2]] && [rs[2]][1..] == [];
    assert MonthlySums([]) == [];
    assert MonthlySums([rs[2]]) == [Bucket(MonthKey(2024, 3), 15000)];
  }

  /** The average over February and March is 15,000. As written, a start on
      February 1st looks January up among February and March and finds
      nothing, while a start on February 5th finds February itself; the
      corrected comparison finds January in the whole data set. */
  lemma CounterexampleKpis()
    ensures ComputeKpis(CounterexampleRecords()[1..], Date(2024, 2, 1)).pctChange == None
    ensures ComputeKpis(CounterexampleRecords()[1..], Date(2024, 2, 5)).pctChange == Some(0.0)
    ensures ComputeKpisCorrected(CounterexampleRecords()[1..], CounterexampleRecords(), Date(2024, 2, 1)).pctChange
            == Some(50.0)
  {
    var rs := CounterexampleRecords();
    CounterexampleMonthly();
    var monthly := MonthlySums(rs[1..]);
    assert monthly[1..] == [Bucket(MonthKey(2024, 3), 15000)];
    assert BucketTotal(monthly[1..]) == 15000 by {
      assert monthly[1..][1..] == [];
    }
    assert AvgPerMonth(monthly) == 15000.0;
    assert Lookup(monthly[1..], MonthKey(2024, 1)) == None by {
      assert monthly[1..][1..] == [];
    }
    assert Lookup(MonthlySums(rs), MonthKey(2024, 1)) == Some(10000);
  }

  /** On these records, with a window over February and March starting on
      the 1st, the page as written shows no change beside the average and
      reports "not enough data"; the corrected comparison sees a 50% increase
      over January and raises the alert. Started on February 5th instead, the
      page as written compares the average with February itself and calls
      spending stable. */
  lemma PriorMonthCounterexample()
    ensures var data := CounterexampleRecords();
      var c := CounterexampleCriteria(Date(2024, 2, 1));
      var c5 := CounterexampleCriteria(Date(2024, 2, 5));
      && Analyze(data, c, 0).Summary?
      && Analyze(data, c, 0).kpis.pctChange == None
      && Analyze(data, c, 0).insight == Some(NotEnoughData)
      && AnalyzeCorrected(data, c, 0).kpis.pctChange == Some(50.0)
      && AnalyzeCorrected(data, c, 0).insight == Some(IncreaseAlert)
      && Analyze(data, c5, 0).kpis.pctChange == Some(0.0)
      && Analyze(data, c5, 0).insight == Some(StableNote)
  {
    CounterexampleFilter(Date(2024, 2, 1));
    CounterexampleFilter(Date(2024, 2, 5));
    CounterexampleMonthly();
    CounterexampleKpis();
  }

  /** The three records of the worked example: two Food expenses in January
      and one Transport expense in February. */
  function ScenarioRecords(): seq<Record> {
    [Record(Date(2024, 1, 5), "Food", 5000, "Cash", None),
     Record(Date(2024, 1, 20), "Food", 3000, "Cash", None),
     Record(Date(2024, 2, 10), "Transport", 2000, "Card", None)]
  }

  /** Everything selected; the search box holds a single space. */
  function ScenarioCriteria(): Criteria {
    Criteria(Date(2024, 1, 1), Date(2024, 2, 29), {"Food", "Transport"}, {"Cash", "Card"}, " ")
  }

  lemma ScenarioFilterKeepsAll()
    ensures ApplyFilters(ScenarioRecords(), ScenarioCriteria()) == ScenarioRecords()
  {
    var rs := ScenarioRecords();
    var c := ScenarioCriteria();
    assert IsBlank(" ") by {
      assert TrimStart(" ") == TrimStart(" "[1..]) == [];
    }
    assert InMask(rs[0], c) && InMask(rs[1], c) && InMask(rs[2], c);
    assert rs[1..][1..] == [rs[2]] && [rs[2]][1..] == [];
    assert Filter([rs[2]], InMask, c) == [rs[2]];
    assert Filter(rs[1..], InMask, c) == rs[1..];
  }

  lemma ScenarioSeries()
    ensures MonthlySums(ScenarioRecords()) == [Bucket(MonthKey(2024, 1), 8000), Bucket(MonthKey(2024, 2), 2000)]
    ensures CategorySums(ScenarioRecords()) == [Bucket("Food", 8000), Bucket("Transport", 2000)]
  {
    var rs := ScenarioRecords();
    assert rs[1..][1..] == [rs[2]] && [rs[2]][1..] == [];
    assert MonthlySums([]) == [] && CategorySums([]) == [];
    assert MonthlySums([rs[2]]) == [Bucket(MonthKey(2024, 2), 2000)];
    assert StrLess("Food", "Transport");
    assert CategorySums([rs[2]]) == [Bucket("Transport", 2000)];
  }

  lemma ScenarioTimeline()
    ensures SortByDate(ScenarioRecords()) == ScenarioRecords()
    ensures RunningTotals(ScenarioRecords()) == [5000, 8000, 10000]
  {
    var rs := ScenarioRecords();
    assert rs[1..][1..] == [rs[2]] && [rs[2]][1..] == [];
    assert SortByDate([rs[2]]) == [rs[2]];
    assert SortByDate(rs[1..]) == rs[1..];
    assert rs[..1] == [rs[0]] && rs[..2] == [rs[0], rs[1]] && rs[..3] == rs;
    assert [rs[0], rs[1]][1..] == [rs[1]] && [rs[1]][1..] == [] && [rs[0]][1..] == [];
    assert Total([]) == 0;
    assert rs[0].amount == 5000 && rs[1].amount == 3000 && rs[2].amount == 2000;
    assert Total([rs[0]]) == 5000;
    assert Total([rs[1]]) == 3000;
    assert Total([rs[0], rs[1]]) == 8000;
    assert Total([rs[2]]) == 2000;
    assert Total(rs[1..]) == 5000;
    assert Total(rs) == 10000;
    var cs := RunningTotals(rs);
    assert cs[0] == 5000 && cs[1] == 8000 && cs[2] == 10000;
  }

  /** The worked example: monthly sums 8,000 and 2,000 cents, category sums
      Food 8,000 and Transport 2,000, total 10,000, average per month 5,000,
      largest expense 5,000, cumulative column 5,000, 8,000, 10,000, and a
      budget of 9,000 exceeded by 1,000. */
  lemma TwoMonthScenario()
    ensures var v := Analyze(ScenarioRecords(), ScenarioCriteria(), 9000);
      && v.Summary?
      && v.monthly == [Bucket(MonthKey(2024, 1), 8000), Bucket(MonthKey(2024, 2), 2000)]
      && v.categories == [Bucket("Food", 8000), Bucket("Transport", 2000)]
      && v.kpis.total == 10000 && v.kpis.count == 3 && v.kpis.maxExpense == 5000
      && v.kpis.avgPerMonth == 5000.0
      && v.cumulative == [5000, 8000, 10000]
      && v.budget == OverBudget(1000)
  {
    var rs := ScenarioRecords();
    ScenarioFilterKeepsAll();
    ScenarioSeries();
    ScenarioTimeline();
    RunningTotalsEndAtTotal(rs);
    assert MaxExpense(rs) == 5000;
  }
}
