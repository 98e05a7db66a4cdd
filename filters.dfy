/** The sidebar filters of app.py: a date window, a category selection, a
    payment-method selection and a free-text search on the description. */
module Filters {
  import opened Wrappers
  import opened Seqs
  import opened Dates
  import opened Records

  /** The filter selections: inclusive date bounds, the chosen categories and
      payment methods, and the search box text as typed. */
  datatype Criteria = Criteria(
    start: Date,
    end: Date,
    categories: set<string>,
    payments: set<string>,
    search: string)

  /** The boolean mask of lines 56-61. */
  predicate InMask(r: Record, c: Criteria) {
    && NotAfter(c.start, r.date)
    && NotAfter(r.date, c.end)
    && r.category in c.categories
    && r.payment in c.payments
  }

  /** The characters Python's `str.strip()` removes. */
  predicate IsSpace(ch: char) {
    || ch == ' ' || ch == '\t' || ch == '\n' || ch == '\r'
    || ch == '\U{000B}' || ch == '\U{000C}'
    || ('\U{001C}' <= ch <= '\U{001F}')
    || ch == '\U{0085}' || ch == '\U{00A0}' || ch == '\U{1680}'
    || ('\U{2000}' <= ch <= '\U{200A}')
    || ch == '\U{2028}' || ch == '\U{2029}' || ch == '\U{202F}' || ch == '\U{205F}' || ch == '\U{3000}'
  }

  function TrimStart(s: string): (r: string)
    ensures r == [] || !IsSpace(r[0])
    decreases |s|
  {
    if s == [] then [] else if IsSpace(s[0]) then TrimStart(s[1..]) else s
  }

  function TrimEnd(s: string): string
    decreases |s|
  {
    if s == [] then [] else if IsSpace(s[|s| - 1]) then TrimEnd(s[..|s| - 1]) else s
  }

  /** `str.strip()`. */
  function Strip(s: string): string {
    TrimEnd(TrimStart(s))
  }

  /** The search box counts as empty (`not search_text.strip()`). */
  predicate IsBlank(s: string) {
    Strip(s) == []
  }

  ghost predicate AllSpace(s: string) {
    forall i :: 0 <= i < |s| ==> IsSpace(s[i])
  }

  lemma {:induction false} TrimStartEmptyIffAllSpace(s: string)
    ensures TrimStart(s) == [] <==> AllSpace(s)
    decreases |s|
  {
    if s != [] && IsSpace(s[0]) {
      TrimStartEmptyIffAllSpace(s[1..]);
      assert AllSpace(s) <==> AllSpace(s[1..]) by {
        if AllSpace(s[1..]) {
          forall i | 0 < i < |s| ensures IsSpace(s[i]) { assert s[i] == s[1..][i - 1]; }
        }
      }
    }
  }

  lemma {:induction false} TrimEndEmptyIffAllSpace(s: string)
    ensures TrimEnd(s) == [] <==> AllSpace(s)
    decreases |s|
  {
    if s != [] && IsSpace(s[|s| - 1]) {
      TrimEndEmptyIffAllSpace(s[..|s| - 1]);
    }
  }

  /** The search text is blank exactly when it consists of whitespace only. */
  lemma BlankIffAllSpace(s: string)
    ensures IsBlank(s) <==> AllSpace(s)
  {
    TrimStartEmptyIffAllSpace(s);
    TrimEndEmptyIffAllSpace(TrimStart(s));
  }

  /** ASCII lower-casing of one character. */
  function LowerChar(ch: char): char {
    if 'A' <= ch <= 'Z' then (ch as int + 32) as char else ch
  }

  function Lower(s: string): (r: string)
    ensures |r| == |s| && forall i :: 0 <= i < |s| ==> r[i] == LowerChar(s[i])
  {
    seq(|s|, i requires 0 <= i < |s| => LowerChar(s[i]))
  }

  /** `needle` occurs in `hay` starting at position `i`. */
  predicate OccursAt(hay: string, needle: string, i: int) {
    0 <= i <= |hay| - |needle| && hay[i..i + |needle|] == needle
  }

  /** `needle` occurs as a contiguous part of `hay`. */
  predicate ContainsText(hay: string, needle: string) {
    exists i :: 0 <= i <= |hay| && OccursAt(hay, needle, i)
  }

  /** `Description.str.contains(text, case=False, na=False)` for one row. */
  predicate MatchesSearch(r: Record, text: string) {
    match r.description
    case None => false
    case Some(d) => ContainsText(Lower(d), Lower(text))
  }

  /** Lines 56-63: the mask, then the description search when the search box
      is not blank. */
  function ApplyFilters(rs: seq<Record>, c: Criteria): seq<Record> {
    var masked := Filter(rs, InMask, c);
    if IsBlank(c.search) then masked else Filter(masked, MatchesSearch, c.search)
  }

  /** The selection rule stated as one conjunction. */
  predicate Selected(r: Record, c: Criteria) {
    && NotAfter(c.start, r.date) && NotAfter(r.date, c.end)
    && r.category in c.categories
    && r.payment in c.payments
    && (IsBlank(c.search) ||
        (r.description.Some? && ContainsText(Lower(r.description.value), Lower(c.search))))
  }

  lemma {:induction false} MaskThenSearch(rs: seq<Record>, c: Criteria)
    requires !IsBlank(c.search)
    ensures Filter(Filter(rs, InMask, c), MatchesSearch, c.search) == Filter(rs, Selected, c)
    decreases |rs|
  {
    if rs != [] {
      MaskThenSearch(rs[1..], c);
    }
  }

  lemma {:induction false} MaskOnly(rs: seq<Record>, c: Criteria)
    requires IsBlank(c.search)
    ensures Filter(rs, InMask, c) == Filter(rs, Selected, c)
    decreases |rs|
  {
    if rs != [] {
      MaskOnly(rs[1..], c);
    }
  }

  /** The two-stage filter of app.py is the one-pass selection by `Selected`. */
  lemma ApplyFiltersIsSelection(rs: seq<Record>, c: Criteria)
    ensures ApplyFilters(rs, c) == Filter(rs, Selected, c)
  {
    if IsBlank(c.search) { MaskOnly(rs, c); } else { MaskThenSearch(rs, c); }
  }

  /** A record is kept iff it is in the window, its category and payment
      method are selected, and the search is blank or matches its description. */
  lemma ApplyFiltersKeepsIff(rs: seq<Record>, c: Criteria, x: Record)
    ensures x in ApplyFilters(rs, c) <==> x in rs && Selected(x, c)
  {
    ApplyFiltersIsSelection(rs, c);
    FilterMembership(rs, Selected, c, x);
  }

  /** The result is the order-preserving subsequence of the selected positions. */
  lemma ApplyFiltersPreservesOrder(rs: seq<Record>, c: Criteria)
    ensures exists idx :: PicksOut(ApplyFilters(rs, c), rs, idx) &&
                          forall i :: 0 <= i < |rs| ==> (Selected(rs[i], c) <==> i in idx)
  {
    ApplyFiltersIsSelection(rs, c);
    FilterPicksPassingPositions(rs, Selected, c);
  }

  /** Filtering twice with the same selections is filtering once. */
  lemma ApplyFiltersIdempotent(rs: seq<Record>, c: Criteria)
    ensures ApplyFilters(ApplyFilters(rs, c), c) == ApplyFilters(rs, c)
  {
    ApplyFiltersIsSelection(rs, c);
    ApplyFiltersIsSelection(ApplyFilters(rs, c), c);
    FilterIdempotent(rs, Selected, c);
  }

  /** An empty category or payment selection keeps nothing. */
  lemma EmptySelectionKeepsNothing(rs: seq<Record>, c: Criteria)
    requires c.categories == {} || c.payments == {}
    ensures ApplyFilters(rs, c) == []
  {
    var kept := ApplyFilters(rs, c);
    if kept != [] {
      ApplyFiltersKeepsIff(rs, c, kept[0]);
    }
  }

  /** Every kept record lies in the selected date window. */
  lemma KeptWithinWindow(rs: seq<Record>, c: Criteria, i: int)
    requires 0 <= i < |ApplyFilters(rs, c)|
    ensures NotAfter(c.start, ApplyFilters(rs, c)[i].date) && NotAfter(ApplyFilters(rs, c)[i].date, c.end)
  {
    ApplyFiltersKeepsIff(rs, c, ApplyFilters(rs, c)[i]);
  }
}
