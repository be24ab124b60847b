/**
 * The calendar normaliser and the day-pillar resolver (app.py:269-302): the
 * stem and branch indices of the year, month and day pillars of a date.
 */
module Pillars {
  import opened Arith
  import opened Wrappers
  import opened Calendar
  import opened Sexagenary

  // ---------------------------------------------------------------------------
  // Year pillar
  // ---------------------------------------------------------------------------

  /** `_cy`: the year changes on a fixed 4 February, not at New Year (app.py:273-274). */
  function ChineseYear(d: Date): int {
    if OnOrAfter(d, Date(d.year, 2, 4)) then d.year else d.year - 1
  }

  /** The Chinese year lags the civil year exactly from 1 January to 3 February. */
  lemma ChineseYearSwitch(d: Date)
    requires ValidDate(d)
    ensures ChineseYear(d) == if d.month == 1 || (d.month == 2 && d.day < 4) then d.year - 1 else d.year
  {
  }

  /** year_stem_idx (app.py:278-279): year 4 is the zero point of the cycle. */
  function YearStem(d: Date): int {
    (ChineseYear(d) - 4) % 10
  }

  /** year_branch_idx (app.py:281-282). */
  function YearBranch(d: Date): int {
    (ChineseYear(d) - 4) % 12
  }

  /** The year pillar is a valid pillar: entry (cy - 4) mod 60 of the cycle. */
  lemma YearPillarInCycle(d: Date)
    ensures ValidPillar(YearStem(d), YearBranch(d))
    ensures CycleIndex(YearStem(d), YearBranch(d)) == (ChineseYear(d) - 4) % 60
  {
    ResiduesOfCycle(ChineseYear(d) - 4);
  }

  /** The stem and branch residues of n are those of position n mod 60 of the cycle. */
  lemma ResiduesOfCycle(n: int)
    ensures ValidPillar(n % 10, n % 12)
    ensures CycleIndex(n % 10, n % 12) == n % 60
  {
    var i := n % 60;
    assert n == 60 * (n / 60) + i;
    ModOfOffset10(n, i % 10, 6 * (n / 60) + i / 10);
    ModOfOffset12(n, i % 12, 5 * (n / 60) + i / 12);
    CyclePosition(i);
  }

  // ---------------------------------------------------------------------------
  // Month pillar
  // ---------------------------------------------------------------------------

  /** One row of _SOLAR_TERMS: the fixed civil date a month branch starts on. */
  datatype SolarTerm = SolarTerm(month: int, day: int, branch: int)

  /** _SOLAR_TERMS (app.py:247-251). */
  const SolarTerms: seq<SolarTerm> := [
    SolarTerm(1, 6, 1), SolarTerm(2, 4, 2), SolarTerm(3, 6, 3), SolarTerm(4, 5, 4),
    SolarTerm(5, 6, 5), SolarTerm(6, 6, 6), SolarTerm(7, 7, 7), SolarTerm(8, 7, 8),
    SolarTerm(9, 8, 9), SolarTerm(10, 8, 10), SolarTerm(11, 7, 11), SolarTerm(12, 7, 0)
  ]

  /** `date(d.year, m, dy)` for table row j. */
  function TermDate(y: int, j: int): Date
    requires 0 <= j < |SolarTerms|
  {
    Date(y, SolarTerms[j].month, SolarTerms[j].day)
  }

  /** Row j starts month j + 1 and names branch (j + 1) mod 12. */
  lemma SolarTermsShape(j: int)
    requires 0 <= j < |SolarTerms|
    ensures |SolarTerms| == 12
    ensures SolarTerms[j].month == j + 1 && SolarTerms[j].branch == (j + 1) % 12
    ensures 4 <= SolarTerms[j].day <= 8
  {
    if j == 0 {} else if j == 1 {} else if j == 2 {} else if j == 3 {}
    else if j == 4 {} else if j == 5 {} else if j == 6 {} else if j == 7 {}
    else if j == 8 {} else if j == 9 {} else if j == 10 {} else {}
  }

  /**
   * The last of the first n rows whose date d has reached, if any: the row
   * whose branch the scan in month_branch_idx keeps after n steps.
   */
  function LatestBoundary(d: Date, n: nat): (r: Option<nat>)
    requires n <= |SolarTerms|
    ensures r.Some? ==> r.value < n && OnOrAfter(d, TermDate(d.year, r.value))
    ensures r.Some? ==> forall j | r.value < j < n :: !OnOrAfter(d, TermDate(d.year, j))
    ensures r.None? ==> forall j | 0 <= j < n :: !OnOrAfter(d, TermDate(d.year, j))
  {
    if n == 0 then None
    else if OnOrAfter(d, TermDate(d.year, n - 1)) then Some(n - 1)
    else LatestBoundary(d, n - 1)
  }

  /** The branch the scan holds after n rows: that of the latest row reached, else 0. */
  function BranchAfter(d: Date, n: nat): int
    requires n <= |SolarTerms|
  {
    match LatestBoundary(d, n)
    case None => 0
    case Some(j) => SolarTerms[j].branch
  }

  /** The month branch of month_branch_idx, as a function of the date. */
  function MonthBranch(d: Date): int {
    BranchAfter(d, |SolarTerms|)
  }

  /** month_branch_idx (app.py:284-289): scan the table, keeping the branch of every row reached. */
  method MonthBranchIdx(d: Date) returns (br: int)
    ensures br == MonthBranch(d)
  {
    br := 0;
    for i := 0 to |SolarTerms|
      invariant br == BranchAfter(d, i)
    {
      var t := SolarTerms[i];
      if OnOrAfter(d, Date(d.year, t.month, t.day)) {
        br := t.branch;
      }
    }
  }

  /**
   * Because the table is in calendar order, the month branch is that of the
   * boundary of the date's own month once that boundary is reached, and that
   * of the previous month's boundary before it (0 before 6 January).
   */
  lemma MonthBranchClosedForm(d: Date)
    requires ValidDate(d)
    ensures MonthBranch(d) == (if d.day >= SolarTerms[d.month - 1].day then d.month else d.month - 1) % 12
  {
    var m := d.month;
    SolarTermsShape(m - 1);
    var r := LatestBoundary(d, 12);
    if d.day >= SolarTerms[m - 1].day {
      assert OnOrAfter(d, TermDate(d.year, m - 1));
      if r.Some? && r.value != m - 1 {
        SolarTermsShape(r.value);
      }
    } else {
      assert !OnOrAfter(d, TermDate(d.year, m - 1));
      if m > 1 {
        SolarTermsShape(m - 2);
        assert OnOrAfter(d, TermDate(d.year, m - 2));
        if r.Some? && r.value != m - 2 {
          SolarTermsShape(r.value);
        }
      } else if r.Some? {
        SolarTermsShape(r.value);
      }
    }
  }

  /** Month branches are branch indices. */
  lemma MonthBranchRange(d: Date)
    ensures IsBranch(MonthBranch(d))
  {
    var r := LatestBoundary(d, 12);
    if r.Some? {
      SolarTermsShape(r.value);
    }
  }

  /** _MONTH_STEM_START (app.py:244): the stem of the month with branch 2, by year stem mod 5. */
  const MonthStemStart: seq<int> := [2, 4, 6, 8, 0]

  /** The traditional rule the table encodes: year stem k (mod 5) starts at stem 2k + 2. */
  lemma MonthStemStartRule(ys: int)
    requires IsStem(ys)
    ensures MonthStemStart[ys % 5] == (2 * (ys % 5) + 2) % 10
  {
    var k := ys % 5;
    if k == 0 {} else if k == 1 {} else if k == 2 {} else if k == 3 {} else {}
  }

  /** month_stem_idx (app.py:291-295). */
  function MonthStem(d: Date): int {
    var ys := YearStem(d);
    var mb := MonthBranch(d);
    var offset := (mb - 2 + 12) % 12;
    (MonthStemStart[ys % 5] + offset) % 10
  }

  /** In the month with branch 2 the month stem is the starting stem of the year. */
  lemma MonthStemAtFirstMonth(d: Date)
    requires MonthBranch(d) == 2
    ensures MonthStem(d) == MonthStemStart[YearStem(d) % 5]
  {
    var k := YearStem(d) % 5;
    assert 0 <= MonthStemStart[k] < 10 by {
      if k == 0 {} else if k == 1 {} else if k == 2 {} else if k == 3 {} else {}
    }
  }

  /** The month pillar is a valid pillar: month stem and branch have the same parity. */
  lemma MonthPillarInCycle(d: Date)
    ensures ValidPillar(MonthStem(d), MonthBranch(d))
  {
    MonthBranchRange(d);
    var k := YearStem(d) % 5;
    assert MonthStemStart[k] % 2 == 0 && 0 <= MonthStemStart[k] < 10 by {
      if k == 0 {} else if k == 1 {} else if k == 2 {} else if k == 3 {} else {}
    }
    StemOffsetParity(MonthStemStart[k], MonthBranch(d));
  }

  /** Counting on from an even stem by the distance from branch 2 keeps the parity of the branch. */
  lemma StemOffsetParity(start: int, mb: int)
    requires 0 <= start < 10 && start % 2 == 0 && IsBranch(mb)
    ensures var x := (start + (mb - 2 + 12) % 12) % 10; IsStem(x) && x % 2 == mb % 2
  {
    var offset := (mb - 2 + 12) % 12;
    if mb >= 2 {
      ModOfOffset12(mb - 2 + 12, mb - 2, 1);
    } else {
      ModOfOffset12(mb - 2 + 12, mb + 10, 0);
    }
    var x := start + offset;
    if x >= 20 {
      ModOfOffset10(x, x - 20, 2);
    } else if x >= 10 {
      ModOfOffset10(x, x - 10, 1);
    } else {
      ModOfOffset10(x, x, 0);
    }
  }

  // ---------------------------------------------------------------------------
  // Day pillar
  // ---------------------------------------------------------------------------

  /** _REF_JDN: 1900-01-01, the day 甲戌 (stem 0, branch 10) (app.py:269). */
  const RefDate := Date(1900, 1, 1)
  const RefJdn := Jdn(RefDate)

  /** day_stem_idx (app.py:297-298). */
  function DayStem(d: Date): int {
    (Jdn(d) - RefJdn) % 10
  }

  /** day_branch_idx (app.py:300-302), offset 10 for the anchor's branch 戌. */
  function DayBranch(d: Date): int {
    (Jdn(d) - RefJdn + 10) % 12
  }

  /** Position of the day in the 60-day cycle, counted from the anchor's position 10. */
  function DayCycleIndex(d: Date): int {
    (Jdn(d) - RefJdn + 10) % 60
  }

  /** The anchor date is 甲戌: stem 0, branch 10. */
  lemma AnchorDay()
    ensures RefJdn == 2415021
    ensures DayStem(RefDate) == 0 && DayBranch(RefDate) == 10
    ensures PillarCode(DayStem(RefDate), DayBranch(RefDate)) == "甲戌"
  {
  }

  /**
   * Every day pillar is a valid pillar (equal parity), and it is entry
   * DayCycleIndex(d) of the 60-cycle.
   */
  lemma DayPillarInCycle(d: Date)
    ensures ValidPillar(DayStem(d), DayBranch(d))
    ensures CycleIndex(DayStem(d), DayBranch(d)) == DayCycleIndex(d)
  {
    var n := Jdn(d) - RefJdn + 10;
    ResiduesOfCycle(n);
    ModOfOffset10(n, DayStem(d), 1 + (Jdn(d) - RefJdn) / 10);
  }

  /** From one calendar day to the next, the day stem, branch and cycle position advance by one. */
  lemma DayPillarAdvances(d: Date)
    requires ValidDate(d)
    ensures DayStem(NextDay(d)) == (DayStem(d) + 1) % 10
    ensures DayBranch(NextDay(d)) == (DayBranch(d) + 1) % 12
    ensures DayCycleIndex(NextDay(d)) == (DayCycleIndex(d) + 1) % 60
  {
    JdnNextDay(d);
    var n := Jdn(d) - RefJdn;
    assert Jdn(NextDay(d)) - RefJdn == n + 1;
    ModSucc(n);
    ModSucc(n + 10);
  }

  lemma ModSucc(n: int)
    ensures (n + 1) % 10 == (n % 10 + 1) % 10
    ensures (n + 1) % 12 == (n % 12 + 1) % 12
    ensures (n + 1) % 60 == (n % 60 + 1) % 60
  {
    var r10, r12, r60 := n % 10, n % 12, n % 60;
    assert n == 10 * (n / 10) + r10 && n == 12 * (n / 12) + r12 && n == 60 * (n / 60) + r60;
    ModOfOffset10(n + 1, (r10 + 1) % 10, n / 10 + (r10 + 1) / 10);
    ModOfOffset12(n + 1, (r12 + 1) % 12, n / 12 + (r12 + 1) / 12);
    ModOfOffset60(n + 1, (r60 + 1) % 60, n / 60 + (r60 + 1) / 60);
  }

  /** Two dates 60 days apart share their day pillar. */
  lemma DayPillarPeriod(d: Date, e: Date)
    requires Jdn(e) == Jdn(d) + 60
    ensures DayStem(e) == DayStem(d) && DayBranch(e) == DayBranch(d)
  {
    var n := Jdn(d) - RefJdn;
    var m := n + 10;
    assert n == 10 * (n / 10) + n % 10 && m == 12 * (m / 12) + m % 12;
    ModOfOffset10(n + 60, n % 10, n / 10 + 6);
    ModOfOffset12(m + 60, m % 12, m / 12 + 5);
  }
}
