/**
 * The five-position chart ("gototoku") of a birth date (app.py:319-347): the
 * year, month and day pillars, and five stars each classified against the
 * day stem.
 */
module Gototoku {
  import opened Arith
  import opened Calendar
  import opened Sexagenary
  import opened Pillars
  import opened Stars
  import opened Tenchusatsu

  /** The dictionary calc_gototoku returns, one field per key. */
  datatype Chart = Chart(
    head: StarOutcome,     // year stem
    left: StarOutcome,     // hidden stem of the month branch
    center: StarOutcome,   // hidden stem of the day branch: the identity star
    right: StarOutcome,    // hidden stem of the year branch
    feet: StarOutcome,     // month stem
    dayPillar: string,
    yearPillar: string,
    monthPillar: string,
    ds: int,
    db: int)

  /** calc_gototoku (app.py:319-347). */
  function CalcGototoku(birth: Date): Chart {
    var ds, db := DayStem(birth), DayBranch(birth);
    var ys, yb := YearStem(birth), YearBranch(birth);
    var ms, mb := MonthStem(birth), MonthBranch(birth);
    MonthBranchRange(birth);
    HiddenIsStem(mb);
    HiddenIsStem(db);
    HiddenIsStem(yb);
    Chart(
      CalcStar(ys, ds),
      CalcStar(Hidden[mb], ds),
      CalcStar(Hidden[db], ds),
      CalcStar(Hidden[yb], ds),
      CalcStar(ms, ds),
      PillarCode(ds, db),
      PillarCode(ys, yb),
      PillarCode(ms, mb),
      ds,
      db)
  }

  /** No position of any chart holds the "未定義" sentinel. */
  lemma ChartStarsDefined(birth: Date)
    ensures var c := CalcGototoku(birth);
      c.head.Defined? && c.left.Defined? && c.center.Defined? && c.right.Defined? && c.feet.Defined?
  {
    var ds, db := DayStem(birth), DayBranch(birth);
    var yb, mb := YearBranch(birth), MonthBranch(birth);
    MonthBranchRange(birth);
    HiddenIsStem(mb);
    HiddenIsStem(db);
    HiddenIsStem(yb);
    CalcStarTotal(YearStem(birth), ds);
    CalcStarTotal(Hidden[mb], ds);
    CalcStarTotal(Hidden[db], ds);
    CalcStarTotal(Hidden[yb], ds);
    CalcStarTotal(MonthStem(birth), ds);
  }

  /**
   * All three pillars of a chart are entries of the 60-cycle; the day pillar
   * is entry DayCycleIndex(birth), which fixes its group, so the grouping
   * never answers "不明" for a computed chart.
   */
  lemma ChartPillarsInCycle(birth: Date)
    ensures var c := CalcGototoku(birth);
      && c.dayPillar == KanshiBase[DayCycleIndex(birth)]
      && c.yearPillar in KanshiBase
      && c.monthPillar in KanshiBase
      && GetTenchusatsu(c.dayPillar) == Group(TenchuGroups[DayCycleIndex(birth) / 10])
  {
    var ds, db := DayStem(birth), DayBranch(birth);
    var ys, yb := YearStem(birth), YearBranch(birth);
    var ms, mb := MonthStem(birth), MonthBranch(birth);
    DayPillarInCycle(birth);
    YearPillarInCycle(birth);
    MonthPillarInCycle(birth);
    KanshiBaseAt(CycleIndex(ds, db));
    KanshiBaseAt(CycleIndex(ys, yb));
    KanshiBaseAt(CycleIndex(ms, mb));
    TenchusatsuOfPillar(ds, db);
  }

  /** The day pillar indices of the calibration date 1994-01-21. */
  lemma CalibrationDay()
    ensures DayStem(Date(1994, 1, 21)) == 3 && DayBranch(Date(1994, 1, 21)) == 7
  {
    JdnWithinMonth(1994, 1, 21);
    JdnFirstOfMonth(1994, 1);
    assert YearTerm(6793) == 2449374 - 1 - 306 - 20;
    AnchorDay();
    ModOfOffset10(2449374 - 2415021, 3, 3435);
    ModOfOffset12(2449374 - 2415021 + 10, 7, 2863);
  }

  /** The year and month pillar indices of the calibration date: it still belongs to 1993. */
  lemma CalibrationYearMonth()
    ensures var d := Date(1994, 1, 21);
      && YearStem(d) == 9 && YearBranch(d) == 9
      && MonthBranch(d) == 1 && MonthStem(d) == 1
  {
    var d := Date(1994, 1, 21);
    assert ChineseYear(d) == 1993;
    MonthBranchClosedForm(d);
  }

  /** The five stars of the calibration chart, against day stem 丁 (3). */
  lemma CalibrationStars()
    ensures CalcStar(9, 3) == Defined(Shaki)
    ensures CalcStar(Hidden[1], 3) == Defined(Hokaku)
    ensures CalcStar(Hidden[7], 3) == Defined(Hokaku)
    ensures CalcStar(Hidden[9], 3) == Defined(Rokuzon)
    ensures CalcStar(1, 3) == Defined(Ryuko)
  {
  }

  /**
   * The calibration chart: 1994-01-21 is the day 丁未 in the month 乙丑 of
   * the year 癸酉, with head 車騎星, left 鳳閣星, center 鳳閣星, right 禄存星
   * and feet 龍高星 (app.py:227-228).
   */
  lemma CalibrationChart()
    ensures CalcGototoku(Date(1994, 1, 21)) == Chart(
      Defined(Shaki), Defined(Hokaku), Defined(Hokaku), Defined(Rokuzon), Defined(Ryuko),
      "丁未", "癸酉", "乙丑", 3, 7)
  {
    CalibrationDay();
    CalibrationYearMonth();
    CalibrationStars();
    assert PillarCode(3, 7) == "丁未" && PillarCode(9, 9) == "癸酉" && PillarCode(1, 1) == "乙丑";
  }
}
