/**
 * Pairwise compatibility verdicts between two charts (app.py:424-451): the
 * element relation of the center stars, agreement of the right-hand and feet
 * stars, and agreement of the two void groups.  The source renders each
 * verdict as a sentence built from two display names; here each sentence is
 * one constructor.
 */
module Compatibility {
  import opened Wrappers
  import opened Sexagenary
  import opened Stars
  import opened Tenchusatsu
  import opened Gototoku

  /** The five elements 木 火 土 金 水, in the order of the indices of Elem. */
  datatype Element = Wood | Fire | Earth | Metal | Water

  function ElementIndex(e: Element): int {
    match e
    case Wood => 0
    case Fire => 1
    case Earth => 2
    case Metal => 3
    case Water => 4
  }

  /** `_ELEM_MAP.get(star, "")` (app.py:424-426): no element for the "未定義" sentinel. */
  function StarElement(c: StarOutcome): Option<Element> {
    match c
    case Undefined => None
    case Defined(star) =>
      Some(match star
        case Kansaku | Sekimon => Wood
        case Hokaku | Chojo => Fire
        case Rokuzon | Shiroku => Earth
        case Shaki | Kengyu => Metal
        case Ryuko | Gyokudo => Water)
  }

  /** _SOUSEI: the generation pairs (app.py:427). */
  const Sousei: seq<(Element, Element)> :=
    [(Wood, Fire), (Fire, Earth), (Earth, Metal), (Metal, Water), (Water, Wood)]

  /** _SOUKOKU: the control pairs (app.py:428). */
  const Soukoku: seq<(Element, Element)> :=
    [(Wood, Earth), (Earth, Water), (Water, Fire), (Fire, Metal), (Metal, Wood)]

  /** The verdicts of _power_balance; `Independent` is its neutral sentence. */
  datatype Balance = Independent | SameKind | FlowAToB | FlowBToA | AControlsB | BControlsA

  /** _power_balance (app.py:430-438) on the two center stars. */
  function PowerBalance(ca: StarOutcome, cb: StarOutcome): Balance {
    var ea, eb := StarElement(ca), StarElement(cb);
    if ea.None? || eb.None? then Independent
    else if ea == eb then SameKind
    else if (ea.value, eb.value) in Sousei then FlowAToB
    else if (eb.value, ea.value) in Sousei then FlowBToA
    else if (ea.value, eb.value) in Soukoku then AControlsB
    else if (eb.value, ea.value) in Soukoku then BControlsA
    else Independent
  }

  /** The compatibility tables are the classifier's cycles: _SOUSEI is _GEN, _SOUKOKU is _CTRL. */
  lemma PairTablesAreCycles(x: Element, y: Element)
    ensures (x, y) in Sousei <==> ElementIndex(y) == Gen[ElementIndex(x)]
    ensures (x, y) in Soukoku <==> ElementIndex(y) == Ctrl[ElementIndex(x)]
  {
    CycleTables(ElementIndex(x));
  }

  /** Reference: the verdict for two known elements, by the distance (b - a) mod 5. */
  function BalanceOf(k: int): Balance
    requires 0 <= k < 5
  {
    if k == 0 then SameKind
    else if k == 1 then FlowAToB
    else if k == 2 then AControlsB
    else if k == 3 then BControlsA
    else FlowBToA
  }

  /**
   * For two known stars the verdict is fixed by how far B's element lies
   * round the cycle from A's; in particular the final fallback is never reached.
   */
  lemma PowerBalanceByDistance(ca: StarOutcome, cb: StarOutcome)
    requires ca.Defined? && cb.Defined?
    ensures PowerBalance(ca, cb)
         == BalanceOf((ElementIndex(StarElement(cb).value) - ElementIndex(StarElement(ca).value)) % 5)
  {
    var a, b := StarElement(ca).value, StarElement(cb).value;
    PairTablesAreCycles(a, b);
    PairTablesAreCycles(b, a);
  }

  /** The neutral verdict comes exactly from an unknown star on either side. */
  lemma PowerBalanceNeutralIff(ca: StarOutcome, cb: StarOutcome)
    ensures PowerBalance(ca, cb) == Independent <==> ca.Undefined? || cb.Undefined?
  {
    if ca.Defined? && cb.Defined? {
      PowerBalanceByDistance(ca, cb);
    }
  }

  /** The verdict with the roles of A and B exchanged. */
  function Mirror(v: Balance): Balance {
    match v
    case FlowAToB => FlowBToA
    case FlowBToA => FlowAToB
    case AControlsB => BControlsA
    case BControlsA => AControlsB
    case _ => v
  }

  /** Swapping the two people reverses the direction of the verdict and nothing else. */
  lemma PowerBalanceMirror(ca: StarOutcome, cb: StarOutcome)
    ensures PowerBalance(cb, ca) == Mirror(PowerBalance(ca, cb))
  {
    if ca.Defined? && cb.Defined? {
      PowerBalanceByDistance(ca, cb);
      PowerBalanceByDistance(cb, ca);
    }
  }

  /** A classified star's element is the element distance from the day stem to the stem. */
  lemma StarElementOfCalcStar(s: int, ds: int)
    requires IsStem(s) && IsStem(ds)
    ensures StarElement(CalcStar(s, ds)).Some?
    ensures ElementIndex(StarElement(CalcStar(s, ds)).value) == (Elem[s] - Elem[ds]) % 5
  {
    StemTables(s);
    StemTables(ds);
  }

  /** The verdicts of _combat_style. */
  datatype Style = StyleAligned | StyleComplementary

  /** _combat_style (app.py:440-442) on the two right-hand stars. */
  function CombatStyle(ra: StarOutcome, rb: StarOutcome): (v: Style)
    ensures v == StyleAligned <==> ra == rb
  {
    if ra == rb then StyleAligned else StyleComplementary
  }

  /** The verdicts of _crisis_management. */
  datatype Crisis = CrisisAligned | CrisisComplementary

  /** _crisis_management (app.py:444-446) on the two feet stars. */
  function CrisisManagement(fa: StarOutcome, fb: StarOutcome): (v: Crisis)
    ensures v == CrisisAligned <==> fa == fb
  {
    if fa == fb then CrisisAligned else CrisisComplementary
  }

  /** Both agreement verdicts are the same whichever person is named first. */
  lemma AgreementSymmetric(x: StarOutcome, y: StarOutcome)
    ensures CombatStyle(x, y) == CombatStyle(y, x)
    ensures CrisisManagement(x, y) == CrisisManagement(y, x)
  {
  }

  /** The verdicts of _tenchu_affinity; the first is its neutral sentence. */
  datatype Biorhythm = SteadyPace | SharedCycle(pair: VoidPair) | OffsetCycles(a: VoidPair, b: VoidPair)

  /** _tenchu_affinity (app.py:448-451) on the two void groups. */
  function TenchuAffinity(ta: Tenchu, tb: Tenchu): (v: Biorhythm)
    ensures v == SteadyPace <==> ta == Unknown || tb == Unknown
    ensures v.SharedCycle? <==> ta.Group? && ta == tb
    ensures v.SharedCycle? ==> v.pair == ta.pair
    ensures v.OffsetCycles? ==> ta.Group? && tb.Group? && ta != tb && v.a == ta.pair && v.b == tb.pair
  {
    if ta == Unknown || tb == Unknown then SteadyPace
    else if ta == tb then SharedCycle(ta.pair)
    else OffsetCycles(ta.pair, tb.pair)
  }

  /** The four verdicts for two charts. */
  datatype Assessment = Assessment(identity: Balance, field: Style, crisis: Crisis, biorhythm: Biorhythm)

  /** The four verdicts as the organisation report combines them (app.py:643-644, 695-704). */
  function Assess(a: Chart, b: Chart): Assessment {
    Assessment(
      PowerBalance(a.center, b.center),
      CombatStyle(a.right, b.right),
      CrisisManagement(a.feet, b.feet),
      TenchuAffinity(GetTenchusatsu(a.dayPillar), GetTenchusatsu(b.dayPillar)))
  }

  /** Exchanging the two charts mirrors the identity verdict and the order of the two groups. */
  lemma AssessSwap(a: Chart, b: Chart)
    ensures var v, w := Assess(a, b), Assess(b, a);
      && w.identity == Mirror(v.identity)
      && w.field == v.field && w.crisis == v.crisis
      && (w.biorhythm == match v.biorhythm
            case OffsetCycles(x, y) => OffsetCycles(y, x)
            case _ => v.biorhythm)
  {
    PowerBalanceMirror(a.center, b.center);
  }

  /**
   * For charts computed from dates, neither neutral fallback is ever reached:
   * both center stars are known and both day pillars have a group.
   */
  lemma AssessChartsNeverNeutral(d1: Calendar.Date, d2: Calendar.Date)
    ensures var v := Assess(CalcGototoku(d1), CalcGototoku(d2));
      v.identity != Independent && v.biorhythm != SteadyPace
  {
    ChartStarsDefined(d1);
    ChartStarsDefined(d2);
    ChartPillarsInCycle(d1);
    ChartPillarsInCycle(d2);
    PowerBalanceNeutralIff(CalcGototoku(d1).center, CalcGototoku(d2).center);
  }
}
