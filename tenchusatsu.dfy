/**
 * Inauspicious-period ("tenchusatsu") grouping of day pillars
 * (app.py:353-366): a pillar code is looked up in the 60-entry cycle and its
 * position, divided by ten, picks one of six two-branch labels.
 */
module Tenchusatsu {
  import opened Arith
  import opened Sexagenary

  /** The six labels of _TENCHU_GROUPS: 戌亥 申酉 午未 辰巳 寅卯 子丑 (app.py:361). */
  datatype VoidPair = InuI | SaruTori | UmaHitsuji | TatsuMi | ToraU | NeUshi

  const TenchuGroups: seq<VoidPair> := [InuI, SaruTori, UmaHitsuji, TatsuMi, ToraU, NeUshi]

  /** The two branches (as branch indices) that a label names. */
  function VoidBranches(g: VoidPair): (int, int) {
    match g
    case InuI => (10, 11)
    case SaruTori => (8, 9)
    case UmaHitsuji => (6, 7)
    case TatsuMi => (4, 5)
    case ToraU => (2, 3)
    case NeUshi => (0, 1)
  }

  /** Result of get_tenchusatsu; `Unknown` is the "不明" sentinel. */
  datatype Tenchu = Group(pair: VoidPair) | Unknown

  /**
   * Python's `xs.index(x)`: the first position holding x.  Where `index`
   * would raise ValueError (x absent) the model returns |xs| instead, a case
   * get_tenchusatsu never reaches because it tests membership first.
   */
  function FirstIndex<T(==)>(xs: seq<T>, x: T): (r: nat)
    ensures r <= |xs|
    ensures r < |xs| ==> xs[r] == x
    ensures forall j | 0 <= j < r :: xs[j] != x
  {
    if |xs| == 0 then 0
    else if xs[0] == x then 0
    else 1 + FirstIndex(xs[1..], x)
  }

  /** get_tenchusatsu (app.py:363-366). */
  function GetTenchusatsu(dayPillar: string): Tenchu {
    if dayPillar in KanshiBase then
      var i := FirstIndex(KanshiBase, dayPillar);
      Group(TenchuGroups[i / 10])
    else
      Unknown
  }

  /** The i-th pillar of the cycle belongs to the group of its decade. */
  lemma TenchusatsuAt(i: int)
    requires 0 <= i < 60
    ensures GetTenchusatsu(KanshiBase[i]) == Group(TenchuGroups[i / 10])
  {
    var code := KanshiBase[i];
    var k := FirstIndex(KanshiBase, code);
    KanshiBaseAt(i);
    assert k <= i;
    KanshiBaseAt(k);
    PillarCodeInjective(k % 10, k % 12, i % 10, i % 12);
    CycleInjective(k, i);
  }

  /** Every valid pillar has a group: the decade of its position in the cycle. */
  lemma TenchusatsuOfPillar(s: int, b: int)
    requires ValidPillar(s, b)
    ensures GetTenchusatsu(PillarCode(s, b)) == Group(TenchuGroups[CycleIndex(s, b) / 10])
  {
    var i := CycleIndex(s, b);
    KanshiBaseAt(i);
    TenchusatsuAt(i);
  }

  /** A code is "unknown" exactly when it renders no valid pillar. */
  lemma UnknownIffNotPillar(code: string)
    ensures GetTenchusatsu(code) == Unknown <==> forall s, b | ValidPillar(s, b) :: code != PillarCode(s, b)
  {
    KanshiBaseIsCycle();
    if code in KanshiBase {
      var i :| 0 <= i < 60 && KanshiBase[i] == code;
      CyclePosition(i);
      assert code == PillarCode(i % 10, i % 12);
    } else {
      forall s, b | ValidPillar(s, b) ensures code != PillarCode(s, b) {
        KanshiBaseAt(CycleIndex(s, b));
      }
    }
  }

  /**
   * The label of decade k names exactly the two branches that none of its ten
   * pillars carries: the branches "left out" of that stretch of the cycle.
   */
  lemma VoidBranchesMissing(k: int, b: int)
    requires 0 <= k < 6 && IsBranch(b)
    ensures (exists i | 10 * k <= i < 10 * k + 10 :: i % 12 == b)
        <==> b != VoidBranches(TenchuGroups[k]).0 && b != VoidBranches(TenchuGroups[k]).1
  {
    var v := VoidBranches(TenchuGroups[k]);
    assert v.0 == (10 * k + 10) % 12 && v.1 == (10 * k + 11) % 12 by {
      if k == 0 {} else if k == 1 {} else if k == 2 {} else if k == 3 {} else if k == 4 {} else {}
    }
    // b lies o branches after the decade's first branch: b - 10k == o + 12t.
    var o, t := (b - 10 * k) % 12, (b - 10 * k) / 12;
    if b != v.0 && b != v.1 {
      if o == 10 {
        ModOfOffset12(10 * k + 10, b, -t);
      } else if o == 11 {
        ModOfOffset12(10 * k + 11, b, -t);
      }
      var i := 10 * k + o;
      ModOfOffset12(i, b, -t);
    } else {
      forall i | 10 * k <= i < 10 * k + 10 ensures i % 12 != b {
        ModDiffers12(i, 10 * k + 10);
        ModDiffers12(i, 10 * k + 11);
      }
    }
  }

  /** Adjacent decades of the cycle, taken cyclically, carry different labels. */
  lemma NextDecadeLabelsDiffer(i: int)
    requires 0 <= i < 60
    ensures TenchuGroups[i / 10] != TenchuGroups[(i + 10) % 60 / 10]
  {
    var k, l := i / 10, (i + 10) % 60 / 10;
    assert l == (k + 1) % 6 by {
      if i < 50 {
        assert (i + 10) % 60 == i + 10;
      } else {
        assert (i + 10) % 60 == i - 50;
      }
    }
    assert TenchuGroups[k] != TenchuGroups[l] by {
      if k == 0 {} else if k == 1 {} else if k == 2 {} else if k == 3 {} else if k == 4 {} else {}
    }
  }

  /** Pillars ten places apart in the cycle (cyclically) fall in different groups. */
  lemma NextDecadeDiffers(i: int)
    requires 0 <= i < 60
    ensures GetTenchusatsu(KanshiBase[i]) != GetTenchusatsu(KanshiBase[(i + 10) % 60])
  {
    TenchusatsuAt(i);
    TenchusatsuAt((i + 10) % 60);
    NextDecadeLabelsDiffer(i);
  }
}
