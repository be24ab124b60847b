/**
 * The sexagenary (stem-branch) cycle: the ten heavenly stems, the twelve
 * earthly branches, two-character pillar codes and the canonical 60-entry
 * list of pillars (app.py:231-232, 353-360).
 */
module Sexagenary {
  import opened Arith

  /** STEMS: 甲 乙 丙 丁 戊 己 庚 辛 壬 癸 (app.py:231). */
  const Stems: seq<char> := ['甲', '乙', '丙', '丁', '戊', '己', '庚', '辛', '壬', '癸']

  /** BRANCHES: 子 丑 寅 卯 辰 巳 午 未 申 酉 戌 亥 (app.py:232). */
  const Branches: seq<char> := ['子', '丑', '寅', '卯', '辰', '巳', '午', '未', '申', '酉', '戌', '亥']

  predicate IsStem(s: int) { 0 <= s < 10 }

  predicate IsBranch(b: int) { 0 <= b < 12 }

  /** The rendered pillar `STEMS[s] + BRANCHES[b]`. */
  function PillarCode(s: int, b: int): string
    requires IsStem(s) && IsBranch(b)
  {
    [Stems[s], Branches[b]]
  }

  /** A stem-branch pair that occurs in the 60-cycle: both of the same parity. */
  predicate ValidPillar(s: int, b: int) {
    IsStem(s) && IsBranch(b) && s % 2 == b % 2
  }

  /**
   * _KANSHI_BASE (app.py:353-360), laid out in its six rows of ten.  The rows
   * are kept apart so that the verifier can look entries up row by row.
   */
  const KanshiRow0: seq<string> := ["甲子", "乙丑", "丙寅", "丁卯", "戊辰", "己巳", "庚午", "辛未", "壬申", "癸酉"]
  const KanshiRow1: seq<string> := ["甲戌", "乙亥", "丙子", "丁丑", "戊寅", "己卯", "庚辰", "辛巳", "壬午", "癸未"]
  const KanshiRow2: seq<string> := ["甲申", "乙酉", "丙戌", "丁亥", "戊子", "己丑", "庚寅", "辛卯", "壬辰", "癸巳"]
  const KanshiRow3: seq<string> := ["甲午", "乙未", "丙申", "丁酉", "戊戌", "己亥", "庚子", "辛丑", "壬寅", "癸卯"]
  const KanshiRow4: seq<string> := ["甲辰", "乙巳", "丙午", "丁未", "戊申", "己酉", "庚戌", "辛亥", "壬子", "癸丑"]
  const KanshiRow5: seq<string> := ["甲寅", "乙卯", "丙辰", "丁巳", "戊午", "己未", "庚申", "辛酉", "壬戌", "癸亥"]
  const KanshiBase: seq<string> :=
    KanshiRow0 + KanshiRow1 + KanshiRow2 + KanshiRow3 + KanshiRow4 + KanshiRow5

  /** Where pillar (s, b) sits in the cycle: the i in [0, 60) with i % 10 == s and i % 12 == b. */
  function CycleIndex(s: int, b: int): (i: int)
    requires ValidPillar(s, b)
    ensures 0 <= i < 60 && i % 10 == s && i % 12 == b
  {
    CycleIndexResidues(s, b);
    (6 * s - 5 * b) % 60
  }

  lemma CycleIndexResidues(s: int, b: int)
    requires ValidPillar(s, b)
    ensures (6 * s - 5 * b) % 60 % 10 == s && (6 * s - 5 * b) % 60 % 12 == b
  {
    var x := 6 * s - 5 * b;
    var q, r := x / 60, x % 60;
    DivMod60(x);
    HalfParts(s);
    HalfParts(b);
    ModOfOffset10(r, s, s / 2 - b / 2 - 6 * q);
    ModOfOffset12(r, b, s / 2 - b / 2 - 5 * q);
  }

  /** Every position of the cycle holds a valid pillar, and CycleIndex finds it again. */
  lemma CyclePosition(i: int)
    requires 0 <= i < 60
    ensures ValidPillar(i % 10, i % 12)
    ensures CycleIndex(i % 10, i % 12) == i
  {
    var s, b := i % 10, i % 12;
    var q10, q12, h := i / 10, i / 12, i / 2;
    assert i == 10 * q10 + s && i == 12 * q12 + b && i == 2 * h + i % 2;
    ModOfOffset2(s, i % 2, h - 5 * q10);
    ModOfOffset2(b, i % 2, h - 6 * q12);
    ModOfOffset60(6 * s - 5 * b, i, q12 - q10);
  }

  /** Distinct positions of the cycle hold distinct stem-branch pairs. */
  lemma CycleInjective(i: int, j: int)
    requires 0 <= i < 60 && 0 <= j < 60
    requires i % 10 == j % 10 && i % 12 == j % 12
    ensures i == j
  {
    CyclePosition(i);
    CyclePosition(j);
  }

  /** Pillar codes determine their stem and branch. */
  lemma PillarCodeInjective(s: int, b: int, s': int, b': int)
    requires IsStem(s) && IsBranch(b) && IsStem(s') && IsBranch(b')
    ensures PillarCode(s, b) == PillarCode(s', b') <==> s == s' && b == b'
  {
    if PillarCode(s, b) == PillarCode(s', b') {
      assert Stems[s] == PillarCode(s, b)[0] == Stems[s'];
      assert Branches[b] == PillarCode(s, b)[1] == Branches[b'];
    }
  }

  // Entries 10r .. 10r+9 of the table, one row of _KANSHI_BASE at a time
  // (a single case split over all 60 entries is too large for the solver).

  lemma KanshiBlock0At(i: int)
    requires 0 <= i < 10
    ensures KanshiBase[i] == PillarCode(i % 10, i % 12)
  {
    assert KanshiBase[i] == KanshiRow0[i];
    if i == 0 {} else if i == 1 {} else if i == 2 {} else if i == 3 {} else if i == 4 {}
    else if i == 5 {} else if i == 6 {} else if i == 7 {} else if i == 8 {} else {}
  }

  lemma KanshiBlock1At(i: int)
    requires 10 <= i < 20
    ensures KanshiBase[i] == PillarCode(i % 10, i % 12)
  {
    assert KanshiBase[i] == KanshiRow1[i - 10];
    if i == 10 {} else if i == 11 {} else if i == 12 {} else if i == 13 {} else if i == 14 {}
    else if i == 15 {} else if i == 16 {} else if i == 17 {} else if i == 18 {} else {}
  }

  lemma KanshiBlock2At(i: int)
    requires 20 <= i < 30
    ensures KanshiBase[i] == PillarCode(i % 10, i % 12)
  {
    assert KanshiBase[i] == KanshiRow2[i - 20];
    if i == 20 {} else if i == 21 {} else if i == 22 {} else if i == 23 {} else if i == 24 {}
    else if i == 25 {} else if i == 26 {} else if i == 27 {} else if i == 28 {} else {}
  }

  lemma KanshiBlock3At(i: int)
    requires 30 <= i < 40
    ensures KanshiBase[i] == PillarCode(i % 10, i % 12)
  {
    assert KanshiBase[i] == KanshiRow3[i - 30];
    if i == 30 {} else if i == 31 {} else if i == 32 {} else if i == 33 {} else if i == 34 {}
    else if i == 35 {} else if i == 36 {} else if i == 37 {} else if i == 38 {} else {}
  }

  lemma KanshiBlock4At(i: int)
    requires 40 <= i < 50
    ensures KanshiBase[i] == PillarCode(i % 10, i % 12)
  {
    assert KanshiBase[i] == KanshiRow4[i - 40];
    if i == 40 {} else if i == 41 {} else if i == 42 {} else if i == 43 {} else if i == 44 {}
    else if i == 45 {} else if i == 46 {} else if i == 47 {} else if i == 48 {} else {}
  }

  lemma KanshiBlock5At(i: int)
    requires 50 <= i < 60
    ensures KanshiBase[i] == PillarCode(i % 10, i % 12)
  {
    assert KanshiBase[i] == KanshiRow5[i - 50];
    if i == 50 {} else if i == 51 {} else if i == 52 {} else if i == 53 {} else if i == 54 {}
    else if i == 55 {} else if i == 56 {} else if i == 57 {} else if i == 58 {} else {}
  }

  /** Entry i of the table is STEMS[i % 10] + BRANCHES[i % 12]. */
  lemma KanshiBaseAt(i: int)
    requires 0 <= i < 60
    ensures |KanshiBase| == 60
    ensures KanshiBase[i] == PillarCode(i % 10, i % 12)
  {
    if i < 10 {
      KanshiBlock0At(i);
    } else if i < 20 {
      KanshiBlock1At(i);
    } else if i < 30 {
      KanshiBlock2At(i);
    } else if i < 40 {
      KanshiBlock3At(i);
    } else if i < 50 {
      KanshiBlock4At(i);
    } else {
      KanshiBlock5At(i);
    }
  }

  /** The table is exactly the 60 valid pillars, each once, in cycle order. */
  lemma KanshiBaseIsCycle()
    ensures |KanshiBase| == 60
    ensures forall i | 0 <= i < 60 :: KanshiBase[i] == PillarCode(i % 10, i % 12)
  {
    forall i | 0 <= i < 60 ensures KanshiBase[i] == PillarCode(i % 10, i % 12) {
      KanshiBaseAt(i);
    }
  }
}
