/**
 * The star classifier (app.py:234-241, 306-315): a stem is compared with the
 * day stem through the five elements, their generation and control cycles,
 * and yin-yang polarity, giving one of ten stars.
 */
module Stars {
  import opened Arith
  import opened Sexagenary

  /** _ELEM: element of each stem, 0 wood, 1 fire, 2 earth, 3 metal, 4 water (app.py:234). */
  const Elem: seq<int> := [0, 0, 1, 1, 2, 2, 3, 3, 4, 4]

  /** _POL: polarity of each stem, 0 yang, 1 yin (app.py:235). */
  const Pol: seq<int> := [0, 1, 0, 1, 0, 1, 0, 1, 0, 1]

  /** _GEN: the element each element produces, wood → fire → earth → metal → water → wood (app.py:236). */
  const Gen: seq<int> := [1, 2, 3, 4, 0]

  /** _CTRL: the element each element subdues, wood → earth → water → fire → metal → wood (app.py:237). */
  const Ctrl: seq<int> := [2, 3, 4, 0, 1]

  /** _HIDDEN: the main hidden stem of each branch (app.py:241). */
  const Hidden: seq<int> := [9, 5, 0, 1, 4, 2, 3, 5, 6, 7, 4, 8]

  /**
   * The ten stars, in pairs: 貫索 石門, 鳳閣 調舒, 禄存 司禄, 車騎 牽牛, 龍高 玉堂.
   * The first of each pair is given for equal polarity.
   */
  datatype Star =
    | Kansaku | Sekimon   // 貫索星 石門星: same element
    | Hokaku | Chojo      // 鳳閣星 調舒星: the day stem produces the stem
    | Rokuzon | Shiroku   // 禄存星 司禄星: the day stem subdues the stem
    | Shaki | Kengyu      // 車騎星 牽牛星: the stem subdues the day stem
    | Ryuko | Gyokudo     // 龍高星 玉堂星: the stem produces the day stem

  /** A classification; `Undefined` is the "未定義" sentinel. */
  datatype StarOutcome = Defined(star: Star) | Undefined

  /**
   * calc_star (app.py:306-315), with its tests in their priority order.  It
   * is total and agrees with the reference table StarOf: the star is fixed by
   * the element distance (stem element - day element) mod 5 and by whether
   * the polarities agree.
   */
  function CalcStar(s: int, ds: int): (r: StarOutcome)
    requires IsStem(s) && IsStem(ds)
    ensures r == Defined(StarOf((s / 2 - ds / 2) % 5, s % 2 == ds % 2))
  {
    StemTables(s);
    StemTables(ds);
    CycleTables(s / 2);
    CycleTables(ds / 2);
    var ye, de := Elem[s], Elem[ds];
    var sp := Pol[s] == Pol[ds];
    if ye == de then Defined(if sp then Kansaku else Sekimon)
    else if Gen[de] == ye then Defined(if sp then Hokaku else Chojo)
    else if Ctrl[de] == ye then Defined(if sp then Rokuzon else Shiroku)
    else if Gen[ye] == de then Defined(if sp then Ryuko else Gyokudo)
    else if Ctrl[ye] == de then Defined(if sp then Shaki else Kengyu)
    else Undefined
  }

  /** The stem tables are the index arithmetic element = s / 2, polarity = s % 2. */
  lemma StemTables(s: int)
    requires IsStem(s)
    ensures Elem[s] == s / 2 && Pol[s] == s % 2
  {
    if s == 0 {} else if s == 1 {} else if s == 2 {} else if s == 3 {} else if s == 4 {}
    else if s == 5 {} else if s == 6 {} else if s == 7 {} else if s == 8 {} else {}
  }

  /** Generation is one step round the five elements, control two steps. */
  lemma CycleTables(e: int)
    requires 0 <= e < 5
    ensures Gen[e] == (e + 1) % 5 && Ctrl[e] == (e + 2) % 5
  {
    if e == 0 {} else if e == 1 {} else if e == 2 {} else if e == 3 {} else {}
  }

  /** 1 if b holds, else 0. */
  function Count(b: bool): int {
    if b then 1 else 0
  }

  /**
   * For two different elements exactly one of the four relations calc_star
   * tests holds, so its tests after the first never overlap and never all fail.
   */
  lemma ExactlyOneRelation(ye: int, de: int)
    requires 0 <= ye < 5 && 0 <= de < 5 && ye != de
    ensures Count(Gen[de] == ye) + Count(Ctrl[de] == ye) + Count(Gen[ye] == de) + Count(Ctrl[ye] == de) == 1
  {
    CycleTables(ye);
    CycleTables(de);
  }

  /** Reference table: the star for element distance k = (stem element - day element) mod 5. */
  function StarOf(k: int, samePolarity: bool): Star
    requires 0 <= k < 5
  {
    if k == 0 then (if samePolarity then Kansaku else Sekimon)
    else if k == 1 then (if samePolarity then Hokaku else Chojo)
    else if k == 2 then (if samePolarity then Rokuzon else Shiroku)
    else if k == 3 then (if samePolarity then Shaki else Kengyu)
    else (if samePolarity then Ryuko else Gyokudo)
  }

  /** calc_star never yields the "未定義" sentinel. */
  lemma CalcStarTotal(s: int, ds: int)
    requires IsStem(s) && IsStem(ds)
    ensures CalcStar(s, ds) != Undefined
  {
  }

  /** The first star of each pair. */
  predicate IsFirstOfPair(star: Star) {
    star.Kansaku? || star.Hokaku? || star.Rokuzon? || star.Shaki? || star.Ryuko?
  }

  /** Equal polarity gives the first star of the pair, unequal polarity the second. */
  lemma PolarityPicksFirst(s: int, ds: int)
    requires IsStem(s) && IsStem(ds)
    ensures CalcStar(s, ds).Defined?
    ensures IsFirstOfPair(CalcStar(s, ds).star) <==> Pol[s] == Pol[ds]
  {
    StemTables(s);
    StemTables(ds);
  }

  /** A stem against itself is 貫索星. */
  lemma CalcStarSelf(s: int)
    requires IsStem(s)
    ensures CalcStar(s, s) == Defined(Kansaku)
  {
  }

  /** The element distance a star stands for: the k with StarOf(k, _) == star. */
  function Distance(star: Star): int {
    match star
    case Kansaku | Sekimon => 0
    case Hokaku | Chojo => 1
    case Rokuzon | Shiroku => 2
    case Shaki | Kengyu => 3
    case Ryuko | Gyokudo => 4
  }

  lemma StarOfParts(k: int, p: bool)
    requires 0 <= k < 5
    ensures Distance(StarOf(k, p)) == k && IsFirstOfPair(StarOf(k, p)) == p
  {
  }

  /** The one stem that yields `star` against day stem ds. */
  function StemFor(star: Star, ds: int): int
    requires IsStem(ds)
  {
    2 * ((ds / 2 + Distance(star)) % 5) + (if IsFirstOfPair(star) then ds % 2 else 1 - ds % 2)
  }

  /** Against a fixed day stem, the star gives back the stem it was computed from. */
  lemma CalcStarInverse(s: int, ds: int)
    requires IsStem(s) && IsStem(ds)
    ensures CalcStar(s, ds).Defined? && StemFor(CalcStar(s, ds).star, ds) == s
  {
    StemForStarOf(s, ds);
  }

  lemma StemForStarOf(s: int, ds: int)
    requires IsStem(s) && IsStem(ds)
    ensures StemFor(StarOf((s / 2 - ds / 2) % 5, s % 2 == ds % 2), ds) == s
  {
    var x := s / 2 - ds / 2;
    var k, p := x % 5, s % 2 == ds % 2;
    StarOfParts(k, p);
    assert (ds / 2 + k) % 5 == s / 2 by {
      assert x == 5 * (x / 5) + k;
      ModOfOffset5(ds / 2 + k, s / 2, -(x / 5));
    }
    assert (if p then ds % 2 else 1 - ds % 2) == s % 2;
    HalfParts(s);
  }

  /** For a fixed day stem, different stems give different stars: each star comes from one stem. */
  lemma CalcStarInjective(s: int, s': int, ds: int)
    requires IsStem(s) && IsStem(s') && IsStem(ds)
    requires CalcStar(s, ds) == CalcStar(s', ds)
    ensures s == s'
  {
    CalcStarInverse(s, ds);
    CalcStarInverse(s', ds);
  }

  /** Every branch has a hidden stem. */
  lemma HiddenIsStem(b: int)
    requires IsBranch(b)
    ensures IsStem(Hidden[b])
  {
    if b == 0 {} else if b == 1 {} else if b == 2 {} else if b == 3 {} else if b == 4 {}
    else if b == 5 {} else if b == 6 {} else if b == 7 {} else if b == 8 {} else if b == 9 {}
    else if b == 10 {} else {}
  }
}
