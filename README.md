# Gototoku chart engine — a Dafny model

This project models the calculation core of a Sanmeigaku (算命学) fortune
service. The core turns a Gregorian birth date into a "gototoku" (五徳) chart.
The chart holds the year, month and day pillars, a pillar being a stem-branch
pair of the 60-cycle. It also holds five stars, one per body position (head,
left hand, center, right hand, feet). Each star classifies one stem against
the day stem.

The core also assigns a day pillar to one of six inauspicious-period
(天中殺) groups. Finally, it compares two charts through four compatibility
verdicts.

Modules, in dependency order:

- `Wrappers`: the `Option` type.
- `Calendar`: proleptic Gregorian dates and chronological order, plus the
  civil-to-Julian-Day-Number formula. The formula is proved against an
  independent day count, the date ordinal.
- `Sexagenary`: the 10 stems, the 12 branches, pillar codes and the 60-entry
  table of pillars. A pillar's position in the table is characterised by the
  Chinese remainder theorem.
- `Pillars`:
  - the Chinese year, which switches on a fixed 4 February;
  - the year, month and day stem and branch indices;
  - the month-branch scan over the solar-term table, as a loop proved against
    a function.
- `Stars`: the element/polarity tables and the star classifier. The
  classifier is proved total, proved equal to an element-distance reference
  table, and proved invertible for a fixed day stem.
- `Tenchusatsu`: the table lookup that gives a day pillar's void group.
- `Gototoku`: the chart of a date, including the calibration date 1994-01-21.
- `Compatibility`: the four verdicts between two charts.

The source builds each verdict as a Japanese sentence. Here each distinct
sentence is one constructor of a datatype.

Stars, void groups and elements become enumerations. The source's
placeholder strings become explicit sentinel constructors:
`StarOutcome.Undefined` for "未定義" and `Tenchu.Unknown` for "不明".

Pillar codes stay two-character strings. That way the group lookup is
modelled on arbitrary input, including codes that are not in the table.

## Model

| member | source | states |
|---|---|---|
| Calendar.Jdn | app.py:263-267 | _jdn, with Python's floor division. Its contract is stated by the lemmas JdnIsOrdinal, JdnOrderIsomorphic, JdnNextDay and ConsecutiveDatesJdn below. |
| Calendar.JdnFirstOfMonth | app.py:263-267 | The first of month m counts March as month 0 of its JDN year. January and February are months 10 and 11 of the year before. |
| Calendar.LeapDaysStep | app.py:263-267 | The leap term y//4 - y//100 + y//400 goes up by one from y-1 to y exactly when y is a Gregorian leap year. |
| Calendar.JdnIsOrdinal | app.py:263-267 | For every valid date, the JDN formula equals the day ordinal (days since 0001-01-01, counted month by month) plus 1721425. |
| Calendar.JdnNextDay | app.py:263-267 | The calendar day after a valid date has exactly the next JDN, across month and year ends and leap days. |
| Calendar.JdnOrderIsomorphic | app.py:263-267 | On valid dates, a date is earlier iff its JDN is smaller, and two dates are equal iff their JDNs are. |
| Calendar.ConsecutiveDatesJdn | app.py:263-267 | If no valid date lies strictly between two valid dates, their JDNs differ by exactly one. |
| Sexagenary.PillarCode | app.py:343-345 | `STEMS[s] + BRANCHES[b]`, the pillar strings of calc_gototoku. Its contract is stated by PillarCodeInjective and KanshiBaseAt. |
| Sexagenary.CycleIndex | app.py:231-232 | A valid pillar (stem and branch of equal parity) has a position i in [0, 60) with i mod 10 = stem and i mod 12 = branch. |
| Sexagenary.CyclePosition | app.py:231-232 | Every position i in [0, 60) carries a valid pillar (i mod 10, i mod 12), and CycleIndex finds i again. |
| Sexagenary.CycleInjective | app.py:231-232 | Two positions with the same stem and branch are the same position: the 60 pillars are distinct. |
| Sexagenary.PillarCodeInjective | app.py:231-232 | Two pillar codes are equal iff their stems and branches are equal. |
| Sexagenary.KanshiBaseAt | app.py:353-360 | The table has 60 entries, and entry i is STEMS[i mod 10] followed by BRANCHES[i mod 12]. |
| Sexagenary.KanshiBaseIsCycle | app.py:353-360 | The same as KanshiBaseAt, for all 60 entries at once. |
| Tenchusatsu.GetTenchusatsu | app.py:363-366 | get_tenchusatsu. Its contract is stated by TenchusatsuAt, TenchusatsuOfPillar, UnknownIffNotPillar and NextDecadeDiffers. |
| Tenchusatsu.FirstIndex | app.py:365 | list.index: the result is the first position holding x. Where list.index would raise ValueError (x absent), the model returns the length instead. get_tenchusatsu never reaches that case because it tests membership first. |
| Tenchusatsu.TenchusatsuAt | app.py:363-366 | Looking up entry i of the table gives the group of its decade, TENCHU_GROUPS[i // 10]. |
| Tenchusatsu.TenchusatsuOfPillar | app.py:363-366 | Every valid pillar code gets a group: the decade of its cycle position. |
| Tenchusatsu.UnknownIffNotPillar | app.py:363-366 | The "不明" result comes back iff the code renders no valid stem-branch pair. |
| Tenchusatsu.VoidBranchesMissing | app.py:361 | Each group label names exactly the two branches that occur in none of the ten pillars of its decade. |
| Tenchusatsu.NextDecadeDiffers | app.py:361-365 | get_tenchusatsu gives different groups to the pillars ten places apart in the cycle (cyclically). |
| Pillars.ChineseYear | app.py:273-274 | _cy. Its contract is stated by ChineseYearSwitch. |
| Pillars.YearStem | app.py:278-279 | year_stem_idx. Its contract is stated by YearPillarInCycle. |
| Pillars.YearBranch | app.py:281-282 | year_branch_idx. Its contract is stated by YearPillarInCycle. |
| Pillars.ChineseYearSwitch | app.py:273-274 | The Chinese year is the civil year minus one exactly from 1 January to 3 February, otherwise the civil year. |
| Pillars.YearPillarInCycle | app.py:278-282 | The year stem and branch form a valid pillar, at position (Chinese year - 4) mod 60 of the cycle. |
| Pillars.SolarTermsShape | app.py:247-251 | Row j of the solar-term table starts in month j+1 on a day from 4 to 8, with branch (j+1) mod 12. |
| Pillars.MonthBranch | app.py:284-289 | month_branch_idx as a function of the date. Its contract is stated by MonthBranchIdx (the loop), LatestBoundary, MonthBranchClosedForm and MonthBranchRange. |
| Pillars.LatestBoundary | app.py:284-289 | The row the scan settles on is reached by the date, and no later row is. With no result, no row is reached. |
| Pillars.MonthBranchIdx | app.py:284-289 | The loop returns the branch of the latest boundary the date has reached, and 0 when there is none. |
| Pillars.MonthBranchClosedForm | app.py:284-289 | The month branch is the date's month mod 12 once that month's boundary day is reached, and the previous month before it (0 before 6 January). |
| Pillars.MonthBranchRange | app.py:284-289 | The month branch is always a branch index. |
| Pillars.MonthStem | app.py:291-295 | month_stem_idx. Its contract is stated by MonthStemAtFirstMonth and MonthPillarInCycle. |
| Pillars.MonthStemStartRule | app.py:244 | The start-stem table is the rule "year stem k mod 5 starts the 寅 month at stem 2k+2". |
| Pillars.MonthStemAtFirstMonth | app.py:291-295 | In the month with branch 2 (寅), the month stem is the table's start stem for the year. |
| Pillars.MonthPillarInCycle | app.py:291-295 | The month stem and branch always form a valid pillar, because they have equal parity. |
| Pillars.DayStem | app.py:297-298 | day_stem_idx, counting from _REF_JDN (RefJdn, app.py:269). Its contract is stated by AnchorDay, DayPillarInCycle, DayPillarAdvances and DayPillarPeriod. |
| Pillars.DayBranch | app.py:300-302 | day_branch_idx, with the anchor's branch offset 10. Its contract is stated by the same lemmas as DayStem. |
| Pillars.AnchorDay | app.py:269 | The reference JDN is 2415021, and 1900-01-01 gets stem 0 and branch 10, the code 甲戌. |
| Pillars.DayPillarInCycle | app.py:297-302 | The day stem and branch form a valid pillar, at cycle position (JDN - reference + 10) mod 60. |
| Pillars.DayPillarAdvances | app.py:297-302 | From one calendar day to the next, the day stem, the branch and the cycle position each advance by one, mod 10, 12 and 60. |
| Pillars.DayPillarPeriod | app.py:297-302 | Dates 60 days apart have the same day stem and branch. |
| Stars.StemTables | app.py:234-235 | The element table is stem // 2, and the polarity table is stem % 2. |
| Stars.CycleTables | app.py:236-237 | Generation is one step round the five elements, control two steps. |
| Stars.ExactlyOneRelation | app.py:306-315 | For two different elements, exactly one of the four relations calc_star tests holds. |
| Stars.CalcStar | app.py:306-315 | calc_star, with its tests in source order. Its ensures says it always returns a star, namely the reference-table entry StarOf for the element distance (stem element - day element) mod 5 and for whether the polarities agree. |
| Stars.CalcStarTotal | app.py:306-315 | calc_star never returns "未定義" for two stems. |
| Stars.PolarityPicksFirst | app.py:306-315 | The first star of each pair comes out iff the two polarities are equal. |
| Stars.CalcStarSelf | app.py:306-315 | A stem against itself is 貫索星. |
| Stars.CalcStarInverse | app.py:306-315 | For a fixed day stem, StemFor recovers the stem from the star calc_star returns. |
| Stars.CalcStarInjective | app.py:306-315 | For a fixed day stem, different stems give different stars. |
| Stars.HiddenIsStem | app.py:241 | The hidden-stem table maps every branch to a stem. |
| Gototoku.CalcGototoku | app.py:319-347 | calc_gototoku, one Chart field per dictionary key. Its contract is stated by ChartStarsDefined, ChartPillarsInCycle and CalibrationChart. |
| Gototoku.ChartStarsDefined | app.py:319-347 | None of the five positions of any chart holds "未定義". |
| Gototoku.ChartPillarsInCycle | app.py:319-347 | All three pillar codes are table entries. The day pillar is the entry at the day's cycle position, and its group is fixed by that position. |
| Gototoku.CalibrationChart | app.py:227-228 | 1994-01-21 gives day 丁未, year 癸酉 and month 乙丑. Its stars are head 車騎星, left 鳳閣星, center 鳳閣星, right 禄存星 and feet 龍高星. |
| Compatibility.StarElement | app.py:424-426 | `_ELEM_MAP.get(star, "")`, with None for "未定義". Its contract is stated by StarElementOfCalcStar. |
| Compatibility.PairTablesAreCycles | app.py:427-428 | A pair is in _SOUSEI iff it is a generation step of the classifier's _GEN, and in _SOUKOKU iff it is a control step of _CTRL. |
| Compatibility.StarElementOfCalcStar | app.py:424-426 | The element of a classified star is (stem element - day element) mod 5. |
| Compatibility.PowerBalance | app.py:430-438 | _power_balance on the two center stars. Its contract is stated by PowerBalanceByDistance, PowerBalanceNeutralIff and PowerBalanceMirror. |
| Compatibility.PowerBalanceByDistance | app.py:430-438 | For two known stars, the verdict follows from the element distance (b - a) mod 5: 0 same, 1 flow A→B, 2 A controls B, 3 B controls A, 4 flow B→A. So the final fallback is never reached. |
| Compatibility.PowerBalanceNeutralIff | app.py:430-438 | The neutral verdict comes out iff one of the center stars has no element. |
| Compatibility.PowerBalanceMirror | app.py:430-438 | Swapping the two people turns each directed verdict into its mirror and leaves the others alone. |
| Compatibility.CombatStyle | app.py:440-442 | The verdict is "aligned" iff the two right-hand stars are equal. |
| Compatibility.CrisisManagement | app.py:444-446 | The verdict is "aligned" iff the two feet stars are equal. |
| Compatibility.AgreementSymmetric | app.py:440-446 | Both agreement verdicts are independent of which person comes first. |
| Compatibility.TenchuAffinity | app.py:448-451 | The verdict is neutral iff either group is "不明". Otherwise it is a shared cycle, carrying that group, iff the groups are equal, and an offset cycle carrying both groups in order if not. |
| Compatibility.Assess | app.py:695-704 | The four verdicts as the organisation report combines them, with the groups from app.py:643-644. Its contract is stated by AssessSwap and AssessChartsNeverNeutral. |
| Compatibility.AssessSwap | app.py:695-704 | Exchanging the two charts mirrors the identity verdict, keeps the two agreement verdicts and swaps the two groups of an offset cycle. |
| Compatibility.AssessChartsNeverNeutral | app.py:695-704 | For two charts computed from dates, neither the identity verdict nor the biorhythm verdict is the neutral fallback. |

## Left out

- Web UI, payment, PDF layout, fonts and images. These are the Streamlit
  pages, Stripe checkout, fpdf/PIL drawing and animation in app.py; they
  contain no chart logic.
- The per-star description texts and strategy dictionaries. They are looked
  up only to render reports.
- POSITION_LABELS (app.py:253-259): display names of the five positions. The
  `Chart` fields carry the positions instead.
- The two display names passed to the verdict helpers. They only fill in
  sentence text, so each verdict is a constructor without the names.
- The date range the UI offers (app.py:1010-1017). The engine is modelled on
  every date Python's `datetime.date` accepts (years 1 to 9999,
  `Calendar.ValidDate`). Python's `calc_gototoku` receives a `datetime.date`,
  which cannot hold an invalid triple. The model widens the domain:
  `CalcGototoku` accepts any (year, month, day) triple. Its results on
  invalid triples have no counterpart in the source. Lemmas stated for every
  triple, such as ChartStarsDefined, also cover them, but nothing compares
  them with the source.
- Integer width: arbitrary-precision integers are used, as in Python.
  Python's `//` and `%` with positive divisors agree with Dafny's Euclidean
  operators, so no wrap-around or sign adjustment arises.
- Tenchusatsu.FirstIndex: where Python's `list.index` raises ValueError
  because the value is absent, the model returns the list's length instead.
  The exception is not modelled. get_tenchusatsu tests membership first
  (app.py:364), so it never reaches that case.
- The calibration anchor of the day pillar is 1900-01-01, as the code has it
  (app.py:269). It is occasionally described as the first day of the 20th
  century, which would be 1901-01-01. The model follows the code.
