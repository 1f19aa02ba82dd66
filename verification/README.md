# Soule Smart Dashboard — derivation core in Dafny

The Soule Smart dashboard is a single React page showing KPI cards, a revenue
trend chart, a channel chart, a segment pie and an event list over built-in
data. Almost all of it is presentation. This project models the parts that
compute something. Each is written as a pure Dafny function that takes its
data as parameters:

- **Range filter** (`RangeFilter`): the range tag `"3m" | "6m" | "12m"` picks
  a window of 3, 6 or 12 periods. The chart shows
  `series.slice(Math.max(0, len - window))`. `SliceFrom` models the
  one-argument ECMAScript `slice`, including its handling of a negative start.
- **KPI derivation** (`Kpis`): the MRR card, with the period-over-period
  delta from the last two points; the ARR card, 12 × MRR, which reuses the
  MRR delta; the blended conversion rate Σsignups / Σleads × 100, as a left
  fold over the channels; and revenue churn |c| / (mrr + |c|) × 100.
- **Class names and delta presentation** (`ClassNames`, `Formatting`):
  - `cn` drops falsy entries and joins the rest with single spaces;
  - the sign rule of `formatPct`;
  - the emerald/rose colour rule of a card's delta line;
  - the event badge classes built with `cn`.
- **Page state** (`Dashboard`): the cards and the chart series for a
  selected range.
- **Built-in data** (`MockData`): the nine-month series and five channels,
  used as concrete examples.

Amounts are `real`. The dashboard divides them, and IEEE-754 rounding is
abstracted away. The dashboard performs no checks before dividing. Each
division therefore carries a precondition naming the inputs for which it is
defined:

- at least two periods;
- a non-zero previous MRR;
- a non-zero lead total;
- a non-zero churn base.

These are the weakest conditions under which the arithmetic is defined. The
model does not add error results that the code does not have.

Two facts about the code are worth stating. First, the code adds `+` only for a
strictly positive value (`src/components/SouleSmartDashboard.tsx:102`). A zero
delta is therefore coloured emerald but printed without `+`;
`Formatting.ZeroDeltaEmeraldWithoutPlus` states this. Second, the code has no
guard before any division, so the undefined cases become preconditions.

## Model

| member | source | states |
|---|---|---|
| RangeFilter.Window | src/components/SouleSmartDashboard.tsx:129 | the window is the entry of the `{3m: 3, 6m: 6, 12m: 12}` table under the tag's label, and is positive |
| RangeFilter.SliceFrom | src/components/SouleSmartDashboard.tsx:130 | one-argument `slice`: a non-negative start drops that many leading elements (clamped at the length), a negative start keeps that many trailing elements (clamped), and the kept elements are the input's trailing ones in order |
| RangeFilter.SlicedRevenue | src/components/SouleSmartDashboard.tsx:127-131 | the chart series has exactly min(window, length) points and is the input's suffix of that length |
| RangeFilter.SlicedKeepsLatest | src/components/SouleSmartDashboard.tsx:130 | for a non-empty series the newest period is always shown, as the last chart point |
| RangeFilter.SlicedWholeIffShort | src/components/SouleSmartDashboard.tsx:130 | the whole series is shown exactly when it fits in the window; a longer one is cut to exactly the window |
| RangeFilter.SlicedIdempotent | src/components/SouleSmartDashboard.tsx:129-130 | filtering the filtered series by the same range changes nothing |
| RangeFilter.SlicedNested | src/components/SouleSmartDashboard.tsx:129-130 | a narrower range's series is a suffix of a wider range's series, and filtering the wider one by the narrower range gives it |
| Kpis.MrrDelta | src/components/SouleSmartDashboard.tsx:113-115 | the delta d is the percentage growth from the second-to-last to the last MRR: last = prev + prev·d/100 |
| Kpis.MrrDeltaSign | src/components/SouleSmartDashboard.tsx:113-115 | with a positive previous MRR the delta is positive, zero or negative exactly when MRR rose, stayed or fell |
| Kpis.KpisUseLatestTwoPeriods | src/components/SouleSmartDashboard.tsx:112-125 | prepending any history changes no card: only the last two periods are read |
| Kpis.Total | src/components/SouleSmartDashboard.tsx:117 | the `reduce((a, c) => a + c.x, 0)` fold: one channel totals to its own figure, and non-negative figures give a non-negative total; `Kpis.TotalAppend` and `Kpis.TotalPermutation` characterise it |
| Kpis.TotalAppend | src/components/SouleSmartDashboard.tsx:117 | the `reduce` sum over channels distributes over concatenation |
| Kpis.TotalPermutation | src/components/SouleSmartDashboard.tsx:117 | the `reduce` sums of leads and signups do not depend on channel order |
| Kpis.ConversionRate | src/components/SouleSmartDashboard.tsx:117 | the conversion rate times the lead total is 100 times the signup total |
| Kpis.ConversionRateOrderInvariant | src/components/SouleSmartDashboard.tsx:117 | reordering the channels changes neither whether the rate is defined nor its value |
| Kpis.TotalsOfPlausibleFunnels | src/components/SouleSmartDashboard.tsx:117 | when every channel has 0 ≤ signups ≤ leads, the totals satisfy the same bounds |
| Kpis.ConversionRateBounded | src/components/SouleSmartDashboard.tsx:117 | with such channels and a positive lead total, the rate lies in [0, 100] |
| Kpis.ChurnRate | src/components/SouleSmartDashboard.tsx:118 | the churn rate times the base mrr + \|churn\| is 100 times \|churn\| |
| Kpis.ChurnRateBounded | src/components/SouleSmartDashboard.tsx:118 | with a non-negative MRR and a positive base, churn lies in [0, 100], is 0 exactly when nothing churned, and is 100 exactly when MRR is 0 |
| Kpis.DeriveKpis | src/components/SouleSmartDashboard.tsx:112-125 | four cards mrr, arr, conv, churn in that order, with their captions; the MRR card shows the latest MRR and a delta that is the growth from the previous MRR; the ARR value is 12 × the MRR value and ARR carries the MRR card's delta; the conversion card shows 100 × signups / leads with 1 decimal and the churn card 100 × \|churn\| / base with 2 decimals, neither with a delta |
| Kpis.ArrAnnualisesMrr | src/components/SouleSmartDashboard.tsx:116-121 | ARR is 12 × the latest MRR, and both the MRR and ARR cards carry the MRR delta |
| Kpis.KpisChannelOrderInvariant | src/components/SouleSmartDashboard.tsx:117-123 | the cards are the same for any ordering of the channels |
| ClassNames.Truthy | src/components/SouleSmartDashboard.tsx:94 | the `Boolean` coercion used by `filter`: an entry is truthy exactly when it is none of the falsy values `false`, `null`, `undefined`, `""` |
| ClassNames.Kept | src/components/SouleSmartDashboard.tsx:94 | `filter(Boolean)` keeps at most as many entries as given, none of them empty |
| ClassNames.KeptAppend | src/components/SouleSmartDashboard.tsx:94 | the filter works entry by entry, in order: it distributes over concatenation and keeps a single entry exactly when it is truthy |
| ClassNames.KeptEmptyIffNoneTruthy | src/components/SouleSmartDashboard.tsx:94 | nothing is kept exactly when every entry is false, null, undefined or "" |
| ClassNames.JoinEmptyIffNoParts | src/components/SouleSmartDashboard.tsx:94 | joining non-empty class strings with spaces is empty only for no strings |
| ClassNames.Join | src/components/SouleSmartDashboard.tsx:94 | `.join(" ")`: no parts give ""; otherwise the result starts with the first part and is as long as all parts plus one separator between neighbours; `ClassNames.SplitJoinEach` characterises it |
| ClassNames.Cn | src/components/SouleSmartDashboard.tsx:93-95 | `cn` yields "" exactly when every entry is falsy |
| ClassNames.SplitJoin | src/components/SouleSmartDashboard.tsx:94 | splitting on spaces undoes the single-space join of a list of at least one part, when no part contains a space |
| ClassNames.SplitAround | src/components/SouleSmartDashboard.tsx:94 | a space joining two strings separates the words of the first from the words of the second, whatever the two strings contain |
| ClassNames.SplitJoinEach | src/components/SouleSmartDashboard.tsx:94 | splitting a space-joined list of at least one part yields the words of each part in turn, multi-class parts included |
| ClassNames.CnWords | src/components/SouleSmartDashboard.tsx:93-95 | the words of a non-empty `cn` string are the words of the truthy entries, entry after entry; this covers the source's multi-class entries such as "mt-1 text-xs" |
| ClassNames.CnOfTwoKept | src/components/SouleSmartDashboard.tsx:93-95 | when the filter keeps exactly two strings, `cn` is those two with one space between |
| ClassNames.KeptPair | src/components/SouleSmartDashboard.tsx:94 | `filter(Boolean)` keeps both of two non-empty strings, in order |
| ClassNames.CnPairWords | src/components/SouleSmartDashboard.tsx:93-95 | `cn` of two non-empty strings has the words of the first followed by the words of the second |
| ClassNames.CnSplitsIntoKept | src/components/SouleSmartDashboard.tsx:93-95 | the `cn` string splits back into exactly the truthy entries, in order, whenever it is non-empty and no entry contains a space; every `cn` call in the source has a multi-class entry, so those calls are covered by `ClassNames.CnWords` instead |
| Formatting.SignPrefix | src/components/SouleSmartDashboard.tsx:102 | the sign is "+" exactly when the value is strictly positive, and empty otherwise |
| Formatting.FormatPct | src/components/SouleSmartDashboard.tsx:101-104 | the text is sign, the fixed-point digits unchanged, then "%"; when the digits do not themselves start with "+", the text starts with "+" exactly when the value is positive |
| Formatting.DeltaTone | src/components/SouleSmartDashboard.tsx:201 | the colour is emerald exactly when the delta is ≥ 0, a missing delta counting as 0 |
| Formatting.CardDeltaTone | src/components/SouleSmartDashboard.tsx:200-201 | a card shows a delta line exactly when it has a delta, emerald exactly when that delta is ≥ 0 |
| Formatting.DeltaLineClass | src/components/SouleSmartDashboard.tsx:201 | the delta line's class is the shape classes and the tone class, one space apart |
| Formatting.DeltaLineEntriesKept | src/components/SouleSmartDashboard.tsx:201 | both entries of the delta line's `cn` call survive the filter, so the class string is the two joined by one space |
| Formatting.DeltaLineWords | src/components/SouleSmartDashboard.tsx:201 | the delta line's class string reads as exactly the classes "mt-1", "text-xs" and the tone class |
| Formatting.ImpactBadgeClass | src/components/SouleSmartDashboard.tsx:295-301 | of the three guarded colour entries only the matching impact's survives, appended to the shape classes |
| Formatting.ImpactBadgeEntriesKept | src/components/SouleSmartDashboard.tsx:295-301 | the filter of the badge's `cn` arguments keeps exactly the shape classes and the matching impact's colours |
| Formatting.ZeroDeltaEmeraldWithoutPlus | src/components/SouleSmartDashboard.tsx:201 | a zero delta is coloured emerald, but its text gets no "+" |
| DashboardTypes.Option.GetOr | src/components/SouleSmartDashboard.tsx:201 | `??`: a present value is returned as it is, and a missing one is replaced by the default |
| Dashboard.Render | src/components/SouleSmartDashboard.tsx:112-131 | the page has four cards, the first showing the latest MRR, and a chart of the last min(window, length) periods |
| Dashboard.RangeChangesOnlyChart | src/components/SouleSmartDashboard.tsx:112-131 | changing the range never changes a card; the chart changes exactly when the clamped window differs |
| Dashboard.CardDeltaLines | src/components/SouleSmartDashboard.tsx:200-203 | for a positive previous MRR, the MRR and ARR cards show the same delta line, emerald exactly when MRR did not fall, with "+" exactly when it rose; the rate cards show none |
| MockData.RangesOnBuiltInSeries | src/components/SouleSmartDashboard.tsx:58-68 | on the built-in nine months, "3m" shows 2025-07 to 2025-09, the default "6m" shows the last six, and "12m" shows all |
| MockData.KpisOfBuiltInData | src/components/SouleSmartDashboard.tsx:58-76 | the built-in data meets every division condition: 615 signups over 2490 leads, churn 870 over 23810, ARR 275280 |
| MockData.DoublingIsHundredPercent | src/components/SouleSmartDashboard.tsx:115 | MRR going from 100 to 200 is a delta of exactly 100 |
| MockData.TwoChannelConversion | src/components/SouleSmartDashboard.tsx:117 | 20 + 30 signups over 100 + 100 leads is a conversion of exactly 25 |
| MockData.ShortSeriesShownWhole | src/components/SouleSmartDashboard.tsx:130 | a two-period series is shown whole under "12m", with no padding |

## Left out

- Kpis.MrrDelta, Kpis.ConversionRate, Kpis.ChurnRate, Kpis.DeriveKpis, Dashboard.Render: the failing inputs are not modelled; the model requires that they do not occur.
  - With fewer than two periods, `prev` (or `last`) is `undefined`, and reading `.mrr` at `src/components/SouleSmartDashboard.tsx:115` throws a `TypeError` while rendering.
  - A zero previous MRR, zero total leads or a zero churn base is a JavaScript division by zero. The card then shows `NaN` or `Infinity`, while the rest of the page, including the chart, still renders.
- Currency formatting with `Intl.NumberFormat` (`src/components/SouleSmartDashboard.tsx:97-99`): locale formatting inside the host. Cards carry the amount as `Currency(amount)` instead.
- `toFixed` digit rendering (`src/components/SouleSmartDashboard.tsx:103`, `122-123`): floating-point formatting inside the host. `FormatPct` takes the digits as a parameter, and rate cards record their decimal count.
- `toLocaleDateString` (`src/components/SouleSmartDashboard.tsx:293`): locale formatting inside the host.
- IEEE-754 rounding of the KPI arithmetic: reals abstract it.
- JSX layout, the Recharts chart, axis and tooltip configuration, and the icons (`src/components/SouleSmartDashboard.tsx:133-318`): these are calls into libraries whose code is not part of this model.
- React `useState` / `useMemo` mechanics: the selected range is a plain parameter of `Dashboard.Render`.
- The segment filter (`src/components/SouleSmartDashboard.tsx:110`, `177-188`): the selection is stored but never applied to any data, so there is no behaviour to model.
- Segment shares and the event list are only rendered. Only the event impact's badge class (`Formatting.ImpactBadgeClass`) is modelled.
- `src/app/layout.tsx` and `src/app/dashboard/ClientDashboard.tsx`: static metadata and a dynamic-import wrapper, with no logic.
