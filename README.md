# Sentiment dashboard filters in Dafny

This project models the filter and selection logic of the analytics
dashboard component (`src/components/Dashboard.tsx`). The component keeps
four pieces of control state: the time period, the sentiment threshold,
the minimum keyword frequency and the selected categories. On every render
it derives two views from that state:

- the **monthly sentiment trend**: the fixed six-month series (Jan..Jun,
  scores 45, 59, 80, 81, 56, 23) cut to the months of the selected period,
  with every score below the threshold replaced by a gap (`null`);
- the **keyword bubbles**: the twelve fixed keywords, keeping those
  mentioned at least "minimum frequency" times whose category is selected.

The modules follow those parts:

- `period.dfy`, module `Period`: `getDateIndices`, from a period string to an inclusive index range, with the fallback to the whole series;
- `monthly.dfy`, module `Monthly`: `slice` (with JavaScript's clamping), the threshold `map` and the derived trend view;
- `keywords.dfy`, module `Keywords`: the keyword records, the filter predicate and the stable `filter`;
- `categories.dfy`, module `Categories`: `handleCategorySelect` as a transition on the selection list, and its invariant;
- `sequences.dfy`, module `Sequences`: the subsequence relation used to state that the filters keep source order;
- `dashboard.dfy`, module `Dashboard`: the component's state as class `DashboardState`, with one method per state change and one per derived view.

The category selection is an ordered list in the code. A new category is
appended at the end and "all" is removed when it is. The model keeps it a
list rather than a set. The class invariant `Valid()` says the list is
either exactly `["all"]` or a non-empty, duplicate-free list of specific
categories. The constructor establishes it, and `HandleCategorySelect`
requires and preserves it. `Categories.ReplayValid` proves that it holds
after every sequence of clicks from the initial state. `NextSelection`
itself is total; its own postconditions hold for any starting list.

Scores, counts and slider values are integers. The gap marker is
`Monthly.Option<int>`'s `None`. The bubble coordinates come from
`Math.random()` when the data is built, so `Keywords.KeywordsData` takes
them as a parameter `pos` and the filter carries them through unchanged.

## Model

| member | source | states |
|---|---|---|
| `Period.GetDateIndices` | src/components/Dashboard.tsx:189-200 | "week" gives (5,5), "month" (4,5), "quarter" (2,5), and any other string (0,5); for every string 0 <= start <= end = 5 < 6 |
| `Period.PeriodsNest` | src/components/Dashboard.tsx:189-200 | the windows are nested suffixes of 1, 2, 4 and 6 months; an unknown period shows exactly what "all" shows |
| `Monthly.Slice` | src/components/Dashboard.tsx:206-210 | `slice(begin, end)` has length min(end, n) - begin (0 if that is not positive) and element i is source element begin + i |
| `Monthly.Threshold` | src/components/Dashboard.tsx:211 | same length as the input; entry i is the score when it is >= the threshold and a gap otherwise |
| `Monthly.FilteredMonthly` | src/components/Dashboard.tsx:203-214 | labels and values are equally long when the series is; entry i is month start + i, inside both the range and the series; a value is the score when it reaches the threshold and a gap otherwise |
| `Monthly.ViewAligned` | src/components/Dashboard.tsx:203-211 | for every period, labels and values both have end - start + 1 entries, entry i is month start + i, and a value is a gap exactly when its score is below the threshold |
| `Monthly.NoGapsAtLowThreshold` | src/components/Dashboard.tsx:209-211 | a threshold no higher than any shown score leaves the sliced scores unchanged, with no gap |
| `Monthly.AllGapsAtHighThreshold` | src/components/Dashboard.tsx:209-211 | a threshold above every shown score turns every entry into a gap and keeps the length |
| `Monthly.MockMonthly` | src/components/Dashboard.tsx:48-58 | on the dashboard's series, threshold 0 shows no gap for any period and a threshold above 81 shows only gaps |
| `Monthly.MockWeek` | src/components/Dashboard.tsx:48-58 | on the dashboard's series, "week" at threshold 0 shows June's 23 alone |
| `Keywords.Admits` | src/components/Dashboard.tsx:222 | with the initial selection every category is admitted; under the selection invariant a specific category is admitted iff the selection is ["all"] or contains it |
| `Keywords.Keep` | src/components/Dashboard.tsx:221-222 | with the initial selection only `count >= frequency` decides; a record below the minimum frequency is never kept |
| `Keywords.FilterKeywords` | src/components/Dashboard.tsx:220-223 | the result is a subsequence of the source list, in source order |
| `Keywords.FilterMembers` | src/components/Dashboard.tsx:220-223 | an item is shown iff it is in the source and count >= frequency and the selection contains "all" or its category |
| `Keywords.FrequencyMonotone` | src/components/Dashboard.tsx:220-221 | raising the minimum frequency never adds an item: the stricter result is a subsequence of the looser one |
| `Keywords.FilterIdempotent` | src/components/Dashboard.tsx:220-223 | filtering the result again with the same settings changes nothing |
| `Keywords.KeepsEverything` | src/components/Dashboard.tsx:220-223 | when every item passes the predicate the list comes back unchanged |
| `Keywords.DropsEverything` | src/components/Dashboard.tsx:220-221 | a frequency above every count gives the empty list |
| `Keywords.FilterCounts` | src/components/Dashboard.tsx:220-223 | every copy of a passing record survives and every copy of a failing one goes: each record occurs in the result as often as in the source, or not at all |
| `Keywords.CategoryOnly` | src/components/Dashboard.tsx:220-223 | with one specific category selected and a frequency no higher than any count, the view is exactly that category's records in source order |
| `Keywords.FilterAppend` | src/components/Dashboard.tsx:220-223 | filtering a concatenation concatenates the filtered parts, so no item overtakes another |
| `Keywords.MockCountsBounded` | src/components/Dashboard.tsx:88-101 | every keyword count lies in [100, 350] |
| `Keywords.MockPriceAtMaximum` | src/components/Dashboard.tsx:93 | at the frequency slider's maximum of 350 the "price" record (count 350) is still shown with "all" selected |
| `Keywords.MockKeywordExtremes` | src/components/Dashboard.tsx:88-101 | frequency 0 with ["all"] shows all twelve keywords in order; a frequency above 350 shows none |
| `Keywords.FoodPositions` | src/components/Dashboard.tsx:220-223 | a twelve-item list with food items at 3, 5, 7 and 11 filters for ["food"] to exactly those items in that order |
| `Keywords.MockFoodFilter` | src/components/Dashboard.tsx:88-101 | selecting only "food" with frequency 0 shows food, menu, taste and portion, in that order |
| `Categories.Without` | src/components/Dashboard.tsx:182-183 | `filter(c => c !== name)` keeps exactly the other names, in their order (a subsequence), and keeps a duplicate-free list duplicate-free |
| `Categories.WithoutAbsent` | src/components/Dashboard.tsx:183 | removing a name that is not there returns the list unchanged |
| `Categories.WithoutAppend` | src/components/Dashboard.tsx:182-183 | removal distributes over concatenation |
| `Categories.NextSelection` | src/components/Dashboard.tsx:177-186 | "all" resets to ["all"]; for a specific category it becomes selected iff it was not, a newly selected one is last, every other specific category keeps its state, and the result is never empty |
| `Categories.NextSelectionValid` | src/components/Dashboard.tsx:177-186 | every click keeps the selection either ["all"] or a non-empty duplicate-free list without "all" |
| `Categories.ReplayValid` | src/components/Dashboard.tsx:143-186 | from the initial ["all"], every sequence of clicks leaves a valid selection |
| `Categories.ToggleTwice` | src/components/Dashboard.tsx:181-184 | clicking a specific category twice restores the set of selected categories, and the exact list when it was not selected at first |
| `Dashboard.DashboardState.constructor` | src/components/Dashboard.tsx:133-143 | the component starts with period "all", threshold 0, frequency 0 and selection ["all"] |
| `Dashboard.DashboardState.SelectPeriod` | src/components/Dashboard.tsx:240-262 | a period button sets the period and nothing else |
| `Dashboard.DashboardState.SetSentimentThreshold` | src/components/Dashboard.tsx:274 | the threshold slider sets the threshold and nothing else |
| `Dashboard.DashboardState.SetKeywordFrequency` | src/components/Dashboard.tsx:296 | the frequency slider sets the frequency and nothing else |
| `Dashboard.DashboardState.HandleCategorySelect` | src/components/Dashboard.tsx:177-186 | the new selection is `NextSelection` of the old one, and the selection invariant still holds |
| `Dashboard.DashboardState.FilteredMonthlyData` | src/components/Dashboard.tsx:203-214 | the trend view of the current state has one aligned label and value per month of the selected period |
| `Dashboard.DashboardState.FilteredKeywordsData` | src/components/Dashboard.tsx:217-225 | the bubble view of the current state is the filtered keyword list, a subsequence of the source in source order |

## Left out

- `getDateRange` and the effect that stores `dateState` (lines 134-140, 146-175): they read the wall clock and do calendar arithmetic, and no filter reads `dateState`.
- The bubble coordinates `Math.random() * 100`: modelled as the parameter `pos` of `KeywordsData`, not as random numbers.
- Chart.js registration, option objects and their callbacks (gauge colour bands, tooltip and tick formatting, bubble colours by `dataIndex % colors.length`): presentation settings of a library outside this model.
- The JSX layout, the button class names and `src/App.tsx`: rendering only.
- `parseInt` of the slider input: the model takes the integer the slider gives; a `NaN` from `parseInt` is not modelled.
- React's state hooks and re-render scheduling: the state is plain fields of `DashboardState`, and each setter takes effect at once.
- `Monthly.Slice`: only non-negative `begin` and `end` are modelled, which is all that `getDateIndices` produces; JavaScript's counting from the end for negative arguments is not.
- Idempotence of the monthly view: the view's values are gaps or scores, not scores, so the source never thresholds a view twice; `Monthly.Threshold` states instead that every kept value reaches the threshold.
- The code keeps the selection as an ordered list (new categories appended, "all" filtered out), and the model follows the code.
