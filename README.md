# calm-cube decision logic in Dafny

This project models the decision logic of four pages of the calm-cube
wellness app, with the React rendering stripped away.

- **Dashboard** (`dashboard.dfy`, module `Dashboard`). Computes the wellness
  score from a stored questionnaire record. The score adds seven bounded
  contributions and rounds once at the end. The page also buckets the
  score into a label and a colour, and applies the seven independent
  recommendation rules in a fixed order.
- **Monitor** (`monitor.dfy`, module `Monitor`). The check-in page keeps a
  form, a stored check-in history and a newest-first window of at most five
  recent check-ins. Seven recommendation rules run over the form and that
  window, with a single fallback card. The page is the class
  `MonitorPage`, whose methods load, save and recompute.
- **Patterns** (`patterns.dfy`, module `Patterns`). The pattern analyser
  compares the last seven check-ins with the seven before them. It looks
  for a dominant activity, which it finds with an insertion-ordered
  dictionary filled by a `forEach` loop (the method `CountActivities`). It
  also measures mood volatility. It has an insufficient-data card and a
  stable-patterns card, plus the history summary statistics.
- **Assessment** (`assessment.dfy`, module `Assessment`). The five-step
  questionnaire is the class `AssessmentPage`. It holds the step, the
  answers and the "wellnessData" storage entry. It has single-field
  updates, the Next/Back transitions, the Next-disabled guard and the
  progress value.
- `records.dfy` (module `Records`) holds the two stored record shapes and
  the option lists the forms offer.
- `common.dfy` (module `Common`) holds shared helpers:
  - `Option`;
  - `Somes`, which keeps the outputs of the rules that fired in rule order;
    this is what a run of independent `if (cond) list.push(card)`
    statements builds;
  - JavaScript's `Math.round`, as `Floor(x + 0.5)`;
  - the number-to-text conversions that template literals perform.

Numbers are Dafny `real`s and the model's arithmetic is exact; "## Left
out" names the comparisons where the page's doubles can decide otherwise.
A storage entry is an `Option`, where `None` means the key is absent: a
field of `MonitorPage` and `AssessmentPage`, and the record parameter of
`Dashboard.Recommendations`. The Patterns page has no class; its
functions take the stored check-ins as a sequence. Navigation is a
returned tag. The check-in timestamp is a parameter.

Each recommendation card and pattern card is a datatype value naming the
rule that produced it. The card's title and text are members of that
datatype: they are fixed by the rule, except for the numbers a card
quotes, which it carries as fields. The `icon` field identifies the rule
on the page; the `Advice` and `Category` tags stand in for it.

A few facts about the code that the model makes explicit:
- The score adds seven contributions, and their maxima total exactly 100
  (`Dashboard.BestScore`).
- The persistent-stress rule averages the first three entries of the page's
  newest-first window. After a save, that window starts with the check-in
  just saved.
- In the pattern analyser, an unknown mood makes the volatility `NaN`, so
  neither mood card fires. The model writes that `NaN` as `None`.

## Model

| member | source | states |
|---|---|---|
| Common.JsRound | src/pages/Dashboard.tsx:98 | `Math.round` lands within half a unit of its argument (halves round up) |
| Common.Somes | src/pages/Dashboard.tsx:118-197 | the pushed list is never longer than the rule list, and as long only when every rule fires |
| Common.SomesComplete | src/pages/Dashboard.tsx:118-197 | every rule that fires contributes its card to the pushed list |
| Common.SomesSound | src/pages/Dashboard.tsx:118-197 | nothing but the cards of rules that fired is pushed |
| Common.SomesEmpty | src/pages/Dashboard.tsx:118-197 | the pushed list is empty exactly when no rule fires |
| Common.SomesOrdered | src/pages/Dashboard.tsx:118-197 | when each rule's card carries its rule position as rank, the pushed list is in strictly increasing rank: rule order, never re-sorted |
| Common.NatToStringRoundTrip | src/pages/Dashboard.tsx:148 | the digits `${n}` prints for a whole number read back as that number |
| Common.TenthsToString | src/pages/Patterns.tsx:105 | the printed one-decimal number has a '.' exactly when its tenths digit is non-zero; the digits before it read back as the integer part and the digit after it as the tenths; every other character is a digit and the integer part has no leading zero |
| Common.IntToString | src/pages/Dashboard.tsx:148 | `${n}` for an integer starts with '-' exactly when n is negative, and its digits read back as the magnitude, with no leading zero |
| Common.Lower | src/pages/Patterns.tsx:170 | `toLowerCase` keeps the length and lower-cases each ASCII capital, leaving other characters unchanged |
| Dashboard.MoodPoints | src/pages/Dashboard.tsx:62-69 | mood adds 0..20 points in steps of 4, and is non-zero exactly for the five listed moods (any other name that is not inherited from `Object.prototype` adds 0) |
| Dashboard.SleepQualityPoints | src/pages/Dashboard.tsx:72 | sleep quality scales linearly to 15 points; 1.5..15 on the slider range |
| Dashboard.SleepHoursPoints | src/pages/Dashboard.tsx:73-77 | 15 points exactly for 7 to 9 hours, both ends included, 10 otherwise |
| Dashboard.StressPoints | src/pages/Dashboard.tsx:80 | stress scores inversely and linearly; 1.5..15 on the slider range |
| Dashboard.ExercisePoints | src/pages/Dashboard.tsx:83-90 | exercise adds 0..15 points, non-zero exactly for a listed frequency other than "Never" (other names as for mood) |
| Dashboard.WaterPoints | src/pages/Dashboard.tsx:93 | water never adds more than 10, and adds exactly 10 from 8 glasses up |
| Dashboard.ScreenPoints | src/pages/Dashboard.tsx:96 | screen time never adds less than 0, and adds 0 exactly from 8 hours up |
| Dashboard.RawScore | src/pages/Dashboard.tsx:58-96 | the unrounded sum of the seven contributions lies within 13..100 on the slider ranges |
| Dashboard.Score | src/pages/Dashboard.tsx:58-98 | the score is the seven-term sum rounded to the nearest integer |
| Dashboard.ScoreInRange | src/pages/Dashboard.tsx:58-98 | for every answer the sliders allow, the score lies in 13..100, inside the 0-100 progress bar |
| Dashboard.BestScore | src/pages/Dashboard.tsx:58-98 | the all-best answers give exactly 100, labelled "Excellent" |
| Dashboard.WorstScore | src/pages/Dashboard.tsx:58-98 | the all-worst answers give exactly 17, labelled "Needs Attention" |
| Dashboard.RoundedOnceNotPerTerm | src/pages/Dashboard.tsx:98 | rounding happens once, on the sum: on the worst answers, per-term rounding would give 18 instead of 17 |
| Dashboard.ScoreMonotone | src/pages/Dashboard.tsx:58-98 | better sleep quality, stress, water or screen answers never lower the score |
| Dashboard.ScoreLabel | src/pages/Dashboard.tsx:108-113 | each label holds exactly on its score interval, with thresholds 80, 60 and 40 |
| Dashboard.ScoreColor | src/pages/Dashboard.tsx:101-106 | each colour holds exactly on its score interval, with thresholds 80, 60 and 40 |
| Dashboard.LabelAndColorAgree | src/pages/Dashboard.tsx:101-113 | the colour and the label always name the same bucket |
| Dashboard.LabelMonotone | src/pages/Dashboard.tsx:108-113 | a higher score never gets a worse label |
| Dashboard.HydrationText | src/pages/Dashboard.tsx:148 | the hydration text quotes the water intake exactly as `${}` prints it |
| Dashboard.SleepRule | src/pages/Dashboard.tsx:121-129 | fires exactly when sleep quality < 6 or sleep hours < 7, with a high-priority Sleep card |
| Dashboard.StressRule | src/pages/Dashboard.tsx:132-140 | fires exactly when stress > 6, with a high-priority Stress card |
| Dashboard.HydrationRule | src/pages/Dashboard.tsx:143-151 | fires exactly when water < 6, with a medium-priority Hydration card |
| Dashboard.ScreenRule | src/pages/Dashboard.tsx:154-162 | fires exactly when screen time > 8, with a medium-priority Digital Wellness card |
| Dashboard.ExerciseRule | src/pages/Dashboard.tsx:165-173 | fires exactly for "Rarely" or "Never", with a high-priority Physical Activity card |
| Dashboard.BreaksRule | src/pages/Dashboard.tsx:176-184 | fires exactly when breaks are not "Yes, regularly", with a medium-priority Work Breaks card |
| Dashboard.MoodRule | src/pages/Dashboard.tsx:187-195 | fires exactly for "Not Great" or "Poor", with a high-priority Mental Health card |
| Dashboard.RulesRanked | src/pages/Dashboard.tsx:115-197 | the k-th rule only ever pushes the k-th category, with that category's priority and, for hydration, the record's water intake |
| Dashboard.Recommendations | src/pages/Dashboard.tsx:115-197 | there are never more than 7 recommendations, and none without a stored record |
| Dashboard.FiredIff | src/pages/Dashboard.tsx:115-197 | over any rule list that is ranked by category, a category is pushed exactly when the rule at its rank fires |
| Dashboard.CategoryIffRule | src/pages/Dashboard.tsx:115-197 | a category appears exactly when its own rule fires |
| Dashboard.RuleConditions | src/pages/Dashboard.tsx:121-195 | the condition under which each of the seven rules fires, stated on the record |
| Dashboard.RecommendationTriggers | src/pages/Dashboard.tsx:115-197 | each category appears exactly when its condition on the record holds, independently of the others |
| Dashboard.RecommendationsInRuleOrder | src/pages/Dashboard.tsx:115-197 | the cards come in the order Sleep, Stress, Hydration, Digital Wellness, Physical Activity, Work Breaks, Mental Health, never re-sorted, with no category twice |
| Dashboard.RecommendationContents | src/pages/Dashboard.tsx:121-195 | priorities are fixed per category, and the hydration text quotes the record's water intake |
| Dashboard.NoFallback | src/pages/Dashboard.tsx:116-197 | no fallback card: the list is empty exactly when no rule fires, as it is for the all-best record |
| Monitor.FocusRule | src/pages/Monitor.tsx:102-109 | fires exactly when focus < 4, with a high-priority card |
| Monitor.StressRule | src/pages/Monitor.tsx:112-119 | fires exactly when stress > 7, with a high-priority card |
| Monitor.EnergyRule | src/pages/Monitor.tsx:122-129 | fires exactly when energy < 4, with a high-priority card |
| Monitor.MoodRule | src/pages/Monitor.tsx:132-139 | fires exactly for "Poor" or "Stressed", with a high-priority card |
| Monitor.EnvironmentRule | src/pages/Monitor.tsx:142-149 | fires exactly when working with focus < 5, with a medium-priority card |
| Monitor.RestRule | src/pages/Monitor.tsx:151-158 | fires exactly when resting with stress > 5, with a medium-priority card |
| Monitor.PersistentStressRule | src/pages/Monitor.tsx:161-171 | fires exactly when the window has at least three entries and the mean stress of its first three exceeds 6 |
| Monitor.RulesRanked | src/pages/Monitor.tsx:98-171 | the k-th rule only ever pushes the advice of rank k, with that rule's fixed priority |
| Monitor.Recommendations | src/pages/Monitor.tsx:98-184 | the list is never empty and holds at most 7 cards |
| Monitor.FiredIff | src/pages/Monitor.tsx:98-171 | over any rule list that is ranked by advice, an advice is pushed exactly when the rule at its rank fires |
| Monitor.AdviceIffRule | src/pages/Monitor.tsx:98-171 | an advice is pushed exactly when its rule fires, and the rules never push the fallback |
| Monitor.ShownIffFired | src/pages/Monitor.tsx:98-184 | a rule's advice is shown exactly when its rule fires; the fallback never hides a rule |
| Monitor.FallbackIffQuiet | src/pages/Monitor.tsx:173-181 | the "You're Doing Great!" card appears exactly when no rule fired, and then it is the only card |
| Monitor.RuleConditions | src/pages/Monitor.tsx:101-171 | the condition under which each of the seven rules fires, stated on the form and the window |
| Monitor.RecommendationTriggers | src/pages/Monitor.tsx:98-184 | the fallback and each of the seven advices appear exactly under their conditions |
| Monitor.RecommendationsInRuleOrder | src/pages/Monitor.tsx:98-184 | the cards are in strict rule order, never re-sorted, and each priority is fixed by its rule, the fallback's being low |
| Monitor.PersistentStressThreshold | src/pages/Monitor.tsx:161-171 | the mean of the newest three stress levels exceeds 6 exactly when their sum exceeds 18 |
| Monitor.MoodColor | src/pages/Monitor.tsx:186-195 | "Excellent", "Good" and "Neutral" get "wellness-excellent", "wellness-good" and "wellness-fair", and any other name not inherited from `Object.prototype` gets "muted"; "Poor" and "Stressed" share theirs |
| Monitor.Backwards | src/pages/Monitor.tsx:62 | `reverse` keeps the length |
| Monitor.BackwardsPermutes | src/pages/Monitor.tsx:62 | `reverse` keeps every element with its multiplicity (a permutation) |
| Monitor.BackwardsAt | src/pages/Monitor.tsx:62 | `reverse` puts the i-th element from the end at position i |
| Monitor.NewestFirst | src/pages/Monitor.tsx:62 | `slice(-5).reverse()` holds min(5, n) entries |
| Monitor.NewestFirstAt | src/pages/Monitor.tsx:62 | the window holds min(5, n) entries and its i-th entry is the i-th newest stored check-in |
| Monitor.SaveKeepsWindow | src/pages/Monitor.tsx:85-90 | prepending the new check-in to the first four window entries gives exactly the window the load path would rebuild from the grown history |
| Monitor.MonitorPage.constructor | src/pages/Monitor.tsx:42-48 | the form starts at Neutral, 5, 5, 5 and no activity, with empty window and recommendations |
| Monitor.MonitorPage.LoadCheckIns | src/pages/Monitor.tsx:58-64 | loading sets the window to the newest-first last five of the stored history; an absent key leaves it unchanged |
| Monitor.MonitorPage.SaveCheckIn | src/pages/Monitor.tsx:66-96 | without an activity nothing changes; otherwise the history gains the new check-in and the window gets it in front of its first four entries, staying the window of the history; a save grows the history by one, keeps its prefix, and leaves a window of one to five entries headed by the newest stored check-in |
| Monitor.MonitorPage.GenerateRecommendations | src/pages/Monitor.tsx:98-184 | the recommendations become the rule outcome for the current form and window, which is never empty |
| Patterns.TrendColor | src/pages/Patterns.tsx:218-222 | up, down and stable map one-to-one to their three colours |
| Patterns.RecentWindow | src/pages/Patterns.tsx:95 | the recent window is the last min(7, n) check-ins |
| Patterns.OlderWindow | src/pages/Patterns.tsx:96 | the older window is empty for seven or fewer check-ins and never holds more than seven |
| Patterns.WindowsAdjacent | src/pages/Patterns.tsx:95-96 | the older window ends where the recent one starts: together they are the last fourteen check-ins, in order |
| Patterns.MeanWithin | src/pages/Patterns.tsx:99 | the mean `reduce(...) / length` of slider levels 1..10 lies within 1..10 |
| Patterns.OlderMeanWithin | src/pages/Patterns.tsx:100 | the older mean, or the recent mean when the older window is empty, lies within 1..10 on slider levels |
| Patterns.CountActivitiesOf | src/pages/Patterns.tsx:161-164 | for names not inherited from `Object.prototype`, the dictionary's keys are exactly its listed keys, no more than there are check-ins, and there is at least one key when there is a check-in |
| Patterns.CountKeys | src/pages/Patterns.tsx:161-164 | the keys are the activities that occur, each listed once |
| Patterns.CountValues | src/pages/Patterns.tsx:161-164 | each key maps to its number of occurrences |
| Patterns.CountOrder | src/pages/Patterns.tsx:161-164 | keys are listed in order of first appearance |
| Patterns.CountStep | src/pages/Patterns.tsx:161-164 | one more check-in adds 1 to its activity's count (from 0 when absent) and lists a new activity last |
| Patterns.CountActivities | src/pages/Patterns.tsx:65-68 | the `forEach` loop builds that dictionary, with distinct keys, true counts and first-appearance order (for names not inherited from `Object.prototype`) |
| Patterns.FirstMax | src/pages/Patterns.tsx:165 | the stable descending sort puts first the earliest key with the maximal count |
| Patterns.Dominant | src/pages/Patterns.tsx:165 | there is a head entry exactly when the dictionary is non-empty, and it is a key with its count |
| Patterns.DominantIsMostFrequent | src/pages/Patterns.tsx:165 | the head entry is an activity that occurs, with its true count, and no activity occurs more often (for names not inherited from `Object.prototype`) |
| Patterns.DominantAppearsFirst | src/pages/Patterns.tsx:165 | ties go to the activity seen first |
| Patterns.MoodScore | src/pages/Patterns.tsx:177-183 | the five check-in moods have ordinals 1..5 and no other string has one |
| Patterns.MoodSteps | src/pages/Patterns.tsx:184-187 | the summed step between consecutive moods is at most 4 per step |
| Patterns.MoodStepsDefined | src/pages/Patterns.tsx:184-187 | the sum is a number (not NaN) exactly when every mood is a known one |
| Patterns.MoodVolatility | src/pages/Patterns.tsx:184-188 | the volatility is a number (not NaN) exactly when every mood is known |
| Patterns.VolatilityBound | src/pages/Patterns.tsx:184-188 | a volatility of known moods lies within 0..4 |
| Patterns.FocusPattern | src/pages/Patterns.tsx:98-117 | focus improving exactly above +1, declining exactly below -1, with the gain rounded to a tenth and at least 1.0 |
| Patterns.StressPattern | src/pages/Patterns.tsx:119-138 | stress increasing exactly above +1 and decreasing exactly below -1 |
| Patterns.EnergyPattern | src/pages/Patterns.tsx:140-158 | low energy exactly below 4 and high energy exactly above 7, on the recent mean only |
| Patterns.RoutinePattern | src/pages/Patterns.tsx:160-174 | routine fires exactly when the head count exceeds 60% of the window, naming that activity |
| Patterns.MoodPattern | src/pages/Patterns.tsx:189-205 | fluctuating mood exactly above 2, stable mood exactly below 1, and neither on NaN |
| Patterns.Summarize | src/pages/Patterns.tsx:95-100 | a history of at least three check-ins has a recent window of 3..7 entries |
| Patterns.Detectors | src/pages/Patterns.tsx:98-205 | the five detectors, one per card type, in the order focus, stress, energy, routine, mood |
| Patterns.DetectorsRanked | src/pages/Patterns.tsx:98-205 | the k-th detector only ever pushes a card of the k-th type |
| Patterns.Analyze | src/pages/Patterns.tsx:80-216 | the result has 1..5 cards, and is exactly the insufficient-data card below three check-ins |
| Patterns.Report | src/pages/Patterns.tsx:207-215 | the pushed cards, or the stable-patterns card; never empty |
| Patterns.ReportIff | src/pages/Patterns.tsx:94-215 | over any ranked detector list, a type and trend appear exactly when that type's detector produces them |
| Patterns.FoundOrdered | src/pages/Patterns.tsx:94-205 | pushed cards are in strictly increasing type order and none is an info card |
| Patterns.ReportShape | src/pages/Patterns.tsx:207-215 | the report is in type order, and holds the stable-patterns card exactly when no detector fires, and then alone |
| Patterns.DetectorIff | src/pages/Patterns.tsx:94-215 | a detector's type and trend appear exactly when that detector produces them |
| Patterns.AnalyzeShape | src/pages/Patterns.tsx:80-216 | from three check-ins: at most one card per detector, in the order focus, stress, energy, routine, mood; the fallback exactly when none fires |
| Patterns.TrendRules | src/pages/Patterns.tsx:98-158 | the six trend cards appear exactly under their mean thresholds; rising stress is "down" |
| Patterns.FocusGainShown | src/pages/Patterns.tsx:101-108 | the focus-improving card reports the gain rounded to a tenth, at least 1.0 |
| Patterns.RoutineRule | src/pages/Patterns.tsx:160-174 | routine appears exactly when the head count exceeds 60% of the recent window, and names the head activity |
| Patterns.MoodRule | src/pages/Patterns.tsx:176-205 | the mood cards appear exactly under their volatility thresholds |
| Patterns.SummarizeWindows | src/pages/Patterns.tsx:95-187 | the detectors see the recent means, the older means (or the recent ones when the older window is empty), the recent head entry and the volatility, which is NaN exactly when a recent mood is unknown |
| Patterns.ShortHistoryHasNoTrend | src/pages/Patterns.tsx:96-121 | with seven or fewer check-ins there is no focus or stress card |
| Patterns.QuietWindow | src/pages/Patterns.tsx:98-215 | the report is the stable-patterns card alone exactly when no threshold is crossed: both trend differences within [-1, 1], recent energy within [4, 7], no routine, and a volatility that is NaN or within [1, 2] |
| Patterns.SteadyWeekIsStable | src/pages/Patterns.tsx:80-216 | five steady check-ins with no activity above 60% yield exactly the stable-patterns card |
| Patterns.RoundToTenth | src/pages/Patterns.tsx:72-74 | `Math.round(x * 10) / 10` is a whole number of tenths within 0.05 of x |
| Patterns.CalculateStats | src/pages/Patterns.tsx:58-78 | nothing changes on empty data; otherwise the three means are rounded to a tenth, the most common activity is the dictionary's head entry (most frequent, ties to the first seen), and the total is the count |
| Assessment.Get | src/pages/Assessment.tsx:11-21 | reading a field gives a value of that field's declared type |
| Assessment.Set | src/pages/Assessment.tsx:41-43 | `{ ...prev, [field]: value }` sets the named field and leaves every other field unchanged |
| Assessment.FieldsDetermineRecord | src/pages/Assessment.tsx:11-21 | two records that agree on every field are equal, so the update is fully determined |
| Assessment.SetLastWins | src/pages/Assessment.tsx:41-43 | a later update of the same field overwrites an earlier one |
| Assessment.SetCommutes | src/pages/Assessment.tsx:41-43 | updates of different fields commute |
| Assessment.OfferedKeepsFormValues | src/pages/Assessment.tsx:72-232 | an update that a control can produce keeps the record within the listed options and slider ranges |
| Assessment.CompleteRecordScores | src/pages/Assessment.tsx:278-282 | a record that got past every disabled Next has a recognised mood and scores 13..100 on the dashboard |
| Assessment.Progress | src/pages/Assessment.tsx:38-39 | progress is 20 per step, within 20..100, and 100 exactly on the last step |
| Assessment.AssessmentPage.constructor | src/pages/Assessment.tsx:25-36 | the form starts at step 1 with empty answers and the default slider values |
| Assessment.AssessmentPage.UpdateData | src/pages/Assessment.tsx:41-43 | only the named field changes, and an offered value keeps the page invariant |
| Assessment.AssessmentPage.NextDisabled | src/pages/Assessment.tsx:276-282 | Next is never disabled on steps 2 and 3, and on the last step of a valid page it is disabled exactly until the record is complete |
| Assessment.AssessmentPage.HandleNext | src/pages/Assessment.tsx:45-53 | below the last step the step advances and nothing is stored; on the last step the whole record overwrites the stored one and the page leaves for the dashboard |
| Assessment.AssessmentPage.HandleBack | src/pages/Assessment.tsx:55-61 | above the first step the step goes back; on the first step the page leaves for home with the data untouched |
| Assessment.AssessmentPage.PressNext | src/pages/Assessment.tsx:276-282 | a click does nothing while Next is disabled, otherwise acts as handleNext; the step stays in 1..5 and only a complete record is ever stored |

## Left out

- The rendering, CSS class names and icons are left out. The `icon` field
  of a card is replaced by the rule tag (`Advice`, `Category` or the
  `Pattern` constructor).
- Browser storage and JSON encoding are left out. Each storage key is an
  `Option` field, and a stored value is read back as written.
- `toast` and `navigate` are left out. They become a returned outcome tag
  (`SaveOutcome`, `Destination`).
- The wall clock is left out. The ISO timestamp of a new check-in is a
  parameter of `SaveCheckIn`.
- `formatTime` and the Patterns page's loading wiring are display and clock
  concerns and are not part of this model. The same goes for the
  Dashboard's redirect to the questionnaire when no record is stored.
- IEEE floating point is not modelled; all arithmetic is exact rationals.
  Every input is an integer or a multiple of 0.5, so most results are exact
  in doubles too. This includes the progress values 20..100, the score
  terms, the energy and volatility thresholds, and the routine test
  `count > length * 0.6`, which agrees with the exact `5 * count > 3 * length`.
- FocusPattern, StressPattern, TrendRules: compare exact means, while the
  page compares rounded doubles in `recent > older + 1` and
  `recent < older - 1`. For example, take seven-entry windows with an older
  focus sum of 11 and a recent sum of 18. In doubles `18/7 > 11/7 + 1`
  holds, so the page shows "Focus Improving" with a gain of 1. The exact
  difference is 1, so the model shows no focus card. With the windows
  swapped, the page shows "Focus Declining" and the model again shows
  nothing. Stress behaves the same way at such boundaries.
- React re-render timing is not modelled. On the page, recommendations are
  recomputed only when a form field changes. The model states them as a
  function of the form and the window, and `GenerateRecommendations`
  recomputes them on demand.
- Lower: models `toLowerCase` for ASCII letters only; other letters are
  kept as they are.
- Dominant: assumes `Object.entries` lists keys in insertion order. An
  activity name that is an array index (a canonical numeric string) would
  be listed first by JavaScript.
- Patterns.CountActivitiesOf, Patterns.CountActivities, Patterns.Dominant:
  the page counts in a plain `{}` with `(count[a] || 0) + 1`. For an
  activity named "constructor" or "toString", the inherited function is
  truthy and the stored "count" becomes a string, so the sort comparator
  gives NaN and the routine test fails. For "__proto__", the assignment
  goes to the prototype setter and the activity is never counted. The
  model counts every name as an own key. Only tampered storage can hold
  such names, since the check-in form offers a fixed list of activities.
- Posture is a record field that no control sets. `Offered` gives it no
  values, so it stays empty in the form.
- The Assessment page unmounts when `navigate` moves to another route;
  the model does not capture that. Its methods stay callable after a
  navigation tag is returned, which allows more clicks than the page does.
- The Index page and the navigation component are static presentation with
  no logic. They are not part of this model.
- Dashboard.MoodPoints, Dashboard.ExercisePoints, Monitor.MoodColor: the
  page looks names up in object literals, so a stored value such as
  "constructor" or "toString" finds a function inherited from
  `Object.prototype` instead of a miss. The score then becomes NaN, or the
  colour a function. The model treats every unlisted name as a miss. Only
  tampered storage can hold such names, since the forms offer only the
  listed options.
