# nutrition-calc: a verified model of the calculator core

nutrition-calc is a single-page nutrition utility. Everything it computes
lives in `app.js`, and this project models four parts of it in Dafny:

- **Daily log** (module `DailyLog`). A persisted store holds a daily kcal
  target and a log that maps an ISO date to its entries `{id, at, kcal}`.
  Adding an entry converts kJ to kcal, floors the value at 0 and rounds it.
  Removing an entry filters a date's entries by id. Clearing a day deletes
  its record. `getTotals` derives the consumed total, the percentage of
  target (capped at 100), and the remaining and over amounts. The class
  `Store` holds the log and target. Each of its methods is specified by a
  pure transition on the log (`Added`, `Removed`, `Cleared`), and the
  lemmas are proved about those transitions.
- **BMR/TDEE estimator** (module `Estimator`). It applies Mifflin–St Jeor
  to age, height and weight after clamping them into [14, 90] years,
  [120, 220] cm and [35, 250] kg. The result is scaled by an activity
  factor (unknown or empty means sedentary, 1.2). It gives four targets at
  deficits of 0, 550, 825 and 1100 kcal and a safe minimum of
  max(round(BMR), 1500 for men or 1200 for women). It warns when the rapid
  target falls below that minimum. If any reading is not finite (a blank
  field, or a partial one per `isPartial`), all targets are shown as 0
  and the warning is hidden. `MetricsForm` models the form: its input
  events recompute the estimate, and its blur events clamp the field and
  write the value back.
- **kcal ↔ kJ converter** (module `Converter`). It has two fields. A
  non-negative number typed into one field rewrites the other, to one
  decimal. A negative number leaves the other field alone.
- **Favorites** (module `Favorites`). Saving appends an item after
  validating it: the trimmed name must not be empty and the energy must be
  positive. Deleting removes every item with that id. The search view is a
  case-insensitive substring filter on names.

Shared helpers: `Numeric` has `Math.round` as `(x + 0.5).Floor`
(round half up), `round1`, `toKj` and `clamp`. `Text` has `trim`,
`toLowerCase`, `includes` and `isPartial`. `Seqs` has `filter`.
`Wrappers` has `Option`, where `None` stands for NaN or `undefined`.
All numbers are `real`.

Behaviour of the code worth knowing, which the model keeps:
- `removeEntry` leaves the date key in place, with an empty list when its
  last entry goes. Only `clearDay` deletes the key.
- `addEntry` itself floors a negative value at 0. Non-positive values are
  refused by its caller `handleAddEntry`, which `Store.HandleAddEntry`
  models.
- The converter's two one-decimal roundings do not make a round trip
  exact to 0.1 kJ. They only guarantee 0.2592 kJ, which `KjRoundTrip`
  proves. For example, 0.2 kJ → 0.0 kcal → 0.0 kJ, as
  `KjRoundTripExceedsOneTenth` shows.
- The daily target is a `real`, not an integer, because `updateTarget`
  stores whatever `parseFloat` returns when it is non-negative.
- For a sedentary woman of 30, 165 cm and 60 kg, the safe minimum is her
  rounded BMR, 1320, which is above the 1200 floor.

Inputs that come from outside the code become parameters:
`crypto.randomUUID()`, `Date.now()`, the numbers parsed by
`parseFloat`/`Number`, and the sex and activity chosen in the form.
Each form field is represented by the number read from it.

## Model

| member | source | states |
|---|---|---|
| Numeric.Round | app.js:30 | `Math.round`/`r0` gives the nearest integer, with halves rounded up |
| Numeric.Round1 | app.js:29 | `round1` is within 0.05 of its argument and is a whole number of tenths |
| Numeric.ToKj | app.js:45 | `toKj` is a whole number of tenths within 0.05 kJ of kcal·4.184 (so exactly the one-decimal rounding), non-negative for non-negative kcal |
| Numeric.Clamp | app.js:36 | `clamp` lands in [lo, hi], returns in-range values unchanged, and returns the nearer bound otherwise |
| Seqs.Filter | app.js:313 | `filter` keeps exactly the elements that pass, in order, and never grows the list |
| Text.Trim | app.js:507 | `trim` is a slice of the text with only white space cut from either end and none left at either end; it is empty iff the text is all white space |
| Text.IsPartial | app.js:37 | a text is partial iff it is empty, a bare "-", or ends in "." (so "-." is one of these) |
| Text.ToLower | app.js:546-548 | `toLowerCase` keeps the length, maps each letter, and leaves no Basic Latin capital |
| Text.Contains | app.js:548 | `includes` is true iff the term occurs at some index |
| DailyLog.EntriesOf | app.js:328 | a date's entries are its record's list, or none when the date is absent |
| DailyLog.Sum | app.js:329 | the `reduce` total is 0 for no entries and at least every entry's kcal |
| DailyLog.EntryKcal | app.js:298-302 | the stored kcal is 0 for non-positive input, otherwise the nearest integer to value (or value/4.184 for "kJ") |
| DailyLog.Added | app.js:304-305 | adding creates the date if absent, appends exactly one entry at the end, and leaves other dates alone |
| DailyLog.Removed | app.js:310-316 | an absent date is untouched; otherwise exactly the entries with that id go, the key stays, and other dates are unchanged |
| DailyLog.Cleared | app.js:318-323 | `clearDay` removes only that date key |
| DailyLog.ComputeTotals | app.js:325-334 | for a non-zero target pct is the rounded percentage consumed/target·100 when that is at most 100, and 100 once it reaches 100.5; pct is 0 for target 0 and in [0,100] for target ≥ 0, and 100 once consumption reaches a positive target; remaining and over are never both positive; remaining − over = target − consumed; both are 0 iff consumed = target |
| DailyLog.ProgressBarColor | app.js:336-340 | success iff pct < 70, warning iff 70 ≤ pct ≤ 100, danger iff pct > 100 |
| DailyLog.NeverDanger | app.js:330-340 | with a non-negative target, the colour of the totals' pct is never `bg-danger` |
| DailyLog.AddedConsumed | app.js:304-305 | after an add, the date's consumed total rises by exactly the new entry's kcal |
| DailyLog.RemovedConsumed | app.js:313 | removing entries never raises the date's consumed total |
| DailyLog.AddedKeepsOrder | app.js:304-305 | the existing entries stay as a prefix, ahead of the one new entry |
| DailyLog.RemovedKeepsOrder | app.js:313 | the kept entries stay in their original order |
| DailyLog.RemovedIdempotent | app.js:310-316 | `removeEntry` a second time with the same date and id changes nothing |
| DailyLog.ClearedIdempotent | app.js:318-323 | `clearDay` a second time changes nothing |
| DailyLog.Store.constructor | app.js:280-290 | an empty store gives an empty log and a target of 2000 |
| DailyLog.Store.AddEntry | app.js:296-308 | the new log is `Added` applied to the old one, with an entry of the given id, time and converted kcal |
| DailyLog.Store.RemoveEntry | app.js:310-316 | the new log is `Removed` applied to the old one |
| DailyLog.Store.ClearDay | app.js:318-323 | the new log is `Cleared` applied to the old one |
| DailyLog.Store.GetTotals | app.js:325-334 | the totals for the stored target have pct in [0,100] and sum the date's entries |
| DailyLog.Store.UpdateTarget | app.js:445-451 | a non-negative value is saved as the target; a negative one is ignored; the target stays non-negative |
| DailyLog.Store.HandleAddEntry | app.js:453-461 | a positive value adds an entry; any other value leaves the log unchanged |
| DailyLog.ScenarioOverTarget | app.js:325-334 | target 2000 with entries of 500, 700 and 900 gives consumed 2100, pct 100, over 100, remaining 0 |
| DailyLog.ScenarioKilojouleEntry | app.js:298-302 | 836.8 kJ is stored as 200 kcal |
| Estimator.ReadNum | app.js:37-43 | a partial text reads as not-a-number; any other text reads as what `Number` gives for it |
| Estimator.Bmr | app.js:47-51 | Mifflin–St Jeor; within the clamping ranges the rate is at least 489 kcal |
| Estimator.SexFloor | app.js:234 | the floor is 1500 for a man and 1200 otherwise |
| Estimator.Tdee | app.js:220-223 | the expenditure is the BMR scaled by a factor between 1.2 and 1.9, and exactly 1.2 for an empty selection |
| Estimator.ActivityFactor | app.js:220-223 | the factor lies in [1.2, 1.9], and any name outside the table gives 1.2 |
| Estimator.PaceTargets | app.js:225-231 | each target is the rounding of max(0, tdee − deficit) for 0, 550, 825 and 1100; maintain ≥ slow ≥ moderate ≥ rapid ≥ 0 |
| Estimator.MinSafe | app.js:234-235 | minSafe is the larger of the rounded BMR and the sex floor |
| Estimator.Estimated | app.js:220-246 | for clamped metrics: the shown targets equal the returned ones; the warning is on iff rapid < minSafe; BMR and TDEE are rounded and positive; minSafe is the larger of the rounded BMR and the sex floor |
| Estimator.ComputeTdee | app.js:193-218 | no estimate iff some reading is not finite, and then all targets are 0 with no warning; otherwise the estimate uses the readings clamped to [14,90], [120,220] and [35,250], and readings already in range are used as they are |
| Estimator.BmrSexGap | app.js:47-51 | the male BMR exceeds the female BMR by 166 for equal kg, cm and age |
| Estimator.PartialShowsZero | app.js:207-217 | text still being typed in any one of the age, height or weight fields shows zero targets, hides the warning and returns nothing |
| Estimator.UnknownActivityIsSedentary | app.js:220-223 | an unknown or empty activity gives the same TDEE as sedentary, BMR × 1.2 |
| Estimator.ClampOnBlur | app.js:60-69 | no write-back without a finite reading; otherwise a non-integer field gets exactly the clamped reading, and an integer field gets the clamped reading rounded half up, a whole number within whole-number bounds |
| Estimator.MetricsForm.constructor | app.js:197-203 | the form starts with the given sex, field readings and activity |
| Estimator.MetricsForm.View | app.js:193-218 | the form shows no estimate iff some field reading is not finite |
| Estimator.MetricsForm.Input | app.js:258-266 | an input event changes only that field's reading and recomputes the estimate, without writing back |
| Estimator.MetricsForm.Blur | app.js:268-271 | a blur clamps only that field (age also rounded) and recomputes only if it wrote back |
| Estimator.BlurAgeInRange | app.js:269 | after a blur with a finite age, the age field holds a whole number within [14, 90] |
| Estimator.BlurHeightWeightKeepsEstimate | app.js:270-271 | blurring height or weight leaves the estimate unchanged |
| Estimator.ScenarioSedentaryWoman | app.js:193-247 | a sedentary woman of 30, 165 cm, 60 kg: BMR 1320, TDEE 1584, targets 1584/1034/759/484, minSafe 1320, warning on |
| Converter.KcalToKj | app.js:160-164 | the kJ written is the whole number of tenths within 0.05 of kcal·4.184, non-negative for non-negative input |
| Converter.KjToKcal | app.js:173-177 | the kcal written is the whole number of tenths within 0.05 of kJ/4.184, non-negative for non-negative input |
| Converter.EnergyConverter.constructor | app.js:149-154 | both fields start blank, with no handler running |
| Converter.EnergyConverter.UpdateFromKcal | app.js:156-167 | kJ becomes round1(kcal·4.184) when kcal ≥ 0 and is unchanged otherwise; kcal is untouched; the guard flag ends cleared |
| Converter.EnergyConverter.UpdateFromKj | app.js:169-180 | kcal becomes round1(kJ/4.184) when kJ ≥ 0 and is unchanged otherwise; kJ is untouched |
| Converter.EnergyConverter.InputKcal | app.js:187 | typing into the kcal field sets it and updates kJ as above |
| Converter.EnergyConverter.InputKj | app.js:188 | typing into the kJ field sets it and updates kcal as above |
| Converter.EnergyConverter.Reset | app.js:137-144 | reset clears both fields |
| Converter.KjRoundTrip | app.js:156-180 | kJ → kcal → kJ stays within 0.2592 kJ |
| Converter.KcalRoundTrip | app.js:156-180 | kcal → kJ → kcal stays within 0.062 kcal |
| Converter.KjRoundTripExceedsOneTenth | app.js:169-180 | 0.2 kJ gives 0.0 kcal, which gives 0.0 kJ, an error beyond 0.1 |
| Converter.ScenarioHundredKcal | app.js:156-180 | 100 kcal gives 418.4 kJ, and 418.4 kJ gives 100 kcal |
| Favorites.SearchView | app.js:545-549 | the view holds exactly the items whose lower-cased name contains the lower-cased term, in list order |
| Favorites.EmptySearchShowsAll | app.js:546-548 | an empty term shows the whole list |
| Favorites.SearchIgnoresCase | app.js:546 | terms that lower-case alike give the same view |
| Favorites.Registry.constructor | app.js:504 | the registry starts with the stored list |
| Favorites.Registry.SaveFavorite | app.js:506-531 | saves iff the trimmed name is non-empty and energy > 0; then exactly one item (trimmed name, given id) is appended, and otherwise the list is unchanged |
| Favorites.Registry.DeleteFavorite | app.js:533-537 | every item with that id goes, and all others stay, in order |
| Favorites.Registry.Search | app.js:545-549 | the search reads the list without changing it, and returns only matching items from it |
| Favorites.DeleteIdempotent | app.js:533-537 | deleting the same id twice is deleting it once |
| Favorites.DeleteKeepsOrder | app.js:534 | deletion distributes over a split of the list, so order is kept |

## Left out

- The service worker (`service-worker.js`): cache, fetch and notification plumbing over browser APIs.
- DOM rendering: the HTML of `renderDaily` and `renderFavorites`, `setPair` text, progress-bar width, `resetTDEE` and the theme toggle. All of this is presentation.
- Clipboard, share and print (`copyText`, `maybeShare`, `copyDailySummary`, `printDaily`): side channels that depend on the browser and on locale date formatting.
- `initPWA`: service-worker registration and the install prompt.
- `loadLS`/`saveLS`: storage is the class fields themselves, starting from `loadLS`'s defaults. JSON errors, an unavailable store and quota failures are not modelled.
- Parsing: `parseFloat`, `Number` and `toNumber` are foreign calls, so their results are parameters. A field is represented by the number read from it, so a blank converter field and one showing 0 look the same.
- IEEE-754 doubles: all arithmetic is exact `real`, so the binary rounding error of ×4.184 and ÷4.184 is not reproduced. Infinity and NaN typed into the target or favorite fields are not modelled.
- Text.ToLower: maps only the Basic Latin capitals A–Z; JavaScript's `toLowerCase` maps every Unicode capital.
- Estimator.ActivityFactor: treats any name outside the five-entry table as sedentary. In JavaScript, an inherited object property name such as "constructor" would give NaN, but the activity select never offers one.
- The global `resetKcalKj` calls a `renderKcalKj` that exists only inside `initConverter`. Reset is modelled as clearing both fields and nothing more.
- Dead or no-op code: `G_PER_OZ`, `MACRO_ENERGY`, the `loadFavorite` stub and the preset-button handler, which only adds numbers into a form field.
- Entry and favorite ids are taken as given. The model does not assume that they are unique, so deletion removes every item with the id.
