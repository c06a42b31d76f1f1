# Paddy-straw brick strength predictor: verified model

This project models the core of the single-page React application in
`src/App.jsx`. The application predicts the compressive strength (MPa) of
bricks whose clay is mixed with a percentage of rice-straw ash, for a region
of West Java. It has three parts, and the model follows them:

- **Catalog** (`catalog.dfy`): the compiled-in table of 20 West Java regencies
  and cities. Each record has an id, a display name, a 2024 rice production
  estimate in tonnes, map coordinates and a baseline soil strength. A
  free-text query finds a region by comparing the query, lower-cased and
  trimmed, with each record's lower-cased name. The first match wins.
- **Engine** (`engine.dfy`): the "random forest" of three fixed
  piecewise-linear trees.
  - The soil tree has three tiers on the soil baseline.
  - The biomass tree has four tiers on production and a porosity penalty that
    steps above 15 percent.
  - The standard tree is the same for every region.
  - The three results are averaged, rounded to two decimals and clamped at
    zero. Each tree's value is rounded to one decimal.
  - A query that names no region uses the fallbacks 13.0 and 500000.
  - The engine also holds the marker icon size tier.
- **Text** (`text.dfy`): the string operations the lookup needs, namely
  `toLowerCase` and `trim`.
- **Controller** (`controller.dfy`): the component's state and handlers.
  - Typing a location and moving the slider set state.
  - `performPrediction` starts the animation, centres the map on a found
    region and schedules a completion 2500 ms later. The completion publishes
    the prediction for the location and the percentage captured at
    submission time.
  - The `mapRegionSelect` handler writes the clicked name into the field and
    submits it.
  - The handlers are pure transitions over a `Ui` value. A class `App` holds
    the same state in fields, and its methods are proved to perform exactly
    those transitions while keeping the invariant.

The code never cancels an earlier timeout, so several completions can be
scheduled at once. They all have the same delay, so they fire in the order
they were scheduled. The model therefore keeps them as a first-in first-out
queue of jobs. Two consequences are proved:

- the newest submission's result is the one shown once every completion has
  fired;
- the animation flag is cleared by the first completion, even while others
  are still scheduled (`Controller.RapidResubmission`).

## Model

| member | source | states |
|---|---|---|
| `Text.LowerChar` | src/App.jsx:40 | an upper-case ASCII letter becomes its own lower-case letter (code point plus 32); other characters are unchanged; the result is never upper-case, and whitespace is kept exactly |
| `Text.Lower` | src/App.jsx:40-41 | `toLowerCase` keeps the length and lower-cases character by character |
| `Text.TrimStart` | src/App.jsx:40 | the result is no longer than the input; what was removed from the front is all whitespace; the result does not start with whitespace |
| `Text.TrimStartSuffix` | src/App.jsx:40 | what leading trimming keeps is the end of the input |
| `Text.TrimEnd` | src/App.jsx:40 | the result is no longer than the input; what was removed from the back is all whitespace; the result does not end with whitespace |
| `Text.TrimEndPrefix` | src/App.jsx:40 | what trailing trimming keeps is the start of the input |
| `Text.Trim` | src/App.jsx:40 | the result has neither leading nor trailing whitespace; it is empty exactly when the input is all whitespace |
| `Text.TrimMiddle` | src/App.jsx:40 | `trim` returns exactly the slice of the input between the leading and the trailing whitespace |
| `Text.Normalize` | src/App.jsx:40 | the lookup key of a query is empty exactly when the query is blank; it has no upper-case letter and no leading or trailing whitespace |
| `Text.LowerAppend` | src/App.jsx:40 | lower-casing distributes over concatenation |
| `Text.TrimStartAppend` | src/App.jsx:40 | how leading trimming behaves on a concatenation |
| `Text.TrimEndPrepend` | src/App.jsx:40 | how trailing trimming behaves on a concatenation |
| `Text.AllSpaceTrims` | src/App.jsx:40 | an all-whitespace string trims to the empty string from either side |
| `Text.TrimPadding` | src/App.jsx:40 | whitespace padding on either side does not change `trim` |
| `Text.NormalizePadding` | src/App.jsx:40 | whitespace padding on either side does not change the lookup key |
| `Text.NormalizeIgnoresCase` | src/App.jsx:40-41 | two queries that differ only in letter case have the same key |
| `Text.NormalizeFixed` | src/App.jsx:40 | a string already lower-case and trimmed is its own key |
| `Text.NormalizeIdempotent` | src/App.jsx:40 | normalising a key again gives the same key |
| `Catalog.Key` | src/App.jsx:41 | a record's key has the length of its name and no upper-case letter |
| `Catalog.FindIn` | src/App.jsx:41 | `find` only returns a record of the table whose key equals the searched key |
| `Catalog.FindInFirst` | src/App.jsx:41 | `find` fails exactly when no stored name matches the key; otherwise it returns a matching record with no earlier match |
| `Catalog.QueryKeyBlank` | src/App.jsx:40 | a query's key is empty exactly when the query is absent or all whitespace |
| `Catalog.Lookup` | src/App.jsx:40-41 | a region found in a table belongs to it and has the query's key |
| `Catalog.Find` | src/App.jsx:40-41 | a region found in the West Java table belongs to it and has the query's key |
| `Catalog.LookupMatches` | src/App.jsx:40-41 | a found region belongs to the table and its key equals the query's key; nothing is found exactly when no key equals it |
| `Catalog.FindMatches` | src/App.jsx:40-41 | the same, for the West Java table |
| `Catalog.RecordsPositive` | src/App.jsx:6-27 | the table has 20 records, each with positive production and soil baseline |
| `Catalog.IdsTellApart` | src/App.jsx:6-27 | any two ids differ in length, in their first or in their third character |
| `Catalog.IdsAndNamesUnique` | src/App.jsx:6-27 | ids are pairwise distinct, and so are names |
| `Catalog.NamesTrimmed` | src/App.jsx:6-27 | every name has at least three characters and no leading or trailing whitespace |
| `Catalog.NamesCapitalised` | src/App.jsx:6-27 | every name starts with a capital letter and has a lower-case third letter |
| `Catalog.NamesTellApart` | src/App.jsx:6-27 | any two names differ in length, in their first or in their third character |
| `Catalog.TellApartKeysDistinct` | src/App.jsx:41 | a table whose names are capitalised, and any two of which differ in length, first or third letter, has distinct lower-cased keys |
| `Catalog.CatalogKeysDistinct` | src/App.jsx:6-27 | no two West Java records share a lower-cased name, so the first-match rule never chooses between two |
| `Catalog.FindInOwnKey` | src/App.jsx:41 | in a table with distinct keys, each record's own key finds that record |
| `Catalog.FindInSelects` | src/App.jsx:41 | in a table with distinct keys, a key finds record i if and only if it is record i's key |
| `Catalog.FindSelects` | src/App.jsx:40-41 | a query finds West Java record i if and only if its key is that record's key |
| `Catalog.NameIsOwnQuery` | src/App.jsx:40-41 | a name without surrounding whitespace normalises to its record's key |
| `Catalog.FindByName` | src/App.jsx:40-41 | typing a record's display name finds exactly that record |
| `Catalog.BlankQueryUnmatched` | src/App.jsx:40-44 | a missing or blank query finds no region |
| `Catalog.FindInEmptyKey` | src/App.jsx:41 | in a table with non-empty names, the empty key finds nothing |
| `Catalog.FindInMissing` | src/App.jsx:41 | a key (at least two characters long) that no name matches in length and in its first two lower-cased characters finds nothing |
| `Catalog.NoKeyLikeBanjar` | src/App.jsx:25 | the key "banjar" is in no record |
| `Catalog.IdIsNotName` | src/App.jsx:25 | the lookup compares names, not ids: querying the id "banjar" finds nothing, because that record is named "Kota Banjar" |
| `Catalog.NoKeyLikeNowhere` | src/App.jsx:41 | the key "nowhere" is in no record |
| `Catalog.NowhereCase` | src/App.jsx:40 | "Nowhere" and "nowhere" have the same key |
| `Catalog.NowhereKey` | src/App.jsx:40 | "nowhere" is its own key |
| `Catalog.UnknownNameUnmatched` | src/App.jsx:40-44 | a name outside the table finds no region |
| `Engine.SoilTree` | src/App.jsx:48-52 | for non-negative percentages the soil tree lies between the steepest slope (0.45) and the shallowest (0.25); at 0 percent it is the baseline |
| `Engine.PorosityPenalty` | src/App.jsx:56 | the penalty is 0.5 or 2.0, and it is 2.0 exactly above 15 percent |
| `Engine.BiomassTree` | src/App.jsx:55-61 | for non-negative percentages the biomass tree lies between the lowest tier's line and the highest tier's line |
| `Engine.StandardTree` | src/App.jsx:64-66 | the standard tree is never above 15 for a non-negative percentage and never below 1 up to 40 per cent |
| `Engine.Estimate` | src/App.jsx:43-70 | with no ash the soil tree is its baseline and the standard tree is 15; for a non-negative percentage the soil tree stays at or below its baseline, the biomass tree at or below 15.5 and the standard tree at or below 15 |
| `Engine.Mean` | src/App.jsx:72 | the mean lies between the smallest and the largest of the three trees |
| `Engine.RoundHalfAway` | src/App.jsx:75-76 | the rounded integer is within one half of its input and keeps its sign; at a tie it is the neighbour farther from zero |
| `Engine.Fixed` | src/App.jsx:75-76 | `toFixed` keeps the sign of its input |
| `Engine.FixedNearest` | src/App.jsx:75-76 | `toFixed` gives a value on the grid of its precision, within half a unit of the input; at a tie it is the neighbour farther from zero |
| `Engine.Assess` | src/App.jsx:43-78 | the published value is never negative and the region is the one it was given |
| `Engine.AssessRounding` | src/App.jsx:43-78 | for any region or none, the forecast's value is non-negative, on the hundredths grid, within 0.005 of the clamped mean, and 0 when the mean is not positive; each tree is on the tenths grid and within 0.05 of its raw value; the region is passed through |
| `Engine.Predict` | src/App.jsx:39-79 | for any query of the West Java table: the value is non-negative, on the hundredths grid, within 0.005 of the clamped mean of the raw trees, and 0 when that mean is not positive; each tree is on the tenths grid and within 0.05 of its raw value; `regionInfo` is the region found for the query |
| `Engine.IconSize` | src/App.jsx:121 | a marker is 30, 40 or 50 pixels: 50 exactly above a production of 1000000, 40 exactly above 500000 up to 1000000, 30 otherwise |
| `Engine.SoilTierBoundaries` | src/App.jsx:48-52 | the tier boundaries are strict: baseline 17 uses slope 0.30, 15 uses 0.45, and above 17 uses 0.25 |
| `Engine.SoilLinear` | src/App.jsx:48-52 | for a fixed baseline the soil tree is linear in the percentage |
| `Engine.SoilNonIncreasing` | src/App.jsx:48-52 | more ash never raises the soil tree |
| `Engine.SoilNonDecreasingInBase` | src/App.jsx:48-52 | a higher baseline never lowers the soil tree at a non-negative percentage, across tier boundaries |
| `Engine.BiomassPorosityStep` | src/App.jsx:55-61 | between two percentages the biomass tree drops by its slope times the distance, plus 1.5 when the range crosses 15 percent |
| `Engine.BiomassJumpAt15` | src/App.jsx:56 | the biomass tree loses exactly 1.5 more from 15 to 16 percent than from 14 to 15 |
| `Engine.BiomassNonIncreasing` | src/App.jsx:55-61 | more ash never raises the biomass tree |
| `Engine.BiomassNonDecreasingInProduction` | src/App.jsx:55-61 | higher production never lowers the biomass tree at a non-negative percentage |
| `Engine.StandardIgnoresRegion` | src/App.jsx:64-66 | the standard tree is the same whatever the query |
| `Engine.UnmatchedUsesFallback` | src/App.jsx:43-44 | a query that finds no region is estimated with baseline 13.0 and production 500000, and reports no region |
| `Engine.RoundHalfAwayMonotone` | src/App.jsx:75-76 | rounding preserves order |
| `Engine.FixedMonotone` | src/App.jsx:75-76 | `toFixed(1)` and `toFixed(2)` preserve order |
| `Engine.FixedAt` | src/App.jsx:75-76 | `toFixed` of a non-negative value is n / scale for the n with n <= value * scale + 0.5 < n + 1 |
| `Engine.PredictNonIncreasing` | src/App.jsx:39-79 | for any query, more ash never raises the predicted strength |
| `Engine.PredictByKey` | src/App.jsx:40-41 | two queries with the same key get the same forecast |
| `Engine.IndramayuUpperKey` | src/App.jsx:40 | "INDRAMAYU" and "Indramayu" have the same key |
| `Engine.IndramayuLowerKey` | src/App.jsx:40 | "indramayu" and "Indramayu" have the same key |
| `Engine.IndramayuPaddedKey` | src/App.jsx:40 | " Indramayu " and "Indramayu" have the same key |
| `Engine.IndramayuSpellings` | src/App.jsx:40-41 | lower-case, upper-case and padded spellings of Indramayu get the same forecast, which reports Indramayu |
| `Engine.IndramayuFound` | src/App.jsx:7 | "Indramayu" finds the first record |
| `Engine.IndramayuTrees` | src/App.jsx:47-70 | Indramayu at 5 percent: the raw trees are 15.0, 14.1 and 13.25 |
| `Engine.IndramayuRounding` | src/App.jsx:75-76 | 847/60 rounds to 14.12, and 13.25 rounds to 13.3 at one decimal |
| `Engine.IndramayuAt5` | src/App.jsx:39-79 | Indramayu at 5 percent predicts 14.12 MPa with trees 15.0, 14.1 and 13.3 |
| `Engine.KarawangFound` | src/App.jsx:8 | "Karawang" finds the second record |
| `Engine.KarawangTrees` | src/App.jsx:47-70 | Karawang at 10 percent: the raw trees are 15.3, 12.7 and 11.5 |
| `Engine.KarawangRounding` | src/App.jsx:75-76 | 79/6 rounds to 13.17, and the trees are already on the one-decimal grid |
| `Engine.KarawangAt10` | src/App.jsx:39-79 | Karawang at 10 percent predicts 13.17 MPa with trees 15.3, 12.7 and 11.5 |
| `Engine.DepokAt40Clamped` | src/App.jsx:72-75 | Depok at 40 percent has a negative mean, and the prediction is clamped to 0 |
| `Engine.IconSizeMonotone` | src/App.jsx:121 | a larger production never gets a smaller marker |
| `Engine.LargerIconStrongerBiomass` | src/App.jsx:55-61 | a region drawn with a larger marker always has a strictly higher biomass tree |
| `Controller.TypeLocation` | src/App.jsx:294 | typing sets the location and never schedules, animates or publishes anything |
| `Controller.ChangePercentage` | src/App.jsx:314-317 | the slider sets the percentage and leaves the location and the map alone |
| `Controller.Submit` | src/App.jsx:164-185 | a submission publishes nothing and changes neither the inputs, the map's availability nor the table |
| `Controller.MapSelect` | src/App.jsx:188-191 | a map click leaves the clicked name in the field, keeps the percentage and publishes nothing yet |
| `Controller.Complete` | src/App.jsx:179-184 | when a job is pending, a completion publishes the forecast of the oldest job's captured query and percentage as both the prediction and the details, stops the animation and removes that job, leaving the inputs, the map and the table alone; with nothing pending it changes nothing |
| `Controller.AttachMap` | src/App.jsx:157 | the map becomes available; nothing is scheduled, centred or published |
| `Controller.Step` | src/App.jsx:164-195 | no handler changes the region table, and each event schedules at most one completion |
| `Controller.Run` | src/App.jsx:164-195 | over any sequence of events the region table stays the same, and at most one completion is scheduled per event |
| `Controller.StepKeepsInv` | src/App.jsx:164-195 | every handler keeps the invariant: the percentage is in the slider's range, each scheduled job is complete, and the animation is shown only while a completion is scheduled |
| `Controller.SubmitKeepsInv` | src/App.jsx:164-185 | `performPrediction` keeps the invariant |
| `Controller.CompleteKeepsInv` | src/App.jsx:179-184 | a completion keeps the invariant |
| `Controller.RunKeepsInv` | src/App.jsx:164-195 | every sequence of events keeps the invariant |
| `Controller.InitialInv` | src/App.jsx:82-86 | the first render's state satisfies the invariant |
| `Controller.EmptySubmitIsNoOp` | src/App.jsx:166-168 | submitting an empty location changes nothing |
| `Controller.SubmitSchedulesOne` | src/App.jsx:166-184 | a non-empty submission starts the animation and schedules exactly one job with the current percentage; it publishes nothing yet and leaves the inputs alone |
| `Controller.SubmitCentresMap` | src/App.jsx:173-175 | the map is centred on the region, at zoom 11, exactly when the location is non-empty, names a region and the map exists |
| `Controller.MapSelectOverridesTyped` | src/App.jsx:188-191 | a map click replaces the typed text with the clicked name and schedules a job for that name |
| `Controller.SlideNeverSubmits` | src/App.jsx:314-317 | moving the slider schedules and publishes nothing |
| `Controller.CompletionUsesCapturedPercentage` | src/App.jsx:179-184 | the completion publishes the result for the percentage captured at submission, even if the slider moved in between, and stops the animation |
| `Controller.DrainPublishesNewest` | src/App.jsx:179-184 | once every scheduled completion has fired, the newest job's result is shown, the animation is off and the inputs are unchanged |
| `Controller.RapidResubmission` | src/App.jsx:164-185 | after two quick submissions the first result is shown first and the animation stops then, with the second still scheduled; finally the second result is shown |
| `Controller.OutcomeOnWestJava` | src/App.jsx:180 | on the West Java table, a completion publishes exactly what the engine predicts for its query and captured percentage |
| `Controller.App.constructor` | src/App.jsx:82-86 | the initial state: empty location, 10 percent, prediction 0, no details, no animation, nothing scheduled |
| `Controller.App.SetLocation` | src/App.jsx:294 | the field's setter performs the typing transition and keeps the invariant |
| `Controller.App.SetPercentage` | src/App.jsx:314-317 | the slider's setter performs the percentage transition and keeps the invariant |
| `Controller.App.PerformPrediction` | src/App.jsx:164-185 | performs exactly the submission transition and keeps the invariant |
| `Controller.App.MapRegionSelect` | src/App.jsx:188-191 | performs exactly the map-click transition and keeps the invariant |
| `Controller.App.Elapse` | src/App.jsx:179-184 | fires the oldest scheduled completion, if there is one, and reports whether it did; performs exactly the completion transition and keeps the invariant |
| `Controller.App.MapLoaded` | src/App.jsx:157 | the map instance becomes available |

## Left out

- Leaflet loading, tile layers, markers, popups and their HTML (src/App.jsx:96-159): these are browser and DOM effects. The initial `setView([-6.9, 107.6], 8)` (src/App.jsx:112) is not recorded. Only the centring call of `performPrediction` (src/App.jsx:174-175) is kept, as a list of `View` commands, plus the fact that the map instance has been stored.
- The markers' `click` handlers that dispatch `mapRegionSelect` with the region's name (src/App.jsx:153-155): the model takes the event, with its name, as input (`Clicked`).
- `Intl.NumberFormat` formatting of the production figures (src/App.jsx:89): display only.
- `historicalData` (src/App.jsx:30-36) and all JSX rendering: display only.
- `parseFloat` of the percentage, and the range input's value being a string (src/App.jsx:45, 314-317): the slider's percentage is an integer from 0 to 40, and the engine takes an exact real.
- `Engine.Predict`: numbers are exact reals, not IEEE doubles. `toFixed` is taken to round the exact value half away from zero. Binary representation error is not captured, and it matters for the trees at the slider's own integer percentages: 15 − 0.35·3 is 13.9499999999999992… as a double, so the app shows 13.9 for the standard tree at 3 per cent where the model's exact 13.95 gives 14.0. The clauses of `Engine.Predict` that put each tree on the tenths grid within 0.05 of its raw value hold for both. The trees are reals rounded to one decimal, not the strings `toFixed` returns.
- `Text.Lower`: only the ASCII letters A-Z are lower-cased. Unicode case mapping (beyond ASCII, and context-dependent) is not modelled. Every name in the table is ASCII.
- Real time and the 2500 ms delay: only the order of completions is modelled. All delays are equal, so the timeouts fire first in, first out. `TimerFired` and `Controller.App.Elapse` fire the oldest one.
- React's asynchronous state updates and closure capture are modelled as immediate updates. The completion's captured location and percentage are kept in each job. The map handler is re-registered when the percentage changes, so it reads the current percentage, as the model does.
- The Enter key and search button handlers (src/App.jsx:198-200, 301) call `performPrediction` with no override. They are the `Entered` event and `Controller.App.PerformPrediction(None)`.
- The region table is a field of the state (`catalog`). The handlers are stated over it. It starts as the West Java table, and `Controller.Run` proves no event changes it; `Controller.OutcomeOnWestJava` shows a completion on that table publishes what `Engine.Predict` gives.
- `Text.TrimStart`, `Text.TrimEnd`: that the result is a suffix (a prefix) of the input is stated by `Text.TrimStartSuffix` (`Text.TrimEndPrefix`) instead of by the functions' own contracts, so that proofs which only mention a lookup do not have to carry it.
- `Controller.LocationToUse`: a helper with no contract of its own for the choice at src/App.jsx:166 between the override and the typed location; `Controller.Submit`, `Controller.EmptySubmitIsNoOp` and `Controller.MapSelectOverridesTyped` state its effect.
- `Controller.Outcome`: a helper with no contract of its own for the completion's `simulateRandomForest(locToUse, percentage)` at src/App.jsx:180; `Controller.Complete` and `Controller.OutcomeOnWestJava` state what it publishes.
- `Engine.RawTrees`: a helper with no contract of its own for the three unrounded trees of src/App.jsx:41-44 and 68-70; `Engine.Predict` and `Engine.AssessRounding` state the forecast in its terms.
- `Engine.SoilBaseOf`, `Engine.ProductionOf`: helpers with no contract of their own for the fallbacks 13.0 and 500000 at src/App.jsx:43-44; `Engine.UnmatchedUsesFallback` states them.
- `Engine.Max0`: a helper with no contract of its own for `Math.max(0, …)` at src/App.jsx:75; `Engine.AssessRounding` and `Engine.Predict` state the clamp.
- `Catalog.QueryKey`: that a key is empty exactly for a blank query is stated by the lemma `Catalog.QueryKeyBlank` rather than by the function's contract, for the same reason.
