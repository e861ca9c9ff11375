# InnerVerse core, modelled in Dafny

InnerVerse scans a food label, asks the user to confirm the extracted
ingredient list and nutrition table, and then checks the ingredients
against the user's health profile. The checks are allergies, nutrition
conditions and dietary preferences. This project models the parts of the
application that hold its logic:

- **`RulesEngine`** (`rules_engine.dfy`) is the personalisation rules
  engine. It has the static `conflictRules` table and the collection of
  the profile's conditions. It checks each (ingredient, condition) pair
  for tag and concern overlaps and derives each conflict's severity. It
  ranks the warnings with a stable sort by severity, types each warning
  by the profile list that holds its condition, and gives the overall
  verdict.
- **`AnalysisRoutes`** (`analysis.dfy`) holds the analysis routes:
  - the comma-list splitter of ingredient extraction;
  - the sequential cache-or-fetch loop over the `Ingredient` store, with
    an enrichment client and a store whose save can fail, both as
    oracles;
  - request validation and report assembly;
  - the cached-ingredient lookup.
- **`ConfirmationView`** (`confirmation_view.dfy`) is the confirmation
  screen. It covers:
  - the initial list;
  - the text form of the ingredient list and its parser, including the
    lazy percentage pattern;
  - the `key: value` text form of the nutrition table and its parser;
  - the empty-list guard and the answer to the analysis request.
- **`ProfileForm`** (`profile_form.dfy`) is the health-profile form:
  - the check-box toggles;
  - the one-open accordion;
  - the nested (per category) and flat forms of the health conditions;
  - the condition count;
  - the submit guards;
  - the answer to the save request.
- **`ScanHistory`** (`scan_history.dfy`) is the saved-scan list: rebuilding
  a report from a stored scan, with its food-type histogram, and
  removing a deleted scan.
- **`App`** (`app.dfy`) is the top-level screen switch. It is a class with
  the fields `currentView`, `user`, `userProfile` and `analysisData`, one
  method per handler, and the render choice.
- The shared modules are `JsText` (`text.dfy`), `JsObject`
  (`js_object.dfy`) and `Wrappers` (`wrappers.dfy`):
  - `JsText` covers the JavaScript string operations used: the `trim`/`\s`
    whitespace set, `toLowerCase`, `includes`, `split`, `join` and decimal
    formatting.
  - `JsObject` models a plain object with string keys as its properties in
    insertion order.
  - `Wrappers` holds `Option`.

Loops that update variables in the source are methods with loop
invariants, each proved equal to a specification function:

- the warning collection and the nested `forEach` loops;
- the cache-or-fetch loop;
- the nutrition-table assignment loop;
- the accordion `reduce`;
- both condition transforms;
- the histogram.

The store, the enrichment client and the screen switch are classes whose
methods state their whole new state.

Two behaviours of the source are worth knowing when reading the model:

- The enrichment call receives the caller's original name, not the
  normalised key (`AnalysisRoutes.StepMiss`).
- A matching concern overwrites an allergy's HIGH severity
  (`RulesEngine.ConcernOverridesAllergy`). No allergen rule has concern
  labels, so a stored profile never reaches this
  (`RulesEngine.AllergenRulesHaveNoConcerns`).

## Model

| member | source | states |
|---|---|---|
| RulesEngine.AllergenRulesHaveNoConcerns | Prototype1/backend/utils/rulesEngine.js:4-45 | every allergen the profile schema allows has a rule without `potential_concerns`, except `Other`, which has no rule |
| RulesEngine.ConflictRules | Prototype1/backend/utils/rulesEngine.js:4-115 | every rule of the table has at least one tag and a non-empty message, so each can fire |
| RulesEngine.AllergyRules | Prototype1/backend/utils/rulesEngine.js:5-45 | the allergy-based rules have tags and a message and no `potential_concerns` |
| RulesEngine.ConditionRules | Prototype1/backend/utils/rulesEngine.js:47-92 | the health-condition rules have tags, a message and at least one concern label |
| RulesEngine.PreferenceRules | Prototype1/backend/utils/rulesEngine.js:94-114 | the dietary-preference rules have tags and a message and no `potential_concerns` |
| RulesEngine.AnyOverlap | Prototype1/backend/utils/rulesEngine.js:154-157 | true iff some element overlaps the value by case-insensitive containment in either direction |
| RulesEngine.TagConflict | Prototype1/backend/utils/rulesEngine.js:152-158 | a tag conflict exists iff some rule tag and ingredient tag overlap, one containing the other after lower-casing |
| RulesEngine.FindConcern | Prototype1/backend/utils/rulesEngine.js:170-176 | `find` returns the first concern whose condition overlaps a rule concern label, and none iff no concern does |
| RulesEngine.ConflictLevel | Prototype1/backend/utils/rulesEngine.js:149-181 | without a matching concern the level is HIGH iff a tag conflicts and the condition is an allergy; LOW only from a matching concern; a matching concern without a level gives MEDIUM; the general overwrite by the first matching concern is `RulesEngine.FirstConcernSetsLevel` |
| RulesEngine.ConditionLabels | Prototype1/backend/utils/rulesEngine.js:127-131 | one label per health condition, in order |
| RulesEngine.CollectConditions | Prototype1/backend/utils/rulesEngine.js:120-135 | the pushed list is the allergies, then the health-condition labels, then the dietary preferences, in order and with duplicates kept |
| RulesEngine.WarningTypeOf | Prototype1/backend/utils/rulesEngine.js:205-216 | `allergy` iff the condition is an allergy; otherwise `health_condition` iff some health condition has it as its label; then `dietary_preference`; `general` iff the profile holds the condition nowhere |
| RulesEngine.PairWarning | Prototype1/backend/utils/rulesEngine.js:138-192 | no warning without an analysis or a rule; a warning iff a tag or concern conflict exists; its message is `name + ": " + rule message`, and its condition and type come from the profile label |
| RulesEngine.EvaluatePair | Prototype1/backend/utils/rulesEngine.js:148-192 | the inner loop body yields exactly the specified pair warning |
| RulesEngine.Discover | Prototype1/backend/utils/rulesEngine.js:138-194 | the nested loops push the pair warnings ingredient by ingredient, condition by condition |
| RulesEngine.AnalyzeIngredientConflicts | Prototype1/backend/utils/rulesEngine.js:118-203 | the result is a permutation of the discovered warnings, sorted HIGH > MEDIUM > LOW, with each severity in discovery order |
| RulesEngine.NoAnalysisNoWarnings | Prototype1/backend/utils/rulesEngine.js:141 | an ingredient without `analysis_json` contributes no warning |
| RulesEngine.UnknownConditionsIgnored | Prototype1/backend/utils/rulesEngine.js:145-146 | conditions without a rule, appended after the others, add no warning and raise no error |
| RulesEngine.PairWarningsConcat | Prototype1/backend/utils/rulesEngine.js:144-193 | the conditions loop over a concatenation yields the warnings of each part, in order |
| RulesEngine.UnknownConditionsAnywhere | Prototype1/backend/utils/rulesEngine.js:145-146 | conditions without a rule, at any position among the others, leave one ingredient's warnings unchanged |
| RulesEngine.DiscoveredIgnoresUnknown | Prototype1/backend/utils/rulesEngine.js:138-194 | conditions without a rule, at any position, leave the whole discovered warning list unchanged |
| RulesEngine.PairWarningsBound | Prototype1/backend/utils/rulesEngine.js:144-193 | at most one warning per condition occurrence; each names the ingredient and a ruled condition it came from |
| RulesEngine.DiscoveredBound | Prototype1/backend/utils/rulesEngine.js:138-194 | at most ingredients × conditions warnings |
| RulesEngine.NoOverlapNoWarnings | Prototype1/backend/utils/rulesEngine.js:148-194 | with no tag or concern overlap there is no warning and the verdict is `good` |
| RulesEngine.AllergyTagConflictIsHigh | Prototype1/backend/utils/rulesEngine.js:160-166 | a tag conflict on an allergy whose rule has no concerns gives a HIGH warning of type `allergy` |
| RulesEngine.FirstConcernSetsLevel | Prototype1/backend/utils/rulesEngine.js:169-181 | for any condition and tags, the first concern that matches a rule concern label sets the level to its own level, or MEDIUM when it has none |
| RulesEngine.ConcernOverridesAllergy | Prototype1/backend/utils/rulesEngine.js:160-181 | as written, the first matching concern's level, or MEDIUM when it is absent, overwrites an allergy's HIGH |
| RulesEngine.LowNeedsLowConcern | Prototype1/backend/utils/rulesEngine.js:149-181 | a LOW severity requires a matching concern |
| RulesEngine.CollectedConditionsAreTyped | Prototype1/backend/utils/rulesEngine.js:120-135 | every collected condition gets a type other than `general` |
| RulesEngine.Insert | Prototype1/backend/utils/rulesEngine.js:197-200 | inserting a warning into the sorted list adds exactly that warning |
| RulesEngine.SortBySeverity | Prototype1/backend/utils/rulesEngine.js:197-200 | the comparator sort keeps the multiset of warnings |
| RulesEngine.SortIsRanked | Prototype1/backend/utils/rulesEngine.js:197-200 | the stable comparator sort equals HIGH group ++ MEDIUM group ++ LOW group |
| RulesEngine.RankedIsPermutation | Prototype1/backend/utils/rulesEngine.js:197-200 | the sorted list is a permutation of its input |
| RulesEngine.RankedIsSorted | Prototype1/backend/utils/rulesEngine.js:197-200 | the sorted list is ordered by non-increasing priority |
| RulesEngine.RankedIsStable | Prototype1/backend/utils/rulesEngine.js:197-200 | warnings of equal severity keep their discovery order |
| RulesEngine.GroupsPermutation | Prototype1/backend/utils/rulesEngine.js:197-200 | every warning falls in exactly one severity group |
| RulesEngine.GenerateOverallSummary | Prototype1/backend/utils/rulesEngine.js:218-249 | `good` iff there are no warnings; `not_recommended` iff some are HIGH, with the HIGH count in the message; `caution` iff none are HIGH and more than two are MEDIUM, with the total count in the message; `minor_concerns` otherwise |
| RulesEngine.SummaryPermutationInvariant | Prototype1/backend/utils/rulesEngine.js:218-249 | the verdict depends only on the multiset of warnings, so sorting does not change it |
| AnalysisRoutes.SplitIngredients | Prototype1/backend/routes/analysis.js:67-70 | every element is non-empty, trimmed and free of `,` |
| AnalysisRoutes.TrimAll | Prototype1/backend/routes/analysis.js:69 | each piece is trimmed, in order |
| AnalysisRoutes.KeepNonEmpty | Prototype1/backend/routes/analysis.js:70 | the kept pieces are non-empty pieces of the input |
| AnalysisRoutes.KeepNonEmptyCounts | Prototype1/backend/routes/analysis.js:70 | every non-empty piece is kept as often as it occurs, and every empty one is dropped |
| AnalysisRoutes.KeepNonEmptyConcat | Prototype1/backend/routes/analysis.js:70 | the filter keeps the relative order of the pieces |
| AnalysisRoutes.SplitIngredientsJoin | Prototype1/backend/routes/analysis.js:67-70 | splitting a `,`- or `, `-joined list of such elements gives the list back |
| AnalysisRoutes.Normalize | Prototype1/backend/routes/analysis.js:118 | the key is trimmed and already lower-case |
| AnalysisRoutes.NormalizeIsSchemaKey | Prototype1/backend/models/Ingredient.js:4-10 | the route's `toLowerCase().trim()` key equals the schema's lowercase/trim key and is idempotent |
| AnalysisRoutes.IngredientStore.FindOne | Prototype1/backend/routes/analysis.js:121-123 | found iff the key is stored, with the stored record |
| AnalysisRoutes.IngredientStore.Save | Prototype1/backend/routes/analysis.js:137-143 | a save succeeds iff the normalised key is non-empty (the schema's `required`), new, and the database accepts it; it then stores the record under that key and changes nothing else |
| AnalysisRoutes.Enricher.AnalyzeIngredient | Prototype1/backend/routes/analysis.js:134 | the client's answer for the name and call number; one more call |
| AnalysisRoutes.Run | Prototype1/backend/routes/analysis.js:117-163 | exactly one entry per input name, in input order, with the caller's original name and an analysis |
| AnalysisRoutes.Resolve | Prototype1/backend/routes/analysis.js:114-163 | the loop's entries and final store, call and save counters are those of the specified pass |
| AnalysisRoutes.ResolveOne | Prototype1/backend/routes/analysis.js:117-162 | one iteration is one specified step |
| AnalysisRoutes.ResolveMiss | Prototype1/backend/routes/analysis.js:131-161 | a miss enriches the original name, saves under the normalised key and uses the answer, or uses the fallback when enrichment or the save throws |
| AnalysisRoutes.StepHit | Prototype1/backend/routes/analysis.js:125-130 | a hit uses the stored analysis as-is, with no enrichment call and no write |
| AnalysisRoutes.StepMiss | Prototype1/backend/routes/analysis.js:131-161 | a miss makes one enrichment call; a thrown enrichment skips the save; a saved answer is stored and used; any failure yields the fallback record |
| AnalysisRoutes.RunMonotone | Prototype1/backend/routes/analysis.js:117-163 | no stored record is changed or removed, and at most one enrichment call is made per name |
| AnalysisRoutes.RunPrefixGrows | Prototype1/backend/routes/analysis.js:117-163 | a later point of the loop only has more records |
| AnalysisRoutes.RepeatIsHit | Prototype1/backend/routes/analysis.js:117-148 | a name whose key was stored earlier in the same pass is a hit and costs no enrichment call |
| AnalysisRoutes.RunKeysWithoutFailures | Prototype1/backend/routes/analysis.js:117-163 | when enrichment returns and the database accepts every save, the store ends with exactly the old keys plus the non-blank keys of the names |
| AnalysisRoutes.RunWithoutFailures | Prototype1/backend/routes/analysis.js:117-163 | when nothing fails and no name is blank, the number of enrichment calls equals the number of distinct keys not already cached |
| AnalysisRoutes.FallbackAnswerIsCached | Prototype1/backend/routes/analysis.js:133-148 | a fallback answer returned by the client is saved and read from the store later |
| AnalysisRoutes.BlankNameFallsBack | Prototype1/backend/routes/analysis.js:131-161 | a name whose key is blank fails the save, so it is answered with the fallback record and nothing is stored |
| AnalysisRoutes.RunNeverStoresBlank | Prototype1/backend/routes/analysis.js:117-163 | a pass never stores a record under the blank key |
| AnalysisRoutes.ProductName | Prototype1/backend/routes/analysis.js:171 | an absent or empty product name becomes `Unknown Product` |
| AnalysisRoutes.Project | Prototype1/backend/routes/analysis.js:174-178 | `ingredients_analyzed[i]` is the name, type and tags of entry i |
| AnalysisRoutes.AssembleReport | Prototype1/backend/routes/analysis.js:166-187 | the report holds the product name, the ranked warnings and their summary, one projected ingredient per entry with their number, the timestamp, and the profile's age group and list lengths |
| AnalysisRoutes.AnalyzeIngredients | Prototype1/backend/routes/analysis.js:102-192 | a missing, non-array or empty list gives a 400 and a missing profile gives a 400, both before any store or enrichment access; otherwise the report of the resolved entries |
| AnalysisRoutes.ReportShape | Prototype1/backend/routes/analysis.js:166-187 | one analysed ingredient per requested name, in order; `total_ingredients` is their number; the warnings are the discovered ones, reordered; the verdict is their summary; the profile summary is the age group and the three list lengths |
| AnalysisRoutes.ReportOfEntries | Prototype1/backend/routes/analysis.js:166-187 | for any resolved entries, one projected ingredient per entry, the discovered warnings reordered, and the profile counts |
| AnalysisRoutes.GetIngredient | Prototype1/backend/routes/analysis.js:206-216 | a 404 iff the normalised path name is not stored; otherwise the stored record |
| AnalysisRoutes.LookupAfterRun | Prototype1/backend/routes/analysis.js:206-216 | a name that was cached or saved during a pass can be looked up after it |
| JsObject.Get | Prototype1/src/components/ConfirmationView.jsx:205 | `undefined` iff the key is absent; otherwise the key's value |
| JsObject.Set | Prototype1/src/components/ConfirmationView.jsx:205 | assigning an existing key keeps its place; a new key is appended |
| JsObject.SetGet | Prototype1/src/components/ConfirmationView.jsx:205 | assignment keeps keys distinct, makes the key read the value and leaves every other key unchanged |
| ConfirmationView.Unlabelled | Prototype1/src/components/ConfirmationView.jsx:8 | each name becomes `{ingredient, percent: null}`, in order |
| ConfirmationView.InitialList | Prototype1/src/components/ConfirmationView.jsx:7-8 | the scanned list when present; otherwise `ingredients_list` without percentages; otherwise empty |
| ConfirmationView.ItemTexts | Prototype1/src/components/ConfirmationView.jsx:20-21 | each item shows as `ingredient (percent)` when the percent is non-empty, as the ingredient otherwise |
| ConfirmationView.EditedText | Prototype1/src/components/ConfirmationView.jsx:20-22 | the empty list shows as empty text; when no item text holds a comma, splitting at `,` gives the first item text and then each later one behind its `, ` blank |
| ConfirmationView.LazyStop | Prototype1/src/components/ConfirmationView.jsx:125 | the lazy `(.*?)` stops at the first position where the rest of the pattern matches, on one line |
| ConfirmationView.MatchPercent | Prototype1/src/components/ConfirmationView.jsx:125 | no match iff no stopping point lets `\s*\(([^)]+)\)$` match; group 2 is non-empty and free of `)`; group 1 is a prefix of the text |
| ConfirmationView.ParseItem | Prototype1/src/components/ConfirmationView.jsx:124-129 | the ingredient and percent come out trimmed; the percent is free of `)`; nothing gains a `,` |
| ConfirmationView.ParseIngredients | Prototype1/src/components/ConfirmationView.jsx:122-130 | every parsed item has a non-empty, trimmed, comma-free ingredient and a trimmed percent free of `,` and `)` |
| ConfirmationView.KeepNamed | Prototype1/src/components/ConfirmationView.jsx:130 | every kept item has a non-empty ingredient and comes from the input |
| ConfirmationView.KeepNamedCounts | Prototype1/src/components/ConfirmationView.jsx:130 | every item with an ingredient is kept as often as it occurs; items with an empty one are dropped |
| ConfirmationView.KeepNamedConcat | Prototype1/src/components/ConfirmationView.jsx:130 | the filter keeps the relative order of the items |
| ConfirmationView.NoGroupNoMatch | Prototype1/src/components/ConfirmationView.jsx:125 | a text that does not end in a `(...)` group does not match |
| ConfirmationView.StopsAfterName | Prototype1/src/components/ConfirmationView.jsx:125 | in `name (p)` the lazy group stops exactly after the name |
| ConfirmationView.ParseItemText | Prototype1/src/components/ConfirmationView.jsx:123-129 | the text of a printable item, with or without a leading blank, reads back as the item |
| ConfirmationView.EditedTextRoundTrip | Prototype1/src/components/ConfirmationView.jsx:118-131 | parse(format(items)) = items for printable items, which the controlled textarea relies on |
| ConfirmationView.InitialListRoundTrip | Prototype1/src/components/ConfirmationView.jsx:7-22 | a plain extracted list shows as its names joined by `, ` and reads back as the same names without percentages |
| ConfirmationView.EntryLines | Prototype1/src/components/ConfirmationView.jsx:195-196 | one `key: value` line per property, in order |
| ConfirmationView.MatchEntry | Prototype1/src/components/ConfirmationView.jsx:203-205 | a match gives a trimmed key free of `:` and a trimmed value |
| ConfirmationView.NonBlank | Prototype1/src/components/ConfirmationView.jsx:200 | only lines that are non-blank after trimming are kept |
| ConfirmationView.NonBlankCounts | Prototype1/src/components/ConfirmationView.jsx:200 | every non-blank line is kept as often as it occurs; blank lines are dropped |
| ConfirmationView.NonBlankConcat | Prototype1/src/components/ConfirmationView.jsx:200 | the filter keeps the relative order of the lines |
| ConfirmationView.ParseNutrition | Prototype1/src/components/ConfirmationView.jsx:199-208 | the assignment loop builds the specified table, with distinct keys |
| ConfirmationView.NutritionTable | Prototype1/src/components/ConfirmationView.jsx:198-208 | the table parsed from the text has distinct keys |
| ConfirmationView.TableOfDistinct | Prototype1/src/components/ConfirmationView.jsx:202-207 | the assignments of any line list leave the keys distinct |
| ConfirmationView.LaterLineWins | Prototype1/src/components/ConfirmationView.jsx:202-207 | a matching line sets its key and a later duplicate overwrites it; a non-matching line changes nothing |
| ConfirmationView.MatchEntryLine | Prototype1/src/components/ConfirmationView.jsx:195-205 | the line of a printable entry matches and gives the entry back |
| ConfirmationView.NutritionRoundTrip | Prototype1/src/components/ConfirmationView.jsx:195-208 | formatting a table with trimmed, colon- and line-break-free keys and non-empty, trimmed, single-line values, then parsing, gives it back |
| ConfirmationView.ConfirmAndAnalyze | Prototype1/src/components/ConfirmationView.jsx:29-40 | an empty list sets the error and sends nothing; otherwise the items, product name and table are sent |
| ConfirmationView.OnAnalysisResponse | Prototype1/src/components/ConfirmationView.jsx:43-50 | success hands on `{step: 'results', report}`; failure shows the server's non-empty message or the fixed one |
| ProfileForm.Without | Prototype1/src/components/ProfileForm.jsx:198 | the filter removes every copy of the item and keeps the count of every other item |
| ProfileForm.Toggle | Prototype1/src/components/ProfileForm.jsx:195-201 | a present item is removed with all its copies; an absent one is appended |
| ProfileForm.WithoutConcat | Prototype1/src/components/ProfileForm.jsx:198 | the filter keeps the order of the remaining items |
| ProfileForm.ToggleTwice | Prototype1/src/components/ProfileForm.jsx:195-201 | toggling an absent item twice restores the list |
| ProfileForm.ToggleTwicePresent | Prototype1/src/components/ProfileForm.jsx:195-201 | toggling a present item twice moves it, once, to the end |
| ProfileForm.HandleNutritionConditionChange | Prototype1/src/components/ProfileForm.jsx:186-193 | the toggle is applied to that category only; every other category is unchanged |
| ProfileForm.ToggleSection | Prototype1/src/components/ProfileForm.jsx:203-211 | the keys are kept; the section's flag is negated and every other flag is false, so at most one section is open |
| ProfileForm.CategoryIndex | Prototype1/src/components/ProfileForm.jsx:52-59 | the position of a category among the six keys, or -1 iff it is none of them |
| ProfileForm.Grouped | Prototype1/src/components/ProfileForm.jsx:52-67 | each category's list holds the conditions of its entries in order; entries of other categories are dropped |
| ProfileForm.LoadConditions | Prototype1/src/components/ProfileForm.jsx:52-67 | the push loop builds the grouped lists |
| ProfileForm.FlattenConditions | Prototype1/src/components/ProfileForm.jsx:260-268 | the nested loops push `{category, condition}` in key order, then list order |
| ProfileForm.GroupedFlat | Prototype1/src/components/ProfileForm.jsx:260-268 | nested → flat → nested is the identity |
| ProfileForm.FlatUpToCategories | Prototype1/src/components/ProfileForm.jsx:260-268 | the flat list is ordered by category key |
| ProfileForm.GetTotalConditions | Prototype1/src/components/ProfileForm.jsx:295-297 | the condition count equals the length of the flattened list |
| ProfileForm.HandleSubmit | Prototype1/src/components/ProfileForm.jsx:244-278 | a missing age group, checked first, or a missing activity level sets the error and sends nothing; otherwise the request has no dietary preferences and `getTotalConditions` entries, and loading it gives the form back |
| ProfileForm.SubmittedConditionsAreHealthConditions | Prototype1/src/components/ProfileForm.jsx:270-276 | the form sends no dietary preferences, so the rules engine types a selected lifestyle condition as a health condition |
| ProfileForm.OnSaveResponse | Prototype1/src/components/ProfileForm.jsx:280-289 | success hands the stored profile on; failure shows the server's non-empty message or the fixed one |
| ScanHistory.FoodTypeKey | Prototype1/src/components/ScanHistory.jsx:61 | an absent or empty food type counts as `Other` |
| ScanHistory.Histogram | Prototype1/src/components/ScanHistory.jsx:58-64 | the chart has at most one key per entry |
| ScanHistory.RegenerateChart | Prototype1/src/components/ScanHistory.jsx:58-64 | the counting loop builds the specified histogram |
| ScanHistory.HistogramCounts | Prototype1/src/components/ScanHistory.jsx:58-64 | each key occurs once, and each food type that occurs holds the number of entries of that type; no other key is present |
| ScanHistory.HistogramPositive | Prototype1/src/components/ScanHistory.jsx:58-64 | every count is at least 1 |
| ScanHistory.HistogramTotal | Prototype1/src/components/ScanHistory.jsx:58-64 | the counts add up to the number of itemized entries |
| ScanHistory.TotalIngredients | Prototype1/src/components/ScanHistory.jsx:55 | the length of `itemized_analysis`, or 0 when it is absent |
| ScanHistory.ViewScan | Prototype1/src/components/ScanHistory.jsx:47-64 | the report copies the stored fields; an absent nutrition table reads as empty; the chart is regenerated, and its counts add up to `total_ingredients` |
| ScanHistory.RemoveScan | Prototype1/src/components/ScanHistory.jsx:34 | every kept scan comes from the list, and none has the id |
| ScanHistory.RemoveScanCounts | Prototype1/src/components/ScanHistory.jsx:34 | every scan with another id keeps its number of copies |
| ScanHistory.RemoveScanConcat | Prototype1/src/components/ScanHistory.jsx:34 | the filter keeps the relative order |
| ScanHistory.RemoveScanLength | Prototype1/src/components/ScanHistory.jsx:34 | exactly the scans with that id are removed |
| ScanHistory.HandleDelete | Prototype1/src/components/ScanHistory.jsx:27-39 | declining changes nothing; a successful delete removes the scan; a failed one keeps the list and raises the alert |
| App.App.constructor | Prototype1/src/App.jsx:12-15 | the loading view with no user, profile or analysis |
| App.App.InitializeApp | Prototype1/src/App.jsx:21-52 | a stored session validated by the server leads to the scanner with the fresh user, and its profile when the user has one; anything else leads to login |
| App.App.HandleLogin | Prototype1/src/App.jsx:54-61 | sets the user; goes to the scanner iff the user has a profile, else to the profile form |
| App.App.HandleRegister | Prototype1/src/App.jsx:63-66 | sets the user and always goes to the profile form |
| App.App.HandleLogout | Prototype1/src/App.jsx:68-73 | clears user, profile and analysis, and goes to login |
| App.App.HandleProfileSaved | Prototype1/src/App.jsx:75-79 | stores the profile, sets `hasProfile` with the user's other fields unchanged, and goes to the scanner |
| App.App.HandleAnalysisComplete | Prototype1/src/App.jsx:81-88 | always stores the data; moves to `confirmation` or `results` only for those steps, otherwise the view is unchanged |
| App.App.HandleBackToScanner | Prototype1/src/App.jsx:90-93 | clears the analysis and goes to the scanner |
| App.App.HandleNewAnalysis | Prototype1/src/App.jsx:95-98 | clears the analysis and goes to the scanner |
| App.App.HandleViewScan | Prototype1/src/App.jsx:100-103 | stores `{report}` and goes to results |
| App.App.Navigate | Prototype1/src/App.jsx:105-119 | the four navigation handlers change the view and nothing else |
| App.App.Render | Prototype1/src/App.jsx:121-207 | the error screen shows iff the view is `confirmation` or `results` with no analysis data; the profile form may go back iff the user has a profile |
| App.NoErrorScreen | Prototype1/src/App.jsx:181-207 | every handler keeps "an analysis view has data", so the fallback error screen never shows |

## Left out

- I/O is not modelled: HTTP, the database, `localStorage`, file uploads, timers and
  `async`/`await`. The store, the enrichment client, the confirmation dialog and
  every server answer are parameters or oracles. The loop is modelled as the
  sequential `for` it is, so concurrent passes are not modelled.
- The Gemini client (`geminiApi.js`) is not part of this model. It appears only as
  an oracle that returns an analysis or throws. The real client returns the
  fallback record instead of throwing, so that record gets cached
  (`AnalysisRoutes.FallbackAnswerIsCached`).
- `api.js` is not part of this model, and neither is its request shape.
- The extraction call, and the route code that builds the HTTP responses beyond
  status, message and report, are not part of this model.
- JSX rendering, styling, colour and icon choices, and the doughnut chart are left out.
- Body metrics and BMI are left out (floating point). The form's `body_metrics`
  is not part of `ProfileForm.ProfileData`.
- `loadScans` in the scan list is left out (a fetch and an error string).
- `JsText.Lower` folds only ASCII `A`–`Z`. JavaScript's `toLowerCase` also folds
  other Unicode letters.
- `JsObject` keeps properties in insertion order. JavaScript lists keys that read
  as array indices first, in numeric order. Keys that name `Object.prototype`
  members (`constructor`, `toString`, …) are treated as own properties. In
  the source they would be inherited values:
  - `ScanHistory.Histogram` does not model such a food type turning its count
    into a string.
  - `ProfileForm.Grouped` does not model a category such as `toString` making
    the push throw. The profile schema's category enum rules that out.
- `RulesEngine` models a concern's `level` as absent or one of LOW/MEDIUM/HIGH.
  The schema comment lists only those. Another string would sort with priority
  `undefined` and is not modelled.
- `ConfirmationView.MatchEntry`: the value is the trimmed text after the colon.
  The regex's greedy `\s*` and `.+` make the captured group, once trimmed,
  that same text; `\s*` may also take a leading `\r`, U+2028 or U+2029,
  which `.` cannot. A value holding a line terminator that is not `\n` (`\r`,
  U+2028, U+2029) does not match, because `.` excludes it.
  `ConfirmationView.NutritionRoundTrip` therefore asks for values without any
  line terminator.
- `ConfirmationView.EditedTextRoundTrip` holds only for items that satisfy
  `ConfirmationView.Printable`. Other items can read back differently:
  - Every item needs a non-empty, trimmed ingredient without a comma.
  - An item without a percent needs an ingredient that does not end in a
    `(...)` group: `a (b)` with no percent reads back as `a` with percent `b`.
  - An item with a percent needs a percent that is non-empty and trimmed and
    holds neither `,` nor `)`. An empty percent is not printed, so it reads
    back as no percent.
  - An item with a percent also needs an ingredient whose parentheses are all
    closed and that holds no line terminator: `a(b` with `5%` reads back as
    `a` with percent `b (5%`. An ingredient that ends in a group reads back
    correctly when it has a percent, as `a (b)` with `5%` does.
- AnalysisRoutes.AnalyzeIngredients: the answer 500 ("Failed to analyze
  ingredients") is not modelled. The model's analyses are well formed: tags are
  strings and every concern has a string `condition`. A stored analysis without
  them would make the rules engine throw (`toLowerCase` of `undefined`), and a
  failing profile query would throw as well; both reach the route's `catch`.
- AnalysisRoutes.Run: one clock reading (`now`) stamps every record saved in a
  pass. The source reads `new Date()` once per save, so records of one pass may
  carry different `last_analyzed` times; no property here depends on them.
- `App.App.InitializeApp` takes "a token and a saved user are stored" as one
  input, and the server answers as inputs.
- The stored profile drops `activity_level`, because the profile schema has no
  such path. The form model keeps the field as the form sends it.
