# Wakuwaku cooking and terminal Tetris, modelled in Dafny

This project models the core of two small games from one repository.

**The cooking mini-game.** A child picks a recipe and completes its steps one by one:
tapping, stirring, dragging, cutting, holding, tapping in time with an oscillating gauge,
or drawing. A score starts at 100. The stars earned are recorded per recipe. The total
star count unlocks further recipes, and every finished dish goes into an album capped at
50 entries. Two implementations exist and both are modelled:

- the legacy single-class `game.js` (module `LegacyKitchen`, class `Kitchen`);
- the React rework, which is modelled in these modules:
  - `Recipes`: the catalogue and its lookups;
  - `GameStateHook`: the state hook, as functions on an immutable state record;
  - `CookingScreenComponent`: the input handling of the cooking screen, as a class;
  - `Storage`: the persisted progress, as a class;
  - `CompleteScreen`: the result screen.

Two modules are shared by both implementations. `Progress` holds the star table, the
unlock rule, the one-way unlock list and the capped album. `Timing` holds the oscillating
timing gauge.

**Tetris.** Module `Shapes` models `tetris/shapes.py`: it parses the pictures of the
seven tetrominoes and builds their four-step rotation cycles by turning each picture
clockwise. Module `Tetris` models `tetris/game.py` and has three classes:

- `Board`: the grid, placement tests, locking and line clearing;
- `PieceBag`: the shuffled queue of piece names;
- `TetrisGame`: moves, rotation with wall kicks, gravity, hard drop, scoring, levels and
  the ghost piece.

Each operation is proved against a specification. For functions, the `ensures` clauses
give the meaning of the result. Lemmas relate operations to each other: inverses,
preserved invariants, monotonicity, idempotence, and closed forms. Methods that change
state state their whole new state in terms of specification functions of the old state.

Randomness, clocks and timers are not modelled as hidden effects:

- `random.shuffle` becomes a `shuffle` parameter, which must be a permutation of the
  seven names;
- `Date.now()` becomes a `now` parameter;
- the legacy step-start timer, the React hold interval and both oscillator frame
  callbacks become separate methods that the environment calls: `StepTimerFires`,
  `HoldTick` and the two `AnimationFrame` methods;
- the React screen's 500 ms delay before `nextStep` is not modelled (see Left out).

## Model

| member | source | states |
|---|---|---|
| Recipes.FindById | wakuwaku-cooking/src/data/recipes.ts:383-385 | A recipe is found exactly when some entry has the id. The one found is the first entry with that id. |
| Recipes.Catalogue | wakuwaku-cooking/src/data/recipes.ts:4-380 | The six recipes, in array order. Their ids are distinct and each has a step (see `CatalogueIdsDistinct` and `CatalogueStepsNonEmpty`). |
| Recipes.GetRecipeById | wakuwaku-cooking/src/data/recipes.ts:383-385 | A found recipe is in the catalogue and has the id. None means no catalogue recipe has the id. |
| Recipes.UnlockedFrom | wakuwaku-cooking/src/data/recipes.ts:388-390 | The filter keeps exactly the recipes whose threshold (missing means 0) is at most the star count, and is no longer than its input. |
| Recipes.GetUnlockedRecipes | wakuwaku-cooking/src/data/recipes.ts:388-390 | A recipe is unlocked exactly when it is in the catalogue and its threshold is at most the stars. |
| Recipes.UnlockedInOrder | wakuwaku-cooking/src/data/recipes.ts:388-390 | The unlocked list keeps the catalogue order (it is a subsequence). |
| Recipes.UnlockedMonotone | wakuwaku-cooking/src/data/recipes.ts:388-390 | More stars never lock a recipe again: the list for fewer stars is a subsequence of the list for more. |
| Recipes.OmeletteAlwaysUnlocked | wakuwaku-cooking/src/data/recipes.ts:7-11 | With any non-negative star count, the omelette (threshold 0) is unlocked and comes first. |
| Recipes.LookupFindsEveryRecipe | wakuwaku-cooking/src/data/recipes.ts:4-385 | Looking up any catalogue recipe by its id returns that recipe. |
| Recipes.CatalogueIdsDistinct | wakuwaku-cooking/src/data/recipes.ts:4-380 | No two catalogue recipes share an id. |
| Recipes.CatalogueStepsNonEmpty | wakuwaku-cooking/src/data/recipes.ts:4-380 | Every catalogue recipe has at least one step. |
| Progress.Lookup | wakuwaku-cooking/src/utils/storageManager.ts:49-51 | A missing recipe reads as 0 stars. Otherwise, when keys are distinct, the result is the value stored under the key. |
| Progress.Store | wakuwaku-cooking/src/utils/storageManager.ts:72-75 | After a store, the key is present. |
| Progress.HasKeyCons | wakuwaku-cooking/src/utils/storageManager.ts:72-75 | A key is in a table with one more entry exactly when it is that entry's key or was already in the table. |
| Progress.StoreKeys | wakuwaku-cooking/src/utils/storageManager.ts:72-75 | A store adds exactly its own key to the key set. |
| Progress.StoreDistinct | wakuwaku-cooking/src/utils/storageManager.ts:72-75 | A store keeps the keys distinct, so the table stays a dictionary. |
| Progress.StoreLookup | wakuwaku-cooking/src/utils/storageManager.ts:72-75 | A store's key reads back the stored value, and every other key keeps its value. |
| Progress.StoreTotal | wakuwaku-cooking/src/utils/storageManager.ts:77-80 | The sum of the values changes by the new value minus the old value for the key. |
| Progress.Total | wakuwaku-cooking/src/utils/storageManager.ts:77-80 | The sum of the stored values. `TotalBounds` bounds it and `StoreTotal` gives its change under a store. |
| Progress.RecordBest | wakuwaku-cooking/src/utils/storageManager.ts:72-75 | The key ends up present exactly when it was present before or the new star count is positive. |
| Progress.RecordBestLookup | game.js:1046-1050 | After the best-score update, the recipe reads the larger of its old and new stars. Other recipes are unchanged. |
| Progress.RecordBestInvariants | wakuwaku-cooking/src/utils/storageManager.ts:72-80 | The update keeps keys distinct and keeps values in 0..3. The total rises by exactly the improvement, never falling. |
| Progress.TotalBounds | wakuwaku-cooking/src/utils/storageManager.ts:77-80 | A table of star values (0..3) sums to between 0 and three times its size. |
| Progress.StoreStarValues | wakuwaku-cooking/src/utils/storageManager.ts:72-75 | Storing a value in 0..3 keeps every value in 0..3. |
| Progress.UnlockKeepsPrefix | wakuwaku-cooking/src/utils/storageManager.ts:107-125 | Unlocking only appends: the old list is a prefix of the new one. |
| Progress.Unlock | wakuwaku-cooking/src/utils/storageManager.ts:117-124 | One pass over the table in entry order: an id meeting its threshold and not yet listed is appended. Its lemmas follow. |
| Progress.Qualifies | wakuwaku-cooking/src/utils/storageManager.ts:117-119 | An id qualifies when some table row for it needs at most the total. |
| Progress.UnlockMembers | wakuwaku-cooking/src/utils/storageManager.ts:107-125 | An id is unlocked afterwards exactly when it was already unlocked or its table threshold is at most the total. |
| Progress.UnlockNoDuplicates | wakuwaku-cooking/src/utils/storageManager.ts:118-121 | Unlocking never lists an id twice. |
| Progress.UnlockIdempotent | wakuwaku-cooking/src/utils/storageManager.ts:107-125 | Unlocking twice with the same total has the same result as unlocking once. |
| Progress.AlreadyUnlocked | wakuwaku-cooking/src/utils/storageManager.ts:107-125 | When every qualifying id is already unlocked, the list is unchanged. |
| Progress.UnlockMonotone | wakuwaku-cooking/src/utils/storageManager.ts:107-125 | An id unlocked at some total is also unlocked at any higher total. |
| Progress.AddNewest | wakuwaku-cooking/src/utils/storageManager.ts:87-101 | The album gains the dish at the front, keeps the previous entries in order, and is truncated to 50. |
| Storage.Load | wakuwaku-cooking/src/utils/storageManager.ts:22-32 | Nothing stored, or unparsable text, loads the defaults. A parsed object overrides the defaults field by field. |
| Storage.LoadSaved | wakuwaku-cooking/src/utils/storageManager.ts:22-32 | Loading what was saved gives back the same data (round trip). |
| Storage.LoadEmpty | wakuwaku-cooking/src/utils/storageManager.ts:6-12 | An empty saved object loads the defaults. |
| Storage.UnlockTableMatchesCatalogue | wakuwaku-cooking/src/utils/storageManager.ts:108-115 | The hard-coded unlock table lists, for each catalogue recipe, its id and threshold. |
| Storage.UnlockTable | wakuwaku-cooking/src/utils/storageManager.ts:108-115 | The six thresholds of the React table, in entry order. `UnlockTableMatchesCatalogue` ties them to the catalogue. |
| Storage.QualifiesAgreesWithCatalogue | wakuwaku-cooking/src/utils/storageManager.ts:108-115 | An id qualifies in the table exactly when a catalogue recipe with that id has a threshold at most the total. |
| Storage.QualifiedIsListed | wakuwaku-cooking/src/data/recipes.ts:388-390 | Every id the storage unlocks is shown by the recipe list. |
| Storage.ListedQualifies | wakuwaku-cooking/src/data/recipes.ts:388-390 | Every recipe the list shows is unlocked by the storage. |
| Storage.UnlockAgreesWithCatalogue | wakuwaku-cooking/src/utils/storageManager.ts:107-125 | After unlocking, an id is unlocked exactly when it was before or a catalogue recipe with it is within the total. |
| Storage.StorageManager.constructor | wakuwaku-cooking/src/utils/storageManager.ts:17-32 | The manager starts valid, holding what `load` returns. |
| Storage.StorageManager.GetRecipeStars | wakuwaku-cooking/src/utils/storageManager.ts:49-51 | Returns the stored stars for the recipe, or 0 when it has none. |
| Storage.StorageManager.IsRecipeUnlocked | wakuwaku-cooking/src/utils/storageManager.ts:59-61 | True exactly when the id is in the unlock list. |
| Storage.StorageManager.CompleteDish | wakuwaku-cooking/src/utils/storageManager.ts:64-104 | Keeps the best stars. Recomputes the total only on an improvement. Unlocks by the new total. Prepends the dish to the capped album. Totals that agreed with the table still agree. |
| Storage.StorageManager.RecordDish | wakuwaku-cooking/src/utils/storageManager.ts:72-80 | Best-stars update and conditional total, keeping the total equal to the table sum. |
| Storage.StorageManager.CheckAndUnlockRecipes | wakuwaku-cooking/src/utils/storageManager.ts:107-125 | The unlock list becomes the one-way unlock of the table at the current total. |
| Storage.StorageManager.AddToAlbum | wakuwaku-cooking/src/utils/storageManager.ts:87-101 | The album becomes the capped list with the dish in front. |
| Storage.StorageManager.AddAchievement | wakuwaku-cooking/src/utils/storageManager.ts:138-145 | Adds the id only when it is new, reports whether it did, and the id is present afterwards. |
| Storage.StorageManager.Reset | wakuwaku-cooking/src/utils/storageManager.ts:148-151 | All progress returns to the defaults. |
| Timing.NextPhase | game.js:525-533 | Each frame advances the phase by 2 degrees and wraps at 360, staying in 0..359. |
| Timing.PhaseAfter | game.js:521-535 | After any number of frames, the phase is in 0..359. |
| Timing.PhaseAfterClosedForm | game.js:525-533 | After n frames from 0, the phase is 2n mod 360. |
| Timing.PhaseFirstCycle | game.js:525-533 | Within the first 180 frames, the phase is exactly 2n. |
| Timing.PhasePeriodic | game.js:525-533 | The gauge repeats every 180 frames. |
| Timing.PhaseCycles | game.js:525-533 | After q full cycles plus m frames, the phase is 2m. |
| Timing.PerfectFrames | game.js:527-531 | The gauge is in the perfect zone (strictly between 160 and 200 degrees) exactly on frames 81..99 of each cycle. |
| Timing.InPerfectZone | wakuwaku-cooking/src/components/screens/CookingScreen.tsx:574 | The window test: strictly between 160 and 200 degrees. `PerfectFrames` says which frames pass it. |
| Timing.PerfectWithinCycle | game.js:521-535 | Within any 180 consecutive frames, there is a perfect frame. |
| LegacyKitchen.FindRecipe | game.js:289-307 | A found recipe is in the list and has the id. None means no recipe has it. |
| LegacyKitchen.Catalogue | game.js:19-109 | The six legacy recipes, in object order. `CatalogueWellFormed` and `CatalogueHasSteps` give their shape. |
| LegacyKitchen.CatalogueWellFormed | game.js:19-118 | Every legacy recipe has steps, and every tap, mix and swipe step has a positive required count. |
| LegacyKitchen.CatalogueHasSteps | game.js:19-118 | Every legacy recipe has at least one step. |
| LegacyKitchen.StarsFor | game.js:1044 | 3 stars for 90 or more, 2 for 70..89, and 1 below 70. |
| LegacyKitchen.Kitchen.constructor | game.js:7-16 | Starts with no recipe and each saved field or its default; "omurice" is unlocked by default. The last position and both gesture starts begin absent, so a release before any press is ignored. |
| LegacyKitchen.Kitchen.SelectRecipe | game.js:289-307 | Installs the session (`SessionStarted`): the recipe and its id, step 0, score 100, a fresh `gameState` in which a timing first step has run its first gauge frame, and the saved progress untouched. |
| LegacyKitchen.Kitchen.HandleInput | game.js:345-378 | No recipe or step: nothing changes. Otherwise it records the position, and then the effect is `Dispatched` for the current step and event. Input that the step ignores changes nothing more. Only a timing step changes the score. A step advances at most once, and each advance schedules a start. |
| LegacyKitchen.Kitchen.Dispatch | game.js:355-377 | `Dispatched`, case by step kind and event kind: a tap press counts and completes at the count; a mix move with a known position counts a turn past 0.1 and completes at five times the count; a drag or swipe press records the start at the last position; a drag release after a start completes exactly when the pointer went more than 50 down, and clears the start; a swipe release after a start counts a move of more than 50 in either axis, completes at the count, and clears the start; a timing press scores +10 and completes in the window, and -10 outside it; a draw press or move appends the last position, and a release completes above 20 points. Every other pair changes nothing. |
| LegacyKitchen.Kitchen.HandleTap | game.js:380-400 | Counts the tap and completes the step once the count is reached. |
| LegacyKitchen.Kitchen.HandleMix | game.js:402-420 | A stir farther than the threshold stores the angle and counts an action. The step completes at count times 5 actions. |
| LegacyKitchen.Kitchen.HandleDrag | game.js:422-429 | Ends the drag. The step completes exactly when the pointer moved down more than 50 from the press. |
| LegacyKitchen.Kitchen.HandleSwipe | game.js:431-455 | A swipe longer than 50 in either axis counts. The step completes when the count is reached. The swipe start is cleared. |
| LegacyKitchen.Kitchen.HandleTimingTap | game.js:457-466 | In the perfect zone the step completes. Outside it the score drops by 10, not below 0, and the step stays. |
| LegacyKitchen.Kitchen.HandleDraw | game.js:468-474 | Appends the last pointer position to the drawn points. |
| LegacyKitchen.Kitchen.CheckDrawComplete | game.js:476-480 | Completes the step exactly when more than 20 points are drawn. |
| LegacyKitchen.Kitchen.CompleteStep | game.js:537-551 | Advances the step index by one and schedules the next step's start. |
| LegacyKitchen.Kitchen.StepTimerFires | game.js:548-550 | One scheduled start is consumed. With a recipe, `startCookingStep` runs (`StepStarted`): on a step its progress resets and a timing step starts the gauge, with the saved progress untouched; past the last step the cooking completes. Without a recipe nothing else changes. |
| LegacyKitchen.Kitchen.StartCookingStep | game.js:483-503 | Resets the gesture state for the current step and starts the timing gauge for a timing step. Past the last step, it completes the cooking. |
| LegacyKitchen.Kitchen.StartTimingGame | game.js:521-535 | The gauge runs its first frame from phase 0. |
| LegacyKitchen.Kitchen.AnimationFrame | game.js:525-533 | On a timing step, advances the gauge one frame and updates the perfect zone; otherwise nothing changes. |
| LegacyKitchen.Kitchen.CompleteCooking | game.js:1042-1061 | Records the best stars for the score, sets the total to the table sum, unlocks by the total, and saves the dish to the capped album. |
| LegacyKitchen.Kitchen.RecordStars | game.js:1046-1052 | Best-stars update, with the total recomputed as the table sum. |
| LegacyKitchen.Kitchen.CheckUnlocks | game.js:1063-1078 | The unlock list becomes the one-way unlock of the legacy table at the total. |
| LegacyKitchen.UnlockTable | game.js:1064-1070 | The five legacy thresholds, in entry order, as `CheckUnlocks` walks them. |
| LegacyKitchen.Kitchen.ShowCompleteScreen | game.js:1080-1124 | Saves the dish, with its stars, at the front of the capped album. |
| LegacyKitchen.Kitchen.SaveToAlbum | game.js:1151-1171 | The album becomes the capped list with the new item in front. |
| LegacyKitchen.Kitchen.PlayAgain | game.js:1211-1214 | Installs the same session as `selectRecipe` for the current recipe id (`SessionStarted`): step 0, score 100, a fresh `gameState`, and the saved progress untouched. |
| LegacyKitchen.Kitchen.ConfirmExit | game.js:1216-1222 | On confirmation, leaves the recipe; otherwise nothing changes. |
| CompleteScreen.Evaluate | wakuwaku-cooking/src/components/screens/CompleteScreen.tsx:57-80 | Both directions of each band: 90+ is 3 stars and PERFECT, 70..89 is 2 and GOOD, 50..69 is 1 and OK, below 50 is 1 and BAD. Confetti shows exactly at 2 stars or more. |
| CompleteScreen.EvaluateMonotone | wakuwaku-cooking/src/components/screens/CompleteScreen.tsx:62-74 | A higher score never earns fewer stars. |
| CompleteScreen.StarsAgreeWithLegacy | wakuwaku-cooking/src/components/screens/CompleteScreen.tsx:62-74 | The rework awards the same stars as the legacy game for every score. |
| GameStateHook.SetScreen | wakuwaku-cooking/src/hooks/useGameState.ts:26-28 | Only the screen changes, and validity is kept. |
| GameStateHook.Initial | wakuwaku-cooking/src/hooks/useGameState.ts:5-18 | The title screen with no recipe, score 100 and no progress, which satisfies the hook's invariant. |
| GameStateHook.StartCooking | wakuwaku-cooking/src/hooks/useGameState.ts:31-39 | A fresh session: cooking screen, the recipe, step 0, score 100, and everything else initial. |
| GameStateHook.IncrementAction | wakuwaku-cooking/src/hooks/useGameState.ts:42-47 | Only the action count changes, by one. |
| GameStateHook.ResetAction | wakuwaku-cooking/src/hooks/useGameState.ts:50-58 | Clears the action count, the points, the hold progress and the holding flag. Every other field is kept, as `...prev` keeps it. |
| GameStateHook.NextStep | wakuwaku-cooking/src/hooks/useGameState.ts:61-80 | On the last step, only the screen turns to Complete. Otherwise the index advances by one with per-step state reset, including holdProgress. |
| GameStateHook.UpdateScore | wakuwaku-cooking/src/hooks/useGameState.ts:83-88 | The score moves by the delta, clamped to 0..100. Nothing else changes. |
| GameStateHook.UpdateMixAngle | wakuwaku-cooking/src/hooks/useGameState.ts:91-97 | Stores the angle and counts an action. Nothing else changes. |
| GameStateHook.AddDrawPoint | wakuwaku-cooking/src/hooks/useGameState.ts:100-105 | Appends exactly the point. Nothing else changes. |
| GameStateHook.UpdateTimingPhase | wakuwaku-cooking/src/hooks/useGameState.ts:108-114 | Stores the phase and the zone flag. Nothing else changes. |
| GameStateHook.UpdateHoldProgress | wakuwaku-cooking/src/hooks/useGameState.ts:117-123 | Stores the progress and the holding flag. Nothing else changes. |
| GameStateHook.PlayAgain | wakuwaku-cooking/src/hooks/useGameState.ts:139-143 | With a recipe, a fresh session of it; without one, nothing changes. |
| GameStateHook.GoToMenu | wakuwaku-cooking/src/hooks/useGameState.ts:146-151 | The initial state on the recipe-select screen. |
| GameStateHook.SessionWalk | wakuwaku-cooking/src/hooks/useGameState.ts:61-80 | For k steps, n completions reach step min(n, k-1). The complete screen shows exactly when n >= k, and the index never passes the last step. |
| CookingScreenComponent.Finish | wakuwaku-cooking/src/components/screens/CookingScreen.tsx:631-773 | A finished gesture advances the step; otherwise the state is untouched. |
| CookingScreenComponent.StepOf | wakuwaku-cooking/src/components/screens/CookingScreen.tsx:50 | A current step is a step of the current recipe. In a valid state with a recipe there always is one. |
| CookingScreenComponent.CountOf | wakuwaku-cooking/src/components/screens/CookingScreen.tsx:628 | A missing or zero count reads as 1, so the count is never 0. A non-zero count is used as given. |
| CookingScreenComponent.StaleHoldTick | wakuwaku-cooking/src/components/screens/CookingScreen.tsx:716-729 | As written, each tick stores the captured progress plus 2, whatever the live progress is. |
| CookingScreenComponent.StaleHoldNeverCompletes | wakuwaku-cooking/src/components/screens/CookingScreen.tsx:716-729 | As written, within one press starting below 100 the step is never left, however many ticks pass: the progress stays at the captured value plus 2. |
| CookingScreenComponent.StaleHoldExample | wakuwaku-cooking/src/components/screens/CookingScreen.tsx:716-729 | From 0, a thousand ticks leave the progress at 2 and the step unchanged. |
| CookingScreenComponent.LiveHoldTick | wakuwaku-cooking/src/components/screens/CookingScreen.tsx:716-729 | Corrected: each tick adds 2 to the live progress. At 100 or more it completes the step. |
| CookingScreenComponent.LiveHoldBuildsUp | wakuwaku-cooking/src/components/screens/CookingScreen.tsx:716-729 | Corrected: from 0, the first 50 ticks build 2 per tick and keep the step. |
| CookingScreenComponent.LiveHoldCompletes | wakuwaku-cooking/src/components/screens/CookingScreen.tsx:716-729 | Corrected: the 51st tick completes the step. |
| CookingScreenComponent.CookingScreen.Mount | wakuwaku-cooking/src/components/screens/CookingScreen.tsx:569-586 | A fresh screen with no gesture or hold, and the gauge running from phase 0 exactly on a timing step. |
| CookingScreenComponent.CookingScreen.RestartOscillator | wakuwaku-cooking/src/components/screens/CookingScreen.tsx:569-586 | The effect re-runs: the gauge runs from phase 0 exactly on a timing step. |
| CookingScreenComponent.CookingScreen.Complete | wakuwaku-cooking/src/components/screens/CookingScreen.tsx:631-773 | A finished gesture advances the step, and the step-keyed gauge effect re-runs: the oscillator restarts at phase 0 with no frames, running only on a timed wait. Otherwise nothing changes, the oscillator included. |
| CookingScreenComponent.CookingScreen.HandleInput | wakuwaku-cooking/src/components/screens/CookingScreen.tsx:600-775 | No step: nothing changes. Otherwise it records the position, and then the effect is `Handled` for the current step and event, oscillator included. The recipe is kept, the step advances at most once, and only a timing step changes the score. |
| CookingScreenComponent.CookingScreen.Dispatch | wakuwaku-cooking/src/components/screens/CookingScreen.tsx:630-774 | `Handled`, case by step kind: the hook state, the interaction and hold refs and the oscillator end up exactly as the handler for that kind (OnTap ... OnDraw below) leaves them, for every event kind. |
| CookingScreenComponent.CookingScreen.OnTap | wakuwaku-cooking/src/components/screens/CookingScreen.tsx:631-648 | Only a press counts; it advances the step when the count is reached. A completing event restarts the oscillator at phase 0; any other leaves it, its phase and its frame count as they were. |
| CookingScreenComponent.CookingScreen.OnMix | wakuwaku-cooking/src/components/screens/CookingScreen.tsx:650-674 | Only a move farther than the threshold records the angle and counts. The step advances at count times 5. A completing event restarts the oscillator at phase 0; any other leaves it, its phase and its frame count as they were. |
| CookingScreenComponent.CookingScreen.OnDrag | wakuwaku-cooking/src/components/screens/CookingScreen.tsx:676-689 | A press starts interacting. Releasing a started drag at a known position advances the step. Anything else changes nothing. A completing event restarts the oscillator at phase 0; any other leaves it, its phase and its frame count as they were. |
| CookingScreenComponent.CookingScreen.OnCut | wakuwaku-cooking/src/components/screens/CookingScreen.tsx:691-709 | A press starts. Each release of a started cut counts and advances at the count. Anything else changes nothing. A completing event restarts the oscillator at phase 0; any other leaves it, its phase and its frame count as they were. |
| CookingScreenComponent.CookingScreen.OnHold | wakuwaku-cooking/src/components/screens/CookingScreen.tsx:711-736 | A press starts the hold. A release stops it, clears the holding flag and keeps the progress where it is. A move changes nothing. |
| CookingScreenComponent.CookingScreen.HoldTick | wakuwaku-cooking/src/components/screens/CookingScreen.tsx:716-729 | Corrected interval: the tick is the live-progress tick, and the hold stops exactly when it completes. A completing tick restarts the oscillator at phase 0; any other leaves it as it was. |
| CookingScreenComponent.CookingScreen.OnWait | wakuwaku-cooking/src/components/screens/CookingScreen.tsx:738-757 | A press in the perfect zone gains 10 and advances. Elsewhere it loses 10, not below 0, and stays. Other input changes nothing. A completing event restarts the oscillator at phase 0; any other leaves it, its phase and its frame count as they were. |
| CookingScreenComponent.CookingScreen.OnDraw | wakuwaku-cooking/src/components/screens/CookingScreen.tsx:759-773 | Press and move at a known position add a point. Release advances exactly when more than 20 points are drawn. A completing event restarts the oscillator at phase 0; any other leaves it, its phase and its frame count as they were. |
| CookingScreenComponent.CookingScreen.AnimationFrame | wakuwaku-cooking/src/components/screens/CookingScreen.tsx:572-577 | One frame: the phase advances by 2 mod 360, and the hook stores it with its perfect flag. |
| CookingScreenComponent.CookingScreen.RunFrames | wakuwaku-cooking/src/components/screens/CookingScreen.tsx:572-577 | After n frames, the phase is the closed-form phase after the frame count, the hook shows it, and nothing else in the hook changes. |
| CookingScreenComponent.CookingScreen.Back | wakuwaku-cooking/src/components/screens/CookingScreen.tsx:778-785 | Confirmed: to the menu, with hold and gauge stopped. Declined: nothing changes. |
| Shapes.FromStrings | tetris/shapes.py:17-24 | The loop collects exactly the '#' cells of the picture, in row-major order. |
| Shapes.Cells | tetris/shapes.py:18-24 | The '#' coordinates in reading order. `CellsMembers` and `CellsIncreasing` give its meaning. |
| Shapes.RowCellsMembers | tetris/shapes.py:21-23 | A cell is collected from a row exactly when it is a '#' of that row. |
| Shapes.CellsFromMembers | tetris/shapes.py:20-23 | A cell is collected from the remaining rows exactly when it is a '#' there. |
| Shapes.CellsMembers | tetris/shapes.py:18-24 | A cell is in the state exactly when the picture has '#' at it. |
| Shapes.IncreasingAppend | tetris/shapes.py:18-24 | Two row-major runs, each wholly before the next, concatenate to a row-major run. |
| Shapes.RowCellsIncreasing | tetris/shapes.py:21-23 | One row's cells come in increasing x. |
| Shapes.CellsFromIncreasing | tetris/shapes.py:20-23 | The remaining rows' cells come in row-major order. |
| Shapes.CellsIncreasing | tetris/shapes.py:18-24 | The state's cells are strictly row-major, so no cell repeats. |
| Shapes.RotateClockwise | tetris/shapes.py:30-34 | The turned picture is square, and its entry (y, x) is the original's (size-1-x, y). |
| Shapes.HalfTurn | tetris/shapes.py:30-34 | Two turns reverse both rows and columns. |
| Shapes.FourTurnsIdentity | tetris/shapes.py:30-34 | Four turns give back the picture. |
| Shapes.TurnedCells | tetris/shapes.py:30-34 | The cells of the turned picture are the original cells, each turned a quarter. |
| Shapes.TurnImageCard | tetris/shapes.py:30-34 | Turning is one-to-one on cells. |
| Shapes.IncreasingCard | tetris/shapes.py:18-24 | A row-major run has as many distinct cells as entries. |
| Shapes.TurnKeepsCellCount | tetris/shapes.py:30-34 | Turning keeps the number of '#' cells. |
| Shapes.Turned | tetris/shapes.py:37-40 | Any number of turns keeps the size, and a turned picture is square. |
| Shapes.Cycle | tetris/shapes.py:37-42 | The cycle has four states. State k holds the cells of the picture turned k times. |
| Shapes.BuildCycle | tetris/shapes.py:37-42 | The loop builds that cycle. State 0 is the base, and each later state is the previous picture turned once more. |
| Shapes.BaseShapeWellFormed | tetris/shapes.py:45-53 | Each base picture is 4 by 4 and has exactly four '#' cells. |
| Shapes.Rotations | tetris/shapes.py:56-58 | Every piece has a four-state cycle. |
| Shapes.BaseShape | tetris/shapes.py:45-53 | The seven 4 by 4 pictures. `BaseShapeWellFormed` shows each is square with four cells. |
| Shapes.RotationStateCells | tetris/shapes.py:56-58 | Every rotation state of every piece has four cells inside the 4 by 4 box. |
| Shapes.TurnedCellCount | tetris/shapes.py:37-42 | Repeated turns keep the picture square and keep its cell count. |
| Shapes.Translate | tetris/shapes.py:61-66 | Each cell shifts by the origin, in order. |
| Shapes.TranslateInverse | tetris/shapes.py:61-66 | Shifting back by the negated origin undoes a shift. |
| Shapes.TranslateCompose | tetris/shapes.py:61-66 | Two shifts are one shift by the sum. |
| Tetris.Rotated | tetris/game.py:29-36 | The index moves by delta, mod 4. Nothing else changes, and a valid cycle gives a well-formed piece. |
| Tetris.CurrentState | tetris/game.py:26-27 | The current rotation state has four cells inside its 4 by 4 square. |
| Tetris.PieceCells | tetris/game.py:47-48 | A piece covers four cells, all within its 4 by 4 box at (x, y). |
| Tetris.RotatedInverse | tetris/game.py:29-36 | Rotating by delta then by -delta gives back the piece. |
| Tetris.FourQuarterTurns | tetris/game.py:29-36 | Four quarter turns give back the piece. |
| Tetris.MovedCells | tetris/game.py:38-48 | The cells of a moved piece are its cells shifted by the move. |
| Tetris.Moved | tetris/game.py:38-45 | The position moves by exactly the offset; the shape and rotation are kept, and so is well-formedness. |
| Tetris.EmptyRow | tetris/game.py:57-59 | A row of the width, all empty. |
| Tetris.EmptyGrid | tetris/game.py:57-59 | The height's number of empty rows. |
| Tetris.EmptyGridSucc | tetris/game.py:81-82 | One more empty row on top is the next taller empty grid. |
| Tetris.Incomplete | tetris/game.py:78 | Keeps exactly the rows with a gap, in order. |
| Tetris.FullRows | tetris/game.py:79 | Full rows plus rows with gaps make up the grid. |
| Tetris.FullRowsAppend | tetris/game.py:79 | Full rows add up over stacked grids. |
| Tetris.FullRowsOfEmpty | tetris/game.py:81-82 | Empty rows are never full. |
| Tetris.FullRowsOfIncomplete | tetris/game.py:78 | The kept rows are never full. |
| Tetris.NoFullRowAfterClear | tetris/game.py:77-83 | After clearing, no row is full. |
| Tetris.ClearedShaped | tetris/game.py:77-83 | Clearing keeps the width and height of the grid. |
| Tetris.Write | tetris/game.py:72-75 | Writing cells keeps the shape of the grid. |
| Tetris.WriteContents | tetris/game.py:72-75 | A grid cell is written exactly when one of the piece's cells lands on it. Other cells keep their content. |
| Tetris.WriteAbove | tetris/game.py:72-75 | Cells above the board write nothing. |
| Tetris.FlatI | tetris/shapes.py:46 | The I piece's first state is the flat bar on row 1. |
| Tetris.Spawned | tetris/game.py:100-106 | A spawned piece is well formed, with index 0, at the spawn point, with its own cycle. |
| Tetris.RotationsValid | tetris/shapes.py:56-58 | Every piece's cycle has four states of four cells. |
| Tetris.DropInterval | tetris/game.py:120-131 | The table value for levels 1..10 and 0.1 otherwise, always in 0.1..0.8. |
| Tetris.DropIntervalMonotone | tetris/game.py:120-131 | Higher levels never fall slower. |
| Tetris.CalculateLevel | tetris/game.py:134-135 | Level n covers lines 10(n-1) to 10n-1, is at least 1, and is capped at 10 from 90 lines. |
| Tetris.LevelMonotone | tetris/game.py:134-135 | More lines never lower the level. |
| Tetris.ScoreForLines | tetris/game.py:138-140 | The table value (40, 100, 300 or 1200) for 1..4 lines, times the level. Any other line count scores 0. |
| Tetris.LineScore | tetris/game.py:139 | The level-1 points: between 0 and 1200, and positive exactly for 1 to 4 lines. |
| Tetris.ScoreRewardsCombos | tetris/game.py:138-140 | Clearing lines together scores more than clearing them separately. |
| Tetris.Board.constructor | tetris/game.py:54-59 | A board of the given size, all empty. |
| Tetris.Board.ClearPathStep | tetris/game.py:180-182 | A clear path extended by one more fitting row is still clear. |
| Tetris.Board.PlaceableWithinWalls | tetris/game.py:61-70 | Corrected placement: a placeable piece lies between the walls and above the floor, so it can be written. |
| Tetris.Board.Inside | tetris/game.py:61-62 | Between the side walls and above the floor. There is no ceiling. |
| Tetris.Board.IsEmptyAsWritten | tetris/game.py:64-67 | As written: any cell above the board counts as empty, even one beyond a side wall. |
| Tetris.Board.IsEmpty | tetris/game.py:64-67 | Corrected: a cell is free only between the walls. It is stricter than the as-written test and agrees with it on every column between the walls. |
| Tetris.Board.CanPlaceAsWritten | tetris/game.py:69-70 | As written: every cell passes the as-written emptiness test. |
| Tetris.Board.CanPlace | tetris/game.py:69-70 | Corrected: every cell is free. A piece that can be placed also passes the as-written test. |
| Tetris.Board.SpawnFits | tetris/game.py:146-156 | On a board whose top two rows are empty, every spawned piece fits. |
| Tetris.Board.LandingUnique | tetris/game.py:178-184 | A piece has only one landing distance. |
| Tetris.Board.LockPiece | tetris/game.py:72-75 | The grid becomes the old grid with the piece's cells written. |
| Tetris.Board.ClearCompleteLines | tetris/game.py:77-83 | Returns the number of full rows. The grid becomes that many empty rows on top of the rows with gaps, in order. |
| Tetris.Board.VisibleRowsOf | tetris/game.py:85-87 | The bottom rows, up to 20 of them, in order. |
| Tetris.Board.WallEscapeAsWritten | tetris/game.py:64-67 | As written, a flat I moved past the left wall above the board fits, cannot fall, and locks to nothing. |
| Tetris.Board.WallEscapeCorrected | tetris/game.py:61-67 | Corrected, a piece with any cell left of the left wall or right of the right wall does not fit, whether above the board or not. |
| Tetris.PieceBag.constructor | tetris/game.py:93-94 | The bag starts empty. |
| Tetris.PieceBag.NextPiece | tetris/game.py:96-106 | An empty bag refills from the shuffle. The last name spawns and leaves the bag. |
| Tetris.Refilled | tetris/game.py:96-102 | The bag is kept unless it is empty. With a valid shuffle the bag drawn from is never empty. |
| Tetris.TetrisGame.Cleared | tetris/game.py:193-199 | The lines grow by the rows cleared, the level follows the lines, and the score grows by the line score at the old level plus any bonus. |
| Tetris.TetrisGame.LockedFromBonus | tetris/game.py:178-184 | A hard drop's bonus adds to the score of the same lock. |
| Tetris.TetrisGame.constructor | tetris/game.py:146-156 | An empty board, a score of 0, level 1, and a current and next piece drawn from the shuffle. |
| Tetris.TetrisGame.TryMove | tetris/game.py:162-167 | Succeeds exactly when the moved piece fits, and moves it then; otherwise nothing changes. |
| Tetris.TetrisGame.TryRotate | tetris/game.py:169-176 | Takes the first wall kick (0, -1, 1, -2, 2) at which the turned piece fits. With none, it fails and nothing changes. |
| Tetris.TetrisGame.SpawnNextPiece | tetris/game.py:201-208 | The next piece moves to the spawn point. If it fits it becomes current with a new next piece; otherwise the game is over. |
| Tetris.TetrisGame.LockPiece | tetris/game.py:193-199 | Writes the piece, clears full rows, scores them at the old level, updates lines and level, and spawns. |
| Tetris.TetrisGame.DropDown | tetris/game.py:180-182 | Drops the piece to its unique landing distance. |
| Tetris.TetrisGame.HardDrop | tetris/game.py:178-184 | Drops to the landing distance, locks, and adds twice the distance to the score. |
| Tetris.TetrisGame.Tick | tetris/game.py:186-191 | Game over: nothing changes. Otherwise it falls one row if it fits, or else locks. Returns whether the game goes on. |
| Tetris.TetrisGame.GhostPiece | tetris/game.py:210-218 | The current piece moved straight down to its landing distance. |

## Left out

- Persistence and presentation are not modelled: localStorage and JSON text, the DOM and
  canvas drawing, audio, confetti, and the curses screen of `tetris/` (main and rendering
  modules). Persisted data enters as the `Stored` value or the constructor's optional
  fields.
- Timers run as explicit methods. The legacy step-start `setTimeout`, the React hold
  `setInterval` and the `requestAnimationFrame` loops are `StepTimerFires`, `HoldTick`
  and `AnimationFrame`. Concurrency, delays and their
  interleaving with input are left to the caller.
- The legacy step start after a completed step is delayed by a timer. The model keeps a
  count of pending starts (`pendingStepStarts`) instead of real times.
- `CookingScreenComponent.CookingScreen.Complete`: in the source every completing handler
  (tap, mix, drag, cut, hold, wait, draw; CookingScreen.tsx:642-645, 667-670, 683-686,
  702-705, 724-727, 745-748, 767-770) calls `nextStep` from a 500 ms `setTimeout`. The model
  applies `nextStep` at once. It therefore does not capture the window in which a second
  completing input on the still-current step schedules a second `nextStep`. In the source
  that skips a step; in the model it cannot happen.
- The result screen's star animation (CompleteScreen.tsx:90-95) is not modelled: it lights
  star i after i times 400 ms with a chime, which is timers and sound only.
- `GameStateHook.NextStep`: React runs the state update later, but the model applies it
  immediately, so a handler sees its own update.
- `CookingScreenComponent.CookingScreen.OnHold`: a second press while holding would leak
  a second interval in React. The model keeps one interval flag.
- The `completeCooking` glue of `useGameState.ts` (126-136) is not modelled. It forwards to
  the storage manager, whose `CompleteDish` is modelled.
- The read-only getters `getAlbum`, `getAchievements`, `getTotalStars` and the like are not
  modelled; they return fields directly.
- A dish's generated id string, toppings and cooking time are not modelled; they do not
  affect progress.
- Pointer geometry is not modelled. `atan2` and the canvas rescaling of pointer positions
  are done by the caller, and the mix angle and position arrive as parameters.
- Shallow copies and aliasing of JavaScript objects are not modelled; records are values.
- The legacy `objects` field (scene sprites) is not modelled.
- Python's `random.shuffle` is a `shuffle` parameter, which must be a permutation of the
  seven names. Distinct names stand in for a multiset permutation.
- `Tetris.TetrisGame.SpawnNextPiece`: Python mutates `next_piece.x` and `next_piece.y` in
  place. The model updates the piece as a value. Nothing else holds that piece, so this
  loses nothing.
- `GameState.board` in Python refers to the same object as the game's board. The model
  keeps the board only in `TetrisGame.board`.
- `Tetris.Board.LockPiece` requires `Writable`: every cell that falls on a row of the grid
  lies between the walls. Python would wrap a negative index to the other end of
  the list. The corrected placement test guarantees that no such index reaches it.
- The game uses the corrected `IsEmpty`/`CanPlace` (see Findings). The as-written tests are
  kept only for the counterexample.
- `Tetris.TetrisGame.constructor`: the `RuntimeError` branch for a first piece that does not
  fit is unreachable on an empty board (`SpawnFits`), so it is not modelled.
- `Tetris.DropInterval`: seconds are Dafny `real` values, not binary floating point.
- `Tetris.TetrisGame.LockPiece` spawns the next piece as the source does. When it does not
  fit, the game is over and the board keeps the locked grid.

## Findings

| source | as written | input that shows it | evidently intended | confidence | as-written member | corrected member |
|---|---|---|---|---|---|---|
| wakuwaku-cooking/src/components/screens/CookingScreen.tsx:716-718 | The hold interval closes over the `gameState` of the press. Every tick stores that captured progress plus 2, so within one press the progress never passes it. | A hold step pressed with progress 0: after 1000 ticks the progress is still 2, and the step does not complete within that press. Each release keeps the value (line 733), so each press-and-release cycle adds only 2, and about 51 presses are needed. | Each tick adds 2 to the current progress, and the step completes on the 51st tick. | not executed | CookingScreenComponent.StaleHoldNeverCompletes | CookingScreenComponent.CookingScreen.HoldTick |
| tetris/game.py:64-67 | `is_empty` returns true for every cell above the board (y < 0), even one outside the side walls. | The flat I piece moved from the spawn point 4 columns left (origin x = -1, y = -2): it fits, it cannot move down, and locking it writes no cell, so the piece vanishes. | A cell is empty only when it lies between the walls, then either above the board or on an empty grid cell. | not executed | Tetris.Board.WallEscapeAsWritten | Tetris.Board.WallEscapeCorrected |
