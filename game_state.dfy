/** The state hook of the React rework: every operation is a `prev => next` record update,
    modelled as a function on the `GameState` record. */
module GameStateHook {
  import opened Common
  import opened Timing
  import opened Recipes

  /** `ScreenType`. */
  datatype Screen = Title | RecipeSelect | Cooking | Complete | Album

  /** `GameState`; `cookingProgress` is carried along but no operation changes it. */
  datatype GameState = GameState(
    currentScreen: Screen,
    currentRecipe: Option<Recipe>,
    currentStep: int,
    score: int,
    actionCount: int,
    mixAngle: real,
    drawnPoints: seq<Point>,
    cookingProgress: int,
    timingPhase: int,
    perfectZone: bool,
    holdProgress: int,
    isHolding: bool)


  /** The invariant the hook keeps: a score in [0, 100], a non-negative action count, and a
      step index inside the current recipe's steps. */
  predicate Valid(g: GameState) {
    0 <= g.score <= 100 && g.actionCount >= 0 && g.currentStep >= 0 &&
    (g.currentRecipe.Some? ==> g.currentStep < |g.currentRecipe.value.steps|)
  }

  /** `initialGameState`: the title screen with no recipe, a full score and no progress. */
  function Initial(): (g: GameState)
    ensures Valid(g) && g.currentScreen == Title && g.currentRecipe.None? && g.score == 100
    ensures g.actionCount == 0 && g.drawnPoints == [] && g.holdProgress == 0 && !g.isHolding
  {
    GameState(Title, None, 0, 100, 0, 0.0, [], 0, 0, false, 0, false)
  }

    /** The part of the state that only the current session's progress touches: everything
      except the screen, the recipe, the step index and the score. */
  predicate SameSession(a: GameState, b: GameState) {
    a.currentScreen == b.currentScreen && a.currentRecipe == b.currentRecipe &&
    a.currentStep == b.currentStep && a.score == b.score
  }

  /** `setScreen`. */
  function SetScreen(g: GameState, screen: Screen): (r: GameState)
    ensures r.currentScreen == screen && r.(currentScreen := g.currentScreen) == g
    ensures Valid(g) ==> Valid(r)
  {
    g.(currentScreen := screen)
  }

  /** `startCooking`: the initial record on the cooking screen with the recipe at step 0
      and a full score. */
  function StartCooking(recipe: Recipe): (r: GameState)
    ensures r.currentScreen == Cooking && r.currentRecipe == Some(recipe)
    ensures r.currentStep == 0 && r.score == 100
    ensures r.(currentScreen := Title, currentRecipe := None) == Initial()
    ensures |recipe.steps| > 0 ==> Valid(r)
  {
    Initial().(currentScreen := Cooking, currentRecipe := Some(recipe), currentStep := 0, score := 100)
  }

  /** `incrementAction`: one more action and nothing else. */
  function IncrementAction(g: GameState): (r: GameState)
    ensures r.actionCount == g.actionCount + 1 && r.(actionCount := g.actionCount) == g
    ensures Valid(g) ==> Valid(r)
  {
    g.(actionCount := g.actionCount + 1)
  }

  /** `resetAction`: the current step's progress is cleared. */
  function ResetAction(g: GameState): (r: GameState)
    ensures r.actionCount == 0 && r.drawnPoints == [] && r.holdProgress == 0 && !r.isHolding
    ensures r.(actionCount := g.actionCount, drawnPoints := g.drawnPoints,
               holdProgress := g.holdProgress, isHolding := g.isHolding) == g
    ensures SameSession(r, g)
    ensures Valid(g) ==> Valid(r)
  {
    g.(actionCount := 0, drawnPoints := [], holdProgress := 0, isHolding := false)
  }

  /** Whether `nextStep` is looking at the last step of a recipe. */
  predicate OnLastStep(g: GameState) {
    g.currentRecipe.Some? && g.currentStep + 1 >= |g.currentRecipe.value.steps|
  }

  /** `nextStep`: on the last step the screen becomes the complete screen and the index
      stays; otherwise the index advances and the step's progress is cleared. Without a
      recipe the index advances unchecked. */
  function NextStep(g: GameState): (r: GameState)
    ensures OnLastStep(g) ==> r == g.(currentScreen := Complete)
    ensures !OnLastStep(g) ==>
              r.currentStep == g.currentStep + 1 && r.currentScreen == g.currentScreen &&
              r.currentRecipe == g.currentRecipe && r.score == g.score &&
              r == ResetAction(g).(currentStep := g.currentStep + 1)
    ensures Valid(g) ==> Valid(r)
  {
    var next := g.currentStep + 1;
    if g.currentRecipe.Some? && next >= |g.currentRecipe.value.steps| then
      g.(currentScreen := Complete)
    else
      g.(currentStep := next, actionCount := 0, drawnPoints := [], holdProgress := 0, isHolding := false)
  }

  /** `updateScore`: the score moves by `delta` and is clamped to [0, 100]. */
  function UpdateScore(g: GameState, delta: int): (r: GameState)
    ensures 0 <= r.score <= 100
    ensures 0 <= g.score + delta <= 100 ==> r.score == g.score + delta
    ensures g.score + delta < 0 ==> r.score == 0
    ensures g.score + delta > 100 ==> r.score == 100
    ensures r.(score := g.score) == g
    ensures Valid(g) ==> Valid(r)
  {
    g.(score := Max(0, Min(100, g.score + delta)))
  }

  /** `updateMixAngle`: the angle is stored and counts one action. */
  function UpdateMixAngle(g: GameState, angle: real): (r: GameState)
    ensures r.mixAngle == angle && r.actionCount == g.actionCount + 1
    ensures r.(mixAngle := g.mixAngle, actionCount := g.actionCount) == g
    ensures Valid(g) ==> Valid(r)
  {
    g.(mixAngle := angle, actionCount := g.actionCount + 1)
  }

  /** `addDrawPoint`: the point goes at the end; the earlier points are kept in order. */
  function AddDrawPoint(g: GameState, p: Point): (r: GameState)
    ensures |r.drawnPoints| == |g.drawnPoints| + 1
    ensures r.drawnPoints[..|g.drawnPoints|] == g.drawnPoints && r.drawnPoints[|g.drawnPoints|] == p
    ensures r.(drawnPoints := g.drawnPoints) == g
    ensures Valid(g) ==> Valid(r)
  {
    g.(drawnPoints := g.drawnPoints + [p])
  }

  /** `updateTimingPhase`: phase and window flag as the oscillator reports them. */
  function UpdateTimingPhase(g: GameState, phase: int, isPerfect: bool): (r: GameState)
    ensures r.timingPhase == phase && r.perfectZone == isPerfect
    ensures r.(timingPhase := g.timingPhase, perfectZone := g.perfectZone) == g
    ensures Valid(g) ==> Valid(r)
  {
    g.(timingPhase := phase, perfectZone := isPerfect)
  }

  /** `updateHoldProgress`. */
  function UpdateHoldProgress(g: GameState, progress: int, holding: bool): (r: GameState)
    ensures r.holdProgress == progress && r.isHolding == holding
    ensures r.(holdProgress := g.holdProgress, isHolding := g.isHolding) == g
    ensures Valid(g) ==> Valid(r)
  {
    g.(holdProgress := progress, isHolding := holding)
  }

  /** `playAgain`: the same recipe from the start, or nothing without a recipe. */
  function PlayAgain(g: GameState): (r: GameState)
    ensures g.currentRecipe.Some? ==> r == StartCooking(g.currentRecipe.value)
    ensures g.currentRecipe.None? ==> r == g
  {
    if g.currentRecipe.Some? then StartCooking(g.currentRecipe.value) else g
  }

  /** `goToMenu`: the initial record on the recipe selection screen. */
  function GoToMenu(g: GameState): (r: GameState)
    ensures r.currentScreen == RecipeSelect && r.(currentScreen := Title) == Initial()
    ensures Valid(r)
  {
    Initial().(currentScreen := RecipeSelect)
  }

  /** `nextStep` applied n times. */
  function NextSteps(g: GameState, n: nat): GameState {
    if n == 0 then g else NextStep(NextSteps(g, n - 1))
  }

  /** A session of a recipe with k steps: the first k - 1 completions walk the index to the
      last step; the k-th and every later one show the complete screen and leave the index
      on the last step, which is never passed. */
  lemma {:induction false} SessionWalk(recipe: Recipe, n: nat)
    requires |recipe.steps| > 0
    ensures var g := NextSteps(StartCooking(recipe), n);
            g.currentRecipe == Some(recipe) && g.score == 100 &&
            g.currentStep == Min(n, |recipe.steps| - 1) &&
            (g.currentScreen == Complete <==> n >= |recipe.steps|) &&
            (n < |recipe.steps| ==> g.currentScreen == Cooking)
  {
    if n > 0 {
      SessionWalk(recipe, n - 1);
    }
  }
}
