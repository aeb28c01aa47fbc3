/** The legacy single-file cooking game: one object holds the current recipe, the step
    index, the score, the transient progress of the current step and the saved profile,
    and its methods change them in place. */
module LegacyKitchen {
  import opened Common
  import opened Timing
  import opened Progress

  /** The step kinds of the legacy engine (it has no hold step). */
  datatype StepType = Tap | Mix | Drag | Swipe | Wait | Draw

  /** A step; `count` is absent on drag, wait and draw steps. */
  datatype Step = Step(kind: StepType, target: string, count: Option<int>, timing: bool)

  /** A recipe of the legacy catalogue; name, icon, colour and instructions are display text. */
  datatype Recipe = Recipe(id: string, steps: seq<Step>)

  /** A photo in the album; `id`, `timestamp` and the date text all come from the clock. */
  datatype AlbumItem = AlbumItem(id: int, recipeId: string, stars: int, timestamp: int)

  function TapStep(target: string, count: int): Step { Step(Tap, target, Some(count), false) }
  function MixStep(target: string, count: int): Step { Step(Mix, target, Some(count), false) }
  function SwipeStep(target: string, count: int): Step { Step(Swipe, target, Some(count), false) }
  function DragStep(target: string): Step { Step(Drag, target, None, false) }
  function WaitStep(target: string): Step { Step(Wait, target, None, true) }
  function DrawStep(target: string): Step { Step(Draw, target, None, false) }

  function Omurice(): Recipe {
    Recipe("omurice", [TapStep("egg", 3), MixStep("bowl", 10), DragStep("batter"), WaitStep("cook"),
                       SwipeStep("pan", 3), TapStep("plate", 1), DrawStep("ketchup_art")])
  }

  function Pancake(): Recipe {
    Recipe("pancake", [TapStep("flour", 3), TapStep("egg", 2), TapStep("milk", 3), MixStep("bowl", 15),
                       DragStep("batter"), WaitStep("pancake"), SwipeStep("flip", 1), TapStep("topping", 5)])
  }

  function Curry(): Recipe {
    Recipe("curry", [TapStep("potato", 4), TapStep("carrot", 4), TapStep("onion", 4), TapStep("meat", 5),
                     DragStep("vegetables"), MixStep("pot", 10), TapStep("roux", 3), TapStep("plate", 1)])
  }

  function Hamburger(): Recipe {
    Recipe("hamburger", [TapStep("meat", 3), TapStep("onion", 5), TapStep("egg", 1), MixStep("bowl", 15),
                         TapStep("shape", 5), SwipeStep("pan", 3), WaitStep("cook"), TapStep("sauce", 3)])
  }

  function Cake(): Recipe {
    Recipe("cake", [TapStep("flour", 3), TapStep("sugar", 3), TapStep("egg", 3), MixStep("bowl", 15),
                    WaitStep("oven"), SwipeStep("cream", 5), TapStep("strawberry", 8), DrawStep("decoration")])
  }

  function Cookie(): Recipe {
    Recipe("cookie", [TapStep("flour", 3), TapStep("butter", 2), TapStep("sugar", 2), MixStep("bowl", 15),
                      TapStep("shape", 5), WaitStep("oven"), TapStep("icing", 5), DrawStep("decoration")])
  }

  /** The `recipes` object, in its insertion order. */
  function Catalogue(): seq<Recipe> {
    [Omurice(), Pancake(), Curry(), Hamburger(), Cake(), Cookie()]
  }

  /** `this.recipes[id]`. */
  function FindRecipe(recipes: seq<Recipe>, id: string): (r: Option<Recipe>)
    ensures r.Some? ==> r.value in recipes && r.value.id == id
    ensures r.None? ==> forall i :: 0 <= i < |recipes| ==> recipes[i].id != id
  {
    if recipes == [] then None
    else if recipes[0].id == id then Some(recipes[0])
    else FindRecipe(recipes[1..], id)
  }

  /** A tap, mix or swipe step carries a positive required count. */
  predicate StepWellFormed(s: Step) {
    s.kind == Tap || s.kind == Mix || s.kind == Swipe ==> s.count.Some? && s.count.value > 0
  }

  predicate RecipeWellFormed(r: Recipe) {
    |r.steps| > 0 && forall j :: 0 <= j < |r.steps| ==> StepWellFormed(r.steps[j])
  }

  /** Every recipe of the legacy catalogue has at least one step, and every tap, mix and
      swipe step has a positive required count. */
  lemma CatalogueWellFormed(r: Recipe)
    requires r in Catalogue()
    ensures RecipeWellFormed(r)
  {
    assert RecipeWellFormed(Omurice());
    assert RecipeWellFormed(Pancake());
    assert RecipeWellFormed(Curry());
    assert RecipeWellFormed(Hamburger());
    assert RecipeWellFormed(Cake());
    assert RecipeWellFormed(Cookie());
  }

  /** Hence every catalogue recipe can be started. */
  lemma CatalogueHasSteps()
    ensures forall r :: r in Catalogue() ==> |r.steps| > 0
  {
    forall r | r in Catalogue() ensures |r.steps| > 0 {
      CatalogueWellFormed(r);
    }
  }

  /** The thresholds tested by `checkUnlocks`, in their insertion order. */
  function UnlockTable(): seq<Threshold> {
    [Threshold("pancake", 3), Threshold("curry", 6), Threshold("hamburger", 9),
     Threshold("cake", 12), Threshold("cookie", 15)]
  }

  /** `score >= 90 ? 3 : score >= 70 ? 2 : 1`. */
  function StarsFor(score: int): (stars: int)
    ensures 1 <= stars <= 3
    ensures stars == 3 <==> score >= 90
    ensures stars == 2 <==> 70 <= score < 90
    ensures stars == 1 <==> score < 70
  {
    if score >= 90 then 3 else if score >= 70 then 2 else 1
  }

  /** The step-count threshold of the completion tests; `actionCount >= undefined` is false. */
  predicate Reached(count: Option<int>, factor: int, actions: int) {
    count.Some? && actions >= count.value * factor
  }

  /** The `gameState` record; `objects` is never read and is left out. */
  datatype GameState = GameState(actionCount: int, mixAngle: real, drawnPoints: seq<Point>,
                                 timingPhase: int, perfectZone: bool)

  /** The record `selectRecipe` installs. */
  const FreshGameState := GameState(0, 0.0, [], 0, false)

  ghost predicate GameStateValid(g: GameState) {
    g.actionCount >= 0 && IsPhase(g.timingPhase) && (g.perfectZone <==> InPerfectZone(g.timingPhase))
  }

  /** The pointer events that can change a step's progress, the score or the step index;
      on any other event `handleInput` at most records a position or a gesture start. */
  predicate Reacts(step: StepType, input: InputType) {
    match step
    case Tap => input == Start
    case Mix => input == Move
    case Drag => input == End
    case Swipe => input == End
    case Wait => input == Start
    case Draw => true
  }

  const MixThreshold: real := 0.1
  const GestureThreshold: real := 50.0
  const DrawThreshold := 20

  class Kitchen {
    /** `this.recipes`, filled with the catalogue by the constructor and never changed. */
    const recipes: seq<Recipe>
    var currentRecipe: Option<Recipe>
    var currentRecipeId: string
    var currentStep: int
    var score: int
    var totalStars: int
    var unlockedRecipes: seq<string>
    var recipeStars: StarTable
    var albumItems: seq<AlbumItem>
    var gameState: GameState
    var lastInputPos: Option<Point>
    var dragStart: Option<Point>
    var swipeStart: Option<Point>

    /** How many 500 ms `startCookingStep` timers `completeStep` has scheduled and that
        have not fired yet. */
    var pendingStepStarts: nat

    ghost predicate Valid()
      reads this`score, this`gameState, this`currentRecipe, this`currentStep
      reads this`dragStart, this`swipeStart, this`lastInputPos, this`recipeStars
    {
      (forall r :: r in recipes ==> |r.steps| > 0) &&
      0 <= score <= 100 &&
      GameStateValid(gameState) &&
      (currentRecipe.Some? ==> 0 <= currentStep <= |currentRecipe.value.steps|) &&
      (dragStart.Some? ==> lastInputPos.Some?) &&
      (swipeStart.Some? ==> lastInputPos.Some?) &&
      DistinctKeys(recipeStars)
    }

    /** `this.currentRecipe.steps[this.currentStep]`, absent without a recipe or past the
        last step. */
    function Current(): Option<Step>
      reads this`currentRecipe, this`currentStep
    {
      if currentRecipe.Some? && 0 <= currentStep < |currentRecipe.value.steps|
      then Some(currentRecipe.value.steps[currentStep]) else None
    }

    /** The constructor reads the four saved records; an absent record takes its default. */
    constructor (savedStars: Option<int>, savedUnlocked: Option<seq<string>>,
                 savedRecipeStars: Option<StarTable>, savedAlbum: Option<seq<AlbumItem>>)
      requires savedRecipeStars.Some? ==> DistinctKeys(savedRecipeStars.value)
      ensures Valid()
      ensures recipes == Catalogue()
      ensures currentRecipe == None && currentStep == 0 && score == 0
      ensures totalStars == (if savedStars.Some? then savedStars.value else 0)
      ensures unlockedRecipes == (if savedUnlocked.Some? then savedUnlocked.value else ["omurice"])
      ensures recipeStars == (if savedRecipeStars.Some? then savedRecipeStars.value else [])
      ensures albumItems == (if savedAlbum.Some? then savedAlbum.value else [])
      ensures gameState == FreshGameState && pendingStepStarts == 0
      ensures lastInputPos.None? && dragStart.None? && swipeStart.None?
    {
      CatalogueHasSteps();
      recipes := Catalogue();
      currentRecipe := None;
      currentRecipeId := "";
      currentStep := 0;
      score := 0;
      totalStars := if savedStars.Some? then savedStars.value else 0;
      unlockedRecipes := if savedUnlocked.Some? then savedUnlocked.value else ["omurice"];
      recipeStars := if savedRecipeStars.Some? then savedRecipeStars.value else [];
      albumItems := if savedAlbum.Some? then savedAlbum.value else [];
      gameState := FreshGameState;
      lastInputPos, dragStart, swipeStart := None, None, None;
      pendingStepStarts := 0;
    }

    /** The session `selectRecipe` installs for `recipeId`: step 0, score 100, a fresh
        `gameState` in which a timing first step has run its first oscillator frame, and
        the saved progress untouched. */
    twostate predicate SessionStarted(recipeId: string)
      reads this
    {
      currentRecipe == FindRecipe(recipes, recipeId) && currentRecipeId == recipeId &&
      currentStep == 0 && score == 100 &&
      currentRecipe.Some? && |currentRecipe.value.steps| > 0 &&
      gameState == (if currentRecipe.value.steps[0].kind == Wait
                    then FreshGameState.(timingPhase := PhaseAfter(1)) else FreshGameState) &&
      totalStars == old(totalStars) && unlockedRecipes == old(unlockedRecipes) &&
      recipeStars == old(recipeStars) && albumItems == old(albumItems)
    }

    /** `selectRecipe`: a fresh session (step 0, score 100, a fresh `gameState`) for a
        recipe of the catalogue, then the first step is started. `now` is the clock. */
    method SelectRecipe(recipeId: string, now: int)
      requires Valid()
      requires FindRecipe(recipes, recipeId).Some?
      modifies this`currentRecipe, this`currentRecipeId, this`currentStep, this`score
      modifies this`gameState, this`recipeStars, this`totalStars, this`unlockedRecipes, this`albumItems
      ensures Valid()
      ensures SessionStarted(recipeId)
    {
      currentRecipe := FindRecipe(recipes, recipeId);
      currentRecipeId := recipeId;
      currentStep := 0;
      score := 100;
      gameState := FreshGameState;
      StartCookingStep(now);
    }

    /** What the `switch (step.type)` of `handleInput` does with an event on the current
        step `step`, after the position has been recorded: which handler runs, what it does
        to the step's progress, the score and the gesture starts, and by how much the step
        index advances. */
    twostate predicate Dispatched(step: Step, kind: InputType, angle: real)
      reads this
    {
      var g0 := old(gameState);
      var advance := currentStep - old(currentStep);
      match step.kind
      case Tap =>
        dragStart == old(dragStart) && swipeStart == old(swipeStart) && score == old(score) &&
        if kind == Start then
          gameState == g0.(actionCount := g0.actionCount + 1) &&
          advance == (if Reached(step.count, 1, gameState.actionCount) then 1 else 0)
        else
          gameState == g0 && advance == 0
      case Mix =>
        dragStart == old(dragStart) && swipeStart == old(swipeStart) && score == old(score) &&
        if kind == Move && lastInputPos.Some? then
          var moved := Abs(angle - g0.mixAngle) > MixThreshold;
          gameState == (if moved then g0.(actionCount := g0.actionCount + 1, mixAngle := angle) else g0) &&
          advance == (if moved && Reached(step.count, 5, gameState.actionCount) then 1 else 0)
        else
          gameState == g0 && advance == 0
      case Drag =>
        swipeStart == old(swipeStart) && score == old(score) && gameState == g0 &&
        if kind == Start then
          dragStart == lastInputPos && advance == 0
        else if kind == End && old(dragStart).Some? then
          var down := lastInputPos.Some? && lastInputPos.value.y - old(dragStart).value.y > GestureThreshold;
          dragStart.None? && advance == (if down then 1 else 0)
        else
          dragStart == old(dragStart) && advance == 0
      case Swipe =>
        dragStart == old(dragStart) && score == old(score) &&
        if kind == Start then
          swipeStart == lastInputPos && gameState == g0 && advance == 0
        else if kind == End && old(swipeStart).Some? then
          var far := lastInputPos.Some? &&
                     (Abs(lastInputPos.value.x - old(swipeStart).value.x) > GestureThreshold ||
                      Abs(lastInputPos.value.y - old(swipeStart).value.y) > GestureThreshold);
          swipeStart.None? &&
          gameState == (if far then g0.(actionCount := g0.actionCount + 1) else g0) &&
          advance == (if far && Reached(step.count, 1, gameState.actionCount) then 1 else 0)
        else
          swipeStart == old(swipeStart) && gameState == g0 && advance == 0
      case Wait =>
        dragStart == old(dragStart) && swipeStart == old(swipeStart) && gameState == g0 &&
        if kind == Start && g0.perfectZone then
          score == Min(100, old(score) + 10) && advance == 1
        else if kind == Start then
          score == Max(0, old(score) - 10) && advance == 0
        else
          score == old(score) && advance == 0
      case Draw =>
        dragStart == old(dragStart) && swipeStart == old(swipeStart) && score == old(score) &&
        if kind == Start || kind == Move then
          gameState == g0.(drawnPoints := g0.drawnPoints + (if lastInputPos.Some? then [lastInputPos.value] else [])) &&
          advance == 0
        else
          gameState == g0 && advance == (if |g0.drawnPoints| > DrawThreshold then 1 else 0)
    }

    /** `handleInput`: ignored without a recipe or past the last step; otherwise records the
        pointer position and dispatches on the step kind. `angle` is the angle from the
        canvas centre to the recorded position, which `handleMix` obtains from `Math.atan2`. */
    method HandleInput(kind: InputType, pos: Option<Point>, angle: real)
      requires Valid()
      modifies this`lastInputPos, this`dragStart, this`swipeStart, this`gameState, this`score
      modifies this`currentStep, this`pendingStepStarts
      ensures Valid()
      ensures old(Current()).None? ==> unchanged(this)
      ensures old(Current()).Some? ==> lastInputPos == if pos.Some? then pos else old(lastInputPos)
      ensures old(Current()).Some? ==> Dispatched(old(Current()).value, kind, angle)
      ensures old(Current()).Some? && !Reacts(old(Current()).value.kind, kind) ==>
                gameState == old(gameState) && score == old(score) && currentStep == old(currentStep)
      ensures old(Current()).Some? && old(Current()).value.kind != Wait ==> score == old(score)
      ensures currentStep - old(currentStep) == pendingStepStarts - old(pendingStepStarts)
      ensures currentStep == old(currentStep) || currentStep == old(currentStep) + 1
    {
      var step := Current();
      if step.None? {
        return;
      }
      if pos.Some? {
        lastInputPos := pos;
      }
      Dispatch(step.value, kind, angle);
    }

    /** The `switch (step.type)` of `handleInput`, after the position has been recorded. */
    method Dispatch(step: Step, kind: InputType, angle: real)
      requires Valid() && Current() == Some(step)
      modifies this`dragStart, this`swipeStart, this`gameState, this`score
      modifies this`currentStep, this`pendingStepStarts
      ensures Valid()
      ensures Dispatched(step, kind, angle)
      ensures !Reacts(step.kind, kind) ==>
                gameState == old(gameState) && score == old(score) && currentStep == old(currentStep)
      ensures step.kind != Wait ==> score == old(score)
      ensures currentStep - old(currentStep) == pendingStepStarts - old(pendingStepStarts)
      ensures currentStep == old(currentStep) || currentStep == old(currentStep) + 1
    {
      match step.kind {
        case Tap =>
          if kind == Start { HandleTap(step); }
        case Mix =>
          if kind == Move && lastInputPos.Some? { HandleMix(step, angle); }
        case Drag =>
          if kind == Start { dragStart := lastInputPos; }
          if kind == End && dragStart.Some? { HandleDrag(); }
        case Swipe =>
          if kind == Start { swipeStart := lastInputPos; }
          if kind == End && swipeStart.Some? { HandleSwipe(step); }
        case Wait =>
          if kind == Start { HandleTimingTap(); }
        case Draw =>
          if kind == Start || kind == Move { HandleDraw(); }
          if kind == End { CheckDrawComplete(); }
      }
    }

    /** `handleTap`: one more action; the step completes once the count is reached. */
    method HandleTap(step: Step)
      requires Valid() && Current() == Some(step)
      modifies this`gameState, this`currentStep, this`pendingStepStarts
      ensures Valid()
      ensures gameState == old(gameState).(actionCount := old(gameState).actionCount + 1)
      ensures var done := Reached(step.count, 1, gameState.actionCount);
              currentStep == old(currentStep) + (if done then 1 else 0) &&
              pendingStepStarts == old(pendingStepStarts) + (if done then 1 else 0)
    {
      gameState := gameState.(actionCount := gameState.actionCount + 1);
      if Reached(step.count, 1, gameState.actionCount) {
        CompleteStep();
      }
    }

    /** `handleMix`: a move counts only when the angle moved by more than 0.1 radian;
        the step needs five counted moves per unit of `count`. */
    method HandleMix(step: Step, angle: real)
      requires Valid() && Current() == Some(step)
      modifies this`gameState, this`currentStep, this`pendingStepStarts
      ensures Valid()
      ensures var moved := Abs(angle - old(gameState).mixAngle) > MixThreshold;
              gameState == (if moved then old(gameState).(actionCount := old(gameState).actionCount + 1,
                                                           mixAngle := angle)
                            else old(gameState)) &&
              var done := moved && Reached(step.count, 5, gameState.actionCount);
              currentStep == old(currentStep) + (if done then 1 else 0) &&
              pendingStepStarts == old(pendingStepStarts) + (if done then 1 else 0)
    {
      var angleDiff := angle - gameState.mixAngle;
      if Abs(angleDiff) > MixThreshold {
        gameState := gameState.(actionCount := gameState.actionCount + 1, mixAngle := angle);
        if Reached(step.count, 5, gameState.actionCount) {
          CompleteStep();
        }
      }
    }

    /** `handleDrag`: completes only when the release point is more than 50 below the
        start point; the start point is cleared either way. */
    method HandleDrag()
      requires Valid() && Current().Some? && dragStart.Some?
      modifies this`dragStart, this`currentStep, this`pendingStepStarts
      ensures Valid()
      ensures dragStart.None?
      ensures var done := old(lastInputPos).value.y - old(dragStart).value.y > GestureThreshold;
              currentStep == old(currentStep) + (if done then 1 else 0) &&
              pendingStepStarts == old(pendingStepStarts) + (if done then 1 else 0)
    {
      var dy := lastInputPos.value.y - dragStart.value.y;
      if dy > GestureThreshold {
        CompleteStep();
      }
      dragStart := None;
    }

    /** `handleSwipe`: a release more than 50 away horizontally or vertically counts one
        action; the step completes at `count` actions; the start point is cleared. */
    method HandleSwipe(step: Step)
      requires Valid() && Current() == Some(step) && swipeStart.Some?
      modifies this`swipeStart, this`gameState, this`currentStep, this`pendingStepStarts
      ensures Valid()
      ensures swipeStart.None?
      ensures var far := Abs(old(lastInputPos).value.x - old(swipeStart).value.x) > GestureThreshold ||
                         Abs(old(lastInputPos).value.y - old(swipeStart).value.y) > GestureThreshold;
              gameState == (if far then old(gameState).(actionCount := old(gameState).actionCount + 1)
                            else old(gameState)) &&
              var done := far && Reached(step.count, 1, gameState.actionCount);
              currentStep == old(currentStep) + (if done then 1 else 0) &&
              pendingStepStarts == old(pendingStepStarts) + (if done then 1 else 0)
    {
      var dx := Abs(lastInputPos.value.x - swipeStart.value.x);
      var dy := Abs(lastInputPos.value.y - swipeStart.value.y);
      if dx > GestureThreshold || dy > GestureThreshold {
        gameState := gameState.(actionCount := gameState.actionCount + 1);
        if Reached(step.count, 1, gameState.actionCount) {
          CompleteStep();
        }
      }
      swipeStart := None;
    }

    /** `handleTimingTap`: inside the window +10 (at most 100) and the step completes;
        outside it -10 (at least 0) and the step stays. */
    method HandleTimingTap()
      requires Valid() && Current().Some?
      modifies this`score, this`currentStep, this`pendingStepStarts
      ensures Valid()
      ensures gameState.perfectZone ==>
                score == Min(100, old(score) + 10) &&
                currentStep == old(currentStep) + 1 && pendingStepStarts == old(pendingStepStarts) + 1
      ensures !gameState.perfectZone ==>
                score == Max(0, old(score) - 10) &&
                currentStep == old(currentStep) && pendingStepStarts == old(pendingStepStarts)
    {
      if gameState.perfectZone {
        score := Min(100, score + 10);
        CompleteStep();
      } else {
        score := Max(0, score - 10);
      }
    }

    /** `handleDraw`: appends a copy of the last position, if there is one. */
    method HandleDraw()
      requires Valid()
      modifies this`gameState
      ensures Valid()
      ensures gameState == old(gameState).(drawnPoints := old(gameState).drawnPoints +
                                            (if lastInputPos.Some? then [lastInputPos.value] else []))
    {
      if lastInputPos.Some? {
        gameState := gameState.(drawnPoints := gameState.drawnPoints + [lastInputPos.value]);
      }
    }

    /** `checkDrawComplete`: the drawing is done once more than 20 points were drawn. */
    method CheckDrawComplete()
      requires Valid() && Current().Some?
      modifies this`currentStep, this`pendingStepStarts
      ensures Valid()
      ensures var done := |gameState.drawnPoints| > DrawThreshold;
              currentStep == old(currentStep) + (if done then 1 else 0) &&
              pendingStepStarts == old(pendingStepStarts) + (if done then 1 else 0)
    {
      if |gameState.drawnPoints| > DrawThreshold {
        CompleteStep();
      }
    }

    /** `completeStep`: the index advances at once; `startCookingStep` runs 500 ms later. */
    method CompleteStep()
      requires Valid() && Current().Some?
      modifies this`currentStep, this`pendingStepStarts
      ensures Valid()
      ensures currentStep == old(currentStep) + 1
      ensures pendingStepStarts == old(pendingStepStarts) + 1
    {
      currentStep := currentStep + 1;
      pendingStepStarts := pendingStepStarts + 1;
    }

    /** What `startCookingStep` does: on a step, its progress is reset and a timing step
        starts its oscillator, with the saved progress untouched; past the last step, the
        cooking completes as `CompleteCooking` states. */
    twostate predicate StepStarted(now: int)
      reads this
    {
      if old(Current()).Some? then
        unlockedRecipes == old(unlockedRecipes) && albumItems == old(albumItems) &&
        recipeStars == old(recipeStars) && totalStars == old(totalStars) &&
        var reset := old(gameState).(actionCount := 0, drawnPoints := []);
        gameState == (if old(Current()).value.kind == Wait
                      then reset.(timingPhase := PhaseAfter(1), perfectZone := InPerfectZone(PhaseAfter(1)))
                      else reset)
      else
        gameState == old(gameState) &&
        recipeStars == RecordBest(old(recipeStars), currentRecipeId, StarsFor(score)) &&
        totalStars == Total(recipeStars) &&
        unlockedRecipes == Unlock(old(unlockedRecipes), UnlockTable(), totalStars) &&
        albumItems == AddNewest(AlbumItem(now, currentRecipeId, StarsFor(score), now), old(albumItems))
    }

    /** One of the scheduled 500 ms timers fires and runs `startCookingStep`. After an exit
        the recipe is gone and `startCookingStep` throws on its first line, which changes
        nothing. */
    method StepTimerFires(now: int)
      requires Valid() && pendingStepStarts > 0
      modifies this`pendingStepStarts
      modifies this`gameState, this`recipeStars, this`totalStars, this`unlockedRecipes, this`albumItems
      ensures Valid()
      ensures pendingStepStarts == old(pendingStepStarts) - 1
      ensures old(currentRecipe).Some? ==> StepStarted(now)
      ensures old(currentRecipe).None? ==>
                gameState == old(gameState) && albumItems == old(albumItems) && recipeStars == old(recipeStars) &&
                totalStars == old(totalStars) && unlockedRecipes == old(unlockedRecipes)
    {
      pendingStepStarts := pendingStepStarts - 1;
      if currentRecipe.Some? {
        StartCookingStep(now);
      }
    }

    /** `startCookingStep`: past the last step the dish is finished; otherwise the step's
        progress is reset and a timing step starts its oscillator. */
    method StartCookingStep(now: int)
      requires Valid() && currentRecipe.Some?
      modifies this`gameState, this`recipeStars, this`totalStars, this`unlockedRecipes, this`albumItems
      ensures Valid()
      ensures StepStarted(now)
    {
      if currentStep >= |currentRecipe.value.steps| {
        CompleteCooking(now);
        return;
      }
      var step := currentRecipe.value.steps[currentStep];
      gameState := gameState.(actionCount := 0, drawnPoints := []);
      if step.kind == Wait {
        StartTimingGame();
      }
    }

    /** `startTimingGame`: the phase restarts at 0, and the first `animate` call runs at once. */
    method StartTimingGame()
      requires Valid() && Current().Some? && Current().value.kind == Wait
      modifies this`gameState
      ensures Valid()
      ensures gameState == old(gameState).(timingPhase := PhaseAfter(1), perfectZone := InPerfectZone(PhaseAfter(1)))
    {
      gameState := gameState.(timingPhase := 0, perfectZone := false);
      AnimationFrame();
    }

    /** One call of the `animate` callback: it stops (changes nothing) unless the current
        step is a timing step, and otherwise advances the phase by 2 modulo 360. */
    method AnimationFrame()
      requires Valid()
      modifies this`gameState
      ensures Valid()
      ensures old(Current()).Some? && old(Current()).value.kind == Wait ==>
                gameState == old(gameState).(timingPhase := NextPhase(old(gameState).timingPhase),
                                             perfectZone := InPerfectZone(NextPhase(old(gameState).timingPhase)))
      ensures !(old(Current()).Some? && old(Current()).value.kind == Wait) ==> gameState == old(gameState)
    {
      var step := Current();
      if step.None? || step.value.kind != Wait {
        return;
      }
      var phase := NextPhase(gameState.timingPhase);
      gameState := gameState.(timingPhase := phase, perfectZone := phase > WindowLow && phase < WindowHigh);
    }

    /** `completeCooking`: stars from the score, the per-recipe best replaced only when
        strictly greater, the total recomputed as the sum of the bests, the unlock pass,
        then the complete screen, which writes the album entry. */
    method CompleteCooking(now: int)
      requires Valid()
      modifies this`recipeStars, this`totalStars, this`unlockedRecipes, this`albumItems
      ensures Valid()
      ensures recipeStars == RecordBest(old(recipeStars), currentRecipeId, StarsFor(score))
      ensures totalStars == Total(recipeStars)
      ensures unlockedRecipes == Unlock(old(unlockedRecipes), UnlockTable(), totalStars)
      ensures albumItems == AddNewest(AlbumItem(now, currentRecipeId, StarsFor(score), now), old(albumItems))
    {
      var stars := StarsFor(score);
      RecordStars(stars);
      CheckUnlocks();
      ShowCompleteScreen(stars, now);
    }

    /** The first half of `completeCooking`: the best record and the recomputed total. */
    method RecordStars(stars: int)
      requires Valid()
      modifies this`recipeStars, this`totalStars
      ensures Valid()
      ensures recipeStars == RecordBest(old(recipeStars), currentRecipeId, stars)
      ensures totalStars == Total(recipeStars)
    {
      var prevStars := Lookup(recipeStars, currentRecipeId);
      RecordBestInvariants(recipeStars, currentRecipeId, stars);
      if stars > prevStars {
        recipeStars := Store(recipeStars, currentRecipeId, stars);
      }
      totalStars := Total(recipeStars);
    }

    /** `checkUnlocks`: walks the threshold table and pushes every recipe whose threshold
        the total reaches and that is not yet unlocked. */
    method CheckUnlocks()
      requires Valid()
      modifies this`unlockedRecipes
      ensures Valid()
      ensures unlockedRecipes == Unlock(old(unlockedRecipes), UnlockTable(), totalStars)
    {
      var table := UnlockTable();
      var unlocked := unlockedRecipes;
      for i := 0 to |table|
        invariant Unlock(unlocked, table[i..], totalStars) == Unlock(old(unlockedRecipes), table, totalStars)
      {
        assert table[i..][0] == table[i] && table[i..][1..] == table[i + 1..];
        if totalStars >= table[i].required && table[i].id !in unlocked {
          unlocked := unlocked + [table[i].id];
        }
      }
      unlockedRecipes := unlocked;
    }

    /** `showCompleteScreen`: apart from the display it saves the photo to the album. */
    method ShowCompleteScreen(stars: int, now: int)
      requires Valid()
      modifies this`albumItems
      ensures Valid()
      ensures albumItems == AddNewest(AlbumItem(now, currentRecipeId, stars, now), old(albumItems))
    {
      SaveToAlbum(stars, now);
    }

    /** `saveToAlbum`: the new photo goes first and the album keeps at most 50. */
    method SaveToAlbum(stars: int, now: int)
      requires Valid()
      modifies this`albumItems
      ensures Valid()
      ensures albumItems == AddNewest(AlbumItem(now, currentRecipeId, stars, now), old(albumItems))
    {
      var item := AlbumItem(now, currentRecipeId, stars, now);
      albumItems := [item] + albumItems;
      if |albumItems| > AlbumCap {
        albumItems := albumItems[..AlbumCap];
      }
    }

    /** `playAgain`: the same recipe from the start. */
    method PlayAgain(now: int)
      requires Valid() && FindRecipe(recipes, currentRecipeId).Some?
      modifies this`currentRecipe, this`currentRecipeId, this`currentStep, this`score
      modifies this`gameState, this`recipeStars, this`totalStars, this`unlockedRecipes, this`albumItems
      ensures Valid()
      ensures SessionStarted(old(currentRecipeId))
    {
      SelectRecipe(currentRecipeId, now);
    }

    /** `confirmExit`: when the player confirms, the session is dropped. */
    method ConfirmExit(confirmed: bool)
      requires Valid()
      modifies this`currentRecipe
      ensures Valid()
      ensures currentRecipe == if confirmed then None else old(currentRecipe)
    {
      if confirmed {
        currentRecipe := None;
      }
    }
  }
}
