/** The cooking screen of the React rework: it turns pointer events on the current step into
    calls on the state hook, keeps three refs of its own (the last pointer position, whether
    a press or drag is under way, and the running hold interval), and runs the timing
    oscillator while the current step is a timed wait. The hook's state is the `game` field;
    each callback is the corresponding hook function applied to it. Sounds, sparkles and
    the character's face and messages are presentation and are left out. */
module CookingScreenComponent {
  import opened Common
  import opened Timing
  import opened Recipes
  import opened GameStateHook

  const MixThreshold := 0.1
  const DrawThreshold := 20
  const HoldIncrement := 2
  const HoldFull := 100

  /** `recipe?.steps[gameState.currentStep]`: undefined without a recipe or past the end. */
  function StepOf(g: GameState): (r: Option<CookingStep>)
    ensures r.Some? ==> g.currentRecipe.Some? && r.value in g.currentRecipe.value.steps
    ensures GameStateHook.Valid(g) && g.currentRecipe.Some? ==> r.Some?
  {
    if g.currentRecipe.Some? && 0 <= g.currentStep < |g.currentRecipe.value.steps|
    then Some(g.currentRecipe.value.steps[g.currentStep]) else None
  }

  /** `step.count || 1`: a missing or zero count means one. */
  function CountOf(step: CookingStep): (n: int)
    ensures n != 0
    ensures step.count.Some? && step.count.value != 0 ==> n == step.count.value
  {
    if step.count.Some? && step.count.value != 0 then step.count.value else 1
  }

  /** The oscillator effect is active: the screen is mounted and the current step is a
      `wait` with `timing` set. */
  predicate Oscillates(g: GameState) {
    g.currentScreen == Cooking && StepOf(g).Some? &&
    StepOf(g).value.kind == Wait && StepOf(g).value.timing == Some(true)
  }

  /** A completion signal followed by `nextStep`, or nothing. */
  function Finish(g: GameState, done: bool): (r: GameState)
    ensures done ==> r == NextStep(g)
    ensures !done ==> r == g
  {
    if done then NextStep(g) else g
  }

  /** The hold interval's callback as written: `gameState` is the record captured when the
      press began, so every tick stores `captured + 2`, and the completion test reads the
      captured progress too. */
  function StaleHoldTick(g: GameState, captured: int): (r: GameState)
    ensures r.holdProgress == captured + HoldIncrement || captured >= HoldFull
    ensures captured < HoldFull ==> r == UpdateHoldProgress(g, captured + HoldIncrement, true)
    ensures captured >= HoldFull ==> r == NextStep(UpdateHoldProgress(g, captured + HoldIncrement, true))
  {
    Finish(UpdateHoldProgress(g, captured + HoldIncrement, true), captured >= HoldFull)
  }

  /** The hold interval's callback as intended: it reads the live progress, adds 2, and
      signals completion once the progress had reached 100. */
  function LiveHoldTick(g: GameState): (r: GameState)
    ensures g.holdProgress < HoldFull ==> r == UpdateHoldProgress(g, g.holdProgress + HoldIncrement, true)
    ensures g.holdProgress >= HoldFull ==> r == NextStep(UpdateHoldProgress(g, g.holdProgress + HoldIncrement, true))
    ensures Valid(g) ==> Valid(r)
  {
    Finish(UpdateHoldProgress(g, g.holdProgress + HoldIncrement, true), g.holdProgress >= HoldFull)
  }

  function StaleHoldTicks(g: GameState, captured: int, n: nat): GameState {
    if n == 0 then g else StaleHoldTick(StaleHoldTicks(g, captured, n - 1), captured)
  }

  function LiveHoldTicks(g: GameState, n: nat): GameState {
    if n == 0 then g else LiveHoldTick(LiveHoldTicks(g, n - 1))
  }

  /** As written, a press that starts below 100 never completes the step, however long it
      is held: every tick stores the same `captured + 2`, and the step, screen and score
      never move. */
  lemma {:induction false} StaleHoldNeverCompletes(g: GameState, n: nat)
    requires g.holdProgress < HoldFull
    ensures var r := StaleHoldTicks(g, g.holdProgress, n);
            SameSession(r, g) && r.actionCount == g.actionCount &&
            (n > 0 ==> r.holdProgress == g.holdProgress + HoldIncrement && r.isHolding)
  {
    if n > 0 {
      StaleHoldNeverCompletes(g, n - 1);
    }
  }

  /** A concrete press: from zero progress, a thousand ticks leave the progress at 2. */
  lemma StaleHoldExample(g: GameState)
    requires g.holdProgress == 0
    ensures StaleHoldTicks(g, 0, 1000).holdProgress == 2
    ensures StaleHoldTicks(g, 0, 1000).currentStep == g.currentStep
  {
    StaleHoldNeverCompletes(g, 1000);
  }

  /** As intended, a held press from zero progress builds up 2 per tick; the first fifty
      ticks keep the step, ... */
  lemma {:induction false} LiveHoldBuildsUp(g: GameState, n: nat)
    requires g.holdProgress == 0 && n <= 50
    ensures var r := LiveHoldTicks(g, n);
            SameSession(r, g) && r.actionCount == g.actionCount &&
            r.holdProgress == HoldIncrement * n && (n > 0 ==> r.isHolding)
  {
    if n > 0 {
      LiveHoldBuildsUp(g, n - 1);
    }
  }

  /** ... and the fifty-first completes it. */
  lemma LiveHoldCompletes(g: GameState)
    requires g.holdProgress == 0
    ensures LiveHoldTicks(g, 51) == NextStep(UpdateHoldProgress(LiveHoldTicks(g, 50), HoldFull + HoldIncrement, true))
  {
    LiveHoldBuildsUp(g, 50);
  }

  class CookingScreen {
    /** The state hook's record, as the screen sees it through its props. */
    var game: GameState
    /** `lastInputPosRef`. */
    var lastInputPos: Option<Point>
    /** `isInteractingRef`. */
    var isInteracting: bool
    /** `holdTimerRef` holds a running interval. */
    var holdActive: bool
    /** The oscillator's animation frame is requested. */
    var oscillating: bool
    /** The oscillator loop's local `phase`. */
    var phase: int
    /** Frames run since the oscillator last restarted. */
    ghost var frames: nat

    /** The hook's invariant holds; a running oscillator belongs to a timed wait step, is
        `frames` frames past a restart at 0, and after its first frame has reported its
        phase and window flag to the hook. */
    ghost predicate Valid()
      reads this`game, this`oscillating, this`phase, this`frames
    {
      GameStateHook.Valid(game) && IsPhase(phase) &&
      (oscillating ==> Oscillates(game) && phase == PhaseAfter(frames) &&
                       (frames > 0 ==> game.timingPhase == phase && game.perfectZone == InPerfectZone(phase)))
    }

    function Current(): Option<CookingStep>
      reads this`game
    {
      StepOf(game)
    }

    /** Mounting the screen on a hook state: the refs start empty and the oscillator effect
        starts at phase 0 if the first step is a timed wait. */
    constructor Mount(g: GameState)
      requires GameStateHook.Valid(g)
      ensures Valid()
      ensures game == g && lastInputPos.None? && !isInteracting && !holdActive
      ensures oscillating == Oscillates(g) && phase == 0 && frames == 0
    {
      game := g;
      lastInputPos := None;
      isInteracting := false;
      holdActive := false;
      oscillating := Oscillates(g);
      phase := 0;
      frames := 0;
      new;
      assert PhaseAfter(0) == 0;
    }

    /** The oscillator effect re-running after the current step changed: the previous
        loop is cancelled and a new one starts at phase 0 if the step is a timed wait. */
    method RestartOscillator()
      requires GameStateHook.Valid(game)
      modifies this`oscillating, this`phase, this`frames
      ensures Valid()
      ensures oscillating == Oscillates(game) && phase == 0 && frames == 0
    {
      oscillating := Oscillates(game);
      phase := 0;
      frames := 0;
      assert PhaseAfter(0) == 0;
    }

    /** The step-keyed oscillator effect after an event: when the event completed the step,
        the effect has re-run and the oscillator restarts at phase 0 with no frames, running
        only on a timed wait; otherwise it is untouched. */
    twostate predicate OscillatorAfter(done: bool)
      reads this`game, this`oscillating, this`phase, this`frames
    {
      if done then oscillating == Oscillates(game) && phase == 0 && frames == 0
      else oscillating == old(oscillating) && phase == old(phase) && frames == old(frames)
    }

    /** A completion signal: `nextStep`, after which the step-keyed oscillator effect
        re-runs; or nothing. */
    method Complete(done: bool)
      requires Valid()
      modifies this`game, this`oscillating, this`phase, this`frames
      ensures Valid()
      ensures game == Finish(old(game), done)
      ensures OscillatorAfter(done)
    {
      if done {
        game := NextStep(game);
        RestartOscillator();
      }
    }

    /** What the `switch (step.type)` of `handleInput` does with an event on the current
        step `step`, after the position has been recorded: the handler of the step's kind
        runs, and this is its effect on the hook's state and on the screen's refs. */
    twostate predicate Handled(step: CookingStep, kind: InputType, angle: real)
      reads this
    {
      var g0 := old(game);
      match step.kind
      case Tap =>
        isInteracting == old(isInteracting) && holdActive == old(holdActive) &&
        game == (if kind == Start then Finish(IncrementAction(g0), g0.actionCount + 1 >= CountOf(step)) else g0) &&
        OscillatorAfter(kind == Start && g0.actionCount + 1 >= CountOf(step))
      case Mix =>
        isInteracting == old(isInteracting) && holdActive == old(holdActive) &&
        game == (if kind == Move && lastInputPos.Some? && Abs(angle - g0.mixAngle) > MixThreshold
                 then Finish(UpdateMixAngle(g0, angle), g0.actionCount + 1 >= CountOf(step) * 5)
                 else g0) &&
        OscillatorAfter(kind == Move && lastInputPos.Some? && Abs(angle - g0.mixAngle) > MixThreshold &&
                        g0.actionCount + 1 >= CountOf(step) * 5)
      case Drag =>
        holdActive == old(holdActive) &&
        OscillatorAfter(kind == End && old(isInteracting) && lastInputPos.Some?) &&
        if kind == Start then
          isInteracting && game == g0
        else if kind == End && old(isInteracting) && lastInputPos.Some? then
          !isInteracting && game == NextStep(g0)
        else
          isInteracting == old(isInteracting) && game == g0
      case Cut =>
        holdActive == old(holdActive) &&
        OscillatorAfter(kind == End && old(isInteracting) && g0.actionCount + 1 >= CountOf(step)) &&
        if kind == Start then
          isInteracting && game == g0
        else if kind == End && old(isInteracting) then
          !isInteracting && game == Finish(IncrementAction(g0), g0.actionCount + 1 >= CountOf(step))
        else
          isInteracting == old(isInteracting) && game == g0
      case Hold =>
        OscillatorAfter(false) &&
        if kind == Start then
          isInteracting && holdActive && game == g0
        else if kind == End then
          !isInteracting && !holdActive && game == UpdateHoldProgress(g0, g0.holdProgress, false)
        else
          isInteracting == old(isInteracting) && holdActive == old(holdActive) && game == g0
      case Wait =>
        isInteracting == old(isInteracting) && holdActive == old(holdActive) &&
        game == (if kind == Start && g0.perfectZone then NextStep(UpdateScore(g0, 10))
                 else if kind == Start then UpdateScore(g0, -10)
                 else g0) &&
        OscillatorAfter(kind == Start && g0.perfectZone)
      case Draw =>
        isInteracting == old(isInteracting) && holdActive == old(holdActive) &&
        game == (if (kind == Start || kind == Move) && lastInputPos.Some? then AddDrawPoint(g0, lastInputPos.value)
                 else if kind == End then Finish(g0, |g0.drawnPoints| > DrawThreshold)
                 else g0) &&
        OscillatorAfter(kind == End && |g0.drawnPoints| > DrawThreshold)
    }

    /** `handleInput`: nothing happens without a current step; otherwise an event with a
        position records it, and the step's kind decides the rest. At most one completion
        is signalled, so the index advances by at most one; only a wait step touches the
        score, and the recipe never changes. */
    method HandleInput(kind: InputType, pos: Option<Point>, angle: real)
      requires Valid()
      modifies this`game, this`lastInputPos, this`isInteracting, this`holdActive,
               this`oscillating, this`phase, this`frames
      ensures Valid()
      ensures old(Current()).None? ==> unchanged(this)
      ensures old(Current()).Some? ==> lastInputPos == (if pos.Some? then pos else old(lastInputPos))
      ensures old(Current()).Some? ==> Handled(old(Current()).value, kind, angle)
      ensures game.currentRecipe == old(game.currentRecipe)
      ensures game.currentStep == old(game.currentStep) || game.currentStep == old(game.currentStep) + 1
      ensures old(Current()).Some? && old(Current()).value.kind != Wait ==> game.score == old(game.score)
    {
      var step := Current();
      if step.None? {
        return;
      }
      if pos.Some? {
        lastInputPos := pos;
      }
      Dispatch(step.value, kind, angle);
    }

    /** The `switch (step.type)` of `handleInput`, after the position has been recorded. */
    method Dispatch(step: CookingStep, kind: InputType, angle: real)
      requires Valid() && Current() == Some(step)
      modifies this`game, this`isInteracting, this`holdActive, this`oscillating, this`phase, this`frames
      ensures Valid()
      ensures Handled(step, kind, angle)
      ensures game.currentRecipe == old(game.currentRecipe)
      ensures game.currentStep == old(game.currentStep) || game.currentStep == old(game.currentStep) + 1
      ensures step.kind != Wait ==> game.score == old(game.score)
    {
      match step.kind
      case Tap => OnTap(step, kind);
      case Mix => OnMix(step, kind, angle);
      case Drag => OnDrag(kind);
      case Cut => OnCut(step, kind);
      case Hold => OnHold(kind);
      case Wait => OnWait(kind);
      case Draw => OnDraw(kind);
    }

    /** tap: a press adds one action and completes once the new count reaches the step's
        count; other events do nothing. */
    method OnTap(step: CookingStep, kind: InputType)
      requires Valid()
      modifies this`game, this`oscillating, this`phase, this`frames
      ensures Valid()
      ensures kind != Start ==> game == old(game)
      ensures kind == Start ==>
                game == Finish(IncrementAction(old(game)), old(game).actionCount + 1 >= CountOf(step))
      ensures OscillatorAfter(kind == Start && old(game).actionCount + 1 >= CountOf(step))
    {
      if kind == Start {
        var done := game.actionCount + 1 >= CountOf(step);
        game := IncrementAction(game);
        Complete(done);
      }
    }

    /** mix: a move with a known position whose angle differs from the stored one by more
        than 0.1 stores it as one action, and completes once the new count reaches five
        times the step's count; anything else does nothing. */
    method OnMix(step: CookingStep, kind: InputType, angle: real)
      requires Valid()
      modifies this`game, this`oscillating, this`phase, this`frames
      ensures Valid()
      ensures !(kind == Move && lastInputPos.Some? && Abs(angle - old(game).mixAngle) > MixThreshold) ==>
                game == old(game)
      ensures kind == Move && lastInputPos.Some? && Abs(angle - old(game).mixAngle) > MixThreshold ==>
                game == Finish(UpdateMixAngle(old(game), angle), old(game).actionCount + 1 >= CountOf(step) * 5)
      ensures OscillatorAfter(kind == Move && lastInputPos.Some? && Abs(angle - old(game).mixAngle) > MixThreshold &&
                              old(game).actionCount + 1 >= CountOf(step) * 5)
    {
      if kind == Move && lastInputPos.Some? && Abs(angle - game.mixAngle) > MixThreshold {
        var done := game.actionCount + 1 >= CountOf(step) * 5;
        game := UpdateMixAngle(game, angle);
        Complete(done);
      }
    }

    /** drag: a press starts the drag; a release during a drag, with a known position,
        completes the step whatever the displacement and ends the drag. */
    method OnDrag(kind: InputType)
      requires Valid()
      modifies this`game, this`isInteracting, this`oscillating, this`phase, this`frames
      ensures Valid()
      ensures kind == Start ==> isInteracting && game == old(game)
      ensures kind == End && old(isInteracting) && lastInputPos.Some? ==> !isInteracting && game == NextStep(old(game))
      ensures kind != Start && !(kind == End && old(isInteracting) && lastInputPos.Some?) ==>
                isInteracting == old(isInteracting) && game == old(game)
      ensures OscillatorAfter(kind == End && old(isInteracting) && lastInputPos.Some?)
    {
      if kind == Start {
        isInteracting := true;
      } else if kind == End && isInteracting && lastInputPos.Some? {
        Complete(true);
        isInteracting := false;
      }
    }

    /** cut: a press starts the stroke; a release during a stroke adds one action with no
        displacement test, completes once the new count reaches the step's count, and ends
        the stroke. */
    method OnCut(step: CookingStep, kind: InputType)
      requires Valid()
      modifies this`game, this`isInteracting, this`oscillating, this`phase, this`frames
      ensures Valid()
      ensures kind == Start ==> isInteracting && game == old(game)
      ensures kind == End && old(isInteracting) ==>
                !isInteracting &&
                game == Finish(IncrementAction(old(game)), old(game).actionCount + 1 >= CountOf(step))
      ensures kind != Start && !(kind == End && old(isInteracting)) ==>
                isInteracting == old(isInteracting) && game == old(game)
      ensures OscillatorAfter(kind == End && old(isInteracting) && old(game).actionCount + 1 >= CountOf(step))
    {
      if kind == Start {
        isInteracting := true;
      } else if kind == End && isInteracting {
        var done := game.actionCount + 1 >= CountOf(step);
        game := IncrementAction(game);
        Complete(done);
        isInteracting := false;
      }
    }

    /** hold: a press starts the interval; a release stops it, keeps the progress where it
        is and clears the holding flag; neither completes the step. */
    method OnHold(kind: InputType)
      requires Valid()
      modifies this`game, this`isInteracting, this`holdActive
      ensures Valid()
      ensures kind == Start ==> isInteracting && holdActive && game == old(game)
      ensures kind == End ==>
                !isInteracting && !holdActive &&
                game == UpdateHoldProgress(old(game), old(game).holdProgress, false)
      ensures kind == Move ==> isInteracting == old(isInteracting) && holdActive == old(holdActive) && game == old(game)
      ensures OscillatorAfter(false)
    {
      if kind == Start {
        isInteracting := true;
        holdActive := true;
      } else if kind == End {
        holdActive := false;
        game := UpdateHoldProgress(game, game.holdProgress, false);
        isInteracting := false;
      }
    }

    /** One tick of the hold interval, reading the live progress (see `StaleHoldTick` for
        the closure as written): progress grows by 2, and a tick that finds it at 100 or
        more stops the interval and completes the step. */
    method HoldTick()
      requires Valid() && holdActive
      modifies this`game, this`holdActive, this`oscillating, this`phase, this`frames
      ensures Valid()
      ensures game == LiveHoldTick(old(game))
      ensures holdActive <==> old(game).holdProgress < HoldFull
      ensures OscillatorAfter(old(game).holdProgress >= HoldFull)
    {
      var done := game.holdProgress >= HoldFull;
      game := UpdateHoldProgress(game, game.holdProgress + HoldIncrement, true);
      if done {
        holdActive := false;
      }
      Complete(done);
    }

    /** wait: a press inside the window adds 10 and completes the step; a press outside it
        takes 10 off and keeps the step. Other events do nothing. */
    method OnWait(kind: InputType)
      requires Valid()
      modifies this`game, this`oscillating, this`phase, this`frames
      ensures Valid()
      ensures kind == Start && old(game).perfectZone ==> game == NextStep(UpdateScore(old(game), 10))
      ensures kind == Start && !old(game).perfectZone ==> game == UpdateScore(old(game), -10)
      ensures kind != Start ==> game == old(game)
      ensures OscillatorAfter(kind == Start && old(game).perfectZone)
    {
      if kind == Start {
        if game.perfectZone {
          game := UpdateScore(game, 10);
          Complete(true);
        } else {
          game := UpdateScore(game, -10);
        }
      }
    }

    /** draw: a press or move with a known position appends it; a release completes the
        step once more than 20 points are drawn. */
    method OnDraw(kind: InputType)
      requires Valid()
      modifies this`game, this`oscillating, this`phase, this`frames
      ensures Valid()
      ensures (kind == Start || kind == Move) && lastInputPos.Some? ==>
                game == AddDrawPoint(old(game), lastInputPos.value)
      ensures kind == End ==> game == Finish(old(game), |old(game).drawnPoints| > DrawThreshold)
      ensures (kind == Start || kind == Move) && lastInputPos.None? ==> game == old(game)
      ensures OscillatorAfter(kind == End && |old(game).drawnPoints| > DrawThreshold)
    {
      if (kind == Start || kind == Move) && lastInputPos.Some? {
        game := AddDrawPoint(game, lastInputPos.value);
      } else if kind == End {
        Complete(|game.drawnPoints| > DrawThreshold);
      }
    }

    /** One animation frame of the oscillator: the phase moves on by 2 modulo 360 and is
        reported to the hook with its window flag. */
    method AnimationFrame()
      requires Valid() && oscillating
      modifies this`game, this`phase, this`frames
      ensures Valid()
      ensures frames == old(frames) + 1 && phase == NextPhase(old(phase))
      ensures game == UpdateTimingPhase(old(game), phase, InPerfectZone(phase))
    {
      phase := NextPhase(phase);
      frames := frames + 1;
      game := UpdateTimingPhase(game, phase, InPerfectZone(phase));
    }

    /** n frames of the oscillator in a row: the phase is where a loop restarted at 0 is
        after all the frames so far, and the hook holds it with its window flag. */
    method RunFrames(n: nat)
      requires Valid() && oscillating
      modifies this`game, this`phase, this`frames
      ensures Valid() && oscillating
      ensures frames == old(frames) + n && phase == PhaseAfter(frames)
      ensures n > 0 ==> game.timingPhase == phase && game.perfectZone == InPerfectZone(phase)
      ensures game.(timingPhase := old(game).timingPhase, perfectZone := old(game).perfectZone) == old(game)
    {
      var i := 0;
      while i < n
        invariant 0 <= i <= n && Valid() && oscillating
        invariant frames == old(frames) + i
        invariant i > 0 ==> game.timingPhase == phase && game.perfectZone == InPerfectZone(phase)
        invariant game.(timingPhase := old(game).timingPhase, perfectZone := old(game).perfectZone) == old(game)
      {
        AnimationFrame();
        i := i + 1;
      }
    }

    /** `handleBack` with the player's answer: on confirmation both timers stop and the
        hook goes to the recipe menu. */
    method Back(confirmed: bool)
      requires Valid()
      modifies this`game, this`holdActive, this`oscillating
      ensures Valid()
      ensures confirmed ==> game == GoToMenu(old(game)) && !holdActive && !oscillating
      ensures !confirmed ==> game == old(game) && holdActive == old(holdActive) && oscillating == old(oscillating)
    {
      if confirmed {
        holdActive := false;
        oscillating := false;
        game := GoToMenu(game);
      }
    }
  }
}
