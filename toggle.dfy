/** The toggle button on SW3 and LED4, kept in LED4OnState. The program's
    own loop runs the delayed form: a 200 ms pause follows each change of
    state, so the second test reads SW3 again later. The no-delay form runs
    both tests on the same reading of SW3. */
module Toggle {
  import opened Board

  datatype ToggleState = ToggleState(onState: bool, led4: Bit)

  /** The samples of one pass of the program's loop: SW3 at the first test,
      SW3 at the second test, and SW1 at the bootloader test. */
  datatype ToggleInput = ToggleInput(sw3First: Bit, sw3Second: Bit, sw1: Bit)

  const Off: ToggleState := ToggleState(false, 0)

  /** One pass of the delayed toggle: turn on if pressed while off, then
      turn off if on and SW3 still reads pressed. */
  function ToggleStep(s: ToggleState, sw3First: Bit, sw3Second: Bit): (r: ToggleState)
    // from off, a press ends the pass on only if SW3 reads released at the second test
    ensures !s.onState && sw3First == Pressed ==> (r.onState <==> sw3Second != Pressed)
    // from on, the pass ends off exactly when SW3 reads pressed at the second test
    ensures s.onState ==> (r.onState <==> sw3Second != Pressed)
    // from off with SW3 released, nothing changes
    ensures !s.onState && sw3First != Pressed ==> r == s
    // every branch that runs sets LED4 and the state to the same value
    ensures (sw3First == Pressed && !s.onState) || (s.onState && sw3Second == Pressed) ==> r.led4 == LedOf(r.onState)
    ensures s.led4 == LedOf(s.onState) ==> r.led4 == LedOf(r.onState)
    // when neither branch runs, nothing changes
    ensures !((sw3First == Pressed && !s.onState) || (s.onState && sw3Second == Pressed)) ==> r == s
  {
    var afterFirst := if sw3First == Pressed && !s.onState then ToggleState(true, 1) else s;
    if afterFirst.onState && sw3Second == Pressed then ToggleState(false, 0) else afterFirst
  }

  /** One pass of the no-delay toggle: both tests see the same reading. */
  function ToggleStepNoDelay(s: ToggleState, sw3: Bit): (r: ToggleState)
    // a pressed SW3 always ends the pass off, whatever the state was
    ensures sw3 == Pressed ==> r == Off
    ensures sw3 != Pressed ==> r == s
  {
    ToggleStep(s, sw3, sw3)
  }

  /** The delayed toggle ends a pass with the LED turned on only across a
      release that falls between its two readings of SW3. */
  lemma TurnsOnOnlyAcrossRelease(s: ToggleState, sw3First: Bit, sw3Second: Bit)
    requires !s.onState && ToggleStep(s, sw3First, sw3Second).onState
    ensures sw3First == Pressed && sw3Second == NotPressed
  {
  }

  /** A pass that starts on runs no pause between its two readings of SW3.
      When the two readings agree, the pass ends off exactly when SW3 reads
      pressed. */
  lemma SameReadingFromOn(s: ToggleState, sw3: Bit)
    requires s.onState
    ensures ToggleStep(s, sw3, sw3).onState <==> sw3 != Pressed
  {
  }

  /** The state after one delayed pass per input, in order. */
  function ToggleRun(s: ToggleState, inputs: seq<ToggleInput>): ToggleState
    decreases |inputs|
  {
    if inputs == [] then s
    else
      var last := inputs[|inputs| - 1];
      ToggleStep(ToggleRun(s, inputs[..|inputs| - 1]), last.sw3First, last.sw3Second)
  }

  /** The state after one no-delay pass per reading, in order. */
  function NoDelayRun(s: ToggleState, levels: seq<Bit>): ToggleState
    decreases |levels|
  {
    if levels == [] then s
    else ToggleStepNoDelay(NoDelayRun(s, levels[..|levels| - 1]), levels[|levels| - 1])
  }

  /** The no-delay toggle cannot be switched on: it ends on only if it
      started on and SW3 was never read pressed. */
  lemma {:induction false} NoDelayNeverTurnsOn(s: ToggleState, levels: seq<Bit>)
    ensures NoDelayRun(s, levels).onState <==> s.onState && forall i :: 0 <= i < |levels| ==> levels[i] != Pressed
    decreases |levels|
  {
    if levels != [] {
      var init := levels[..|levels| - 1];
      NoDelayNeverTurnsOn(s, init);
      assert forall i :: 0 <= i < |init| ==> init[i] == levels[i];
    }
  }

  /** Holding SW3 through whole passes of the delayed toggle ends every one
      of them off: a held button is not one toggle. */
  lemma HeldButtonEndsOff(s: ToggleState, inputs: seq<ToggleInput>)
    requires |inputs| > 0
    requires forall i :: 0 <= i < |inputs| ==> inputs[i].sw3First == Pressed && inputs[i].sw3Second == Pressed
    ensures ToggleRun(s, inputs) == Off
  {
  }

  /** The program's globals, updated in place on every pass of `while(1)`. */
  class ToggleBoard {
    var onState: bool
    var led4: Bit

    function State(): ToggleState
      reads this
    {
      ToggleState(onState, led4)
    }

    constructor ()
      ensures State() == Off
    {
      onState := false;
      led4 := 0;
    }

    /** The delayed toggle of the program's loop. The 200 ms pauses are not
        timed; `sw3Second` is the reading taken at the second test. */
    method Step(sw3First: Bit, sw3Second: Bit)
      modifies this
      ensures State() == ToggleStep(old(State()), sw3First, sw3Second)
    {
      if sw3First == Pressed && onState == false {
        led4 := 1;
        onState := true;
      }
      if onState == true && sw3Second == Pressed {
        led4 := 0;
        onState := false;
      }
    }

    /** The no-delay toggle. */
    method StepNoDelay(sw3: Bit)
      modifies this
      ensures State() == ToggleStepNoDelay(old(State()), sw3)
    {
      if sw3 == Pressed && onState == false {
        led4 := 1;
        onState := true;
      }
      if onState == true && sw3 == Pressed {
        led4 := 0;
        onState := false;
      }
    }

    /** The program's `while(1)` loop over a finite sequence of samples. A
        pass that reads SW1 pressed enters the bootloader, which ends the
        loop; `passes` is the number of passes run. */
    method Run(inputs: seq<ToggleInput>) returns (passes: nat)
      modifies this
      ensures passes <= |inputs|
      ensures State() == ToggleRun(old(State()), inputs[..passes])
      ensures forall i :: 0 <= i < passes - 1 ==> inputs[i].sw1 != Pressed
      ensures passes == |inputs| || (passes > 0 && inputs[passes - 1].sw1 == Pressed)
    {
      passes := 0;
      while passes < |inputs|
        invariant 0 <= passes <= |inputs|
        invariant State() == ToggleRun(old(State()), inputs[..passes])
        invariant forall i :: 0 <= i < passes ==> inputs[i].sw1 != Pressed
      {
        Step(inputs[passes].sw3First, inputs[passes].sw3Second);
        assert inputs[..passes + 1][..passes] == inputs[..passes];
        passes := passes + 1;
        if inputs[passes - 1].sw1 == Pressed {
          return;
        }
      }
    }
  }
}
