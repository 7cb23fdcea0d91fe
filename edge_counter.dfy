/** The press counter exercise: each new press of SW2 adds one to SW2Count
    (saturating at 255) and lights LED3 while held; LED4 lights once the
    count reaches maxCount; SW3 resets the count and turns LED4 off. */
module EdgeCounter {
  import opened Board
  import opened PressCounter

  /** The globals the loop body updates: SW2Count, SW2Pressed and LED3 as
      `sw2`, and the threshold LED. */
  datatype CounterState = CounterState(sw2: Player, led4: Bit)

  /** The samples of one pass: SW2 and the reset button SW3. */
  datatype CounterInput = CounterInput(sw2: Bit, sw3: Bit)

  const Initial: CounterState := CounterState(Idle, 0)

  /** One pass of the loop body: count a new press, clear the flag on
      release, drive LED4 from the count, then apply the SW3 reset. */
  function CounterStep(s: CounterState, input: CounterInput): (r: CounterState)
    // at the end of every pass LED4 shows whether the count has reached maxCount
    ensures r.led4 == 1 <==> r.sw2.count >= MaxCount
    // the reset wins over the threshold result computed just before it
    ensures input.sw3 == Pressed ==> r.sw2.count == 0 && r.led4 == 0
    ensures input.sw3 != Pressed ==> r.sw2 == PlayerStep(s.sw2, input.sw2)
    // the reset touches neither the pressed flag nor LED3
    ensures r.sw2.pressed == PlayerStep(s.sw2, input.sw2).pressed
    ensures r.sw2.pressLed == PlayerStep(s.sw2, input.sw2).pressLed
  {
    var p := PlayerStep(s.sw2, input.sw2);
    var led4: Bit := if p.count >= MaxCount then 1 else 0;
    if input.sw3 == Pressed then CounterState(p.(count := 0), 0) else CounterState(p, led4)
  }

  /** The state after one pass per input, in order. */
  function CounterRun(s: CounterState, inputs: seq<CounterInput>): CounterState
    decreases |inputs|
  {
    if inputs == [] then s
    else CounterStep(CounterRun(s, inputs[..|inputs| - 1]), inputs[|inputs| - 1])
  }

  /** The passes that sample SW2 at `levels` while SW3 stays released. */
  function NoReset(levels: seq<Bit>): (inputs: seq<CounterInput>)
  {
    seq(|levels|, i requires 0 <= i < |levels| => CounterInput(levels[i], NotPressed))
  }

  /** Without the reset button, the loop is the press-edge counter over the
      SW2 samples: the count is the start count plus the new presses,
      saturated at 255. */
  lemma {:induction false} CounterCountsPresses(s: CounterState, levels: seq<Bit>)
    ensures CounterRun(s, NoReset(levels)).sw2 == PlayerRun(s.sw2, levels)
    ensures CounterRun(s, NoReset(levels)).sw2.count == SatAdd(s.sw2.count, Presses(s.sw2.pressed, levels))
    decreases |levels|
  {
    if levels != [] {
      var init := levels[..|levels| - 1];
      assert NoReset(levels)[..|levels| - 1] == NoReset(init);
      CounterCountsPresses(s, init);
    }
    PlayerRunCounts(s.sw2, levels);
  }

  /** From start-up, `n` press-and-release pairs of SW2 leave the count at
      `n` (saturated) and LED4 lit exactly when `n` reaches maxCount; in
      particular LED4 lights at the 100th press. */
  lemma PairsReachThreshold(n: nat)
    ensures CounterRun(Initial, NoReset(PressReleasePairs(n))).sw2.count == SatAdd(0, n)
    ensures CounterRun(Initial, NoReset(PressReleasePairs(n))).led4 == 1 <==> n >= MaxCount as int
  {
    var levels := PressReleasePairs(n);
    CounterCountsPresses(Initial, levels);
    PairsArePresses(n);
  }

  /** The program's globals, updated in place on every pass of `while(1)`. */
  class CounterBoard {
    var sw2Count: Byte
    var sw2Pressed: bool
    var led3: Bit
    var led4: Bit

    function State(): CounterState
      reads this
    {
      CounterState(Player(sw2Count, sw2Pressed, led3), led4)
    }

    constructor ()
      ensures State() == Initial
    {
      sw2Count := 0;
      sw2Pressed := false;
      led3 := 0;
      led4 := 0;
    }

    /** The loop body; `sw2` is read by both of its SW2 tests, `sw3` by the reset test. */
    method Step(sw2: Bit, sw3: Bit)
      modifies this
      ensures State() == CounterStep(old(State()), CounterInput(sw2, sw3))
    {
      if sw2 == Pressed && sw2Pressed == false {
        led3 := 1;
        if sw2Count < 255 {
          sw2Count := sw2Count + 1;
        }
        sw2Pressed := true;
      }
      if sw2 == NotPressed {
        led3 := 0;
        sw2Pressed := false;
      }
      if sw2Count >= MaxCount {
        led4 := 1;
      } else {
        led4 := 0;
      }
      if sw3 == Pressed {
        led4 := 0;
        sw2Count := 0;
      }
    }

    /** The `while(1)` loop over a finite sequence of samples. */
    method Run(inputs: seq<CounterInput>)
      modifies this
      ensures State() == CounterRun(old(State()), inputs)
    {
      var i := 0;
      while i < |inputs|
        invariant 0 <= i <= |inputs|
        invariant State() == CounterRun(old(State()), inputs[..i])
      {
        Step(inputs[i].sw2, inputs[i].sw3);
        assert inputs[..i + 1][..i] == inputs[..i];
        i := i + 1;
      }
      assert inputs[..i] == inputs;
    }
  }
}
