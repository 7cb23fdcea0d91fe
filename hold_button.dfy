/** The multi-function button on SW3: LED3 lights while SW3 is held, and
    LED4 lights once SW3 has been held for more than maxCount passes.
    SW3Count counts passes, not presses. */
module HoldButton {
  import opened Board

  datatype HoldState = HoldState(sw3Count: Byte, led3: Bit, led4: Bit)

  /** The state every release leaves: count 0, both LEDs off. */
  const Released: HoldState := HoldState(0, 0, 0)

  /** One pass of the multi-function button. */
  function HoldStep(s: HoldState, sw3: Bit): (r: HoldState)
    // while held, the count goes up by one per pass (wrapping at 8 bits) and LED3 is on
    ensures sw3 == Pressed ==> r.sw3Count == Inc8(s.sw3Count) && r.led3 == 1
    // while held, LED4 is switched on by a count above maxCount and never switched off
    ensures sw3 == Pressed ==> (r.led4 == 1 <==> r.sw3Count > MaxCount || s.led4 == 1)
    // a release clears the count and both LEDs
    ensures sw3 != Pressed ==> r == Released
  {
    if sw3 == Pressed then
      var count := Inc8(s.sw3Count);
      HoldState(count, 1, if count > MaxCount then 1 else s.led4)
    else Released
  }

  /** The state after one pass per reading, in order. */
  function HoldRun(s: HoldState, levels: seq<Bit>): HoldState
    decreases |levels|
  {
    if levels == [] then s
    else HoldStep(HoldRun(s, levels[..|levels| - 1]), levels[|levels| - 1])
  }

  /** `n` passes with SW3 held. */
  function Held(n: nat): (levels: seq<Bit>)
    ensures |levels| == n
  {
    seq(n, i => Pressed)
  }

  /** Holding SW3 for `n` passes from release: the count is `n` modulo 256,
      LED3 is on, and LED4 is on exactly when `n` exceeds maxCount. */
  lemma {:induction false} HoldFor(n: nat)
    ensures HoldRun(Released, Held(n)) == HoldState((n % 256) as Byte, if n > 0 then 1 else 0, if n > MaxCount as int then 1 else 0)
  {
    if n > 0 {
      assert Held(n)[..n - 1] == Held(n - 1);
      HoldFor(n - 1);
    }
  }

  /** After 257 held passes SW3Count has wrapped round to 1, yet LED4 stays
      on: once lit, only a release turns it off. */
  lemma Led4SurvivesWrap()
    ensures HoldRun(Released, Held(257)).sw3Count == 1
    ensures HoldRun(Released, Held(257)).led4 == 1
  {
    HoldFor(257);
  }

  /** The program's globals, updated in place on every pass of `while(1)`. */
  class HoldBoard {
    var sw3Count: Byte
    var led3: Bit
    var led4: Bit

    function State(): HoldState
      reads this
    {
      HoldState(sw3Count, led3, led4)
    }

    constructor ()
      ensures State() == Released
    {
      sw3Count, led3, led4 := 0, 0, 0;
    }

    /** The loop body of the multi-function button. */
    method Step(sw3: Bit)
      modifies this
      ensures State() == HoldStep(old(State()), sw3)
    {
      if sw3 == Pressed {
        led3 := 1;
        sw3Count := Inc8(sw3Count);
        if sw3Count > MaxCount {
          led4 := 1;
        }
      } else {
        sw3Count := 0;
        led3 := 0;
        led4 := 0;
      }
    }

    /** The `while(1)` loop over a finite sequence of readings. */
    method Run(levels: seq<Bit>)
      modifies this
      ensures State() == HoldRun(old(State()), levels)
    {
      var i := 0;
      while i < |levels|
        invariant 0 <= i <= |levels|
        invariant State() == HoldRun(old(State()), levels[..i])
      {
        Step(levels[i]);
        assert levels[..i + 1][..i] == levels[..i];
        i := i + 1;
      }
      assert levels[..i] == levels;
    }
  }
}
