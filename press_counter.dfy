/** The press-edge detector of one pushbutton: a saturating count of
    discrete presses, the flag remembering that the button was already
    pressed on the previous pass, and the LED that shows the press.
    The single-button counter uses it for SW2 (SW2Count, SW2Pressed, LED3);
    the two-player game uses it for SW2 and for SW5 (SW5Count, SW5Pressed, LED6). */
module PressCounter {
  import opened Board

  datatype Player = Player(count: Byte, pressed: bool, pressLed: Bit)

  /** The start-up values: count 0, flag false, LED off. */
  const Idle: Player := Player(0, false, 0)

  /** `count + n`, saturated at 255. */
  function SatAdd(count: Byte, n: nat): Byte
  {
    if count as int + n < 255 then (count as int + n) as Byte else 255
  }

  /** One pass over the two `if` statements that count a new press and
      clear the flag on release. Both read the same sample of the button. */
  function PlayerStep(p: Player, level: Bit): (r: Player)
    // the flag always ends equal to the level just sampled: a release clears
    // it whatever it was, and a held press keeps it set
    ensures r.pressed <==> level == Pressed
    // a count is added only on a new press, and never past 255
    ensures level == Pressed && !p.pressed ==> r.count == SatAdd(p.count, 1) && r.pressLed == 1
    ensures !(level == Pressed && !p.pressed) ==> r.count == p.count
    ensures level == NotPressed ==> r.pressLed == 0
    ensures level == Pressed && p.pressed ==> r.pressLed == p.pressLed
  {
    var afterPress :=
      if level == Pressed && !p.pressed
      then Player(if p.count < 255 then p.count + 1 else p.count, true, 1)
      else p;
    if level == NotPressed then afterPress.(pressed := false, pressLed := 0) else afterPress
  }

  /** The state after one pass per sample of `levels`, in order. */
  function PlayerRun(p: Player, levels: seq<Bit>): Player
    decreases |levels|
  {
    if levels == [] then p
    else PlayerStep(PlayerRun(p, levels[..|levels| - 1]), levels[|levels| - 1])
  }

  /** Whether the last sample of `levels` was a press (`prev` when there is none). */
  function LastPressed(prev: bool, levels: seq<Bit>): bool
  {
    if levels == [] then prev else levels[|levels| - 1] == Pressed
  }

  /** The number of new presses in `levels`: samples that read pressed when
      the sample before them (`prev` for the first one) did not. */
  function Presses(prev: bool, levels: seq<Bit>): (n: nat)
    ensures n <= |levels|
    decreases |levels|
  {
    if levels == [] then 0
    else
      var init := levels[..|levels| - 1];
      Presses(prev, init) + (if levels[|levels| - 1] == Pressed && !LastPressed(prev, init) then 1 else 0)
  }

  /** The counter counts new presses, not passes: after any sequence of
      samples the count is the start count plus the number of new presses,
      saturated at 255, and the flag is the last sample. */
  lemma {:induction false} PlayerRunCounts(p: Player, levels: seq<Bit>)
    ensures PlayerRun(p, levels).count == SatAdd(p.count, Presses(p.pressed, levels))
    ensures PlayerRun(p, levels).pressed == LastPressed(p.pressed, levels)
    decreases |levels|
  {
    if levels != [] {
      PlayerRunCounts(p, levels[..|levels| - 1]);
    }
  }

  /** A press held over any number of passes adds at most one count: one if
      the button was not already pressed, none if it was. */
  lemma {:induction false} HeldPressCountsOnce(p: Player, levels: seq<Bit>)
    requires |levels| > 0
    requires forall i :: 0 <= i < |levels| ==> levels[i] == Pressed
    ensures PlayerRun(p, levels).count == if p.pressed then p.count else SatAdd(p.count, 1)
    ensures PlayerRun(p, levels).pressed
    decreases |levels|
  {
    var init := levels[..|levels| - 1];
    if init == [] {
    } else {
      HeldPressCountsOnce(p, init);
    }
  }

  /** Because a release always clears the flag, press, release, press adds
      two counts (one if the button was already held at the start). */
  lemma PressReleasePress(p: Player)
    ensures PlayerRun(p, [Pressed, NotPressed, Pressed]).count == SatAdd(p.count, if p.pressed then 1 else 2)
  {
    var first := PlayerStep(p, Pressed);
    var released := PlayerStep(first, NotPressed);
    var second := PlayerStep(released, Pressed);
    assert [Pressed][..0] == [];
    assert PlayerRun(p, [Pressed]) == first;
    assert [Pressed, NotPressed][..1] == [Pressed];
    assert PlayerRun(p, [Pressed, NotPressed]) == released;
    assert [Pressed, NotPressed, Pressed][..2] == [Pressed, NotPressed];
    assert PlayerRun(p, [Pressed, NotPressed, Pressed]) == second;
  }

  /** `n` press-and-release pairs. */
  function PressReleasePairs(n: nat): (levels: seq<Bit>)
    ensures |levels| == 2 * n
  {
    if n == 0 then [] else PressReleasePairs(n - 1) + [Pressed, NotPressed]
  }

  /** `n` press-and-release pairs are `n` new presses, and leave the button released. */
  lemma {:induction false} PairsArePresses(n: nat)
    ensures Presses(false, PressReleasePairs(n)) == n
    ensures !LastPressed(false, PressReleasePairs(n))
  {
    if n > 0 {
      PairsArePresses(n - 1);
      var before := PressReleasePairs(n - 1);
      var levels := PressReleasePairs(n);
      assert levels[..|levels| - 1] == before + [Pressed];
      assert (before + [Pressed])[..|before|] == before;
    }
  }
}
