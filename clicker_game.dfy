/** The two-player rapid-clicker game: player 1 presses SW2 (count
    SW2Count, LED3 while pressed, LED4 when winning), player 2 presses SW5
    (count SW5Count, LED6 while pressed, LED5 when winning). Once a winner
    LED is lit, pressing SW3 and SW4 together starts a new game. */
module ClickerGame {
  import opened Board
  import opened PressCounter

  datatype GameState = GameState(sw2: Player, sw5: Player, led4: Bit, led5: Bit)

  /** The samples of one pass: both players' buttons, and SW3 and SW4, which
      are read only after the pause that follows a lit winner LED. */
  datatype GameInput = GameInput(sw2: Bit, sw5: Bit, sw3: Bit, sw4: Bit)

  const Initial: GameState := GameState(Idle, Idle, 0, 0)

  /** The new-game chord: SW3 and SW4 both pressed. */
  predicate ResetChord(input: GameInput)
  {
    input.sw3 == Pressed && input.sw4 == Pressed
  }

  /** The new-game reset fires on this pass: the chord is played while a
      winner LED, just written from the updated counts, is lit. */
  predicate ResetFires(s: GameState, input: GameInput)
  {
    ResetChord(input) && (PlayerStep(s.sw2, input.sw2).count >= MaxCount || PlayerStep(s.sw5, input.sw5).count >= MaxCount)
  }

  /** One pass: player 1's counter and LED4, player 2's counter and LED5,
      then the new-game test, which reads the LEDs just written. */
  function GameStep(s: GameState, input: GameInput): (r: GameState)
    // each winner LED shows whether its player's count has reached maxCount
    ensures r.led4 == 1 <==> r.sw2.count >= MaxCount
    ensures r.led5 == 1 <==> r.sw5.count >= MaxCount
    // a player's flag and press LED come from that player's own button only
    ensures r.sw2.pressed == PlayerStep(s.sw2, input.sw2).pressed
    ensures r.sw2.pressLed == PlayerStep(s.sw2, input.sw2).pressLed
    ensures r.sw5.pressed == PlayerStep(s.sw5, input.sw5).pressed
    ensures r.sw5.pressLed == PlayerStep(s.sw5, input.sw5).pressLed
    // without the chord, each player's count comes from that player's own button only
    ensures !ResetChord(input) ==> r.sw2 == PlayerStep(s.sw2, input.sw2) && r.sw5 == PlayerStep(s.sw5, input.sw5)
    // a count is cleared only by the chord, and only when somebody has won
    ensures r.sw2.count != PlayerStep(s.sw2, input.sw2).count || r.sw5.count != PlayerStep(s.sw5, input.sw5).count
      ==> ResetFires(s, input)
    ensures !ResetFires(s, input) ==> r.sw2 == PlayerStep(s.sw2, input.sw2) && r.sw5 == PlayerStep(s.sw5, input.sw5)
    // with a winner, the chord clears both counts and both winner LEDs
    ensures ResetFires(s, input) ==> r.sw2.count == 0 && r.sw5.count == 0 && r.led4 == 0 && r.led5 == 0
  {
    var p1 := PlayerStep(s.sw2, input.sw2);
    var led4: Bit := if p1.count >= MaxCount then 1 else 0;
    var p2 := PlayerStep(s.sw5, input.sw5);
    var led5: Bit := if p2.count >= MaxCount then 1 else 0;
    if (led4 == 1 || led5 == 1) && ResetChord(input)
    then GameState(p1.(count := 0), p2.(count := 0), 0, 0)
    else GameState(p1, p2, led4, led5)
  }

  /** The state after one pass per input, in order. */
  function GameRun(s: GameState, inputs: seq<GameInput>): GameState
    decreases |inputs|
  {
    if inputs == [] then s
    else GameStep(GameRun(s, inputs[..|inputs| - 1]), inputs[|inputs| - 1])
  }

  /** Player 1's samples. */
  function Sw2Levels(inputs: seq<GameInput>): (levels: seq<Bit>)
  {
    seq(|inputs|, i requires 0 <= i < |inputs| => inputs[i].sw2)
  }

  /** Player 2's samples. */
  function Sw5Levels(inputs: seq<GameInput>): (levels: seq<Bit>)
  {
    seq(|inputs|, i requires 0 <= i < |inputs| => inputs[i].sw5)
  }

  /** As long as the new-game reset never fires (the chord alone does
      nothing while no winner LED is lit), each player's counter is exactly
      the single-button press counter over that player's own samples,
      whatever the other player does. */
  lemma {:induction false} PlayersAreIndependent(s: GameState, inputs: seq<GameInput>)
    requires forall i :: 0 <= i < |inputs| ==> !ResetFires(GameRun(s, inputs[..i]), inputs[i])
    ensures GameRun(s, inputs).sw2 == PlayerRun(s.sw2, Sw2Levels(inputs))
    ensures GameRun(s, inputs).sw5 == PlayerRun(s.sw5, Sw5Levels(inputs))
    decreases |inputs|
  {
    if inputs != [] {
      var init := inputs[..|inputs| - 1];
      forall i | 0 <= i < |init|
        ensures !ResetFires(GameRun(s, init[..i]), init[i])
      {
        assert init[..i] == inputs[..i];
      }
      assert Sw2Levels(inputs)[..|inputs| - 1] == Sw2Levels(init);
      assert Sw5Levels(inputs)[..|inputs| - 1] == Sw5Levels(init);
      PlayersAreIndependent(s, init);
    }
  }

  /** Consequently each player's count is that player's new presses,
      saturated at 255. */
  lemma PlayerCountsOwnPresses(s: GameState, inputs: seq<GameInput>)
    requires forall i :: 0 <= i < |inputs| ==> !ResetFires(GameRun(s, inputs[..i]), inputs[i])
    ensures GameRun(s, inputs).sw2.count == SatAdd(s.sw2.count, Presses(s.sw2.pressed, Sw2Levels(inputs)))
    ensures GameRun(s, inputs).sw5.count == SatAdd(s.sw5.count, Presses(s.sw5.pressed, Sw5Levels(inputs)))
  {
    PlayersAreIndependent(s, inputs);
    PlayerRunCounts(s.sw2, Sw2Levels(inputs));
    PlayerRunCounts(s.sw5, Sw5Levels(inputs));
  }

  /** The program's globals, updated in place on every pass of `while(1)`. */
  class GameBoard {
    var sw2Count: Byte
    var sw2Pressed: bool
    var sw5Count: Byte
    var sw5Pressed: bool
    var led3: Bit
    var led4: Bit
    var led5: Bit
    var led6: Bit

    function State(): GameState
      reads this
    {
      GameState(Player(sw2Count, sw2Pressed, led3), Player(sw5Count, sw5Pressed, led6), led4, led5)
    }

    constructor ()
      ensures State() == Initial
    {
      sw2Count, sw2Pressed, led3, led4 := 0, false, 0, 0;
      sw5Count, sw5Pressed, led6, led5 := 0, false, 0, 0;
    }

    /** The loop body of the game. */
    method Step(sw2: Bit, sw5: Bit, sw3: Bit, sw4: Bit)
      modifies this
      ensures State() == GameStep(old(State()), GameInput(sw2, sw5, sw3, sw4))
    {
      // player 1
      if sw2 == Pressed && sw2Pressed == false {
        led3 := 1;
        if sw2Count < 255 {
          sw2Count := sw2Count + 1;
        }
        sw2Pressed := true;
      }
      if sw2 == NotPressed {
        led3 := 0;
        sw2Pressed := false;
      }
      if sw2Count >= MaxCount {
        led4 := 1;
      } else {
        led4 := 0;
      }
      // player 2
      if sw5 == Pressed && sw5Pressed == false {
        led6 := 1;
        if sw5Count < 255 {
          sw5Count := sw5Count + 1;
        }
        sw5Pressed := true;
      }
      if sw5 == NotPressed {
        led6 := 0;
        sw5Pressed := false;
      }
      if sw5Count >= MaxCount {
        led5 := 1;
      } else {
        led5 := 0;
      }
      // new game
      if led4 == 1 || led5 == 1 {
        if sw3 == Pressed && sw4 == Pressed {
          led4 := 0;
          sw2Count := 0;
          led5 := 0;
          sw5Count := 0;
        }
      }
    }

    /** The `while(1)` loop over a finite sequence of samples. */
    method Run(inputs: seq<GameInput>)
      modifies this
      ensures State() == GameRun(old(State()), inputs)
    {
      var i := 0;
      while i < |inputs|
        invariant 0 <= i <= |inputs|
        invariant State() == GameRun(old(State()), inputs[..i])
      {
        Step(inputs[i].sw2, inputs[i].sw5, inputs[i].sw3, inputs[i].sw4);
        assert inputs[..i + 1][..i] == inputs[..i];
        i := i + 1;
      }
      assert inputs[..i] == inputs;
    }
  }
}
