# UBMP4 Intro-2-Variables, modelled in Dafny

The program runs on the UBMP4 board (an 8-bit PIC microcontroller). Its
`main` is one polling loop. Each pass reads the pushbuttons, updates a few
`unsigned char` and `bool` globals, and drives the LEDs. The buttons are
active-low: `pressed` is 0 and `notPressed` is 1. The constant `maxCount`
is 100.

The loop that is compiled holds only the toggle button on SW3/LED4, plus the
SW1 bootloader test. The other behaviours are exercise variants of the loop
body, written inside the program's closing comment block. Each one is
modelled as its own variant:

- `EdgeCounter`: SW2 presses are counted in `SW2Count`, which saturates at
  255. LED3 is lit while SW2 is held. LED4 is lit once the count reaches
  `maxCount`. SW3 resets the count.
- `ClickerGame`: two players with the same counter, on SW2 and on SW5. LED4
  and LED5 are the winner LEDs. SW3 and SW4 pressed together start a new
  game, but only once somebody has won.
- `Toggle`: the delayed toggle of the live loop, and the no-delay variant.
- `HoldButton`: the multi-function button. `SW3Count` counts passes while
  SW3 is held.

`Board` holds the levels (`Bit`), the 8-bit `unsigned char` (`Byte`) and the
constants. `PressCounter` is the press-edge detector of one button. The
counter variant uses it once and the game uses it twice.

Each variant has three parts:

- A datatype holding its globals.
- A pure step function for one pass. Its contract states what the pass
  means.
- A class whose fields are the C globals. The class `Step` method is the
  sequence of `if` statements as the program writes them. Its `Run` method
  is the `while(1)` loop over a finite sequence of samples. Both are proved
  equal to the step function and to the run function (one step per input).

Lemmas over finite input sequences state the multi-pass properties.

How the hardware is abstracted:

- A switch register is a `Bit` parameter of `Step`, and an LED register is
  a `Bit` field.
- When the program reads the same switch twice with no delay in between,
  the model takes both reads as one sample.
- A read that follows a `__delay_ms` pause is a separate sample.
- The live toggle always takes two SW3 samples per pass, one for each of its
  two tests. When a pass starts off and the first test turns the LED on, a
  200 ms pause separates the two reads. When a pass starts on, the first
  branch does not run and the second read follows the first at once. The
  model still lets those two back-to-back reads differ, so it covers more
  inputs than the board can produce. When both reads agree, a pass that
  starts on ends off exactly when SW3 reads pressed
  (`Toggle.SameReadingFromOn`).
- The pauses themselves are not timed.

Where the comments and the code disagree, the model follows the code:

- The comment of the two-player exercise asks for a game reset when either
  SW3 or SW4 is pressed. The code resets only when both are pressed, and
  only while a winner LED is lit.
- A toggle button is usually described as flipping once per press, with a
  held press counting as one toggle. The live delayed toggle does not do
  that. Every pass that reads SW3 pressed at both tests ends off, so a held
  button flickers and ends each pass off (`Toggle.HeldButtonEndsOff`). A
  pass from off ends on only if SW3 is released between the two readings.
- The no-delay toggle can never switch on: from off it stays off, and once
  on, the first pressed reading turns it off for good
  (`Toggle.NoDelayNeverTurnsOn`).

## Model

| member | source | states |
|---|---|---|
| `Board.Inc8` | UBMP4-Intro-2-Variables.X/Intro-2-Variables.c:357 | `SW3Count ++` on an `unsigned char` adds one below 255 and wraps 255 to 0 |
| `PressCounter.PlayerStep` | UBMP4-Intro-2-Variables.X/Intro-2-Variables.c:213-229 | after a pass, the pressed flag equals the level just sampled (a release clears it whatever it was); the count goes up by one, capped at 255, only on a press while the flag was clear, and is otherwise unchanged; the press LED lights on a new press, goes off on release, and is kept during a held press |
| `PressCounter.PlayerRunCounts` | UBMP4-Intro-2-Variables.X/Intro-2-Variables.c:213-229 | over any sequence of samples, the count is the start count plus the number of not-pressed-to-pressed transitions, saturated at 255; the flag is the last sample |
| `PressCounter.HeldPressCountsOnce` | UBMP4-Intro-2-Variables.X/Intro-2-Variables.c:180-188 | a press held over any number of passes adds exactly one count from a clear flag and none if the flag was already set |
| `PressCounter.PressReleasePress` | UBMP4-Intro-2-Variables.X/Intro-2-Variables.c:224-229 | pressed, released, pressed adds two counts (capped at 255), or one if the button was already held at the start, because the release clears the flag |
| `PressCounter.PairsArePresses` | UBMP4-Intro-2-Variables.X/Intro-2-Variables.c:213-229 | `n` press/release pairs are exactly `n` new presses and leave the flag clear |
| `EdgeCounter.CounterStep` | UBMP4-Intro-2-Variables.X/Intro-2-Variables.c:213-245 | at the end of every pass LED4 is on exactly when `SW2Count >= maxCount`; a pressed SW3 ends the pass with count 0 and LED4 off, overriding the threshold; otherwise SW2's counter takes one press-counter step; the reset leaves the flag and LED3 alone |
| `EdgeCounter.CounterCountsPresses` | UBMP4-Intro-2-Variables.X/Intro-2-Variables.c:213-238 | with SW3 released throughout, the loop is the press counter over the SW2 samples: count = start + new presses, saturated at 255 |
| `EdgeCounter.PairsReachThreshold` | UBMP4-Intro-2-Variables.X/Intro-2-Variables.c:213-238 | from start-up, `n` press/release pairs (`maxCount` = 100, line 25) leave the count at `min(n, 255)`, with LED4 lit exactly when `n >= 100` |
| `EdgeCounter.CounterBoard.constructor` | UBMP4-Intro-2-Variables.X/Intro-2-Variables.c:30-31 | the globals start at count 0 and flag false, with LEDs off |
| `EdgeCounter.CounterBoard.Step` | UBMP4-Intro-2-Variables.X/Intro-2-Variables.c:213-245 | the in-place sequence of `if` statements, including the guarded increment that never leaves 8 bits, updates the globals exactly as `CounterStep` does |
| `EdgeCounter.CounterBoard.Run` | UBMP4-Intro-2-Variables.X/Intro-2-Variables.c:50-76 | the loop over a finite sequence of samples leaves the globals at `CounterRun` of the inputs |
| `ClickerGame.GameStep` | UBMP4-Intro-2-Variables.X/Intro-2-Variables.c:261-327 | each winner LED is on exactly when its player's count is at least `maxCount`; flags and press LEDs come from the player's own button only; without the SW3+SW4 chord, each player takes its own press-counter step; a count is cleared only by the chord while a winner LED is lit, and then both counts and both winner LEDs are cleared |
| `ClickerGame.PlayersAreIndependent` | UBMP4-Intro-2-Variables.X/Intro-2-Variables.c:261-327 | as long as the new-game reset never fires (no SW3+SW4 chord while a winner LED is lit), each player's counter is exactly the single-button counter over that player's own samples, whatever the other player does |
| `ClickerGame.PlayerCountsOwnPresses` | UBMP4-Intro-2-Variables.X/Intro-2-Variables.c:261-327 | as long as the new-game reset never fires, each player's count is that player's new presses, saturated at 255 |
| `ClickerGame.GameBoard.constructor` | UBMP4-Intro-2-Variables.X/Intro-2-Variables.c:30-34 | both players start at count 0 with clear flags, and all LEDs are off |
| `ClickerGame.GameBoard.Step` | UBMP4-Intro-2-Variables.X/Intro-2-Variables.c:261-327 | the in-place game body, where the reset test reads the LEDs just written, updates the globals exactly as `GameStep` does |
| `ClickerGame.GameBoard.Run` | UBMP4-Intro-2-Variables.X/Intro-2-Variables.c:50-76 | the loop over a finite sequence of samples leaves the globals at `GameRun` of the inputs |
| `Toggle.ToggleStep` | UBMP4-Intro-2-Variables.X/Intro-2-Variables.c:52-63 | from off, a press ends the pass on exactly when SW3 reads released at the second test; from on, the pass ends off exactly when SW3 reads pressed at the second test; from off with SW3 released nothing changes; each branch that runs sets LED4 and `LED4OnState` alike, so LED4 stays in step with the state |
| `Toggle.ToggleStepNoDelay` | UBMP4-Intro-2-Variables.X/Intro-2-Variables.c:335-344 | a pressed SW3 ends the pass off with LED4 off, whatever the state was; a released SW3 changes nothing |
| `Toggle.TurnsOnOnlyAcrossRelease` | UBMP4-Intro-2-Variables.X/Intro-2-Variables.c:52-63 | the delayed toggle can end a pass on from off only if SW3 reads pressed at the first test and released at the second |
| `Toggle.SameReadingFromOn` | UBMP4-Intro-2-Variables.X/Intro-2-Variables.c:52-63 | when a pass starts on and both SW3 reads agree, as they do when no pause separates them, the pass ends off exactly when SW3 reads pressed |
| `Toggle.NoDelayNeverTurnsOn` | UBMP4-Intro-2-Variables.X/Intro-2-Variables.c:335-344 | after any sequence of readings, the no-delay toggle is on exactly when it started on and SW3 was never read pressed |
| `Toggle.HeldButtonEndsOff` | UBMP4-Intro-2-Variables.X/Intro-2-Variables.c:52-63 | holding SW3 through one or more whole passes of the delayed toggle ends off, with LED4 off, from any state |
| `Toggle.ToggleBoard.constructor` | UBMP4-Intro-2-Variables.X/Intro-2-Variables.c:39 | `LED4OnState` starts false, with LED4 off |
| `Toggle.ToggleBoard.Step` | UBMP4-Intro-2-Variables.X/Intro-2-Variables.c:52-63 | the in-place delayed toggle updates `LED4OnState` and LED4 exactly as `ToggleStep` does |
| `Toggle.ToggleBoard.StepNoDelay` | UBMP4-Intro-2-Variables.X/Intro-2-Variables.c:335-344 | the in-place no-delay toggle updates `LED4OnState` and LED4 exactly as `ToggleStepNoDelay` does |
| `Toggle.ToggleBoard.Run` | UBMP4-Intro-2-Variables.X/Intro-2-Variables.c:50-76 | the live loop runs one delayed toggle pass per input and stops after the first pass that reads SW1 pressed (bootloader entry); the state is `ToggleRun` of the passes run |
| `HoldButton.HoldStep` | UBMP4-Intro-2-Variables.X/Intro-2-Variables.c:355-366 | while SW3 is held, `SW3Count` goes up by one per pass (wrapping at 8 bits) and LED3 is on; LED4 is turned on by a count above `maxCount` and never turned off while held; a release clears the count and both LEDs |
| `HoldButton.HoldFor` | UBMP4-Intro-2-Variables.X/Intro-2-Variables.c:355-366 | holding SW3 for `n` passes from release leaves the count at `n mod 256`, LED3 on for `n > 0`, and LED4 on exactly when `n > 100` |
| `HoldButton.Led4SurvivesWrap` | UBMP4-Intro-2-Variables.X/Intro-2-Variables.c:357-360 | after 257 held passes `SW3Count` has wrapped round to 1, yet LED4 is still on |
| `HoldButton.HoldBoard.constructor` | UBMP4-Intro-2-Variables.X/Intro-2-Variables.c:37 | `SW3Count` starts at 0, with LED3 and LED4 off |
| `HoldButton.HoldBoard.Step` | UBMP4-Intro-2-Variables.X/Intro-2-Variables.c:355-366 | the in-place multi-function button updates the globals exactly as `HoldStep` does |
| `HoldButton.HoldBoard.Run` | UBMP4-Intro-2-Variables.X/Intro-2-Variables.c:50-76 | the loop over a finite sequence of readings leaves the globals at `HoldRun` of the inputs |

## Left out

- `OSC_config()` and `UBMP4_config()` (board set-up): `UBMP4.h` is not part of this model. The constructors assume the LED outputs start off.
- The `__delay_ms` pauses and the loop's 10 ms tick: they are not timed. A read after a pause is a new sample, and reads with no pause between them are one sample.
- `RESET()`: the hardware restart into the bootloader is modelled only as the end of the live loop in `Toggle.ToggleBoard.Run`. The exercise variants model their loop body alone, without the surrounding SW1 test.
- The switch-bounce exercise fragment (lines 383-410): it declares a variable inside the loop body, and its `PushCount + 1;` has no effect, so it states no behaviour to model.
- The earlier, superseded drafts of the counter in the comments (lines 116-123, 138-141, 162-178) are not modelled separately. The modelled fragment at lines 213-245 contains the guarded increment of lines 138-141 and the edge detection of lines 162-178.
- The unused global `SW4Pressed` (line 36).
- The register-level behaviour of the SWn and LEDn pins (latches, analog levels, contact bounce): switches are abstracted as sampled `Bit` values and LEDs as `Bit` outputs.
- The endless `while(1)`: it is modelled as a loop over a finite sequence of inputs.
