# Rotating LEDs at variable speed: a Dafny model

The firmware drives the eight LEDs on GPIO port E of an STM32F3 board, using two
FreeRTOS tasks:

- The **LED controller task** runs a four-state Mealy machine. On each pass,
  `change_state` moves the state around S0 → S1 → S2 → S3 → S0. Any other value
  is sent back to S0. `change_led_state` then shows the new state. It switches
  off all eight LEDs and lights the one pair that belongs to the state (blue,
  red, orange or green). After that the task sleeps for the current value of the
  global `delay`.
- The **speed controller task** moves `delay` up and down in steps of
  `DELAY_STEP` = 15, pausing after each step. A `direction` flag says which way
  it moves. Each inner `while` loop runs until its bound is reached, and then
  the direction is reversed.
- **`main`** clears the LEDs (`GPIO_Init`), then creates the two tasks. If a
  creation fails it calls `error_handler`, which lights the two red LEDs and
  halts. Otherwise it starts the scheduler.

The Dafny modules follow these pieces:

| file | module | what it holds |
|---|---|---|
| `types.dfy` | `Types` | `uint8_t`/`uint32_t` as `u8`/`u32`; C's unsigned add and subtract, with wrap-around modulo 2^32 written out |
| `leds.dfy` | `Leds` | the 16-bit output data register as `bv16`; the pin constants; the pair mask of each state; `Render` (the register after a state is shown); `HighLeds` (which LED pins are high) |
| `light_state.dfy` | `LightState` | the transition `NextState` and its n-fold iterate `Advance` |
| `oscillator.dfy` | `Oscillator` | the globals `delay`/`direction` as a value `Osc`; `Step`, one atomic action of the speed controller task; its iterate; the reachable-state invariant; the closed-form triangular waveform |
| `board.dfy` | `Homework` | class `Board`, whose fields (`odr`, `state`, `delay`, `direction`, and a count of task-creation calls) are updated in place by methods that mirror `HAL_GPIO_WritePin`, `GPIO_Init`, `change_led_state`, `change_state`, one pass of each task loop, `error_handler` and `main` |

`HAL_GPIO_WritePin(GPIOE, mask, level)` is modelled as `odr | mask` for
GPIO_PIN_SET and `odr & ~mask` for GPIO_PIN_RESET. This is an assumed
abstraction of the vendor call.

The methods are proved against specification functions:
- `ChangeState` ensures `state == NextState(old(state))` and
  `odr == Render(old(odr), state)`.
- `SpeedControllerIteration` ensures that the new globals equal
  `Iterate(old globals, pauses + 1)`, and that `pauses == PhaseLength(old globals)`.

The lemmas about `NextState`, `Render`, `Step` and `Iterate` state the
behaviour the program promises.

A step of the oscillator is one pass of an inner loop, which ends in a pause,
or the reversal of direction after a loop ends. Between steps the LED task may
read `delay`.

The delay does not stay within the bounds the source's comments describe.
- The comments call MIN_DELAY the minimum pause (main.c:44-49). They also say
  the delay decreases "until it reaches the minimum value" (main.c:152-154).
- The down loop, however, runs while `delay > 25`. Since 300 − 25 = 275 is not
  a multiple of 15, the last decrement takes `delay` from 30 to 15.
- The model follows the code. The reachable values are the multiples of 15 in
  [15, 300]. One period of the waveform is 40 steps: 19 decrements, a reversal,
  19 increments and a reversal.

## Model

| member | source | states |
|---|---|---|
| `Types.Add32` | homework/Core/Src/main.c:163 | `delay += DELAY_STEP` on a `uint32_t`: the exact sum when it fits in 32 bits, otherwise the sum minus 2^32 |
| `Types.Sub32` | homework/Core/Src/main.c:169 | `delay -= DELAY_STEP` on a `uint32_t`: the exact difference when no borrow occurs, otherwise the difference plus 2^32 |
| `LightState.NextState` | homework/Core/Src/main.c:183-198 | the result is always one of S0..S3; for a valid state it is the successor modulo 4 (S0→S1→S2→S3→S0); any other value gives S0 |
| `LightState.AdvanceValid` | homework/Core/Src/main.c:183-195 | n transitions from a valid state s give state (s + n) mod 4 |
| `LightState.AdvanceInvalid` | homework/Core/Src/main.c:196-198 | from an out-of-range value, n ≥ 1 transitions give (n − 1) mod 4: the first resets to S0, then the cycle runs |
| `LightState.FourStepsRestore` | homework/Core/Src/main.c:183-195 | any multiple of four transitions returns a valid state to itself |
| `Leds.PairMask` | homework/Core/Src/main.c:213-229 | the mask the `switch` sets for a state never touches pins 0-7, and it is empty exactly for an out-of-range state |
| `Leds.Render` | homework/Core/Src/main.c:210-229 | the register after `change_led_state`: pins 0-7 keep their level and the LED pins hold exactly the state's pair mask, as the reset write followed by the case's set write leaves them |
| `Leds.RenderShown` | homework/Core/Src/main.c:210-229 | showing the state the LEDs already show leaves the register unchanged |
| `Leds.PairMaskPins` | homework/Core/Src/main.c:213-229 | the mask set for S0, S1, S2, S3 has exactly pins {8,12}, {9,13}, {10,14}, {11,15}; an out-of-range value sets none; no mask touches pins 0-7 |
| `Leds.RenderLights` | homework/Core/Src/main.c:208-231 | after a state is shown, the high LED pins are exactly that state's pair, and pins 0-7 keep their old level |
| `Leds.RenderLast` | homework/Core/Src/main.c:210-211 | showing a state overwrites every LED the previous state lit: showing s and then t leaves the register as showing t alone would |
| `Leds.RenderLightsTwo` | homework/Core/Src/main.c:213-229 | a valid state lights exactly two LEDs; an out-of-range state leaves all eight off |
| `Leds.PairsPartitionLeds` | homework/Core/Src/main.c:21-28 | the four pairs are pairwise disjoint; their pins make up all eight LED pins, and their masks OR to 0xFF00 |
| `Oscillator.Step` | homework/Core/Src/main.c:161-172 | one pass of the loop whose guard holds moves the delay 15 towards that loop's bound and keeps the direction; when the guard fails the delay is kept and the direction reversed; any direction other than UP takes the down branch |
| `Oscillator.StepNeverWraps` | homework/Core/Src/main.c:162-170 | in every reachable state, `delay + 15` fits in 32 bits and `delay - 15` does not go below 0 |
| `Oscillator.StepKeepsInv` | homework/Core/Src/main.c:160-174 | one step keeps the invariant: `delay` a multiple of 15 in [15, 300] and `direction` UP or DOWN |
| `Oscillator.IterateKeepsInv` | homework/Core/Src/main.c:160-174 | any number of steps from a state that satisfies the invariant keeps it |
| `Oscillator.Reachable` | homework/Core/Src/main.c:81-88 | every state reachable from the initial values `delay = 300`, `direction = UP` satisfies the invariant, so any `delay` the LED task reads lies in [15, 300] |
| `Oscillator.UpRun` | homework/Core/Src/main.c:162-165 | while the delay has stayed below 300, k passes of the up loop add 15 k without wrapping |
| `Oscillator.DownRun` | homework/Core/Src/main.c:168-171 | while the delay has stayed above 25, k passes of the down loop subtract 15 k without wrapping, and the direction is left as it was |
| `Oscillator.PhaseEnd` | homework/Core/Src/main.c:161-173 | a whole phase (its loop passes, then the reversal) moves the delay by 15 times the number of passes and reverses the direction; any direction other than UP counts as down |
| `Oscillator.FollowsTriangle` | homework/Core/Src/main.c:158-175 | from the initial values, the state after n steps equals an independent closed-form triangular waveform |
| `Oscillator.TrianglePeriodic` | homework/Core/Src/main.c:158-175 | the waveform repeats every 40 steps from start-up |
| `Oscillator.DirectionFlips` | homework/Core/Src/main.c:166-172 | the direction changes between steps n and n+1 exactly when n mod 40 is 0 or 20: twice per period |
| `Oscillator.DelayGoesBelowMin` | homework/Core/Src/main.c:168-171 | a reachable state has `delay` = 15, which is below MIN_DELAY |
| `Oscillator.FirstPhase` | homework/Core/Src/main.c:161-166 | from `delay = 300`, `direction = UP` the up loop runs zero times, and the first step only sets DOWN |
| `Oscillator.DownPhaseFromMax` | homework/Core/Src/main.c:168-172 | the down phase from 300 has 19 loop passes and ends with `delay = 15` and `direction = UP` |
| `Oscillator.UpPhaseFromLowest` | homework/Core/Src/main.c:162-166 | the up phase from 15 has 19 loop passes and ends with `delay = 300` exactly and `direction = DOWN` |
| `Homework.Board.constructor` | homework/Core/Src/main.c:81-88 | at power-on `delay` is 300 and `direction` is UP (lines 81, 88), so the oscillator invariant holds; the LED task's state starts at S0 (line 144); no task has been created yet |
| `Homework.Board.WritePin` | homework/Core/Src/main.c:210-211 | writing SET ORs the mask into the register; writing RESET clears the mask's pins; all other pins are unchanged |
| `Homework.Board.GpioInit` | homework/Core/Src/main.c:121-136 | afterwards all eight LEDs are off and pins 0-7 are unchanged |
| `Homework.Board.ChangeLedState` | homework/Core/Src/main.c:208-231 | the new register is `Render(old register, state)`: the LED pins cleared, then the state's pair set (nothing set for an out-of-range value) |
| `Homework.Board.ChangeState` | homework/Core/Src/main.c:181-202 | the state is replaced by its successor in the cycle, which is always an S0..S3 value; the register then shows that new state |
| `Homework.Board.LedControllerIteration` | homework/Core/Src/main.c:145-148 | a state change followed by a sleep of exactly the current `delay`; that sleep lies in [15, 300] whenever the oscillator invariant holds |
| `Homework.Board.SpeedControllerIteration` | homework/Core/Src/main.c:160-174 | one outer pass makes PhaseLength loop passes; the globals become the state reached by that many steps plus the reversal; the direction is reversed; the delay has moved by 15 per pass; the invariant is preserved |
| `Homework.Board.ErrorHandler` | homework/Core/Src/main.c:237-240 | the two red LEDs are switched on; all other pins are unchanged |
| `Homework.Board.CreateTask` | homework/Core/Src/main.c:102 | one call of xTaskCreate: it reports the scheduler's result and is counted as one more creation call |
| `Homework.Board.Startup` | homework/Core/Src/main.c:96-112 | the scheduler starts exactly when both task creations succeed; if the first fails, exactly one creation call is made, so the second is never attempted; otherwise exactly two are made; on a failure the register holds the error pattern over the cleared LEDs |
| `Homework.ErrorLeds` | homework/Core/Src/main.c:125-126 | the register after GPIO_Init's reset write and error_handler's set write (line 239): pins 0-7 as before, and of the LEDs exactly the red pair |
| `Homework.FourRenders` | homework/Core/Src/main.c:210-211 | four displays in a row leave the register as the last one alone would, and unchanged if that state was already shown |
| `Homework.ErrorPattern` | homework/Core/Src/main.c:237-240 | the error pattern over LEDs cleared by GPIO_Init is exactly pins 9 and 13 high, with pins 0-7 unchanged |
| `Homework.FourStateChanges` | homework/Core/Src/main.c:183-201 | four calls of change_state from a valid state give the same state back; the register then shows that state's pair with pins 0-7 as before, and if it showed that state already it is unchanged |

## Left out

- FreeRTOS is not part of this model (`xTaskCreate`, `vTaskStartScheduler`, `vTaskDelay`, `pdMS_TO_TICKS`), nor are scheduling, ticks and preemption. A task creation result is a boolean input of `Startup`, passed through `CreateTask`, which counts the calls. A sleep is the value handed to it (`LedControllerIteration` returns it; `SpeedControllerIteration` counts its pauses).
- The task names, stack size and priorities passed to `xTaskCreate` are left out, because they only configure the scheduler.
- The unsynchronised sharing of `delay` between the two tasks is not modelled as interleavings. A read by the LED task is modelled as a read of a state that the oscillator can reach between two of its steps, and `Oscillator.Reachable` bounds every such state.
- `GPIO_Init`'s clock enable and the pin mode, pull and speed settings are left out, because they are vendor hardware setup with no logic. Only the clearing of pins 8-15 is kept.
- The infinite `while(1)` loops of `main`, of both tasks and of `error_handler` are left out, because the model has no non-terminating method. Each task loop is modelled by one iteration. The oscillator is a step relation iterated any number of times. The halt is modelled by `Startup` returning `ErrorHalt`.
- Homework.Board.ErrorHandler: does not model that `error_handler` never returns. `Startup` returns immediately after it instead, so no later statement of `main` runs.
- Homework.Board.ChangeLedState: the four `case` branches that set a pair are modelled as one write of `PairMask(state)`, a table of the four pairs. The effect on the register is the same.
