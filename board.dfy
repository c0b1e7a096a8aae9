/**
 * The firmware's mutable state and the routines that update it in place:
 * the output data register of GPIO port E, the LED task's state variable and
 * the globals `delay` and `direction` written by the speed controller task.
 */
module Homework {
  import opened Types
  import opened Leds
  import opened LightState
  import opened Oscillator

  /** GPIO_PIN_SET / GPIO_PIN_RESET. */
  datatype PinState = PinReset | PinSet

  /** How `main` ends: in the scheduler, or halted in the error handler. */
  datatype Outcome = SchedulerStarted | ErrorHalt

  class Board {
    /** Output data register of port E. */
    var odr: Mask
    /** The state variable of the LED controller task. */
    var state: u8
    /** The global `delay`, shared between the two tasks. */
    var delay: u32
    /** The global `direction`. */
    var direction: u8
    /** The number of calls of xTaskCreate made so far. */
    var createCalls: nat

    /** The oscillator part of the state. */
    function Globals(): Osc
      reads this
    {
      Osc(delay, direction)
    }

    /** Power-on: the globals hold their initialisers, the task's state is S0, the register is as the hardware left it. */
    constructor (resetOdr: Mask)
      ensures odr == resetOdr && state == S0 && createCalls == 0
      ensures Globals() == Init
      ensures Inv(Globals())
    {
      odr := resetOdr;
      state := S0;
      delay := INITIAL_DELAY;
      direction := UP;
      createCalls := 0;
    }

    /** HAL_GPIO_WritePin on port E: sets or clears the pins in `mask`, leaves the others. */
    method WritePin(mask: Mask, level: PinState)
      modifies this`odr
      ensures level == PinSet ==> odr == old(odr) | mask
      ensures level == PinReset ==> odr == old(odr) & !mask
    {
      odr := if level == PinSet then odr | mask else odr & !mask;
    }

    /** GPIO_Init, reduced to its effect on the output levels: all eight LEDs off. */
    method GpioInit()
      modifies this`odr
      ensures HighLeds(odr) == {}
      ensures odr == old(odr) & !LED_MASK
    {
      WritePin(LED_MASK, PinReset);
      HighLedsOfLedBits(odr);
    }

    /**
     * change_led_state: clears the eight LEDs, then lights the pair that belongs to `s`.
     * The four cases that set a pair are one write of the state's entry in PairMask.
     */
    method ChangeLedState(s: u8)
      modifies this`odr
      ensures odr == Render(old(odr), s)
    {
      WritePin(LED_MASK, PinReset);
      if IsState(s) {
        WritePin(PairMask(s), PinSet);
      } else {
        WritePin(LED_MASK, PinReset);
      }
    }

    /** change_state: advances the state machine in place and displays the new state. */
    method ChangeState()
      modifies this`state, this`odr
      ensures state == NextState(old(state))
      ensures IsState(state)
      ensures odr == Render(old(odr), state)
    {
      if state == S0 {
        state := S1;
      } else if state == S1 {
        state := S2;
      } else if state == S2 {
        state := S3;
      } else if state == S3 {
        state := S0;
      } else {
        state := S0;
      }
      ChangeLedState(state);
    }

    /**
     * One iteration of led_controller_task: a state change, then a sleep for
     * the current delay, whose length is returned.
     */
    method LedControllerIteration() returns (sleepMs: u32)
      modifies this`state, this`odr
      ensures state == NextState(old(state))
      ensures odr == Render(old(odr), state)
      ensures sleepMs == delay
      ensures Inv(Globals()) ==> LOWEST_DELAY <= sleepMs <= MAX_DELAY
    {
      ChangeState();
      sleepMs := delay;
    }

    /**
     * One iteration of the outer loop of speed_controller_task: one inner loop
     * run to its end, then the change of direction. Returns the number of pauses.
     */
    method SpeedControllerIteration() returns (pauses: nat)
      modifies this`delay, this`direction
      ensures pauses == PhaseLength(old(Globals()))
      ensures Globals() == Iterate(old(Globals()), pauses + 1)
      ensures old(direction) == UP ==> direction == DOWN && delay as int == old(delay) as int + DELAY_STEP as int * pauses
      ensures old(direction) != UP ==> direction == UP && delay as int == old(delay) as int - DELAY_STEP as int * pauses
      ensures old(Inv(Globals())) ==> Inv(Globals())
    {
      ghost var start := Globals();
      pauses := 0;
      if direction == UP {
        while delay < MAX_DELAY
          invariant direction == UP
          invariant Globals() == Iterate(start, pauses)
          invariant delay as int == start.delay as int + DELAY_STEP as int * pauses
          invariant pauses > 0 ==> delay as int - DELAY_STEP as int < MAX_DELAY as int
          decreases MAX_DELAY as int - delay as int
        {
          delay := Add32(delay, DELAY_STEP);
          pauses := pauses + 1;
        }
        direction := DOWN;
      } else {
        while delay > MIN_DELAY
          invariant direction == start.direction
          invariant Globals() == Iterate(start, pauses)
          invariant delay as int == start.delay as int - DELAY_STEP as int * pauses
          invariant pauses > 0 ==> delay as int + DELAY_STEP as int > MIN_DELAY as int
          decreases delay
        {
          delay := Sub32(delay, DELAY_STEP);
          pauses := pauses + 1;
        }
        direction := UP;
      }
      if Inv(start) {
        IterateKeepsInv(start, pauses + 1);
      }
    }

    /** error_handler: lights the two red LEDs (the halt loop that follows is not modelled). */
    method ErrorHandler()
      modifies this`odr
      ensures odr == old(odr) | RED_LED_1 | RED_LED_2
    {
      WritePin(RED_LED_1 | RED_LED_2, PinSet);
    }

    /**
     * xTaskCreate, reduced to its result: `result` is what the scheduler would
     * return (pdPASS or not), and the call is counted.
     */
    method CreateTask(result: bool) returns (ok: bool)
      modifies this`createCalls
      ensures ok == result
      ensures createCalls == old(createCalls) + 1
    {
      createCalls := createCalls + 1;
      ok := result;
    }

    /**
     * main up to the start of the scheduler. `ledTaskCreated` and `speedTaskCreated`
     * are the results the two calls of xTaskCreate would return.
     */
    method Startup(ledTaskCreated: bool, speedTaskCreated: bool) returns (outcome: Outcome)
      modifies this`odr, this`createCalls
      ensures outcome == SchedulerStarted <==> ledTaskCreated && speedTaskCreated
      ensures !ledTaskCreated ==> createCalls == old(createCalls) + 1
      ensures ledTaskCreated ==> createCalls == old(createCalls) + 2
      ensures outcome == ErrorHalt ==> odr == ErrorLeds(old(odr))
      ensures outcome == SchedulerStarted ==> odr == old(odr) & !LED_MASK
    {
      GpioInit();
      var result := CreateTask(ledTaskCreated);
      if !result {
        ErrorHandler();
        return ErrorHalt;
      }
      result := CreateTask(speedTaskCreated);
      if !result {
        ErrorHandler();
        return ErrorHalt;
      }
      return SchedulerStarted;
    }
  }

  /** The register after GPIO_Init and error_handler: LEDs cleared, then the two red LEDs lit. */
  function ErrorLeds(odr: Mask): (r: Mask)
    ensures r & !LED_MASK == odr & !LED_MASK
    ensures r & LED_MASK == RED_LED_1 | RED_LED_2
  {
    (odr & !LED_MASK) | RED_LED_1 | RED_LED_2
  }

  /** The error pattern is exactly the two red LEDs, and pins 0-7 keep their level. */
  lemma ErrorPattern(odr: Mask)
    ensures HighLeds(ErrorLeds(odr)) == {9, 13}
    ensures ErrorLeds(odr) & !LED_MASK == odr & !LED_MASK
  {
    RenderLights(odr, S1);
  }

  /** Four displays in a row leave the register as the last display alone would; it is unchanged if that state was already shown. */
  lemma FourRenders(odr: Mask, s1: u8, s2: u8, s3: u8, s4: u8)
    ensures Render(Render(Render(Render(odr, s1), s2), s3), s4) == Render(odr, s4)
    ensures odr & LED_MASK == PairMask(s4) ==> Render(odr, s4) == odr
  {
    RenderLast(odr, s1, s2);
    RenderLast(odr, s2, s3);
    RenderLast(odr, s3, s4);
    if odr & LED_MASK == PairMask(s4) {
      RenderShown(odr, s4);
    }
  }

  /** Four state changes from a valid state return the LED task to the same state and display. */
  method FourStateChanges(b: Board)
    requires IsState(b.state)
    modifies b`state, b`odr
    ensures b.state == old(b.state)
    ensures b.odr == Render(old(b.odr), old(b.state))
    ensures old(b.odr) & LED_MASK == PairMask(old(b.state)) ==> b.odr == old(b.odr)
  {
    ghost var s0, o0 := b.state, b.odr;
    b.ChangeState();
    ghost var s1 := b.state;
    b.ChangeState();
    ghost var s2 := b.state;
    b.ChangeState();
    ghost var s3 := b.state;
    b.ChangeState();
    AdvanceValid(s0, 4);
    FourRenders(o0, s1, s2, s3, s0);
  }
}
