/** The SysTick interrupt: a divide-by-two prescaler that turns the 0.5 ms
    interrupt into the firmware's 1 ms timer, and the UART receive timeout
    that counts down on every millisecond. */
module SysTick {
  import opened CTypes

  const TIMER_MODULUS := 0x1_0000_0000

  /** Everything the interrupt handler reads and writes: `sysTickTimer`,
      `sysTickDivFlag`, and the UART driver's `UARTTimeoutTimer` and
      `UARTTimeoutFlag`. */
  datatype TickState = TickState(timer: U32, divFlag: Byte, uartTimeoutTimer: U32, uartTimeoutFlag: bool)

  /** One run of `SysTick_Handler`, on values. */
  function HandlerStep(s: TickState): (r: TickState)
    // a call with the prescaler flag clear only sets the flag
    ensures s.divFlag == 0 ==> r == s.(divFlag := 1)
    // a call with the flag set advances the 1 ms timer by one, wrapping at 2^32, and clears the flag
    ensures s.divFlag != 0 ==> r.timer == (s.timer + 1) % TIMER_MODULUS && r.divFlag == 0
    // the receive timeout counts down by one on every millisecond until it reaches zero, where it stays
    ensures r.uartTimeoutTimer == if s.divFlag != 0 && s.uartTimeoutTimer > 0 then s.uartTimeoutTimer - 1
                                  else s.uartTimeoutTimer
    // the timeout flag is raised on exactly the call that takes the countdown from 1 to 0, and never lowered
    ensures r.uartTimeoutFlag == (s.uartTimeoutFlag || (s.uartTimeoutTimer == 1 && r.uartTimeoutTimer == 0))
  {
    if s.divFlag != 0 then
      var timeout := if s.uartTimeoutTimer > 0 then s.uartTimeoutTimer - 1 else s.uartTimeoutTimer;
      var flag := if s.uartTimeoutTimer > 0 && timeout == 0 then true else s.uartTimeoutFlag;
      TickState((s.timer + 1) % TIMER_MODULUS, 0, timeout, flag)
    else
      s.(divFlag := 1)
  }

  /** `n` consecutive handler calls. */
  function HandlerSteps(s: TickState, n: nat): TickState
  {
    if n == 0 then s else HandlerStep(HandlerSteps(s, n - 1))
  }

  /** Whatever the prescaler flag holds, two consecutive interrupts advance
      the 1 ms timer by exactly one (modulo 2^32). */
  lemma TwoCallsAdvanceByOne(s: TickState)
    ensures HandlerSteps(s, 2).timer == (s.timer + 1) % TIMER_MODULUS
    ensures (HandlerSteps(s, 2).divFlag == 0) == (s.divFlag == 0)
  {
    assert HandlerSteps(s, 1) == HandlerStep(s);
  }

  /** The timer counts interrupts at half rate: after 2k interrupts it has
      advanced by exactly k, modulo 2^32, and the prescaler is back in the
      phase it started in. */
  lemma {:induction false} TimerCountsHalfTheInterrupts(s: TickState, k: nat)
    ensures HandlerSteps(s, 2 * k).timer == (s.timer + k) % TIMER_MODULUS
    ensures (HandlerSteps(s, 2 * k).divFlag == 0) == (s.divFlag == 0)
  {
    if k > 0 {
      TimerCountsHalfTheInterrupts(s, k - 1);
      var mid := HandlerSteps(s, 2 * (k - 1));
      StepsSplit(s, 2 * (k - 1), 2);
      TwoCallsAdvanceByOne(mid);
      WrapIncrement(s.timer + k - 1);
    }
  }

  lemma WrapIncrement(x: int)
    ensures (x % TIMER_MODULUS + 1) % TIMER_MODULUS == (x + 1) % TIMER_MODULUS
  {
    var q, r := x / TIMER_MODULUS, x % TIMER_MODULUS;
    assert x == q * TIMER_MODULUS + r;
    if r + 1 == TIMER_MODULUS {
      assert x + 1 == (q + 1) * TIMER_MODULUS;
    } else {
      assert x + 1 == q * TIMER_MODULUS + (r + 1);
    }
  }

  lemma {:induction false} StepsSplit(s: TickState, m: nat, n: nat)
    ensures HandlerSteps(s, m + n) == HandlerSteps(HandlerSteps(s, m), n)
  {
    if n > 0 {
      StepsSplit(s, m, n - 1);
    }
  }

  /** The interrupt handler and the timer it owns. The UART variables belong
      to the UART driver, which arms the timeout and consumes the flag by
      assigning the two fields directly. */
  class SysTickTimer {
    var sysTickTimer: U32
    var sysTickDivFlag: Byte
    var uartTimeoutTimer: U32
    var uartTimeoutFlag: bool

    function State(): TickState
      reads this
    {
      TickState(sysTickTimer, sysTickDivFlag, uartTimeoutTimer, uartTimeoutFlag)
    }

    /** The static initialisers: timer and prescaler start at zero. */
    constructor ()
      ensures State() == TickState(0, 0, 0, false)
    {
      sysTickTimer := 0;
      sysTickDivFlag := 0;
      uartTimeoutTimer := 0;
      uartTimeoutFlag := false;
    }

    /** `SysTick_Handler`. */
    method Handler()
      modifies this
      ensures State() == HandlerStep(old(State()))
    {
      if sysTickDivFlag != 0 {
        sysTickTimer := (sysTickTimer + 1) % TIMER_MODULUS;
        if uartTimeoutTimer > 0 {
          uartTimeoutTimer := uartTimeoutTimer - 1;
          if uartTimeoutTimer == 0 {
            uartTimeoutFlag := true;
          }
        }
        sysTickDivFlag := 0;
      } else {
        sysTickDivFlag := 1;
      }
    }

    /** `systick_getTimer`: the millisecond count; a pure read. */
    method GetTimer() returns (t: U32)
      ensures t == sysTickTimer
    {
      t := sysTickTimer;
    }
  }
}
