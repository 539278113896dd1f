/** The LED blink module (assignment_03/ledmod.c): a kernel timer that
    toggles the on-board USR3 LED of GPIO bank 1 until it has been lit
    MAX_LED_BLINK_TIMES times.

    The module globals become the class `LedModule`; what one timer tick
    does to them is the function `TimerStep` on the value `LedState`, about
    which the counting, bound and termination lemmas are proved. */
module LedMod {

  const SIZEOF_U32: nat := 4
  const DEFAULT_IOREMAP_LEN: nat := 4096
  const GPIO1_MAP_BASE: nat := 0x4804_c000

  /** BYTE_PTR: the index of the 32-bit word that holds byte offset `x`. */
  function BytePtr(x: nat): (w: nat)
    ensures SIZEOF_U32 * w <= x < SIZEOF_U32 * w + SIZEOF_U32
  {
    x / SIZEOF_U32
  }

  /** Word indices of the GPIO1 registers the module touches. */
  const GPIO1_OE_REG: nat := BytePtr(0x134)
  const GPIO1_DATA_OUT_SET: nat := BytePtr(0x194)
  const GPIO1_DATA_OUT_CLR: nat := BytePtr(0x190)

  const GPIO_OE_OUT: bv32 := 0
  const GPIO_PIN_HIGH: bv32 := 1
  const GPIO_LED_USR3_PIN: nat := 24

  const MAX_LED_BLINK_TIMES: nat := 10
  const EIO: int := 5

  /** Number of 32-bit words in the remapped GPIO1 window. */
  const GPIO1_WORDS: nat := DEFAULT_IOREMAP_LEN / SIZEOF_U32

  /** The pin mask ORed into the set and clear words. */
  const LED_MASK: bv32 := GPIO_PIN_HIGH << 24

  /** Each register offset is a multiple of four, so BYTE_PTR loses nothing,
      and the three words are distinct words inside the remapped window. */
  lemma GpioWordIndices()
    ensures GPIO1_OE_REG == 77 && GPIO1_DATA_OUT_CLR == 100 && GPIO1_DATA_OUT_SET == 101
    ensures SIZEOF_U32 * GPIO1_OE_REG == 0x134
    ensures SIZEOF_U32 * GPIO1_DATA_OUT_CLR == 0x190
    ensures SIZEOF_U32 * GPIO1_DATA_OUT_SET == 0x194
    ensures GPIO1_OE_REG < GPIO1_DATA_OUT_CLR < GPIO1_DATA_OUT_SET < GPIO1_WORDS
  {
  }

  /** The output-enable update of led_mod_init. GPIO_OE_OUT is 0, so the
      mask cleared is empty and the register keeps its value. */
  function OeUpdate(w: bv32): (r: bv32)
    ensures r == w
  {
    w & !(GPIO_OE_OUT << 24)
  }

  /** `regs` with `mask` ORed into word `w`. */
  function OrWord(regs: seq<bv32>, w: nat, mask: bv32): (r: seq<bv32>)
    requires w < |regs|
    ensures |r| == |regs|
    ensures r[w] == regs[w] | mask
    ensures forall k :: 0 <= k < |regs| && k != w ==> r[k] == regs[k]
  {
    regs[w := regs[w] | mask]
  }

  /* ------------------------------------------------------------------ */
  /* The timer as a state machine                                        */

  /** The module globals the timer handler reads and writes, and whether
      the timer is pending. */
  datatype LedState = LedState(blinkTimes: nat, isOn: bool, armed: bool)

  /** The state just after led_mod_init succeeds: count 0, LED off, timer armed. */
  const INITIAL: LedState := LedState(0, false, true)

  /** One call of timer_handler. Below the maximum the LED flips, the count
      goes up by exactly one on an off-to-on flip and not at all on an
      on-to-off flip, and the timer is re-armed; at the maximum nothing
      flips and the timer is deleted. */
  function TimerStep(s: LedState): (t: LedState)
    ensures t.armed <==> s.blinkTimes < MAX_LED_BLINK_TIMES
    ensures s.blinkTimes < MAX_LED_BLINK_TIMES ==> t.isOn != s.isOn
    ensures t.blinkTimes == s.blinkTimes + (if !s.isOn && t.isOn then 1 else 0)
    ensures s.blinkTimes >= MAX_LED_BLINK_TIMES ==> t.isOn == s.isOn
  {
    if s.blinkTimes < MAX_LED_BLINK_TIMES then
      if s.isOn then LedState(s.blinkTimes, false, true)
      else LedState(s.blinkTimes + 1, true, true)
    else
      s.(armed := false)
  }

  /** `n` successive calls of the handler. */
  function Run(s: LedState, n: nat): LedState
    decreases n
  {
    if n == 0 then s else Run(TimerStep(s), n - 1)
  }

  /** The states the module can be in between ticks once loaded: the count
      never exceeds the maximum, a lit LED has been counted, an unlit LED
      means another blink is still due, and a disarmed timer means the
      count is complete. */
  ghost predicate Inv(s: LedState)
  {
    && s.blinkTimes <= MAX_LED_BLINK_TIMES
    && (s.isOn ==> s.blinkTimes >= 1)
    && (!s.isOn ==> s.blinkTimes < MAX_LED_BLINK_TIMES)
    && (!s.armed ==> s.blinkTimes == MAX_LED_BLINK_TIMES)
  }

  /** The handler keeps the invariant. */
  lemma TimerStepKeepsInv(s: LedState)
    requires Inv(s)
    ensures Inv(TimerStep(s))
  {
  }

  /** Whatever the tick count, the count stays within the maximum. */
  lemma {:induction false} RunKeepsInv(s: LedState, n: nat)
    requires Inv(s)
    ensures Inv(Run(s, n))
    ensures Run(s, n).blinkTimes <= MAX_LED_BLINK_TIMES
    decreases n
  {
    if n > 0 {
      TimerStepKeepsInv(s);
      RunKeepsInv(TimerStep(s), n - 1);
    }
  }

  /** One more tick at the end of a run. */
  lemma {:induction false} RunLast(s: LedState, n: nat)
    ensures Run(s, n + 1) == TimerStep(Run(s, n))
    decreases n
  {
    if n > 0 {
      RunLast(TimerStep(s), n - 1);
    }
  }

  /** After `m` ticks from the initial state, for m up to 19: the LED has
      been lit (m+1)/2 times, is on exactly after an odd number of ticks,
      and the timer is still armed. */
  function Phase(m: nat): (s: LedState)
    ensures s.blinkTimes * 2 == m + (if s.isOn then 1 else 0)
  {
    LedState((m + 1) / 2, m % 2 == 1, true)
  }

  /** The blink schedule: each of the first 19 ticks re-arms the timer. */
  lemma {:induction false} BlinkSchedule(k: nat)
    requires k <= 19
    ensures Run(INITIAL, k) == Phase(k)
    ensures 0 < k ==> Run(INITIAL, k).armed
    decreases k
  {
    if k > 0 {
      BlinkSchedule(k - 1);
      RunLast(INITIAL, k - 1);
    }
  }

  /** The 19th tick lights the LED for the tenth time; the 20th finds the
      count complete and deletes the timer, leaving the LED on. */
  lemma BlinkCompletes()
    ensures Run(INITIAL, 19) == LedState(MAX_LED_BLINK_TIMES, true, true)
    ensures Run(INITIAL, 20) == LedState(MAX_LED_BLINK_TIMES, true, false)
  {
    BlinkSchedule(19);
    RunLast(INITIAL, 19);
  }

  /** Once the count is complete the handler changes nothing but the timer,
      however often it runs. */
  lemma {:induction false} CompleteIsFinal(s: LedState, n: nat)
    requires s.blinkTimes >= MAX_LED_BLINK_TIMES && 0 < n
    ensures Run(s, n) == s.(armed := false)
    decreases n
  {
    if n > 1 {
      CompleteIsFinal(TimerStep(s), n - 1);
    }
  }

  /** How many handler calls remain until the one that deletes the timer. */
  function TicksToDisarm(s: LedState): nat
  {
    if s.blinkTimes >= MAX_LED_BLINK_TIMES then 1
    else if s.isOn then 2 * (MAX_LED_BLINK_TIMES - s.blinkTimes) + 1
    else 2 * (MAX_LED_BLINK_TIMES - s.blinkTimes)
  }

  /** Termination: from any state, every tick before the TicksToDisarm(s)-th
      re-arms the timer, and that one deletes it with the count complete (a
      count already above the maximum is left as it is). */
  lemma {:induction false} Disarms(s: LedState)
    ensures !Run(s, TicksToDisarm(s)).armed
    ensures Run(s, TicksToDisarm(s)).blinkTimes ==
      if s.blinkTimes <= MAX_LED_BLINK_TIMES then MAX_LED_BLINK_TIMES else s.blinkTimes
    ensures forall k :: 0 < k < TicksToDisarm(s) ==> Run(s, k).armed
    decreases TicksToDisarm(s)
  {
    if s.blinkTimes < MAX_LED_BLINK_TIMES {
      var t := TimerStep(s);
      assert TicksToDisarm(t) + 1 == TicksToDisarm(s);
      Disarms(t);
      forall k | 0 < k < TicksToDisarm(s)
        ensures Run(s, k).armed
      {
        if k > 1 {
          assert Run(s, k) == Run(t, k - 1);
        }
      }
    }
  }

  /* ------------------------------------------------------------------ */
  /* The module                                                          */

  /** The module's globals: the remapped GPIO1 window (null until mapped),
      the blink count, the LED flag and whether the timer is pending. */
  class LedModule {
    var gpio1Base: array?<bv32>
    var ledBlinkTimes: nat
    var isLedOn: bool
    var timerArmed: bool

    ghost predicate Valid()
      reads this
    {
      gpio1Base != null ==> gpio1Base.Length == GPIO1_WORDS
    }

    /** The part of the globals the timer handler works on. */
    function Led(): LedState
      reads this
    {
      LedState(ledBlinkTimes, isLedOn, timerArmed)
    }

    /** The globals as the module is loaded, before led_mod_init runs. */
    constructor ()
      ensures Valid() && gpio1Base == null
      ensures Led() == LedState(0, false, false)
    {
      gpio1Base := null;
      ledBlinkTimes, isLedOn, timerArmed := 0, false, false;
    }

    /** switch_led_on */
    method SwitchLedOn()
      requires Valid() && gpio1Base != null
      modifies this`isLedOn, gpio1Base
      ensures isLedOn
      ensures gpio1Base[..] == OrWord(old(gpio1Base[..]), GPIO1_DATA_OUT_SET, LED_MASK)
    {
      gpio1Base[GPIO1_DATA_OUT_SET] := gpio1Base[GPIO1_DATA_OUT_SET] | (GPIO_PIN_HIGH << 24);
      isLedOn := true;
    }

    /** switch_led_off */
    method SwitchLedOff()
      requires Valid() && gpio1Base != null
      modifies this`isLedOn, gpio1Base
      ensures !isLedOn
      ensures gpio1Base[..] == OrWord(old(gpio1Base[..]), GPIO1_DATA_OUT_CLR, LED_MASK)
    {
      gpio1Base[GPIO1_DATA_OUT_CLR] := gpio1Base[GPIO1_DATA_OUT_CLR] | (GPIO_PIN_HIGH << 24);
      isLedOn := false;
    }

    /** timer_handler: one step of TimerStep on the globals; below the
        maximum the pin mask goes into the clear word when the LED was on
        and into the set word when it was off. */
    method TimerHandler()
      requires Valid() && gpio1Base != null
      modifies this`isLedOn, this`ledBlinkTimes, this`timerArmed, gpio1Base
      ensures Led() == TimerStep(old(Led()))
      ensures gpio1Base[..] ==
        if old(ledBlinkTimes) >= MAX_LED_BLINK_TIMES then old(gpio1Base[..])
        else if old(isLedOn) then OrWord(old(gpio1Base[..]), GPIO1_DATA_OUT_CLR, LED_MASK)
        else OrWord(old(gpio1Base[..]), GPIO1_DATA_OUT_SET, LED_MASK)
    {
      if ledBlinkTimes < MAX_LED_BLINK_TIMES {
        if isLedOn {
          SwitchLedOff();
        } else {
          SwitchLedOn();
          ledBlinkTimes := ledBlinkTimes + 1;
        }
        timerArmed := true;
      } else {
        timerArmed := false;
      }
    }

    /** led_mod_init. `base` is what ioremap returned for the GPIO1 window:
        null makes the load fail with -EIO; otherwise the output-enable
        word is rewritten with its own value and the timer is armed. */
    method Init(base: array?<bv32>) returns (err: int)
      requires base != null ==> base.Length == GPIO1_WORDS
      modifies this`gpio1Base, this`timerArmed, base
      ensures Valid() && gpio1Base == base
      ensures ledBlinkTimes == old(ledBlinkTimes) && isLedOn == old(isLedOn)
      ensures base == null ==> err == -EIO && timerArmed == old(timerArmed)
      ensures base != null ==> err == 0 && timerArmed && base[..] == old(base[..])
    {
      gpio1Base := base;
      if gpio1Base == null {
        return -EIO;
      }
      gpio1Base[GPIO1_OE_REG] := OeUpdate(gpio1Base[GPIO1_OE_REG]);
      timerArmed := true;
      return 0;
    }

    /** led_mod_exit: the LED is switched off, the timer deleted and the
        window unmapped. */
    method Exit()
      requires Valid() && gpio1Base != null
      modifies this`isLedOn, this`timerArmed, this`gpio1Base, gpio1Base
      ensures Valid() && gpio1Base == null
      ensures !isLedOn && !timerArmed && ledBlinkTimes == old(ledBlinkTimes)
      ensures old(gpio1Base)[..] == OrWord(old(gpio1Base[..]), GPIO1_DATA_OUT_CLR, LED_MASK)
    {
      SwitchLedOff();
      timerArmed := false;
      if gpio1Base != null {
        gpio1Base := null;
      }
    }
  }
}
