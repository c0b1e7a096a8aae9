/** The eight LEDs on port E and the 16-bit output register that drives them. */
module Leds {
  import opened Types

  /** A pin mask of GPIO port E: bit p stands for pin p. */
  type Mask = bv16

  /** GPIO_PIN_0 .. GPIO_PIN_15 of the vendor HAL: GPIO_PIN[p] has bit p alone set. */
  const GPIO_PIN: seq<Mask> := [
    0x0001, 0x0002, 0x0004, 0x0008, 0x0010, 0x0020, 0x0040, 0x0080,
    0x0100, 0x0200, 0x0400, 0x0800, 0x1000, 0x2000, 0x4000, 0x8000]

  const BLUE_LED_1: Mask := 0x0100    // pin 8
  const RED_LED_1: Mask := 0x0200     // pin 9
  const ORANGE_LED_1: Mask := 0x0400  // pin 10
  const GREEN_LED_1: Mask := 0x0800   // pin 11
  const BLUE_LED_2: Mask := 0x1000    // pin 12
  const RED_LED_2: Mask := 0x2000     // pin 13
  const ORANGE_LED_2: Mask := 0x4000  // pin 14
  const GREEN_LED_2: Mask := 0x8000   // pin 15

  /** All eight LED pins, 8 to 15. */
  const LED_MASK: Mask := 0xFF00

  /** The pin numbers of the eight LEDs. */
  const LedPins: set<nat> := {8, 9, 10, 11, 12, 13, 14, 15}

  /** The LED pins that are high in output register `odr`. */
  function HighLeds(odr: Mask): set<nat>
  {
    set p: nat | 8 <= p < 16 && odr & GPIO_PIN[p] != 0
  }

  /** The LED pair that stands for each light state; no LED for any other value. */
  function PairMask(s: u8): (m: Mask)
    ensures m & !LED_MASK == 0
    ensures (m == 0) <==> s > 3
  {
    if s == 0 then BLUE_LED_1 | BLUE_LED_2
    else if s == 1 then RED_LED_1 | RED_LED_2
    else if s == 2 then ORANGE_LED_1 | ORANGE_LED_2
    else if s == 3 then GREEN_LED_1 | GREEN_LED_2
    else 0
  }

  /** The pin numbers lit for each state. */
  function PairPins(s: u8): set<nat>
  {
    if s == 0 then {8, 12}
    else if s == 1 then {9, 13}
    else if s == 2 then {10, 14}
    else if s == 3 then {11, 15}
    else {}
  }

  /** The output register after the display of state `s`: LED pins cleared, then the pair set. */
  function Render(odr: Mask, s: u8): (r: Mask)
    ensures r & !LED_MASK == odr & !LED_MASK
    ensures r & LED_MASK == PairMask(s)
  {
    (odr & !LED_MASK) | PairMask(s)
  }

  /** Each state's mask lights exactly its pair of pins, and no pin outside 8-15. */
  lemma PairMaskPins(s: u8)
    ensures HighLeds(PairMask(s)) == PairPins(s)
    ensures PairMask(s) & !LED_MASK == 0
  {
    var m := PairMask(s);
    forall p: nat | 8 <= p < 16
      ensures (m & GPIO_PIN[p] != 0) <==> p in PairPins(s)
    {
    }
  }

  /** The mask's LED pins depend only on the LED bits of the register. */
  lemma HighLedsOfLedBits(odr: Mask)
    ensures HighLeds(odr) == HighLeds(odr & LED_MASK)
  {
    forall p: nat | 8 <= p < 16
      ensures (odr & GPIO_PIN[p] != 0) <==> (odr & LED_MASK & GPIO_PIN[p] != 0)
    {
      assert GPIO_PIN[p] & LED_MASK == GPIO_PIN[p];
    }
  }

  /** After the display of state `s`, exactly its pair of LEDs is lit, and pins 0-7 keep their level. */
  lemma RenderLights(odr: Mask, s: u8)
    ensures HighLeds(Render(odr, s)) == PairPins(s)
    ensures Render(odr, s) & !LED_MASK == odr & !LED_MASK
  {
    PairMaskPins(s);
    HighLedsOfLedBits(Render(odr, s));
    HighLedsOfLedBits(PairMask(s));
    assert Render(odr, s) & LED_MASK == PairMask(s) & LED_MASK;
  }

  /** Only the last state shown matters: a display overwrites every LED the previous one lit. */
  lemma RenderLast(odr: Mask, s: u8, t: u8)
    ensures Render(Render(odr, s), t) == Render(odr, t)
  {
    PairMaskPins(s);
  }

  /** Showing the state the LEDs already show leaves the register as it was. */
  lemma RenderShown(odr: Mask, s: u8)
    requires odr & LED_MASK == PairMask(s)
    ensures Render(odr, s) == odr
  {
  }

  /** A valid state lights exactly two LEDs; any other value lights none. */
  lemma RenderLightsTwo(odr: Mask, s: u8)
    ensures s <= 3 ==> |HighLeds(Render(odr, s))| == 2
    ensures s > 3 ==> HighLeds(Render(odr, s)) == {}
  {
    RenderLights(odr, s);
  }

  /** The four pairs are pairwise disjoint and together cover all eight LEDs. */
  lemma PairsPartitionLeds()
    ensures forall s: u8, t: u8 :: s <= 3 && t <= 3 && s != t ==> PairPins(s) !! PairPins(t)
    ensures PairPins(0) + PairPins(1) + PairPins(2) + PairPins(3) == LedPins
    ensures PairMask(0) | PairMask(1) | PairMask(2) | PairMask(3) == LED_MASK
  {
  }
}
