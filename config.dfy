/** The compile-time settings of the firmware (config.h) and the small
    helpers several components share: the 32-bit millisecond clock,
    Arduino's `constrain`, C's truncating division and an inclusive
    rectangle hit test. */
module Config {

  // ---- display geometry (config.h:20-59) ----

  const LcdWidth: int := 240
  const LcdHeight: int := 284
  const Brightness: nat := 255

  const BtnWidth: int := 120
  const BtnHeight: int := 60
  const BtnX: int := (LcdWidth - BtnWidth) / 2
  const BtnY: int := 40

  const SettingsBackX: int := 10
  const SettingsBackY: int := 10
  const SettingsBackW: int := 60
  const SettingsBackH: int := 30

  // ---- RGB565 colours (config.h:62-70) ----

  const ColorGreen: nat := 0x07E0
  const ColorRed: nat := 0xF800
  const ColorBlack: nat := 0x0000
  const ColorWhite: nat := 0xFFFF
  const ColorYellow: nat := 0xFFE0

  // ---- workout settings (config.h:73-76) ----

  /** m/s: the upward velocity that starts a repetition. */
  const VelocityThreshold: real := 0.15
  /** m/s: a velocity this close to zero ends a phase. */
  const RepCompleteThreshold: real := 0.05
  /** Debounce between two counted repetitions. */
  const MinRepTimeMs: nat := 500
  /** m/s^2 per g. */
  const AccelScale: real := 9.81

  // ---- touch settings (config.h:79-84) ----

  const DebounceMs: nat := 300
  const LongPressMs: nat := 2000
  const SwipeMinDistance: int := 50
  const SwipeBottomZone: int := 60
  const SwipeTopZone: int := 60

  // ---- the millisecond clock ----

  /** `millis()` returns an `unsigned long`, 32 bits wide on this target. */
  const MillisModulus: int := 0x1_0000_0000

  type Millis = t: int | 0 <= t < MillisModulus

  /** `now - start` on `unsigned long`: the true distance when the clock
      has not wrapped in between, and the distance across the wrap when it
      has. */
  function Since(now: Millis, start: Millis): (d: Millis)
    ensures start <= now ==> d == now - start
    ensures now < start ==> d == MillisModulus - (start - now)
  {
    (now - start) % MillisModulus
  }

  // ---- arithmetic helpers ----

  /** Arduino's `constrain(amt, low, high)` macro, branch for branch. */
  function Constrain(amt: int, low: int, high: int): (r: int)
    ensures low <= high ==> low <= r <= high
    ensures low <= amt <= high ==> r == amt
    ensures amt < low ==> r == low
    // above the range, and also whenever the range is empty and amt is not below low
    ensures low <= amt && high < amt ==> r == high
  {
    if amt < low then low else if amt > high then high else amt
  }

  /** C's integer division, which truncates toward zero. */
  function CDiv(a: int, b: int): (q: int)
    requires b != 0
    ensures 0 <= a && 0 < b ==> q == a / b
    ensures a < 0 && 0 < b ==> q == -((-a) / b)
  {
    if (a < 0) == (b < 0) then Abs(a) / Abs(b) else -(Abs(a) / Abs(b))
  }

  function Abs(a: int): nat
  {
    if a < 0 then -a else a
  }

  function AbsReal(a: real): real
  {
    if a < 0.0 then -a else a
  }

  /** A point on an axis-aligned rectangle whose edges are included. */
  predicate InRect(px: int, py: int, left: int, top: int, w: int, h: int)
  {
    left <= px <= left + w && top <= py <= top + h
  }

}
