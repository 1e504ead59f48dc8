/** Levels: the exceptions of the mixing core, channel-level validation
    (`_verify_level`) and the conversion from normalised levels in [0,1] to
    DMX device levels in [0,255] (`round(level * 255)`). */
module Levels {

  /** DMX slots are numbered from 0. */
  type ChannelId = nat
  type EntityId = string

  /** The exceptions the core raises, by Python class. */
  datatype Error =
    | InvalidLevelError
    | MissingDefaultError(domain: string, attr: string)
    | KeyError        // `del d[k]` or `d[k]` on an absent key
    | ValueError      // `list.remove(x)` when `x` is not in the list
    | TypeError       // subscripting `None` (an entity without a registry back-reference)
    | RecursionError  // Python's call stack was exhausted

  datatype Option<T> = None | Some(value: T)

  /** The value of an expression that may raise. */
  datatype Result<T> = Ok(value: T) | Err(error: Error)

  /** A statement that either completes or raises. */
  datatype Outcome = Pass | Fail(error: Error)

  /** DMX_MAX_SLOT_VALUE: the device level of a slot at full. */
  const DmxMaxSlotValue: int := 255

  /** `_verify_level`: a level is accepted exactly on the closed interval [0,1]. */
  function VerifyLevel(i: real): (o: Outcome)
    ensures o == Pass <==> 0.0 <= i <= 1.0
    ensures o != Pass ==> o == Fail(InvalidLevelError)
  {
    if i < 0.0 || i > 1.0 then Fail(InvalidLevelError) else Pass
  }

  /** Python's `round` on a number: the nearest integer, and the even one on a tie. */
  function RoundHalfEven(x: real): (n: int)
    ensures -0.5 <= n as real - x <= 0.5
    ensures (n as real - x == 0.5 || x - n as real == 0.5) ==> n % 2 == 0
  {
    var f := x.Floor;
    var frac := x - f as real;
    if frac < 0.5 then f
    else if frac > 0.5 then f + 1
    else if f % 2 == 0 then f
    else f + 1
  }

  /** The two properties of `RoundHalfEven` determine it: any integer that is
      within one half of `x` and even on a tie is the rounded value. */
  lemma RoundHalfEvenUnique(x: real, m: int)
    requires -0.5 <= m as real - x <= 0.5
    requires (m as real - x == 0.5 || x - m as real == 0.5) ==> m % 2 == 0
    ensures m == RoundHalfEven(x)
  {
  }

  /** A whole number is its own rounding. */
  lemma RoundWhole(k: int)
    ensures RoundHalfEven(k as real) == k
  {
    RoundHalfEvenUnique(k as real, k);
  }

  /** A normalised level at a master level, as a device level:
      `round(x * master * DMX_MAX_SLOT_VALUE)`. */
  function DeviceLevel(x: real, master: real): int
  {
    RoundHalfEven(x * master * DmxMaxSlotValue as real)
  }

  /** The final pass of `get_dimmers`: every level scaled by the master
      level and 255 and rounded. */
  function Scaled(levels: map<ChannelId, real>, master: real): (out: map<ChannelId, int>)
    ensures out.Keys == levels.Keys
  {
    map d | d in levels :: DeviceLevel(levels[d], master)
  }

  lemma MulNonnegative(a: real, b: real)
    requires a >= 0.0 && b >= 0.0
    ensures a * b >= 0.0
  {
  }

  /** Each channel of `Scaled` is its own level at the master level, on the device scale. */
  lemma ScaledAt(levels: map<ChannelId, real>, master: real, d: ChannelId)
    requires d in levels
    ensures d in Scaled(levels, master)
    ensures Scaled(levels, master)[d] == DeviceLevel(levels[d], master)
  {
  }

  /** Product of two levels in [0,1] stays in [0,1]. */
  lemma ProductOfLevels(a: real, b: real)
    requires 0.0 <= a <= 1.0 && 0.0 <= b <= 1.0
    ensures 0.0 <= a * b <= 1.0
  {
    MulNonnegative(a, b);
    MulNonnegative(1.0 - a, b);
    assert (1.0 - a) * b == b - a * b;
  }

  /** A level in [0,1] at a master level in [0,1] is a device level in [0,255]. */
  lemma DeviceLevelInRange(x: real, master: real)
    requires 0.0 <= x <= 1.0 && 0.0 <= master <= 1.0
    ensures 0 <= DeviceLevel(x, master) <= DmxMaxSlotValue
  {
    ProductOfLevels(x, master);
  }

  /** Valid channel levels at a valid master level yield device levels in [0,255],
      one per channel and for exactly the channels given. */
  lemma ScaledIsDeviceLevel(levels: map<ChannelId, real>, master: real)
    requires forall d :: d in levels ==> 0.0 <= levels[d] <= 1.0
    requires 0.0 <= master <= 1.0
    ensures Scaled(levels, master).Keys == levels.Keys
    ensures forall d :: d in levels ==> 0 <= Scaled(levels, master)[d] <= DmxMaxSlotValue
  {
    forall d | d in levels
      ensures 0 <= Scaled(levels, master)[d] <= DmxMaxSlotValue
    {
      ScaledAt(levels, master, d);
      DeviceLevelInRange(levels[d], master);
    }
  }

  /** At full master level, a channel at a whole fraction k/255 comes out as k. */
  lemma ScaledFullAtWholeDeviceLevel(levels: map<ChannelId, real>, d: ChannelId, k: int)
    requires d in levels && levels[d] == k as real / DmxMaxSlotValue as real
    ensures Scaled(levels, 1.0)[d] == k
  {
    assert levels[d] * 1.0 * DmxMaxSlotValue as real == k as real;
    RoundWhole(k);
  }
}
