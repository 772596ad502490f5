/**
 * Three-position quantisation of a requested blind position, and the linear
 * map from the snapped position to a tilt angle.
 *
 * A requested percentage is snapped to one of three resting positions using
 * hysteresis on the last position the blinds reached: below or at the middle
 * the blinds choose between Down and Middle, above it between Middle and Up.
 * Two requests toggle instead: asking for Down from Middle goes Up, and asking
 * for Up from Down stops at Middle.
 */
module Quantization {
  import opened Optional

  /** The three resting positions, in percent. */
  const Down: int := 0
  const Middle: int := 50
  const Up: int := 100

  predicate IsSnapped(t: int) {
    t == Down || t == Middle || t == Up
  }

  /**
   * The if/else-if chain of the source, branch for branch. `Nothing` stands for a
   * path on which no branch assigns the target; for integers there is none
   * (see `EveryPathAssigns`).
   */
  function Branch(last: int, pos: int): Maybe<int> {
    if last == Middle && pos == Down then Just(Up)
    else if last == Down && pos == Up then Just(Middle)
    else if last <= Middle then
      (if pos >= Middle then Just(Middle)
       else if pos < Middle then Just(Down)
       else Nothing)
    else if last > Middle then
      (if pos > Middle then Just(Up)
       else if pos <= Middle then Just(Middle)
       else Nothing)
    else Nothing
  }

  /**
   * The snapped target for a request `pos` made when the blinds last stood at
   * `last`; the target starts out as Down and keeps that value if no branch
   * assigns.
   */
  function Quantize(last: int, pos: int): (target: int)
    ensures IsSnapped(target)
  {
    match Branch(last, pos)
    case Just(t) => t
    case Nothing => Down
  }

  /** The chain of branches is exhaustive: every integer request is assigned a target. */
  lemma EveryPathAssigns(last: int, pos: int)
    ensures Branch(last, pos).Just?
    ensures Quantize(last, pos) == Branch(last, pos).value
  {
  }

  /** The two toggling requests that bypass the hysteresis bands. */
  predicate IsToggle(last: int, pos: int) {
    (last == Middle && pos == Down) || (last == Down && pos == Up)
  }

  /** The source's case table: the toggles first, then one band per side of the middle. */
  lemma QuantizeTable(last: int, pos: int)
    ensures last == Middle && pos == Down ==> Quantize(last, pos) == Up
    ensures last == Down && pos == Up ==> Quantize(last, pos) == Middle
    ensures !IsToggle(last, pos) && last <= Middle ==>
              (Quantize(last, pos) == Middle <==> pos >= Middle) &&
              (Quantize(last, pos) == Down <==> pos < Middle)
    ensures !IsToggle(last, pos) && last > Middle ==>
              (Quantize(last, pos) == Up <==> pos > Middle) &&
              (Quantize(last, pos) == Middle <==> pos <= Middle)
  {
  }

  function Sign(x: int): int {
    if x > 0 then 1 else if x < 0 then -1 else 0
  }

  function Clamp(x: int, lo: int, hi: int): int
    requires lo <= hi
  {
    if x < lo then lo else if x > hi then hi else x
  }

  /**
   * Reference snapping, stated independently of the chain of comparisons: the
   * blinds move within the band of width 50 on their own side of the middle,
   * to the end of that band that lies in the direction of the request seen
   * from the middle (a request of exactly the middle stays at the middle).
   */
  function BandSnap(last: int, pos: int): int {
    var low := if last <= Middle then Down else Middle;
    Clamp(Middle + 50 * Sign(pos - Middle), low, low + 50)
  }

  /** The source's chain equals band snapping, except for the two toggles. */
  lemma QuantizeIsBandSnap(last: int, pos: int)
    ensures Quantize(last, pos) ==
              if IsToggle(last, pos) then (if last == Middle then Up else Middle)
              else BandSnap(last, pos)
  {
  }

  /** Requesting the position the blinds already hold changes nothing. */
  lemma RequestingCurrentIsFixed(last: int)
    requires IsSnapped(last)
    ensures Quantize(last, last) == last
  {
  }

  /** From any resting position a single request moves at most one band. */
  lemma MovesAtMostOneBand(last: int, pos: int)
    requires IsSnapped(last)
    ensures -50 <= Quantize(last, pos) - last <= 50
  {
  }

  /**
   * Up is reached only by the Middle-to-Down toggle or by asking for more than
   * the middle when already above it; in particular asking for Up from Down or
   * Middle never reaches Up.
   */
  lemma ReachesUpOnlyBy(last: int, pos: int)
    ensures Quantize(last, pos) == Up <==>
              (last == Middle && pos == Down) || (last > Middle && pos > Middle)
  {
  }

  /**
   * From a resting position the blinds move against the direction of the
   * request exactly when Down is asked for at Middle.
   */
  lemma MovesAgainstRequestOnlyOnToggle(last: int, pos: int)
    requires IsSnapped(last)
    ensures (Quantize(last, pos) > last && pos < last) ||
            (Quantize(last, pos) < last && pos > last)
            <==> last == Middle && pos == Down
  {
  }

  /** Repeating a request other than Down settles after at most two moves. */
  lemma RepeatedRequestSettles(last: int, pos: int)
    requires pos != Down
    ensures var second := Quantize(Quantize(last, pos), pos);
            Quantize(second, pos) == second
  {
  }

  /** Repeating a request for Down away from Down alternates between Up and Middle. */
  lemma RepeatedDownAlternates()
    ensures Quantize(Middle, Down) == Up
    ensures Quantize(Up, Down) == Middle
    ensures Quantize(Down, Down) == Down
  {
  }

  /**
   * The tilt angle commanded for a snapped target: the source multiplies the
   * offset from the middle by 1.8, which is 9/5 and exact for the three
   * resting positions.
   */
  function TiltAngle(target: int): (angle: int)
    requires IsSnapped(target)
    ensures angle * 5 == (target - Middle) * 9
    ensures -90 <= angle <= 90
  {
    (target - Middle) * 9 / 5
  }

  /** Inverse of `TiltAngle` on the three angles it produces. */
  function PositionOfAngle(angle: int): int {
    angle * 5 / 9 + Middle
  }

  /** Down, Middle and Up tilt to -90, 0 and 90 degrees, in that order. */
  lemma TiltAngleValues(s: int, t: int)
    requires IsSnapped(s) && IsSnapped(t)
    ensures TiltAngle(Down) == -90 && TiltAngle(Middle) == 0 && TiltAngle(Up) == 90
    ensures s < t <==> TiltAngle(s) < TiltAngle(t)
    ensures PositionOfAngle(TiltAngle(t)) == t
  {
  }
}
