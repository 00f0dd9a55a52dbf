/** Nearest-cardinal axes around the player and the order in which nearby blocks are encoded.
    Angles are exact reals; sines and cosines are any pair on the unit circle. */
module VoxelOrientation {
  const RADIUS: int := 2
  const ENCODED_BYTES: int := 500

  datatype Axes = Axes(forwardX: int, forwardZ: int, rightX: int, rightZ: int, residual: real)
  datatype Offset = Offset(x: int, y: int, z: int)
  datatype Block = Block(collision: bool, fluid: bool, hazard: bool, breakable: bool)

  // ---------------------------------------------------------------- angles

  /** The remainder of a division truncated towards zero. */
  function TruncatedRemainder(value: real, divisor: real): real
    requires 0.0 < divisor
  {
    if value >= 0.0 then value - divisor * (value / divisor).Floor as real
    else -(-value - divisor * (-value / divisor).Floor as real)
  }

  function NormalizeDegrees(value: real): (r: real)
    ensures -180.0 <= r < 180.0
  {
    var remainder := TruncatedRemainder(value, 360.0);
    if remainder >= 180.0 then remainder - 360.0
    else if remainder < -180.0 then remainder + 360.0
    else remainder
  }

  function AxesFor(quarter: int, residual: real): Axes
    requires 0 <= quarter < 4
  {
    match quarter
    case 0 => Axes(0, 1, -1, 0, residual)
    case 1 => Axes(-1, 0, 0, -1, residual)
    case 2 => Axes(0, -1, 1, 0, residual)
    case _ => Axes(1, 0, 0, 1, residual)
  }

  function Quarter(yaw: real): (q: int)
    ensures 0 <= q < 4
  {
    ((NormalizeDegrees(yaw) + 45.0) / 90.0).Floor % 4
  }

  function FromYaw(yaw: real): Axes {
    var quarter := Quarter(yaw);
    AxesFor(quarter, NormalizeDegrees(NormalizeDegrees(yaw) - quarter as real * 90.0))
  }

  /** The two angles differ by full turns. */
  ghost predicate SameAngle(a: real, b: real) {
    exists turns: int :: FullTurns(a, b, turns)
  }

  predicate FullTurns(a: real, b: real, turns: int) {
    a == b + 360.0 * turns as real
  }

  lemma NormalizedIsSameAngle(value: real) returns (turns: int)
    ensures FullTurns(value, NormalizeDegrees(value), turns)
  {
    var remainder := TruncatedRemainder(value, 360.0);
    var whole := if value >= 0.0 then (value / 360.0).Floor else -(-value / 360.0).Floor;
    assert value == remainder + 360.0 * whole as real;
    turns := if remainder >= 180.0 then whole + 1 else if remainder < -180.0 then whole - 1 else whole;
  }

  /** yaw = 90 * quarter + residual up to full turns, with the residual in [-45, 45). */
  lemma YawSplits(yaw: real)
    ensures -45.0 <= FromYaw(yaw).residual < 45.0
    ensures SameAngle(yaw, 90.0 * Quarter(yaw) as real + FromYaw(yaw).residual)
  {
    var normalized, quarter := NormalizeDegrees(yaw), Quarter(yaw);
    var whole := ((normalized + 45.0) / 90.0).Floor;
    assert -2 <= whole <= 2;
    var outer := NormalizedIsSameAngle(yaw);
    var inner := NormalizedIsSameAngle(normalized - quarter as real * 90.0);
    assert FullTurns(yaw, 90.0 * quarter as real + FromYaw(yaw).residual, outer + inner);
  }

  /** No other split exists. */
  lemma SplitIsUnique(yaw: real, quarter: int, residual: real)
    requires 0 <= quarter < 4 && -45.0 <= residual < 45.0
    requires SameAngle(yaw, 90.0 * quarter as real + residual)
    ensures quarter == Quarter(yaw) && FromYaw(yaw) == AxesFor(quarter, residual)
  {
    YawSplits(yaw);
    var own, ownResidual := Quarter(yaw), FromYaw(yaw).residual;
    var m: int :| FullTurns(yaw, 90.0 * own as real + ownResidual, m);
    var n: int :| FullTurns(yaw, 90.0 * quarter as real + residual, n);
    var difference := (own - quarter) + 4 * (m - n);
    assert residual - ownResidual == 90.0 * difference as real;
    assert difference == 0;
  }

  /** A quarter turn moves to the next cardinal and keeps the residual. */
  lemma QuarterTurn(yaw: real)
    ensures Quarter(yaw + 90.0) == (Quarter(yaw) + 1) % 4
    ensures FromYaw(yaw + 90.0) == AxesFor((Quarter(yaw) + 1) % 4, FromYaw(yaw).residual)
  {
    YawSplits(yaw);
    var quarter, residual := Quarter(yaw), FromYaw(yaw).residual;
    var m: int :| FullTurns(yaw, 90.0 * quarter as real + residual, m);
    var next := (quarter + 1) % 4;
    assert FullTurns(yaw + 90.0, 90.0 * next as real + residual,
                     if quarter == 3 then m + 1 else m);
    SplitIsUnique(yaw + 90.0, next, residual);
  }

  // ---------------------------------------------------------------- axes

  function OffsetOf(axes: Axes, right: int, up: int, forward: int): Offset {
    Offset(forward * axes.forwardX + right * axes.rightX, up,
           forward * axes.forwardZ + right * axes.rightZ)
  }

  function ForwardVelocity(axes: Axes, cos: real, sin: real, x: real, z: real): real {
    x * (axes.forwardX as real * cos + axes.rightX as real * sin)
    + z * (axes.forwardZ as real * cos + axes.rightZ as real * sin)
  }

  function StrafeVelocity(axes: Axes, cos: real, sin: real, x: real, z: real): real {
    x * (axes.rightX as real * cos - axes.forwardX as real * sin)
    + z * (axes.rightZ as real * cos - axes.forwardZ as real * sin)
  }

  /** Cosine and sine of an angle turned on by whole quarters. */
  function TurnedBy(cos: real, sin: real, quarter: int): (real, real)
    requires 0 <= quarter < 4
  {
    match quarter
    case 0 => (cos, sin)
    case 1 => (-sin, cos)
    case 2 => (-cos, -sin)
    case _ => (sin, -cos)
  }

  lemma ProjectionFollowsQuarter(
      quarter: int, residual: real, cos: real, sin: real, x: real, z: real)
    requires 0 <= quarter < 4
    ensures var (c, s) := TurnedBy(cos, sin, quarter);
            && ForwardVelocity(AxesFor(quarter, residual), cos, sin, x, z) == z * c - x * s
            && StrafeVelocity(AxesFor(quarter, residual), cos, sin, x, z) == -(x * c) - z * s
  {
  }

  /** The axes and the residual together are the exact look direction (-sin, cos) of the whole yaw,
      and its right-hand side. */
  lemma ProjectionFollowsYaw(yaw: real, cos: real, sin: real, x: real, z: real)
    ensures var (c, s) := TurnedBy(cos, sin, Quarter(yaw));
            && ForwardVelocity(FromYaw(yaw), cos, sin, x, z) == z * c - x * s
            && StrafeVelocity(FromYaw(yaw), cos, sin, x, z) == -(x * c) - z * s
  {
    ProjectionFollowsQuarter(Quarter(yaw), FromYaw(yaw).residual, cos, sin, x, z);
  }

  /** Projecting a velocity on the exact forward and right directions keeps its length. */
  lemma ProjectionPreservesSpeed(yaw: real, cos: real, sin: real, x: real, z: real)
    requires cos * cos + sin * sin == 1.0
    ensures var forward := ForwardVelocity(FromYaw(yaw), cos, sin, x, z);
            var strafe := StrafeVelocity(FromYaw(yaw), cos, sin, x, z);
            forward * forward + strafe * strafe == x * x + z * z
  {
  }
}
