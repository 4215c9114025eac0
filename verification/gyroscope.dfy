/** Tilt-to-command maths: clamping, interpolation, the orientation remap,
    the throttle and steering response curves and the two display helpers.
    Angles are in degrees; the radians-to-degrees step happens before these
    functions and is not part of this model. */
module Gyroscope {

  function Abs(x: real): real { if x < 0.0 then -x else x }

  /** Math.sign on a real that is not NaN. */
  function Sign(x: real): real { if x < 0.0 then -1.0 else if x > 0.0 then 1.0 else 0.0 }

  function Min(a: real, b: real): real { if a <= b then a else b }
  function Max(a: real, b: real): real { if a >= b then a else b }

  /** clamp(v, min, max) = Math.max(min, Math.min(max, v)). */
  function Clamp(v: real, min: real, max: real): (r: real)
    ensures min <= max ==> min <= r <= max
    ensures min <= v <= max ==> r == v
    ensures min <= max && v < min ==> r == min
    ensures min <= max && v > max ==> r == max
    ensures min > max ==> r == min
  {
    Max(min, Min(max, v))
  }

  /** Clamping to a symmetric interval commutes with negation. */
  lemma ClampNegate(v: real, bound: real)
    requires bound >= 0.0
    ensures Clamp(-v, -bound, bound) == -Clamp(v, -bound, bound)
  {
  }

  /** Clamping is monotone in the clamped value. */
  lemma ClampMonotone(v: real, w: real, min: real, max: real)
    requires min <= max && v <= w
    ensures Clamp(v, min, max) <= Clamp(w, min, max)
  {
  }

  /** lerp(a, b, t) = a + (b - a) * t: t is the weight given to b. */
  function Lerp(a: real, b: real, t: real): (r: real)
    ensures t == 0.0 ==> r == a
    ensures t == 1.0 ==> r == b
    ensures 0.0 <= t <= 1.0 ==> Min(a, b) <= r <= Max(a, b)
  {
    LerpBetween(a, b, t);
    a + (b - a) * t
  }

  lemma LerpBetween(a: real, b: real, t: real)
    ensures 0.0 <= t <= 1.0 ==> Min(a, b) <= a + (b - a) * t <= Max(a, b)
  {
    if 0.0 <= t <= 1.0 {
      if a <= b {
        MulBetween(b - a, t);
      } else {
        MulBetween(a - b, t);
        assert (b - a) * t == -((a - b) * t);
      }
    }
  }

  lemma MulBetween(d: real, t: real)
    requires d >= 0.0 && 0.0 <= t <= 1.0
    ensures 0.0 <= d * t <= d
  {
    assert d - d * t == d * (1.0 - t);
  }

  /** Interpolation commutes with negation. */
  lemma LerpNegate(a: real, b: real, t: real)
    ensures Lerp(-a, -b, t) == -Lerp(a, b, t)
  {
  }

  /** Screen orientations reported by the platform. */
  datatype Orientation = Unknown | PortraitUp | PortraitDown | LandscapeLeft | LandscapeRight

  /** Vehicle-frame tilt: pitch > 0 is tilt forward, roll > 0 is tilt right. */
  datatype Angles = Angles(pitch: real, roll: real)

  function NegateAngles(a: Angles): Angles { Angles(-a.pitch, -a.roll) }

  function LerpAngles(a: Angles, b: Angles, t: real): Angles {
    Angles(Lerp(a.pitch, b.pitch, t), Lerp(a.roll, b.roll, t))
  }

  /** mapToLandscape: device-frame beta/gamma to vehicle-frame pitch/roll.
      Landscape orientations swap the axes (left also negates both); every
      other orientation keeps beta as pitch and gamma as roll. */
  function MapToLandscape(betaDeg: real, gammaDeg: real, orientation: Orientation): (a: Angles)
    ensures Abs(a.pitch) + Abs(a.roll) == Abs(betaDeg) + Abs(gammaDeg)
  {
    if orientation == LandscapeLeft then Angles(-gammaDeg, -betaDeg)
    else if orientation == LandscapeRight then Angles(gammaDeg, betaDeg)
    else Angles(betaDeg, gammaDeg)
  }

  /** The inverse of the remap, from vehicle frame back to device frame
      (a reference definition, not part of the app). */
  function DeviceAngles(a: Angles, orientation: Orientation): (real, real)
  {
    if orientation == LandscapeLeft then (-a.roll, -a.pitch)
    else if orientation == LandscapeRight then (a.roll, a.pitch)
    else (a.pitch, a.roll)
  }

  /** The remap loses nothing: the device angles can be recovered. */
  lemma MapToLandscapeInvertible(betaDeg: real, gammaDeg: real, orientation: Orientation)
    ensures DeviceAngles(MapToLandscape(betaDeg, gammaDeg, orientation), orientation) == (betaDeg, gammaDeg)
  {
  }

  /** The two landscape orientations are mirror images. */
  lemma LandscapeLeftMirrorsRight(betaDeg: real, gammaDeg: real)
    ensures MapToLandscape(betaDeg, gammaDeg, LandscapeLeft)
         == NegateAngles(MapToLandscape(betaDeg, gammaDeg, LandscapeRight))
    ensures MapToLandscape(betaDeg, gammaDeg, LandscapeRight) == Angles(gammaDeg, betaDeg)
    ensures forall o :: o != LandscapeLeft && o != LandscapeRight ==>
              MapToLandscape(betaDeg, gammaDeg, o) == Angles(betaDeg, gammaDeg)
  {
  }

  /** For a fixed orientation, smoothing the device angles and then remapping
      gives the same vehicle angles as remapping both samples and smoothing
      those: the remap only swaps and negates. */
  lemma {:induction false} SmoothingCommutesWithRemap(
    oldBeta: real, oldGamma: real, beta: real, gamma: real, t: real, orientation: Orientation)
    ensures MapToLandscape(Lerp(oldBeta, beta, t), Lerp(oldGamma, gamma, t), orientation)
         == LerpAngles(MapToLandscape(oldBeta, oldGamma, orientation), MapToLandscape(beta, gamma, orientation), t)
  {
    LerpNegate(oldBeta, beta, t);
    LerpNegate(oldGamma, gamma, t);
  }

  /** What Math.pow(x, e) is known to do on [0, 1] for an exponent e > 0:
      it fixes 0 and 1, stays in [0, 1] and is monotone. The response curves
      take the power function as a parameter with these properties. */
  ghost predicate IsShapingCurve(shape: real -> real) {
    shape(0.0) == 0.0 && shape(1.0) == 1.0 &&
    (forall x :: 0.0 <= x <= 1.0 ==> 0.0 <= shape(x) <= 1.0) &&
    (forall x, y :: 0.0 <= x <= y <= 1.0 ==> shape(x) <= shape(y))
  }

  /** sign(n) * |n|^e: the shaped value of a normalised input. */
  function Curved(normalized: real, shape: real -> real): real {
    Sign(normalized) * shape(Abs(normalized))
  }

  /** The shaped value of a normalised input keeps its sign and its range. */
  lemma CurvedBounds(n: real, shape: real -> real)
    requires IsShapingCurve(shape) && -1.0 <= n <= 1.0
    ensures -1.0 <= Curved(n, shape) <= 1.0
    ensures n > 0.0 ==> Curved(n, shape) >= 0.0
    ensures n < 0.0 ==> Curved(n, shape) <= 0.0
    ensures n == 1.0 ==> Curved(n, shape) == 1.0
    ensures n == -1.0 ==> Curved(n, shape) == -1.0
  {
    assert 0.0 <= shape(Abs(n)) <= 1.0;
  }

  /** On a non-negative input the shaped value is the curve itself; on a
      non-positive one it is the mirrored curve. */
  lemma CurvedInterior(n: real, shape: real -> real)
    requires IsShapingCurve(shape)
    ensures n >= 0.0 ==> Curved(n, shape) == shape(n)
    ensures n <= 0.0 ==> Curved(n, shape) == -shape(-n)
  {
  }

  /** The value of a normalised adjustment within full tilt, and its mirror. */
  lemma NormalizeInterior(adj: real, max: real)
    requires max > 0.0
    ensures 0.0 <= adj <= max ==> Normalize(adj, max) == adj / max
    ensures -max <= adj <= 0.0 ==> -Normalize(adj, max) == -adj / max
  {
    assert -adj / max == -(adj / max);
  }

  lemma CurvedOdd(n: real, shape: real -> real)
    ensures Curved(-n, shape) == -Curved(n, shape)
  {
    assert Abs(-n) == Abs(n);
  }

  lemma {:induction false} CurvedMonotone(n: real, m: real, shape: real -> real)
    requires IsShapingCurve(shape) && -1.0 <= n <= m <= 1.0
    ensures Curved(n, shape) <= Curved(m, shape)
  {
    if n < 0.0 && m < 0.0 {
      assert shape(Abs(m)) <= shape(Abs(n));
    } else if n < 0.0 {
      CurvedBounds(n, shape);
      CurvedBounds(m, shape);
    } else if n == 0.0 {
      CurvedBounds(m, shape);
    } else {
      assert shape(Abs(n)) <= shape(Abs(m));
    }
  }

  /** clamp(adj / max, -1, 1): the adjustment as a fraction of full tilt. */
  function Normalize(adj: real, max: real): (n: real)
    requires max > 0.0
    ensures -1.0 <= n <= 1.0
    ensures adj >= 0.0 ==> n >= 0.0
    ensures adj <= 0.0 ==> n <= 0.0
    ensures adj >= max ==> n == 1.0
    ensures adj <= -max ==> n == -1.0
    ensures -max <= adj <= max ==> n == adj / max
  {
    DivideBounds(adj, max);
    Clamp(adj / max, -1.0, 1.0)
  }

  lemma DivideBounds(adj: real, max: real)
    requires max > 0.0
    ensures adj >= 0.0 ==> adj / max >= 0.0
    ensures adj <= 0.0 ==> adj / max <= 0.0
    ensures adj >= max ==> adj / max >= 1.0
    ensures adj <= -max ==> adj / max <= -1.0
    ensures adj <= max ==> adj / max <= 1.0
    ensures adj >= -max ==> adj / max >= -1.0
  {
    var q := adj / max;
    assert q * max == adj;
    assert (q - 1.0) * max == adj - max;
    assert (q + 1.0) * max == adj + max;
    if adj >= max {
      NonnegativeFactor(q - 1.0, max);
    }
    if adj <= -max {
      NonnegativeFactor(-(q + 1.0), max);
    }
    if adj <= max {
      NonnegativeFactor(-(q - 1.0), max);
    }
    if adj >= -max {
      NonnegativeFactor(q + 1.0, max);
    }
  }

  lemma NonnegativeFactor(x: real, y: real)
    requires y > 0.0 && x * y >= 0.0
    ensures x >= 0.0
  {
  }

  lemma NormalizeOdd(adj: real, max: real)
    requires max > 0.0
    ensures Normalize(-adj, max) == -Normalize(adj, max)
  {
    assert -adj / max == -(adj / max);
    ClampNegate(adj / max, 1.0);
  }

  lemma {:induction false} NormalizeMonotone(x: real, y: real, max: real)
    requires max > 0.0 && x <= y
    ensures Normalize(x, max) <= Normalize(y, max)
  {
    DivideMonotone(x, y, max);
    ClampMonotone(x / max, y / max, -1.0, 1.0);
  }

  /** calculateThrottle: signed throttle percentage, 0 inside the dead zone. */
  function CalculateThrottle(pitchAdj: real, maxPitch: real, threshold: real, shape: real -> real): (r: real)
    requires maxPitch > 0.0
    requires IsShapingCurve(shape)
    ensures -100.0 <= r <= 100.0
    ensures Abs(pitchAdj) < threshold ==> r == 0.0
    ensures pitchAdj >= 0.0 ==> r >= 0.0
    ensures pitchAdj <= 0.0 ==> r <= 0.0
    ensures Abs(pitchAdj) >= threshold && pitchAdj >= maxPitch ==> r == 100.0
    ensures Abs(pitchAdj) >= threshold && pitchAdj <= -maxPitch ==> r == -100.0
    ensures Abs(pitchAdj) >= threshold && 0.0 <= pitchAdj <= maxPitch ==>
              r == 100.0 * shape(pitchAdj / maxPitch)
    ensures Abs(pitchAdj) >= threshold && -maxPitch <= pitchAdj <= 0.0 ==>
              r == -100.0 * shape(-pitchAdj / maxPitch)
  {
    if Abs(pitchAdj) < threshold then 0.0
    else
      var normalized := Normalize(pitchAdj, maxPitch);
      CurvedBounds(normalized, shape);
      CurvedInterior(normalized, shape);
      NormalizeInterior(pitchAdj, maxPitch);
      Curved(normalized, shape) * 100.0
  }

  /** calculateSteeringAngle: 0..180 degrees, 90 inside the dead zone. */
  function CalculateSteeringAngle(rollAdj: real, maxRoll: real, threshold: real, shape: real -> real): (r: real)
    requires maxRoll > 0.0
    requires IsShapingCurve(shape)
    ensures 0.0 <= r <= 180.0
    ensures Abs(rollAdj) < threshold ==> r == 90.0
    ensures rollAdj >= 0.0 ==> r >= 90.0
    ensures rollAdj <= 0.0 ==> r <= 90.0
    ensures Abs(rollAdj) >= threshold && rollAdj >= maxRoll ==> r == 180.0
    ensures Abs(rollAdj) >= threshold && rollAdj <= -maxRoll ==> r == 0.0
    ensures Abs(rollAdj) >= threshold && 0.0 <= rollAdj <= maxRoll ==>
              r == 90.0 + 90.0 * shape(rollAdj / maxRoll)
    ensures Abs(rollAdj) >= threshold && -maxRoll <= rollAdj <= 0.0 ==>
              r == 90.0 - 90.0 * shape(-rollAdj / maxRoll)
  {
    if Abs(rollAdj) < threshold then 90.0
    else
      var normalized := Normalize(rollAdj, maxRoll);
      CurvedBounds(normalized, shape);
      CurvedInterior(normalized, shape);
      NormalizeInterior(rollAdj, maxRoll);
      Clamp(90.0 + Curved(normalized, shape) * 90.0, 0.0, 180.0)
  }

  /** Throttle is an odd function of the pitch adjustment. */
  lemma {:induction false} ThrottleOdd(pitchAdj: real, maxPitch: real, threshold: real, shape: real -> real)
    requires maxPitch > 0.0 && IsShapingCurve(shape)
    ensures CalculateThrottle(-pitchAdj, maxPitch, threshold, shape)
         == -CalculateThrottle(pitchAdj, maxPitch, threshold, shape)
  {
    if Abs(pitchAdj) >= threshold {
      NormalizeOdd(pitchAdj, maxPitch);
      CurvedOdd(Normalize(pitchAdj, maxPitch), shape);
    }
  }

  /** Steering is point-symmetric about the centre: mirroring the roll
      mirrors the angle about 90. */
  lemma {:induction false} SteeringMirror(rollAdj: real, maxRoll: real, threshold: real, shape: real -> real)
    requires maxRoll > 0.0 && IsShapingCurve(shape)
    ensures CalculateSteeringAngle(-rollAdj, maxRoll, threshold, shape)
         == 180.0 - CalculateSteeringAngle(rollAdj, maxRoll, threshold, shape)
  {
    if Abs(rollAdj) >= threshold {
      NormalizeOdd(rollAdj, maxRoll);
      var n := Normalize(rollAdj, maxRoll);
      CurvedOdd(n, shape);
      CurvedBounds(n, shape);
    }
  }

  lemma DivideMonotone(x: real, y: real, d: real)
    requires d > 0.0 && x <= y
    ensures x / d <= y / d
  {
    assert y / d - x / d == (y - x) / d;
  }

  /** More forward tilt never gives less throttle. */
  lemma {:induction false} ThrottleMonotone(x: real, y: real, maxPitch: real, threshold: real, shape: real -> real)
    requires maxPitch > 0.0 && IsShapingCurve(shape) && x <= y
    ensures CalculateThrottle(x, maxPitch, threshold, shape) <= CalculateThrottle(y, maxPitch, threshold, shape)
  {
    if Abs(x) >= threshold && Abs(y) >= threshold {
      NormalizeMonotone(x, y, maxPitch);
      CurvedMonotone(Normalize(x, maxPitch), Normalize(y, maxPitch), shape);
    }
  }

  /** More tilt to the right never steers further left. */
  lemma {:induction false} SteeringMonotone(x: real, y: real, maxRoll: real, threshold: real, shape: real -> real)
    requires maxRoll > 0.0 && IsShapingCurve(shape) && x <= y
    ensures CalculateSteeringAngle(x, maxRoll, threshold, shape) <= CalculateSteeringAngle(y, maxRoll, threshold, shape)
  {
    if Abs(x) >= threshold && Abs(y) >= threshold {
      NormalizeMonotone(x, y, maxRoll);
      var n, m := Normalize(x, maxRoll), Normalize(y, maxRoll);
      CurvedMonotone(n, m, shape);
      ClampMonotone(90.0 + Curved(n, shape) * 90.0, 90.0 + Curved(m, shape) * 90.0, 0.0, 180.0);
    }
  }

  /** With no adjustment both curves sit at neutral, whatever the threshold. */
  lemma NeutralAtZero(maxPitch: real, maxRoll: real, pitchThreshold: real, rollThreshold: real,
                      throttleShape: real -> real, steeringShape: real -> real)
    requires maxPitch > 0.0 && maxRoll > 0.0
    requires IsShapingCurve(throttleShape) && IsShapingCurve(steeringShape)
    ensures CalculateThrottle(0.0, maxPitch, pitchThreshold, throttleShape) == 0.0
    ensures CalculateSteeringAngle(0.0, maxRoll, rollThreshold, steeringShape) == 90.0
  {
  }

  /** Worked cases of the curves with the default limits: at full roll the
      wheels turn fully right, inside the dead zone nothing moves. */
  lemma CurveExamples(throttleShape: real -> real, steeringShape: real -> real)
    requires IsShapingCurve(throttleShape) && IsShapingCurve(steeringShape)
    ensures CalculateSteeringAngle(25.0, 25.0, 2.0, steeringShape) == 180.0
    ensures CalculateSteeringAngle(-25.0, 25.0, 2.0, steeringShape) == 0.0
    ensures CalculateThrottle(2.0, 35.0, 4.0, throttleShape) == 0.0
    ensures CalculateThrottle(40.0, 35.0, 4.0, throttleShape) == 100.0
    ensures CalculateThrottle(17.5, 35.0, 4.0, throttleShape) == 100.0 * throttleShape(0.5)
    ensures CalculateThrottle(-17.5, 35.0, 4.0, throttleShape) == -100.0 * throttleShape(0.5)
    ensures CalculateSteeringAngle(12.5, 25.0, 2.0, steeringShape) == 90.0 + 90.0 * steeringShape(0.5)
  {
    assert 17.5 / 35.0 == 0.5 && 12.5 / 25.0 == 0.5;
  }

  const NEUTRAL_COLOR := "#666"
  const LOW_COLOR := "#4CAF50"
  const MEDIUM_COLOR := "#FFC107"
  const HIGH_COLOR := "#FF9800"
  const MAX_COLOR := "#F44336"

  /** getThrottleColor: five bands of |throttle| split at 10, 30, 60 and 80. */
  function ThrottleColor(throttle: real): (c: string)
    ensures c == NEUTRAL_COLOR <==> Abs(throttle) < 10.0
    ensures c == LOW_COLOR <==> 10.0 <= Abs(throttle) < 30.0
    ensures c == MEDIUM_COLOR <==> 30.0 <= Abs(throttle) < 60.0
    ensures c == HIGH_COLOR <==> 60.0 <= Abs(throttle) < 80.0
    ensures c == MAX_COLOR <==> 80.0 <= Abs(throttle)
  {
    var absThrottle := Abs(throttle);
    if absThrottle < 10.0 then NEUTRAL_COLOR
    else if absThrottle < 30.0 then LOW_COLOR
    else if absThrottle < 60.0 then MEDIUM_COLOR
    else if absThrottle < 80.0 then HIGH_COLOR
    else MAX_COLOR
  }

  /** Forward and reverse throttle of the same size get the same colour. */
  lemma ThrottleColorSymmetric(throttle: real)
    ensures ThrottleColor(-throttle) == ThrottleColor(throttle)
  {
  }

  /** calculateArrowRotation: the arrow points along the steering angle,
      turned half a revolution in reverse. */
  function ArrowRotation(throttle: real, steeringAngle: real): (r: real)
    ensures throttle >= 0.0 ==> r == steeringAngle - 90.0
    ensures throttle < 0.0 ==> r == steeringAngle + 90.0
    ensures 0.0 <= steeringAngle <= 180.0 && throttle >= 0.0 ==> -90.0 <= r <= 90.0
    ensures 0.0 <= steeringAngle <= 180.0 && throttle < 0.0 ==> 90.0 <= r <= 270.0
  {
    var baseRotation := steeringAngle - 90.0;
    if throttle < 0.0 then baseRotation + 180.0 else baseRotation
  }

  /** Reversing turns the arrow by exactly 180 degrees. */
  lemma ReverseArrowIsHalfTurn(forward: real, reverse: real, steeringAngle: real)
    requires forward >= 0.0 && reverse < 0.0
    ensures ArrowRotation(reverse, steeringAngle) == ArrowRotation(forward, steeringAngle) + 180.0
  {
  }
}
