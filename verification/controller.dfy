/** The tilt controller: the state kept between motion samples (filtered
    device angles, calibration zero point, published outputs, configuration)
    and the operations that change it. Each motion sample and each user
    action is one method call; timers and subscriptions are not modelled. */
module GyroscopeController {
  import opened BluetoothTypes
  import opened Gyroscope

  /** Math.round: the nearest integer, halves rounded up (towards +infinity). */
  function RoundHalfUp(x: real): (n: int)
    ensures n as real - 0.5 <= x < n as real + 0.5
  {
    (x + 0.5).Floor
  }

  /** Rounding a value that lies between two integers stays between them. */
  lemma RoundWithin(x: real, lo: int, hi: int)
    requires lo as real <= x <= hi as real
    ensures lo <= RoundHalfUp(x) <= hi
  {
  }

  /** Rounding commutes with negation except at exact halves, where
      JavaScript rounds both x and -x up. */
  lemma RoundOddExceptTies(x: real)
    requires RoundHalfUp(x) as real - x != 0.5
    ensures RoundHalfUp(-x) == -RoundHalfUp(x)
  {
  }

  /** A tie that breaks the symmetry: 0.5 rounds to 1 but -0.5 to 0. */
  lemma RoundTieAsymmetry()
    ensures RoundHalfUp(0.5) == 1 && RoundHalfUp(-0.5) == 0
  {
  }

  datatype Config = Config(
    maxPitch: real,
    maxRoll: real,
    smooth: real,
    pitchThreshold: real,
    rollThreshold: real,
    updateInterval: int)

  const DEFAULT_CONFIG := Config(35.0, 25.0, 0.3, 4.0, 2.0, 50)

  /** A Partial<GyroscopeConfig>: the fields a caller chose to supply. */
  datatype PartialConfig = PartialConfig(
    maxPitch: Option<real>,
    maxRoll: Option<real>,
    smooth: Option<real>,
    pitchThreshold: Option<real>,
    rollThreshold: Option<real>,
    updateInterval: Option<int>)

  const NO_CHANGES := PartialConfig(None, None, None, None, None, None)

  /** Every field of a configuration, supplied. */
  function AllFields(c: Config): PartialConfig {
    PartialConfig(Some(c.maxPitch), Some(c.maxRoll), Some(c.smooth),
                  Some(c.pitchThreshold), Some(c.rollThreshold), Some(c.updateInterval))
  }

  /** { ...prev, ...patch }: supplied fields win, the others are kept. */
  function MergeConfig(prev: Config, patch: PartialConfig): (c: Config)
    ensures c.maxPitch == (if patch.maxPitch.Some? then patch.maxPitch.value else prev.maxPitch)
    ensures c.maxRoll == (if patch.maxRoll.Some? then patch.maxRoll.value else prev.maxRoll)
    ensures c.smooth == (if patch.smooth.Some? then patch.smooth.value else prev.smooth)
    ensures c.pitchThreshold == (if patch.pitchThreshold.Some? then patch.pitchThreshold.value else prev.pitchThreshold)
    ensures c.rollThreshold == (if patch.rollThreshold.Some? then patch.rollThreshold.value else prev.rollThreshold)
    ensures c.updateInterval == (if patch.updateInterval.Some? then patch.updateInterval.value else prev.updateInterval)
  {
    Config(patch.maxPitch.GetOr(prev.maxPitch), patch.maxRoll.GetOr(prev.maxRoll),
           patch.smooth.GetOr(prev.smooth), patch.pitchThreshold.GetOr(prev.pitchThreshold),
           patch.rollThreshold.GetOr(prev.rollThreshold), patch.updateInterval.GetOr(prev.updateInterval))
  }

  /** One patch applied after another, as a single patch: later fields win. */
  function ThenPatch(first: PartialConfig, second: PartialConfig): PartialConfig {
    PartialConfig(
      if second.maxPitch.Some? then second.maxPitch else first.maxPitch,
      if second.maxRoll.Some? then second.maxRoll else first.maxRoll,
      if second.smooth.Some? then second.smooth else first.smooth,
      if second.pitchThreshold.Some? then second.pitchThreshold else first.pitchThreshold,
      if second.rollThreshold.Some? then second.rollThreshold else first.rollThreshold,
      if second.updateInterval.Some? then second.updateInterval else first.updateInterval)
  }

  /** An empty patch changes nothing; a full patch replaces everything;
      applying the same patch twice is the same as once. */
  lemma MergeLaws(prev: Config, patch: PartialConfig, full: Config)
    ensures MergeConfig(prev, NO_CHANGES) == prev
    ensures MergeConfig(prev, AllFields(full)) == full
    ensures MergeConfig(MergeConfig(prev, patch), patch) == MergeConfig(prev, patch)
  {
  }

  /** Two successive updateConfig calls equal one call with the combined patch. */
  lemma MergeComposes(prev: Config, first: PartialConfig, second: PartialConfig)
    ensures MergeConfig(MergeConfig(prev, first), second) == MergeConfig(prev, ThenPatch(first, second))
  {
  }

  /** `orientation ?? LANDSCAPE_LEFT`: only a missing reading falls back;
      a reported orientation, even Unknown, is used as it is. */
  function EffectiveOrientation(orientation: Option<Orientation>): (o: Orientation)
    ensures orientation.None? ==> o == LandscapeLeft
    ensures orientation.Some? ==> o == orientation.value
  {
    orientation.GetOr(LandscapeLeft)
  }

  /** The command the controller publishes for given vehicle angles. */
  function PublishedCommand(pitch: real, roll: real, zeroPitch: real, zeroRoll: real, config: Config,
                            throttleShape: real -> real, steeringShape: real -> real): (c: CarCommand)
    requires config.maxPitch > 0.0 && config.maxRoll > 0.0
    requires IsShapingCurve(throttleShape) && IsShapingCurve(steeringShape)
    ensures InRange(c)
    ensures Abs(pitch - zeroPitch) < config.pitchThreshold ==> c.throttle == 0
    ensures Abs(roll - zeroRoll) < config.rollThreshold ==> c.steeringAngle == 90
    ensures pitch - zeroPitch >= config.maxPitch && pitch - zeroPitch >= config.pitchThreshold ==> c.throttle == 100
    ensures roll - zeroRoll >= config.maxRoll && roll - zeroRoll >= config.rollThreshold ==> c.steeringAngle == 180
  {
    var t := CalculateThrottle(pitch - zeroPitch, config.maxPitch, config.pitchThreshold, throttleShape);
    var s := CalculateSteeringAngle(roll - zeroRoll, config.maxRoll, config.rollThreshold, steeringShape);
    RoundWithin(t, -100, 100);
    RoundWithin(s, 0, 180);
    CarCommand(RoundHalfUp(t), RoundHalfUp(s))
  }

  /** The published throttle is odd in the pitch adjustment, except when the
      curve lands exactly on a half, where rounding breaks the tie upwards. */
  lemma PublishedThrottleOdd(pitchAdj: real, maxPitch: real, threshold: real, shape: real -> real)
    requires maxPitch > 0.0 && IsShapingCurve(shape)
    requires RoundHalfUp(CalculateThrottle(pitchAdj, maxPitch, threshold, shape)) as real
             - CalculateThrottle(pitchAdj, maxPitch, threshold, shape) != 0.5
    ensures RoundHalfUp(CalculateThrottle(-pitchAdj, maxPitch, threshold, shape))
         == -RoundHalfUp(CalculateThrottle(pitchAdj, maxPitch, threshold, shape))
  {
    ThrottleOdd(pitchAdj, maxPitch, threshold, shape);
    RoundOddExceptTies(CalculateThrottle(pitchAdj, maxPitch, threshold, shape));
  }

  /** Calibrating on the current angles makes them neutral: zero adjustment
      gives throttle 0 and steering 90 whatever the thresholds. */
  lemma CalibratedAnglesAreNeutral(pitch: real, roll: real, config: Config,
                                   throttleShape: real -> real, steeringShape: real -> real)
    requires config.maxPitch > 0.0 && config.maxRoll > 0.0
    requires IsShapingCurve(throttleShape) && IsShapingCurve(steeringShape)
    ensures PublishedCommand(pitch, roll, pitch, roll, config, throttleShape, steeringShape) == NEUTRAL
  {
    NeutralAtZero(config.maxPitch, config.maxRoll, config.pitchThreshold, config.rollThreshold,
                  throttleShape, steeringShape);
  }

  class Controller {
    /** Math.pow(·, 1.3) and Math.pow(·, 1.5), the two response-curve shapes. */
    const throttleShape: real -> real
    const steeringShape: real -> real

    var config: Config
    var orientation: Option<Orientation>
    var isActive: bool
    var subscribed: bool
    var rawBeta: real
    var rawGamma: real
    var pitch: real
    var roll: real
    var throttle: int
    var steeringAngle: int
    var zeroPitch: real
    var zeroRoll: real
    var filteredBeta: real
    var filteredGamma: real

    ghost predicate Valid()
      reads this
    {
      IsShapingCurve(throttleShape) && IsShapingCurve(steeringShape) &&
      subscribed == isActive &&
      InRange(CarCommand(throttle, steeringAngle))
    }

    /** The command the car should currently receive. */
    function Command(): CarCommand
      reads this
    {
      CarCommand(throttle, steeringAngle)
    }

    constructor (throttleShape: real -> real, steeringShape: real -> real)
      requires IsShapingCurve(throttleShape) && IsShapingCurve(steeringShape)
      ensures Valid()
      ensures this.throttleShape == throttleShape && this.steeringShape == steeringShape
      ensures config == DEFAULT_CONFIG && orientation == None
      ensures !isActive && !subscribed
      ensures throttle == 0 && steeringAngle == 90
      ensures pitch == 0.0 && roll == 0.0 && rawBeta == 0.0 && rawGamma == 0.0
      ensures zeroPitch == 0.0 && zeroRoll == 0.0
      ensures filteredBeta == 0.0 && filteredGamma == 0.0
    {
      this.throttleShape := throttleShape;
      this.steeringShape := steeringShape;
      config := DEFAULT_CONFIG;
      orientation := None;
      isActive, subscribed := false, false;
      rawBeta, rawGamma := 0.0, 0.0;
      pitch, roll := 0.0, 0.0;
      throttle, steeringAngle := 0, 90;
      zeroPitch, zeroRoll := 0.0, 0.0;
      filteredBeta, filteredGamma := 0.0, 0.0;
    }

    /** The orientation listener: records the latest screen orientation. */
    method OrientationChanged(o: Orientation)
      requires Valid()
      modifies this
      ensures Valid()
      ensures orientation == Some(o)
      ensures config == old(config) && isActive == old(isActive) && subscribed == old(subscribed)
      ensures rawBeta == old(rawBeta) && rawGamma == old(rawGamma)
      ensures pitch == old(pitch) && roll == old(roll)
      ensures throttle == old(throttle) && steeringAngle == old(steeringAngle)
      ensures zeroPitch == old(zeroPitch) && zeroRoll == old(zeroRoll)
      ensures filteredBeta == old(filteredBeta) && filteredGamma == old(filteredGamma)
    {
      orientation := Some(o);
    }

    /** activate (subscribe): start listening to motion samples. The filter,
        zero point and outputs are kept as they are. */
    method Activate()
      requires Valid()
      modifies this
      ensures Valid()
      ensures isActive && subscribed
      ensures config == old(config) && orientation == old(orientation)
      ensures rawBeta == old(rawBeta) && rawGamma == old(rawGamma)
      ensures pitch == old(pitch) && roll == old(roll)
      ensures throttle == old(throttle) && steeringAngle == old(steeringAngle)
      ensures zeroPitch == old(zeroPitch) && zeroRoll == old(zeroRoll)
      ensures filteredBeta == old(filteredBeta) && filteredGamma == old(filteredGamma)
    {
      subscribed := true;
      isActive := true;
    }

    /** The motion listener's body for one sample, angles already in degrees:
        smooth, remap, subtract the zero point, shape, round. */
    method Sample(betaDeg: real, gammaDeg: real)
      requires Valid() && subscribed
      requires config.maxPitch > 0.0 && config.maxRoll > 0.0
      modifies this
      ensures config == old(config) && orientation == old(orientation)
      ensures isActive == old(isActive) && subscribed == old(subscribed)
      ensures zeroPitch == old(zeroPitch) && zeroRoll == old(zeroRoll)
      ensures Valid()
      ensures filteredBeta == Lerp(old(filteredBeta), betaDeg, config.smooth)
      ensures filteredGamma == Lerp(old(filteredGamma), gammaDeg, config.smooth)
      ensures rawBeta == betaDeg && rawGamma == gammaDeg
      ensures Angles(pitch, roll) == MapToLandscape(filteredBeta, filteredGamma, EffectiveOrientation(orientation))
      ensures Command() == PublishedCommand(pitch, roll, zeroPitch, zeroRoll, config, throttleShape, steeringShape)
    {
      filteredBeta := Lerp(filteredBeta, betaDeg, config.smooth);
      filteredGamma := Lerp(filteredGamma, gammaDeg, config.smooth);
      rawBeta, rawGamma := betaDeg, gammaDeg;
      var mapped := MapToLandscape(filteredBeta, filteredGamma, EffectiveOrientation(orientation));
      pitch, roll := mapped.pitch, mapped.roll;
      var command := PublishedCommand(pitch, roll, zeroPitch, zeroRoll, config, throttleShape, steeringShape);
      assert InRange(command);
      throttle, steeringAngle := command.throttle, command.steeringAngle;
    }

    /** deactivate (unsubscribe): stop listening and publish neutral.
        The filtered angles and the zero point are kept. */
    method Deactivate()
      requires Valid()
      modifies this
      ensures Valid()
      ensures !isActive && !subscribed
      ensures Command() == NEUTRAL
      ensures config == old(config) && orientation == old(orientation)
      ensures rawBeta == old(rawBeta) && rawGamma == old(rawGamma)
      ensures pitch == old(pitch) && roll == old(roll)
      ensures zeroPitch == old(zeroPitch) && zeroRoll == old(zeroRoll)
      ensures filteredBeta == old(filteredBeta) && filteredGamma == old(filteredGamma)
    {
      subscribed := false;
      isActive := false;
      throttle := 0;
      steeringAngle := 90;
    }

    /** calibrateNeutral: the last published pitch and roll become the zero point. */
    method CalibrateNeutral()
      requires Valid()
      modifies this
      ensures Valid()
      ensures zeroPitch == pitch && zeroRoll == roll
      ensures config == old(config) && orientation == old(orientation)
      ensures isActive == old(isActive) && subscribed == old(subscribed)
      ensures rawBeta == old(rawBeta) && rawGamma == old(rawGamma)
      ensures pitch == old(pitch) && roll == old(roll)
      ensures throttle == old(throttle) && steeringAngle == old(steeringAngle)
      ensures filteredBeta == old(filteredBeta) && filteredGamma == old(filteredGamma)
      ensures config.maxPitch > 0.0 && config.maxRoll > 0.0 ==>
                PublishedCommand(pitch, roll, zeroPitch, zeroRoll, config, throttleShape, steeringShape) == NEUTRAL
    {
      zeroPitch, zeroRoll := pitch, roll;
      if config.maxPitch > 0.0 && config.maxRoll > 0.0 {
        CalibratedAnglesAreNeutral(pitch, roll, config, throttleShape, steeringShape);
      }
    }

    /** updateConfig: merge the supplied fields into the configuration. */
    method UpdateConfig(patch: PartialConfig)
      requires Valid()
      modifies this
      ensures Valid()
      ensures config == MergeConfig(old(config), patch)
      ensures orientation == old(orientation)
      ensures isActive == old(isActive) && subscribed == old(subscribed)
      ensures rawBeta == old(rawBeta) && rawGamma == old(rawGamma)
      ensures pitch == old(pitch) && roll == old(roll)
      ensures throttle == old(throttle) && steeringAngle == old(steeringAngle)
      ensures zeroPitch == old(zeroPitch) && zeroRoll == old(zeroRoll)
      ensures filteredBeta == old(filteredBeta) && filteredGamma == old(filteredGamma)
    {
      config := MergeConfig(config, patch);
    }
  }
}
