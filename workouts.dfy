/**
  The three workout kinds of the fitness tracker and the metrics each one
  derives from its raw sensor readings: distance in kilometres, mean speed in
  km/h and spent kilocalories.

  The source's class hierarchy (a base `Training` with subclasses `Running`,
  `SportsWalking` and `Swimming`) is a closed set of variants here: one
  datatype constructor per subclass, each metric a function that matches on
  the variant. Numbers are exact reals; the source computes in binary
  floating point.
 */
module Workouts {

  // Shared constants of the base class.
  const MetersPerKm: real := 1000.0
  /** Metres covered by one step (running, walking). */
  const StepLength: real := 0.65
  /** Metres covered by one swimming stroke (the Swimming override of the step length). */
  const StrokeLength: real := 1.38

  const MinutesPerHour: real := 60.0

  // Running calorie coefficients.
  const RunSpeedMultiplier: real := 18.0
  const RunSpeedShift: real := 1.79

  // Walking calorie coefficients.
  const WalkWeightCoef: real := 0.035
  const WalkSpeedHeightCoef: real := 0.029
  const CmPerMeter: real := 100.0
  const KmhToMs: real := 0.278

  // Swimming calorie coefficients.
  const SwimSpeedShift: real := 1.1
  const SwimWeightMultiplier: real := 2.0

  /** One workout: the inputs its constructor stores, never changed afterwards. */
  datatype Training =
    | Running(action: real, duration: real, weight: real)
    | SportsWalking(action: real, duration: real, weight: real, height: real)
    | Swimming(action: real, duration: real, weight: real, lengthPool: real, countPool: real)

  /** The summary record handed to the presenter. */
  datatype InfoMessage = InfoMessage(
    trainingType: string,
    duration: real,
    distance: real,
    speed: real,
    calories: real)

  /** The name of the class that the variant stands for. */
  function ClassName(t: Training): (name: string)
    ensures name == "Running" <==> t.Running?
    ensures name == "SportsWalking" <==> t.SportsWalking?
    ensures name == "Swimming" <==> t.Swimming?
  {
    match t
    case Running(_, _, _) => "Running"
    case SportsWalking(_, _, _, _) => "SportsWalking"
    case Swimming(_, _, _, _, _) => "Swimming"
  }

  /** The per-variant step length: Running inherits the base value, Swimming overrides it. */
  function LenStep(t: Training): (r: real)
    ensures r > 0.0
    ensures r == StrokeLength <==> t.Swimming?
    ensures !t.Swimming? ==> r == StepLength
  {
    if t.Swimming? then StrokeLength else StepLength
  }

  /** Distance in km: steps (or strokes) times their length. Shared by every variant. */
  function Distance(t: Training): (r: real)
    ensures r * MetersPerKm == t.action * LenStep(t)
    ensures r >= 0.0 <==> t.action >= 0.0
  {
    t.action * LenStep(t) / MetersPerKm
  }

  /** Kilometres swum according to the pool geometry (pool length times pools crossed). */
  function PoolKm(t: Training): (r: real)
    requires t.Swimming?
    ensures r * MetersPerKm == t.lengthPool * t.countPool
    ensures t.lengthPool >= 0.0 && t.countPool >= 0.0 ==> r >= 0.0
    ensures r == 0.0 <==> t.lengthPool == 0.0 || t.countPool == 0.0
  {
    t.lengthPool * t.countPool / MetersPerKm
  }

  /**
    Mean speed in km/h. Running and walking divide the step distance by the
    duration; Swimming overrides it with the pool geometry and ignores the
    stroke count. Division by a zero duration raises in the source.
   */
  function MeanSpeed(t: Training): (r: real)
    requires t.duration != 0.0
    ensures !t.Swimming? ==> r * t.duration == Distance(t)
    ensures t.Swimming? ==> r * t.duration == PoolKm(t)
    ensures Plausible(t) ==> r >= 0.0
  {
    match t
    case Swimming(_, duration, _, lengthPool, countPool) =>
      lengthPool * countPool / MetersPerKm / duration
    case _ => Distance(t) / t.duration
  }

  /** The divisions the calorie formula performs are all by non-zero numbers. */
  predicate CaloriesDefined(t: Training)
  {
    t.duration != 0.0 && (t.SportsWalking? ==> t.height != 0.0)
  }

  /** Inputs a real sensor produces: positive time, mass and height, non-negative counts. */
  predicate Plausible(t: Training)
  {
    && t.action >= 0.0 && t.duration > 0.0 && t.weight > 0.0
    && (t.SportsWalking? ==> t.height > 0.0)
    && (t.Swimming? ==> t.lengthPool >= 0.0 && t.countPool >= 0.0)
  }

  /** Spent kilocalories, by each variant's own formula over its own mean speed. */
  function Calories(t: Training): (r: real)
    requires CaloriesDefined(t)
    ensures Plausible(t) ==> r > 0.0
  {
    CaloriesOf(t, MeanSpeed(t))
  }

  /** The calorie formula of each variant, applied to a given mean speed. */
  function CaloriesOf(t: Training, speed: real): (r: real)
    requires CaloriesDefined(t)
    ensures Plausible(t) && speed >= 0.0 ==> r > 0.0
  {
    match t
    case Running(_, duration, weight) => RunningCalories(speed, weight, duration)
    case SportsWalking(_, duration, weight, height) => WalkingCalories(speed, weight, duration, height)
    case Swimming(_, duration, weight, _, _) => SwimmingCalories(speed, weight, duration)
  }

  /** Running: (18 * km/h + 1.79) * kg / 1000 * hours * 60. */
  function RunningCalories(speed: real, weight: real, duration: real): (r: real)
    ensures speed >= 0.0 && weight > 0.0 && duration > 0.0 ==> r > 0.0
    ensures speed == 0.0 ==> r * MetersPerKm == RunSpeedShift * weight * duration * MinutesPerHour
  {
    (RunSpeedMultiplier * speed + RunSpeedShift) * weight / MetersPerKm * duration * MinutesPerHour
  }

  /**
    Walking: (0.035 * kg + (km/h * 0.278)^2 / (cm / 100) * 0.029 * kg) * hours * 60.
    The source divides by the height in metres, so a zero height raises.
   */
  function WalkingCalories(speed: real, weight: real, duration: real, height: real): (r: real)
    requires height != 0.0
    ensures weight > 0.0 && duration > 0.0 && height > 0.0 ==>
      r >= WalkWeightCoef * weight * duration * MinutesPerHour > 0.0
    ensures speed == 0.0 ==> r == WalkWeightCoef * weight * duration * MinutesPerHour
  {
    (WalkWeightCoef * weight
      + (speed * KmhToMs) * (speed * KmhToMs) / (height / CmPerMeter) * WalkSpeedHeightCoef * weight)
      * (duration * MinutesPerHour)
  }

  /** Swimming: (km/h + 1.1) * 2 * kg * hours. */
  function SwimmingCalories(speed: real, weight: real, duration: real): (r: real)
    ensures speed >= 0.0 && weight > 0.0 && duration > 0.0 ==> r > 0.0
    ensures speed == 0.0 ==> r == SwimSpeedShift * SwimWeightMultiplier * weight * duration
  {
    (speed + SwimSpeedShift) * SwimWeightMultiplier * weight * duration
  }

  /**
    The summary of a workout. The duration is passed through unchanged and the
    metrics come from the variant's own getters, so a swim reports the pool
    speed, not the stroke distance over time.
   */
  function ShowTrainingInfo(t: Training): (m: InfoMessage)
    requires CaloriesDefined(t)
    ensures m.trainingType == ClassName(t)
    ensures m.duration == t.duration
    ensures m.distance == Distance(t) && m.calories == Calories(t)
    ensures !t.Swimming? ==> m.speed * m.duration == m.distance
    ensures t.Swimming? ==> m.speed * m.duration * MetersPerKm == t.lengthPool * t.countPool
    ensures Plausible(t) ==> m.distance >= 0.0 && m.speed >= 0.0 && m.calories > 0.0
  {
    InfoMessage(ClassName(t), t.duration, Distance(t), MeanSpeed(t), Calories(t))
  }

  /** Proof helper: the same workout with a different step (or stroke) count, every other field kept. */
  function WithAction(t: Training, action: real): (u: Training)
    ensures ClassName(u) == ClassName(t) && u.action == action
    ensures u.duration == t.duration && u.weight == t.weight
    ensures t.SportsWalking? ==> u.SportsWalking? && u.height == t.height
    ensures t.Swimming? ==> u.Swimming? && u.lengthPool == t.lengthPool && u.countPool == t.countPool
  {
    match t
    case Running(_, d, w) => Running(action, d, w)
    case SportsWalking(_, d, w, h) => SportsWalking(action, d, w, h)
    case Swimming(_, d, w, l, c) => Swimming(action, d, w, l, c)
  }

  /** Proof helper: the same workout with a different body weight, every other field kept. */
  function WithWeight(t: Training, weight: real): (u: Training)
    ensures ClassName(u) == ClassName(t) && u.weight == weight
    ensures u.action == t.action && u.duration == t.duration
    ensures t.SportsWalking? ==> u.SportsWalking? && u.height == t.height
    ensures t.Swimming? ==> u.Swimming? && u.lengthPool == t.lengthPool && u.countPool == t.countPool
  {
    match t
    case Running(a, d, _) => Running(a, d, weight)
    case SportsWalking(a, d, _, h) => SportsWalking(a, d, weight, h)
    case Swimming(a, d, _, l, c) => Swimming(a, d, weight, l, c)
  }

  /** Swimming speed depends on the pool geometry only: the stroke count plays no part. */
  lemma SwimmingSpeedIgnoresStrokes(t: Training, strokes: real)
    requires t.Swimming? && t.duration != 0.0
    ensures MeanSpeed(WithAction(t, strokes)) == MeanSpeed(t)
  {
    var u := Swimming(strokes, t.duration, t.weight, t.lengthPool, t.countPool);
    assert WithAction(t, strokes) == u;
    assert MeanSpeed(u) * t.duration == PoolKm(u) == PoolKm(t);
  }

  /**
    Running calories restated over distance and duration instead of speed:
    (18 * km + 1.79 * hours) * kg * 60 / 1000.
   */
  lemma RunningCaloriesByDistance(t: Training)
    requires t.Running? && t.duration != 0.0
    ensures Calories(t) * MetersPerKm
      == (RunSpeedMultiplier * Distance(t) + RunSpeedShift * t.duration) * t.weight * MinutesPerHour
  {
  }

  /** Swimming calories restated over the kilometres swum: 2 * kg * (km + 1.1 * hours). */
  lemma SwimmingCaloriesByPoolKm(t: Training)
    requires t.Swimming? && t.duration != 0.0
    ensures Calories(t) == SwimWeightMultiplier * t.weight * (PoolKm(t) + SwimSpeedShift * t.duration)
  {
  }

  lemma SquareMonotone(a: real, b: real)
    requires 0.0 <= a <= b
    ensures a * a <= b * b
  {
  }

  lemma ScaleMonotone(a: real, b: real, c: real)
    requires a <= b && c >= 0.0
    ensures a * c <= b * c
  {
  }

  lemma WalkingCaloriesMonotone(speed: real, faster: real, weight: real, duration: real, height: real)
    requires 0.0 <= speed <= faster && weight > 0.0 && duration > 0.0 && height > 0.0
    ensures WalkingCalories(speed, weight, duration, height) <= WalkingCalories(faster, weight, duration, height)
  {
    var v, v' := speed * KmhToMs, faster * KmhToMs;
    SquareMonotone(v, v');
    var h := height / CmPerMeter;
    var x, x' := v * v / h, v' * v' / h;
    assert x <= x';
    ScaleMonotone(x * WalkSpeedHeightCoef, x' * WalkSpeedHeightCoef, weight);
    ScaleMonotone(WalkWeightCoef * weight + x * WalkSpeedHeightCoef * weight,
      WalkWeightCoef * weight + x' * WalkSpeedHeightCoef * weight, duration * MinutesPerHour);
  }

  /** For plausible inputs each calorie formula grows with the mean speed. */
  lemma CaloriesOfMonotone(t: Training, speed: real, faster: real)
    requires Plausible(t) && 0.0 <= speed <= faster
    ensures CaloriesOf(t, speed) <= CaloriesOf(t, faster)
  {
    if t.SportsWalking? {
      WalkingCaloriesMonotone(speed, faster, t.weight, t.duration, t.height);
    }
  }

  /** More steps in the same time burn at least as many calories, running or walking. */
  lemma CaloriesMonotoneInSteps(t: Training, more: real)
    requires !t.Swimming? && Plausible(t) && more >= t.action
    ensures CaloriesDefined(WithAction(t, more))
    ensures Calories(t) <= Calories(WithAction(t, more))
  {
    var u := WithAction(t, more);
    var s, s' := MeanSpeed(t), MeanSpeed(u);
    assert Distance(t) <= Distance(u);
    assert s <= s';
    CaloriesOfMonotone(t, s, s');
    assert CaloriesOf(t, s') == CaloriesOf(u, s');
  }

  /** Each calorie formula, at a fixed speed, is linear in the weight. */
  lemma CaloriesOfPerKilogram(t: Training, speed: real, k: real)
    requires CaloriesDefined(t)
    ensures CaloriesDefined(WithWeight(t, k * t.weight))
    ensures CaloriesOf(WithWeight(t, k * t.weight), speed) == k * CaloriesOf(t, speed)
  {
  }

  lemma MeanSpeedIgnoresWeight(t: Training, weight: real)
    requires t.duration != 0.0
    ensures MeanSpeed(WithWeight(t, weight)) == MeanSpeed(t)
  {
    match t
    case Running(a, d, _) =>
      assert Distance(Running(a, d, weight)) == Distance(t);
    case SportsWalking(a, d, _, h) =>
      assert Distance(SportsWalking(a, d, weight, h)) == Distance(t);
    case Swimming(_, _, _, _, _) =>
  }

  /** Every calorie formula is per kilogram: scaling the weight scales the calories. */
  lemma CaloriesProportionalToWeight(t: Training, k: real)
    requires CaloriesDefined(t)
    ensures CaloriesDefined(WithWeight(t, k * t.weight))
    ensures Calories(WithWeight(t, k * t.weight)) == k * Calories(t)
  {
    MeanSpeedIgnoresWeight(t, k * t.weight);
    CaloriesOfPerKilogram(t, MeanSpeed(t), k);
  }
}
