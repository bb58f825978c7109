/**
 * The workout classes of the fitness tracker: the concrete base class
 * `Training` and its three variants `Running`, `SportsWalking` and
 * `Swimming`, each turning raw sensor readings into a distance (km),
 * a mean speed (km/h) and the calories spent.
 *
 * Python does not enforce its `int`/`float` annotations and every
 * quantity goes through true division, so all readings are exact `real`s.
 */
module Workouts {
  import opened Wrappers

  /** Step length in metres of `Training`, inherited by Running and SportsWalking. */
  const LenStep: real := 0.65
  /** Stroke length in metres; Swimming overrides `LEN_STEP` with it. */
  const SwimLenStep: real := 1.38
  /** Metres in a kilometre. */
  const MInKm: real := 1000.0
  /** Minutes in an hour; Running and SportsWalking each declare it. */
  const HourMin: real := 60.0

  const RunSpeedFactor: real := 18.0
  const RunSpeedShift: real := 20.0
  const WalkWeightFactor: real := 0.035
  const WalkHeightFactor: real := 0.029
  const SwimSpeedShift: real := 1.1
  const SwimFactor: real := 2.0

  /** One session; each variant carries its constructor's fields in order. */
  datatype Training =
    | Base(action: real, duration: real, weight: real)
    | Running(action: real, duration: real, weight: real)
    | SportsWalking(action: real, duration: real, weight: real, height: real)
    | Swimming(action: real, duration: real, weight: real,
               lengthPool: real, countPool: real)

  /** The classes, as values: what the dispatcher stores and calls. */
  datatype Kind = TrainingKind | RunningKind | WalkingKind | SwimmingKind

  function KindOf(t: Training): Kind {
    match t
    case Base(_, _, _) => TrainingKind
    case Running(_, _, _) => RunningKind
    case SportsWalking(_, _, _, _) => WalkingKind
    case Swimming(_, _, _, _, _) => SwimmingKind
  }

  /** `__class__.__name__`: each class has its own name, shared with no other class. */
  function ClassName(k: Kind): (name: string)
    ensures name == "Training" <==> k == TrainingKind
    ensures name == "Running" <==> k == RunningKind
    ensures name == "SportsWalking" <==> k == WalkingKind
    ensures name == "Swimming" <==> k == SwimmingKind
  {
    match k
    case TrainingKind => "Training"
    case RunningKind => "Running"
    case WalkingKind => "SportsWalking"
    case SwimmingKind => "Swimming"
  }

  /** Number of positional arguments the class's `__init__` takes after `self`. */
  function Arity(k: Kind): (n: nat)
    ensures 3 <= n <= 5
    ensures n == 5 <==> k == SwimmingKind
    ensures n == 4 <==> k == WalkingKind
  {
    match k
    case TrainingKind => 3
    case RunningKind => 3
    case WalkingKind => 4
    case SwimmingKind => 5
  }

  /** Calling the class with positional arguments: each field is the argument at its position. */
  function Make(k: Kind, args: seq<real>): (t: Training)
    requires |args| == Arity(k)
    ensures KindOf(t) == k
    ensures t.action == args[0] && t.duration == args[1] && t.weight == args[2]
    ensures t.SportsWalking? ==> t.height == args[3]
    ensures t.Swimming? ==> t.lengthPool == args[3] && t.countPool == args[4]
  {
    match k
    case TrainingKind => Base(args[0], args[1], args[2])
    case RunningKind => Running(args[0], args[1], args[2])
    case WalkingKind => SportsWalking(args[0], args[1], args[2], args[3])
    case SwimmingKind => Swimming(args[0], args[1], args[2], args[3], args[4])
  }

  /** The positional arguments a session was built from. */
  function Args(t: Training): (args: seq<real>)
    ensures |args| == Arity(KindOf(t))
  {
    match t
    case Base(a, d, w) => [a, d, w]
    case Running(a, d, w) => [a, d, w]
    case SportsWalking(a, d, w, h) => [a, d, w, h]
    case Swimming(a, d, w, l, c) => [a, d, w, l, c]
  }

  /** Building from a session's own arguments gives the session back. */
  lemma {:induction false} MakeArgs(t: Training)
    ensures Make(KindOf(t), Args(t)) == t
  {
  }

  /** A built session remembers its class and its arguments, in order. */
  lemma {:induction false} ArgsMake(k: Kind, args: seq<real>)
    requires |args| == Arity(k)
    ensures KindOf(Make(k, args)) == k && Args(Make(k, args)) == args
  {
  }

  /** `LEN_STEP` as the session's class resolves it: Swimming overrides the
      inherited 0.65 m step with a 1.38 m stroke. */
  function StepLength(t: Training): (metres: real)
    ensures t.Swimming? ==> metres == SwimLenStep
    ensures !t.Swimming? ==> metres == LenStep
  {
    if t.Swimming? then SwimLenStep else LenStep
  }

  /** `get_distance`: kilometres covered, from the action count. */
  function Distance(t: Training): (km: real)
    ensures 0.0 <= t.action ==> 0.0 <= km
    ensures km * MInKm == t.action * StepLength(t)
  {
    t.action * StepLength(t) / MInKm
  }

  /** The distance a Swimming session covered in the pool, in km. */
  function PoolDistance(t: Training): (km: real)
    requires t.Swimming?
    ensures 0.0 <= t.lengthPool && 0.0 <= t.countPool ==> 0.0 <= km
  {
    t.lengthPool * t.countPool / MInKm
  }

  /**
   * `get_mean_speed`: the base divides the distance by the duration;
   * Swimming divides the pool distance instead, ignoring `action`.
   * Speed times duration gives back what was divided.
   */
  function MeanSpeed(t: Training): (kmh: real)
    requires t.duration != 0.0
    ensures !t.Swimming? ==> kmh * t.duration == Distance(t)
    ensures t.Swimming? ==> kmh * t.duration == PoolDistance(t)
  {
    if t.Swimming? then t.lengthPool * t.countPool / MInKm / t.duration
    else Distance(t) / t.duration
  }

  /** Python's `a // b` on floats: the floor of the true quotient. */
  function FloorDiv(a: real, b: real): (q: int)
    requires b != 0.0
    ensures q as real <= a / b < q as real + 1.0
  {
    (a / b).Floor
  }

  /** What `get_spent_calories` needs not to divide by zero. */
  predicate CaloriesDefined(t: Training) {
    (!t.Base? ==> t.duration != 0.0) && (t.SportsWalking? ==> t.height != 0.0)
  }

  /** The Running formula of `get_spent_calories`. With a positive weight and
      duration it is negative exactly when the speed is below 20/18 km/h. */
  function RunningCalories(speed: real, weight: real, duration: real): (kcal: real)
    ensures 0.0 < weight && 0.0 < duration
            ==> (kcal < 0.0 <==> RunSpeedFactor * speed < RunSpeedShift)
  {
    (RunSpeedFactor * speed - RunSpeedShift) * weight / MInKm * duration * HourMin
  }

  /** The SportsWalking formula, with `speed ** 2 // height`. With positive
      weight, duration and height the floored term never goes below zero, so a
      walk burns at least 0.035 kcal per kg and minute, 2.1 per kg and hour. */
  function WalkingCalories(speed: real, weight: real, duration: real, height: real): (kcal: real)
    requires height != 0.0
    ensures 0.0 < weight && 0.0 < duration && 0.0 < height ==> 2.1 * weight * duration <= kcal
  {
    (WalkWeightFactor * weight
     + FloorDiv(speed * speed, height) as real * WalkHeightFactor * weight)
    * duration * HourMin
  }

  /** The Swimming formula. At any non-negative speed a positive weight
      burns at least 2 × 1.1 = 2.2 kcal per kg. */
  function SwimmingCalories(speed: real, weight: real): (kcal: real)
    ensures 0.0 <= speed && 0.0 < weight ==> 2.2 * weight <= kcal
  {
    (speed + SwimSpeedShift) * SwimFactor * weight
  }

  /**
   * `get_spent_calories`. The base class's method has only a docstring,
   * so it yields `None`; each variant's override applies that variant's
   * formula to the variant's own mean speed.
   */
  function SpentCalories(t: Training): (kcal: Option<real>)
    requires CaloriesDefined(t)
    ensures kcal.None? <==> t.Base?
    ensures t.Running? ==> kcal == Some(RunningCalories(MeanSpeed(t), t.weight, t.duration))
    ensures t.SportsWalking? ==> kcal == Some(WalkingCalories(MeanSpeed(t), t.weight, t.duration, t.height))
    ensures t.Swimming? ==> kcal == Some(SwimmingCalories(MeanSpeed(t), t.weight))
  {
    match t
    case Base(_, _, _) => None
    case Running(_, d, w) => Some(RunningCalories(MeanSpeed(t), w, d))
    case SportsWalking(_, d, w, h) => Some(WalkingCalories(MeanSpeed(t), w, d, h))
    case Swimming(_, _, w, _, _) => Some(SwimmingCalories(MeanSpeed(t), w))
  }

  /** The readings a real session has: positive divisors and weight, non-negative counts. */
  predicate PlausibleReadings(t: Training) {
    0.0 <= t.action && 0.0 < t.duration && 0.0 < t.weight
    && (t.SportsWalking? ==> 0.0 < t.height)
    && (t.Swimming? ==> 0.0 < t.lengthPool && 0.0 <= t.countPool)
  }

  // ---------------------------------------------------------------- distance

  /** Distance scales linearly with the action count, at 0.65 m a step (1.38 m a stroke). */
  lemma {:induction false} DistanceIsSteps(t: Training)
    ensures !t.Swimming? ==> Distance(t) == t.action * 0.00065
    ensures t.Swimming? ==> Distance(t) == t.action * 0.00138
  {
  }

  /** Distance depends only on the action count and the class's step, never on
      the pool, the height, the weight or the duration. */
  lemma {:induction false} DistanceOnlyFromAction(t: Training, u: Training)
    requires t.action == u.action && t.Swimming? == u.Swimming?
    ensures Distance(t) == Distance(u)
  {
  }

  // ------------------------------------------------------------- mean speed

  /** For every class but Swimming, speed is distance over duration. */
  lemma {:induction false} MeanSpeedIsDistanceOverDuration(t: Training)
    requires t.duration != 0.0 && !t.Swimming?
    ensures MeanSpeed(t) == Distance(t) / t.duration
  {
  }

  /** Swimming speed is the pool distance over duration, whatever the stroke count. */
  lemma {:induction false} SwimmingSpeedIgnoresAction(a: real, d: real, w: real, l: real, c: real, a': real)
    requires d != 0.0
    ensures MeanSpeed(Swimming(a, d, w, l, c)) == PoolDistance(Swimming(a, d, w, l, c)) / d
    ensures MeanSpeed(Swimming(a', d, w, l, c)) == MeanSpeed(Swimming(a, d, w, l, c))
  {
  }

  /** With plausible readings no speed is negative. */
  lemma {:induction false} MeanSpeedNonNegative(t: Training)
    requires PlausibleReadings(t)
    ensures 0.0 <= MeanSpeed(t)
  {
  }

  // --------------------------------------------------------------- calories

  /** Running calories, with speed replaced by distance/duration:
      1.08 kcal per kg and km, minus 1.2 kcal per kg and hour. */
  lemma {:induction false} RunningCaloriesFromDistance(t: Training)
    requires t.Running? && t.duration != 0.0
    ensures SpentCalories(t).value == 1.08 * t.weight * Distance(t) - 1.2 * t.weight * t.duration
  {
  }

  /** A zero floor quotient is what happens exactly when the squared speed is below the height. */
  lemma {:induction false} HeightTermVanishesIff(speed: real, height: real)
    requires 0.0 < height
    ensures FloorDiv(speed * speed, height) == 0 <==> speed * speed < height
  {
    var sq := speed * speed;
    var x := sq / height;
    assert x * height == sq;
    assert 0.0 <= sq;
    SignOfScaled(x, height);
    SignOfScaled(x - 1.0, height);
  }

  /** So a walk slower than sqrt(height) km/h burns only 2.1 kcal per kg and hour. */
  lemma {:induction false} SlowWalkCalories(t: Training)
    requires t.SportsWalking? && t.duration != 0.0 && 0.0 < t.height
    requires MeanSpeed(t) * MeanSpeed(t) < t.height
    ensures SpentCalories(t).value == 2.1 * t.weight * t.duration
  {
    HeightTermVanishesIff(MeanSpeed(t), t.height);
  }

  /** The walking formula as it would read with true division instead of `//`. */
  function WalkingCaloriesTrueDivision(speed: real, weight: real, duration: real, height: real): real
    requires height != 0.0
  {
    (WalkWeightFactor * weight + speed * speed / height * WalkHeightFactor * weight)
    * duration * HourMin
  }

  /** Both walking formulas: the weight term plus a multiple of 1.74 kcal per kg and hour. */
  lemma {:induction false} WalkingCaloriesSplit(speed: real, weight: real, duration: real, height: real)
    requires height != 0.0
    ensures WalkingCalories(speed, weight, duration, height)
         == 2.1 * weight * duration
            + FloorDiv(speed * speed, height) as real * (1.74 * weight * duration)
    ensures WalkingCaloriesTrueDivision(speed, weight, duration, height)
         == 2.1 * weight * duration + speed * speed / height * (1.74 * weight * duration)
  {
  }

  /** Floor division loses less than one step of the height term, 1.74 kcal per kg and hour. */
  lemma {:induction false} WalkingFloorBelowTrueDivision(speed: real, weight: real, duration: real, height: real)
    requires 0.0 < weight && 0.0 < duration && height != 0.0
    ensures WalkingCalories(speed, weight, duration, height)
         <= WalkingCaloriesTrueDivision(speed, weight, duration, height)
    ensures WalkingCaloriesTrueDivision(speed, weight, duration, height) - 1.74 * weight * duration
         < WalkingCalories(speed, weight, duration, height)
  {
    var gap := speed * speed / height - FloorDiv(speed * speed, height) as real;
    var step := 1.74 * weight * duration;
    ProductPositive(weight, duration);
    WalkingCaloriesSplit(speed, weight, duration, height);
    var floored := WalkingCalories(speed, weight, duration, height);
    var exact := WalkingCaloriesTrueDivision(speed, weight, duration, height);
    assert exact - floored == gap * step;
    WithinOneStep(exact, floored, gap, step);
  }

  /** Swimming calories come from the pool distance and the weight only, not the strokes. */
  lemma {:induction false} SwimmingCaloriesFromPool(a: real, d: real, w: real, l: real, c: real, a': real)
    requires d != 0.0
    ensures SpentCalories(Swimming(a, d, w, l, c)).value
         == 2.0 * w * (PoolDistance(Swimming(a, d, w, l, c)) / d + 1.1)
    ensures SpentCalories(Swimming(a', d, w, l, c)).value == SpentCalories(Swimming(a, d, w, l, c)).value
  {
  }

  /** More laps never burn fewer calories. */
  lemma {:induction false} SwimmingCaloriesMonotoneInLaps(a: real, d: real, w: real, l: real, c: real, c': real)
    requires PlausibleReadings(Swimming(a, d, w, l, c)) && c <= c'
    ensures SpentCalories(Swimming(a, d, w, l, c)).value <= SpentCalories(Swimming(a, d, w, l, c')).value
  {
    var t, u := Swimming(a, d, w, l, c), Swimming(a, d, w, l, c');
    assert PoolDistance(t) <= PoolDistance(u) by { assert l * c <= l * c'; }
    assert MeanSpeed(t) <= MeanSpeed(u);
  }

  // ------------------------------------------------- arithmetic helpers

  lemma ProductPositive(a: real, b: real)
    requires 0.0 < a && 0.0 < b
    ensures 0.0 < a * b
  {
  }

  lemma SignOfScaled(k: real, c: real)
    requires 0.0 < c
    ensures k < 0.0 <==> k * c < 0.0
    ensures k < 1.0 <==> k * c < c
    ensures 0.0 <= k ==> 0.0 <= k * c
  {
  }

  lemma WithinOneStep(exact: real, floored: real, gap: real, step: real)
    requires exact - floored == gap * step && 0.0 <= gap < 1.0 && 0.0 < step
    ensures floored <= exact && exact - step < floored
  {
    FractionScaled(gap, step);
  }

  lemma FractionScaled(g: real, c: real)
    requires 0.0 <= g < 1.0 && 0.0 < c
    ensures 0.0 <= g * c < c
  {
  }
}
