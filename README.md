# Fitness tracker workout metrics, in Dafny

A model of the computation layer of the fitness tracker (`homework.py`).
A workout session is one of four classes. `Training` is the concrete base
class; `Running`, `SportsWalking` and `Swimming` are its variants. Each
session turns raw sensor readings into three values: a distance in
kilometres, a mean speed in km/h and the calories spent. `read_package`
picks the class for a workout code (`SWM`, `RUN`, `WLK`) and calls it with
the sensor values as positional arguments. `show_training_info` is meant
to collect five values into an `InfoMessage` record: the class name, the
duration, the distance, the speed and the calories.

Files and modules:

- `workouts.dfy`, module `Workouts`: the sessions as one datatype `Training`,
  one constructor per class, each carrying its `__init__` fields in order.
  It also holds the classes as values (`Kind`), the named constants, the
  getters `Distance`, `MeanSpeed` and `SpentCalories`, one function per
  calorie formula, and the lemmas about them.
- `package.dfy`, module `Package`: `TrainingDict` (the code table) and
  `ReadPackage`.
- `info.dfy`, module `Info`: the `InfoMessage` record, the intended
  `ShowTrainingInfo`, and `ShowTrainingInfoAsWritten`.
- `samples.dfy`, module `Samples`: the driver's three sample packages and
  some rejected packages, worked through as lemmas.
- `wrappers.dfy`, module `Wrappers`: `Option`, for Python's `None`.

Modelling choices:

- Every reading is an exact `real`. Python does not enforce the `int`
  annotations on `action` and `count_pool`. All arithmetic here is products
  and true divisions, so exact reals give the values the formulas define.
  Python's `a // b` on floats is the floor of `a / b`; `FloorDiv` models it
  with `.Floor`.
- A zero duration, or a zero height in a walk, makes Python raise
  `ZeroDivisionError`. Each getter therefore requires that its divisor is
  non-zero. Nothing more is required: negative values compute like any
  others in the source. The source validates no reading; positive readings
  are the predicate `PlausibleReadings`, which only the sign and
  monotonicity lemmas assume.
- `Training.get_spent_calories` has only a docstring, and the `pass` below
  it sits at class level. The method therefore returns `None`.
  `SpentCalories` yields `None` exactly for the base class.
- `read_package` returns Python's implicit `None` for a code outside the
  table (`NoTraining`). A dispatcher that rejects unknown codes would
  raise; the code returns `None` and the model follows it. If `len(data)`
  differs from the class's positional arity, the call `cls(*data)` raises `TypeError`; this is
  `ArityError(expected, given)`.
- `Running` and `SportsWalking` each declare `HOUR_MIN = 60`. The model
  has one constant, `HourMin`.
- The running sample `('RUN', [15000, 1, 75])` computes
  `(18 * 9.75 - 20) * 75 / 1000 * 1 * 60 = 699.75` kcal
  (`Samples.RunningSample`).
- Swimming keeps the inherited `get_distance`, and the code still computes
  the stroke distance `action * 1.38 / 1000`. The intended record of
  `ShowTrainingInfo` reports that value as the distance; `show_training_info`
  as written passes it to Swimming's `__init__`, which stores it in
  `weight`. `Samples.SwimmingSample` shows
  the 0.9936 km stroke distance next to a speed of 1 km/h over one hour.

## Model

| member | source | states |
|---|---|---|
| `Workouts.Arity` | homework.py:29-36 | Training and Running take 3 positional arguments, SportsWalking 4 (line 81), Swimming 5 (line 104); 5 only for Swimming, 4 only for SportsWalking |
| `Workouts.Make` | homework.py:104-112 | calling a class with its arguments gives a session of that class whose fields are the arguments in order (action, duration, weight, then height or pool length and pool count) |
| `Workouts.Args` | homework.py:81-87 | a session's constructor argument list has its class's arity |
| `Workouts.MakeArgs` | homework.py:29-36 | rebuilding a session from its class and its own arguments gives the same session |
| `Workouts.ArgsMake` | homework.py:104-112 | a session built from an argument list has that class and hands back exactly that list |
| `Workouts.Distance` | homework.py:38-41 | distance times 1000 is the action count times the class's step length; a non-negative action count gives a non-negative distance |
| `Workouts.ClassName` | homework.py:55 | `__class__.__name__`: Training, Running, SportsWalking and Swimming each report their own name, and no two classes share one |
| `Workouts.StepLength` | homework.py:100 | `LEN_STEP` as the class resolves it: Swimming's override 1.38 m; every other class inherits 0.65 m (line 26) |
| `Workouts.DistanceIsSteps` | homework.py:26-27 | distance is action × 0.00065 km for every class but Swimming, and action × 0.00138 km for Swimming (LEN_STEP overridden at line 100) |
| `Workouts.DistanceOnlyFromAction` | homework.py:38-41 | two sessions with the same action count and the same step length have the same distance, whatever their other fields (pool length included) |
| `Workouts.PoolDistance` | homework.py:114-117 | the pool distance of a swim with non-negative length and lap count is non-negative |
| `Workouts.MeanSpeed` | homework.py:43-46 | speed times duration is the distance, except for Swimming, where it is the pool distance length × count / 1000 (override at lines 114-117); requires a non-zero duration |
| `Workouts.MeanSpeedIsDistanceOverDuration` | homework.py:43-46 | for every class but Swimming the speed equals distance divided by duration |
| `Workouts.SwimmingSpeedIgnoresAction` | homework.py:114-117 | Swimming speed is the pool distance over duration and does not change when the stroke count changes |
| `Workouts.MeanSpeedNonNegative` | homework.py:43-46 | with plausible readings no class has a negative speed |
| `Workouts.FloorDiv` | homework.py:91 | `a // b` is the integer q with q ≤ a/b < q + 1 |
| `Workouts.SpentCalories` | homework.py:48-51 | the calorie getter yields no value exactly for the base class (its method has only a docstring); Running, SportsWalking and Swimming yield their own override's formula applied to their own mean speed, weight and duration |
| `Workouts.RunningCalories` | homework.py:68-72 | the Running formula `(18 × speed − 20) × weight / 1000 × duration × 60`; with positive weight and duration it is negative if and only if 18 × speed < 20 |
| `Workouts.WalkingCalories` | homework.py:89-94 | the SportsWalking formula with `speed ** 2 // height`; with positive weight, duration and height it is at least 2.1 × weight × duration, because the floored term is never negative |
| `Workouts.SwimmingCalories` | homework.py:119-122 | the Swimming formula `(speed + 1.1) × 2 × weight`; at a non-negative speed and positive weight it is at least 2.2 × weight |
| `Workouts.RunningCaloriesFromDistance` | homework.py:68-72 | Running calories equal 1.08 × weight × distance − 1.2 × weight × duration |
| `Workouts.HeightTermVanishesIff` | homework.py:91 | for a positive height, `speed ** 2 // height` is 0 if and only if speed² < height |
| `Workouts.SlowWalkCalories` | homework.py:89-94 | a walk with speed² below its positive height burns 0.035 × weight × 60 = 2.1 × weight kcal per hour, with no height term |
| `Workouts.WalkingCaloriesSplit` | homework.py:89-94 | walking calories are 2.1 × weight × duration plus the floored quotient times 1.74 × weight × duration; with true division the same holds with the exact quotient |
| `Workouts.WalkingFloorBelowTrueDivision` | homework.py:89-94 | because of `//`, walking calories are at most the true-division value and fall short of it by less than 1.74 × weight × duration |
| `Workouts.SwimmingCaloriesFromPool` | homework.py:119-122 | Swimming calories are 2 × weight × (pool distance / duration + 1.1), independent of the stroke count |
| `Workouts.SwimmingCaloriesMonotoneInLaps` | homework.py:119-122 | with plausible readings, more pool laps never give fewer calories |
| `Package.ReadPackage` | homework.py:125-135 | an unknown code gives no session; a known code with the wrong number of values gives an arity error naming the expected and given counts; otherwise the session has the table's class and its fields are the values in order |
| `Package.Code` | homework.py:129-131 | each variant's code is in the table and maps back to that variant |
| `Package.TableIsTheThreeVariants` | homework.py:129-131 | `TrainingDict`, the model of `training_dict`: its codes are exactly SWM, RUN, WLK, mapping to Swimming (5 arguments), Running (3), SportsWalking (4); the base class is not in it |
| `Package.ReadPackageRoundTrip` | homework.py:133-135 | reading a variant's code with its own argument list returns that very session |
| `Package.ReadPackageOnlyFromArgs` | homework.py:133-135 | a session returned by read_package is a variant, and the code and data were that variant's code and argument list |
| `Info.ShowTrainingInfo` | homework.py:53-59 | the intended report: no record for the base class; for each variant a record of its class name, duration, distance, mean speed and calories |
| `Info.ReportIsConsistent` | homework.py:53-59 | in a report, speed times duration is the reported distance, except for Swimming, where it is the pool distance |
| `Info.ShowTrainingInfoAsWritten` | homework.py:55-59 | the code as written passes 5 arguments to the session's own `__init__`: it returns None for Swimming and raises TypeError (5 given, fewer accepted) for every other class |
| `Info.AsWrittenLosesEveryRecord` | homework.py:55-59 | every variant has an intended record, yet the code as written returns None or raises TypeError |
| `Samples.SwimmingSample` | homework.py:146 | SWM [720, 1, 80, 25, 40]: read as that Swimming session; distance 0.9936, speed 1.0, 336 kcal; the as-written call returns None |
| `Samples.RunningSample` | homework.py:147 | RUN [15000, 1, 75]: distance 9.75, speed 9.75, 699.75 kcal; the as-written call raises TypeError(5 given, 3 accepted) |
| `Samples.WalkingSample` | homework.py:148 | WLK [9000, 1, 75, 180]: distance 5.85, speed 5.85, 34.2225 // 180 = 0, 157.5 kcal; the as-written call raises TypeError(5 given, 4 accepted) |
| `Samples.RejectedPackages` | homework.py:133-135 | codes XYZ and run give no session; RUN with 2 values, WLK with 3 and SWM with none give arity errors |

## Findings

| source | as written | input that shows it | evidently intended | confidence | as-written member | corrected member |
|---|---|---|---|---|---|---|
| homework.py:55 | `show_training_info` passes the five report values to `self.__init__` instead of `InfoMessage` | `Running(15000, 1, 75)`: `__init__` takes 3 positional arguments, so 5 raise TypeError (through `read_package('RUN', [15000, 1, 75])`); Swimming's `__init__` accepts 5 and returns None | return `InfoMessage('Running', 1, 9.75, 9.75, 699.75)` | not executed; high (the return annotation is `InfoMessage` and `main` calls `get_message` on the result) | `Info.ShowTrainingInfoAsWritten` (counterexample: `Samples.RunningSample`) | `Info.ShowTrainingInfo` |

## Left out

- `InfoMessage.get_message` (homework.py:17-21): rendering with `.3f` is presentation. It also leaves out the distance and labels the duration "км".
- `main` and the sample loop (homework.py:138-153): printing and driver code. The three sample packages are the lemmas in `Samples`.
- Float rounding: the model computes with exact reals. With exact reals the formulas give 336, 699.75 and 157.5 kcal for the three samples; the code's floats can differ in the last bits. The program as written prints none of them: the first package is a swim, its `show_training_info` returns `None`, and `main` then fails with AttributeError on `info.get_message()` (homework.py:140-141).
- `ShowTrainingInfoAsWritten`: it does not model what Swimming's `__init__` does to the session. The call stores the class name in `action`, the distance in `weight` and so on. Only the outcome, None or TypeError, is modelled.
- `ZeroDivisionError` from a zero duration or a zero walking height is not modelled as an outcome. The getters require non-zero divisors instead.
- Python's dynamic typing: non-numeric values in `data` are not modelled. The argument list is a sequence of reals, and only its length is checked, as the call `cls(*data)` does.
- ShowTrainingInfo: it gives no record for the base class on purpose. Replacing `self.__init__(` with `InfoMessage(` at homework.py:55 would still build one there, with `calories` set to the `None` of homework.py:48-51. `read_package` never builds a base-class session.
- Input validation: the source validates no reading. Positive readings are the predicate `PlausibleReadings`, assumed by some lemmas.
