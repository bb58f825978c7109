/**
 * `InfoMessage` and `show_training_info`: the five values a session's
 * report is made of.
 */
module Info {
  import opened Wrappers
  import opened Workouts

  /** The fields of `InfoMessage`, in constructor order. */
  datatype InfoMessage = InfoMessage(
    trainingType: string, duration: real, distance: real, speed: real, calories: real)

  /** What `show_training_info` needs so that none of its getters divides by zero. */
  predicate InfoDefined(t: Training) {
    t.duration != 0.0 && CaloriesDefined(t)
  }

  /**
   * The record `show_training_info` is meant to build: the class name, the
   * duration and the three getters. The base class has no calorie figure,
   * so it yields no record.
   */
  function ShowTrainingInfo(t: Training): (m: Option<InfoMessage>)
    requires InfoDefined(t)
    ensures m.Some? <==> !t.Base?
    ensures m.Some? ==> m.value.trainingType == ClassName(KindOf(t)) && m.value.duration == t.duration
    ensures m.Some? ==> m.value.distance == Distance(t) && m.value.speed == MeanSpeed(t)
    ensures m.Some? ==> SpentCalories(t) == Some(m.value.calories)
  {
    match SpentCalories(t)
    case None => None
    case Some(kcal) =>
      Some(InfoMessage(ClassName(KindOf(t)), t.duration, Distance(t), MeanSpeed(t), kcal))
  }

  /** In every report but a swim's, speed times duration is the reported distance;
      a swim's speed instead covers the pool distance. */
  lemma {:induction false} ReportIsConsistent(t: Training)
    requires InfoDefined(t) && !t.Base?
    ensures !t.Swimming? ==> ShowTrainingInfo(t).value.speed * ShowTrainingInfo(t).value.duration
                             == ShowTrainingInfo(t).value.distance
    ensures t.Swimming? ==> ShowTrainingInfo(t).value.speed * ShowTrainingInfo(t).value.duration
                            == PoolDistance(t)
  {
  }

  /** How the call `self.__init__(...)` in `show_training_info` ends. */
  datatype InitCall =
    | RaisesTypeError(given: nat, accepted: nat)
    | ReturnsNone

  /**
   * `show_training_info` as written: after evaluating the five report values it
   * passes them to the session's own `__init__`, not to `InfoMessage`. Only
   * Swimming's `__init__` takes five positional arguments, and it returns `None`;
   * every other class raises `TypeError`. No class gets a record.
   */
  function ShowTrainingInfoAsWritten(t: Training): (r: InitCall)
    requires InfoDefined(t)
    ensures r.ReturnsNone? <==> t.Swimming?
    ensures r.RaisesTypeError? ==> r.given == 5 && r.accepted < 5
  {
    if Arity(KindOf(t)) == 5 then ReturnsNone else RaisesTypeError(5, Arity(KindOf(t)))
  }

  /** Every variant has a record to report, yet the code as written reports none:
      it either raises or hands back `None`. */
  lemma {:induction false} AsWrittenLosesEveryRecord(t: Training)
    requires InfoDefined(t) && !t.Base?
    ensures ShowTrainingInfo(t).Some?
    ensures ShowTrainingInfoAsWritten(t) == ReturnsNone
            || ShowTrainingInfoAsWritten(t) == RaisesTypeError(5, Arity(KindOf(t)))
  {
  }
}
