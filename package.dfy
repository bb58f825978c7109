/**
 * `read_package`: the dictionary from workout codes to classes and the
 * call of the chosen class with the sensor data as positional arguments.
 */
module Package {
  import opened Workouts

  /** `training_dict`: the closed table of codes. */
  const TrainingDict: map<string, Kind> :=
    map["SWM" := SwimmingKind, "RUN" := RunningKind, "WLK" := WalkingKind]

  /** What `read_package` hands back: a session, the implicit `None` of an
      unknown code, or the `TypeError` of a call with the wrong argument count. */
  datatype ReadOutcome =
    | Read(training: Training)
    | NoTraining
    | ArityError(expected: nat, given: nat)

  function ReadPackage(workoutType: string, data: seq<real>): (r: ReadOutcome)
    ensures r.NoTraining? <==> workoutType !in TrainingDict
    ensures r.ArityError? <==> workoutType in TrainingDict && |data| != Arity(TrainingDict[workoutType])
    ensures r.ArityError? ==> r.expected == Arity(TrainingDict[workoutType]) && r.given == |data|
    ensures r.Read? ==> KindOf(r.training) == TrainingDict[workoutType] && Args(r.training) == data
  {
    if workoutType in TrainingDict then
      var k := TrainingDict[workoutType];
      if |data| == Arity(k) then
        ArgsMake(k, data);
        Read(Make(k, data))
      else
        ArityError(Arity(k), |data|)
    else
      NoTraining
  }

  /** The code under which the table lists a class; the base class has none. */
  function Code(k: Kind): (code: string)
    requires k != TrainingKind
    ensures code in TrainingDict && TrainingDict[code] == k
  {
    match k
    case RunningKind => "RUN"
    case WalkingKind => "WLK"
    case SwimmingKind => "SWM"
  }

  /** The table holds exactly the three variants, each under its own code,
      and never the base class. */
  lemma {:induction false} TableIsTheThreeVariants()
    ensures TrainingDict.Keys == {"SWM", "RUN", "WLK"}
    ensures ClassName(TrainingDict["SWM"]) == "Swimming" && Arity(TrainingDict["SWM"]) == 5
    ensures ClassName(TrainingDict["RUN"]) == "Running" && Arity(TrainingDict["RUN"]) == 3
    ensures ClassName(TrainingDict["WLK"]) == "SportsWalking" && Arity(TrainingDict["WLK"]) == 4
    ensures forall code :: code in TrainingDict ==> TrainingDict[code] != TrainingKind
  {
  }

  /** Reading a variant's own code and arguments rebuilds that very session. */
  lemma {:induction false} ReadPackageRoundTrip(t: Training)
    requires !t.Base?
    ensures ReadPackage(Code(KindOf(t)), Args(t)) == Read(t)
  {
  }

  /** Conversely, a session that `read_package` returns came from its own
      code and arguments, and is never the base class. */
  lemma {:induction false} ReadPackageOnlyFromArgs(workoutType: string, data: seq<real>, t: Training)
    requires ReadPackage(workoutType, data) == Read(t)
    ensures !t.Base? && workoutType == Code(KindOf(t)) && data == Args(t)
  {
  }
}
