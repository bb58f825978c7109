/**
 * The three sample packages of the program's driver, and a few
 * packages the dispatcher turns away, worked through the model.
 */
module Samples {
  import opened Wrappers
  import opened Workouts
  import opened Package
  import opened Info

  /** ('SWM', [720, 1, 80, 25, 40]): 1 km/h and 336 kcal; the stroke distance
      0.9936 km is not what the speed covers. */
  lemma {:induction false} SwimmingSample()
    ensures ReadPackage("SWM", [720.0, 1.0, 80.0, 25.0, 40.0]) == Read(Swimming(720.0, 1.0, 80.0, 25.0, 40.0))
    ensures Distance(Swimming(720.0, 1.0, 80.0, 25.0, 40.0)) == 0.9936
    ensures MeanSpeed(Swimming(720.0, 1.0, 80.0, 25.0, 40.0)) == 1.0
    ensures SpentCalories(Swimming(720.0, 1.0, 80.0, 25.0, 40.0)) == Some(336.0)
    ensures ShowTrainingInfo(Swimming(720.0, 1.0, 80.0, 25.0, 40.0))
            == Some(InfoMessage("Swimming", 1.0, 0.9936, 1.0, 336.0))
    ensures ShowTrainingInfoAsWritten(Swimming(720.0, 1.0, 80.0, 25.0, 40.0)) == ReturnsNone
  {
  }

  /** ('RUN', [15000, 1, 75]): 9.75 km at 9.75 km/h; the formula as written
      gives 699.75 kcal. */
  lemma {:induction false} RunningSample()
    ensures ReadPackage("RUN", [15000.0, 1.0, 75.0]) == Read(Running(15000.0, 1.0, 75.0))
    ensures Distance(Running(15000.0, 1.0, 75.0)) == 9.75
    ensures MeanSpeed(Running(15000.0, 1.0, 75.0)) == 9.75
    ensures SpentCalories(Running(15000.0, 1.0, 75.0)) == Some(699.75)
    ensures ShowTrainingInfo(Running(15000.0, 1.0, 75.0))
            == Some(InfoMessage("Running", 1.0, 9.75, 9.75, 699.75))
    ensures ShowTrainingInfoAsWritten(Running(15000.0, 1.0, 75.0)) == RaisesTypeError(5, 3)
  {
  }

  /** ('WLK', [9000, 1, 75, 180]): 5.85 km at 5.85 km/h; 34.2225 // 180 is 0,
      so only the weight term is left: 157.5 kcal. */
  lemma {:induction false} WalkingSample()
    ensures ReadPackage("WLK", [9000.0, 1.0, 75.0, 180.0]) == Read(SportsWalking(9000.0, 1.0, 75.0, 180.0))
    ensures Distance(SportsWalking(9000.0, 1.0, 75.0, 180.0)) == 5.85
    ensures MeanSpeed(SportsWalking(9000.0, 1.0, 75.0, 180.0)) == 5.85
    ensures FloorDiv(5.85 * 5.85, 180.0) == 0
    ensures SpentCalories(SportsWalking(9000.0, 1.0, 75.0, 180.0)) == Some(157.5)
    ensures ShowTrainingInfo(SportsWalking(9000.0, 1.0, 75.0, 180.0))
            == Some(InfoMessage("SportsWalking", 1.0, 5.85, 5.85, 157.5))
    ensures ShowTrainingInfoAsWritten(SportsWalking(9000.0, 1.0, 75.0, 180.0)) == RaisesTypeError(5, 4)
  {
  }

  /** An unknown code yields no session; a known code with the wrong
      number of values is a call with the wrong arity. */
  lemma {:induction false} RejectedPackages()
    ensures ReadPackage("XYZ", [15000.0, 1.0, 75.0]) == NoTraining
    ensures ReadPackage("run", [15000.0, 1.0, 75.0]) == NoTraining
    ensures ReadPackage("RUN", [15000.0, 1.0]) == ArityError(3, 2)
    ensures ReadPackage("WLK", [9000.0, 1.0, 75.0]) == ArityError(4, 3)
    ensures ReadPackage("SWM", []) == ArityError(5, 0)
  {
  }
}
