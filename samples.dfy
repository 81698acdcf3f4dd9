/**
  The three packages of the demonstration driver, read and summarised. The
  summaries are exact rationals; the driver prints them rounded to three
  decimals.
 */
module Samples {
  import opened Workouts
  import opened Package

  /** 720 strokes in one hour, 80 kg, forty lengths of a 25 m pool. */
  lemma SwimmingSample()
    ensures ReadPackage("SWM", [720.0, 1.0, 80.0, 25.0, 40.0]) == Built(Swimming(720.0, 1.0, 80.0, 25.0, 40.0))
    ensures ShowTrainingInfo(Swimming(720.0, 1.0, 80.0, 25.0, 40.0))
      == InfoMessage("Swimming", 1.0, 0.9936, 1.0, 336.0)
  {
  }

  /** 15000 steps in one hour at 75 kg. */
  lemma RunningSample()
    ensures ReadPackage("RUN", [15000.0, 1.0, 75.0]) == Built(Running(15000.0, 1.0, 75.0))
    ensures ShowTrainingInfo(Running(15000.0, 1.0, 75.0))
      == InfoMessage("Running", 1.0, 9.75, 9.75, 797.805)
  {
  }

  /** 9000 steps in one hour at 75 kg and 180 cm. */
  lemma WalkingSample()
    ensures ReadPackage("WLK", [9000.0, 1.0, 75.0, 180.0]) == Built(SportsWalking(9000.0, 1.0, 75.0, 180.0))
    ensures ShowTrainingInfo(SportsWalking(9000.0, 1.0, 75.0, 180.0))
      == InfoMessage("SportsWalking", 1.0, 5.85, 5.85, 349.251747525)
  {
  }

  /**
    The Swimming speed override matters: on the sample swim the inherited
    formula (stroke distance over time) would report 0.9936 km/h where the
    pool geometry gives 1 km/h.
   */
  lemma SwimmingOverrideDiffersFromInherited()
    ensures var t := Swimming(720.0, 1.0, 80.0, 25.0, 40.0);
      Distance(t) / t.duration == 0.9936 && MeanSpeed(t) == 1.0
  {
  }

  /** A code outside the table gives no workout, and readings of the wrong count fail to unpack. */
  lemma MalformedSamples()
    ensures ReadPackage("BIKE", [15000.0, 1.0, 75.0]) == NoTraining
    ensures ReadPackage("RUN", [15000.0, 1.0]) == UnpackError(3, 2)
    ensures ReadPackage("RUN", [9000.0, 1.0, 75.0, 180.0]) == UnpackError(3, 4)
    ensures ReadPackage("SWM", [720.0, 1.0, 80.0, 25.0]) == UnpackError(5, 4)
  {
  }
}
