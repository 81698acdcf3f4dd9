/**
  Reading one sensor package: a three-letter workout code and the readings in
  the order the constructor of that workout takes them.
 */
module Package {
  import opened Workouts

  /** The code-to-class table of the reader: code on the left, class name on the right. */
  const WorkoutTypes: map<string, string> :=
    map["SWM" := "Swimming", "RUN" := "Running", "WLK" := "SportsWalking"]

  /**
    What reading a package yields: a workout; nothing, for a code the table
    does not know; or the unpacking failure raised when the number of readings
    differs from the number the code's constructor takes.
   */
  datatype ReadResult =
    | Built(training: Training)
    | NoTraining
    | UnpackError(expected: nat, got: nat)

  /** How many readings the constructor behind a known code takes. */
  function Arity(code: string): (n: nat)
    requires code in WorkoutTypes
    ensures 3 <= n <= 5
  {
    if code == "SWM" then 5 else if code == "RUN" then 3 else 4
  }

  /** The code under which a workout is sent (the inverse of the table). */
  function Code(t: Training): (code: string)
    ensures code in WorkoutTypes && WorkoutTypes[code] == ClassName(t)
  {
    match t
    case Running(_, _, _) => "RUN"
    case SportsWalking(_, _, _, _) => "WLK"
    case Swimming(_, _, _, _, _) => "SWM"
  }

  /** The readings of a workout in constructor order (the inverse of unpacking). */
  function Readings(t: Training): (data: seq<real>)
    ensures |data| == Arity(Code(t))
    ensures data[0] == t.action && data[1] == t.duration && data[2] == t.weight
  {
    match t
    case Running(a, d, w) => [a, d, w]
    case SportsWalking(a, d, w, h) => [a, d, w, h]
    case Swimming(a, d, w, l, c) => [a, d, w, l, c]
  }

  /**
    The dispatcher: an unknown code gives no workout, a known code with the
    wrong number of readings fails to unpack, otherwise the readings go to the
    constructor positionally.
   */
  function ReadPackage(code: string, data: seq<real>): (r: ReadResult)
    ensures r.NoTraining? <==> code !in WorkoutTypes
    ensures r.UnpackError? <==> code in WorkoutTypes && |data| != Arity(code)
    ensures r.UnpackError? ==> r.expected == Arity(code) && r.got == |data|
    ensures r.Built? ==> ClassName(r.training) == WorkoutTypes[code]
  {
    if code !in WorkoutTypes then NoTraining
    else if |data| != Arity(code) then UnpackError(Arity(code), |data|)
    else if code == "SWM" then Built(Swimming(data[0], data[1], data[2], data[3], data[4]))
    else if code == "RUN" then Built(Running(data[0], data[1], data[2]))
    else Built(SportsWalking(data[0], data[1], data[2], data[3]))
  }

  /** Sending a workout's own code and readings rebuilds exactly that workout. */
  lemma ReadPackageRoundTrip(t: Training)
    ensures ReadPackage(Code(t), Readings(t)) == Built(t)
  {
  }

  /**
    Whatever workout the reader builds was sent under its own code with its
    readings in constructor order: no reading is dropped, padded or reordered.
   */
  lemma ReadPackageBuiltExactly(code: string, data: seq<real>, t: Training)
    requires ReadPackage(code, data) == Built(t)
    ensures code == Code(t) && data == Readings(t)
  {
  }
}
