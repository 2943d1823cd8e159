/** The `TeleopsClient` interface. Its two `move` overloads become the values of
    `Motion`; the exceptions its implementations throw become `TeleopsError`,
    reported through `Outcome`. */
module TeleopsClient {
  import opened RosMessages

  /** `move(velX, velY, velZ)` and `move(double... velocities)`. */
  datatype Motion =
    | CartesianMove(velocity: Vector3)
    | JointMove(velocities: seq<real>)

  datatype TeleopsError =
    | VelocitiesMismatch  // the number of velocities differs from the number of joints
    | ServoStartFailed    // the servo node refused to start or did not answer

  datatype Outcome = Pass | Fail(error: TeleopsError)

  /** The Cartesian velocities of a motion sequence, in order. */
  function CartesianMoves(ms: seq<Motion>): (vs: seq<Vector3>)
    ensures |vs| <= |ms|
  {
    if ms == [] then []
    else
      var tail := match ms[|ms| - 1]
        case CartesianMove(v) => [v]
        case JointMove(_) => [];
      CartesianMoves(ms[..|ms| - 1]) + tail
  }

  /** The joint velocity vectors of a motion sequence, in order. */
  function JointMoves(ms: seq<Motion>): (rows: seq<seq<real>>)
    ensures |rows| <= |ms|
  {
    if ms == [] then []
    else
      var tail := match ms[|ms| - 1]
        case JointMove(row) => [row]
        case CartesianMove(_) => [];
      JointMoves(ms[..|ms| - 1]) + tail
  }

  /** Every motion goes to exactly one of the two channels. */
  lemma {:induction false} MovesPartition(ms: seq<Motion>)
    ensures |CartesianMoves(ms)| + |JointMoves(ms)| == |ms|
  {
    if ms != [] {
      MovesPartition(ms[..|ms| - 1]);
    }
  }

  lemma MovesAppend(ms: seq<Motion>, m: Motion)
    ensures CartesianMoves(ms + [m]) == CartesianMoves(ms) + (if m.CartesianMove? then [m.velocity] else [])
    ensures JointMoves(ms + [m]) == JointMoves(ms) + (if m.JointMove? then [m.velocities] else [])
  {
    assert (ms + [m])[..|ms|] == ms;
  }
}
