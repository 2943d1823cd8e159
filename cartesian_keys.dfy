/** `CartesianMoveKeyProcessor`: the six letter keys w/s, a/d, q/e move along
    x, y and z, in the positive and the negative direction. */
module CartesianKeys {
  import opened Basics
  import opened RosMessages
  import opened ClientImpl

  /** The key codes the processor reacts to. */
  const CARTESIAN_KEYS: set<int> := {'w' as int, 's' as int, 'a' as int, 'd' as int, 'q' as int, 'e' as int}

  /** The key switch of `process`: the unit vector a key moves along. The key is
      compared as an `int`, without narrowing it to a `char`. */
  function CartesianVelocity(key: int32): (r: Option<Vector3>)
    ensures r.Some? <==> key in CARTESIAN_KEYS
    ensures r.Some? ==> IsAxisUnit(r.value)
  {
    if key == 'w' as int then Some(Vector3(1.0, 0.0, 0.0))
    else if key == 's' as int then Some(Vector3(-1.0, 0.0, 0.0))
    else if key == 'a' as int then Some(Vector3(0.0, 1.0, 0.0))
    else if key == 'd' as int then Some(Vector3(0.0, -1.0, 0.0))
    else if key == 'q' as int then Some(Vector3(0.0, 0.0, 1.0))
    else if key == 'e' as int then Some(Vector3(0.0, 0.0, -1.0))
    else None
  }

  function Abs(x: real): real {
    if x < 0.0 then -x else x
  }

  /** Exactly one component is nonzero, and it has magnitude 1. */
  ghost predicate IsAxisUnit(v: Vector3) {
    || (Abs(v.x) == 1.0 && v.y == 0.0 && v.z == 0.0)
    || (v.x == 0.0 && Abs(v.y) == 1.0 && v.z == 0.0)
    || (v.x == 0.0 && v.y == 0.0 && Abs(v.z) == 1.0)
  }

  function Negate(v: Vector3): Vector3 {
    Vector3(-v.x, -v.y, -v.z)
  }

  /** The documented table: which key moves along which axis. */
  lemma CartesianTable()
    ensures CartesianVelocity('w' as int) == Some(Vector3(1.0, 0.0, 0.0))
    ensures CartesianVelocity('s' as int) == Some(Vector3(-1.0, 0.0, 0.0))
    ensures CartesianVelocity('a' as int) == Some(Vector3(0.0, 1.0, 0.0))
    ensures CartesianVelocity('d' as int) == Some(Vector3(0.0, -1.0, 0.0))
    ensures CartesianVelocity('q' as int) == Some(Vector3(0.0, 0.0, 1.0))
    ensures CartesianVelocity('e' as int) == Some(Vector3(0.0, 0.0, -1.0))
  {
  }

  /** The pairs w/s, a/d and q/e move in opposite directions along one axis. */
  lemma OppositeKeyPairs()
    ensures CartesianVelocity('s' as int).value == Negate(CartesianVelocity('w' as int).value)
    ensures CartesianVelocity('d' as int).value == Negate(CartesianVelocity('a' as int).value)
    ensures CartesianVelocity('e' as int).value == Negate(CartesianVelocity('q' as int).value)
  {
  }

  /** Different keys move along different directions. */
  lemma CartesianVelocityInjective(k1: int32, k2: int32)
    requires CartesianVelocity(k1).Some? && CartesianVelocity(k1) == CartesianVelocity(k2)
    ensures k1 == k2
  {
  }

  class CartesianMoveKeyProcessor {
    const client: TeleopsClientImpl

    constructor (client: TeleopsClientImpl)
      ensures this.client == client
    {
      this.client := client;
    }

    /** Sends one Cartesian move for a table key and reports whether it did;
        any other key sends nothing. The processor keeps no mutable state, so
        what is sent depends on the key alone. */
    method Process(key: int32) returns (handled: bool)
      modifies client.publisherTwist
      ensures handled <==> key in CARTESIAN_KEYS
      ensures client.publisherTwist.closed == old(client.publisherTwist.closed)
      ensures client.publisherTwist.submitted ==
        old(client.publisherTwist.submitted) +
        (if handled then [client.TwistMessage(CartesianVelocity(key).value)] else [])
    {
      if key == 'w' as int {
        client.Move(1.0, 0.0, 0.0);
        return true;
      } else if key == 's' as int {
        client.Move(-1.0, 0.0, 0.0);
        return true;
      } else if key == 'a' as int {
        client.Move(0.0, 1.0, 0.0);
        return true;
      } else if key == 'd' as int {
        client.Move(0.0, -1.0, 0.0);
        return true;
      } else if key == 'q' as int {
        client.Move(0.0, 0.0, 1.0);
        return true;
      } else if key == 'e' as int {
        client.Move(0.0, 0.0, -1.0);
        return true;
      }
      return false;
    }
  }
}
