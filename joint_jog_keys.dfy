/** `JointJogKeyProcessor`: key `'0' + i` jogs joint `i` by one unit, in the
    positive direction or, once reversed, in the negative one. */
module JointJogKeys {
  import opened Basics
  import opened TeleopsClient
  import opened JogTables
  import opened ClientImpl

  /** `key - '0'` in Java `int` arithmetic. It is not limited to digits: `':'`
      gives 10, `';'` 11, and so on. */
  function JointIndex(key: int32): (j: int32)
    ensures INT32_MIN + '0' as int <= key ==> j == key - '0' as int
    ensures key < INT32_MIN + '0' as int ==> j == key - '0' as int + 0x1_0000_0000
  {
    Wrap32(key - '0' as int)
  }

  /** The joint velocities a key sends when `n` joints are configured, or none
      when `key - '0'` falls outside `[0, n)`. */
  function JogRow(key: int32, reversed: bool, n: nat): (r: Option<seq<real>>)
    ensures r.Some? <==> 0 <= JointIndex(key) < n
    ensures r.Some? ==> r.value == UnitRow(n, JointIndex(key), if reversed then -1.0 else 1.0)
  {
    var j := JointIndex(key);
    if j < 0 || j >= n then None
    else Some(UnitRow(n, j, if reversed then -1.0 else 1.0))
  }

  /** With no joints configured every key is rejected. */
  lemma NoJointsRejectsEveryKey(key: int32, reversed: bool)
    ensures JogRow(key, reversed, 0) == None
  {
  }

  /** Keys past `'9'` address joints 10 and up when that many are configured. */
  lemma KeysPastNineReachHighJoints(n: nat)
    requires n > 10
    ensures JogRow(':' as int, false, n) == Some(UnitRow(n, 10, 1.0))
  {
  }

  /** Reversal flips the sign of the row and nothing else. */
  lemma ReversedRowIsNegated(key: int32, n: nat)
    requires JogRow(key, false, n).Some?
    ensures JogRow(key, true, n).Some?
    ensures var up, down := JogRow(key, false, n).value, JogRow(key, true, n).value;
      |up| == |down| == n && forall j | 0 <= j < n :: down[j] == -up[j]
  {
  }

  class JointJogKeyProcessor {
    const client: TeleopsClientImpl
    const numOfJoints: nat
    const incVelocities: seq<seq<real>>
    const decVelocities: seq<seq<real>>
    var isReversed: bool

    ghost predicate Valid() {
      && IsUnitTable(incVelocities, numOfJoints, 1.0)
      && IsUnitTable(decVelocities, numOfJoints, -1.0)
    }

    constructor (client: TeleopsClientImpl, joints: seq<string>)
      ensures Valid() && this.client == client && numOfJoints == |joints| && !isReversed
    {
      this.client := client;
      numOfJoints := |joints|;
      var inc, dec := BuildJogTables(|joints|);
      UnitTableRows(inc, |joints|, 1.0);
      UnitTableRows(dec, |joints|, -1.0);
      incVelocities, decVelocities := inc, dec;
      isReversed := false;
    }

    /** Sends one joint move when `key - '0'` names a configured joint: the
        decrement row when reversed, the increment row otherwise. Reports
        whether the key was handled; a mismatch with the client's joint count
        surfaces as the client's error. */
    method Process(key: int32) returns (r: Result)
      requires Valid() && client.Valid()
      modifies client.publisherJog
      ensures client.publisherJog.closed == old(client.publisherJog.closed)
      ensures JogRow(key, isReversed, numOfJoints).None? ==>
        r == Handled(false) && client.publisherJog.submitted == old(client.publisherJog.submitted)
      ensures JogRow(key, isReversed, numOfJoints).Some? && |client.joints| == numOfJoints ==>
        && r == Handled(true)
        && client.publisherJog.submitted ==
           old(client.publisherJog.submitted) + [client.JogMessage(JogRow(key, isReversed, numOfJoints).value)]
      ensures JogRow(key, isReversed, numOfJoints).Some? && |client.joints| != numOfJoints ==>
        r == Failed(VelocitiesMismatch) && client.publisherJog.submitted == old(client.publisherJog.submitted)
    {
      var jointNum := JointIndex(key);
      if jointNum < 0 || jointNum >= numOfJoints {
        return Handled(false);
      }
      var outcome := client.MoveJoints(if isReversed then decVelocities[jointNum] else incVelocities[jointNum]);
      r := if outcome.Pass? then Handled(true) else Failed(outcome.error);
    }

    method Reverse()
      modifies this
      ensures isReversed == !old(isReversed)
    {
      isReversed := !isReversed;
    }
  }

  /** What `process` returns, or the exception the client's `move` throws. */
  datatype Result = Handled(handled: bool) | Failed(error: TeleopsError)
}
