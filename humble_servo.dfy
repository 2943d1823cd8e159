/** `HumbleMoveItServoTeleopsClient`: a decorator that starts the MoveIt Servo
    node lazily, on the first move of either kind, and only then forwards the
    move to the wrapped client. The flag is raised after the start call returns,
    so a failing start leaves it lowered and the next move tries again. */
module HumbleServo {
  import opened RosMessages
  import opened RosTransport
  import opened TeleopsClient
  import opened ClientImpl

  class HumbleMoveItServoTeleopsClient {
    const client: TeleopsClientImpl
    const servoClient: ServoClient
    var isServoStarted: bool

    ghost predicate Valid() {
      client.Valid()
    }

    constructor (client: TeleopsClientImpl, servoClient: ServoClient, isServoStarted: bool)
      requires client.Valid()
      ensures Valid() && this.client == client && this.servoClient == servoClient
      ensures this.isServoStarted == isServoStarted
    {
      this.client := client;
      this.servoClient := servoClient;
      this.isServoStarted := isServoStarted;
    }

    /** Closes the servo client only; the wrapped client stays open. */
    method Close()
      modifies servoClient
      ensures servoClient.closeCalls == old(servoClient.closeCalls) + 1
      ensures servoClient.startCalls == old(servoClient.startCalls)
    {
      servoClient.Close();
    }

    method Move(velX: real, velY: real, velZ: real) returns (r: Outcome)
      requires Valid()
      modifies this, servoClient, client.publisherTwist
      ensures Valid() && servoClient.closeCalls == old(servoClient.closeCalls)
      ensures client.publisherTwist.closed == old(client.publisherTwist.closed)
      // already started: no start call, the move is forwarded unchanged
      ensures old(isServoStarted) ==>
        && r == Pass && isServoStarted
        && servoClient.startCalls == old(servoClient.startCalls)
        && client.publisherTwist.submitted == old(client.publisherTwist.submitted) + [client.TwistMessage(Vector3(velX, velY, velZ))]
      // not started: exactly one start call; the flag is raised iff it succeeded
      ensures !old(isServoStarted) ==>
        && servoClient.startCalls == old(servoClient.startCalls) + 1
        && (isServoStarted <==> r == Pass)
        && (r.Fail? ==> r.error == ServoStartFailed && client.publisherTwist.submitted == old(client.publisherTwist.submitted))
        && (r.Pass? ==> client.publisherTwist.submitted == old(client.publisherTwist.submitted) + [client.TwistMessage(Vector3(velX, velY, velZ))])
    {
      if !isServoStarted {
        var ok := servoClient.StartServo();
        if !ok {
          return Fail(ServoStartFailed);
        }
        isServoStarted := true;
      }
      client.Move(velX, velY, velZ);
      r := Pass;
    }

    method MoveJoints(velocities: seq<real>) returns (r: Outcome)
      requires Valid()
      modifies this, servoClient, client.publisherJog
      ensures Valid() && servoClient.closeCalls == old(servoClient.closeCalls)
      ensures client.publisherJog.closed == old(client.publisherJog.closed)
      // already started: no start call, the wrapped client decides
      ensures old(isServoStarted) ==>
        && isServoStarted
        && servoClient.startCalls == old(servoClient.startCalls)
        && ForwardedJointMove(velocities, r, old(client.publisherJog.submitted))
      // not started: exactly one start call; a failed start forwards nothing
      ensures !old(isServoStarted) ==>
        && servoClient.startCalls == old(servoClient.startCalls) + 1
        && (isServoStarted <==> r != Fail(ServoStartFailed))
        && (!isServoStarted ==> client.publisherJog.submitted == old(client.publisherJog.submitted))
        && (isServoStarted ==> ForwardedJointMove(velocities, r, old(client.publisherJog.submitted)))
    {
      if !isServoStarted {
        var ok := servoClient.StartServo();
        if !ok {
          return Fail(ServoStartFailed);
        }
        isServoStarted := true;
      }
      r := client.MoveJoints(velocities);
    }

    /** The effect of the wrapped client's `move(velocities)` on the jog channel,
        given what it had published before. */
    ghost predicate ForwardedJointMove(velocities: seq<real>, r: Outcome, before: seq<JointJog>)
      reads client.publisherJog
    {
      if |velocities| == |client.joints|
      then r == Pass && client.publisherJog.submitted == before + [client.JogMessage(velocities)]
      else r == Fail(VelocitiesMismatch) && client.publisherJog.submitted == before
    }
  }
}
