/** `TeleopsClientImpl`: the base client. It owns one publisher per channel,
    stamps every message with the configured frame, and checks that a joint
    move carries one velocity per configured joint. */
module ClientImpl {
  import opened RosMessages
  import opened RosTransport
  import opened TeleopsClient

  /** The construction parameters of a base client. */
  datatype BaseConfig = BaseConfig(frameName: string, joints: seq<string>, twistTopicName: string, jogTopicName: string)

  class TeleopsClientImpl {
    const publisherTwist: Publisher<TwistStamped>
    const publisherJog: Publisher<JointJog>
    const frameName: string
    const joints: seq<string>

    ghost predicate Valid() {
      publisherTwist as object != publisherJog as object
    }

    /** What the client was built from. */
    function Config(): BaseConfig {
      BaseConfig(frameName, joints, publisherTwist.topic, publisherJog.topic)
    }

    constructor (client: RosClient, frameName: string, joints: seq<string>, twistTopicName: string, jogTopicName: string)
      modifies client
      ensures Valid() && Config() == BaseConfig(frameName, joints, twistTopicName, jogTopicName)
      ensures fresh(publisherTwist) && fresh(publisherJog)
      ensures publisherTwist.submitted == [] && !publisherTwist.closed
      ensures publisherJog.submitted == [] && !publisherJog.closed
      ensures client.publishers == old(client.publishers) + [publisherTwist, publisherJog]
      ensures client.closed == old(client.closed)
    {
      this.frameName := frameName;
      publisherTwist := new Publisher(twistTopicName);
      publisherJog := new Publisher(jogTopicName);
      this.joints := joints;
      new;
      client.Publish(publisherTwist);
      client.Publish(publisherJog);
    }

    /** The message `move(velX, velY, velZ)` publishes. */
    function TwistMessage(velocity: Vector3): (m: TwistStamped)
      ensures m.header.frameId == frameName
      ensures m.twist.linear == velocity && m.twist.angular == ZERO_VECTOR
    {
      TwistStamped(Header(frameName), Twist(velocity, ZERO_VECTOR))
    }

    /** The message `move(velocities)` publishes: one velocity per configured
        joint name, in the configured order, when the lengths agree. */
    function JogMessage(velocities: seq<real>): (m: JointJog)
      ensures m.header.frameId == frameName
      ensures m.jointNames == joints && m.velocities == velocities
    {
      JointJog(Header(frameName), joints, velocities)
    }

    function TwistMessages(vs: seq<Vector3>): (ms: seq<TwistStamped>)
      ensures |ms| == |vs| && forall i | 0 <= i < |vs| :: ms[i] == TwistMessage(vs[i])
    {
      seq(|vs|, i requires 0 <= i < |vs| => TwistMessage(vs[i]))
    }

    function JogMessages(rows: seq<seq<real>>): (ms: seq<JointJog>)
      ensures |ms| == |rows| && forall i | 0 <= i < |rows| :: ms[i] == JogMessage(rows[i])
    {
      seq(|rows|, i requires 0 <= i < |rows| => JogMessage(rows[i]))
    }

    lemma TwistMessagesAppend(vs: seq<Vector3>, extra: seq<Vector3>)
      ensures TwistMessages(vs + extra) == TwistMessages(vs) + TwistMessages(extra)
    {
    }

    lemma JogMessagesAppend(rows: seq<seq<real>>, extra: seq<seq<real>>)
      ensures JogMessages(rows + extra) == JogMessages(rows) + JogMessages(extra)
    {
    }

    method Move(velX: real, velY: real, velZ: real)
      modifies publisherTwist
      ensures publisherTwist.submitted == old(publisherTwist.submitted) + [TwistMessage(Vector3(velX, velY, velZ))]
      ensures publisherTwist.closed == old(publisherTwist.closed)
    {
      var message := TwistStamped(Header(frameName), Twist(Vector3(velX, velY, velZ), ZERO_VECTOR));
      publisherTwist.Submit(message);
    }

    method MoveJoints(velocities: seq<real>) returns (r: Outcome)
      requires Valid()
      modifies publisherJog
      ensures |velocities| != |joints| ==> r == Fail(VelocitiesMismatch) && publisherJog.submitted == old(publisherJog.submitted)
      ensures |velocities| == |joints| ==> r == Pass && publisherJog.submitted == old(publisherJog.submitted) + [JogMessage(velocities)]
      ensures publisherJog.closed == old(publisherJog.closed)
    {
      if |joints| != |velocities| {
        return Fail(VelocitiesMismatch);
      }
      var message := JointJog(Header(frameName), joints, velocities);
      publisherJog.Submit(message);
      r := Pass;
    }

    method Close()
      requires Valid()
      modifies publisherTwist, publisherJog
      ensures publisherTwist.closed && publisherJog.closed
      ensures publisherTwist.submitted == old(publisherTwist.submitted)
      ensures publisherJog.submitted == old(publisherJog.submitted)
    {
      publisherTwist.Close();
      publisherJog.Close();
    }
  }
}
