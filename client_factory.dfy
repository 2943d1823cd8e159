/** `TeleopsClientFactory`: which client a caller gets. The result is described
    as a value: the base client's configuration and the servo decorator
    wrapped around it, chosen by ROS release. The Jazzy decorator's behaviour
    is not part of this model; only its selection is. */
module ClientFactory {
  import opened RosTransport
  import opened ClientImpl
  import opened HumbleServo

  const DEFAULT_TWIST_TOPIC_NAME: string := "/servo_node/delta_twist_cmds"
  const DEFAULT_JOG_TOPIC_NAME: string := "/servo_node/delta_joint_cmds"

  datatype RosRelease = ROS2_HUMBLE | ROS2_JAZZY | OtherRelease(name: string)

  /** A client as built by the factory. `servoRelease` is the release the
      MoveIt Servo client was created for. */
  datatype ClientSpec =
    | Plain(base: BaseConfig)
    | HumbleServo(base: BaseConfig, servoRelease: RosRelease, isServoStarted: bool)
    | JazzyServo(base: BaseConfig, servoRelease: RosRelease)

  /** The base client every servo variant wraps: MoveIt Servo's default topics. */
  function ServoBase(frameName: string, joints: seq<string>): BaseConfig {
    BaseConfig(frameName, joints, DEFAULT_TWIST_TOPIC_NAME, DEFAULT_JOG_TOPIC_NAME)
  }

  /** A plain client on the caller's topics, with no servo decorator. */
  function CreateClient(frameName: string, joints: seq<string>, twistTopicName: string, jogTopicName: string): (c: ClientSpec)
    ensures c.Plain?
    ensures c.base.frameName == frameName && c.base.joints == joints
    ensures c.base.twistTopicName == twistTopicName && c.base.jogTopicName == jogTopicName
  {
    Plain(BaseConfig(frameName, joints, twistTopicName, jogTopicName))
  }

  /** Humble gets the lazily starting decorator, not yet started; every other
      release gets the Jazzy decorator, with a servo client for that release. */
  function CreateClientForServo(rosRelease: RosRelease, frameName: string, joints: seq<string>): (c: ClientSpec)
    ensures c.HumbleServo? <==> rosRelease == ROS2_HUMBLE
    ensures c.JazzyServo? <==> rosRelease != ROS2_HUMBLE
    ensures c.HumbleServo? ==> !c.isServoStarted
    ensures !c.Plain? && c.servoRelease == rosRelease
    ensures c.base == BaseConfig(frameName, joints, DEFAULT_TWIST_TOPIC_NAME, DEFAULT_JOG_TOPIC_NAME)
  {
    var base := ServoBase(frameName, joints);
    match rosRelease
    case ROS2_HUMBLE => HumbleServo(base, rosRelease, false)
    case _ => JazzyServo(base, rosRelease)
  }

  function CreateJazzyClientForServo(frameName: string, joints: seq<string>): (c: ClientSpec)
    ensures c.JazzyServo? && c.servoRelease == ROS2_JAZZY
    ensures c.base == BaseConfig(frameName, joints, DEFAULT_TWIST_TOPIC_NAME, DEFAULT_JOG_TOPIC_NAME)
  {
    JazzyServo(ServoBase(frameName, joints), ROS2_JAZZY)
  }

  function CreateHumbleClientForServo(frameName: string, joints: seq<string>, isServoStarted: bool): (c: ClientSpec)
    ensures c.HumbleServo? && c.servoRelease == ROS2_HUMBLE && c.isServoStarted == isServoStarted
    ensures c.base == BaseConfig(frameName, joints, DEFAULT_TWIST_TOPIC_NAME, DEFAULT_JOG_TOPIC_NAME)
  {
    HumbleServo(ServoBase(frameName, joints), ROS2_HUMBLE, isServoStarted)
  }

  /** The release switch agrees with the release-specific factories: Humble
      with a not-yet-started Humble client, Jazzy with the Jazzy client. Any
      other release differs from the Jazzy factory only in the release its
      servo client is created for. */
  lemma ServoFactoriesAgree(frameName: string, joints: seq<string>, rosRelease: RosRelease)
    ensures CreateClientForServo(ROS2_HUMBLE, frameName, joints) == CreateHumbleClientForServo(frameName, joints, false)
    ensures CreateClientForServo(ROS2_JAZZY, frameName, joints) == CreateJazzyClientForServo(frameName, joints)
    ensures rosRelease != ROS2_HUMBLE ==>
      CreateClientForServo(rosRelease, frameName, joints) == CreateJazzyClientForServo(frameName, joints).(servoRelease := rosRelease)
  {
  }

  /** The objects a factory method creates: the base client, and around it the
      Humble decorator, or the servo client the Jazzy decorator (not part of
      this model) would wrap. */
  datatype BuiltClient =
    | BuiltPlain(impl: TeleopsClientImpl)
    | BuiltHumble(impl: TeleopsClientImpl, decorator: HumbleMoveItServoTeleopsClient)
    | BuiltJazzy(impl: TeleopsClientImpl, servo: ServoClient)

  /** Builds what a descriptor describes, as each factory method does: a fresh
      base client registered with the ROS client, then, for a servo variant, a
      fresh servo client and the decorator around both. */
  method Build(spec: ClientSpec, ros: RosClient) returns (c: BuiltClient)
    modifies ros
    ensures fresh(c.impl) && fresh(c.impl.publisherTwist) && fresh(c.impl.publisherJog)
    ensures c.impl.Valid() && c.impl.Config() == spec.base
    ensures c.impl.publisherTwist.submitted == [] && !c.impl.publisherTwist.closed
    ensures c.impl.publisherJog.submitted == [] && !c.impl.publisherJog.closed
    ensures ros.publishers == old(ros.publishers) + [c.impl.publisherTwist, c.impl.publisherJog]
    ensures ros.closed == old(ros.closed)
    ensures c.BuiltPlain? <==> spec.Plain?
    ensures c.BuiltHumble? <==> spec.HumbleServo?
    ensures c.BuiltJazzy? <==> spec.JazzyServo?
    ensures c.BuiltHumble? ==>
      && fresh(c.decorator) && fresh(c.decorator.servoClient)
      && c.decorator.Valid() && c.decorator.client == c.impl
      && c.decorator.isServoStarted == spec.isServoStarted
      && c.decorator.servoClient.startCalls == 0 && c.decorator.servoClient.closeCalls == 0
    ensures c.BuiltJazzy? ==> fresh(c.servo) && c.servo.startCalls == 0 && c.servo.closeCalls == 0
  {
    var b := spec.base;
    var impl := new TeleopsClientImpl(ros, b.frameName, b.joints, b.twistTopicName, b.jogTopicName);
    match spec
    case Plain(_) =>
      c := BuiltPlain(impl);
    case HumbleServo(_, _, isServoStarted) =>
      var servo := new ServoClient();
      var decorator := new HumbleMoveItServoTeleopsClient(impl, servo, isServoStarted);
      c := BuiltHumble(impl, decorator);
    case JazzyServo(_, _) =>
      var servo := new ServoClient();
      c := BuiltJazzy(impl, servo);
  }
}
