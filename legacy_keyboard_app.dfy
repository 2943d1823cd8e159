/** The older Cartesian-only keyboard application: it publishes one stamped
    twist per table key straight to a single topic, optionally starting the
    servo node first. */
module LegacyKeyboardApp {
  import opened Basics
  import opened RosMessages
  import opened RosTransport
  import opened TeleopsClient
  import opened CartesianKeys
  import opened TwistProvider
  import opened KeyStream
  import opened KeyboardApp
  import opened ClientImpl

  /** The message one key publishes: line feeds are skipped, other keys are
      looked up in `KEY_MAP` after narrowing to a `char`. */
  function KeyMessage(frameName: string, key: int32): (m: Option<TwistStamped>)
    ensures m.Some? <==> key != LINE_FEED && ToChar16(key) in CARTESIAN_KEYS
    ensures m.Some? ==>
      m.value == TwistStamped(Header(frameName), Twist(CartesianVelocity(ToChar16(key)).value, ZERO_VECTOR))
  {
    if key == LINE_FEED then None
    else TwistStampedMessageProvider(frameName).Get(key)
  }

  /** The messages a sequence of keys publishes, in order. */
  function Traffic(frameName: string, keys: seq<int32>): (ms: seq<TwistStamped>)
    ensures |ms| <= |keys|
    ensures forall m | m in ms ::
      && m.header.frameId == frameName
      && m.twist.angular == ZERO_VECTOR
      && IsAxisUnit(m.twist.linear)
  {
    if keys == [] then []
    else
      var init := keys[..|keys| - 1];
      Traffic(frameName, init) + OptionToSeq(KeyMessage(frameName, keys[|keys| - 1]))
  }

  /** A key outside the table publishes nothing, wherever it stands. */
  lemma {:induction false} UnmappedKeyPublishesNothing(frameName: string, p: seq<int32>, key: int32, q: seq<int32>)
    requires ToChar16(key) !in CARTESIAN_KEYS
    ensures Traffic(frameName, p + [key] + q) == Traffic(frameName, p + q)
  {
    if q == [] {
      assert (p + [key] + q)[..|p|] == p;
      assert p + q == p;
    } else {
      var q' := q[..|q| - 1];
      assert (p + [key] + q)[..|p + [key] + q| - 1] == p + [key] + q';
      assert (p + q)[..|p + q| - 1] == p + q';
      UnmappedKeyPublishesNothing(frameName, p, key, q');
    }
  }

  /** For key codes in the `char` range, the older application publishes
      exactly the Cartesian channel of the newer one, whatever the reversal
      flag and joint count of the latter. */
  lemma {:induction false} TrafficMatchesCartesianChannel(client: TeleopsClientImpl, keys: seq<int32>, reversed: bool, n: nat)
    requires forall i | 0 <= i < |keys| :: 0 <= keys[i] < 0x1_0000
    ensures Traffic(client.frameName, keys) == client.TwistMessages(CartesianMoves(Dispatch(keys, reversed, n)))
  {
    if keys != [] {
      var init := keys[..|keys| - 1];
      var key := keys[|keys| - 1];
      var motion := KeyMotion(key, ReversedAfter(init, reversed), n);
      TrafficMatchesCartesianChannel(client, init, reversed, n);
      MovesAppendOption(Dispatch(init, reversed, n), motion);
      client.TwistMessagesAppend(CartesianMoves(Dispatch(init, reversed, n)), TwistPart(motion));
      KeyMessageMatchesMotion(client, key, ReversedAfter(init, reversed), n);
    }
  }

  /** One key in the `char` range: the older loop's message is the twist the newer loop sends. */
  lemma KeyMessageMatchesMotion(client: TeleopsClientImpl, key: int32, reversed: bool, n: nat)
    requires 0 <= key < 0x1_0000
    ensures OptionToSeq(KeyMessage(client.frameName, key)) == client.TwistMessages(TwistPart(KeyMotion(key, reversed, n)))
  {
    KeyMotionCases(key, reversed, n);
  }

  /** The main loop: register a publisher for the topic, start the servo when
      asked to, then publish one message per table key until end of stream.
      Both resources are closed on every exit. */
  method RunLegacy(client: RosClient, servo: ServoClient, topicName: string, frameName: string,
                   startServo: bool, keys: seq<int32>)
    returns (publisher: Publisher<TwistStamped>, r: Outcome)
    modifies client, servo
    ensures fresh(publisher) && publisher.topic == topicName && publisher.closed
    ensures client.publishers == old(client.publishers) + [publisher] && client.closed
    ensures servo.startCalls == old(servo.startCalls) + (if startServo then 1 else 0)
    ensures servo.closeCalls == old(servo.closeCalls)
    ensures r == Pass || (startServo && r == Fail(ServoStartFailed))
    ensures r.Fail? ==> publisher.submitted == []
    ensures r.Pass? ==> publisher.submitted == Traffic(frameName, UntilEndOfStream(keys))
  {
    publisher := new Publisher(topicName);
    client.Publish(publisher);
    if startServo {
      var ok := servo.StartServo();
      if !ok {
        publisher.Close();
        client.Close();
        return publisher, Fail(ServoStartFailed);
      }
    }
    var i := 0;
    while i < |keys| && keys[i] != END_OF_STREAM
      invariant 0 <= i <= |keys| && END_OF_STREAM !in keys[..i]
      invariant publisher.submitted == Traffic(frameName, keys[..i])
      invariant !publisher.closed
      modifies publisher
    {
      var key := keys[i];
      assert keys[..i + 1][..i] == keys[..i];
      if key != LINE_FEED {
        var message := TwistStampedMessageProvider(frameName).Get(key);
        if message.Some? {
          publisher.Submit(message.value);
        }
      }
      i := i + 1;
    }
    UntilEndOfStreamUnique(keys, keys[..i]);
    publisher.Close();
    client.Close();
    r := Pass;
  }
}
