/** The key loop of the `teleops` application: every key code read from the
    terminal is, in this order, skipped (line feed), taken as the reversal
    toggle (`'r'`), offered to the Cartesian processor, then to the joint-jog
    processor, and otherwise ignored. The loop ends at end of stream (-1). */
module KeyboardApp {
  import opened Basics
  import opened RosMessages
  import opened TeleopsClient
  import opened CartesianKeys
  import opened JointJogKeys
  import opened ClientImpl
  import opened JogTables
  import opened KeyStream

  const REVERSE_KEY: int := 'r' as int

  // ---------------------------------------------------------------- setup

  /** The joints used for jogging: those read from the joint-state feed when
      jog is enabled, none otherwise. */
  function ConfiguredJoints(enableJog: bool, feedJoints: seq<string>): (joints: seq<string>)
    ensures !enableJog ==> joints == []
    ensures enableJog ==> joints == feedJoints
  {
    if enableJog then feedJoints else []
  }

  /** One line of the joint listing in the help text: key index and joint name. */
  datatype JointLine = JointLine(index: nat, name: string)

  /** The jog part of the help text. */
  datatype JogHelp =
    | JogDisabled
    | JogEnabled(listing: seq<JointLine>, tooManyJointsWarning: bool)

  function JogKeysHelp(joints: seq<string>): (h: JogHelp)
    ensures h.JogDisabled? <==> joints == []
    ensures h.JogEnabled? ==> (h.tooManyJointsWarning <==> |joints| > 9)
    ensures h.JogEnabled? ==>
      |h.listing| == |joints| && forall i | 0 <= i < |joints| :: h.listing[i] == JointLine(i, joints[i])
  {
    if joints == [] then JogDisabled
    else JogEnabled(seq(|joints|, i requires 0 <= i < |joints| => JointLine(i, joints[i])), |joints| > 9)
  }

  // ---------------------------------------------------------------- per key

  /** The reversal flag after one key. */
  function ReversedAfterKey(key: int32, reversed: bool): bool {
    if key == REVERSE_KEY then !reversed else reversed
  }

  /** The motion one key sends, given the reversal flag and the number of joints. */
  function KeyMotion(key: int32, reversed: bool, n: nat): (m: Option<Motion>)
    // a Cartesian move exactly for the six table keys, along that key's axis
    ensures (m.Some? && m.value.CartesianMove?) <==> key in CARTESIAN_KEYS
    ensures m.Some? && m.value.CartesianMove? ==> Some(m.value.velocity) == CartesianVelocity(key)
    // a joint move exactly for the other non-special keys with `key - '0'` in range
    ensures (m.Some? && m.value.JointMove?) <==>
      key != LINE_FEED && key != REVERSE_KEY && key !in CARTESIAN_KEYS && 0 <= JointIndex(key) < n
    ensures m.Some? && m.value.JointMove? ==>
      m.value.velocities == UnitRow(n, JointIndex(key), if reversed then -1.0 else 1.0)
  {
    if key == LINE_FEED || key == REVERSE_KEY then None
    else match CartesianVelocity(key)
      case Some(v) => Some(CartesianMove(v))
      case None =>
        match JogRow(key, reversed, n)
        case Some(row) => Some(JointMove(row))
        case None => None
  }

  // ---------------------------------------------------------------- key streams

  /** The reversal flag after a sequence of keys. */
  function ReversedAfter(keys: seq<int32>, reversed: bool): bool {
    if keys == [] then reversed
    else ReversedAfterKey(keys[|keys| - 1], ReversedAfter(keys[..|keys| - 1], reversed))
  }

  /** The motions a sequence of keys sends, in order, starting from a given
      reversal flag, with `n` joints configured. */
  function Dispatch(keys: seq<int32>, reversed: bool, n: nat): (ms: seq<Motion>)
    ensures |ms| <= |keys|
  {
    if keys == [] then []
    else
      var init := keys[..|keys| - 1];
      Dispatch(init, reversed, n) + OptionToSeq(KeyMotion(keys[|keys| - 1], ReversedAfter(init, reversed), n))
  }

  function Count(keys: seq<int32>, key: int32): nat {
    multiset(keys)[key]
  }

  /** The flag is flipped once per `'r'` key and by nothing else. */
  lemma {:induction false} ReversedAfterCountsToggles(keys: seq<int32>, reversed: bool)
    ensures ReversedAfter(keys, reversed) == (reversed != (Count(keys, REVERSE_KEY as int32) % 2 == 1))
  {
    if keys != [] {
      var init := keys[..|keys| - 1];
      assert keys == init + [keys[|keys| - 1]];
      ReversedAfterCountsToggles(init, reversed);
    }
  }

  lemma {:induction false} DispatchConcat(p: seq<int32>, q: seq<int32>, reversed: bool, n: nat)
    ensures ReversedAfter(p + q, reversed) == ReversedAfter(q, ReversedAfter(p, reversed))
    ensures Dispatch(p + q, reversed, n) == Dispatch(p, reversed, n) + Dispatch(q, ReversedAfter(p, reversed), n)
  {
    if q == [] {
      assert p + q == p;
    } else {
      var q' := q[..|q| - 1];
      assert (p + q)[..|p + q| - 1] == p + q';
      DispatchConcat(p, q', reversed, n);
    }
  }

  /** Two `'r'` keys send nothing and restore the flag. */
  lemma DoubleToggle(reversed: bool, n: nat)
    ensures var rr := [REVERSE_KEY as int32, REVERSE_KEY as int32];
      ReversedAfter(rr, reversed) == reversed && Dispatch(rr, reversed, n) == []
  {
    var r1 := [REVERSE_KEY as int32];
    var rr := [REVERSE_KEY as int32, REVERSE_KEY as int32];
    assert rr[..1] == r1 && r1[..0] == [];
    assert ReversedAfter(r1, reversed) == !reversed;
    assert Dispatch(r1, reversed, n) == [];
  }

  /** Pressing `'r'` twice in a row leaves both the motions sent and the
      final flag as if neither key had been pressed. */
  lemma DoubleReverseIsIdentity(p: seq<int32>, q: seq<int32>, reversed: bool, n: nat)
    ensures var rr := [REVERSE_KEY as int32, REVERSE_KEY as int32];
      && Dispatch(p + rr + q, reversed, n) == Dispatch(p + q, reversed, n)
      && ReversedAfter(p + rr + q, reversed) == ReversedAfter(p + q, reversed)
  {
    var rr := [REVERSE_KEY as int32, REVERSE_KEY as int32];
    var mid := ReversedAfter(p, reversed);
    DispatchConcat(p, rr, reversed, n);
    DispatchConcat(p + rr, q, reversed, n);
    DispatchConcat(p, q, reversed, n);
    DoubleToggle(mid, n);
    assert Dispatch(p + rr, reversed, n) == Dispatch(p, reversed, n);
  }

  /** What one key sends, case by case, in the loop's order. */
  lemma KeyMotionCases(key: int32, reversed: bool, n: nat)
    ensures key == LINE_FEED || key == REVERSE_KEY ==> KeyMotion(key, reversed, n) == None
    ensures key != LINE_FEED && key != REVERSE_KEY && key in CARTESIAN_KEYS ==>
      KeyMotion(key, reversed, n) == Some(CartesianMove(CartesianVelocity(key).value))
    ensures key != LINE_FEED && key != REVERSE_KEY && key !in CARTESIAN_KEYS ==>
      KeyMotion(key, reversed, n) == if JogRow(key, reversed, n).Some? then Some(JointMove(JogRow(key, reversed, n).value)) else None
  {
  }

  /** A key's Cartesian motion, if any, is the same under either flag. */
  lemma KeyMotionCartesianIgnoresReversal(key: int32, n: nat)
    ensures var a, b := KeyMotion(key, true, n), KeyMotion(key, false, n);
      && ((a.Some? && a.value.CartesianMove?) <==> (b.Some? && b.value.CartesianMove?))
      && (a.Some? && a.value.CartesianMove? ==> a == b)
  {
    KeyMotionCases(key, true, n);
    KeyMotionCases(key, false, n);
  }

  /** The Cartesian commands a key stream sends do not depend on the reversal flag. */
  lemma {:induction false} CartesianIgnoresReversal(keys: seq<int32>, n: nat)
    ensures CartesianMoves(Dispatch(keys, true, n)) == CartesianMoves(Dispatch(keys, false, n))
  {
    if keys != [] {
      var init := keys[..|keys| - 1];
      var key := keys[|keys| - 1];
      CartesianIgnoresReversal(init, n);
      var ra, rb := ReversedAfter(init, true), ReversedAfter(init, false);
      assert Dispatch(keys, true, n) == Dispatch(init, true, n) + OptionToSeq(KeyMotion(key, ra, n));
      assert Dispatch(keys, false, n) == Dispatch(init, false, n) + OptionToSeq(KeyMotion(key, rb, n));
      MovesAppendOption(Dispatch(init, true, n), KeyMotion(key, ra, n));
      MovesAppendOption(Dispatch(init, false, n), KeyMotion(key, rb, n));
      if ra == rb {
      } else {
        KeyMotionCartesianIgnoresReversal(key, n);
      }
    }
  }

  /** With no joints configured, as when jog is not enabled, no key sends a joint move. */
  lemma {:induction false} NoJointsNoJointMoves(keys: seq<int32>, reversed: bool)
    ensures JointMoves(Dispatch(keys, reversed, 0)) == []
  {
    if keys != [] {
      var init := keys[..|keys| - 1];
      NoJointsNoJointMoves(init, reversed);
      MovesAppendOption(Dispatch(init, reversed, 0), KeyMotion(keys[|keys| - 1], ReversedAfter(init, reversed), 0));
    }
  }

  lemma JogDisabledSendsNoJointMoves(feedJoints: seq<string>, keys: seq<int32>)
    ensures JointMoves(Dispatch(keys, false, |ConfiguredJoints(false, feedJoints)|)) == []
  {
    NoJointsNoJointMoves(keys, false);
  }

  lemma MovesAppendOption(ms: seq<Motion>, o: Option<Motion>)
    ensures CartesianMoves(ms + OptionToSeq(o)) == CartesianMoves(ms) + TwistPart(o)
    ensures JointMoves(ms + OptionToSeq(o)) == JointMoves(ms) + JogPart(o)
  {
    if o.Some? {
      MovesAppend(ms, o.value);
    } else {
      assert ms + OptionToSeq(o) == ms;
    }
  }

  /** The end-to-end behaviour with three joints. */
  lemma ThreeJointScenario(reversed: bool)
    ensures Dispatch(['1' as int32], false, 3) == [JointMove([0.0, 1.0, 0.0])]
    ensures Dispatch(['r' as int32, '1' as int32], false, 3) == [JointMove([0.0, -1.0, 0.0])]
    ensures Dispatch(['w' as int32], reversed, 3) == [CartesianMove(Vector3(1.0, 0.0, 0.0))]
    ensures Dispatch(['9' as int32], reversed, 3) == []
  {
    assert UnitRow(3, 1, 1.0) == [0.0, 1.0, 0.0];
    assert UnitRow(3, 1, -1.0) == [0.0, -1.0, 0.0];
    assert ['r' as int32, '1' as int32][..1] == ['r' as int32];
  }

  // ---------------------------------------------------------------- the loop

  /** One more key extends the motions and the flag by that key's effect. */
  lemma DispatchStep(keys: seq<int32>, i: nat, n: nat)
    requires i < |keys|
    ensures var init, key := keys[..i], keys[i];
      && ReversedAfter(keys[..i + 1], false) == ReversedAfterKey(key, ReversedAfter(init, false))
      && Dispatch(keys[..i + 1], false, n) == Dispatch(init, false, n) + OptionToSeq(KeyMotion(key, ReversedAfter(init, false), n))
  {
    assert keys[..i + 1][..i] == keys[..i];
  }

  /** Publishing one more motion extends a channel by that motion's message, if it has one. */
  lemma TwistChannelStep(client: TeleopsClientImpl, before: seq<Motion>, motion: Option<Motion>,
                         twist0: seq<TwistStamped>, twists: seq<TwistStamped>, twists': seq<TwistStamped>)
    requires twists == twist0 + client.TwistMessages(CartesianMoves(before))
    requires twists' == twists + client.TwistMessages(TwistPart(motion))
    ensures twists' == twist0 + client.TwistMessages(CartesianMoves(before + OptionToSeq(motion)))
  {
    MovesAppendOption(before, motion);
    client.TwistMessagesAppend(CartesianMoves(before), TwistPart(motion));
  }

  lemma JogChannelStep(client: TeleopsClientImpl, before: seq<Motion>, motion: Option<Motion>,
                       jog0: seq<JointJog>, jogs: seq<JointJog>, jogs': seq<JointJog>)
    requires jogs == jog0 + client.JogMessages(JointMoves(before))
    requires jogs' == jogs + client.JogMessages(JogPart(motion))
    ensures jogs' == jog0 + client.JogMessages(JointMoves(before + OptionToSeq(motion)))
  {
    MovesAppendOption(before, motion);
    client.JogMessagesAppend(JointMoves(before), JogPart(motion));
  }

  /** The channel traffic one optional motion produces. */
  function TwistPart(o: Option<Motion>): seq<Vector3> {
    if o.Some? && o.value.CartesianMove? then [o.value.velocity] else []
  }

  function JogPart(o: Option<Motion>): seq<seq<real>> {
    if o.Some? && o.value.JointMove? then [o.value.velocities] else []
  }

  /** The body of the loop for one key that is not end of stream. */
  method DispatchKey(key: int32, jog: JointJogKeyProcessor, cartesian: CartesianMoveKeyProcessor, client: TeleopsClientImpl)
    requires client.Valid() && jog.Valid() && jog.client == client && cartesian.client == client
    requires |client.joints| == jog.numOfJoints
    modifies jog, client.publisherTwist, client.publisherJog
    ensures jog.isReversed == ReversedAfterKey(key, old(jog.isReversed))
    ensures var motion := KeyMotion(key, old(jog.isReversed), jog.numOfJoints);
      && client.publisherTwist.submitted == old(client.publisherTwist.submitted) + client.TwistMessages(TwistPart(motion))
      && client.publisherJog.submitted == old(client.publisherJog.submitted) + client.JogMessages(JogPart(motion))
    ensures client.publisherTwist.closed == old(client.publisherTwist.closed)
    ensures client.publisherJog.closed == old(client.publisherJog.closed)
  {
    KeyMotionCases(key, jog.isReversed, jog.numOfJoints);
    if key == LINE_FEED {
    } else if key == REVERSE_KEY {
      jog.Reverse();
    } else {
      var handled := cartesian.Process(key);
      if !handled {
        var _ := jog.Process(key);
      }
    }
  }

  /** The loop of `run`: builds both processors for the client and feeds them
      the key stream. Both channels receive exactly the motions `Dispatch`
      prescribes for the consumed keys, each on its own publisher. */
  method Run(joints: seq<string>, client: TeleopsClientImpl, keys: seq<int32>)
    requires client.Valid() && |client.joints| == |joints|
    modifies client.publisherTwist, client.publisherJog
    ensures var ms := Dispatch(UntilEndOfStream(keys), false, |joints|);
      && client.publisherTwist.submitted == old(client.publisherTwist.submitted) + client.TwistMessages(CartesianMoves(ms))
      && client.publisherJog.submitted == old(client.publisherJog.submitted) + client.JogMessages(JointMoves(ms))
    ensures client.publisherTwist.closed == old(client.publisherTwist.closed)
    ensures client.publisherJog.closed == old(client.publisherJog.closed)
  {
    var jointJogKeyProcessor := new JointJogKeyProcessor(client, joints);
    var cartesianMoveKeyProcessor := new CartesianMoveKeyProcessor(client);
    ghost var twist0, jog0 := client.publisherTwist.submitted, client.publisherJog.submitted;
    var i := 0;
    assert client.TwistMessages([]) == [] && client.JogMessages([]) == [];
    while i < |keys| && keys[i] != END_OF_STREAM
      invariant 0 <= i <= |keys| && END_OF_STREAM !in keys[..i]
      invariant jointJogKeyProcessor.Valid() && jointJogKeyProcessor.client == client
      invariant jointJogKeyProcessor.numOfJoints == |joints| && cartesianMoveKeyProcessor.client == client
      invariant jointJogKeyProcessor.isReversed == ReversedAfter(keys[..i], false)
      invariant client.publisherTwist.submitted == twist0 + client.TwistMessages(CartesianMoves(Dispatch(keys[..i], false, |joints|)))
      invariant client.publisherJog.submitted == jog0 + client.JogMessages(JointMoves(Dispatch(keys[..i], false, |joints|)))
      invariant client.publisherTwist.closed == old(client.publisherTwist.closed)
      invariant client.publisherJog.closed == old(client.publisherJog.closed)
    {
      ghost var sentTwists, sentJogs := client.publisherTwist.submitted, client.publisherJog.submitted;
      ghost var before := Dispatch(keys[..i], false, |joints|);
      ghost var motion := KeyMotion(keys[i], jointJogKeyProcessor.isReversed, |joints|);
      DispatchKey(keys[i], jointJogKeyProcessor, cartesianMoveKeyProcessor, client);
      TwistChannelStep(client, before, motion, twist0, sentTwists, client.publisherTwist.submitted);
      JogChannelStep(client, before, motion, jog0, sentJogs, client.publisherJog.submitted);
      DispatchStep(keys, i, |joints|);
      i := i + 1;
    }
    UntilEndOfStreamUnique(keys, keys[..i]);
  }
}
