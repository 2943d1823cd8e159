/** `TwistStampedMessageProvider`: the Cartesian key table as an immutable map
    from `char` to twist, and a lookup that wraps the twist in a stamped
    message for the configured frame. */
module TwistProvider {
  import opened Basics
  import opened RosMessages
  import opened CartesianKeys

  /** `KEY_MAP`: six letters, each a unit linear velocity with no rotation. */
  const KEY_MAP: map<Char16, Twist> := map[
    'w' as Char16 := Twist(Vector3(1.0, 0.0, 0.0), ZERO_VECTOR),
    's' as Char16 := Twist(Vector3(-1.0, 0.0, 0.0), ZERO_VECTOR),
    'a' as Char16 := Twist(Vector3(0.0, 1.0, 0.0), ZERO_VECTOR),
    'd' as Char16 := Twist(Vector3(0.0, -1.0, 0.0), ZERO_VECTOR),
    'q' as Char16 := Twist(Vector3(0.0, 0.0, 1.0), ZERO_VECTOR),
    'e' as Char16 := Twist(Vector3(0.0, 0.0, -1.0), ZERO_VECTOR)
  ]

  /** The table has exactly the six Cartesian keys, and each entry is the
      processor's unit vector for that key with a zero angular part. */
  lemma KeyMapMatchesCartesianTable()
    ensures KEY_MAP.Keys == CARTESIAN_KEYS
    ensures forall c | c in KEY_MAP ::
      KEY_MAP[c].angular == ZERO_VECTOR && Some(KEY_MAP[c].linear) == CartesianVelocity(c)
  {
    assert KEY_MAP.Keys == CARTESIAN_KEYS;
  }

  datatype TwistStampedMessageProvider = TwistStampedMessageProvider(frameName: string) {

    /** The message for a key, after narrowing it to a `char`. */
    function Get(key: int32): (r: Option<TwistStamped>)
      ensures r.None? <==> ToChar16(key) !in CARTESIAN_KEYS
      ensures r.Some? ==>
        && r.value.header.frameId == frameName
        && r.value.twist.angular == ZERO_VECTOR
        && Some(r.value.twist.linear) == CartesianVelocity(ToChar16(key))
    {
      KeyMapMatchesCartesianTable();
      var c := ToChar16(key);
      if c !in KEY_MAP then None
      else Some(TwistStamped(Header(frameName), KEY_MAP[c]))
    }
  }

  /** Key codes that differ by a multiple of 65536 give the same message. */
  lemma GetIgnoresHighBits(p: TwistStampedMessageProvider, key: int32, k: int)
    requires INT32_MIN <= key + k * 0x1_0000 <= INT32_MAX
    ensures p.Get(key) == p.Get(key + k * 0x1_0000)
  {
    assert ToChar16(key) == ToChar16(key + k * 0x1_0000);
  }

  /** The provider narrows the key and the processor does not: a key code
      past the `char` range can still select a twist here. */
  lemma ProviderNarrowsProcessorDoesNot(p: TwistStampedMessageProvider)
    ensures p.Get(0x1_0000 + 'w' as int).Some?
    ensures CartesianVelocity(0x1_0000 + 'w' as int).None?
  {
    assert ToChar16(0x1_0000 + 'w' as int) == 'w' as int;
  }
}
