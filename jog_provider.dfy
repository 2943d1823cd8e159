/** `JointJogMessageProvider`: the joint-jog tables of the key processor,
    looked up by an explicit command instead of a key, returning the message
    instead of sending it. */
module JogProvider {
  import opened Basics
  import opened RosMessages
  import opened JogTables
  import opened JointJogKeys

  /** `JointJogMessageProvider.Command`. */
  datatype Command = Command(jointNum: int32, isBackward: bool)

  class JointJogMessageProvider {
    const frameName: string
    const joints: seq<string>
    const incVelocities: seq<seq<real>>
    const decVelocities: seq<seq<real>>

    ghost predicate Valid() {
      && IsUnitTable(incVelocities, |joints|, 1.0)
      && IsUnitTable(decVelocities, |joints|, -1.0)
    }

    constructor (frameName: string, joints: seq<string>)
      ensures Valid() && this.frameName == frameName && this.joints == joints
    {
      this.frameName := frameName;
      this.joints := joints;
      var inc, dec := BuildJogTables(|joints|);
      UnitTableRows(inc, |joints|, 1.0);
      UnitTableRows(dec, |joints|, -1.0);
      incVelocities, decVelocities := inc, dec;
    }

    /** The jog message for a command, or none when `jointNum` is not a
        configured joint. The tables are read, never changed. */
    function Get(command: Command): (r: Option<JointJog>)
      requires Valid()
      ensures r.None? <==> command.jointNum < 0 || command.jointNum >= |joints|
      ensures r.Some? ==>
        && r.value.header.frameId == frameName
        && r.value.jointNames == joints
        && |r.value.velocities| == |r.value.jointNames|
        && r.value.velocities == UnitRow(|joints|, command.jointNum, if command.isBackward then -1.0 else 1.0)
    {
      var jointNum := command.jointNum;
      if jointNum < 0 || jointNum >= |joints| then None
      else Some(JointJog(Header(frameName), joints,
        if command.isBackward then decVelocities[jointNum] else incVelocities[jointNum]))
    }
  }

  /** The provider and the key processor agree: a key's joint index, as a
      command, yields the row the processor would send for that key. */
  lemma ProviderMatchesKeyProcessor(p: JointJogMessageProvider, key: int32, reversed: bool)
    requires p.Valid()
    ensures var m, row := p.Get(Command(JointIndex(key), reversed)), JogRow(key, reversed, |p.joints|);
      && (m.Some? <==> row.Some?)
      && (m.Some? ==> m.value.velocities == row.value)
  {
  }
}
