/** The ROS message types the core builds: `geometry_msgs/TwistStamped` and
    `control_msgs/JointJog`. The header time stamp (`Time.now()`) is left out. */
module RosMessages {

  datatype Vector3 = Vector3(x: real, y: real, z: real)

  /** The zero vector every Cartesian command uses as its angular part. */
  const ZERO_VECTOR: Vector3 := Vector3(0.0, 0.0, 0.0)

  datatype Twist = Twist(linear: Vector3, angular: Vector3)

  datatype Header = Header(frameId: string)

  datatype TwistStamped = TwistStamped(header: Header, twist: Twist)

  datatype JointJog = JointJog(header: Header, jointNames: seq<string>, velocities: seq<real>)
}
