/** Abstract stand-ins for the ROS transport and the MoveIt Servo RPC client.
    Their internals are foreign; only what the core observes of them is kept:
    the messages submitted to a publisher, which publishers a client registered,
    and how often the servo was asked to start or to close. */
module RosTransport {

  /** A topic publisher (`TopicSubmissionPublisher<M>`). */
  class Publisher<M> {
    const topic: string
    ghost var submitted: seq<M>
    ghost var closed: bool

    constructor (topic: string)
      ensures this.topic == topic && submitted == [] && !closed
    {
      this.topic := topic;
      submitted := [];
      closed := false;
    }

    method Submit(message: M)
      modifies this
      ensures submitted == old(submitted) + [message] && closed == old(closed)
    {
      submitted := submitted + [message];
    }

    method Close()
      modifies this
      ensures closed && submitted == old(submitted)
    {
      closed := true;
    }
  }

  /** A ROS client (`JRosClient`): publishers are registered with it. */
  class RosClient {
    ghost var publishers: seq<object>
    ghost var closed: bool

    constructor ()
      ensures publishers == [] && !closed
    {
      publishers := [];
      closed := false;
    }

    method Publish(publisher: object)
      modifies this
      ensures publishers == old(publishers) + [publisher] && closed == old(closed)
    {
      publishers := publishers + [publisher];
    }

    method Close()
      modifies this
      ensures closed && publishers == old(publishers)
    {
      closed := true;
    }
  }

  /** The MoveIt Servo client. Starting the servo is a remote call that may
      succeed or fail (a rejected request, a timeout); the model leaves its
      outcome open. */
  class ServoClient {
    ghost var startCalls: nat
    ghost var closeCalls: nat

    constructor ()
      ensures startCalls == 0 && closeCalls == 0
    {
      startCalls := 0;
      closeCalls := 0;
    }

    method StartServo() returns (ok: bool)
      modifies this
      ensures startCalls == old(startCalls) + 1 && closeCalls == old(closeCalls)
    {
      startCalls := startCalls + 1;
      ok := *;
    }

    method Close()
      modifies this
      ensures closeCalls == old(closeCalls) + 1 && startCalls == old(startCalls)
    {
      closeCalls := closeCalls + 1;
    }
  }
}
