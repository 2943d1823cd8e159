# Keyboard teleoperation core of `pinorobotics/teleops`, in Dafny

This project models the path a keystroke takes in the `teleops` robot-arm
teleoperation tool: key code → key table → velocity vector → servo activation
guard → command sink. The modelled pieces are:

- the two key processors of the `teleops` application;
  - `CartesianMoveKeyProcessor` turns w/s, a/d and q/e into ±x, ±y and ±z moves;
  - `JointJogKeyProcessor` turns `key - '0'` into a one-joint jog, with a reversal flag;
- the two message providers that do the same lookups but return an optional message;
- `TeleopsClientImpl`, the base client, which publishes on two separate channels:
  stamped twists and joint jogs;
- `HumbleMoveItServoTeleopsClient`, the decorator that starts MoveIt Servo lazily
  before the first move;
- `TeleopsClientFactory`, which picks the decorator for a ROS release;
- the key loops of both keyboard applications: the current one in `app/` and the
  older Cartesian-only one in the root package.

Velocities are `real`. The core does no arithmetic on them: it only writes the
constants 0 and ±1 and forwards what callers pass. Java `int` is modelled as
`int32` with explicit wrap-around (`Basics.Wrap32`), and the cast `(char) key`
keeps the low 16 bits (`Basics.ToChar16`).

## Layout

| file | module | models |
|---|---|---|
| basics.dfy | `Basics` | Java `int`, `char`, `Optional` |
| ros_messages.dfy | `RosMessages` | `TwistStamped`, `JointJog` and their parts |
| ros_transport.dfy | `RosTransport` | abstract publisher, ROS client and servo client; they record what was submitted, registered, started and closed |
| teleops_client.dfy | `TeleopsClient` | the interface's two moves as `Motion` values, its errors, channel projections |
| jog_tables.dfy | `JogTables` | the unit-row tables both jog components build |
| teleops_client_impl.dfy | `ClientImpl` | `TeleopsClientImpl` |
| humble_servo.dfy | `HumbleServo` | `HumbleMoveItServoTeleopsClient` |
| client_factory.dfy | `ClientFactory` | `TeleopsClientFactory` |
| cartesian_keys.dfy | `CartesianKeys` | `CartesianMoveKeyProcessor` |
| joint_jog_keys.dfy | `JointJogKeys` | `JointJogKeyProcessor` |
| twist_provider.dfy | `TwistProvider` | `TwistStampedMessageProvider` and its `KEY_MAP` |
| jog_provider.dfy | `JogProvider` | `JointJogMessageProvider` |
| key_stream.dfy | `KeyStream` | what both key loops share: end of stream, line feed, the consumed prefix |
| keyboard_app.dfy | `KeyboardApp` | the key loop and jog set-up of `app/TeleopTwistKeyboardApp` |
| legacy_keyboard_app.dfy | `LegacyKeyboardApp` | the key loop of the root-package `TeleopTwistKeyboardApp` |

The interface `TeleopsClient` has no behaviour of its own. Its `move(x, y, z)`
and `move(double...)` become the two cases of `Motion`. There is no common
supertype for clients in this model. The key processors and the `app/` loop are
wired to `TeleopsClientImpl`, which is the client `createClient` hands them in
that application. The Humble decorator wraps a `TeleopsClientImpl`, which is
what every factory method gives it.

The loop is specified by the pure function `KeyboardApp.Dispatch`. It gives the
ordered motions a key stream sends. `Run` proves that each publisher receives
exactly its channel's share of those motions (`CartesianMoves` for the twist
publisher, `JointMoves` for the jog publisher).

### Behaviour worth knowing

- Jog keys are not limited to digits. `key - '0'` is followed only by a range
  check (app/keyprocessors/JointJogKeyProcessor.java:50-51). So `':'` reaches
  joint 10, `';'` joint 11, and so on, when that many joints are configured
  (`JointJogKeys.KeysPastNineReachHighJoints`). The help text still says that
  some joints are ignored when there are more than 9
  (app/TeleopTwistKeyboardApp.java:110-113).
- Servo activation in the Humble decorator is one boolean, `isServoStarted`. It is
  set only after `startServo()` returns, so a failed start leaves it false and the
  next move tries again.
- The doc comment of `move(double...)` (TeleopsClient.java:40-41) says the row
  0, -1, 0, 0, 0, 0 moves the "first joint". Joints are numbered from 0 in the
  code and in the help listing (app/TeleopTwistKeyboardApp.java:107-108), and the
  model does the same, so that row moves joint 1.
- The root-package application has its own `KEY_MAP` (TeleopTwistKeyboardApp.java:46-71).
  It has the same six entries as `TwistStampedMessageProvider.KEY_MAP`
  (TwistStampedMessageProvider.java:29-54), so the model defines the table once
  (`TwistProvider.KEY_MAP`). Both tables give the vectors of the
  `CartesianMoveKeyProcessor` switch (`TwistProvider.KeyMapMatchesCartesianTable`).
- Closing a Humble client closes only its servo client
  (impl/HumbleMoveItServoTeleopsClient.java:38-41). The wrapped base client and its
  two publishers stay open, so a Humble client from the factory never closes them.
  `HumbleServo.HumbleMoveItServoTeleopsClient.Close` may modify only the servo client.
- The factory methods are modelled in two steps. A pure function returns a
  descriptor (`ClientSpec`). `ClientFactory.Build` then creates the objects that
  descriptor stands for.

## Model

| member | source | states |
|---|---|---|
| `CartesianKeys.CartesianVelocity` | teleops/src/main/java/pinorobotics/teleops/app/keyprocessors/CartesianMoveKeyProcessor.java:33-66 | a key has a vector iff it is one of w, s, a, d, q, e (compared as an `int`, not narrowed); every such vector has exactly one nonzero component, of magnitude 1 |
| `CartesianKeys.CartesianTable` | teleops/src/main/java/pinorobotics/teleops/app/keyprocessors/CartesianMoveKeyProcessor.java:34-63 | w, s, a, d, q, e give (1,0,0), (-1,0,0), (0,1,0), (0,-1,0), (0,0,1), (0,0,-1) |
| `CartesianKeys.OppositeKeyPairs` | teleops/src/main/java/pinorobotics/teleops/app/keyprocessors/CartesianMoveKeyProcessor.java:36-61 | s, d and e give the negations of w, a and q |
| `CartesianKeys.CartesianVelocityInjective` | teleops/src/main/java/pinorobotics/teleops/app/keyprocessors/CartesianMoveKeyProcessor.java:33-63 | two keys that give the same vector are the same key |
| `CartesianKeys.CartesianMoveKeyProcessor.constructor` | teleops/src/main/java/pinorobotics/teleops/app/keyprocessors/CartesianMoveKeyProcessor.java:28-30 | keeps the client it sends moves to |
| `CartesianKeys.CartesianMoveKeyProcessor.Process` | teleops/src/main/java/pinorobotics/teleops/app/keyprocessors/CartesianMoveKeyProcessor.java:32-67 | returns true iff the key is one of the six; then exactly one twist for that key's vector is published, otherwise nothing; only the twist publisher may change, and the processor has no state |
| `JogTables.BuildJogTables` | teleops/src/main/java/pinorobotics/teleops/app/keyprocessors/JointJogKeyProcessor.java:37-45 | both tables have N rows of length N; row i is +1 (increment) or -1 (decrement) at index i and 0 elsewhere |
| `JogTables.UnitRow` | teleops/src/main/java/pinorobotics/teleops/app/keyprocessors/JointJogKeyProcessor.java:40-44 | a length-n row with v at joint i and 0 at every other joint |
| `JogTables.UnitTableRows` | teleops/src/main/java/pinorobotics/teleops/generators/JointJogMessageProvider.java:40-48 | a table whose rows have that shape is the unit table used by both jog components |
| `JointJogKeys.JointIndex` | teleops/src/main/java/pinorobotics/teleops/app/keyprocessors/JointJogKeyProcessor.java:50 | `key - '0'` in 32-bit arithmetic: the plain difference, except that it wraps below `INT32_MIN + 48` |
| `JointJogKeys.JogRow` | teleops/src/main/java/pinorobotics/teleops/app/keyprocessors/JointJogKeyProcessor.java:50-53 | a row exists iff `key - '0'` lies in [0, N); it is the -1 unit row at that index when reversed, the +1 row otherwise |
| `JointJogKeys.NoJointsRejectsEveryKey` | teleops/src/main/java/pinorobotics/teleops/app/keyprocessors/JointJogKeyProcessor.java:36-51 | with zero joints no key yields a row |
| `JointJogKeys.KeysPastNineReachHighJoints` | teleops/src/main/java/pinorobotics/teleops/app/keyprocessors/JointJogKeyProcessor.java:50-51 | with more than 10 joints, `':'` jogs joint 10 |
| `JointJogKeys.ReversedRowIsNegated` | teleops/src/main/java/pinorobotics/teleops/app/keyprocessors/JointJogKeyProcessor.java:52 | the reversed row of a key is the negation of its forward row |
| `JointJogKeys.JointJogKeyProcessor.constructor` | teleops/src/main/java/pinorobotics/teleops/app/keyprocessors/JointJogKeyProcessor.java:34-46 | N is the joint count, both tables are the unit tables, the flag starts false |
| `JointJogKeys.JointJogKeyProcessor.Process` | teleops/src/main/java/pinorobotics/teleops/app/keyprocessors/JointJogKeyProcessor.java:48-54 | out of range: returns false and publishes nothing; in range: publishes exactly one jog with the row `JogRow` gives for the current flag, or surfaces the client's length error; the flag and tables are untouched |
| `JointJogKeys.JointJogKeyProcessor.Reverse` | teleops/src/main/java/pinorobotics/teleops/app/keyprocessors/JointJogKeyProcessor.java:56-58 | flips the reversal flag |
| `ClientImpl.TeleopsClientImpl.constructor` | teleops/src/main/java/pinorobotics/teleops/impl/TeleopsClientImpl.java:49-62 | two fresh, open, empty publishers on the given topic names, registered with the ROS client in that order; the frame and the joints in their original order are kept |
| `ClientImpl.TeleopsClientImpl.Move` | teleops/src/main/java/pinorobotics/teleops/impl/TeleopsClientImpl.java:64-77 | publishes exactly one twist: linear (x,y,z), angular zero, header frame the configured frame; the jog channel is not touched |
| `ClientImpl.TeleopsClientImpl.MoveJoints` | teleops/src/main/java/pinorobotics/teleops/impl/TeleopsClientImpl.java:79-94 | a length mismatch fails before anything is published; otherwise exactly one jog with the configured frame, the configured joint names and the velocities unchanged; the twist channel is not touched |
| `ClientImpl.TeleopsClientImpl.Close` | teleops/src/main/java/pinorobotics/teleops/impl/TeleopsClientImpl.java:96-100 | closes both publishers |
| `ClientImpl.TeleopsClientImpl.TwistMessage` | teleops/src/main/java/pinorobotics/teleops/impl/TeleopsClientImpl.java:66-73 | the twist message carries the configured frame, the given linear velocity and a zero angular part |
| `ClientImpl.TeleopsClientImpl.JogMessage` | teleops/src/main/java/pinorobotics/teleops/impl/TeleopsClientImpl.java:85-90 | the jog message carries the configured frame, the configured joint names in order, and the velocities unchanged |
| `HumbleServo.HumbleMoveItServoTeleopsClient.constructor` | teleops/src/main/java/pinorobotics/teleops/impl/HumbleMoveItServoTeleopsClient.java:31-36 | keeps the wrapped client, the servo client and the initial flag |
| `HumbleServo.HumbleMoveItServoTeleopsClient.Move` | teleops/src/main/java/pinorobotics/teleops/impl/HumbleMoveItServoTeleopsClient.java:43-50 | started: no start call, the same (x,y,z) is forwarded; not started: exactly one start call; if it fails the flag stays false, nothing is forwarded and the error is reported, else the flag is set and the move is forwarded |
| `HumbleServo.HumbleMoveItServoTeleopsClient.MoveJoints` | teleops/src/main/java/pinorobotics/teleops/impl/HumbleMoveItServoTeleopsClient.java:52-59 | the same start policy, then the same velocities are forwarded; the wrapped client's length check applies only after a successful start |
| `HumbleServo.HumbleMoveItServoTeleopsClient.Close` | teleops/src/main/java/pinorobotics/teleops/impl/HumbleMoveItServoTeleopsClient.java:38-41 | closes the servo client once and touches nothing of the wrapped client |
| `ClientFactory.CreateClient` | teleops/src/main/java/pinorobotics/teleops/TeleopsClientFactory.java:53-60 | a plain client on the caller's frame, joints and two topic names |
| `ClientFactory.CreateClientForServo` | teleops/src/main/java/pinorobotics/teleops/TeleopsClientFactory.java:80-95 | Humble iff the release is Humble, and then not started; the Jazzy decorator for any other release; servo client for the given release; default topics |
| `ClientFactory.CreateJazzyClientForServo` | teleops/src/main/java/pinorobotics/teleops/TeleopsClientFactory.java:102-113 | always the Jazzy decorator, with a Jazzy servo client and the default topics |
| `ClientFactory.CreateHumbleClientForServo` | teleops/src/main/java/pinorobotics/teleops/TeleopsClientFactory.java:120-131 | the Humble decorator with `isServoStarted` passed through, a Humble servo client and the default topics |
| `ClientFactory.ServoFactoriesAgree` | teleops/src/main/java/pinorobotics/teleops/TeleopsClientFactory.java:90-93 | the release switch gives what the Humble factory gives with `false`, and what the Jazzy factory gives for Jazzy; other releases differ from the latter only in the servo client's release |
| `ClientFactory.Build` | teleops/src/main/java/pinorobotics/teleops/TeleopsClientFactory.java:80-95 | creates a fresh base client whose configuration is the descriptor's, with two fresh, empty, open publishers registered with the ROS client in order; the variant matches the descriptor; a Humble descriptor gets a fresh decorator that wraps this base client and a fresh, unused servo client, with the descriptor's start flag |
| `TwistProvider.KeyMapMatchesCartesianTable` | teleops/src/main/java/pinorobotics/teleops/TwistStampedMessageProvider.java:29-54 | `KEY_MAP` has exactly the six keys; each entry is the processor's vector with zero angular part |
| `TwistProvider.TwistStampedMessageProvider.Get` | teleops/src/main/java/pinorobotics/teleops/TwistStampedMessageProvider.java:61-69 | empty iff `(char) key` is not one of the six; otherwise frame id is the constructor's frame, the angular part is zero and the linear part is the key's vector |
| `TwistProvider.GetIgnoresHighBits` | teleops/src/main/java/pinorobotics/teleops/TwistStampedMessageProvider.java:62 | codes that differ by a multiple of 65536 give the same result |
| `TwistProvider.ProviderNarrowsProcessorDoesNot` | teleops/src/main/java/pinorobotics/teleops/TwistStampedMessageProvider.java:62 | the code 65536 + 'w' selects a twist here but not in the Cartesian processor |
| `JogProvider.JointJogMessageProvider.constructor` | teleops/src/main/java/pinorobotics/teleops/generators/JointJogMessageProvider.java:36-49 | keeps frame and joints; both tables are the unit tables of length N |
| `JogProvider.JointJogMessageProvider.Get` | teleops/src/main/java/pinorobotics/teleops/generators/JointJogMessageProvider.java:51-64 | empty iff `jointNum < 0` or `jointNum >= N`; otherwise frame and joint names as configured, as many velocities as names, the -1 row if backward and the +1 row otherwise |
| `JogProvider.ProviderMatchesKeyProcessor` | teleops/src/main/java/pinorobotics/teleops/generators/JointJogMessageProvider.java:54-63 | a key's joint index as a command yields the row the key processor would send |
| `TeleopsClient.CartesianMoves` | teleops/src/main/java/pinorobotics/teleops/TeleopsClient.java:33 | the Cartesian moves of a motion sequence, no more of them than motions |
| `TeleopsClient.JointMoves` | teleops/src/main/java/pinorobotics/teleops/TeleopsClient.java:46 | the joint moves of a motion sequence, no more of them than motions |
| `TeleopsClient.MovesPartition` | teleops/src/main/java/pinorobotics/teleops/TeleopsClient.java:33-46 | every motion is on exactly one of the two channels |
| `KeyboardApp.ConfiguredJoints` | teleops/src/main/java/pinorobotics/teleops/app/TeleopTwistKeyboardApp.java:78-81 | no joints unless jog is enabled, else the joints from the feed |
| `KeyboardApp.JogKeysHelp` | teleops/src/main/java/pinorobotics/teleops/app/TeleopTwistKeyboardApp.java:96-114 | jog marked disabled iff there are no joints; otherwise one line per joint with its index and name, and the warning iff there are more than 9 joints |
| `KeyStream.UntilEndOfStream` | teleops/src/main/java/pinorobotics/teleops/app/TeleopTwistKeyboardApp.java:156 | the consumed keys form a prefix without -1 that ends at the first -1 or at the end |
| `KeyStream.UntilEndOfStreamUnique` | teleops/src/main/java/pinorobotics/teleops/app/TeleopTwistKeyboardApp.java:156 | that prefix is determined by those properties |
| `KeyStream.KeysAfterEndOfStreamIgnored` | teleops/src/main/java/pinorobotics/teleops/app/TeleopTwistKeyboardApp.java:156 | keys after the first -1 are never read |
| `KeyboardApp.Dispatch` | teleops/src/main/java/pinorobotics/teleops/app/TeleopTwistKeyboardApp.java:155-164 | at most one motion per key |
| `KeyboardApp.KeyMotion` | teleops/src/main/java/pinorobotics/teleops/app/TeleopTwistKeyboardApp.java:157-163 | a Cartesian move exactly for the six table keys, along that key's vector; a joint move exactly for keys that are not line feed, `'r'` or a table key and whose `key - '0'` lies in [0, N), with the -1 unit row when reversed and the +1 row otherwise; nothing for any other key |
| `KeyboardApp.KeyMotionCases` | teleops/src/main/java/pinorobotics/teleops/app/TeleopTwistKeyboardApp.java:157-163 | line feed and `'r'` send nothing; a Cartesian key sends its Cartesian move (tried first); any other key sends its jog row if it has one, else nothing |
| `KeyboardApp.ReversedAfterCountsToggles` | teleops/src/main/java/pinorobotics/teleops/app/TeleopTwistKeyboardApp.java:158-161 | the flag after a key stream is the initial flag flipped once per `'r'` |
| `KeyboardApp.DispatchConcat` | teleops/src/main/java/pinorobotics/teleops/app/TeleopTwistKeyboardApp.java:156-164 | a stream split in two sends the first part's motions, then the second part's from the flag the first part left |
| `KeyboardApp.DoubleReverseIsIdentity` | teleops/src/main/java/pinorobotics/teleops/app/keyprocessors/JointJogKeyProcessor.java:56-58 | two `'r'` keys in a row change neither the motions sent nor the final flag |
| `KeyboardApp.CartesianIgnoresReversal` | teleops/src/main/java/pinorobotics/teleops/app/TeleopTwistKeyboardApp.java:154-162 | the Cartesian moves of a key stream are the same whatever the initial flag |
| `KeyboardApp.NoJointsNoJointMoves` | teleops/src/main/java/pinorobotics/teleops/app/TeleopTwistKeyboardApp.java:153-163 | with zero joints no key stream sends a joint move |
| `KeyboardApp.JogDisabledSendsNoJointMoves` | teleops/src/main/java/pinorobotics/teleops/app/TeleopTwistKeyboardApp.java:78-81 | without the jog option no key stream sends a joint move |
| `KeyboardApp.ThreeJointScenario` | teleops/src/main/java/pinorobotics/teleops/app/TeleopTwistKeyboardApp.java:153-164 | with three joints: `1` sends (0,1,0), `r 1` sends (0,-1,0), `w` sends (1,0,0) under either flag, `9` sends nothing |
| `KeyboardApp.DispatchKey` | teleops/src/main/java/pinorobotics/teleops/app/TeleopTwistKeyboardApp.java:157-163 | one pass of the loop: the flag moves as `'r'` dictates and each channel gets exactly that key's motion, if any |
| `KeyboardApp.Run` | teleops/src/main/java/pinorobotics/teleops/app/TeleopTwistKeyboardApp.java:153-164 | the twist publisher receives the messages of the Cartesian moves and the jog publisher those of the joint moves that `Dispatch` gives for the keys before end of stream, starting unreversed |
| `LegacyKeyboardApp.KeyMessage` | teleops/src/main/java/pinorobotics/teleops/TeleopTwistKeyboardApp.java:133-142 | a message exactly when the key is not a line feed and `(char) key` is a table key; it is the stamped twist for the configured frame with that key's vector and no rotation |
| `LegacyKeyboardApp.Traffic` | teleops/src/main/java/pinorobotics/teleops/TeleopTwistKeyboardApp.java:132-146 | at most one message per key; every message has the configured frame, zero angular part and a unit axis vector |
| `LegacyKeyboardApp.UnmappedKeyPublishesNothing` | teleops/src/main/java/pinorobotics/teleops/TeleopTwistKeyboardApp.java:134-135 | a key outside the table can be removed from any stream without changing what is published |
| `LegacyKeyboardApp.TrafficMatchesCartesianChannel` | teleops/src/main/java/pinorobotics/teleops/TeleopTwistKeyboardApp.java:46-71 | for codes in the `char` range, the older loop publishes exactly the twist channel of the newer one |
| `LegacyKeyboardApp.KeyMessageMatchesMotion` | teleops/src/main/java/pinorobotics/teleops/TeleopTwistKeyboardApp.java:133-142 | for one code in the `char` range, the older loop's message is the twist message of the newer loop's motion for that key, under any flag and joint count |
| `LegacyKeyboardApp.RunLegacy` | teleops/src/main/java/pinorobotics/teleops/TeleopTwistKeyboardApp.java:95-147 | one fresh publisher on the topic, registered with the client; the servo is started once before any key is read when asked to, and a failed start publishes nothing; otherwise the publisher receives `Traffic` of the keys before end of stream; publisher and client are closed on both paths |
| `Basics.Wrap32` | teleops/src/main/java/pinorobotics/teleops/app/keyprocessors/JointJogKeyProcessor.java:50 | the identity on `int` values, and congruent to its argument modulo 2^32 |
| `Basics.ToChar16` | teleops/src/main/java/pinorobotics/teleops/TwistStampedMessageProvider.java:62 | the identity on `char` values, and congruent to its argument modulo 2^16 |

## Left out

- `TeleopsClient` as a polymorphic interface: the model has no common supertype for clients. Key processors and the `app/` loop are tied to `TeleopsClientImpl`, which is what that application passes them. The Humble decorator wraps a `TeleopsClientImpl`, which is what the factory passes.
- `JazzyMoveItServoTeleopsClient` and `JRos2MoveItFactory` are not part of this model. The factory's choice of the Jazzy variant is modelled; its behaviour is not.
- The MoveIt Servo RPC (`MoveItServoClient`, the trigger service of the older application and its one-minute timeout): modelled as an abstract `StartServo` whose success is left open. The optional `startServo()` call that the `main` of `app/TeleopTwistKeyboardApp` makes before building the client (lines 82-83) is this same RPC, made once; it is not modelled, because `KeyboardApp.Run` starts from an already built client.
- Option parsing, `usage()`, logger set-up, help-text wording and printing, terminal echo and non-blocking input, shutdown hooks: I/O and user interface. Only the jog-help content (disabled / joint listing / more than 9 joints warning) is kept.
- `TeleopsUtils.readJoints`: cross-thread transport of the joint-state feed. The joint list is an input.
- Header time stamps (`Time.now()`), message serialisation, logging, and the internals of `TopicSubmissionPublisher` and `JRosClient`. Publishers and clients only record what is submitted, registered and closed.
- Aliasing of the velocity arrays: Java hands the table row array itself to the client; the model passes its value.
- `KeyboardApp.Run`: requires the client to have as many joints as the processor. Its only caller, `main`, builds both from the same list. The length error that a mismatch would raise is modelled in `JointJogKeyProcessor.Process` and `TeleopsClientImpl.MoveJoints`.
- `ClientFactory.Build`: the servo client does not record the ROS release it was created for; the release is kept in the descriptor only. `JRos2MoveItFactory.createMoveItServoClient` is not part of this model, so whatever it does with the ROS client is not captured.
- `ClientFactory.Build`: for a Jazzy descriptor it creates only the base client and the servo client; the Jazzy decorator around them is not part of this model.
- Exceptions from the transport itself are not modelled; only the two errors of the core (length mismatch, failed servo start) are.
