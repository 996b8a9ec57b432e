# MqttSender — a Dafny model

This project models the device-side MQTT sender of the Boodskap IoT Java apps
(`io.boodskap.iot.MqttSender`). The sender connects a device to the Boodskap
platform, subscribes to the device's command topic, and publishes messages,
pictures and videos. A background pinger drains queued command acknowledgements
and, when idle, sends heartbeat pings.

The model covers four parts:

- **Topics and credentials** (`topics.dfy`, `decimal.dfy`). The MQTT client id
  `DEV_<deviceId>`, the user name `DEV_<domainKey>`, and the four topic templates.
  Java's `%d` on the message id is written out as a decimal formatter.
  `paths.dfy` splits a topic at `/` into segments. Each topic builder states in
  its contract which segments its topic splits into. `topic_paths.dfy` uses those
  segments to show what the topic scheme keeps apart:
  - the command topic is never a message topic;
  - a message topic determines the identity and the message id;
  - snapshots never share a topic with streams, nor live media with offline media;
  - a sanitised camera id stays one path segment.

  The scheme is not fully collision-free. Sanitising merges camera ids that differ
  only in `/` against `_`: every camera id holding a `/` (such as `a/b`) publishes
  to the same snapshot and stream topics as the id with `_` in its place (`a_b`)
  (`TopicPaths.SanitizeMergesCameraIds`).
- **Camera-id sanitising** (`topics.dfy`). `sendPicture` and `sendVideo` rewrite
  `/` to `_` when the id contains one.
- **The pinger** (`pinger.dfy`). One pass of the loop is a function over the queue,
  `lastSent` and what the clock and transport answer. Several passes form a run.
  The lemmas cover:
  - acknowledgements go first;
  - a PING is attempted exactly when the queue is empty and the heartbeat is due;
  - each queued acknowledgement is attempted exactly once, in order, and never retried;
  - an idle pass means the last send was less than a heartbeat ago.
- **The sender object** (`mqtt_sender.dfy`). The class `MqttSender` holds:
  - the session and worker handles (`mqtt`, `worker` for the Java `pF`) and `opts`;
  - the acknowledgement queue and the pinger's `lastSent`;
  - a trace of every effect on the transport and the executor, in order.

  `Open`, `Close`, `Acknowledge`, `SendMessage`, `Publish`, `SendPicture`,
  `SendVideo` and `PingerStep` change that state. Their postconditions give the
  whole new state; `Open` and `OpenReconnecting` share theirs through the two-state
  predicate `OpenedWith`. `PingerStep` is tied to the pure `Pinger.Step`.

External answers become method parameters:
- whether the transport accepts a connect, a subscribe, a publish or a close;
- the clock readings.

`mqtt.publish` on a sender that holds no session throws (`NullSession`), as the
Java `NullPointerException` does. A publish on a session that is not connected,
or with a QoS other than 0, 1 or 2, fails (`PublishError`), as the client library
refuses it. The sender's `isConnected()` is the predicate
`Sender.MqttSender.IsConnected` (true iff a session exists and is connected).

Behaviour of the code worth knowing, which the model keeps:
- `open` assigns the client before connecting. After a refused connect the sender
  holds an unconnected session. After a refused subscribe it holds a connected
  session and no newly submitted pinger; an earlier worker handle is kept
  (`Sender.ReopenScenario`).
- A second `open` replaces the worker handle without cancelling the previous one.
- `close` only calls `mqtt.close()` when the session is connected. It never
  disconnects first, and it never clears `opts`.
- The queued acknowledgement carries the flag as the integer 1 or 0.

## Model

| member | source | states |
|---|---|---|
| `Topics.Credential` | boodskap-java-apps/commons/src/main/java/io/boodskap/iot/MqttSender.java:74-75 | the credential is `DEV_` followed by the name, unchanged |
| `Topics.CredentialInjective` | boodskap-java-apps/commons/src/main/java/io/boodskap/iot/MqttSender.java:74-75 | different device ids (domain keys) never share a client id (user name) |
| `Sender.MqttSender.constructor` | boodskap-java-apps/commons/src/main/java/io/boodskap/iot/MqttSender.java:70-78 | client id is `"DEV_" + deviceId`, user name `"DEV_" + domainKey`, password the API key, all constants; no session, no worker, empty queue, `lastSent` 0 |
| `Decimal.Format` | boodskap-java-apps/commons/src/main/java/io/boodskap/iot/MqttSender.java:234 | `%d` text is non-empty, has no `/`, starts with `-` exactly for negative ids, and the digits after it have no leading zero |
| `Decimal.FormatRoundTrip` | boodskap-java-apps/commons/src/main/java/io/boodskap/iot/MqttSender.java:234 | parsing the `%d` text of a message id gives the id back |
| `Decimal.FormatInjective` | boodskap-java-apps/commons/src/main/java/io/boodskap/iot/MqttSender.java:234 | distinct message ids give distinct decimal text |
| `Topics.LiveSegment` | boodskap-java-apps/commons/src/main/java/io/boodskap/iot/MqttSender.java:241 | the live segment is exactly `live` when live and `offline` otherwise |
| `Topics.DeviceTopic` | boodskap-java-apps/commons/src/main/java/io/boodskap/iot/MqttSender.java:226-228 | the command topic is `/domainKey/device/deviceId/cmds`; it splits into exactly the five segments "", domain key, `device`, device id, `cmds` |
| `Topics.MessageTopic` | boodskap-java-apps/commons/src/main/java/io/boodskap/iot/MqttSender.java:233-235 | the message topic splits into "", domain key, `device`, device id, `msgs`, the decimal message id, the device model, then the firmware version's segments |
| `Topics.SnapTopic` | boodskap-java-apps/commons/src/main/java/io/boodskap/iot/MqttSender.java:240-242 | a camera id without `/` is the seventh segment of the snapshot topic, after `snap` and the live segment; the format follows |
| `Topics.StreamTopic` | boodskap-java-apps/commons/src/main/java/io/boodskap/iot/MqttSender.java:247-249 | the stream topic has the snapshot layout with `stream` as the fifth segment |
| `TopicPaths.MessageTopicInjective` | boodskap-java-apps/commons/src/main/java/io/boodskap/iot/MqttSender.java:233-235 | a message topic determines the identity and the message id |
| `TopicPaths.DeviceTopicIsNoMessageTopic` | boodskap-java-apps/commons/src/main/java/io/boodskap/iot/MqttSender.java:226-235 | the subscribed command topic never equals a message topic |
| `TopicPaths.SnapTopicSegments` | boodskap-java-apps/commons/src/main/java/io/boodskap/iot/MqttSender.java:240-242 | snapshot topic segments are "", domain key, `device`, device id, `snap`, live segment, the sanitised camera id as one segment, then the format |
| `TopicPaths.StreamTopicSegments` | boodskap-java-apps/commons/src/main/java/io/boodskap/iot/MqttSender.java:247-249 | the same with `stream` as the fifth segment |
| `TopicPaths.MediaTopicsDistinct` | boodskap-java-apps/commons/src/main/java/io/boodskap/iot/MqttSender.java:240-249 | snapshot and stream topics never coincide; live and offline snapshot topics never coincide, nor do live and offline stream topics |
| `TopicPaths.SnapTopicSeparatesCameras` | boodskap-java-apps/commons/src/main/java/io/boodskap/iot/MqttSender.java:196-202 | cameras whose sanitised ids differ publish to different snapshot topics |
| `TopicPaths.SanitizeMergesCameraIds` | boodskap-java-apps/commons/src/main/java/io/boodskap/iot/MqttSender.java:197-202 | every camera id holding a `/` differs from the id with `_` in its place, yet both share their snapshot and stream topics: sanitising is not injective |
| `Topics.ReplaceSlashes` | boodskap-java-apps/commons/src/main/java/io/boodskap/iot/MqttSender.java:198 | same length; `_` at every position that held `/`, the input character elsewhere |
| `Topics.SanitizeCameraId` | boodskap-java-apps/commons/src/main/java/io/boodskap/iot/MqttSender.java:197-199 | the camera id used in topics has the input's length, no `/`, `_` exactly where `/` was, and is the input itself when it had no `/` |
| `Topics.SanitizeIdempotent` | boodskap-java-apps/commons/src/main/java/io/boodskap/iot/MqttSender.java:218-220 | sanitising an already sanitised id changes nothing |
| `Messages.AckFields` | boodskap-java-apps/commons/src/main/java/io/boodskap/iot/MqttSender.java:152-154 | the ack map has exactly the correlation-id and ack fields and decodes to the record it was built from |
| `Messages.DecodeAckOnlyAckFields` | boodskap-java-apps/commons/src/main/java/io/boodskap/iot/MqttSender.java:152-154 | any map that decodes as an acknowledgement is the map `acknowledge` builds for it |
| `Messages.PingIsNotAnAck` | boodskap-java-apps/commons/src/main/java/io/boodskap/iot/MqttSender.java:276 | the empty PING field map never decodes as an acknowledgement |
| `Sender.MqttSender.Acknowledge` | boodskap-java-apps/commons/src/main/java/io/boodskap/iot/MqttSender.java:151-156 | appends exactly one `{correlationId, 1 or 0}` record at the tail; earlier entries, `lastSent` and the trace are untouched |
| `JavaTypes.LongSub` | boodskap-java-apps/commons/src/main/java/io/boodskap/iot/MqttSender.java:275 | Java `long` subtraction: the true difference when it fits, congruent to it modulo 2^64 always |
| `JavaTypes.ClockDifferenceExact` | boodskap-java-apps/commons/src/main/java/io/boodskap/iot/MqttSender.java:275 | for non-negative clock readings the subtraction does not wrap |
| `Pinger.Step` | boodskap-java-apps/commons/src/main/java/io/boodskap/iot/MqttSender.java:264-287 | one pass attempts an ACK iff acks are pending, with the head's fields, consuming exactly the head. It attempts a PING iff the queue is empty and the heartbeat is due. `lastSent` moves to the post-publish time only when an attempt was delivered |
| `Pinger.QuietPassIsWithinHeartbeat` | boodskap-java-apps/commons/src/main/java/io/boodskap/iot/MqttSender.java:273-278 | a pass that attempts no publish had an empty queue and a last successful send less than a heartbeat ago |
| `Pinger.DrainsInOrder` | boodskap-java-apps/commons/src/main/java/io/boodskap/iot/MqttSender.java:263-287 | successive passes publish the queued acks one by one, in FIFO order, each exactly once, failed ones included, and nothing else |
| `Pinger.QueuedAckPublishedBeforeNextPing` | boodskap-java-apps/commons/src/main/java/io/boodskap/iot/MqttSender.java:263-287 | an ack queued behind n others is attempted on pass n, and no PING comes before it |
| `Pinger.RunKeepsAckRecords` | boodskap-java-apps/commons/src/main/java/io/boodskap/iot/MqttSender.java:266-270 | only acknowledgement records are ever in the queue, so every ACK published carries one |
| `Sender.MqttSender.PingerStep` | boodskap-java-apps/commons/src/main/java/io/boodskap/iot/MqttSender.java:264-287 | one loop pass changes the queue and `lastSent` as `Pinger.Step` says. A publish without a session, or on a session that is not connected, counts as failed. The trace gains a publication on the ACK or PING message topic exactly when the publish went through |
| `Sender.MqttSender.Open` | boodskap-java-apps/commons/src/main/java/io/boodskap/iot/MqttSender.java:96-113 | fresh options (keep-alive 30, clean session, credentials, reconnect flag). On success: connected session subscribed to the command topic, pinger submitted, in that order. Each failing step stops the rest, with the state the code leaves; a refused subscribe keeps any earlier worker handle |
| `Sender.MqttSender.OpenReconnecting` | boodskap-java-apps/commons/src/main/java/io/boodskap/iot/MqttSender.java:85-87 | `open()` is `open(true)`: the same new state as `Open` for every transport answer, with automatic reconnection on |
| `Sender.MqttSender.IsConnected` | boodskap-java-apps/commons/src/main/java/io/boodskap/iot/MqttSender.java:119-121 | false whenever there is no session; otherwise the session's connected flag |
| `Sender.MqttSender.Close` | boodskap-java-apps/commons/src/main/java/io/boodskap/iot/MqttSender.java:127-138 | cancels and clears the worker first, then closes and clears a connected session. Afterwards the sender is not connected unless closing failed. Closing an already closed sender changes nothing |
| `Sender.MqttSender.Transmit` | boodskap-java-apps/commons/src/main/java/io/boodskap/iot/MqttSender.java:182 | `mqtt.publish`: fails with `NullSession` when there is no session, with `PublishError` when the session is not connected, the QoS is outside 0..2 or the transport refuses; only a successful publish is added to the trace |
| `Sender.MqttSender.SendMessage` | boodskap-java-apps/commons/src/main/java/io/boodskap/iot/MqttSender.java:168-183 | publishes the field map to the message topic of the message id, with the given QoS and retained flag; a missing or unconnected session, a QoS outside 0..2 and transport failures surface as errors |
| `Sender.MqttSender.Publish` | boodskap-java-apps/commons/src/main/java/io/boodskap/iot/MqttSender.java:146-148 | `publish` is `sendMessage` with QoS 0, not retained |
| `Sender.MqttSender.SendPicture` | boodskap-java-apps/commons/src/main/java/io/boodskap/iot/MqttSender.java:196-203 | publishes the bytes to the snapshot topic of the sanitised camera id; failures surface as errors |
| `Sender.MqttSender.SendVideo` | boodskap-java-apps/commons/src/main/java/io/boodskap/iot/MqttSender.java:217-224 | publishes the bytes to the stream topic of the sanitised camera id; failures surface as errors |

## Left out

- The Paho MQTT client is not modelled. This covers connect, subscribe, publish and
  close, keep-alive, the 3000 ms time-to-wait, persistence, TLS and automatic
  reconnection. Each call's success or failure is a parameter (`OpenReply`,
  `accepted`, `closeAccepted`). The session's connected flag changes only through
  `Open` and `Close`; drops and reconnects initiated by the transport are not modelled.
- JSON serialisation of field maps is not modelled. A payload is kept as the field
  map (`Json(fields)`), and raw bytes for media.
- Threads are not modelled: the executor, `Future.cancel(true)` and thread
  interruption, the loop's interruption check, and the blocking 2-second
  `poll`. The model describes one loop pass with the queue as it stands when the
  pass polls; an acknowledgement arriving during the wait counts as present.
  Whether and when the worker stops after `close` is not modelled, and neither is
  the lateness bound that the poll timeout gives.
- `System.currentTimeMillis` is not modelled. Clock readings are parameters: the one
  compared against the heartbeat, and the one stored after a publish. Console
  logging and `printStackTrace` have no effect on the state and are left out.
- `messageArrived` and `processData` are left out. `AbstractPublisher` is not part of
  this model. Its message ids MSG_PING and MSG_ACK are constructor parameters
  required to differ. Its field names P_CORRELATION_ID and P_ACK are two distinct
  keys whose spelling is not modelled. The `MessageHandler` constructor argument is
  not modelled either.
- `Decimal.Format`: does not model locale-specific digits; `%d` is taken in a
  locale that writes ASCII digits and `-`.
- Null arguments are not modelled. A null camera id, format or data array
  (a `NullPointerException` in Java) cannot be expressed.
- The topic lemmas require the domain key and the device id to hold no `/`. The
  message-topic lemmas also require this of the device model. The source does not
  check this, and with a `/` in them topics can collide.
- Sender.MqttSender.Close: whether the client library lets a connected client be
  closed is a parameter (`closeAccepted`). The Paho client documents that `close()`
  throws unless the client was disconnected first, and `close` never disconnects.
  In that case closing a connected sender always fails after the pinger has been
  cancelled, and the sender keeps reporting itself connected
  (`Sender.CloseConnectedScenario`). The library is not part of this model, so both
  answers are allowed.
- Sender.MqttSender.Acknowledge: the queue is unbounded. The Java
  `LinkedBlockingQueue` holds at most 2^31 - 1 entries, and `acknowledge` ignores
  the `false` that `offer` returns on a full queue, dropping that acknowledgement.
  The model always appends.
- Sender.MqttSender.Transmit: the client library's topic validation is not
  modelled. It rejects a publish whose topic holds the wildcards `+` or `#` (a
  camera id, format or identity field holding one; sanitising leaves them in place),
  a NUL character, or more than 65535 UTF-8 bytes. The model lets such a publish
  succeed when the transport accepts it.
