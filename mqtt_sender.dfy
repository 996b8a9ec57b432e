/**
 * The MQTT sender object: its credentials, its session and worker handles, the
 * acknowledgement queue it shares with its pinger, and a trace of everything it
 * hands to the transport and the executor, in order.
 */
module Sender {
  import opened Wrappers
  import opened JavaTypes
  import opened Messages
  import opened Topics
  import Pinger

  /** Keep-alive interval set on every connection, in seconds. */
  const KEEP_ALIVE_SECONDS: int := 30

  /** Time the client waits for an action to complete, in milliseconds. */
  const TIME_TO_WAIT_MS: int := 3000

  /** `publish(messageId, json)` sends with QoS 0 and without the retained flag. */
  const PUBLISH_QOS: int := 0
  const PUBLISH_RETAINED: bool := false

  /** The quality-of-service levels MQTT defines; the client rejects any other. */
  predicate ValidQos(qos: int) {
    0 <= qos <= 2
  }

  /** The options `open` connects with. */
  datatype ConnectOptions = ConnectOptions(
    keepAliveInterval: int,
    cleanSession: bool,
    userName: string,
    password: string,
    automaticReconnect: bool)

  /** What the sender sees of an MQTT client object. */
  datatype Session = Session(
    serverUri: string,
    clientId: string,
    manualAcks: bool,
    timeToWait: int,
    connected: bool,
    subscriptions: seq<string>)

  /** A publish payload: a field map serialised as JSON, or raw bytes. */
  datatype Payload = Json(fields: Fields) | Binary(bytes: seq<bv8>)

  datatype Publication = Publication(topic: string, payload: Payload, qos: int, retained: bool)

  /** An effect the sender has on the transport or on its executor. */
  datatype Event =
    | Published(publication: Publication)
    | ConnectedWith(options: ConnectOptions)
    | Subscribed(topic: string)
    | PingerSubmitted
    | PingerCancelled
    | SessionClosed

  /** How the transport answers the steps of `open`. */
  datatype OpenReply = InvalidServerUri | ConnectRefused | SubscribeRefused | OpenAccepted

  /** The exceptions the sender's methods let through. */
  datatype Error =
    | ClientError     // creating the client failed
    | ConnectError    // the connect handshake failed
    | SubscribeError  // subscribing to the command topic failed
    | NullSession     // a publish on a sender that holds no session
    | PublishError    // the transport rejected a publish
    | CloseError      // closing the session failed

  /** The handle returned when the pinger is submitted to the executor. */
  datatype WorkerHandle = PingerFuture

  class MqttSender {
    const identity: Identity
    const mqttUrl: string
    /** Heartbeat interval in milliseconds. */
    const heartbeat: int64
    const clientId: string
    const userName: string
    const password: string
    /** The reserved message ids MSG_PING and MSG_ACK of the publisher base class. */
    const pingMessageId: int32
    const ackMessageId: int32

    var mqtt: Option<Session>
    var opts: Option<ConnectOptions>
    var worker: Option<WorkerHandle>
    var acks: seq<Fields>
    /** The pinger's own field: when it last published successfully. */
    var lastSent: int64
    var trace: seq<Event>

    ghost predicate Valid()
      reads this
    {
      && clientId == Credential(identity.deviceId)
      && userName == Credential(identity.domainKey)
      && pingMessageId != ackMessageId
      && (opts.Some? ==>
            && opts.value.keepAliveInterval == KEEP_ALIVE_SECONDS
            && opts.value.cleanSession
            && opts.value.userName == userName
            && opts.value.password == password)
      && (mqtt.Some? ==>
            && opts.Some?
            && mqtt.value.serverUri == mqttUrl
            && mqtt.value.clientId == clientId
            && !mqtt.value.manualAcks
            && mqtt.value.timeToWait == TIME_TO_WAIT_MS
            && (forall i :: 0 <= i < |mqtt.value.subscriptions| ==>
                  mqtt.value.subscriptions[i] == DeviceTopic(identity)))
      && (forall i :: 0 <= i < |acks| ==> DecodeAck(acks[i]).Some?)
    }

    /**
     * `isConnected()`: false whenever there is no session (the null check guards
     * the call on the session); otherwise what the session reports. No side effect.
     */
    predicate IsConnected()
      reads this
      ensures mqtt.None? ==> !IsConnected()
      ensures mqtt.Some? ==> (IsConnected() <==> mqtt.value.connected)
    {
      mqtt.Some? && mqtt.value.connected
    }

    /** The pinger's part of the sender's state. */
    function PingerState(): Pinger.State
      reads this
    {
      Pinger.State(acks, lastSent)
    }

    /** What a publish of `fields` under `messageId` through `publish` puts on the wire. */
    function MessagePublication(messageId: int32, fields: Fields): Publication {
      Publication(MessageTopic(identity, messageId), Json(fields), PUBLISH_QOS, PUBLISH_RETAINED)
    }

    /** The events a pinger attempt leaves: a publication only when it went through. */
    function AttemptEvents(a: Pinger.Attempt): seq<Event> {
      match a
      case AckAttempt(f, true) => [Published(MessagePublication(ackMessageId, f))]
      case PingAttempt(true) => [Published(MessagePublication(pingMessageId, PING_FIELDS))]
      case _ => []
    }

    /**
     * The credentials are derived from the identity once, here, and are constants
     * from then on. Nothing is connected and nothing is queued.
     */
    constructor (mqttUrl: string, heartbeat: int64, domainKey: string, apiKey: string,
                 deviceId: string, deviceModel: string, firmwareVersion: string,
                 pingMessageId: int32, ackMessageId: int32)
      requires pingMessageId != ackMessageId
      ensures Valid()
      ensures identity == Identity(domainKey, deviceId, deviceModel, firmwareVersion)
      ensures this.mqttUrl == mqttUrl && this.heartbeat == heartbeat
      ensures clientId == "DEV_" + deviceId && userName == "DEV_" + domainKey
      ensures password == apiKey
      ensures this.pingMessageId == pingMessageId && this.ackMessageId == ackMessageId
      ensures mqtt == None && opts == None && worker == None && !IsConnected()
      ensures acks == [] && lastSent == Pinger.INITIAL_LAST_SENT && trace == []
    {
      identity := Identity(domainKey, deviceId, deviceModel, firmwareVersion);
      this.heartbeat := heartbeat;
      this.mqttUrl := mqttUrl;
      clientId := Credential(deviceId);
      userName := Credential(domainKey);
      password := apiKey;
      this.pingMessageId := pingMessageId;
      this.ackMessageId := ackMessageId;
      mqtt, opts, worker := None, None, None;
      acks, lastSent, trace := [], Pinger.INITIAL_LAST_SENT, [];
    }

    /**
     * The state `open(reconnect)` leaves for each transport answer: fresh options
     * (keep-alive 30 s, clean session, the credentials, the reconnect flag); the
     * queue and `lastSent` untouched; on success a connected session subscribed to
     * the command topic and the pinger submitted, in that order. A failing step
     * throws and the later steps do not happen. The client is assigned before it
     * connects, so after a refused connect the sender holds an unconnected session;
     * a refused subscribe submits no pinger and keeps any earlier worker handle.
     */
    twostate predicate OpenedWith(reconnect: bool, reply: OpenReply, new r: Outcome<Error>)
      reads this
    {
      && opts == Some(ConnectOptions(KEEP_ALIVE_SECONDS, true, userName, password, reconnect))
      && acks == old(acks) && lastSent == old(lastSent)
      && (r.Pass? <==> reply == OpenAccepted)
      && (reply == InvalidServerUri ==>
            r == Fail(ClientError) && mqtt == old(mqtt) && worker == old(worker) && trace == old(trace))
      && (reply == ConnectRefused ==>
            && r == Fail(ConnectError) && worker == old(worker) && trace == old(trace)
            && mqtt == Some(Session(mqttUrl, clientId, false, TIME_TO_WAIT_MS, false, []))
            && !IsConnected())
      && (reply == SubscribeRefused ==>
            && r == Fail(SubscribeError) && worker == old(worker)
            && mqtt == Some(Session(mqttUrl, clientId, false, TIME_TO_WAIT_MS, true, []))
            && trace == old(trace) + [ConnectedWith(opts.value)])
      && (reply == OpenAccepted ==>
            && mqtt == Some(Session(mqttUrl, clientId, false, TIME_TO_WAIT_MS, true, [DeviceTopic(identity)]))
            && worker == Some(PingerFuture)
            && IsConnected()
            && trace == old(trace) + [ConnectedWith(opts.value), Subscribed(DeviceTopic(identity)), PingerSubmitted])
    }

    /**
     * Opens a connection: fresh options, a fresh client, connect, subscribe to the
     * command topic, then submit the pinger, leaving the state `OpenedWith` gives.
     */
    method Open(reconnect: bool, reply: OpenReply) returns (r: Outcome<Error>)
      requires Valid()
      modifies this
      ensures Valid()
      ensures OpenedWith(reconnect, reply, r)
    {
      opts := Some(ConnectOptions(KEEP_ALIVE_SECONDS, true, userName, password, reconnect));
      if reply == InvalidServerUri {
        return Fail(ClientError);
      }
      mqtt := Some(Session(mqttUrl, clientId, false, TIME_TO_WAIT_MS, false, []));
      if reply == ConnectRefused {
        return Fail(ConnectError);
      }
      mqtt := Some(mqtt.value.(connected := true));
      trace := trace + [ConnectedWith(opts.value)];
      if reply == SubscribeRefused {
        return Fail(SubscribeError);
      }
      var topic := DeviceTopic(identity);
      assert mqtt.value.subscriptions + [topic] == [topic];
      mqtt := Some(mqtt.value.(subscriptions := mqtt.value.subscriptions + [topic]));
      trace := trace + [Subscribed(topic)];
      worker := Some(PingerFuture);
      trace := trace + [PingerSubmitted];
      r := Pass;
    }

    /** `open()`: opens with automatic reconnection switched on. */
    method OpenReconnecting(reply: OpenReply) returns (r: Outcome<Error>)
      requires Valid()
      modifies this
      ensures Valid()
      ensures OpenedWith(true, reply, r)
    {
      r := Open(true, reply);
    }

    /**
     * Closes the connection: the pinger is cancelled and its handle dropped first;
     * then a connected session is closed and dropped. A session that is not
     * connected is left as it is. Afterwards the sender is not connected unless
     * closing the session failed, and closing a closed sender changes nothing.
     */
    method Close(closeAccepted: bool) returns (r: Outcome<Error>)
      requires Valid()
      modifies this`worker, this`mqtt, this`trace
      ensures Valid()
      ensures worker == None
      ensures r.Pass? <==> !old(IsConnected()) || closeAccepted
      ensures r.Fail? ==> r.error == CloseError && mqtt == old(mqtt)
      ensures r.Pass? ==> !IsConnected()
      ensures old(IsConnected()) && closeAccepted ==> mqtt == None
      ensures !old(IsConnected()) ==> mqtt == old(mqtt)
      ensures trace == old(trace)
        + (if old(worker).Some? then [PingerCancelled] else [])
        + (if old(IsConnected()) && closeAccepted then [SessionClosed] else [])
      ensures old(worker) == None && !old(IsConnected()) ==>
        r == Pass && mqtt == old(mqtt) && trace == old(trace)
    {
      if worker.Some? {
        trace := trace + [PingerCancelled];
        worker := None;
      }
      r := Pass;
      if mqtt.Some? && mqtt.value.connected {
        if !closeAccepted {
          return Fail(CloseError);
        }
        trace := trace + [SessionClosed];
        mqtt := None;
      }
    }

    /**
     * Queues an acknowledgement for the pinger: exactly one record at the tail,
     * with the correlation id and 1 or 0 for the flag. Nothing is published here.
     */
    method Acknowledge(corrId: int64, acked: bool)
      requires Valid()
      modifies this`acks
      ensures Valid()
      ensures acks == old(acks) + [AckFields(corrId, acked)]
      ensures DecodeAck(acks[|acks| - 1]) == Some(AckRecord(corrId, acked))
    {
      acks := acks + [AckFields(corrId, acked)];
    }

    /**
     * `mqtt.publish`: a missing session throws a null-pointer error; a client that
     * is not connected, a QoS outside 0..2, or a transport that rejects the message
     * throws a publish error.
     */
    method Transmit(p: Publication, accepted: bool) returns (r: Outcome<Error>)
      modifies this`trace
      ensures r == if mqtt.None? then Fail(NullSession)
        else if IsConnected() && ValidQos(p.qos) && accepted then Pass else Fail(PublishError)
      ensures trace == old(trace) + (if r.Pass? then [Published(p)] else [])
    {
      if mqtt.None? {
        return Fail(NullSession);
      }
      if !mqtt.value.connected || !ValidQos(p.qos) || !accepted {
        return Fail(PublishError);
      }
      trace := trace + [Published(p)];
      r := Pass;
    }

    /** Publishes a field map as JSON to the message topic of `messageId`. */
    method SendMessage(messageId: int32, json: Fields, qos: int, retained: bool, accepted: bool)
      returns (r: Outcome<Error>)
      modifies this`trace
      ensures r == if mqtt.None? then Fail(NullSession)
        else if IsConnected() && ValidQos(qos) && accepted then Pass else Fail(PublishError)
      ensures trace == old(trace)
        + (if r.Pass? then [Published(Publication(MessageTopic(identity, messageId), Json(json), qos, retained))] else [])
    {
      r := Transmit(Publication(MessageTopic(identity, messageId), Json(json), qos, retained), accepted);
    }

    /** `publish(messageId, json)`: `SendMessage` with QoS 0, not retained. */
    method Publish(messageId: int32, json: Fields, accepted: bool) returns (r: Outcome<Error>)
      modifies this`trace
      ensures r == if mqtt.None? then Fail(NullSession) else if IsConnected() && accepted then Pass else Fail(PublishError)
      ensures trace == old(trace) + (if r.Pass? then [Published(MessagePublication(messageId, json))] else [])
    {
      r := SendMessage(messageId, json, PUBLISH_QOS, PUBLISH_RETAINED, accepted);
    }

    /** Publishes image bytes to the snapshot topic; a `/` in the camera id becomes `_`. */
    method SendPicture(cameraId: string, live: bool, format: string, data: seq<bv8>,
                       qos: int, retained: bool, accepted: bool) returns (r: Outcome<Error>)
      modifies this`trace
      ensures r == if mqtt.None? then Fail(NullSession)
        else if IsConnected() && ValidQos(qos) && accepted then Pass else Fail(PublishError)
      ensures trace == old(trace) + (if r.Pass? then
        [Published(Publication(SnapTopic(identity, SanitizeCameraId(cameraId), live, format), Binary(data), qos, retained))]
        else [])
    {
      var camera := cameraId;
      if '/' in camera {
        camera := ReplaceSlashes(camera);
      }
      var topic := SnapTopic(identity, camera, live, format);
      r := Transmit(Publication(topic, Binary(data), qos, retained), accepted);
    }

    /** Publishes video bytes to the stream topic; a `/` in the camera id becomes `_`. */
    method SendVideo(cameraId: string, live: bool, format: string, data: seq<bv8>,
                     qos: int, retained: bool, accepted: bool) returns (r: Outcome<Error>)
      modifies this`trace
      ensures r == if mqtt.None? then Fail(NullSession)
        else if IsConnected() && ValidQos(qos) && accepted then Pass else Fail(PublishError)
      ensures trace == old(trace) + (if r.Pass? then
        [Published(Publication(StreamTopic(identity, SanitizeCameraId(cameraId), live, format), Binary(data), qos, retained))]
        else [])
    {
      var camera := cameraId;
      if '/' in camera {
        camera := ReplaceSlashes(camera);
      }
      var topic := StreamTopic(identity, camera, live, format);
      r := Transmit(Publication(topic, Binary(data), qos, retained), accepted);
    }

    /**
     * One pass of the pinger loop. `now` is the clock at the heartbeat check,
     * `after` the clock once a publish has returned, `accepted` whether the
     * transport takes the publish. Publish failures, including a missing or
     * unconnected session, are swallowed. The new queue and `lastSent` are those of `Pinger.Step`.
     */
    method PingerStep(now: int64, after: int64, accepted: bool) returns (a: Pinger.Attempt)
      requires Valid()
      modifies this`acks, this`lastSent, this`trace
      ensures Valid()
      ensures (PingerState(), a)
        == Pinger.Step(old(PingerState()), heartbeat, Pinger.Tick(now, after, IsConnected() && accepted))
      ensures trace == old(trace) + AttemptEvents(a)
    {
      var adata: Option<Fields> := None;
      if acks != [] {
        adata := Some(acks[0]);
        acks := acks[1..];
      }
      if adata.Some? {
        var r := Publish(ackMessageId, adata.value, accepted);
        if r.Pass? {
          lastSent := after;
        }
        a := Pinger.AckAttempt(adata.value, r.Pass?);
      } else if LongSub(now, lastSent) >= heartbeat {
        var r := Publish(pingMessageId, PING_FIELDS, accepted);
        if r.Pass? {
          lastSent := after;
        }
        a := Pinger.PingAttempt(r.Pass?);
      } else {
        a := Pinger.NoAttempt;
      }
    }
  }

  /**
   * The acknowledgement scenario: right after a successful open, `acknowledge(42,
   * true)` is published on the pinger's next pass as an ACK carrying {42, 1},
   * before any PING; the PING comes on a later pass once the heartbeat is due.
   */
  method AckThenPingScenario(pingId: int32, ackId: int32, start: int64)
    requires pingId != ackId
    requires 0 <= start <= 1_000_000
  {
    var sender := new MqttSender("tcp://mqtt.example", 1000, "DOMAIN", "KEY", "cam", "RaspCAM", "1.0.0", pingId, ackId);
    var openResult := sender.Open(true, OpenAccepted);
    assert openResult == Pass && sender.IsConnected();
    sender.Acknowledge(42, true);
    assert sender.acks == [AckFields(42, true)] && sender.IsConnected();
    var first := sender.PingerStep(start, start, true);
    assert first == Pinger.AckAttempt(AckFields(42, true), true);
    assert DecodeAck(first.fields) == Some(AckRecord(42, true));
    assert sender.acks == [] && sender.lastSent == start && sender.IsConnected();
    ClockDifferenceExact(start + 500, start);
    var second := sender.PingerStep(start + 500, start + 500, true);
    assert second == Pinger.NoAttempt;
    assert sender.acks == [] && sender.lastSent == start && sender.IsConnected();
    ClockDifferenceExact(start + 1000, start);
    var third := sender.PingerStep(start + 1000, start + 1000, true);
    assert third == Pinger.PingAttempt(true);
  }

  /**
   * `close` on a connected session. The client library refuses to close a client
   * that has not been disconnected and `close` never disconnects, so closing
   * fails: the pinger is gone, yet the sender still reports itself connected, and
   * every later `close` fails the same way.
   */
  method CloseConnectedScenario(pingId: int32, ackId: int32)
    requires pingId != ackId
  {
    var sender := new MqttSender("tcp://mqtt.example", 1000, "DOMAIN", "KEY", "cam", "RaspCAM", "1.0.0", pingId, ackId);
    var openResult := sender.Open(true, OpenAccepted);
    var closed := sender.Close(false);
    assert closed == Fail(CloseError) && sender.worker == None && sender.IsConnected();
    var before := sender.trace;
    var again := sender.Close(false);
    assert again == Fail(CloseError) && sender.IsConnected() && sender.trace == before;
  }

  /**
   * The same open and close when the transport does allow closing a connected
   * client: the sender ends disconnected, and a second close changes nothing.
   */
  method OpenCloseScenario(pingId: int32, ackId: int32)
    requires pingId != ackId
  {
    var sender := new MqttSender("tcp://mqtt.example", 1000, "DOMAIN", "KEY", "cam", "RaspCAM", "1.0.0", pingId, ackId);
    var openResult := sender.Open(true, OpenAccepted);
    var closed := sender.Close(true);
    assert closed == Pass && !sender.IsConnected() && sender.worker == None;
    var before := sender.trace;
    var again := sender.Close(true);
    assert again == Pass && sender.trace == before && sender.mqtt == None;
  }

  /**
   * Reopening after a successful open: a refused subscribe submits no new pinger
   * but keeps the earlier worker handle, with the session connected. After a
   * refused connect the sender holds a session that is not connected, and a
   * publish on it fails even when the transport would take it.
   */
  method ReopenScenario(pingId: int32, ackId: int32)
    requires pingId != ackId
  {
    var sender := new MqttSender("tcp://mqtt.example", 1000, "DOMAIN", "KEY", "cam", "RaspCAM", "1.0.0", pingId, ackId);
    var first := sender.Open(true, OpenAccepted);
    var second := sender.Open(true, SubscribeRefused);
    assert second == Fail(SubscribeError) && sender.IsConnected() && sender.worker == Some(PingerFuture);
    var third := sender.Open(true, ConnectRefused);
    assert third == Fail(ConnectError) && !sender.IsConnected();
    var before := sender.trace;
    var sent := sender.Publish(7, map[], true);
    assert sent == Fail(PublishError) && sender.trace == before;
  }
}
