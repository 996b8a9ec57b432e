/**
 * The identity of a device, the credentials derived from it, and the topics
 * the sender subscribes and publishes to.
 */
module Topics {
  import Decimal
  import opened JavaTypes
  import opened Paths

  /** The identity fields the publisher base class holds; fixed for the sender's lifetime. */
  datatype Identity = Identity(
    domainKey: string,
    deviceId: string,
    deviceModel: string,
    firmwareVersion: string)

  const CREDENTIAL_PREFIX: string := "DEV_"

  /**
   * `String.format("DEV_%s", name)`: the MQTT client id is the credential of the
   * device id, the user name that of the domain key. The name follows the prefix
   * unchanged, so it can be read back.
   */
  function Credential(name: string): (r: string)
    ensures |r| == |CREDENTIAL_PREFIX| + |name|
    ensures r[..|CREDENTIAL_PREFIX|] == CREDENTIAL_PREFIX
    ensures r[|CREDENTIAL_PREFIX|..] == name
  {
    CREDENTIAL_PREFIX + name
  }

  /** Two different names never share a credential. */
  lemma CredentialInjective(a: string, b: string)
    requires Credential(a) == Credential(b)
    ensures a == b
  {
    assert a == Credential(a)[|CREDENTIAL_PREFIX|..];
  }

  /** The `{live|offline}` segment of a media topic. */
  function LiveSegment(live: bool): (r: string)
    ensures r == "live" || r == "offline"
    ensures r == "live" <==> live
  {
    if live then "live" else "offline"
  }

  /** The domain key and the device id, which open every topic, hold no separator. */
  predicate DeviceSafe(id: Identity) {
    SegmentSafe(id.domainKey) && SegmentSafe(id.deviceId)
  }

  /** In addition the device model, which sits inside every message topic, holds none. */
  predicate WellFormed(id: Identity) {
    DeviceSafe(id) && SegmentSafe(id.deviceModel)
  }

  /** The first four segments of every topic: "", domain key, "device", device id. */
  function DevicePrefix(id: Identity): seq<string> {
    ["", id.domainKey, "device", id.deviceId]
  }

  function MessagePrefix(id: Identity, messageId: int32): seq<string> {
    DevicePrefix(id) + ["msgs", Decimal.Format(messageId as int), id.deviceModel]
  }

  function MediaPrefix(id: Identity, kind: string, live: bool, cameraId: string): seq<string> {
    DevicePrefix(id) + [kind, LiveSegment(live), cameraId]
  }

  lemma PathOfDevicePrefix(id: Identity, tail: seq<string>, last: string)
    ensures Path(DevicePrefix(id) + tail, last)
      == "/" + id.domainKey + "/device/" + id.deviceId + "/" + Path(tail, last)
  {
    var p := DevicePrefix(id) + tail;
    var rest := Path(tail, last);
    var p1, p2, p3 := p[1..], p[1..][1..], p[1..][1..][1..];
    assert p[0] == "" && p1[0] == id.domainKey && p2[0] == "device" && p3[0] == id.deviceId;
    assert p3[1..] == tail;
    assert Path(p3, last) == id.deviceId + "/" + rest;
    assert Path(p2, last) == "device" + "/" + Path(p3, last);
    assert Path(p1, last) == id.domainKey + "/" + Path(p2, last);
    calc {
      Path(p, last);
      "" + "/" + (id.domainKey + "/" + ("device" + "/" + (id.deviceId + "/" + rest)));
      "/" + id.domainKey + "/device/" + id.deviceId + "/" + rest;
    }
  }

  /**
   * A seven-segment topic template, written as the source writes it (with the
   * `kind` segment and its separators as one literal), is the path of its segments.
   */
  lemma TemplateIsPath(id: Identity, kind: string, kindLiteral: string, x: string, y: string, last: string)
    requires kindLiteral == "/" + kind + "/"
    ensures "/" + id.domainKey + "/device/" + id.deviceId + kindLiteral + x + "/" + y + "/" + last
      == Path(DevicePrefix(id) + [kind, x, y], last)
  {
    PathOfDevicePrefix(id, [kind, x, y], last);
    PathOfThree(kind, x, y, last);
  }

  /**
   * `/{domainKey}/device/{deviceId}/cmds`: the one topic the device subscribes to.
   * It is the path of five segments "", domain key, "device", device id, "cmds",
   * and splits back into exactly those.
   */
  function DeviceTopic(id: Identity): (r: string)
    ensures r == Path(DevicePrefix(id), "cmds")
    ensures DeviceSafe(id) ==> Segments(r) == DevicePrefix(id) + ["cmds"]
  {
    var topic := "/" + id.domainKey + "/device/" + id.deviceId + "/cmds";
    PathOfDevicePrefix(id, [], "cmds");
    assert DevicePrefix(id) + [] == DevicePrefix(id);
    assert "/" + "cmds" == "/cmds";
    if DeviceSafe(id) then
      SegmentsOfPath(DevicePrefix(id), "cmds");
      SegmentsOfSafe("cmds");
      topic
    else
      topic
  }

  /**
   * `/{domainKey}/device/{deviceId}/msgs/{messageId}/{deviceModel}/{firmwareVersion}`:
   * seven leading segments, the message id in decimal among them, then the
   * firmware version.
   */
  function MessageTopic(id: Identity, messageId: int32): (r: string)
    ensures r == Path(MessagePrefix(id, messageId), id.firmwareVersion)
    ensures WellFormed(id) ==> Segments(r) == MessagePrefix(id, messageId) + Segments(id.firmwareVersion)
  {
    var digits := Decimal.Format(messageId as int);
    var topic := "/" + id.domainKey + "/device/" + id.deviceId + "/msgs/" + digits
      + "/" + id.deviceModel + "/" + id.firmwareVersion;
    TemplateIsPath(id, "msgs", "/msgs/", digits, id.deviceModel, id.firmwareVersion);
    if WellFormed(id) then
      SegmentsOfPath(MessagePrefix(id, messageId), id.firmwareVersion);
      topic
    else
      topic
  }

  /**
   * `/{domainKey}/device/{deviceId}/snap/{live|offline}/{cameraId}/{format}`: a
   * camera id without `/` is the seventh segment, after "snap" and the live segment.
   */
  function SnapTopic(id: Identity, cameraId: string, live: bool, format: string): (r: string)
    ensures r == Path(MediaPrefix(id, "snap", live, cameraId), format)
    ensures DeviceSafe(id) && SegmentSafe(cameraId) ==>
      Segments(r) == MediaPrefix(id, "snap", live, cameraId) + Segments(format)
  {
    var topic := "/" + id.domainKey + "/device/" + id.deviceId + "/snap/" + LiveSegment(live)
      + "/" + cameraId + "/" + format;
    TemplateIsPath(id, "snap", "/snap/", LiveSegment(live), cameraId, format);
    if DeviceSafe(id) && SegmentSafe(cameraId) then
      SegmentsOfPath(MediaPrefix(id, "snap", live, cameraId), format);
      topic
    else
      topic
  }

  /**
   * `/{domainKey}/device/{deviceId}/stream/{live|offline}/{cameraId}/{format}`: the
   * snapshot layout with "stream" as the fifth segment.
   */
  function StreamTopic(id: Identity, cameraId: string, live: bool, format: string): (r: string)
    ensures r == Path(MediaPrefix(id, "stream", live, cameraId), format)
    ensures DeviceSafe(id) && SegmentSafe(cameraId) ==>
      Segments(r) == MediaPrefix(id, "stream", live, cameraId) + Segments(format)
  {
    var topic := "/" + id.domainKey + "/device/" + id.deviceId + "/stream/" + LiveSegment(live)
      + "/" + cameraId + "/" + format;
    TemplateIsPath(id, "stream", "/stream/", LiveSegment(live), cameraId, format);
    if DeviceSafe(id) && SegmentSafe(cameraId) then
      SegmentsOfPath(MediaPrefix(id, "stream", live, cameraId), format);
      topic
    else
      topic
  }

  /** `s.replaceAll("/", "_")`: every path separator becomes an underscore. */
  function ReplaceSlashes(s: string): (r: string)
    ensures |r| == |s|
    ensures forall i :: 0 <= i < |s| ==> r[i] == (if s[i] == '/' then '_' else s[i])
  {
    if s == [] then []
    else [if s[0] == '/' then '_' else s[0]] + ReplaceSlashes(s[1..])
  }

  /**
   * The camera id as `sendPicture` and `sendVideo` put it into a topic: rewritten
   * only when it holds a `/`. The result is one path segment of the same length,
   * with `_` exactly where the input had `/`, and the input itself when it had none.
   */
  function SanitizeCameraId(cameraId: string): (r: string)
    ensures |r| == |cameraId|
    ensures '/' !in r
    ensures forall i :: 0 <= i < |cameraId| ==>
      r[i] == (if cameraId[i] == '/' then '_' else cameraId[i])
    ensures '/' !in cameraId ==> r == cameraId
  {
    if '/' in cameraId then ReplaceSlashes(cameraId) else cameraId
  }

  /** Sanitising twice changes nothing more. */
  lemma SanitizeIdempotent(cameraId: string)
    ensures SanitizeCameraId(SanitizeCameraId(cameraId)) == SanitizeCameraId(cameraId)
  {
  }
}
