/**
 * What the topic scheme keeps apart, read off the segments of the topics:
 * commands and messages, messages of different ids or devices, snapshots and
 * streams, live and offline media; and what it does not keep apart: camera ids
 * that differ only in `/` against `_`.
 */
module TopicPaths {
  import Decimal
  import opened JavaTypes
  import opened Paths
  import opened Topics

  /** Message topics never collide: the topic determines the whole identity and the message id. */
  lemma MessageTopicInjective(id1: Identity, m1: int32, id2: Identity, m2: int32)
    requires WellFormed(id1) && WellFormed(id2)
    requires MessageTopic(id1, m1) == MessageTopic(id2, m2)
    ensures id1 == id2 && m1 == m2
  {
    var p1, p2 := MessagePrefix(id1, m1), MessagePrefix(id2, m2);
    var s := Segments(MessageTopic(id1, m1));
    assert s[..7] == p1 && s[..7] == p2;
    assert p1[5] == Decimal.Format(m1 as int) && p2[5] == Decimal.Format(m2 as int);
    Decimal.FormatInjective(m1 as int, m2 as int);
    assert p1[1] == id1.domainKey && p1[3] == id1.deviceId && p1[6] == id1.deviceModel;
    assert p2[1] == id2.domainKey && p2[3] == id2.deviceId && p2[6] == id2.deviceModel;
    PathCancel(p1, id1.firmwareVersion, id2.firmwareVersion);
  }

  /** The command topic is never a message topic, so inbound and outbound traffic stay apart. */
  lemma DeviceTopicIsNoMessageTopic(id1: Identity, id2: Identity, messageId: int32)
    requires DeviceSafe(id1) && WellFormed(id2)
    ensures DeviceTopic(id1) != MessageTopic(id2, messageId)
  {
    assert |Segments(DeviceTopic(id1))| == 5;
    assert |Segments(MessageTopic(id2, messageId))| >= 8;
  }

  /**
   * A snapshot topic built from any camera id, once sanitised, reads back as:
   * "", domain key, "device", device id, "snap", "live" or "offline", the
   * sanitised camera id as ONE segment, then the segments of the format.
   */
  lemma SnapTopicSegments(id: Identity, cameraId: string, live: bool, format: string)
    requires DeviceSafe(id)
    ensures Segments(SnapTopic(id, SanitizeCameraId(cameraId), live, format))
      == MediaPrefix(id, "snap", live, SanitizeCameraId(cameraId)) + Segments(format)
  {
  }

  /** The same for a stream topic, whose fifth segment is "stream". */
  lemma StreamTopicSegments(id: Identity, cameraId: string, live: bool, format: string)
    requires DeviceSafe(id)
    ensures Segments(StreamTopic(id, SanitizeCameraId(cameraId), live, format))
      == MediaPrefix(id, "stream", live, SanitizeCameraId(cameraId)) + Segments(format)
  {
  }

  /** Snapshots and streams never share a topic, nor do live and offline media. */
  lemma MediaTopicsDistinct(id: Identity, c1: string, l1: bool, f1: string, c2: string, l2: bool, f2: string)
    requires DeviceSafe(id)
    ensures SnapTopic(id, SanitizeCameraId(c1), l1, f1) != StreamTopic(id, SanitizeCameraId(c2), l2, f2)
    ensures l1 != l2 ==>
      SnapTopic(id, SanitizeCameraId(c1), l1, f1) != SnapTopic(id, SanitizeCameraId(c2), l2, f2)
    ensures l1 != l2 ==>
      StreamTopic(id, SanitizeCameraId(c1), l1, f1) != StreamTopic(id, SanitizeCameraId(c2), l2, f2)
  {
    var s1 := Segments(SnapTopic(id, SanitizeCameraId(c1), l1, f1));
    var s2 := Segments(StreamTopic(id, SanitizeCameraId(c2), l2, f2));
    var s3 := Segments(SnapTopic(id, SanitizeCameraId(c2), l2, f2));
    var s4 := Segments(StreamTopic(id, SanitizeCameraId(c1), l1, f1));
    assert s1[4] == "snap" && s2[4] == "stream";
    assert s1[5] == LiveSegment(l1) && s3[5] == LiveSegment(l2);
    assert s4[5] == LiveSegment(l1) && s2[5] == LiveSegment(l2);
  }

  /** Different camera ids that sanitise differently land on different topics. */
  lemma SnapTopicSeparatesCameras(id: Identity, c1: string, c2: string, live: bool, format: string)
    requires DeviceSafe(id)
    requires SanitizeCameraId(c1) != SanitizeCameraId(c2)
    ensures SnapTopic(id, SanitizeCameraId(c1), live, format) != SnapTopic(id, SanitizeCameraId(c2), live, format)
  {
    var s1 := Segments(SnapTopic(id, SanitizeCameraId(c1), live, format));
    var s2 := Segments(SnapTopic(id, SanitizeCameraId(c2), live, format));
    assert s1[6] == SanitizeCameraId(c1) && s2[6] == SanitizeCameraId(c2);
  }

  /**
   * Sanitising is not injective: every camera id holding a `/` shares its
   * snapshot and stream topics with a different camera id, the one with `_` in
   * place of each `/` (the cameras "a/b" and "a_b", for instance).
   */
  lemma SanitizeMergesCameraIds(id: Identity, cameraId: string, live: bool, format: string)
    requires '/' in cameraId
    ensures ReplaceSlashes(cameraId) != cameraId
    ensures SnapTopic(id, SanitizeCameraId(cameraId), live, format)
      == SnapTopic(id, SanitizeCameraId(ReplaceSlashes(cameraId)), live, format)
    ensures StreamTopic(id, SanitizeCameraId(cameraId), live, format)
      == StreamTopic(id, SanitizeCameraId(ReplaceSlashes(cameraId)), live, format)
  {
    var other := ReplaceSlashes(cameraId);
    var i :| 0 <= i < |cameraId| && cameraId[i] == '/';
    assert other[i] == '_';
    assert '/' !in other by {
      forall j | 0 <= j < |other| ensures other[j] != '/' {
      }
    }
    assert SanitizeCameraId(cameraId) == other;
    assert SanitizeCameraId(other) == other;
  }
}
