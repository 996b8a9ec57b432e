/**
 * Message payloads as the sender builds them, before JSON serialisation:
 * a map from field names to values, and the acknowledgement record.
 */
module Messages {
  import opened Wrappers
  import opened JavaTypes

  /**
   * A field name. `CorrelationId` and `Ack` stand for the publisher base class's
   * constants P_CORRELATION_ID and P_ACK: two distinct names whose spelling is not
   * part of this model. Application fields use `Name`.
   */
  datatype Key = CorrelationId | Ack | Name(text: string)

  /** A field value: a boxed `Long`, a boxed `Integer`, or any other value as text. */
  datatype Value = Long(longValue: int64) | Int(intValue: int32) | Text(textValue: string)

  /** A `Map<String, Object>` handed to `sendMessage`. */
  type Fields = map<Key, Value>

  /** An acknowledgement of an inbound command. */
  datatype AckRecord = AckRecord(correlationId: int64, acked: bool)

  /** The fields of a `PING` message: an empty map. */
  const PING_FIELDS: Fields := map[]

  /**
   * The map `acknowledge(corrId, acked)` queues: the correlation id as a `Long`
   * and the ack flag as the `Integer` 1 or 0. Exactly these two fields, and they
   * decode back to the record they were built from.
   */
  function AckFields(corrId: int64, acked: bool): (f: Fields)
    ensures f.Keys == {CorrelationId, Ack}
    ensures DecodeAck(f) == Some(AckRecord(corrId, acked))
  {
    map[CorrelationId := Long(corrId), Ack := Int(if acked then 1 else 0)]
  }

  /** Reads an acknowledgement back out of a field map, as the platform would. */
  function DecodeAck(f: Fields): Option<AckRecord> {
    if && f.Keys == {CorrelationId, Ack}
       && f[CorrelationId].Long?
       && f[Ack].Int? && (f[Ack].intValue == 0 || f[Ack].intValue == 1)
    then Some(AckRecord(f[CorrelationId].longValue, f[Ack].intValue == 1))
    else None
  }

  /** A map decodes as an acknowledgement only if `AckFields` built it. */
  lemma DecodeAckOnlyAckFields(f: Fields, r: AckRecord)
    requires DecodeAck(f) == Some(r)
    ensures f == AckFields(r.correlationId, r.acked)
  {
    var g := AckFields(r.correlationId, r.acked);
    assert f.Keys == g.Keys;
    assert f[Ack] == g[Ack];
  }

  /** A ping carries no fields, so it can never be mistaken for an acknowledgement. */
  lemma PingIsNotAnAck()
    ensures DecodeAck(PING_FIELDS).None?
  {
    assert CorrelationId !in PING_FIELDS;
  }
}
