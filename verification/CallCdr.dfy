/** The call detail record and its Avro codec (camel-avro.h). */
module CallCdrs {
  import opened Bytes
  import opened Avro

  datatype CallRecord = CallRecord(
    imsi: int64, callingPartyNumber: int64, calledPartyNumber: int64, startTime: int64, finishTime: int64,
    totalDurationSeconds: int32, quotaResult: int32)

  const FIELD_COUNT := 7

  const SCHEMA: seq<FieldType> := [
    LongType, LongType, LongType, LongType, LongType, IntType, IntType]

  function Fields(r: CallRecord): seq<Value> {
    [Long(r.imsi), Long(r.callingPartyNumber), Long(r.calledPartyNumber), Long(r.startTime),
     Long(r.finishTime), Int(r.totalDurationSeconds), Int(r.quotaResult)]
  }

  function Encoded(r: CallRecord): seq<byte> {
    RecordBytes(Fields(r))
  }

  /** The bytes of a record: its fields in the order of the schema. */
  lemma EncodedMeans(r: CallRecord)
    ensures Encoded(r)
         == LongBytes(r.imsi) + LongBytes(r.callingPartyNumber) + LongBytes(r.calledPartyNumber)
            + LongBytes(r.startTime) + LongBytes(r.finishTime) + LongBytes(r.totalDurationSeconds)
            + LongBytes(r.quotaResult)
  {
    var rec := Fields(r);
    RecordIs(rec);
    WrittenSteps(rec);
    ValueBytesMean(r.imsi, r.totalDurationSeconds, [], true);
    ValueBytesMean(r.callingPartyNumber, r.quotaResult, [], true);
    ValueBytesMean(r.calledPartyNumber, 0, [], true);
    ValueBytesMean(r.startTime, 0, [], true);
    ValueBytesMean(r.finishTime, 0, [], true);
    hide LongBytes, ValueBytes, RecordBytes, Written;
    assert [] + LongBytes(r.imsi) == LongBytes(r.imsi);
  }

  lemma WrittenSteps(rec: seq<Value>)
    requires |rec| == 7
    ensures Written([], rec, 7)
         == [] + ValueBytes(rec[0]) + ValueBytes(rec[1]) + ValueBytes(rec[2]) + ValueBytes(rec[3])
            + ValueBytes(rec[4]) + ValueBytes(rec[5]) + ValueBytes(rec[6])
  {
    hide *;
    WrittenNext([], rec, 0);
    WrittenNext([], rec, 1);
    WrittenNext([], rec, 2);
    WrittenNext([], rec, 3);
    WrittenNext([], rec, 4);
    WrittenNext([], rec, 5);
    WrittenNext([], rec, 6);
    WrittenNext([], rec, 7);
  }

  /** Decoding an encoded record, into any previous contents and whatever follows it. */
  lemma RoundTrip(r: CallRecord, old': CallRecord, rest: seq<byte>)
    ensures ReadFields(SCHEMA, SchemaOrder(FIELD_COUNT), Fields(old'), Encoded(r) + rest) == Some((Fields(r), rest))
  {
    RecordRoundTrip(Fields(r), Fields(old'), SCHEMA, rest);
  }

  /** Data written in any resolver order that covers the schema gives the same record. */
  lemma FieldOrderRoundTrip(r: CallRecord, old': CallRecord, order: seq<nat>, rest: seq<byte>)
    requires Covers(order, FIELD_COUNT)
    ensures ReadFields(SCHEMA, order, Fields(old'), WriteFields(Fields(r), order) + rest)
         == Some((Fields(r), rest))
  {
    AnyOrderRoundTrip(Fields(r), Fields(old'), SCHEMA, order, rest);
  }

  /** `r` with field `i` assigned. */
  function WithField(r: CallRecord, i: nat, v: Value): CallRecord
    requires i < FIELD_COUNT && HasType(v, SCHEMA[i])
  {
    match i
    case 0 => r.(imsi := v.n)
    case 1 => r.(callingPartyNumber := v.n)
    case 2 => r.(calledPartyNumber := v.n)
    case 3 => r.(startTime := v.n)
    case 4 => r.(finishTime := v.n)
    case 5 => r.(totalDurationSeconds := v.i)
    case _ => r.(quotaResult := v.i)
  }

  lemma WithFieldUpdates(r: CallRecord, i: nat, v: Value)
    requires i < FIELD_COUNT && HasType(v, SCHEMA[i])
    ensures Fields(WithField(r, i, v)) == Fields(r)[i := v]
  {
  }

  class CallCdr {
    var imsi: int64
    var callingPartyNumber: int64
    var calledPartyNumber: int64
    var startTime: int64
    var finishTime: int64
    var totalDurationSeconds: int32
    var quotaResult: int32

    function View(): CallRecord
      reads this
    {
      CallRecord(imsi, callingPartyNumber, calledPartyNumber, startTime, finishTime, totalDurationSeconds, quotaResult)
    }

    constructor ()
      ensures View() == CallRecord(0, 0, 0, 0, 0, 0, 0)
    {
      imsi := 0;
      callingPartyNumber := 0;
      calledPartyNumber := 0;
      startTime := 0;
      finishTime := 0;
      totalDurationSeconds := 0;
      quotaResult := 0;
    }

    method Encode(e: Encoder)
      modifies e
      ensures e.out == old(e.out) + Encoded(View())
    {
      hide LongBytes, SchemaOrder;
      ghost var start, rec := e.out, Fields(View());
      WrittenIs(start, rec, FIELD_COUNT);
      e.EncodeLong(imsi);
      assert e.out == Written(start, rec, 1);
      e.EncodeLong(callingPartyNumber);
      assert e.out == Written(start, rec, 2);
      e.EncodeLong(calledPartyNumber);
      assert e.out == Written(start, rec, 3);
      e.EncodeLong(startTime);
      assert e.out == Written(start, rec, 4);
      e.EncodeLong(finishTime);
      assert e.out == Written(start, rec, 5);
      e.EncodeLong(totalDurationSeconds);
      assert e.out == Written(start, rec, 6);
      e.EncodeLong(quotaResult);
      assert e.out == Written(start, rec, 7);
    }

    /** One case of the switch over field indices. */
    method DecodeField(d: Decoder, i: nat) returns (ok: bool)
      modifies this, d
      ensures i >= FIELD_COUNT ==> ok && View() == old(View()) && d.input == old(d.input)
      ensures i < FIELD_COUNT ==>
                match ReadValue(SCHEMA[i], old(d.input))
                case None => !ok
                case Some((v, rest)) => ok && View() == WithField(old(View()), i, v) && d.input == rest
    {
      ok := true;
      match i {
        case 0 =>
          var v; ok, v := d.DecodeLong();
          if ok { imsi := v; }
        case 1 =>
          var v; ok, v := d.DecodeLong();
          if ok { callingPartyNumber := v; }
        case 2 =>
          var v; ok, v := d.DecodeLong();
          if ok { calledPartyNumber := v; }
        case 3 =>
          var v; ok, v := d.DecodeLong();
          if ok { startTime := v; }
        case 4 =>
          var v; ok, v := d.DecodeLong();
          if ok { finishTime := v; }
        case 5 =>
          var v; ok, v := d.DecodeInt();
          if ok { totalDurationSeconds := v; }
        case 6 =>
          var v; ok, v := d.DecodeInt();
          if ok { quotaResult := v; }
        case _ =>
      }
    }

    /** `order` is the field order of a resolving decoder; without one the schema order is read. */
    method Decode(d: Decoder, order: Option<seq<nat>>) returns (ok: bool)
      modifies this, d
      ensures match ReadFields(SCHEMA, if order.Some? then order.value else SchemaOrder(FIELD_COUNT),
                               old(Fields(View())), old(d.input))
              case None => !ok
              case Some((rec, rest)) => ok && Fields(View()) == rec && d.input == rest
    {
      var fo := if order.Some? then order.value else SchemaOrder(FIELD_COUNT);
      assert fo[0..] == fo;
      for k := 0 to |fo|
        invariant Conforms(Fields(View()), SCHEMA)
        invariant ReadFields(SCHEMA, fo[k..], Fields(View()), d.input)
               == ReadFields(SCHEMA, fo, old(Fields(View())), old(d.input))
      {
        assert fo[k..][1..] == fo[k + 1..];
        ghost var before := View();
        ghost var bs := d.input;
        ok := DecodeField(d, fo[k]);
        if !ok {
          return;
        }
        if fo[k] < FIELD_COUNT {
          WithFieldUpdates(before, fo[k], ReadValue(SCHEMA[fo[k]], bs).value.0);
        }
      }
      ok := true;
    }
  }
}
