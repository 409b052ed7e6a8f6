/** The SMS validation record and its Avro codec (sms-cdr-avro.h). */
module SmsCdrs {
  import opened Bytes
  import opened Avro

  datatype SmsRecord = SmsRecord(
    originationImsi: int64, originationMsisdn: seq<byte>, destinationMsisdn: seq<byte>, oaflags: int32,
    daflags: int32, referenceNum: int32, totalParts: int32, partNumber: int32, servingMSC: seq<byte>,
    validationTime: int64, validationRes: int32, responseSendSuccess: bool)

  const FIELD_COUNT := 12

  const SCHEMA: seq<FieldType> := [
    LongType, StringType, StringType, IntType, IntType, IntType, IntType, IntType, StringType, LongType,
    IntType, BoolType]

  function Fields(r: SmsRecord): seq<Value> {
    [Long(r.originationImsi), Str(r.originationMsisdn), Str(r.destinationMsisdn), Int(r.oaflags),
     Int(r.daflags), Int(r.referenceNum), Int(r.totalParts), Int(r.partNumber), Str(r.servingMSC),
     Long(r.validationTime), Int(r.validationRes), Bool(r.responseSendSuccess)]
  }

  /** Strings are no longer than their length prefix can say. */
  predicate Encodable(r: SmsRecord)
    ensures Encodable(r) ==> Conforms(Fields(r), SCHEMA)
  {
    && |r.originationMsisdn| < 0x8000_0000_0000_0000
    && |r.destinationMsisdn| < 0x8000_0000_0000_0000
    && |r.servingMSC| < 0x8000_0000_0000_0000
  }

  function Encoded(r: SmsRecord): seq<byte> {
    RecordBytes(Fields(r))
  }

  function Prefixed(s: seq<byte>): seq<byte>
    requires |s| < 0x8000_0000_0000_0000
  {
    LongBytes(|s|) + s
  }

  /** The bytes of a record: its fields in the order of the schema, texts behind their lengths. */
  lemma EncodedMeans(r: SmsRecord)
    requires Encodable(r)
    ensures Encoded(r)
         == LongBytes(r.originationImsi) + Prefixed(r.originationMsisdn) + Prefixed(r.destinationMsisdn)
            + LongBytes(r.oaflags) + LongBytes(r.daflags) + LongBytes(r.referenceNum) + LongBytes(r.totalParts)
            + LongBytes(r.partNumber) + Prefixed(r.servingMSC) + LongBytes(r.validationTime)
            + LongBytes(r.validationRes) + [if r.responseSendSuccess then 1 else 0]
  {
    var rec := Fields(r);
    assert rec[11] == Bool(r.responseSendSuccess);
    RecordIs(rec);
    WrittenSteps(rec);
    ValueBytesMean(r.originationImsi, r.oaflags, r.originationMsisdn, r.responseSendSuccess);
    ValueBytesMean(r.validationTime, r.daflags, r.destinationMsisdn, false);
    ValueBytesMean(0, r.referenceNum, r.servingMSC, true);
    ValueBytesMean(0, r.totalParts, [], true);
    ValueBytesMean(0, r.partNumber, [], true);
    ValueBytesMean(0, r.validationRes, [], true);
    hide LongBytes, ValueBytes, RecordBytes, Written;
    assert [] + LongBytes(r.originationImsi) == LongBytes(r.originationImsi);
  }

  lemma WrittenSteps(rec: seq<Value>)
    requires |rec| == 12
    ensures Written([], rec, 12)
         == [] + ValueBytes(rec[0]) + ValueBytes(rec[1]) + ValueBytes(rec[2]) + ValueBytes(rec[3])
            + ValueBytes(rec[4]) + ValueBytes(rec[5]) + ValueBytes(rec[6]) + ValueBytes(rec[7])
            + ValueBytes(rec[8]) + ValueBytes(rec[9]) + ValueBytes(rec[10]) + ValueBytes(rec[11])
  {
    hide *;
    WrittenNext([], rec, 0);
    WrittenNext([], rec, 1);
    WrittenNext([], rec, 2);
    WrittenNext([], rec, 3);
    WrittenNext([], rec, 4);
    WrittenNext([], rec, 5);
    WrittenNext([], rec, 6);
    WrittenNext([], rec, 7);
    WrittenNext([], rec, 8);
    WrittenNext([], rec, 9);
    WrittenNext([], rec, 10);
    WrittenNext([], rec, 11);
    WrittenNext([], rec, 12);
  }

  /** Decoding an encoded record, into any previous contents and whatever follows it. */
  lemma RoundTrip(r: SmsRecord, old': SmsRecord, rest: seq<byte>)
    requires Encodable(r) && Encodable(old')
    ensures ReadFields(SCHEMA, SchemaOrder(FIELD_COUNT), Fields(old'), Encoded(r) + rest) == Some((Fields(r), rest))
  {
    RecordRoundTrip(Fields(r), Fields(old'), SCHEMA, rest);
  }

  /** Data written in any resolver order that covers the schema gives the same record. */
  lemma FieldOrderRoundTrip(r: SmsRecord, old': SmsRecord, order: seq<nat>, rest: seq<byte>)
    requires Encodable(r) && Encodable(old') && Covers(order, FIELD_COUNT)
    ensures ReadFields(SCHEMA, order, Fields(old'), WriteFields(Fields(r), order) + rest)
         == Some((Fields(r), rest))
  {
    AnyOrderRoundTrip(Fields(r), Fields(old'), SCHEMA, order, rest);
  }

  /** `r` with field `i` assigned. */
  function WithField(r: SmsRecord, i: nat, v: Value): SmsRecord
    requires i < FIELD_COUNT && HasType(v, SCHEMA[i])
  {
    match i
    case 0 => r.(originationImsi := v.n)
    case 1 => r.(originationMsisdn := v.str)
    case 2 => r.(destinationMsisdn := v.str)
    case 3 => r.(oaflags := v.i)
    case 4 => r.(daflags := v.i)
    case 5 => r.(referenceNum := v.i)
    case 6 => r.(totalParts := v.i)
    case 7 => r.(partNumber := v.i)
    case 8 => r.(servingMSC := v.str)
    case 9 => r.(validationTime := v.n)
    case 10 => r.(validationRes := v.i)
    case _ => r.(responseSendSuccess := v.flag)
  }

  lemma WithFieldUpdates(r: SmsRecord, i: nat, v: Value)
    requires i < FIELD_COUNT && HasType(v, SCHEMA[i])
    ensures Fields(WithField(r, i, v)) == Fields(r)[i := v]
  {
  }

  class SmsCdr {
    var originationImsi: int64
    var originationMsisdn: seq<byte>
    var destinationMsisdn: seq<byte>
    var oaflags: int32
    var daflags: int32
    var referenceNum: int32
    var totalParts: int32
    var partNumber: int32
    var servingMSC: seq<byte>
    var validationTime: int64
    var validationRes: int32
    var responseSendSuccess: bool

    function View(): SmsRecord
      reads this
    {
      SmsRecord(originationImsi, originationMsisdn, destinationMsisdn, oaflags, daflags, referenceNum, totalParts,
        partNumber, servingMSC, validationTime, validationRes, responseSendSuccess)
    }

    constructor ()
      ensures View() == SmsRecord(0, [], [], 0, 0, 0, 0, 0, [], 0, 0, false)
    {
      originationImsi := 0;
      originationMsisdn := [];
      destinationMsisdn := [];
      oaflags := 0;
      daflags := 0;
      referenceNum := 0;
      totalParts := 0;
      partNumber := 0;
      servingMSC := [];
      validationTime := 0;
      validationRes := 0;
      responseSendSuccess := false;
    }

    method Encode(e: Encoder)
      modifies e
      ensures e.out == old(e.out) + Encoded(View())
    {
      hide LongBytes, SchemaOrder;
      ghost var start, rec := e.out, Fields(View());
      WrittenIs(start, rec, FIELD_COUNT);
      e.EncodeLong(originationImsi);
      assert e.out == Written(start, rec, 1);
      e.EncodeString(originationMsisdn);
      assert e.out == Written(start, rec, 2);
      e.EncodeString(destinationMsisdn);
      assert e.out == Written(start, rec, 3);
      e.EncodeLong(oaflags);
      assert e.out == Written(start, rec, 4);
      e.EncodeLong(daflags);
      assert e.out == Written(start, rec, 5);
      e.EncodeLong(referenceNum);
      assert e.out == Written(start, rec, 6);
      e.EncodeLong(totalParts);
      assert e.out == Written(start, rec, 7);
      e.EncodeLong(partNumber);
      assert e.out == Written(start, rec, 8);
      e.EncodeString(servingMSC);
      assert e.out == Written(start, rec, 9);
      e.EncodeLong(validationTime);
      assert e.out == Written(start, rec, 10);
      e.EncodeLong(validationRes);
      assert e.out == Written(start, rec, 11);
      e.EncodeBool(responseSendSuccess);
      assert e.out == Written(start, rec, 12);
    }

    /** One case of the switch over field indices. */
    method DecodeField(d: Decoder, i: nat) returns (ok: bool)
      modifies this, d
      ensures i >= FIELD_COUNT ==> ok && View() == old(View()) && d.input == old(d.input)
      ensures i < FIELD_COUNT ==>
                match ReadValue(SCHEMA[i], old(d.input))
                case None => !ok
                case Some((v, rest)) => ok && View() == WithField(old(View()), i, v) && d.input == rest
    {
      ok := true;
      match i {
        case 0 =>
          var v; ok, v := d.DecodeLong();
          if ok { originationImsi := v; }
        case 1 =>
          var v; ok, v := d.DecodeString();
          if ok { originationMsisdn := v; }
        case 2 =>
          var v; ok, v := d.DecodeString();
          if ok { destinationMsisdn := v; }
        case 3 =>
          var v; ok, v := d.DecodeInt();
          if ok { oaflags := v; }
        case 4 =>
          var v; ok, v := d.DecodeInt();
          if ok { daflags := v; }
        case 5 =>
          var v; ok, v := d.DecodeInt();
          if ok { referenceNum := v; }
        case 6 =>
          var v; ok, v := d.DecodeInt();
          if ok { totalParts := v; }
        case 7 =>
          var v; ok, v := d.DecodeInt();
          if ok { partNumber := v; }
        case 8 =>
          var v; ok, v := d.DecodeString();
          if ok { servingMSC := v; }
        case 9 =>
          var v; ok, v := d.DecodeLong();
          if ok { validationTime := v; }
        case 10 =>
          var v; ok, v := d.DecodeInt();
          if ok { validationRes := v; }
        case 11 =>
          var v; ok, v := d.DecodeBool();
          if ok { responseSendSuccess := v; }
        case _ =>
      }
    }

    /** `order` is the field order of a resolving decoder; without one the schema order is read. */
    method Decode(d: Decoder, order: Option<seq<nat>>) returns (ok: bool)
      requires Encodable(View())
      modifies this, d
      ensures match ReadFields(SCHEMA, if order.Some? then order.value else SchemaOrder(FIELD_COUNT),
                               old(Fields(View())), old(d.input))
              case None => !ok
              case Some((rec, rest)) => ok && Fields(View()) == rec && d.input == rest
    {
      var fo := if order.Some? then order.value else SchemaOrder(FIELD_COUNT);
      assert fo[0..] == fo;
      for k := 0 to |fo|
        invariant Conforms(Fields(View()), SCHEMA)
        invariant ReadFields(SCHEMA, fo[k..], Fields(View()), d.input)
               == ReadFields(SCHEMA, fo, old(Fields(View())), old(d.input))
      {
        assert fo[k..][1..] == fo[k + 1..];
        ghost var before := View();
        ghost var bs := d.input;
        ok := DecodeField(d, fo[k]);
        if !ok {
          return;
        }
        if fo[k] < FIELD_COUNT {
          WithFieldUpdates(before, fo[k], ReadValue(SCHEMA[fo[k]], bs).value.0);
        }
      }
      ok := true;
    }
  }
}
