/**
 Avro binary encoding of the types the CDR schemas use (Apache Avro Specification, "Binary Encoding"):
 zigzag variable-length integers, length-prefixed strings, one-byte booleans, and records written
 field after field. The functions are the specification; `Encoder` and `Decoder` are the streams.
 */
module Avro {
  import opened Bytes

  datatype FieldType = LongType | IntType | StringType | BoolType
  datatype Value = Long(n: int64) | Int(i: int32) | Str(str: seq<byte>) | Bool(flag: bool)

  const MAX_VARINT := 10

  predicate HasType(v: Value, t: FieldType) {
    match v
    case Long(_) => t.LongType?
    case Int(_) => t.IntType?
    case Str(s) => t.StringType? && |s| < 0x8000_0000_0000_0000
    case Bool(_) => t.BoolType?
  }

  // ---- primitives ----

  function ZigZag(v: int64): uint64 {
    if v >= 0 then 2 * v else -2 * v - 1
  }

  function UnZigZag(n: uint64): int64 {
    if n % 2 == 0 then n / 2 else -(n / 2) - 1
  }

  function VarBytes(n: nat): seq<byte> {
    if n < 128 then [n] else [128 + n % 128] + VarBytes(n / 128)
  }

  /** Reads at most `room` bytes of a variable-length number. */
  function ReadVar(bs: seq<byte>, room: nat): (r: Option<(nat, seq<byte>)>)
    ensures r.Some? ==> |r.value.1| < |bs|
  {
    if room == 0 || bs == [] then None
    else if bs[0] < 128 then Some((bs[0], bs[1..]))
    else
      match ReadVar(bs[1..], room - 1)
      case None => None
      case Some((n, rest)) => Some((bs[0] - 128 + 128 * n, rest))
  }

  function LongBytes(v: int64): seq<byte> {
    VarBytes(ZigZag(v))
  }

  /** Bits beyond the 64th are shifted out. */
  function ReadLong(bs: seq<byte>): (r: Option<(int64, seq<byte>)>)
    ensures r.Some? ==> |r.value.1| < |bs|
  {
    match ReadVar(bs, MAX_VARINT)
    case None => None
    case Some((n, rest)) => Some((UnZigZag(n % 0x1_0000_0000_0000_0000), rest))
  }

  function ValueBytes(v: Value): seq<byte> {
    match v
    case Long(n) => LongBytes(n)
    case Int(n) => LongBytes(n)
    case Str(s) => LongBytes(ToInt64(|s|)) + s
    case Bool(b) => [if b then 1 else 0]
  }

  function ReadValue(t: FieldType, bs: seq<byte>): (r: Option<(Value, seq<byte>)>)
    ensures r.Some? ==> HasType(r.value.0, t) && |r.value.1| < |bs|
  {
    match t
    case LongType =>
      (match ReadLong(bs)
       case None => None
       case Some((n, rest)) => Some((Long(n), rest)))
    case IntType =>
      (match ReadLong(bs)
       case None => None
       case Some((n, rest)) => if -0x8000_0000 <= n < 0x8000_0000 then Some((Int(n), rest)) else None)
    case StringType =>
      (match ReadLong(bs)
       case None => None
       case Some((n, rest)) => if 0 <= n <= |rest| then Some((Str(rest[..n]), rest[n..])) else None)
    case BoolType =>
      if bs == [] || bs[0] > 1 then None else Some((Bool(bs[0] == 1), bs[1..]))
  }

  lemma {:induction false} ReadVarBytes(n: nat, room: nat, rest: seq<byte>)
    requires |VarBytes(n)| <= room
    ensures ReadVar(VarBytes(n) + rest, room) == Some((n, rest))
  {
    var bs := VarBytes(n) + rest;
    if n < 128 {
      assert bs[1..] == rest;
    } else {
      ReadVarBytes(n / 128, room - 1, rest);
      assert bs[1..] == VarBytes(n / 128) + rest;
    }
  }

  function Pow128(k: nat): nat { if k == 0 then 1 else 128 * Pow128(k - 1) }

  lemma {:induction false} VarBytesLength(n: nat, k: nat)
    requires k > 0 && n < Pow128(k)
    ensures |VarBytes(n)| <= k
  {
    if n >= 128 {
      VarBytesLength(n / 128, k - 1);
    }
  }

  lemma Pow128Values()
    ensures Pow128(5) == 0x8_0000_0000
    ensures Pow128(10) == 0x40_0000_0000_0000_0000
  {
    assert Pow128(3) == 128 * Pow128(2) && Pow128(2) == 128 * Pow128(1);
    assert Pow128(5) == 128 * Pow128(4) && Pow128(4) == 128 * Pow128(3);
    assert Pow128(7) == 128 * Pow128(6) && Pow128(6) == 128 * Pow128(5);
    assert Pow128(9) == 128 * Pow128(8) && Pow128(8) == 128 * Pow128(7);
  }

  /** A long takes at most ten bytes, an int at most five. */
  lemma LongLength(v: int64)
    ensures |LongBytes(v)| <= 10
    ensures -0x8000_0000 <= v < 0x8000_0000 ==> |LongBytes(v)| <= 5
  {
    Pow128Values();
    VarBytesLength(ZigZag(v), 10);
    if -0x8000_0000 <= v < 0x8000_0000 {
      VarBytesLength(ZigZag(v), 5);
    }
  }

  /** The number whose groups of seven bits these are, the lowest first. */
  function Groups(bs: seq<byte>): nat {
    if bs == [] then 0 else bs[0] % 128 + 128 * Groups(bs[1..])
  }

  lemma {:induction false} VarGroups(n: nat)
    ensures var bs := VarBytes(n);
            && Groups(bs) == n && bs != [] && bs[|bs| - 1] < 128 && (|bs| > 1 ==> bs[|bs| - 1] != 0)
            && forall i :: 0 <= i < |bs| - 1 ==> bs[i] >= 128
  {
    if n < 128 {
      assert [n][1..] == [];
    } else {
      VarGroups(n / 128);
      assert VarBytes(n)[1..] == VarBytes(n / 128);
    }
  }

  /**
   A long is written in as few groups of seven bits as it takes, the lowest first, every byte but the last
   with its top bit set; 0, -1, 1, -2, 2 are counted 0, 1, 2, 3, 4.
   */
  lemma LongBytesMean(v: int64)
    ensures var bs := LongBytes(v);
            && Groups(bs) == (if v >= 0 then 2 * v as int else -2 * v as int - 1)
            && bs != [] && bs[|bs| - 1] < 128 && (|bs| > 1 ==> bs[|bs| - 1] != 0)
            && forall i :: 0 <= i < |bs| - 1 ==> bs[i] >= 128
    ensures LongBytes(0) == [0x00] && LongBytes(-1) == [0x01] && LongBytes(1) == [0x02] && LongBytes(-2) == [0x03]
    ensures LongBytes(-64) == [0x7F] && LongBytes(64) == [0x80, 0x01]
  {
    VarGroups(ZigZag(v));
  }

  /** A number can be read if and only if it ends within ten bytes. */
  lemma LongReadable(bs: seq<byte>)
    ensures ReadLong(bs).Some? <==> exists i :: 0 <= i < |bs| && i < 10 && bs[i] < 128
  {
    VarReadable(bs, 10);
    hide ReadVar;
  }

  lemma {:induction false} VarReadable(bs: seq<byte>, room: nat)
    ensures ReadVar(bs, room).Some? <==> exists i :: 0 <= i < |bs| && i < room && bs[i] < 128
  {
    if room > 0 && bs != [] && bs[0] >= 128 {
      VarReadable(bs[1..], room - 1);
      forall i | 0 <= i < |bs| && i < room && bs[i] < 128
        ensures exists j :: 0 <= j < |bs[1..]| && j < room - 1 && bs[1..][j] < 128
      {
        assert bs[1..][i - 1] == bs[i];
      }
      forall j | 0 <= j < |bs[1..]| && j < room - 1 && bs[1..][j] < 128
        ensures exists i :: 0 <= i < |bs| && i < room && bs[i] < 128
      {
        assert bs[j + 1] == bs[1..][j];
      }
    }
  }

  lemma ValueBytesMean(v: int64, i: int32, s: seq<byte>, b: bool)
    ensures ValueBytes(Long(v)) == LongBytes(v) && ValueBytes(Int(i)) == LongBytes(i)
    ensures |s| < 0x8000_0000_0000_0000 ==> ValueBytes(Str(s)) == LongBytes(|s|) + s
    ensures ValueBytes(Bool(false)) == [0] && ValueBytes(Bool(true)) == [1]
  {
  }

  /** A record is its fields one after another. */
  lemma RecordIs(rec: seq<Value>)
    ensures RecordBytes(rec) == Written([], rec, |rec|)
  {
    WrittenIs([], rec, |rec|);
    assert [] + RecordBytes(rec) == RecordBytes(rec);
  }

  lemma WrittenNext(start: seq<byte>, rec: seq<Value>, k: nat)
    requires k <= |rec|
    ensures k == 0 ==> Written(start, rec, k) == start
    ensures k > 0 ==> Written(start, rec, k) == Written(start, rec, k - 1) + ValueBytes(rec[k - 1])
  {
  }

  lemma LongRoundTrip(v: int64, rest: seq<byte>)
    ensures ReadLong(LongBytes(v) + rest) == Some((v, rest))
  {
    LongLength(v);
    ReadVarBytes(ZigZag(v), MAX_VARINT, rest);
  }

  lemma TextRoundTrip(s: seq<byte>, rest: seq<byte>)
    requires |s| < 0x8000_0000_0000_0000
    ensures ReadValue(StringType, ValueBytes(Str(s)) + rest) == Some((Str(s), rest))
  {
    LongRoundTrip(|s|, s + rest);
    hide LongBytes, ReadLong;
    assert ValueBytes(Str(s)) + rest == LongBytes(|s|) + (s + rest);
    assert (s + rest)[..|s|] == s && (s + rest)[|s|..] == rest;
  }

  lemma ValueRoundTrip(v: Value, t: FieldType, rest: seq<byte>)
    requires HasType(v, t)
    ensures ReadValue(t, ValueBytes(v) + rest) == Some((v, rest))
  {
    hide LongBytes, ReadLong;
    match v
    case Long(n) => LongRoundTrip(n, rest);
    case Int(n) => LongRoundTrip(n, rest);
    case Str(s) => TextRoundTrip(s, rest);
    case Bool(b) =>
      assert (ValueBytes(v) + rest)[1..] == rest;
  }

  // ---- records ----

  predicate Conforms(rec: seq<Value>, schema: seq<FieldType>) {
    |rec| == |schema| && forall i :: 0 <= i < |rec| ==> HasType(rec[i], schema[i])
  }

  /** The fields named by `order`, written one after another; an index outside the schema writes nothing. */
  function WriteFields(rec: seq<Value>, order: seq<nat>): seq<byte> {
    if order == [] then []
    else FieldBytes(rec, order[0]) + WriteFields(rec, order[1..])
  }

  /** Reads the fields named by `order` into `rec`; an index outside the schema reads nothing. */
  function ReadFields(schema: seq<FieldType>, order: seq<nat>, rec: seq<Value>, bs: seq<byte>)
    : (r: Option<(seq<Value>, seq<byte>)>)
    requires Conforms(rec, schema)
    ensures r.Some? ==> Conforms(r.value.0, schema)
    decreases |order|
  {
    if order == [] then Some((rec, bs))
    else if order[0] >= |schema| then ReadFields(schema, order[1..], rec, bs)
    else
      match ReadValue(schema[order[0]], bs)
      case None => None
      case Some((v, rest)) => ReadFields(schema, order[1..], rec[order[0] := v], rest)
  }

  function SchemaOrder(n: nat): (order: seq<nat>)
    ensures |order| == n && forall i :: 0 <= i < n ==> order[i] == i
  {
    seq(n, i => i)
  }

  function RecordBytes(rec: seq<Value>): seq<byte> {
    WriteFields(rec, SchemaOrder(|rec|))
  }

  lemma Associative(a: seq<byte>, b: seq<byte>, c: seq<byte>)
    ensures (a + b) + c == a + (b + c)
  {
  }

  function FieldBytes(rec: seq<Value>, i: nat): seq<byte> {
    if i < |rec| then ValueBytes(rec[i]) else []
  }

  lemma {:induction false} WriteFieldsAppend(rec: seq<Value>, order: seq<nat>, i: nat)
    ensures WriteFields(rec, order + [i])
         == WriteFields(rec, order) + FieldBytes(rec, i)
  {
    if order == [] {
      assert [i][1..] == [];
    } else {
      WriteFieldsAppend(rec, order[1..], i);
      assert (order + [i])[1..] == order[1..] + [i];
      Associative(FieldBytes(rec, order[0]), WriteFields(rec, order[1..]), FieldBytes(rec, i));
    }
  }

  /** What a stream holds after the first `k` fields were appended to `start`. */
  function Written(start: seq<byte>, rec: seq<Value>, k: nat): seq<byte>
    requires k <= |rec|
  {
    if k == 0 then start else Written(start, rec, k - 1) + ValueBytes(rec[k - 1])
  }

  lemma PrefixNext(rec: seq<Value>, k: nat)
    requires k < |rec|
    ensures WriteFields(rec, SchemaOrder(k + 1)) == WriteFields(rec, SchemaOrder(k)) + ValueBytes(rec[k])
  {
    assert SchemaOrder(k + 1) == SchemaOrder(k) + [k];
    WriteFieldsAppend(rec, SchemaOrder(k), k);
  }

  lemma {:induction false} WrittenIs(start: seq<byte>, rec: seq<Value>, k: nat)
    requires k <= |rec|
    ensures Written(start, rec, k) == start + WriteFields(rec, SchemaOrder(k))
  {
    if k > 0 {
      var j := k - 1;
      WrittenIs(start, rec, j);
      PrefixNext(rec, j);
      Associative(start, WriteFields(rec, SchemaOrder(j)), ValueBytes(rec[j]));
    }
  }

  /** `old` with exactly the fields named by `order` taken from `rec`. */
  function Visited(old': seq<Value>, rec: seq<Value>, order: seq<nat>): (r: seq<Value>)
    requires |old'| == |rec|
    ensures |r| == |rec|
  {
    seq(|rec|, i requires 0 <= i < |rec| => if i in order then rec[i] else old'[i])
  }

  lemma VisitedCons(old': seq<Value>, rec: seq<Value>, order: seq<nat>)
    requires |old'| == |rec| && order != []
    ensures Visited(old', rec, order)
         == Visited(if order[0] < |rec| then old'[order[0] := rec[order[0]]] else old', rec, order[1..])
  {
    assert order == [order[0]] + order[1..];
  }

  /** Whatever the order, reading what was written in that order sets exactly the fields it names. */
  lemma {:induction false} ReadWritten(rec: seq<Value>, old': seq<Value>, schema: seq<FieldType>,
                                       order: seq<nat>, rest: seq<byte>)
    requires Conforms(rec, schema) && Conforms(old', schema)
    ensures ReadFields(schema, order, old', WriteFields(rec, order) + rest)
         == Some((Visited(old', rec, order), rest))
    decreases |order|
  {
    if order == [] {
      assert Visited(old', rec, order) == old' && WriteFields(rec, order) + rest == rest;
    } else {
      var i, tail := order[0], WriteFields(rec, order[1..]) + rest;
      FirstField(rec, order, rest);
      VisitedCons(old', rec, order);
      hide *;
      ConformsAt(rec, schema);
      if i < |rec| {
        ValueRoundTrip(rec[i], schema[i], tail);
        UpdateConforms(rec, old', schema, i);
        ReadNext(schema, order, old', rec[i], ValueBytes(rec[i]) + tail, tail);
        ReadWritten(rec, old'[i := rec[i]], schema, order[1..], rest);
      } else {
        ConformsAt(old', schema);
        ReadWritten(rec, old', schema, order[1..], rest);
        SkipNext(schema, order, old', tail);
      }
    }
  }

  lemma FirstField(rec: seq<Value>, order: seq<nat>, rest: seq<byte>)
    requires order != []
    ensures var bs, tail := WriteFields(rec, order) + rest, WriteFields(rec, order[1..]) + rest;
            bs == if order[0] < |rec| then ValueBytes(rec[order[0]]) + tail else tail
  {
    hide ValueBytes;
    Associative(FieldBytes(rec, order[0]), WriteFields(rec, order[1..]), rest);
  }

  lemma ConformsAt(rec: seq<Value>, schema: seq<FieldType>)
    requires Conforms(rec, schema)
    ensures |rec| == |schema| && forall i :: 0 <= i < |rec| ==> HasType(rec[i], schema[i])
  {
  }

  lemma UpdateConforms(rec: seq<Value>, old': seq<Value>, schema: seq<FieldType>, i: nat)
    requires Conforms(rec, schema) && Conforms(old', schema) && i < |rec|
    ensures |old'| == |rec| && Conforms(old'[i := rec[i]], schema)
  {
  }

  lemma ReadNext(schema: seq<FieldType>, order: seq<nat>, rec: seq<Value>, v: Value, bs: seq<byte>, tail: seq<byte>)
    requires Conforms(rec, schema) && order != [] && order[0] < |rec| && Conforms(rec[order[0] := v], schema)
    requires |rec| == |schema| && ReadValue(schema[order[0]], bs) == Some((v, tail))
    ensures ReadFields(schema, order, rec, bs) == ReadFields(schema, order[1..], rec[order[0] := v], tail)
  {
    hide ReadValue, Conforms;
  }

  lemma SkipNext(schema: seq<FieldType>, order: seq<nat>, rec: seq<Value>, bs: seq<byte>)
    requires Conforms(rec, schema) && order != [] && order[0] >= |schema|
    ensures ReadFields(schema, order, rec, bs) == ReadFields(schema, order[1..], rec, bs)
  {
    hide Conforms;
  }

  /** Fields the order does not name keep their values, whatever the bytes. */
  lemma {:induction false} UnvisitedKept(schema: seq<FieldType>, order: seq<nat>, rec: seq<Value>,
                                         bs: seq<byte>, i: nat)
    requires Conforms(rec, schema) && i < |rec| && i !in order
    requires ReadFields(schema, order, rec, bs).Some?
    ensures ReadFields(schema, order, rec, bs).value.0[i] == rec[i]
    decreases |order|
  {
    if order != [] {
      if order[0] >= |schema| {
        UnvisitedKept(schema, order[1..], rec, bs, i);
      } else {
        var (v, rest) := ReadValue(schema[order[0]], bs).value;
        UnvisitedKept(schema, order[1..], rec[order[0] := v], rest, i);
      }
    }
  }

  /** A field order a resolver may supply: every schema field occurs. */
  predicate Covers(order: seq<nat>, n: nat) {
    forall i: nat :: i < n ==> i in order
  }

  /** Any covering order recovers the record, from any initial contents. */
  lemma AnyOrderRoundTrip(rec: seq<Value>, old': seq<Value>, schema: seq<FieldType>, order: seq<nat>,
                          rest: seq<byte>)
    requires Conforms(rec, schema) && Conforms(old', schema) && Covers(order, |schema|)
    ensures ReadFields(schema, order, old', WriteFields(rec, order) + rest) == Some((rec, rest))
  {
    ReadWritten(rec, old', schema, order, rest);
    assert Visited(old', rec, order) == rec;
  }

  lemma RecordRoundTrip(rec: seq<Value>, old': seq<Value>, schema: seq<FieldType>, rest: seq<byte>)
    requires Conforms(rec, schema) && Conforms(old', schema)
    ensures ReadFields(schema, SchemaOrder(|schema|), old', RecordBytes(rec) + rest) == Some((rec, rest))
  {
    forall i: nat | i < |schema| ensures i in SchemaOrder(|schema|) {
      assert SchemaOrder(|schema|)[i] == i;
    }
    AnyOrderRoundTrip(rec, old', schema, SchemaOrder(|schema|), rest);
  }

  function Concatenated(recs: seq<seq<Value>>): seq<byte> {
    if recs == [] then [] else RecordBytes(recs[0]) + Concatenated(recs[1..])
  }

  lemma {:induction false} RecordNonEmpty(rec: seq<Value>, schema: seq<FieldType>)
    requires Conforms(rec, schema) && |schema| > 0
    ensures RecordBytes(rec) != []
  {
    RecordRoundTrip(rec, rec, schema, []);
    assert RecordBytes(rec) + [] == RecordBytes(rec);
    assert SchemaOrder(|schema|)[0] == 0;
  }

  /** A concatenation of records can be cut in one way only. */
  lemma {:induction false} UniqueDecoding(recs: seq<seq<Value>>, recs': seq<seq<Value>>, schema: seq<FieldType>)
    requires |schema| > 0
    requires forall r :: r in recs ==> Conforms(r, schema)
    requires forall r :: r in recs' ==> Conforms(r, schema)
    requires Concatenated(recs) == Concatenated(recs')
    ensures recs == recs'
  {
    if recs == [] {
      if recs' != [] { RecordNonEmpty(recs'[0], schema); }
    } else if recs' == [] {
      RecordNonEmpty(recs[0], schema);
    } else {
      var base := recs[0];
      RecordRoundTrip(recs[0], base, schema, Concatenated(recs[1..]));
      RecordRoundTrip(recs'[0], base, schema, Concatenated(recs'[1..]));
      UniqueDecoding(recs[1..], recs'[1..], schema);
      assert recs == [recs[0]] + recs[1..] && recs' == [recs'[0]] + recs'[1..];
    }
  }

  // ---- the streams ----

  class Encoder {
    var out: seq<byte>

    constructor ()
      ensures out == []
    {
      out := [];
    }

    method EncodeLong(v: int64)
      modifies this
      ensures out == old(out) + LongBytes(v)
    {
      var n: nat := ZigZag(v);
      while n >= 128
        invariant out + VarBytes(n) == old(out) + LongBytes(v)
      {
        out := out + [128 + n % 128];
        n := n / 128;
      }
      out := out + [n];
    }

    method EncodeString(s: seq<byte>)
      modifies this
      ensures out == old(out) + ValueBytes(Str(s))
    {
      EncodeLong(ToInt64(|s|));
      out := out + s;
    }

    method EncodeBool(b: bool)
      modifies this
      ensures out == old(out) + ValueBytes(Bool(b))
    {
      out := out + [if b then 1 else 0];
    }
  }

  /** A failed read is the exception the library throws. */
  class Decoder {
    var input: seq<byte>

    constructor (bs: seq<byte>)
      ensures input == bs
    {
      input := bs;
    }

    method DecodeLong() returns (ok: bool, v: int64)
      modifies this
      ensures ok <==> ReadLong(old(input)).Some?
      ensures ok ==> ReadLong(old(input)) == Some((v, input))
    {
      var encoded: nat, scale: nat, room: nat := 0, 1, MAX_VARINT;
      v := 0;
      AccumulatedIs(0, 1, input, room);
      while true
        invariant Accumulated(encoded, scale, input, room) == ReadVar(old(input), MAX_VARINT)
        decreases room
      {
        if room == 0 || input == [] {
          return false, 0;
        }
        var u := input[0];
        input := input[1..];
        if u < 128 {
          return true, UnZigZag((encoded + scale * u) % 0x1_0000_0000_0000_0000);
        }
        encoded, scale, room := encoded + scale * (u - 128), scale * 128, room - 1;
      }
    }

    method DecodeInt() returns (ok: bool, v: int32)
      modifies this
      ensures ok <==> ReadValue(IntType, old(input)).Some?
      ensures ok ==> ReadValue(IntType, old(input)) == Some((Int(v), input))
    {
      var long;
      ok, long := DecodeLong();
      if !ok || !(-0x8000_0000 <= long < 0x8000_0000) {
        return false, 0;
      }
      v := long;
    }

    method DecodeString() returns (ok: bool, s: seq<byte>)
      modifies this
      ensures ok <==> ReadValue(StringType, old(input)).Some?
      ensures ok ==> ReadValue(StringType, old(input)) == Some((Str(s), input))
    {
      var len;
      ok, len := DecodeLong();
      if !ok || !(0 <= len <= |input|) {
        return false, [];
      }
      s := input[..len];
      input := input[len..];
    }

    method DecodeBool() returns (ok: bool, b: bool)
      modifies this
      ensures ok <==> ReadValue(BoolType, old(input)).Some?
      ensures ok ==> ReadValue(BoolType, old(input)) == Some((Bool(b), input))
    {
      if input == [] || input[0] > 1 {
        return false, false;
      }
      ok, b, input := true, input[0] == 1, input[1..];
    }
  }

  /** `ReadVar` with the low groups already read accumulated in `encoded`. */
  function Accumulated(encoded: nat, scale: nat, bs: seq<byte>, room: nat): Option<(nat, seq<byte>)>
    decreases room
  {
    if room == 0 || bs == [] then None
    else if bs[0] < 128 then Some((encoded + scale * bs[0], bs[1..]))
    else Accumulated(encoded + scale * (bs[0] - 128), scale * 128, bs[1..], room - 1)
  }

  lemma {:induction false} AccumulatedIs(encoded: nat, scale: nat, bs: seq<byte>, room: nat)
    ensures Accumulated(encoded, scale, bs, room) == (
              match ReadVar(bs, room)
              case None => None
              case Some((n, rest)) => Some((encoded + scale * n, rest)))
    decreases room
  {
    if room > 0 && bs != [] && bs[0] >= 128 {
      AccumulatedIs(encoded + scale * (bs[0] - 128), scale * 128, bs[1..], room - 1);
      if ReadVar(bs[1..], room - 1).Some? {
        Shifted(encoded, scale, bs[0] - 128, ReadVar(bs[1..], room - 1).value.0);
      }
    }
  }

  lemma Shifted(encoded: nat, scale: nat, low: nat, n: nat)
    ensures encoded + scale * (low + 128 * n) == encoded + scale * low + scale * 128 * n
  {
  }
}
