/**
 The bytes that are hashed into an idempotency key: the legacy encoding for
 epoch zero (app/services/summarization_gateway.py) and the tagged one for later
 epochs (app/services/broker_idempotency.py).  Both join length-prefixed
 fields, so they can be decoded, and no two submissions share their bytes.
 */
module Idempotency {
  import opened Prelude
  import opened SummaryGateway

  type Byte = b: int | 0 <= b < 256

  type Bytes = seq<Byte>

  datatype EncodingError = NegativeEpoch | FieldTooLong

  // ----------------------------------------------------------------- UTF-8

  function EncodeChar(c: char): (bytes: Bytes)
    ensures 1 <= |bytes| <= 4
  {
    var n := c as int;
    if n < 0x80 then [n]
    else if n < 0x800 then [0xc0 + n / 0x40, 0x80 + n % 0x40]
    else if n < 0x10000 then [0xe0 + n / 0x1000, 0x80 + n / 0x40 % 0x40, 0x80 + n % 0x40]
    else [0xf0 + n / 0x40000, 0x80 + n / 0x1000 % 0x40, 0x80 + n / 0x40 % 0x40, 0x80 + n % 0x40]
  }

  function Encode(s: string): Bytes {
    if s == "" then [] else EncodeChar(s[0]) + Encode(s[1..])
  }

  function CharLength(first: Byte): nat {
    if first < 0x80 then 1 else if first < 0xe0 then 2 else if first < 0xf0 then 3 else 4
  }

  function CharValue(bytes: Bytes): int
    requires 1 <= |bytes| <= 4
  {
    if |bytes| == 1 then bytes[0] as int
    else if |bytes| == 2 then (bytes[0] as int - 0xc0) * 0x40 + Tail(bytes[1])
    else if |bytes| == 3 then (bytes[0] as int - 0xe0) * 0x1000 + Tail(bytes[1]) * 0x40 + Tail(bytes[2])
    else (bytes[0] as int - 0xf0) * 0x40000 + Tail(bytes[1]) * 0x1000 + Tail(bytes[2]) * 0x40 + Tail(bytes[3])
  }

  function Tail(b: Byte): int {
    b as int - 0x80
  }

  lemma TwoDigits(n: nat)
    ensures n == n / 0x1000 * 0x1000 + n / 0x40 % 0x40 * 0x40 + n % 0x40
  {
    assert n / 0x40 / 0x40 == n / 0x1000;
  }

  lemma ThreeDigits(n: nat)
    ensures n == n / 0x40000 * 0x40000 + n / 0x1000 % 0x40 * 0x1000 + n / 0x40 % 0x40 * 0x40 + n % 0x40
  {
    TwoDigits(n);
    assert n / 0x1000 / 0x40 == n / 0x40000;
  }

  lemma CharRoundTrip(c: char)
    ensures CharLength(EncodeChar(c)[0]) == |EncodeChar(c)|
    ensures CharValue(EncodeChar(c)) == c as int
  {
    var n := c as int;
    if n >= 0x10000 {
      ThreeDigits(n);
    } else if n >= 0x800 {
      TwoDigits(n);
    }
  }

  lemma {:induction false} EncodeInjective(s: string, t: string)
    requires Encode(s) == Encode(t)
    ensures s == t
  {
    if s == "" || t == "" {
      assert s == t;
    } else {
      CharRoundTrip(s[0]);
      CharRoundTrip(t[0]);
      var a, b := EncodeChar(s[0]), EncodeChar(t[0]);
      assert a[0] == Encode(s)[0] == Encode(t)[0] == b[0];
      assert a == Encode(s)[..|a|] == Encode(t)[..|b|] == b;
      assert Encode(s[1..]) == Encode(s)[|a|..] == Encode(t)[|b|..] == Encode(t[1..]);
      EncodeInjective(s[1..], t[1..]);
      assert s == [s[0]] + s[1..] && t == [t[0]] + t[1..];
    }
  }

  // --------------------------------------------------------------- decimals

  function Digit(d: nat): char
    requires d < 10
  {
    "0123456789"[d]
  }

  /** `str` of a natural number. */
  function Digits(n: nat): (s: string)
    ensures s != "" && '0' <= s[0] <= '9'
  {
    if n < 10 then [Digit(n)] else Digits(n / 10) + [Digit(n % 10)]
  }

  function Decimal(n: int): string {
    if n < 0 then "-" + Digits(-n) else Digits(n)
  }

  function ParseDigits(s: string): int {
    if s == "" then 0 else 10 * ParseDigits(s[..|s| - 1]) + (s[|s| - 1] as int - '0' as int)
  }

  function ParseDecimal(s: string): int {
    if s != "" && s[0] == '-' then -ParseDigits(s[1..]) else ParseDigits(s)
  }

  lemma {:induction false} DigitsRoundTrip(n: nat)
    ensures ParseDigits(Digits(n)) == n
  {
    if n >= 10 {
      DigitsRoundTrip(n / 10);
      var s := Digits(n);
      assert s[..|s| - 1] == Digits(n / 10);
    } else {
      assert ParseDigits(Digits(n)[..0]) == 0;
    }
  }

  lemma DecimalRoundTrip(n: int)
    ensures ParseDecimal(Decimal(n)) == n
  {
    DigitsRoundTrip(if n < 0 then -n else n);
    if n < 0 {
      assert Decimal(n)[1..] == Digits(-n);
    }
  }

  // ----------------------------------------------------------------- fields

  const LENGTH_LIMIT := 0x1_0000_0000

  /** `len.to_bytes(4, "big")` */
  function LengthPrefix(n: nat): (prefix: Bytes)
    requires n < LENGTH_LIMIT
    ensures |prefix| == 4
  {
    [n / 0x100_0000, n / 0x1_0000 % 0x100, n / 0x100 % 0x100, n % 0x100]
  }

  function ReadLength(bytes: Bytes): nat
    requires |bytes| >= 4
  {
    bytes[0] as int * 0x100_0000 + bytes[1] as int * 0x1_0000 + bytes[2] as int * 0x100 + bytes[3] as int
  }

  predicate Fit(fields: seq<Bytes>) {
    forall f <- fields :: |f| < LENGTH_LIMIT
  }

  function JoinFields(fields: seq<Bytes>): Bytes
    requires Fit(fields)
  {
    if fields == [] then [] else LengthPrefix(|fields[0]|) + fields[0] + JoinFields(fields[1..])
  }

  function SplitFields(bytes: Bytes): Option<seq<Bytes>>
    decreases |bytes|
  {
    if bytes == [] then Some([])
    else if |bytes| < 4 then None
    else
      var n := ReadLength(bytes);
      if |bytes| < 4 + n then None
      else
        match SplitFields(bytes[4 + n..])
        case None => None
        case Some(rest) => Some([bytes[4..4 + n]] + rest)
  }

  lemma FourBytes(n: nat)
    ensures n == n / 0x100_0000 * 0x100_0000 + n / 0x1_0000 % 0x100 * 0x1_0000 + n / 0x100 % 0x100 * 0x100 + n % 0x100
  {
    assert n / 0x100 / 0x100 == n / 0x1_0000;
    assert n / 0x1_0000 / 0x100 == n / 0x100_0000;
  }

  lemma LengthRoundTrip(n: nat, rest: Bytes)
    requires n < LENGTH_LIMIT
    ensures ReadLength(LengthPrefix(n) + rest) == n
  {
    FourBytes(n);
    var prefix := LengthPrefix(n);
    var bytes := prefix + rest;
    assert bytes[0] == prefix[0] && bytes[1] == prefix[1] && bytes[2] == prefix[2] && bytes[3] == prefix[3];
  }

  lemma SplitOneField(field: Bytes, rest: Bytes)
    requires |field| < LENGTH_LIMIT
    ensures SplitFields(LengthPrefix(|field|) + field + rest) == match SplitFields(rest)
      case None => None
      case Some(fields) => Some([field] + fields)
  {
    var n := |field|;
    var bytes := LengthPrefix(n) + field + rest;
    LengthRoundTrip(n, field + rest);
    assert bytes == LengthPrefix(n) + (field + rest);
    hide LengthPrefix, ReadLength;
    assert bytes[4..4 + n] == field;
    assert bytes[4 + n..] == rest;
  }

  lemma {:induction false} FieldsRoundTrip(fields: seq<Bytes>)
    requires Fit(fields)
    ensures SplitFields(JoinFields(fields)) == Some(fields)
  {
    if fields != [] {
      FieldsRoundTrip(fields[1..]);
      hide LengthPrefix, SplitFields;
      SplitOneField(fields[0], JoinFields(fields[1..]));
      assert fields == [fields[0]] + fields[1..];
    }
  }

  // ------------------------------------------------------------------- keys

  const CONTRACT_VERSION := "ytpipe-summary-v1"
  const EPOCH_KEY_VERSION := "ytpipe-broker-epoch-v1"

  function LegacyFields(k: Key): seq<Bytes> {
    [Encode(CONTRACT_VERSION), Encode(Decimal(k.stageId)), Encode(k.kind), Encode(Decimal(k.ordinal))]
  }

  function TaggedFields(k: Key): seq<Bytes> {
    [Encode("version"), Encode(EPOCH_KEY_VERSION),
     Encode("stage_id"), Encode(Decimal(k.stageId)),
     Encode("operation_kind"), Encode(k.kind),
     Encode("operation_ordinal"), Encode(Decimal(k.ordinal)),
     Encode("epoch"), Encode(Decimal(k.epoch))]
  }

  /** `broker_idempotency_key` up to the hash. */
  function PreImage(k: Key): Result<Bytes, EncodingError> {
    if k.epoch < 0 then Err(NegativeEpoch)
    else
      var fields := if k.epoch == 0 then LegacyFields(k) else TaggedFields(k);
      if Fit(fields) then Ok(JoinFields(fields)) else Err(FieldTooLong)
  }

  /** What is hashed can be taken apart again: the contract's version and the key's
      parts for epoch zero, so that keys from before epochs stay valid, and named
      parts under their own version for any later epoch. */
  lemma HashedFields(k: Key)
    requires PreImage(k).Ok?
    ensures SplitFields(PreImage(k).value) == Some(
      if k.epoch == 0 then
        [Encode("ytpipe-summary-v1"), Encode(Decimal(k.stageId)), Encode(k.kind), Encode(Decimal(k.ordinal))]
      else
        [Encode("version"), Encode("ytpipe-broker-epoch-v1"), Encode("stage_id"), Encode(Decimal(k.stageId)),
         Encode("operation_kind"), Encode(k.kind), Encode("operation_ordinal"), Encode(Decimal(k.ordinal)),
         Encode("epoch"), Encode(Decimal(k.epoch))])
  {
    hide Encode, Decimal, JoinFields, SplitFields, Fit;
    if k.epoch == 0 {
      FieldsRoundTrip(LegacyFields(k));
    } else {
      FieldsRoundTrip(TaggedFields(k));
    }
  }

  lemma DecimalInjective(m: int, n: int)
    requires Encode(Decimal(m)) == Encode(Decimal(n))
    ensures m == n
  {
    EncodeInjective(Decimal(m), Decimal(n));
    DecimalRoundTrip(m);
    DecimalRoundTrip(n);
  }

  /** The hashed bytes determine stage, epoch, kind and ordinal, across both
      encodings; distinct submissions hash distinct bytes. */
  lemma PreImageInjective(a: Key, b: Key)
    ensures PreImage(a).Ok? && PreImage(a) == PreImage(b) ==> a == b
  {
    if PreImage(a).Ok? && PreImage(a) == PreImage(b) {
      SameBytesSameKey(a, b);
    }
  }

  lemma SameBytesSameKey(a: Key, b: Key)
    requires PreImage(a).Ok? && PreImage(a) == PreImage(b)
    ensures a == b
  {
    hide Encode, Decimal;
    var x := if a.epoch == 0 then LegacyFields(a) else TaggedFields(a);
    var y := if b.epoch == 0 then LegacyFields(b) else TaggedFields(b);
    FieldsRoundTrip(x);
    FieldsRoundTrip(y);
    assert x == y;
    assert |x| == |y|;
    var (stage, kind, ordinal) := if a.epoch == 0 then (1, 2, 3) else (3, 5, 7);
    assert x[stage] == y[stage] && x[kind] == y[kind] && x[ordinal] == y[ordinal];
    DecimalInjective(a.stageId, b.stageId);
    EncodeInjective(a.kind, b.kind);
    DecimalInjective(a.ordinal, b.ordinal);
    if a.epoch != 0 {
      assert x[9] == y[9];
      DecimalInjective(a.epoch, b.epoch);
    }
  }
}
