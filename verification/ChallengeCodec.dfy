/** The Redis values of device and account challenges. */
module ChallengeCodec {
  import opened Schema
  import opened Bytes

  type Digest = s: seq<byte> | |s| == 32 witness seq(32, i => 0)

  predicate Zero(s: seq<byte>) { forall i :: 0 <= i < |s| ==> s[i] == 0 }

  predicate HexDigit(c: char) { '0' <= c <= '9' || 'a' <= c <= 'f' }

  /** The canonical text of a non-nil UUID. */
  predicate CanonicalUuid(id: string) {
    && |id| == 36 && id != "00000000-0000-0000-0000-000000000000"
    && forall i :: 0 <= i < 36 ==> if i == 8 || i == 13 || i == 18 || i == 23 then id[i] == '-' else HexDigit(id[i])
  }

  // Years 2020 to 2100, in nanoseconds since 1970.
  const EARLIEST: Time := 1_577_836_800 * SECOND
  const LATEST: Time := 4_133_980_800 * SECOND

  predicate ExpiryValid(t: Time) { EARLIEST <= t < LATEST }

  const DEVICE_PREFIX: seq<byte> := Ascii("TALENRO-DEVICE-CHALLENGE-V1\0")
  const REGISTRATION: seq<byte> := Ascii("registration")
  const ROTATION: seq<byte> := Ascii("rotation")
  const POP_PROTOCOL: seq<byte> := Ascii("device-pop-v1")
  const ROTATION_PROTOCOL: seq<byte> := Ascii("device-token-rotation-v1")
  const REGISTER_DEVICE: seq<byte> := Ascii("register_device")
  const ROTATE_DEVICE: seq<byte> := Ascii("rotate_device_token")

  datatype DeviceRecord = DeviceRecord(
    id: string, kind: seq<byte>, protocol: seq<byte>, operation: seq<byte>,
    challenge: Digest, grant: Digest, context: Digest, expires: Time)

  // validChallengeRecord
  predicate DeviceValid(r: DeviceRecord) {
    && CanonicalUuid(r.id)
    && ((r.kind == REGISTRATION && r.protocol == POP_PROTOCOL && r.operation == REGISTER_DEVICE) ||
        (r.kind == ROTATION && r.protocol == ROTATION_PROTOCOL && r.operation == ROTATE_DEVICE))
    && !Zero(r.challenge) && !Zero(r.grant) && !Zero(r.context) && ExpiryValid(r.expires)
  }

  // encodeChallengeRecord
  function EncodeDevice(r: DeviceRecord): Option<seq<byte>> {
    if !DeviceValid(r) then None else
      Some(DEVICE_PREFIX + Frame(2, r.kind) + Frame(2, r.protocol) + Frame(2, r.operation) + r.challenge + r.grant +
           r.context + PutInt64(r.expires))
  }

  // decodeChallengeRecordString
  function TakeString(wire: seq<byte>, offset: nat, maximum: nat): (taken: Option<(seq<byte>, nat)>)
    ensures taken.Some? ==>
              offset + 2 <= taken.value.1 <= |wire| && wire[offset..taken.value.1] == Frame(2, taken.value.0)
  {
    if offset + 2 > |wire| then None else
      var length := Number(wire[offset..offset + 2]);
      if length == 0 || length > maximum || offset + 2 + length > |wire| then None else
        BigEndianOfNumber(wire[offset..offset + 2]);
        assert wire[offset..offset + 2 + length] == wire[offset..offset + 2] + wire[offset + 2..offset + 2 + length];
        Some((wire[offset + 2..offset + 2 + length], offset + 2 + length))
  }

  // decodeChallengeRecord
  function DecodeDevice(id: string, wire: seq<byte>): Option<DeviceRecord> {
    var start := |DEVICE_PREFIX|;
    if |wire| < start + 6 + 96 + 8 || wire[..start] != DEVICE_PREFIX then None else
      var kind := TakeString(wire, start, |REGISTRATION|);
      if kind.None? then None else
        var protocol := TakeString(wire, kind.value.1, |ROTATION_PROTOCOL|);
        if protocol.None? then None else
          var operation := TakeString(wire, protocol.value.1, |ROTATE_DEVICE|);
          if operation.None? || operation.value.1 + 96 + 8 != |wire| then None else
            var at := operation.value.1;
            var r := DeviceRecord(id, kind.value.0, protocol.value.0, operation.value.0,
                                  wire[at..at + 32], wire[at + 32..at +
                                                          64], wire[at + 64..at +
                                                                    96], GetInt64(wire[at + 96..at + 104]));
            if DeviceValid(r) then Some(r) else None
  }

  // ----- slices of what was appended -----

  lemma BackSlice(front: seq<byte>, more: seq<byte>)
    ensures (front + more)[|front|..|front| + |more|] == more
  {
  }

  lemma CutAt(wire: seq<byte>, i: nat, j: nat)
    requires i <= j <= |wire|
    ensures wire[..j] == wire[..i] + wire[i..j]
  {
  }

  lemma FrameParts(value: seq<byte>)
    ensures |Frame(2, value)| == 2 + |value| && Frame(2, value)[..2] == BigEndian(2, |value|) &&
            Frame(2, value)[2..] == value
  {
  }

  lemma SliceOfSlice(wire: seq<byte>, a: nat, b: nat, i: nat, j: nat)
    requires a + i <= a + j <= b <= |wire|
    ensures wire[a..b][i..j] == wire[a + i..a + j]
  {
    forall k | 0 <= k < j - i ensures wire[a..b][i..j][k] == wire[a + i..a + j][k] {
      assert wire[a..b][i + k] == wire[a + i + k];
    }
  }

  lemma TakeFrame(front: seq<byte>, value: seq<byte>, maximum: nat)
    requires 1 <= |value| <= maximum && |value| < 0x1_0000
    ensures TakeString(front + Frame(2, value), |front|, maximum) == Some((value, |front| + 2 + |value|))
  {
    var wire, end := front + Frame(2, value), |front| + 2 + |value|;
    FrameParts(value);
    BackSlice(front, Frame(2, value));
    SliceOfSlice(wire, |front|, end, 0, 2);
    SliceOfSlice(wire, |front|, end, 2, 2 + |value|);
    Powers();
    NumberOfBigEndian(2, |value|);
  }

  lemma TakeExtends(front: seq<byte>, wire: seq<byte>, offset: nat, maximum: nat)
    requires front <= wire && TakeString(front, offset, maximum).Some?
    ensures TakeString(wire, offset, maximum) == TakeString(front, offset, maximum)
  {
    var end := TakeString(front, offset, maximum).value.1;
    assert wire[offset..offset + 2] == front[offset..offset + 2] && wire[offset + 2..end] == front[offset + 2..end];
  }

  lemma TextWithin(front: seq<byte>, value: seq<byte>, wire: seq<byte>, maximum: nat)
    requires 1 <= |value| <= maximum < 0x1_0000 && front + Frame(2, value) <= wire
    ensures TakeString(wire, |front|, maximum) == Some((value, |front + Frame(2, value)|))
  {
    TakeFrame(front, value, maximum);
    TakeExtends(front + Frame(2, value), wire, |front|, maximum);
  }

  lemma FieldWithin(front: seq<byte>, field: seq<byte>, wire: seq<byte>)
    requires front + field <= wire
    ensures wire[|front|..|front| + |field|] == field
  {
    BackSlice(front, field);
    assert wire[|front|..|front| + |field|] == (front + field)[|front|..|front| + |field|];
  }

  // ----- the device format is a bijection -----

  lemma DecodesParts(r: DeviceRecord, wire: seq<byte>, second: nat, third: nat, at: nat)
    requires DeviceValid(r) && |wire| == at + 104 && at >= |DEVICE_PREFIX| + 6 &&
             wire[..|DEVICE_PREFIX|] == DEVICE_PREFIX
    requires TakeString(wire, |DEVICE_PREFIX|, |REGISTRATION|) == Some((r.kind, second))
    requires TakeString(wire, second, |ROTATION_PROTOCOL|) == Some((r.protocol, third))
    requires TakeString(wire, third, |ROTATE_DEVICE|) == Some((r.operation, at))
    requires wire[at..at + 32] == r.challenge && wire[at + 32..at + 64] == r.grant &&
             wire[at + 64..at + 96] == r.context
    requires wire[at + 96..at + 104] == PutInt64(r.expires)
    ensures DecodeDevice(r.id, wire) == Some(r)
  {
    Int64RoundTrip(r.expires);
  }

  lemma PrefixChain(a: seq<byte>, b: seq<byte>, c: seq<byte>)
    requires a <= b <= c
    ensures a <= c
  {
  }

  /** Where three framed texts lie at the front of a byte string. */
  lemma TextLayout(prefix: seq<byte>, a: seq<byte>, b: seq<byte>, c: seq<byte>, maxima: (nat, nat, nat),
                   wire: seq<byte>, second: nat, third: nat, at: nat)
    requires 1 <= |a| <= maxima.0 < 0x1_0000 && 1 <= |b| <= maxima.1 < 0x1_0000 && 1 <= |c| <= maxima.2 < 0x1_0000
    requires prefix + Frame(2, a) + Frame(2, b) + Frame(2, c) <= wire
    requires second == |prefix| + 2 + |a| && third == second + 2 + |b| && at == third + 2 + |c|
    ensures prefix <= wire && TakeString(wire, |prefix|, maxima.0) == Some((a, second))
    ensures TakeString(wire, second, maxima.1) == Some((b, third)) && TakeString(wire, third, maxima.2) == Some((c, at))
  {
    var front := prefix + Frame(2, a);
    var middle := front + Frame(2, b);
    var back := middle + Frame(2, c);
    PrefixChain(middle, back, wire);
    PrefixChain(front, middle, wire);
    PrefixChain(prefix, front, wire);
    TextWithin(prefix, a, wire, maxima.0);
    TextWithin(front, b, wire, maxima.1);
    TextWithin(middle, c, wire, maxima.2);
  }

  /** Where four fields lie behind a front. */
  lemma FieldLayout(front: seq<byte>, a: seq<byte>, b: seq<byte>, c: seq<byte>, d: seq<byte>, wire: seq<byte>, at: nat)
    requires wire == front + a + b + c + d && at == |front|
    ensures front <= wire && |wire| == at + |a| + |b| + |c| + |d|
    ensures wire[at..at + |a|] == a && wire[at + |a|..at + |a| + |b|] == b &&
            wire[at + |a| + |b|..at + |a| + |b| + |c|] == c
    ensures wire[at + |a| + |b| + |c|..at + |a| + |b| + |c| + |d|] == d
  {
    var first := front + a;
    var second := first + b;
    var third := second + c;
    assert second <= third <= wire;
    PrefixChain(second, third, wire);
    PrefixChain(first, second, wire);
    PrefixChain(front, first, wire);
    FieldWithin(front, a, wire);
    FieldWithin(first, b, wire);
    FieldWithin(second, c, wire);
    FieldWithin(third, d, wire);
  }

  /** Decoding what was encoded gives the record back. */
  lemma DeviceDecodesEncoding(r: DeviceRecord)
    requires DeviceValid(r)
    ensures EncodeDevice(r).Some? && DecodeDevice(r.id, EncodeDevice(r).value) == Some(r)
  {
    var wire := EncodeDevice(r).value;
    var front := DEVICE_PREFIX + Frame(2, r.kind) + Frame(2, r.protocol) + Frame(2, r.operation);
    var second := |DEVICE_PREFIX| + 2 + |r.kind|;
    var third := second + 2 + |r.protocol|;
    var at := third + 2 + |r.operation|;
    FieldLayout(front, r.challenge, r.grant, r.context, PutInt64(r.expires), wire, at);
    TextLayout(DEVICE_PREFIX, r.kind, r.protocol, r.operation, (|REGISTRATION|, |ROTATION_PROTOCOL|, |ROTATE_DEVICE|),
               wire, second, third, at);
    DecodesParts(r, wire, second, third, at);
  }

  lemma CutEight(wire: seq<byte>, a: nat, b: nat, c: nat, d: nat, e: nat, f: nat, g: nat)
    requires a <= b <= c <= d <= e <= f <= g <= |wire|
    ensures wire == wire[..a] + wire[a..b] + wire[b..c] + wire[c..d] + wire[d..e] + wire[e..f] + wire[f..g] + wire[g..]
  {
    CutAt(wire, a, b);
    CutAt(wire, b, c);
    CutAt(wire, c, d);
    CutAt(wire, d, e);
    CutAt(wire, e, f);
    CutAt(wire, f, g);
    assert wire == wire[..g] + wire[g..];
  }

  /** Whatever decodes is the encoding of what it decodes to. */
  lemma DeviceEncodesDecoding(id: string, wire: seq<byte>)
    requires DecodeDevice(id, wire).Some?
    ensures EncodeDevice(DecodeDevice(id, wire).value) == Some(wire)
  {
    var r := DecodeDevice(id, wire).value;
    var start := |DEVICE_PREFIX|;
    var kind := TakeString(wire, start, |REGISTRATION|).value;
    var protocol := TakeString(wire, kind.1, |ROTATION_PROTOCOL|).value;
    var at := TakeString(wire, protocol.1, |ROTATE_DEVICE|).value.1;
    BytesRoundTrip(wire[at + 96..at + 104]);
    CutEight(wire, start, kind.1, protocol.1, at, at + 32, at + 64, at + 96);
    assert wire[at + 96..] == wire[at + 96..at + 104];
  }

  // ----- account challenges -----

  const ACCOUNT_PREFIX: seq<byte> := Ascii("TALENRO-ACCOUNT-CHALLENGE-RECORD-V1\0")
  const ACCOUNT_PROTOCOL: seq<byte> := Ascii("account-rotation-v1")
  const ROTATE_ACCOUNT: seq<byte> := Ascii("rotate_account_token")

  datatype AccountRecord = AccountRecord(
    id: string, protocol: seq<byte>, operation: seq<byte>, challenge: Digest, context: Digest, expires: Time)

  predicate AccountValid(r: AccountRecord) {
    && CanonicalUuid(r.id) && r.protocol == ACCOUNT_PROTOCOL && r.operation == ROTATE_ACCOUNT
    && !Zero(r.challenge) && !Zero(r.context) && ExpiryValid(r.expires)
  }

  function EncodeAccount(r: AccountRecord): Option<seq<byte>> {
    if !AccountValid(r) then None else
      Some(ACCOUNT_PREFIX + Frame(2, r.protocol) + Frame(2, r.operation) + r.challenge + r.context +
           PutInt64(r.expires))
  }

  function DecodeAccount(id: string, wire: seq<byte>): Option<AccountRecord> {
    var start := |ACCOUNT_PREFIX|;
    if |wire| < start + 4 + 64 + 8 || wire[..start] != ACCOUNT_PREFIX then None else
      var protocolLength := Number(wire[start..start + 2]);
      if protocolLength != |ACCOUNT_PROTOCOL| || start + 2 + protocolLength + 2 > |wire| then None else
        var second := start + 2 + protocolLength;
        var operationLength := Number(wire[second..second + 2]);
        var at := second + 2 + operationLength;
        if operationLength != |ROTATE_ACCOUNT| || at + 64 + 8 != |wire| then None else
          var r := AccountRecord(id, wire[start + 2..second], wire[second + 2..at],
                                 wire[at..at + 32], wire[at + 32..at + 64], GetInt64(wire[at + 64..at + 72]));
          if AccountValid(r) then Some(r) else None
  }

  lemma UnframedSlice(wire: seq<byte>, i: nat, value: seq<byte>)
    requires i + 2 + |value| <= |wire| && wire[i..i + 2 + |value|] == Frame(2, value)
    ensures wire[i..i + 2] == BigEndian(2, |value|) && wire[i + 2..i + 2 + |value|] == value
  {
    assert wire[i..i + 2] == wire[i..i + 2 + |value|][..2] &&
           wire[i + 2..i + 2 + |value|] == wire[i..i + 2 + |value|][2..];
  }

  lemma AccountLayout(prefix: seq<byte>, texts: (seq<byte>, seq<byte>), fields: (seq<byte>, seq<byte>, seq<byte>))
    ensures var second := |prefix| + 2 + |texts.0|; var at := second + 2 + |texts.1|;
            var wire := prefix + Frame(2, texts.0) + Frame(2, texts.1) + fields.0 + fields.1 + fields.2;
            && |wire| == at + |fields.0| + |fields.1| + |fields.2| && wire[..|prefix|] == prefix
            && wire[|prefix|..|prefix| + 2] == BigEndian(2, |texts.0|) && wire[|prefix| + 2..second] == texts.0
            && wire[second..second + 2] == BigEndian(2, |texts.1|) && wire[second + 2..at] == texts.1
            && wire[at..at + |fields.0|] == fields.0
            && wire[at + |fields.0|..at + |fields.0| + |fields.1|] == fields.1
            && wire[at + |fields.0| + |fields.1|..|wire|] == fields.2
  {
    var first := prefix + Frame(2, texts.0);
    var second := first + Frame(2, texts.1);
    var third := second + fields.0;
    var fourth := third + fields.1;
    var wire := fourth + fields.2;
    assert third <= fourth <= wire;
    PrefixChain(third, fourth, wire);
    PrefixChain(second, third, wire);
    PrefixChain(first, second, wire);
    PrefixChain(prefix, first, wire);
    FieldWithin(prefix, Frame(2, texts.0), wire);
    FieldWithin(first, Frame(2, texts.1), wire);
    FieldWithin(second, fields.0, wire);
    FieldWithin(third, fields.1, wire);
    FieldWithin(fourth, fields.2, wire);
    UnframedSlice(wire, |prefix|, texts.0);
    UnframedSlice(wire, |first|, texts.1);
  }

  lemma AccountDecodesEncoding(r: AccountRecord)
    requires AccountValid(r)
    ensures EncodeAccount(r).Some? && DecodeAccount(r.id, EncodeAccount(r).value) == Some(r)
  {
    AccountLayout(ACCOUNT_PREFIX, (r.protocol, r.operation), (r.challenge, r.context, PutInt64(r.expires)));
    Powers();
    NumberOfBigEndian(2, |r.protocol|);
    NumberOfBigEndian(2, |r.operation|);
    Int64RoundTrip(r.expires);
  }

  lemma CutSix(wire: seq<byte>, a: nat, b: nat, c: nat, d: nat, e: nat)
    requires a <= b <= c <= d <= e <= |wire|
    ensures wire == wire[..a] + wire[a..b] + wire[b..c] + wire[c..d] + wire[d..e] + wire[e..]
  {
    CutAt(wire, a, b);
    CutAt(wire, b, c);
    CutAt(wire, c, d);
    CutAt(wire, d, e);
    assert wire == wire[..e] + wire[e..];
  }

  lemma AccountEncodesDecoding(id: string, wire: seq<byte>)
    requires DecodeAccount(id, wire).Some?
    ensures EncodeAccount(DecodeAccount(id, wire).value) == Some(wire)
  {
    var start := |ACCOUNT_PREFIX|;
    var second := start + 2 + |ACCOUNT_PROTOCOL|;
    var at := second + 2 + |ROTATE_ACCOUNT|;
    FramedSlice(wire, start, |ACCOUNT_PROTOCOL|);
    FramedSlice(wire, second, |ROTATE_ACCOUNT|);
    BytesRoundTrip(wire[at + 64..at + 72]);
    CutSix(wire, start, second, at, at + 32, at + 64);
    assert wire[at + 64..] == wire[at + 64..at + 72];
  }

  lemma FramedSlice(wire: seq<byte>, i: nat, length: nat)
    requires i + 2 + length <= |wire| && Number(wire[i..i + 2]) == length
    ensures wire[i..i + 2 + length] == Frame(2, wire[i + 2..i + 2 + length])
  {
    BigEndianOfNumber(wire[i..i + 2]);
  }

  /** No byte string is read as a challenge of both kinds. */
  lemma FormatsDisjoint(id: string, wire: seq<byte>)
    ensures DecodeDevice(id, wire).None? || DecodeAccount(id, wire).None?
  {
    assert DEVICE_PREFIX[8] == 'D' as int as byte && ACCOUNT_PREFIX[8] == 'A' as int as byte;
    if DecodeDevice(id, wire).Some? { assert wire[..|DEVICE_PREFIX|][8] == wire[8]; }
    if DecodeAccount(id, wire).Some? { assert wire[..|ACCOUNT_PREFIX|][8] == wire[8]; }
  }
}
