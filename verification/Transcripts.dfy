/** Length-framed material for request bindings, proofs of possession and rate limits: equal bytes mean equal inputs. */
module Transcripts {
  import opened Schema
  import opened Bytes
  import opened ChallengeCodec

  const MAX_UINT32: nat := 0xFFFF_FFFF
  const MAX_INT: nat := 0x7FFF_FFFF_FFFF_FFFF

  // ----- any number of framed parts -----

  function FrameAll(parts: seq<seq<byte>>): seq<byte> {
    if parts == [] then [] else Frame(4, parts[0]) + FrameAll(parts[1..])
  }

  function Total(parts: seq<seq<byte>>): nat {
    if parts == [] then 0 else Total(parts[..|parts| - 1]) + 4 + |parts[|parts| - 1]|
  }

  ghost predicate Small(parts: seq<seq<byte>>) {
    forall i {:trigger parts[i]} :: 0 <= i < |parts| ==> |parts[i]| <= MAX_UINT32
  }

  lemma {:induction false} FramesInjective(a: seq<seq<byte>>, b: seq<seq<byte>>)
    requires |a| == |b| && Small(a) && Small(b) && FrameAll(a) == FrameAll(b)
    ensures a == b
  {
    if a != [] {
      Powers();
      FrameSplits(4, a[0], FrameAll(a[1..]), b[0], FrameAll(b[1..]));
      FramesInjective(a[1..], b[1..]);
      assert a == [a[0]] + a[1..] && b == [b[0]] + b[1..];
    }
  }

  /** The material of privateCanonicalRequest and strongAuthCanonicalRequest. */
  function Material(operation: seq<byte>, parts: seq<seq<byte>>): seq<byte> {
    Frame(4, operation) + BigEndian(4, |parts|) + FrameAll(parts)
  }

  ghost predicate Bounded(operation: seq<byte>, parts: seq<seq<byte>>) {
    && |operation| <= MAX_UINT32 && 0 < |parts| <= MAX_UINT32 && Small(parts)
  }

  // privateCanonicalRequest, the loop that adds up the lengths
  method Measure(operation: seq<byte>, parts: seq<seq<byte>>) returns (ok: bool)
    requires |operation| <= MAX_UINT32
    ensures ok <==> Small(parts) && 8 + |operation| + Total(parts) <= MAX_INT
  {
    var length := 8 + |operation|;
    var i := 0;
    while i < |parts|
      invariant 0 <= i <= |parts| && Small(parts[..i])
      invariant length == 8 + |operation| + Total(parts[..i]) <= MAX_INT
    {
      assert parts[..i + 1][..i] == parts[..i];
      TotalGrows(parts, i + 1);
      if |parts[i]| > MAX_UINT32 || length > MAX_INT - 4 - |parts[i]| { return false; }
      length := length + 4 + |parts[i]|;
      i := i + 1;
    }
    assert parts[..i] == parts;
    return true;
  }

  // privateCanonicalRequest, the loop that appends the frames
  method AppendFrames(head: seq<byte>, parts: seq<seq<byte>>) returns (buffer: seq<byte>)
    ensures buffer == head + FrameAll(parts)
  {
    buffer := head;
    var i := 0;
    assert parts[0..] == parts;
    while i < |parts|
      invariant 0 <= i <= |parts| && buffer + FrameAll(parts[i..]) == head + FrameAll(parts)
    {
      assert parts[i..][1..] == parts[i + 1..];
      Regroup4(buffer, BigEndian(4, |parts[i]|), parts[i], FrameAll(parts[i + 1..]));
      Regroup3(BigEndian(4, |parts[i]|), parts[i], FrameAll(parts[i + 1..]));
      buffer := buffer + BigEndian(4, |parts[i]|);
      buffer := buffer + parts[i];
      i := i + 1;
    }
    assert FrameAll(parts[i..]) == [];
  }

  // privateCanonicalRequest, up to the keyed digest; strongAuthCanonicalRequest runs the same two loops
  method BuildMaterial(operation: seq<byte>, parts: seq<seq<byte>>) returns (material: Option<seq<byte>>)
    ensures material.Some? <==> Bounded(operation, parts) && 8 + |operation| + Total(parts) <= MAX_INT
    ensures material.Some? ==> material.value == Material(operation, parts)
  {
    if |parts| == 0 || |parts| > MAX_UINT32 || |operation| > MAX_UINT32 { return None; }
    var fits := Measure(operation, parts);
    if !fits { return None; }
    var buffer := BigEndian(4, |operation|) + operation;
    buffer := buffer + BigEndian(4, |parts|);
    buffer := AppendFrames(buffer, parts);
    return Some(buffer);
  }

  lemma {:induction false} TotalGrows(parts: seq<seq<byte>>, n: nat)
    requires n <= |parts|
    ensures Total(parts[..n]) <= Total(parts)
    decreases |parts| - n
  {
    if n < |parts| {
      assert parts[..n + 1][..n] == parts[..n];
      TotalGrows(parts, n + 1);
    } else {
      assert parts[..n] == parts;
    }
  }

  lemma Regroup3(a: seq<byte>, b: seq<byte>, c: seq<byte>)
    ensures a + b + c == a + (b + c)
  {
  }

  /** The canonical request determines the operation and every part, however many there are. */
  lemma MaterialInjective(o: seq<byte>, a: seq<seq<byte>>, p: seq<byte>, b: seq<seq<byte>>)
    requires Bounded(o, a) && Bounded(p, b) && Material(o, a) == Material(p, b)
    ensures o == p && a == b
  {
    Powers();
    Regroup3(Frame(4, o), BigEndian(4, |a|), FrameAll(a));
    Regroup3(Frame(4, p), BigEndian(4, |b|), FrameAll(b));
    FrameSplits(4, o, BigEndian(4, |a|) + FrameAll(a), p, BigEndian(4, |b|) + FrameAll(b));
    SplitAt(BigEndian(4, |a|), FrameAll(a), BigEndian(4, |b|), FrameAll(b));
    BigEndianInjective(4, |a|, |b|);
    FramesInjective(a, b);
  }

  // ----- private bindings of device requests -----

  datatype Binding =
    | RotationBinding(token: Digest, challenge: seq<byte>, nonce: Digest, signature: seq<byte>, audience: seq<byte>)
    | RegistrationBinding(grant: Digest, challenge: seq<byte>, audience: seq<byte>, nonce: Digest, signingKey: Digest,
                          hpkeKey: Digest,
                          displayName: seq<byte>, signature: seq<byte>, context: Digest)
    | RevocationBinding(principal: seq<byte>, device: seq<byte>, session: seq<byte>, means: seq<byte>, proof: seq<byte>)

  const UUID_TEXT: nat := 36

  /** The lengths that the three builders admit; the text of identifiers and origins is not part of this model. */
  predicate BindingValid(b: Binding) {
    match b
    case RotationBinding(_, challenge, _, signature, audience) =>
      |challenge| == UUID_TEXT && |signature| == 64 && 0 < |audience| <= 2048
    case RegistrationBinding(_, challenge, audience, _, _, _, displayName, signature, _) =>
      |challenge| == UUID_TEXT && |signature| == 64 && 0 < |audience| <= 2048 && 0 < |displayName| <= 256
    case RevocationBinding(principal, device, session, means, proof) =>
      && |principal| == UUID_TEXT && |device| == 16 && |session| == UUID_TEXT && 0 < |proof| <= 4096
      && means in [Ascii("password"), Ascii("passkey"), Ascii("totp"), Ascii("recovery_code")]
  }

  /** The fields in the order of privateRotationBinding, privateRegistrationBinding and privateRevocationBinding. */
  function Parts(b: Binding): seq<seq<byte>> {
    match b
    case RotationBinding(token, challenge, nonce, signature, audience) => [token, challenge, nonce, signature, audience]
    case RegistrationBinding(grant, challenge, audience, nonce, signingKey, hpkeKey, displayName, signature, context) =>
      [grant, challenge, Ascii("registration"), Ascii("device-pop-v1"), Ascii("register_device"), audience, nonce,
       signingKey, hpkeKey,
       displayName, signature, context]
    case RevocationBinding(principal, device, session, means, proof) => [principal, device, session, means, proof]
  }

  lemma FirstParts(a: seq<seq<byte>>, b: seq<seq<byte>>)
    requires a != [] && b != [] && |a[0]| <= MAX_UINT32 && |b[0]| <= MAX_UINT32 && FrameAll(a) == FrameAll(b)
    ensures a[0] == b[0] && FrameAll(a[1..]) == FrameAll(b[1..])
  {
    Powers();
    FrameSplits(4, a[0], FrameAll(a[1..]), b[0], FrameAll(b[1..]));
  }

  /** Rotation and registration agree on the sizes of their first two fields; the third is a nonce in one and a kind
      in the other. */
  lemma RotationIsNoRegistration(a: Binding, b: Binding)
    requires BindingValid(a) && BindingValid(b) && a.RotationBinding? && b.RegistrationBinding?
    ensures FrameAll(Parts(a)) != FrameAll(Parts(b))
  {
    if FrameAll(Parts(a)) == FrameAll(Parts(b)) {
      var x, y := Parts(a), Parts(b);
      FirstParts(x, y);
      FirstParts(x[1..], y[1..]);
      FirstParts(x[1..][1..], y[1..][1..]);
    }
  }

  lemma KindsDiffer(a: Binding, b: Binding)
    requires BindingValid(a) && BindingValid(b) && FrameAll(Parts(a)) == FrameAll(Parts(b))
    ensures a.RotationBinding? == b.RotationBinding? && a.RevocationBinding? == b.RevocationBinding?
  {
    FirstParts(Parts(a), Parts(b));
    if a.RotationBinding? && b.RegistrationBinding? { RotationIsNoRegistration(a, b); }
    if b.RotationBinding? && a.RegistrationBinding? { RotationIsNoRegistration(b, a); }
  }

  lemma PartsInjective(a: Binding, b: Binding)
    requires a.RotationBinding? == b.RotationBinding? && a.RevocationBinding? == b.RevocationBinding? &&
             Parts(a) == Parts(b)
    ensures a == b
  {
    var x, y := Parts(a), Parts(b);
    assert x[0] == y[0] && x[1] == y[1] && x[2] == y[2] && x[3] == y[3] && x[4] == y[4];
    if a.RegistrationBinding? {
      assert x[5] == y[5] && x[6] == y[6] && x[7] == y[7] && x[8] == y[8] && x[9] == y[9] && x[10] == y[10] &&
             x[11] == y[11];
    }
  }

  /** The digest's input determines the kind of the request and every field of it, even apart from the digest's own
      domain. */
  lemma BindingInjective(a: Binding, b: Binding)
    requires BindingValid(a) && BindingValid(b) && FrameAll(Parts(a)) == FrameAll(Parts(b))
    ensures a == b
  {
    KindsDiffer(a, b);
    PartsAreSmall(a);
    PartsAreSmall(b);
    FramesInjective(Parts(a), Parts(b));
    PartsInjective(a, b);
  }

  lemma PartsAreSmall(a: Binding)
    requires BindingValid(a)
    ensures Small(Parts(a)) && |Parts(a)| == if a.RegistrationBinding? then 12 else 5
  {
  }

  // ----- proofs of possession -----

  const POP_PREFIX: seq<byte> := Ascii("TALENRO-DEVICE-POP-V1\0")
  const DEVICE_ROTATION_PREFIX: seq<byte> := Ascii("TALENRO-DEVICE-ROTATION-V1\0")
  const ACCOUNT_ROTATION_PREFIX: seq<byte> := Ascii("TALENRO-ACCOUNT-ROTATION-V1\0")

  type Uuid = s: seq<byte> | |s| == 16 witness seq(16, i => 0)

  datatype Proof =
    | Possession(protocol: seq<byte>, challenge: Digest, grant: Digest, signingKey: Digest, hpkeKey: Digest,
                 operation: seq<byte>, audience: seq<byte>, nonce: Digest)
    | DeviceRotation(protocol: seq<byte>, challenge: Digest, id: Uuid, operation: seq<byte>, audience: seq<byte>,
                     nonce: Digest)
    | AccountRotation(protocol: seq<byte>, challenge: Digest, id: Uuid, operation: seq<byte>, audience: seq<byte>,
                      nonce: Digest)

  /** What the three transcript builders demand; the text encoding of the strings is not part of this model. */
  predicate ProofValid(p: Proof) {
    && 0 < |p.protocol| <= 64 && 0 < |p.operation| <= 64 && 0 < |p.audience| <= 2048 && !Zero(p.challenge) &&
       !Zero(p.nonce)
    && (match p
        case Possession(_, _, grant, signingKey, hpkeKey, _, _, _) =>
          !Zero(grant) && !Zero(signingKey) && !Zero(hpkeKey)
        case DeviceRotation(_, _, id, _, _, _) => !Zero(id)
        case AccountRotation(_, _, id, _, _, _) => !Zero(id))
  }

  function Prefix(p: Proof): seq<byte> {
    match p
    case Possession(_, _, _, _, _, _, _, _) => POP_PREFIX
    case DeviceRotation(_, _, _, _, _, _) => DEVICE_ROTATION_PREFIX
    case AccountRotation(_, _, _, _, _, _) => ACCOUNT_ROTATION_PREFIX
  }

  /** The fixed-size fields between the protocol and the operation. */
  function Fixed(p: Proof): seq<byte> {
    match p
    case Possession(_, challenge, grant, signingKey, hpkeKey, _, _, _) => challenge + grant + signingKey + hpkeKey
    case DeviceRotation(_, challenge, id, _, _, _) => challenge + id
    case AccountRotation(_, challenge, id, _, _, _) => challenge + id
  }

  // ProofBytes, DeviceRotationProofBytes and AccountRotationProofBytes; nil is an absent transcript
  function ProofBytes(p: Proof): Option<seq<byte>> {
    if !ProofValid(p) then None else
      Some(Prefix(p) + Frame(4, p.protocol) + Fixed(p) + Frame(4, p.operation) + Frame(4, p.audience) + p.nonce)
  }

  lemma PrefixesDiffer(p: Proof, x: seq<byte>, q: Proof, y: seq<byte>)
    requires Prefix(p) + x == Prefix(q) + y
    ensures p.Possession? == q.Possession? && p.DeviceRotation? == q.DeviceRotation?
  {
    var wire := Prefix(p) + x;
    assert wire[8] == Prefix(p)[8] && wire[15] == Prefix(p)[15] && wire[8] == Prefix(q)[8] && wire[15] == Prefix(q)[15];
    assert POP_PREFIX[8] == 'D' as int as byte && DEVICE_ROTATION_PREFIX[8] == 'D' as int as byte &&
           ACCOUNT_ROTATION_PREFIX[8] == 'A' as int as byte;
    assert POP_PREFIX[15] == 'P' as int as byte && DEVICE_ROTATION_PREFIX[15] == 'R' as int as byte;
  }

  lemma BodiesInjective(a: (seq<byte>, seq<byte>, seq<byte>, seq<byte>, seq<byte>),
                        b: (seq<byte>, seq<byte>, seq<byte>, seq<byte>, seq<byte>))
    requires |a.0| < 0x1_0000_0000 && |b.0| < 0x1_0000_0000 && |a.2| < 0x1_0000_0000 && |b.2| < 0x1_0000_0000
    requires |a.3| < 0x1_0000_0000 && |b.3| < 0x1_0000_0000 && |a.1| == |b.1|
    requires Frame(4, a.0) + (a.1 + (Frame(4, a.2) + (Frame(4, a.3) + a.4))) ==
             Frame(4, b.0) + (b.1 + (Frame(4, b.2) + (Frame(4, b.3) + b.4)))
    ensures a == b
  {
    Powers();
    FrameSplits(4, a.0, a.1 + (Frame(4, a.2) + (Frame(4, a.3) + a.4)), b.0,
                b.1 + (Frame(4, b.2) + (Frame(4, b.3) + b.4)));
    SplitAt(a.1, Frame(4, a.2) + (Frame(4, a.3) + a.4), b.1, Frame(4, b.2) + (Frame(4, b.3) + b.4));
    FrameSplits(4, a.2, Frame(4, a.3) + a.4, b.2, Frame(4, b.3) + b.4);
    FrameSplits(4, a.3, a.4, b.3, b.4);
  }

  lemma Regroup(p: seq<byte>, a: seq<byte>, b: seq<byte>, c: seq<byte>, d: seq<byte>, e: seq<byte>)
    ensures p + a + b + c + d + e == p + (a + (b + (c + (d + e))))
  {
  }

  lemma FixedInjective(p: Proof, q: Proof)
    requires p.Possession? == q.Possession? && p.DeviceRotation? == q.DeviceRotation? && Fixed(p) == Fixed(q)
    ensures p.challenge == q.challenge
    ensures p.Possession? ==> p.grant == q.grant && p.signingKey == q.signingKey && p.hpkeKey == q.hpkeKey
    ensures !p.Possession? ==> p.id == q.id
  {
    if p.Possession? {
      SplitAt(p.challenge + p.grant + p.signingKey, p.hpkeKey, q.challenge + q.grant + q.signingKey, q.hpkeKey);
      SplitAt(p.challenge + p.grant, p.signingKey, q.challenge + q.grant, q.signingKey);
      SplitAt(p.challenge, p.grant, q.challenge, q.grant);
    } else {
      SplitAt(p.challenge, p.id, q.challenge, q.id);
    }
  }

  /** A signed transcript determines its kind and every field: no proof of one kind is a proof of another. */
  lemma ProofsInjective(p: Proof, q: Proof)
    requires ProofValid(p) && ProofValid(q) && ProofBytes(p) == ProofBytes(q)
    ensures p == q
  {
    var x := (p.protocol, Fixed(p), p.operation, p.audience, p.nonce);
    var y := (q.protocol, Fixed(q), q.operation, q.audience, q.nonce);
    Regroup(Prefix(p), Frame(4, x.0), x.1, Frame(4, x.2), Frame(4, x.3), x.4);
    Regroup(Prefix(q), Frame(4, y.0), y.1, Frame(4, y.2), Frame(4, y.3), y.4);
    var restP, restQ := Frame(4, x.0) + (x.1 + (Frame(4, x.2) + (Frame(4, x.3) + x.4))),
      Frame(4, y.0) + (y.1 + (Frame(4, y.2) + (Frame(4, y.3) + y.4)));
    PrefixesDiffer(p, restP, q, restQ);
    SplitAt(Prefix(p), restP, Prefix(q), restQ);
    BodiesInjective(x, y);
    FixedInjective(p, q);
  }

  // ----- rate-limit subjects -----

  const RATE_PREFIX: seq<byte> := Ascii("TALENRO-RATE-LIMIT-V1\0")

  datatype Operation = Login | Delivery | ChallengeOp

  function Name(o: Operation): seq<byte> {
    match o
    case Login => Ascii("login")
    case Delivery => Ascii("delivery")
    case ChallengeOp => Ascii("challenge")
  }

  // SubjectDigest, up to the keyed digest
  function SubjectMaterial(o: Operation, window: int, subject: seq<byte>): seq<byte>
    requires Int64(window)
  {
    RATE_PREFIX + Name(o) + PutInt64(window) + subject
  }

  /** The operation names are not prefixes of one another and the window has a fixed width, so the material determines
      all three inputs. */
  lemma SubjectsInjective(o: Operation, v: int, x: seq<byte>, p: Operation, w: int, y: seq<byte>)
    requires Int64(v) && Int64(w) && SubjectMaterial(o, v, x) == SubjectMaterial(p, w, y)
    ensures o == p && v == w && x == y
  {
    var restO, restP := Name(o) + (PutInt64(v) + x), Name(p) + (PutInt64(w) + y);
    Regroup4(RATE_PREFIX, Name(o), PutInt64(v), x);
    Regroup4(RATE_PREFIX, Name(p), PutInt64(w), y);
    SplitAt(RATE_PREFIX, restO, RATE_PREFIX, restP);
    NamesDiffer(o, PutInt64(v) + x, p, PutInt64(w) + y);
    SplitAt(Name(o), PutInt64(v) + x, Name(p), PutInt64(w) + y);
    SplitAt(PutInt64(v), x, PutInt64(w), y);
    Int64RoundTrip(v);
    Int64RoundTrip(w);
  }

  lemma Regroup4(a: seq<byte>, b: seq<byte>, c: seq<byte>, d: seq<byte>)
    ensures a + b + c + d == a + (b + (c + d))
  {
  }

  lemma NamesDiffer(o: Operation, x: seq<byte>, p: Operation, y: seq<byte>)
    requires Name(o) + x == Name(p) + y
    ensures o == p
  {
    var wire := Name(o) + x;
    assert wire[0] == Name(o)[0] && wire[0] == Name(p)[0];
    assert Name(Login)[0] == 'l' as int as byte && Name(Delivery)[0] == 'd' as int as byte &&
           Name(ChallengeOp)[0] == 'c' as int as byte;
  }
}
