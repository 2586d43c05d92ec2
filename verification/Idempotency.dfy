/** Idempotency records: insert if absent, locked read, guarded completion, the protected response frame, and
    ownership of a response body. Digests are symbolic and so injective; sealed fields are symbolic values that open
    only under the key and context that sealed them. */
module Idempotency {
  import opened Schema
  import opened Bytes
  import opened ChallengeCodec

  const MAX_CANONICAL: nat := 64 * 1024
  const MAX_RESPONSE: nat := 0x10_0000
  const MAX_STORED: nat := 1_048_608
  const MAX_PROTECTED: nat := MAX_RESPONSE + 1
  const MAX_INT32: nat := 0x7FFF_FFFF
  const NONCE_BYTES: nat := 12
  const TAG_BYTES: nat := 16
  const FRAME_VERSION: byte := 1
  const ZERO_TIME: Time := -62_135_596_800 * SECOND
  const RESPONSE_DOMAIN: string := "idempotency/response/v1"

  datatype Error = InvalidArgument | StoreConflict | RecordUnavailable | ProtectionFailed | Closed
  datatype Result<+T> = Ok(value: T) | Err(error: Error)

  // ----- the local field protector -----

  predicate DomainChar(c: char) {
    'a' <= c <= 'z' || '0' <= c <= '9' || c == '/' || c == '.' || c == ':' || c == '_' || c == '-'
  }

  // validDomain
  predicate DomainValid(domain: string) {
    1 <= |domain| <= 128 && forall i :: 0 <= i < |domain| ==> DomainChar(domain[i])
  }

  const FIELD_PREFIX: seq<byte> := Ascii("TALENRO-FIELD-V1\0")

  // fieldAAD
  function FieldAad(domain: string, version: nat): seq<byte>
    requires DomainValid(domain)
  {
    FIELD_PREFIX + Ascii(domain) + [0] + BigEndian(4, version)
  }

  /** The authenticated context determines the domain and the key version. */
  lemma AadInjective(d: string, v: nat, e: string, w: nat)
    requires DomainValid(d) && DomainValid(e) && v <= MAX_INT32 && w <= MAX_INT32 && FieldAad(d, v) == FieldAad(e, w)
    ensures d == e && v == w
  {
    Powers();
    assert |FieldAad(d, v)| == |FIELD_PREFIX| + |d| + 5 && |FieldAad(e, w)| == |FIELD_PREFIX| + |e| + 5;
    SplitAt(FIELD_PREFIX + Ascii(d) + [0], BigEndian(4, v), FIELD_PREFIX + Ascii(e) + [0], BigEndian(4, w));
    BigEndianInjective(4, v, w);
    SplitAt(FIELD_PREFIX + Ascii(d), [0], FIELD_PREFIX + Ascii(e), [0]);
    SplitAt(FIELD_PREFIX, Ascii(d), FIELD_PREFIX, Ascii(e));
    forall i | 0 <= i < |d| ensures d[i] == e[i] { assert Ascii(d)[i] == Ascii(e)[i]; }
  }

  datatype Sealed = Sealed(nonce: seq<byte>, key: seq<byte>, aad: seq<byte>, plaintext: seq<byte>)
  datatype Field = Field(keyVersion: nat, ciphertext: Sealed)

  function Size(c: Sealed): nat { |c.nonce| + |c.plaintext| + TAG_BYTES }

  datatype Protector = Protector(key: seq<byte>, keyVersion: nat, closed: bool)

  predicate ProtectorValid(p: Protector) {
    if p.closed then p.key == [] && p.keyVersion == 0 else |p.key| == 32 && 1 <= p.keyVersion <= MAX_INT32
  }

  // Local.Encrypt
  function Seal(p: Protector, domain: string, plaintext: seq<byte>, nonce: seq<byte>): Result<Field> {
    if !DomainValid(domain) || plaintext == [] || |plaintext| > MAX_PROTECTED then Err(InvalidArgument)
    else if p.closed then Err(Closed)
    else Ok(Field(p.keyVersion, Sealed(nonce, p.key, FieldAad(domain, p.keyVersion), plaintext)))
  }

  // Local.Decrypt
  function Open(p: Protector, domain: string, field: Field): Result<seq<byte>> {
    if !DomainValid(domain) || field.keyVersion == 0 || Size(field.ciphertext) <= NONCE_BYTES + TAG_BYTES ||
       Size(field.ciphertext) > NONCE_BYTES + TAG_BYTES + MAX_PROTECTED then Err(InvalidArgument)
    else if p.closed then Err(Closed)
    else if field.keyVersion != p.keyVersion then Err(ProtectionFailed)
    else if field.ciphertext.key != p.key || field.ciphertext.aad != FieldAad(domain, field.keyVersion)
            then Err(ProtectionFailed)
    else Ok(field.ciphertext.plaintext)
  }

  /** A sealed field opens to its plaintext in its own domain and in no other. */
  lemma SealedOpens(p: Protector, domain: string, other: string, plaintext: seq<byte>, nonce: seq<byte>)
    requires ProtectorValid(p) && |nonce| == NONCE_BYTES && Seal(p, domain, plaintext, nonce).Ok?
    ensures var field := Seal(p, domain, plaintext, nonce).value;
            && Open(p, domain, field) == Ok(plaintext)
            && (DomainValid(other) ==> (Open(p, other, field).Ok? <==> other == domain))
  {
    if DomainValid(other) && FieldAad(other, p.keyVersion) == FieldAad(domain, p.keyVersion) {
      AadInjective(other, p.keyVersion, domain, p.keyVersion);
    }
  }

  /** The protector object shared by every copy of its handle. */
  class Local {
    var state: Protector

    constructor (key: seq<byte>, keyVersion: nat)
      requires |key| == 32 && 1 <= keyVersion <= MAX_INT32
      ensures state == Protector(key, keyVersion, false) && ProtectorValid(state)
    {
      state := Protector(key, keyVersion, false);
    }

    /** Erases the keys; afterwards nothing seals or opens, and closing again changes nothing. */
    method Close()
      requires ProtectorValid(state)
      modifies this
      ensures ProtectorValid(state) && state == Protector([], 0, true)
      ensures forall d, plaintext, nonce :: Seal(state, d, plaintext, nonce).Err?
      ensures forall d, field :: Open(state, d, field).Err?
    {
      if !state.closed { state := Protector([], 0, true); }
    }
  }

  // ----- scopes and keys -----

  datatype Scope = Scope(principal: string, operation: string)

  predicate NameChar(c: char) { 'a' <= c <= 'z' || '0' <= c <= '9' || c == '_' }

  /** The common form of operations and credential domains. */
  predicate NameValid(s: string, maximum: nat) {
    1 <= |s| <= maximum && 'a' <= s[0] <= 'z' && forall i :: 1 <= i < |s| ==> NameChar(s[i])
  }

  predicate Anonymous(s: Scope) {
    || s == Scope("anonymous_registration", "register_account")
    || s == Scope("anonymous_email_verification_delivery", "create_email_verification_delivery")
    || s == Scope("anonymous_password_reset_delivery", "create_password_reset_delivery")
    || s == Scope("anonymous_device_registration", "register_device")
    || s == Scope("anonymous_passkey_authentication", "begin_passkey_authentication")
  }

  /** principal, a canonical identifier and a credential domain, separated by colons. */
  predicate PrincipalForm(p: string) {
    && |p| > 47 && p[..10] == "principal:" && CanonicalUuid(p[10..46]) && p[46] == ':' && NameValid(p[47..], 32)
  }

  // validScope
  predicate ScopeValid(s: Scope) {
    NameValid(s.operation, 64) && |s.principal| <= 128 && (Anonymous(s) || PrincipalForm(s.principal))
  }

  // AuthenticatedScope
  function AuthenticatedScope(id: string, domain: string, operation: string): Result<Scope> {
    if !CanonicalUuid(id) || !NameValid(domain, 32) || !NameValid(operation, 64) then Err(InvalidArgument)
    else Ok(Scope("principal:" + id + ":" + domain, operation))
  }

  lemma ScopeParts(id: string, domain: string)
    requires |id| == 36
    ensures var p := "principal:" + id + ":" + domain;
            p[..10] == "principal:" && p[10..46] == id && p[46] == ':' && p[47..] == domain && |p| == 47 + |domain|
  {
  }

  /** Authenticated scopes are valid, keep principals, credential domains and operations apart, and are never an
      anonymous scope. */
  lemma ScopesSeparate(a: string, d: string, o: string, b: string, e: string, q: string)
    requires AuthenticatedScope(a, d, o).Ok? && AuthenticatedScope(b, e, q).Ok?
    ensures ScopeValid(AuthenticatedScope(a, d, o).value) && !Anonymous(AuthenticatedScope(a, d, o).value)
    ensures AuthenticatedScope(a, d, o) == AuthenticatedScope(b, e, q) <==> a == b && d == e && o == q
  {
    ScopeParts(a, d);
    ScopeParts(b, e);
    assert AuthenticatedScope(a, d, o).value.principal[0] == 'p';
  }

  predicate KeyChar(c: char) { 'a' <= c <= 'z' || 'A' <= c <= 'Z' || '0' <= c <= '9' || c == '-' || c == '_' }

  predicate KeyValid(key: string) { 22 <= |key| <= 86 && forall i :: 0 <= i < |key| ==> KeyChar(key[i]) }

  /** The digest of an operation and its canonical request. */
  datatype RequestDigest = RequestDigest(operation: string, canonical: seq<byte>)

  // ----- rows -----

  datatype RowState = Running | Finished | FailedState
  datatype RowKey = RowKey(scope: Scope, key: string)
  datatype Row = Row(digest: RequestDigest, state: RowState, status: Option<int>, field: Option<Field>, createdAt: Time,
                     expiresAt: Time)

  datatype Outcome = Started | Replay(status: int, body: seq<byte>) | Conflict | Busy

  predicate BeginValid(scope: Scope, key: string, canonical: seq<byte>, createdAt: Time, expiresAt: Time) {
    ScopeValid(scope) && KeyValid(key) && 1 <= |canonical| <= MAX_CANONICAL && createdAt != ZERO_TIME &&
    createdAt < expiresAt
  }

  // Begin on a row that is already there
  function Classify(row: Row, p: Protector, digest: RequestDigest, now: Time): Result<Outcome> {
    if row.createdAt == ZERO_TIME || row.expiresAt <= row.createdAt || row.expiresAt <= now then Err(RecordUnavailable)
    else if row.digest != digest then Ok(Conflict)
    else match row.state
      case Running => Ok(Busy)
      case FailedState => Err(RecordUnavailable)
      case Finished =>
        if row.status.None? || !(100 <= row.status.value <= 599) || row.field.None? ||
           !(1 <= row.field.value.keyVersion <= MAX_INT32) ||
           Size(row.field.value.ciphertext) <= 28 || Size(row.field.value.ciphertext) > MAX_STORED
           then Err(RecordUnavailable)
        else
          var plain := Open(p, RESPONSE_DOMAIN, row.field.value);
          if plain.Err? || plain.value == [] || |plain.value| > MAX_RESPONSE + 1 || plain.value[0] != FRAME_VERSION
          then Err(ProtectionFailed)
          else Ok(Replay(row.status.value, plain.value[1..]))
  }

  function BeginOutcome(rows: map<RowKey, Row>, p: Protector, scope: Scope, key: string, canonical: seq<byte>,
                        now: Time, expiresAt: Time)
    : Result<Outcome>
  {
    if !BeginValid(scope, key, canonical, now, expiresAt) then Err(InvalidArgument)
    else if RowKey(scope, key) !in rows then Ok(Started)
    else Classify(rows[RowKey(scope, key)], p, RequestDigest(scope.operation, canonical), now)
  }

  function BeginRows(rows: map<RowKey, Row>, p: Protector, scope: Scope, key: string, canonical: seq<byte>, now: Time,
                     expiresAt: Time)
    : map<RowKey, Row>
  {
    if BeginOutcome(rows, p, scope, key, canonical, now, expiresAt) == Ok(Started)
    then rows[RowKey(scope, key) := Row(RequestDigest(scope.operation, canonical), Running, None, None, now, expiresAt)]
    else rows
  }

  // ----- completion -----

  /** The response frame: a version byte before the body. */
  function ResponseFrame(body: seq<byte>): seq<byte> { [FRAME_VERSION] + body }

  predicate Guard(rows: map<RowKey, Row>, k: RowKey, digest: RequestDigest) {
    k in rows && rows[k].digest == digest && rows[k].state.Running?
  }

  function CompleteRows(rows: map<RowKey, Row>, k: RowKey, status: int, field: Field): map<RowKey, Row>
    requires k in rows
  {
    rows[k := rows[k].(state := Finished, status := Some(status), field := Some(field))]
  }

  /** Under the local protector every body up to 1 MiB fits every size limit on the way in and on the way out. */
  lemma BodiesFit(p: Protector, body: seq<byte>, nonce: seq<byte>)
    requires ProtectorValid(p) && !p.closed && |nonce| == NONCE_BYTES && |body| <= MAX_RESPONSE
    ensures var sealed := Seal(p, RESPONSE_DOMAIN, ResponseFrame(body), nonce);
            && sealed.Ok? && 1 <= sealed.value.keyVersion <= MAX_INT32
            && 28 < Size(sealed.value.ciphertext) <= MAX_STORED
            && Open(p, RESPONSE_DOMAIN, sealed.value) == Ok(ResponseFrame(body))
  {
    assert DomainValid(RESPONSE_DOMAIN);
    SealedOpens(p, RESPONSE_DOMAIN, RESPONSE_DOMAIN, ResponseFrame(body), nonce);
  }

  /** What a completed record answers: its own request gets the stored status and body byte for byte while it lasts,
      any other request under the key gets a conflict and no body. */
  lemma CompletedReplays(rows: map<RowKey, Row>, p: Protector, k: RowKey, canonical: seq<byte>, status: int,
                         body: seq<byte>, nonce: seq<byte>,
                         again: seq<byte>, now: Time, until: Time)
    requires ProtectorValid(p) && !p.closed && |nonce| == NONCE_BYTES && |body| <= MAX_RESPONSE && 100 <= status <= 599
    requires Guard(rows, k, RequestDigest(k.scope.operation, canonical)) && rows[k].createdAt != ZERO_TIME &&
             rows[k].createdAt < rows[k].expiresAt
    requires BeginValid(k.scope, k.key, again, now, until)
    ensures var field := Seal(p, RESPONSE_DOMAIN, ResponseFrame(body), nonce);
            && field.Ok?
            && BeginOutcome(CompleteRows(rows, k, status, field.value), p, k.scope, k.key, again, now, until) ==
               if rows[k].expiresAt <= now then Err(RecordUnavailable)
               else if again == canonical then Ok(Replay(status, body)) else Ok(Conflict)
  {
    BodiesFit(p, body, nonce);
    assert ResponseFrame(body)[1..] == body;
  }

  /** The whole life of a key: begun once, completed once, replayed to its own request until it expires. */
  lemma BeginCompleteReplay(rows: map<RowKey, Row>, p: Protector, scope: Scope, key: string, canonical: seq<byte>,
                            at: Time, expiresAt: Time,
                            status: int, body: seq<byte>, nonce: seq<byte>, now: Time, until: Time)
    requires ProtectorValid(p) && !p.closed && |nonce| == NONCE_BYTES && |body| <= MAX_RESPONSE && 100 <= status <= 599
    requires BeginOutcome(rows, p, scope, key, canonical, at, expiresAt) == Ok(Started)
    requires BeginValid(scope, key, canonical, now, until) && now < expiresAt
    ensures var begun := BeginRows(rows, p, scope, key, canonical, at, expiresAt); var k := RowKey(scope, key);
            && Guard(begun, k, RequestDigest(scope.operation, canonical))
            && BeginOutcome(begun, p, scope, key, canonical, now, until) == Ok(Busy)
            && var field := Seal(p, RESPONSE_DOMAIN, ResponseFrame(body), nonce);
               && field.Ok?
               && var done := CompleteRows(begun, k, status, field.value);
                  && BeginOutcome(done, p, scope, key, canonical, now, until) == Ok(Replay(status, body))
                  && !Guard(done, k, RequestDigest(scope.operation, canonical))
  {
    var begun := BeginRows(rows, p, scope, key, canonical, at, expiresAt);
    CompletedReplays(begun, p, RowKey(scope, key), canonical, status, body, nonce, canonical, now, until);
  }

  // ----- ownership of a response body -----

  /** The shared owner behind every copy of a record handle. */
  datatype Ownership = Ownership(body: seq<byte>, available: bool)

  function TakeOne(o: Ownership): (Ownership, Option<seq<byte>>) {
    if o.available then (Ownership([], false), Some(o.body)) else (o, None)
  }

  /** The answers to n takes, in whatever order the copies make them. */
  function Takes(o: Ownership, n: nat): (answers: seq<Option<seq<byte>>>)
    ensures |answers| == n
    decreases n
  {
    if n == 0 then [] else [TakeOne(o).1] + Takes(TakeOne(o).0, n - 1)
  }

  /** Over all copies of a handle the body is taken exactly once, by the first to ask. */
  lemma {:induction false} TakenOnce(o: Ownership, n: nat)
    ensures forall i :: 0 <= i < n ==> Takes(o, n)[i] == if i == 0 && o.available then Some(o.body) else None
    decreases n
  {
    if n > 0 { TakenOnce(TakeOne(o).0, n - 1); }
  }

  class ResponseOwnership {
    var state: Ownership

    constructor (body: seq<byte>)
      ensures state == Ownership(body, true)
    {
      state := Ownership(body, true);
    }

    method Take() returns (body: Option<seq<byte>>)
      modifies this
      ensures (state, body) == TakeOne(old(state))
    {
      if !state.available { return None; }
      body := Some(state.body);
      state := Ownership([], false);
    }
  }

  /** A record handle; copies share the response owner. */
  datatype Handle = Handle(
    k: RowKey, digest: RequestDigest, state: RowState, status: int, response: ResponseOwnership?,
    createdAt: Time, expiresAt: Time, canComplete: bool)

  /** The handle carries the key, digest, state and times of its row. */
  predicate HandleOf(h: Handle, k: RowKey, rows: map<RowKey, Row>) {
    && k in rows && h.k == k && h.digest == rows[k].digest && h.state == rows[k].state
    && h.createdAt == rows[k].createdAt && h.expiresAt == rows[k].expiresAt
  }

  /** What Complete demands of a handle. */
  predicate Completable(h: Handle, rows: map<RowKey, Row>) {
    && ScopeValid(h.k.scope) && !h.state.FailedState? && h.createdAt != ZERO_TIME && h.createdAt < h.expiresAt
    && h.canComplete && h.state.Running? && Guard(rows, h.k, h.digest)
  }

  /** A started handle satisfies all of it on the rows Begin leaves. */
  lemma StartedIsCompletable(h: Handle, rows: map<RowKey, Row>, p: Protector, scope: Scope, key: string,
                             canonical: seq<byte>, at: Time, expiresAt: Time)
    requires BeginOutcome(rows, p, scope, key, canonical, at, expiresAt) == Ok(Started) && h.canComplete
    requires HandleOf(h, RowKey(scope, key), BeginRows(rows, p, scope, key, canonical, at, expiresAt))
    ensures Completable(h, BeginRows(rows, p, scope, key, canonical, at, expiresAt))
  {
  }

  // TakeResponseBody
  method TakeResponseBody(h: Handle) returns (body: Option<seq<byte>>)
    modifies h.response
    ensures h.response == null ==> body == None
    ensures h.response != null ==> (h.response.state, body) == TakeOne(old(h.response.state))
  {
    if h.response == null { return None; }
    body := h.response.Take();
  }

  // ----- the repository -----

  class Repository {
    const protector: Local
    var rows: map<RowKey, Row>

    constructor (p: Local)
      ensures protector == p && rows == map[]
    {
      protector, rows := p, map[];
    }

    method Begin(scope: Scope, key: string, canonical: seq<byte>, createdAt: Time, expiresAt: Time)
      returns (h: Option<Handle>, outcome: Result<Outcome>)
      modifies this
      ensures outcome == BeginOutcome(old(rows), protector.state, scope, key, canonical, createdAt, expiresAt)
      ensures rows == BeginRows(old(rows), protector.state, scope, key, canonical, createdAt, expiresAt)
      ensures outcome.Ok? <==> h.Some?
      ensures h.Some? ==> HandleOf(h.value, RowKey(scope, key), rows) &&
                          (h.value.canComplete <==> outcome.value.Started?)
      ensures h.Some? && outcome.value.Replay? ==>
                && h.value.response != null && fresh(h.value.response)
                && h.value.status == outcome.value.status &&
                   h.value.response.state == Ownership(outcome.value.body, true)
      ensures h.Some? && !outcome.value.Replay? ==> h.value.response == null && h.value.status == 0
    {
      if !BeginValid(scope, key, canonical, createdAt, expiresAt) { return None, Err(InvalidArgument); }
      var digest := RequestDigest(scope.operation, canonical);
      var k := RowKey(scope, key);
      if k !in rows {
        rows := rows[k := Row(digest, Running, None, None, createdAt, expiresAt)];
        return Some(Handle(k, digest, Running, 0, null, createdAt, expiresAt, true)), Ok(Started);
      }
      var row := rows[k];
      outcome := Classify(row, protector.state, digest, createdAt);
      if outcome.Err? { return None, outcome; }
      var owner: ResponseOwnership? := null;
      var status := 0;
      if outcome.value.Replay? {
        owner := new ResponseOwnership(outcome.value.body);
        status := outcome.value.status;
      }
      h := Some(Handle(k, row.digest, row.state, status, owner, row.createdAt, row.expiresAt, false));
    }

    method Complete(h: Handle, status: int, body: seq<byte>, nonce: seq<byte>) returns (r: Result<Handle>)
      requires ProtectorValid(protector.state) && |nonce| == NONCE_BYTES
      modifies this
      ensures r.Ok? <==> Completable(h, old(rows)) && 100 <= status <= 599 && |body| <= MAX_RESPONSE &&
                         !protector.state.closed
      ensures r.Ok? ==>
                && Seal(protector.state, RESPONSE_DOMAIN, ResponseFrame(body), nonce).Ok?
                && rows == CompleteRows(old(rows), h.k, status,
                                        Seal(protector.state, RESPONSE_DOMAIN, ResponseFrame(body), nonce).value)
      ensures r.Err? ==> rows == old(rows)
      ensures r.Ok? ==>
                && HandleOf(r.value, h.k, rows)
                && r.value.status == status && r.value.response != null && fresh(r.value.response)
                && r.value.response.state == Ownership(body, true) && !r.value.canComplete
    {
      if !ScopeValid(h.k.scope) || h.state.FailedState? || h.createdAt == ZERO_TIME || h.createdAt >= h.expiresAt ||
         status < 100 || status > 599 || |body| > MAX_RESPONSE { return Err(InvalidArgument); }
      if !h.canComplete || !h.state.Running? { return Err(StoreConflict); }
      var frame := [FRAME_VERSION] + body;
      var sealed := Seal(protector.state, RESPONSE_DOMAIN, frame, nonce);
      if protector.state.closed { return Err(ProtectionFailed); }
      BodiesFit(protector.state, body, nonce);
      if h.k !in rows || rows[h.k].digest != h.digest || !rows[h.k].state.Running? { return Err(StoreConflict); }
      rows := CompleteRows(rows, h.k, status, sealed.value);
      var owner := new ResponseOwnership(body);
      r := Ok(Handle(h.k, h.digest, Finished, status, owner, rows[h.k].createdAt, rows[h.k].expiresAt, false));
    }
  }

  /** Through the methods: a fresh key is begun, completed with any valid status and body, and begun again by the same
      request before it expires; the second handle replays the status and hands out the completed body. */
  method BeginCompleteBegin(repository: Repository, scope: Scope, key: string, canonical: seq<byte>, at: Time,
                            expiresAt: Time, status: int, body: seq<byte>, nonce: seq<byte>, now: Time, until: Time)
    returns (completed: Result<Handle>, replayed: Option<Handle>, taken: Option<seq<byte>>)
    requires ProtectorValid(repository.protector.state) && !repository.protector.state.closed && |nonce| == NONCE_BYTES
    requires BeginValid(scope, key, canonical, at, expiresAt) && RowKey(scope, key) !in repository.rows
    requires 100 <= status <= 599 && |body| <= MAX_RESPONSE
    requires BeginValid(scope, key, canonical, now, until) && now < expiresAt
    modifies repository
    ensures completed.Ok? && completed.value.status == status
    ensures replayed.Some? && replayed.value.status == status && !replayed.value.canComplete && taken == Some(body)
  {
    ghost var rows, p := repository.rows, repository.protector.state;
    var first, started := repository.Begin(scope, key, canonical, at, expiresAt);
    StartedIsCompletable(first.value, rows, p, scope, key, canonical, at, expiresAt);
    BeginCompleteReplay(rows, p, scope, key, canonical, at, expiresAt, status, body, nonce, now, until);
    completed := repository.Complete(first.value, status, body, nonce);
    var outcome;
    replayed, outcome := repository.Begin(scope, key, canonical, now, until);
    taken := TakeResponseBody(replayed.value);
  }
}
