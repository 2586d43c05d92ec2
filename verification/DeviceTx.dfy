/** Device transactions.  Each function gives the database a transaction commits, or the old
    database when it rolls back, together with what the service then does. */
module DeviceTx {
  import opened Schema
  import opened Identity

  const DEVICE_ACCESS_TTL: Time := 10 * MINUTE
  const DEVICE_IDLE_TTL: Time := 30 * DAY
  const DEVICE_ABSOLUTE_TTL: Time := 90 * DAY
  const ROTATION_RETENTION: Time := 90 * DAY
  const REGISTRATION_RETENTION: Time := DAY

  // ----- idempotency, as the device transactions use it -----

  datatype Begun = Started | Replay(response: Response) | KeyConflict | KeyBusy | KeyUnavailable

  function Begin(records: map<RecordKey, Record>, key: RecordKey, request: Request, now: Time): Begun {
    if key !in records then Started
    else if records[key].expiresAt <= now then KeyUnavailable
    else if records[key].request != request then KeyConflict
    else if records[key].state.InProgress? then KeyBusy
    else if records[key].response.None? then KeyUnavailable
    else Replay(records[key].response.value)
  }

  function Finish(records: map<RecordKey, Record>, key: RecordKey, request: Request, now: Time, retention: Time,
                  response: Response)
    : map<RecordKey, Record>
  {
    records[key := Record(request, Completed, Some(response), now, now + retention)]
  }

  // tokensFromReplayRecordWithStatus
  function TokensFromReplay(response: Response, expected: int): Option<DeviceTokens> {
    if response.status == expected && response.body.TokenBody? &&
       var t := response.body.tokens;
       t.device != 0 && t.authorization != 0 && t.family != 0 && t.access != 0 && t.refresh != 0 &&
       t.accessExpires < t.idleExpires < t.absoluteExpires
    then Some(response.body.tokens) else None
  }

  /** What a transaction tells the service. */
  datatype Reply =
    | Tokens(tokens: DeviceTokens)
    | Done
    | AuthenticationFailed
    | Unavailable
    | Conflicted
    | Busy
    | Proceed(authority: Authority)

  datatype Tx = Tx(db: DB, reply: Reply)

  // rotationIdempotencyOutcome for everything but Started
  function ReplayReply(begun: Begun): Reply
    requires !begun.Started?
  {
    match begun
    case Replay(response) =>
      if response.status == 401 then (if response.body.NotAuthenticated? then AuthenticationFailed else Unavailable)
      else if TokensFromReplay(response, 200).Some? then Tokens(TokensFromReplay(response, 200).value)
      else Unavailable
    case KeyConflict => Conflicted
    case KeyBusy => Busy
    case KeyUnavailable => Unavailable
  }

  // ----- the authority graph behind one refresh token -----

  datatype Authority = Authority(
    token: Hash, state: TokenState, familyId: Id, family: Family,
    authorizationId: Id, authorization: Authorization, device: Device)

  // DiscoverDeviceRefreshToken
  predicate Discovered(db: DB, token: Hash) {
    && token in db.refresh
    && db.refresh[token].family in db.families
    && db.families[db.refresh[token].family].authorization in db.authorizations
    && db.authorizations[db.families[db.refresh[token].family].authorization].device in db.devices
  }

  function AuthorityOf(db: DB, token: Hash): Authority
    requires Discovered(db, token)
  {
    var f := db.refresh[token].family;
    var a := db.families[f].authorization;
    Authority(token, db.refresh[token].state, f, db.families[f], a, db.authorizations[a],
              db.devices[db.authorizations[a].device])
  }

  // validAuthorizationMarker with the provisional mode check
  predicate MarkerValid(mode: Mode, authorization: Authorization, now: Time) {
    match authorization.state
    case Authorized => authorization.provisionalUntil.None?
    case Provisional => authorization.provisionalUntil.Some? && now < authorization.provisionalUntil.value &&
                        mode.EmailGrace?
    case _ => false
  }

  // validDeviceRefreshAuthority with allowUsed
  predicate AuthorityValid(mode: Mode, g: Authority, now: Time) {
    && (g.state.Active? || g.state.Used?)
    && g.token != 0 && g.familyId != 0 && g.authorizationId != 0 && g.authorization.device != 0 &&
       g.authorization.principal != 0
    && g.family.state.FamilyActive?
    && now < g.family.absoluteExpires && (g.state.Used? || now < g.family.idleExpires)
    && MarkerValid(mode, g.authorization, now)
    && g.device.principal == g.authorization.principal && g.device.state.DeviceActive?
  }

  // lockDeviceRefreshAuthority
  function LockAuthority(db: DB, mode: Mode, token: Hash, now: Time): Option<Authority> {
    if Discovered(db, token) && AuthorityValid(mode, AuthorityOf(db, token), now) &&
       AccountAuthority(db, AuthorityOf(db, token).authorization.principal, now)
    then Some(AuthorityOf(db, token)) else None
  }

  // sameDeviceRefreshAuthority
  predicate SameAuthority(left: Authority, right: Authority) {
    && left.familyId == right.familyId && left.authorizationId == right.authorizationId
    && left.authorization.principal == right.authorization.principal &&
       left.authorization.device == right.authorization.device
    && left.family.absoluteExpires == right.family.absoluteExpires &&
       left.authorization.version == right.authorization.version
    && left.device.keyVersion == right.device.keyVersion && left.device.signingKey == right.device.signingKey
  }

  // ----- rotation -----

  datatype Command = Command(refresh: Hash, challenge: Id, nonce: Hash, signature: Signature, key: Hash)

  function RequestOf(c: Command): Request { RotateRequest(c.refresh, c.challenge, c.nonce, c.signature) }

  function RecordKeyOf(db: DB, c: Command): RecordKey
    requires Discovered(db, c.refresh)
  {
    RecordKey(RotateScope(AuthorityOf(db, c.refresh).authorization.principal), c.key)
  }

  datatype DeviceTimes = DeviceTimes(access: Time, idle: Time)

  // prepareDeviceRotation
  function RotatedTimes(g: Authority, now: Time): Option<DeviceTimes> {
    var absolute := g.family.absoluteExpires;
    var access := if g.authorization.provisionalUntil.Some?
                  then Min(now + DEVICE_ACCESS_TTL, g.authorization.provisionalUntil.value)
                  else now + DEVICE_ACCESS_TTL;
    var idle := if now + DEVICE_IDLE_TTL < absolute then now + DEVICE_IDLE_TTL else absolute - 1;
    if access < absolute && access < idle then Some(DeviceTimes(access, idle)) else None
  }

  // RevokeDeviceRefreshTokens
  function RevokeActive(refresh: map<Hash, Refresh>, family: Id): map<Hash, Refresh> {
    map h | h in refresh ::
      if refresh[h].family == family && refresh[h].state.Active? then refresh[h].(state := Revoked) else refresh[h]
  }

  predicate AccessHashFree(families: map<Id, Family>, access: Hash) {
    forall f :: f in families ==> families[f].accessHash != access
  }

  // compromiseUsedDeviceRefresh
  function Compromise(db: DB, g: Authority, key: RecordKey, request: Request, now: Time): DB
    requires g.familyId in db.families
  {
    var version := g.family.version + 1;
    db.(families := db.families[g.familyId := g.family.(state := FamilyCompromised, version := version)],
        refresh := RevokeActive(db.refresh, g.familyId),
        audit := db.audit + [DeviceTokenReplay(g.authorizationId)],
        events := db.events + [FamilyCompromisedEvent(g.authorizationId, g.familyId, version)],
        records := Finish(db.records, key, request, now, ROTATION_RETENTION, Response(401, NotAuthenticated)))
  }

  function RotatedTokens(g: Authority, times: DeviceTimes, access: Hash, refresh: Hash): DeviceTokens {
    DeviceTokens(g.authorization.device, g.authorizationId, g.familyId, access, refresh, times.access, times.idle,
                 g.family.absoluteExpires)
  }

  // MarkDeviceRefreshUsed, RotateDeviceFamilyAccess, InsertDeviceRefreshToken, CompleteIdempotency
  function Rotate(db: DB, g: Authority, times: DeviceTimes, access: Hash, refresh: Hash, key: RecordKey,
                  request: Request, now: Time): DB
    requires g.token in db.refresh
  {
    db.(families := db.families[g.familyId := g.family.(
          accessHash := access, accessExpires := times.access, idleExpires := times.idle,
          version := g.family.version + 1)],
        refresh := db.refresh[g.token := db.refresh[g.token].(state := Used)]
                             [refresh := Refresh(g.familyId, Some(g.token), Active)],
        records := Finish(db.records, key, request, now, ROTATION_RETENTION,
                          Response(200, TokenBody(RotatedTokens(g, times, access, refresh)))))
  }

  /** The preflight transaction: replay, detect reuse, or hand the authority to the challenge step after rolling back.
      */
  function PreflightTx(db: DB, mode: Mode, c: Command, now: Time): Tx {
    if !Discovered(db, c.refresh) || AuthorityOf(db, c.refresh).authorization.principal == 0
    then Tx(db, AuthenticationFailed) else
      var begun := Begin(db.records, RecordKeyOf(db, c), RequestOf(c), now);
      if !begun.Started? then Tx(db, ReplayReply(begun)) else
        var locked := LockAuthority(db, mode, c.refresh, now);
        if locked.None? then Tx(db, AuthenticationFailed)
        else if locked.value.state.Used? then
          Tx(Compromise(db, locked.value, RecordKeyOf(db, c), RequestOf(c), now), AuthenticationFailed)
        else Tx(db, Proceed(locked.value))
  }

  /** The final transaction: replay, detect reuse, or rotate. */
  function FinalTx(db: DB, mode: Mode, c: Command, now: Time, seen: Authority, access: Hash, refresh: Hash): Tx {
    if !Discovered(db, c.refresh) || AuthorityOf(db, c.refresh).authorization.principal == 0
    then Tx(db, AuthenticationFailed) else
      var key := RecordKeyOf(db, c);
      var begun := Begin(db.records, key, RequestOf(c), now);
      if !begun.Started? then Tx(db, ReplayReply(begun)) else
        var locked := LockAuthority(db, mode, c.refresh, now);
        if locked.None? || !SameAuthority(seen, locked.value) then Tx(db, AuthenticationFailed)
        else if locked.value.state.Used?
                then Tx(Compromise(db, locked.value, key, RequestOf(c), now), AuthenticationFailed)
        else
          var times := RotatedTimes(locked.value, now);
          if times.None? then Tx(db, AuthenticationFailed)
          else if access == 0 || refresh == 0 || refresh in db.refresh || !AccessHashFree(db.families, access)
                  then Tx(db, Unavailable)
          else Tx(Rotate(db, locked.value, times.value, access, refresh, key, RequestOf(c), now),
                  Tokens(RotatedTokens(locked.value, times.value, access, refresh)))
  }

  /** The transaction run when the challenge could not be consumed. */
  function ReclassifyTx(db: DB, mode: Mode, c: Command, now: Time, ambiguous: bool): Tx {
    var failed := if ambiguous then Unavailable else AuthenticationFailed;
    if !Discovered(db, c.refresh) || AuthorityOf(db, c.refresh).authorization.principal == 0 then Tx(db, failed) else
      var begun := Begin(db.records, RecordKeyOf(db, c), RequestOf(c), now);
      if !begun.Started? then Tx(db, ReplayReply(begun)) else
        var locked := LockAuthority(db, mode, c.refresh, now);
        if locked.Some? && locked.value.state.Used? then
          Tx(Compromise(db, locked.value, RecordKeyOf(db, c), RequestOf(c), now), AuthenticationFailed)
        else Tx(db, failed)
  }

  // ----- revocation -----

  datatype Revocation = Revocation(principal: Id, device: Id, session: Id, proof: Hash, key: Hash)

  // RevokeDeviceTokenFamily over every family of one authorization
  function RevokeFamilies(families: map<Id, Family>, authorization: Id): map<Id, Family> {
    map f | f in families ::
      if families[f].authorization == authorization
      then families[f].(state := FamilyRevoked, version := families[f].version + 1)
      else families[f]
  }

  function RevokeFamilyTokens(refresh: map<Hash, Refresh>, families: map<Id, Family>,
                              authorization: Id): map<Hash, Refresh> {
    map h | h in refresh ::
      if refresh[h].family in families && families[refresh[h].family].authorization == authorization &&
         refresh[h].state.Active?
      then refresh[h].(state := Revoked) else refresh[h]
  }

  // stableDeviceFamilySet and validDeviceRevocationGraph
  predicate RevocationValid(db: DB, r: Revocation, a: Id) {
    && a != 0 && r.principal != 0 && r.device != 0
    && a in db.authorizations && db.authorizations[a].device == r.device &&
       db.authorizations[a].principal == r.principal
    && !db.authorizations[a].state.AuthRevoked?
    && r.device in db.devices && db.devices[r.device].principal == r.principal &&
       !db.devices[r.device].state.DeviceRevoked?
    && (exists f :: f in db.families && db.families[f].authorization == a)
    && (forall f :: f in db.families && db.families[f].authorization == a ==>
                      f != 0 && !db.families[f].state.FamilyRevoked?)
  }

  function RevokeGraph(db: DB, r: Revocation, a: Id, key: RecordKey, now: Time): DB
    requires a in db.authorizations && r.device in db.devices
  {
    var row := db.authorizations[a];
    db.(refresh := RevokeFamilyTokens(db.refresh, db.families, a),
        families := RevokeFamilies(db.families, a),
        authorizations := db.authorizations[a := row.(state := AuthRevoked, version := row.version + 1)],
        devices := db.devices[r.device := db.devices[r.device].(state := DeviceRevoked)],
        sessions := RetireSessions(db.sessions, BoundSessions(db.sessions, a)),
        events := db.events + [AuthorizationChanged(a, AuthRevoked, row.version + 1)],
        records := Finish(db.records, key, RevokeRequest(r.device, r.session, r.proof), now, ROTATION_RETENTION,
                          Response(204, EmptyBody)))
  }

  /** RevokeDevice; `a` is the authorization that the unique device column discovers. */
  function RevokeTx(db: DB, r: Revocation, a: Id, now: Time): Tx {
    var key := RecordKey(RevokeScope(r.principal), r.key);
    var begun := Begin(db.records, key, RevokeRequest(r.device, r.session, r.proof), now);
    match begun
    case Replay(response) => Tx(db, if response == Response(204, EmptyBody) then Done else Unavailable)
    case KeyConflict => Tx(db, Conflicted)
    case KeyBusy => Tx(db, Busy)
    case KeyUnavailable => Tx(db, Unavailable)
    case Started =>
      if RevocationValid(db, r, a) && ValidateRevocation(db, r.principal, r.session, now)
      then Tx(RevokeGraph(db, r, a, key, now), Done) else Tx(db, AuthenticationFailed)
  }

  // ----- registration -----

  datatype Enroll = Enroll(
    grant: Hash, challenge: Id, nonce: Hash, signingKey: Hash, hpkeKey: Hash, displayName: Hash,
    signature: Signature, key: Hash)

  function EnrollRequest(c: Enroll): Request {
    RegisterRequest(c.grant, c.challenge, c.nonce, c.signingKey, c.hpkeKey, c.displayName, c.signature)
  }

  // validEnrollmentAuthorityMode
  predicate EnrollmentMode(mode: Mode, e: Enrollment, now: Time) {
    match e.marker
    case Standard => e.provisionalUntil.None?
    case TrialRestricted => mode.EmailGrace? && e.provisionalUntil.Some? && now < e.provisionalUntil.value
  }

  // policyForAuthority: the state and the policy document, or a refusal
  function PolicyFor(e: Enrollment, now: Time): Option<(AuthState, Policy)> {
    match e.marker
    case Standard => if e.provisionalUntil.None? then Some((Authorized, StandardPolicy)) else None
    case TrialRestricted =>
      if e.provisionalUntil.Some? && now < e.provisionalUntil.value && e.provisionalUntil.value % SECOND == 0
      then Some((Provisional, TrialPolicy(e.provisionalUntil.value / SECOND, "1"))) else None
  }

  /** Identifiers and digests drawn while a registration is prepared. */
  datatype Fresh = Fresh(device: Id, authorization: Id, family: Id, access: Hash, refresh: Hash)

  // prepareRegistration, the token set
  function RegisteredTokens(e: Enrollment, x: Fresh, now: Time): DeviceTokens {
    var access := if e.provisionalUntil.Some? then Min(now + DEVICE_ACCESS_TTL, e.provisionalUntil.value)
                  else now + DEVICE_ACCESS_TTL;
    DeviceTokens(x.device, x.authorization, x.family, x.access, x.refresh, access, now + DEVICE_IDLE_TTL,
                 now + DEVICE_ABSOLUTE_TTL)
  }

  // Primary keys and unique indexes that the inserts of one registration meet.
  predicate InsertsAccepted(db: DB, e: Enrollment, state: AuthState, c: Enroll, x: Fresh) {
    && x.device != 0 && x.authorization != 0 && x.family != 0 && x.access != 0 && x.refresh != 0
    && x.device !in db.devices && x.authorization !in db.authorizations && x.authorization !in db.policies
    && x.family !in db.families && x.refresh !in db.refresh && AccessHashFree(db.families, x.access)
    && (forall d :: d in db.devices && db.devices[d].principal == e.principal ==>
          db.devices[d].signingKey != c.signingKey && db.devices[d].hpkeKey != c.hpkeKey)
    && (forall a :: a in db.authorizations ==> db.authorizations[a].device != x.device)
    && (state.Provisional? ==> forall a :: a in db.authorizations && db.authorizations[a].principal == e.principal ==>
          !db.authorizations[a].state.Provisional?)
  }

  function RegisterGraph(db: DB, e: Enrollment, state: AuthState, policy: Policy, c: Enroll, x: Fresh, now: Time): DB
    requires c.grant in db.grants && e.session in db.sessions
  {
    var t := RegisteredTokens(e, x, now);
    var session := db.sessions[e.session];
    db.(devices := db.devices[x.device := Device(e.principal, c.signingKey, c.hpkeKey, 1, DeviceActive)],
        grants := db.grants[c.grant := db.grants[c.grant].(state := Consumed, consumedDevice := Some(x.device))],
        authorizations := db.authorizations[x.authorization := Authorization(e.principal, x.device, state, 1,
                                                                             e.provisionalUntil)],
        sessions := db.sessions[e.session := session.(authorization := Some(x.authorization),
                                                      version := session.version + 1)],
        policies := db.policies[x.authorization := policy],
        families := db.families[x.family :=
          Family(x.authorization, FamilyActive, 1, x.access, t.accessExpires, t.idleExpires, t.absoluteExpires, now)],
        refresh := db.refresh[x.refresh := Refresh(x.family, None, Active)],
        audit := db.audit + [DeviceRegistered(x.authorization)],
        events := db.events + [AuthorizationChanged(x.authorization, state, 1)],
        records := Finish(db.records, RecordKey(RegisterScope, c.key), EnrollRequest(c), now, REGISTRATION_RETENTION,
                          Response(201, TokenBody(t))))
  }

  /** RegisterDevice once its challenge and proof are accepted.  The device graph is prepared from `seen`, the
      enrollment found by the earlier preflight; the final transaction then runs. */
  function RegisterTx(db: DB, mode: Mode, c: Enroll, seen: Enrollment, x: Fresh, now: Time): Tx {
    if PolicyFor(seen, now).None? then Tx(db, AuthenticationFailed) else
      var (state, policy) := PolicyFor(seen, now).value;
      match Begin(db.records, RecordKey(RegisterScope, c.key), EnrollRequest(c), now)
      case Replay(response) =>
        var tokens := TokensFromReplay(response, 201);
        Tx(db, if tokens.Some? then Tokens(tokens.value) else Unavailable)
      case KeyConflict => Tx(db, Conflicted)
      case KeyBusy => Tx(db, Busy)
      case KeyUnavailable => Tx(db, Unavailable)
      case Started =>
        var found := ValidateEnrollment(db, c.grant, now);
        if found.None? || !EnrollmentMode(mode, found.value, now) || found.value != seen
        then Tx(db, AuthenticationFailed)
        else if !InsertsAccepted(db, seen, state, c, x) then Tx(db, Unavailable)
        else Tx(RegisterGraph(db, seen, state, policy, c, x, now), Tokens(RegisteredTokens(seen, x, now)))
  }

  // ----- bundle authorization -----

  // validDevicePolicy
  predicate PolicyAccepted(authorization: Authorization, policy: Policy, now: Time) {
    match policy
    case StandardPolicy => authorization.state.Authorized?
    case TrialPolicy(expires, devices) =>
      && devices == "1"
      && (authorization.state.Authorized? ||
          (authorization.state.Provisional? && authorization.provisionalUntil.Some? &&
           now < authorization.provisionalUntil.value &&
           expires == authorization.provisionalUntil.value / SECOND))
  }

  // authorizeBundleInDBTX for the access token of family f
  predicate Authorizes(db: DB, mode: Mode, f: Id, access: Hash, now: Time) {
    && f != 0 && f in db.families && db.families[f].accessHash == access
    && var a := db.families[f].authorization;
       && a != 0 && a in db.authorizations && a in db.policies
       && db.authorizations[a].principal != 0 && db.authorizations[a].device != 0 &&
          db.authorizations[a].device in db.devices
       && var d := db.devices[db.authorizations[a].device];
          && d.principal == db.authorizations[a].principal && d.state.DeviceActive? && d.keyVersion > 0
          && db.families[f].state.FamilyActive?
          && now < db.families[f].accessExpires && now < db.families[f].idleExpires &&
             now < db.families[f].absoluteExpires
          && MarkerValid(mode, db.authorizations[a], now)
          && AccountAuthority(db, db.authorizations[a].principal, now)
          && PolicyAccepted(db.authorizations[a], db.policies[a], now)
  }
}
