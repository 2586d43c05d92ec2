/** The PostgreSQL tables read and written by device authorization, as one immutable value.
    An identifier or digest is a number whose zero is the all-zero UUID or digest, which the
    code never accepts.  An instant is a number of nanoseconds. */
module Schema {
  type Id = nat
  type Hash = nat
  type Time = int

  const SECOND: Time := 1_000_000_000
  const MINUTE: Time := 60 * SECOND
  const DAY: Time := 24 * 60 * MINUTE

  datatype Option<+T> = None | Some(value: T)

  /** The deployment's email verification mode. */
  datatype Mode = EmailRequired | EmailGrace | EmailDisabled

  datatype AccountState = PendingEmail | AccountActive | AccountSuspended | DeletionPending | Deleted
  datatype Account = Account(state: AccountState, version: nat, createdAt: Time)

  datatype SessionState = SessionActive | ReviewRequired | SessionRevoked | SessionCompromised
  datatype Session = Session(
    principal: Id, state: SessionState, version: nat,
    accessHash: Hash, accessExpires: Time, absoluteExpires: Time,
    authorization: Option<Id>)

  /** Refresh tokens of either domain. */
  datatype TokenState = Active | Used | Revoked
  datatype AccountRefresh = AccountRefresh(session: Id, state: TokenState, idleExpires: Time, absoluteExpires: Time)

  datatype Marker = Standard | TrialRestricted
  datatype GrantState = Unused | Consumed | Expired
  datatype Grant = Grant(
    principal: Id, session: Id, marker: Marker, provisionalUntil: Option<Time>,
    state: GrantState, expiresAt: Time, consumedDevice: Option<Id>)

  datatype DeviceState = DeviceActive | DeviceSuspended | DeviceRevoked
  datatype Device = Device(principal: Id, signingKey: Hash, hpkeKey: Hash, keyVersion: nat, state: DeviceState)

  datatype AuthState = Provisional | Authorized | AuthSuspended | AuthRevoked
  datatype Authorization = Authorization(
    principal: Id, device: Id, state: AuthState, version: nat, provisionalUntil: Option<Time>)

  /** The stored policy document.  `expiresSecond` is the RFC 3339 text, which keeps whole seconds only. */
  datatype Policy = StandardPolicy | TrialPolicy(expiresSecond: int, maxDevices: string)

  datatype FamilyState = FamilyActive | FamilyCompromised | FamilyRevoked
  datatype Family = Family(
    authorization: Id, state: FamilyState, version: nat,
    accessHash: Hash, accessExpires: Time, idleExpires: Time, absoluteExpires: Time, createdAt: Time)

  datatype Refresh = Refresh(family: Id, previous: Option<Hash>, state: TokenState)

  /** The tokens of one device response; a token is named by its digest. */
  datatype DeviceTokens = DeviceTokens(
    device: Id, authorization: Id, family: Id, access: Hash, refresh: Hash,
    accessExpires: Time, idleExpires: Time, absoluteExpires: Time)

  datatype Body = TokenBody(tokens: DeviceTokens) | NotAuthenticated | EmptyBody
  datatype Response = Response(status: int, body: Body)

  /** The principal scope, operation and key digest under which a request is recorded. */
  datatype Scope = RotateScope(principal: Id) | RevokeScope(principal: Id) | RegisterScope
  datatype RecordKey = RecordKey(scope: Scope, key: Hash)

  /** What the private request binding fixes; the binding is a keyed digest of these fields. */
  datatype Request =
    | RotateRequest(refresh: Hash, challenge: Id, nonce: Hash, signature: Signature)
    | RegisterRequest(grant: Hash, challenge: Id, nonce: Hash, signingKey: Hash, hpkeKey: Hash, displayName: Hash,
                      signature: Signature)
    | RevokeRequest(device: Id, session: Id, proof: Hash)

  /** A signature names the key that made it and the transcript it covers. */
  datatype Signature = Signature(key: Hash, transcript: Transcript)
  datatype Transcript =
    | RotationTranscript(challenge: Hash, family: Id, nonce: Hash)
    | RegistrationTranscript(challenge: Hash, grant: Hash, signingKey: Hash, hpkeKey: Hash, nonce: Hash)

  datatype RecordState = InProgress | Completed
  datatype Record = Record(request: Request, state: RecordState, response: Option<Response>, createdAt: Time,
                           expiresAt: Time)

  datatype Event =
    | AuthorizationChanged(authorization: Id, state: AuthState, version: nat)
    | FamilyCompromisedEvent(authorization: Id, family: Id, version: nat)
  datatype Audit = DeviceTokenReplay(authorization: Id) | DeviceRegistered(authorization: Id)

  datatype DB = DB(
    accounts: map<Id, Account>,
    sessions: map<Id, Session>,
    accountRefresh: map<Hash, AccountRefresh>,
    grants: map<Hash, Grant>,
    devices: map<Id, Device>,
    authorizations: map<Id, Authorization>,
    policies: map<Id, Policy>,
    families: map<Id, Family>,
    refresh: map<Hash, Refresh>,
    records: map<RecordKey, Record>,
    events: seq<Event>,
    audit: seq<Audit>)

  const EMPTY_DB := DB(map[], map[], map[], map[], map[], map[], map[], map[], map[], map[], [], [])

  /** The databases differ at most in accounts, account sessions, their refresh tokens and grants. */
  predicate SameDeviceTables(db: DB, db': DB) {
    db' == db.(accounts := db'.accounts, sessions := db'.sessions, accountRefresh := db'.accountRefresh,
               grants := db'.grants)
  }
}
