/** Row locks: what each change of the database touches, and what a transaction that holds locks can rely on
    meanwhile. */
module Locks {
  import opened Schema
  import opened Identity
  import opened DeviceTx
  import opened Protocol
  import opened Effects
  import opened History
  import opened Rows

  /** Everything a transaction can wait for. */
  datatype Resource =
    | RecordLock(key: RecordKey)
    | TokenLock(family: Id, hash: Hash)
    | FamilyLock(f: Id)
    | AuthorizationLock(a: Id)
    | DeviceLock(d: Id)
    | CredentialLock(p: Id)
    | SessionLock(sid: Id)
    | AccountLock(p: Id)

  function TokenLocks(refresh: map<Hash, Refresh>, f: Id): set<Resource> {
    set h | h in refresh && refresh[h].family == f :: TokenLock(f, h)
  }

  function FamilyLocks(families: map<Id, Family>, a: Id): set<Resource> {
    set f | f in families && families[f].authorization == a :: FamilyLock(f)
  }

  /** The rows an effect changes.  PostgreSQL locks every row it updates, and inserting a refresh token takes a
      key-share lock on its family, which a FOR UPDATE lock excludes. */
  function Touches(db: DB, effect: Effect): set<Resource> {
    match effect
    case Nothing => {}
    case AccountSide => {}
    case Rotating(g, times, access, refresh, key, request, now) =>
      {RecordLock(key), TokenLock(g.familyId, g.token), FamilyLock(g.familyId)}
    case Compromising(g, key, request, now) =>
      {RecordLock(key), FamilyLock(g.familyId)} + TokenLocks(db.refresh, g.familyId)
    case Revoking(r, a, key, now) =>
      {RecordLock(key), AuthorizationLock(a), DeviceLock(r.device)} + FamilyLocks(db.families, a) +
      OwnedTokenLocks(db.refresh, db.families, a)
    case Registering(c, e, state, policy, x, now) =>
      {RecordLock(RecordKey(RegisterScope, c.key)), TokenLock(x.family, x.refresh), FamilyLock(x.family),
       AuthorizationLock(x.authorization),
       DeviceLock(x.device)}
    case Activating(p, now) =>
      {AccountLock(p)} + OwnedAuthorizationLocks(db.authorizations, p)
    case Pruning(cutoff) => PrunedLocks(db.records, cutoff)
  }

  ghost predicate RecordsKept(x: map<RecordKey, Record>, y: map<RecordKey, Record>, locks: set<Resource>) {
    forall k {:trigger RecordLock(k)} :: RecordLock(k) in locks ==> (k in x <==> k in y) && (k in x ==> y[k] == x[k])
  }

  /** Under a family lock the family's whole set of refresh tokens stays as it is. */
  ghost predicate TokensKept(x: map<Hash, Refresh>, y: map<Hash, Refresh>, locks: set<Resource>) {
    && (forall f, h {:trigger TokenLock(f, h)} ::
          TokenLock(f, h) in locks && h in x && x[h].family == f ==> h in y && y[h] == x[h])
    && (forall f {:trigger FamilyLock(f)} :: FamilyLock(f) in locks ==> AgreeOn(x, y, {f}))
  }

  ghost predicate FamiliesKept(x: map<Id, Family>, y: map<Id, Family>, locks: set<Resource>) {
    forall f {:trigger FamilyLock(f)} :: FamilyLock(f) in locks && f in x ==> f in y && y[f] == x[f]
  }

  ghost predicate AuthorizationsKept(x: map<Id, Authorization>, y: map<Id, Authorization>, locks: set<Resource>) {
    forall a {:trigger AuthorizationLock(a)} :: AuthorizationLock(a) in locks && a in x ==> a in y && y[a] == x[a]
  }

  ghost predicate DevicesKept(x: map<Id, Device>, y: map<Id, Device>, locks: set<Resource>) {
    forall d {:trigger DeviceLock(d)} :: DeviceLock(d) in locks && d in x ==> d in y && y[d] == x[d]
  }

  ghost predicate AccountsKept(x: map<Id, Account>, y: map<Id, Account>, locks: set<Resource>) {
    forall p {:trigger AccountLock(p)} :: AccountLock(p) in locks && p in x ==> p in y && y[p] == x[p]
  }

  /** Rows under these locks are the same in both databases. */
  ghost predicate Undisturbed(db: DB, db': DB, locks: set<Resource>) {
    && RecordsKept(db.records, db'.records, locks) && TokensKept(db.refresh, db'.refresh, locks)
    && FamiliesKept(db.families, db'.families, locks) &&
       AuthorizationsKept(db.authorizations, db'.authorizations, locks)
    && DevicesKept(db.devices, db'.devices, locks) && AccountsKept(db.accounts, db'.accounts, locks)
  }

  // ----- table by table -----

  lemma TokenSpent(x: map<Hash, Refresh>, token: Hash, refresh: Hash, f: Id, locks: set<Resource>)
    requires token in x && x[token].family == f && refresh !in x
    requires TokenLock(f, token) !in locks && FamilyLock(f) !in locks
    ensures TokensKept(x, x[token := x[token].(state := Used)][refresh := Refresh(f, Some(token), Active)], locks)
  {
  }

  lemma TokensRevoked(x: map<Hash, Refresh>, f: Id, locks: set<Resource>)
    requires locks !! TokenLocks(x, f) && FamilyLock(f) !in locks
    ensures TokensKept(x, RevokeActive(x, f), locks)
  {
    forall h | h in x && x[h].family == f ensures TokenLock(f, h) !in locks {
      assert TokenLock(f, h) in TokenLocks(x, f);
    }
  }

  lemma RootAdded(x: map<Hash, Refresh>, refresh: Hash, f: Id, locks: set<Resource>)
    requires refresh !in x && FamilyLock(f) !in locks
    ensures TokensKept(x, x[refresh := Refresh(f, None, Active)], locks)
  {
  }

  function OwnedTokenLocks(refresh: map<Hash, Refresh>, families: map<Id, Family>, a: Id): set<Resource> {
    set h | h in refresh && refresh[h].family in families && families[refresh[h].family].authorization == a ::
      TokenLock(refresh[h].family, h)
  }

  lemma FamiliesRevoked(families: map<Id, Family>, refresh: map<Hash, Refresh>, a: Id, locks: set<Resource>)
    requires locks !! FamilyLocks(families, a) && locks !! OwnedTokenLocks(refresh, families, a)
    ensures FamiliesKept(families, RevokeFamilies(families, a), locks)
    ensures TokensKept(refresh, RevokeFamilyTokens(refresh, families, a), locks)
  {
    forall f | f in families && families[f].authorization == a ensures FamilyLock(f) !in locks {
      assert FamilyLock(f) in FamilyLocks(families, a);
    }
    forall h | h in refresh && refresh[h].family in families && families[refresh[h].family].authorization == a
      ensures TokenLock(refresh[h].family, h) !in locks
    {
      assert TokenLock(refresh[h].family, h) in OwnedTokenLocks(refresh, families, a);
    }
  }

  function OwnedAuthorizationLocks(authorizations: map<Id, Authorization>, p: Id): set<Resource> {
    set a | a in authorizations && authorizations[a].principal == p :: AuthorizationLock(a)
  }

  lemma AuthorizationsActivated(x: map<Id, Authorization>, p: Id, now: Time, locks: set<Resource>)
    requires locks !! OwnedAuthorizationLocks(x, p)
    ensures AuthorizationsKept(x, ActivateProvisional(x, p, now), locks)
  {
    forall a | a in x && x[a].principal == p ensures AuthorizationLock(a) !in locks {
      assert AuthorizationLock(a) in OwnedAuthorizationLocks(x, p);
    }
  }

  lemma RecordsPrunedKept(x: map<RecordKey, Record>, cutoff: Time, locks: set<Resource>)
    requires locks !! PrunedLocks(x, cutoff)
    ensures RecordsKept(x, PruneRecords(x, cutoff), locks)
  {
    forall k | k in x && k !in PruneRecords(x, cutoff) ensures RecordLock(k) !in locks {
      assert RecordLock(k) in PrunedLocks(x, cutoff);
    }
  }

  function PrunedLocks(x: map<RecordKey, Record>, cutoff: Time): set<Resource> {
    set k | k in x && k !in PruneRecords(x, cutoff) :: RecordLock(k)
  }

  lemma RotationTouches(db: DB, mode: Mode, effect: Effect, db': DB, locks: set<Resource>)
    requires effect.Rotating? && Makes(db, mode, effect, db') && locks !! Touches(db, effect)
    ensures Undisturbed(db, db', locks)
  {
    TokenSpent(db.refresh, effect.g.token, effect.refresh, effect.g.familyId, locks);
  }

  lemma CompromiseTouches(db: DB, mode: Mode, effect: Effect, db': DB, locks: set<Resource>)
    requires effect.Compromising? && Makes(db, mode, effect, db') && locks !! Touches(db, effect)
    ensures Undisturbed(db, db', locks)
  {
    TokensRevoked(db.refresh, effect.g.familyId, locks);
  }

  lemma RevocationTouches(db: DB, mode: Mode, effect: Effect, db': DB, locks: set<Resource>)
    requires effect.Revoking? && Makes(db, mode, effect, db') && locks !! Touches(db, effect)
    ensures Undisturbed(db, db', locks)
  {
    FamiliesRevoked(db.families, db.refresh, effect.authorization, locks);
  }

  lemma RegistrationTouches(db: DB, mode: Mode, effect: Effect, db': DB, locks: set<Resource>)
    requires effect.Registering? && Makes(db, mode, effect, db') && locks !! Touches(db, effect)
    ensures Undisturbed(db, db', locks)
  {
    RootAdded(db.refresh, effect.x.refresh, effect.x.family, locks);
  }

  lemma ActivationTouches(db: DB, mode: Mode, effect: Effect, db': DB, locks: set<Resource>)
    requires effect.Activating? && Makes(db, mode, effect, db') && locks !! Touches(db, effect)
    ensures Undisturbed(db, db', locks)
  {
    VerifyTouches(db, effect.principal, effect.now, locks);
  }

  lemma VerifyTouches(db: DB, p: Id, now: Time, locks: set<Resource>)
    requires AccountLock(p) !in locks && locks !! OwnedAuthorizationLocks(db.authorizations, p)
    ensures Undisturbed(db, VerifyEmail(db, p, now), locks)
  {
    var db' := VerifyEmail(db, p, now);
    if p in db.accounts && db.accounts[p].state.PendingEmail? {
      AuthorizationsActivated(db.authorizations, p, now, locks);
      assert AuthorizationsKept(db.authorizations, db'.authorizations, locks);
      assert AccountsKept(db.accounts, db'.accounts, locks);
    }
  }

  lemma PruningTouches(db: DB, mode: Mode, effect: Effect, db': DB, locks: set<Resource>)
    requires effect.Pruning? && Makes(db, mode, effect, db') && locks !! Touches(db, effect)
    ensures Undisturbed(db, db', locks)
  {
    RecordsPrunedKept(db.records, effect.cutoff, locks);
  }

  lemma AccountTouches(db: DB, mode: Mode, effect: Effect, db': DB, locks: set<Resource>)
    requires effect.AccountSide? && Makes(db, mode, effect, db') && locks !! Touches(db, effect)
    ensures Undisturbed(db, db', locks)
  {
  }

  /** An effect leaves everything alone that it does not touch. */
  lemma Footprint(db: DB, mode: Mode, effect: Effect, db': DB, locks: set<Resource>)
    requires Makes(db, mode, effect, db') && locks !! Touches(db, effect)
    ensures Undisturbed(db, db', locks)
  {
    if effect.Rotating? { RotationTouches(db, mode, effect, db', locks); }
    else if effect.Compromising? { CompromiseTouches(db, mode, effect, db', locks); }
    else if effect.Revoking? { RevocationTouches(db, mode, effect, db', locks); }
    else if effect.Registering? { RegistrationTouches(db, mode, effect, db', locks); }
    else if effect.Activating? { ActivationTouches(db, mode, effect, db', locks); }
    else if effect.Pruning? { PruningTouches(db, mode, effect, db', locks); }
    else if effect.AccountSide? { AccountTouches(db, mode, effect, db', locks); }
  }
}
