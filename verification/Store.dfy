/** The database as one mutable object.  The first group of methods are the SQL statements: each changes the rows its
    WHERE clause admits and reports whether there were any.  The second group are the service's transactions,
    statement by statement, with an explicit rollback; each is proved to commit exactly what the corresponding
    function of DeviceTx says. */
module Store {
  import opened Schema
  import opened Identity
  import opened DeviceTx
  import opened Rows

  // lockDeviceRefreshAuthority: discover, lock in order, discover again, validate, list again, compare
  method LockRefreshAuthority(db: DB, mode: Mode, token: Hash, now: Time)
    returns (locked: Option<Authority>, skew: bool)
    ensures !skew && locked == LockAuthority(db, mode, token, now)
  {
    skew := false;
    if !Discovered(db, token) { return None, false; }
    var f := db.refresh[token].family;
    var a := db.families[f].authorization;
    var d := db.authorizations[a].device;
    if f == 0 || a == 0 || db.authorizations[a].principal == 0 || d == 0 { return None, false; }
    var rows := SelectRows(db.refresh, f);
    var g := Authority(token, db.refresh[token].state, f, db.families[f], a, db.authorizations[a], db.devices[d]);
    var standing := AccountAuthority(db, g.authorization.principal, now);
    var again := SelectRows(db.refresh, f);
    SameRowsExactly(rows, again, db.refresh, db.refresh, {f});
    var same := SameRefreshSet(rows, again);
    skew := !same;
    var valid := ValidRefreshAuthority(mode, g, rows, again, token, now);
    PresentedExactly(rows, db.refresh, f, token, g.state);
    locked := if standing && valid then Some(g) else None;
  }

  // validDeviceRefreshAuthority with the provisional mode check
  method ValidRefreshAuthority(mode: Mode, g: Authority, rows: seq<Row>, again: seq<Row>, token: Hash, now: Time)
    returns (valid: bool)
    ensures valid <==>
            && AuthorityValid(mode, g, now) && g.token == token && rows == again && Ascending(rows) &&
               Row(token, g.familyId, g.state) in rows
            && forall i {:trigger rows[i]} :: 0 <= i < |rows| ==> rows[i].family == g.familyId
  {
    var stateValid := g.state.Active? || g.state.Used?;
    var unexpired := now < g.family.absoluteExpires && (g.state.Used? || now < g.family.idleExpires);
    var same := SameRefreshSet(rows, again);
    if !stateValid || g.token != token || g.token == 0 || g.familyId == 0 || g.authorizationId == 0 ||
       g.authorization.principal == 0 ||
       g.authorization.device == 0 || !g.family.state.FamilyActive? || !unexpired ||
       !MarkerValid(mode, g.authorization, now) ||
       g.device.principal != g.authorization.principal || !g.device.state.DeviceActive? || !same
    {
      return false;
    }
    valid := Presented(rows, g.familyId, token, g.state);
  }

  // ----- revocation: locks and checks -----

  /** The unique index on the device column of authorizations. */
  ghost predicate OneAuthorizationPerDevice(db: DB) {
    forall a, b {:trigger db.authorizations[a], db.authorizations[b]} ::
      a in db.authorizations && b in db.authorizations && db.authorizations[a].device == db.authorizations[b].device ==>
        a == b
  }

  // GetDeviceTokenFamilyForUpdate for each discovered family
  method LockFamilies(families: map<Id, Family>, discovered: seq<FamilyRow>)
    returns (locked: seq<FamilyRow>, found: bool)
    ensures found <==> forall i {:trigger discovered[i]} :: 0 <= i < |discovered| ==> discovered[i].id in families
    ensures found ==> |locked| == |discovered|
    ensures found ==> forall i {:trigger discovered[i]} :: 0 <= i < |discovered| ==>
                        locked[i] == FamilyRowOf(discovered[i].id, families[discovered[i].id])
  {
    locked := [];
    var i := 0;
    while i < |discovered|
      invariant 0 <= i <= |discovered| && |locked| == i
      invariant forall j {:trigger discovered[j]} :: 0 <= j < i ==>
                  discovered[j].id in families && locked[j] == FamilyRowOf(discovered[j].id, families[discovered[j].id])
    {
      if discovered[i].id !in families { return locked, false; }
      locked := locked + [FamilyRowOf(discovered[i].id, families[discovered[i].id])];
      i := i + 1;
    }
    found := true;
  }

  lemma StableExactly(rows: seq<FamilyRow>, families: map<Id, Family>, a: Id)
    requires ListsFamilies(rows, families, a)
    ensures rows != [] <==> exists f :: f in families && families[f].authorization == a
    ensures (forall i {:trigger rows[i]} :: 0 <= i < |rows| ==> rows[i].id != 0 && !rows[i].state.FamilyRevoked?) <==>
            (forall f :: f in families && families[f].authorization == a ==>
                           f != 0 && !families[f].state.FamilyRevoked?)
  {
    assert rows != [] ==> rows[0].id in families;
    assert forall f :: f in families && families[f].authorization == a ==> HoldsFamily(rows, f);
  }

  // lockDeviceRevocationAuthority with validDeviceRevocationGraph
  method LockRevocation(db: DB, r: Revocation, now: Time) returns (a: Id, families: seq<FamilyRow>, valid: bool)
    requires OneAuthorizationPerDevice(db) && r.principal != 0 && r.device != 0
    ensures forall b :: b in db.authorizations && db.authorizations[b].device == r.device ==> a == b
    ensures valid <==> RevocationValid(db, r, a) && ValidateRevocation(db, r.principal, r.session, now)
    ensures valid ==> ListsFamilies(families, db.families, a)
  {
    var found := set b | b in db.authorizations && db.authorizations[b].device == r.device;
    families := [];
    if found == {} {
      assert forall b :: b in db.authorizations && db.authorizations[b].device == r.device ==> b in found;
      return 0, [], false;
    }
    a :| a in found;
    if a == 0 { return a, [], false; }
    families := SelectFamilies(db.families, a);
    StableExactly(families, db.families, a);
    var stable := StableFamilies(families, a);
    if !stable { return a, families, false; }
    var rows := CollectRows(db.refresh, families);
    var locked, present := LockFamilies(db.families, families);
    assert present && locked == families;
    if r.device !in db.devices { return a, families, false; }
    var standing := ValidateRevocation(db, r.principal, r.session, now);
    var again := SelectFamilies(db.families, a);
    FamiliesListOnce(families, again, db.families, a);
    var refreshed := CollectRows(db.refresh, locked);
    ghost var which := set i | 0 <= i < |families| :: families[i].id;
    SameRowsExactly(rows, refreshed, db.refresh, db.refresh, which);
    var same := SameRefreshSet(rows, refreshed);
    var within := RowsWithin(rows, set i | 0 <= i < |families| :: families[i].id);
    valid := standing && families == locked && locked == again && same && within &&
             db.authorizations[a].principal == r.principal && !db.authorizations[a].state.AuthRevoked? &&
             db.devices[r.device].principal == r.principal && !db.devices[r.device].state.DeviceRevoked?;
  }

  lemma {:induction false} FamiliesListOnce(x: seq<FamilyRow>, y: seq<FamilyRow>, families: map<Id, Family>, a: Id)
    requires ListsFamilies(x, families, a) && ListsFamilies(y, families, a)
    ensures x == y
  {
    forall r ensures r in x <==> r in y { FamilyListed(x, families, a, r); FamilyListed(y, families, a, r); }
    FamiliesInOrder(x, y);
  }

  lemma FamilyListed(x: seq<FamilyRow>, families: map<Id, Family>, a: Id, r: FamilyRow)
    requires ListsFamilies(x, families, a)
    ensures r in x <==> r.id in families && r == FamilyRowOf(r.id, families[r.id]) && r.authorization == a
  {
    if r.id in families && r == FamilyRowOf(r.id, families[r.id]) && r.authorization == a {
      assert HoldsFamily(x, r.id);
    }
  }

  lemma {:induction false} FamiliesInOrder(x: seq<FamilyRow>, y: seq<FamilyRow>)
    requires AscendingFamilies(x) && AscendingFamilies(y) && (forall r :: r in x <==> r in y)
    ensures x == y
    decreases |x|
  {
    assert x != [] ==> x[0] in x && x[0] in y;
    assert y != [] ==> y[0] in y && y[0] in x;
    if x != [] {
      assert x[0] == y[0];
      forall r ensures r in x[1..] <==> r in y[1..] { FamilyTail(x, r); FamilyTail(y, r); }
      FamiliesInOrder(x[1..], y[1..]);
      assert x == [x[0]] + x[1..] && y == [y[0]] + y[1..];
    }
  }

  lemma FamilyTail(x: seq<FamilyRow>, r: FamilyRow)
    requires AscendingFamilies(x) && x != []
    ensures r in x[1..] <==> r in x && r != x[0]
  {
    if r in x[1..] { var i :| 0 <= i < |x[1..]| && x[1..][i] == r; assert x[i + 1] == r && x[0].id < x[i + 1].id; }
    if r in x && r != x[0] { var i :| 0 <= i < |x| && x[i] == r; assert x[1..][i - 1] == r; }
  }

  // ----- revocation: what the loop over the families has done so far -----

  function RevokeSome(families: map<Id, Family>, done: set<Id>): map<Id, Family> {
    map f | f in families ::
      if f in done then families[f].(state := FamilyRevoked, version := families[f].version + 1) else families[f]
  }

  function RevokeTokensOf(refresh: map<Hash, Refresh>, done: set<Id>): map<Hash, Refresh> {
    map h | h in refresh ::
      if refresh[h].family in done && refresh[h].state.Active? then refresh[h].(state := Revoked) else refresh[h]
  }

  lemma RevokeOneMore(families: map<Id, Family>, refresh: map<Hash, Refresh>, done: set<Id>, f: Id)
    requires f in families && f !in done
    ensures RevokeActive(RevokeTokensOf(refresh, done), f) == RevokeTokensOf(refresh, done + {f})
    ensures RevokeSome(families, done)[f := families[f].(state := FamilyRevoked, version := families[f].version + 1)] ==
            RevokeSome(families, done + {f})
  {
  }

  ghost function FirstIds(rows: seq<FamilyRow>, n: nat): set<Id>
    requires n <= |rows|
  {
    set j | 0 <= j < n :: rows[j].id
  }

  lemma NextId(rows: seq<FamilyRow>, n: nat)
    requires n < |rows| && AscendingFamilies(rows)
    ensures FirstIds(rows, n + 1) == FirstIds(rows, n) + {rows[n].id} && rows[n].id !in FirstIds(rows, n)
  {
  }

  lemma RevokedThemAll(families: map<Id, Family>, refresh: map<Hash, Refresh>, rows: seq<FamilyRow>, a: Id)
    requires ListsFamilies(rows, families, a)
    ensures var all := FirstIds(rows, |rows|);
            && RevokeSome(families, all) == RevokeFamilies(families, a)
            && RevokeTokensOf(refresh, all) == RevokeFamilyTokens(refresh, families, a)
  {
    var all := FirstIds(rows, |rows|);
    assert forall f :: f in families && families[f].authorization == a ==> HoldsFamily(rows, f);
    assert forall f :: f in families ==> (f in all <==> families[f].authorization == a);
    assert forall f :: f in all ==> f in families;
  }

  // ----- registration in two parts -----

  predicate EnrollAccepted(db: DB, e: Enrollment, state: AuthState, c: Enroll, x: Fresh) {
    && x.device !in db.devices && x.authorization !in db.authorizations
    && (forall d :: d in db.devices && db.devices[d].principal == e.principal ==>
          db.devices[d].signingKey != c.signingKey && db.devices[d].hpkeKey != c.hpkeKey)
    && (forall a :: a in db.authorizations ==> db.authorizations[a].device != x.device)
    && (state.Provisional? ==> forall a :: a in db.authorizations && db.authorizations[a].principal == e.principal ==>
          !db.authorizations[a].state.Provisional?)
  }

  function Enrolled(db: DB, e: Enrollment, state: AuthState, c: Enroll, x: Fresh): DB
    requires c.grant in db.grants && e.session in db.sessions
  {
    var session := db.sessions[e.session];
    db.(devices := db.devices[x.device := Device(e.principal, c.signingKey, c.hpkeKey, 1, DeviceActive)],
        grants := db.grants[c.grant := db.grants[c.grant].(state := Consumed, consumedDevice := Some(x.device))],
        authorizations := db.authorizations[x.authorization := Authorization(e.principal, x.device, state, 1,
                                                                             e.provisionalUntil)],
        sessions := db.sessions[e.session := session.(authorization := Some(x.authorization),
                                                      version := session.version + 1)],
        audit := db.audit + [DeviceRegistered(x.authorization)])
  }

  predicate RootAccepted(db: DB, t: DeviceTokens) {
    t.authorization !in db.policies && t.family !in db.families && AccessHashFree(db.families, t.access) &&
    t.refresh !in db.refresh
  }

  function Rooted(db: DB, t: DeviceTokens, state: AuthState, policy: Policy, key: RecordKey, now: Time): DB
    requires key in db.records
  {
    db.(policies := db.policies[t.authorization := policy],
        families := db.families[t.family :=
          Family(t.authorization, FamilyActive, 1, t.access, t.accessExpires, t.idleExpires, t.absoluteExpires, now)],
        refresh := db.refresh[t.refresh := Refresh(t.family, None, Active)],
        events := db.events + [AuthorizationChanged(t.authorization, state, 1)],
        records := db.records[key := db.records[key].(state := Completed,
                                                      response := Some(Response(201, TokenBody(t))))])
  }

  /** The database once the registration's record is started. */
  function StartedOn(saved: DB, c: Enroll, now: Time): DB {
    saved.(records := saved.records[RecordKey(RegisterScope, c.key) :=
      Record(EnrollRequest(c), InProgress, None, now, now + REGISTRATION_RETENTION)])
  }

  lemma AcceptedInTwoParts(saved: DB, e: Enrollment, state: AuthState, c: Enroll, x: Fresh, now: Time)
    requires x.device != 0 && x.authorization != 0 && x.family != 0 && x.access != 0 && x.refresh != 0
    requires c.grant in saved.grants && e.session in saved.sessions
    ensures InsertsAccepted(saved, e, state, c, x) <==>
            EnrollAccepted(StartedOn(saved, c, now), e, state, c, x) &&
            RootAccepted(Enrolled(StartedOn(saved, c, now), e, state, c, x), RegisteredTokens(e, x, now))
  {
  }

  lemma StartedThenFinished(records: map<RecordKey, Record>, key: RecordKey, request: Request, now: Time,
                            retention: Time, response: Response)
    ensures var started := records[key := Record(request, InProgress, None, now, now + retention)];
            started[key := started[key].(state := Completed, response := Some(response))] ==
            Finish(records, key, request, now, retention, response)
  {
  }

  /** The two groups of inserts, run on the database that holds the started record, make up the registration graph. */
  lemma RegistrationInTwoParts(saved: DB, e: Enrollment, state: AuthState, policy: Policy, c: Enroll, x: Fresh,
                               now: Time, enrolled: DB)
    requires c.grant in saved.grants && e.session in saved.sessions &&
             enrolled == Enrolled(StartedOn(saved, c, now), e, state, c, x)
    ensures RegisterGraph(saved, e, state, policy, c, x, now) ==
            Rooted(enrolled, RegisteredTokens(e, x, now), state, policy, RecordKey(RegisterScope, c.key), now)
  {
    StartedThenFinished(saved.records, RecordKey(RegisterScope, c.key), EnrollRequest(c), now, REGISTRATION_RETENTION,
                        Response(201, TokenBody(RegisteredTokens(e, x, now))));
  }

  lemma BeginKeepsEnrollment(db: DB, db': DB, grant: Hash, now: Time)
    requires db' == db.(records := db'.records)
    ensures ValidateEnrollment(db', grant, now) == ValidateEnrollment(db, grant, now)
  {
  }

  /** The started record is in nobody's way: the graph behind a token does not depend on idempotency records. */
  lemma BeginKeepsAuthority(db: DB, db': DB, mode: Mode, token: Hash, now: Time)
    requires db' == db.(records := db'.records)
    ensures Discovered(db', token) == Discovered(db, token)
    ensures LockAuthority(db', mode, token, now) == LockAuthority(db, mode, token, now)
  {
  }

  lemma BeginKeepsRevocation(db: DB, db': DB, r: Revocation, a: Id, now: Time)
    requires db' == db.(records := db'.records)
    ensures RevocationValid(db', r, a) == RevocationValid(db, r, a)
    ensures ValidateRevocation(db', r.principal, r.session, now) == ValidateRevocation(db, r.principal, r.session, now)
  {
  }

  class Store {
    var db: DB

    constructor ()
      ensures db == EMPTY_DB
    {
      db := EMPTY_DB;
    }

    // ----- statements -----

    // TryBeginIdempotency and, when the key is taken, GetIdempotencyForUpdate
    method BeginIdempotency(key: RecordKey, request: Request, now: Time, retention: Time) returns (begun: Begun)
      modifies this
      ensures begun == Begin(old(db).records, key, request, now)
      ensures db == if begun.Started?
                    then old(db).(records := old(db).records[key := Record(request, InProgress, None, now,
                                                                           now + retention)]) else old(db)
    {
      if key !in db.records {
        db := db.(records := db.records[key := Record(request, InProgress, None, now, now + retention)]);
        return Started;
      }
      begun := Begin(db.records, key, request, now);
    }

    method CompleteIdempotency(key: RecordKey, request: Request, response: Response) returns (ok: bool)
      modifies this
      ensures ok <==> key in old(db).records && old(db).records[key].state.InProgress? &&
                      old(db).records[key].request == request
      ensures db == if ok
                    then old(db).(records := old(db).records[key := old(db).records[key].(
                                    state := Completed, response := Some(response))])
                    else old(db)
    {
      ok := key in db.records && db.records[key].state.InProgress? && db.records[key].request == request;
      if ok {
        db := db.(records := db.records[key := db.records[key].(state := Completed, response := Some(response))]);
      }
    }

    method MarkDeviceRefreshUsed(token: Hash) returns (ok: bool)
      modifies this
      ensures ok <==> token in old(db).refresh && old(db).refresh[token].state.Active?
      ensures db == if ok then old(db).(refresh := old(db).refresh[token := old(db).refresh[token].(state := Used)])
              else old(db)
    {
      ok := token in db.refresh && db.refresh[token].state.Active?;
      if ok { db := db.(refresh := db.refresh[token := db.refresh[token].(state := Used)]); }
    }

    method RotateDeviceFamilyAccess(f: Id, access: Hash, times: DeviceTimes, now: Time) returns (row: Option<Family>)
      modifies this
      ensures row.Some? <==>
                f in old(db).families && old(db).families[f].state.FamilyActive? &&
                now <= old(db).families[f].idleExpires &&
                             now <= old(db).families[f].absoluteExpires && AccessHashFree(old(db).families, access)
      ensures row.Some? ==> row.value == old(db).families[f].(
                accessHash := access, accessExpires := times.access, idleExpires := times.idle,
                version := old(db).families[f].version + 1)
      ensures db == if row.Some? then old(db).(families := old(db).families[f := row.value]) else old(db)
    {
      if f in db.families && db.families[f].state.FamilyActive? && now <= db.families[f].idleExpires &&
         now <= db.families[f].absoluteExpires && AccessHashFree(db.families, access)
      {
        row := Some(db.families[f].(
          accessHash := access, accessExpires := times.access, idleExpires := times.idle,
          version := db.families[f].version + 1));
        db := db.(families := db.families[f := row.value]);
      } else {
        row := None;
      }
    }

    method InsertDeviceRefreshToken(token: Hash, f: Id, previous: Option<Hash>) returns (ok: bool)
      modifies this
      ensures ok <==> token !in old(db).refresh && f in old(db).families
      ensures db == if ok then old(db).(refresh := old(db).refresh[token := Refresh(f, previous, Active)]) else old(db)
    {
      ok := token !in db.refresh && f in db.families;
      if ok { db := db.(refresh := db.refresh[token := Refresh(f, previous, Active)]); }
    }

    method CompromiseDeviceTokenFamily(f: Id) returns (row: Option<Family>)
      modifies this
      ensures row.Some? <==> f in old(db).families && old(db).families[f].state.FamilyActive?
      ensures row.Some? ==>
                row.value == old(db).families[f].(state := FamilyCompromised,
                                                  version := old(db).families[f].version + 1)
      ensures db == if row.Some? then old(db).(families := old(db).families[f := row.value]) else old(db)
    {
      if f in db.families && db.families[f].state.FamilyActive? {
        row := Some(db.families[f].(state := FamilyCompromised, version := db.families[f].version + 1));
        db := db.(families := db.families[f := row.value]);
      } else {
        row := None;
      }
    }

    method RevokeDeviceRefreshTokens(f: Id)
      modifies this
      ensures db == old(db).(refresh := RevokeActive(old(db).refresh, f))
    {
      db := db.(refresh := RevokeActive(db.refresh, f));
    }

    method RevokeDeviceTokenFamily(f: Id) returns (rows: nat)
      modifies this
      ensures rows == if f in old(db).families && !old(db).families[f].state.FamilyRevoked? then 1 else 0
      ensures db == if rows == 1 then old(db).(families := old(db).families[f :=
                      old(db).families[f].(state := FamilyRevoked, version := old(db).families[f].version + 1)])
                      else old(db)
    {
      rows := if f in db.families && !db.families[f].state.FamilyRevoked? then 1 else 0;
      if rows == 1 {
        db := db.(families := db.families[f := db.families[f].(state := FamilyRevoked,
                                                               version := db.families[f].version + 1)]);
      }
    }

    method RevokeDeviceAuthorization(a: Id) returns (rows: nat)
      modifies this
      ensures rows == if a in old(db).authorizations && !old(db).authorizations[a].state.AuthRevoked? then 1 else 0
      ensures db == if rows == 1 then old(db).(authorizations := old(db).authorizations[a :=
                      old(db).authorizations[a].(state := AuthRevoked,
                                                 version := old(db).authorizations[a].version + 1)]) else old(db)
    {
      rows := if a in db.authorizations && !db.authorizations[a].state.AuthRevoked? then 1 else 0;
      if rows == 1 {
        db := db.(authorizations := db.authorizations[a :=
          db.authorizations[a].(state := AuthRevoked, version := db.authorizations[a].version + 1)]);
      }
    }

    method RevokeDeviceRecord(d: Id) returns (rows: nat)
      modifies this
      ensures rows == if d in old(db).devices && !old(db).devices[d].state.DeviceRevoked? then 1 else 0
      ensures db == if rows == 1
              then old(db).(devices := old(db).devices[d := old(db).devices[d].(state := DeviceRevoked)]) else old(db)
    {
      rows := if d in db.devices && !db.devices[d].state.DeviceRevoked? then 1 else 0;
      if rows == 1 { db := db.(devices := db.devices[d := db.devices[d].(state := DeviceRevoked)]); }
    }

    method RevokeAuthorizationSessions(a: Id)
      modifies this
      ensures db == old(db).(sessions := RetireSessions(old(db).sessions, BoundSessions(old(db).sessions, a)))
    {
      db := db.(sessions := RetireSessions(db.sessions, BoundSessions(db.sessions, a)));
    }

    method AppendEvent(event: Event)
      modifies this
      ensures db == old(db).(events := old(db).events + [event])
    {
      db := db.(events := db.events + [event]);
    }

    method RecordAudit(entry: Audit)
      modifies this
      ensures db == old(db).(audit := old(db).audit + [entry])
    {
      db := db.(audit := db.audit + [entry]);
    }

    // ----- rotation -----

    // compromiseUsedDeviceRefresh
    method CompromiseUsed(g: Authority, key: RecordKey, request: Request) returns (ok: bool)
      modifies this
      ensures ok <==> && g.familyId in old(db).families && old(db).families[g.familyId].state.FamilyActive?
                      && old(db).families[g.familyId].authorization == g.authorizationId &&
                         old(db).families[g.familyId].version == g.family.version
                      && key in old(db).records && old(db).records[key].state.InProgress? &&
                         old(db).records[key].request == request
      ensures ok ==> db == old(db).(
                families := old(db).families[g.familyId := old(db).families[g.familyId].(
                  state := FamilyCompromised, version := g.family.version + 1)],
                refresh := RevokeActive(old(db).refresh, g.familyId),
                audit := old(db).audit + [DeviceTokenReplay(g.authorizationId)],
                events := old(db).events +
                [FamilyCompromisedEvent(g.authorizationId, g.familyId, g.family.version + 1)],
                records := old(db).records[key := old(db).records[key].(
                  state := Completed, response := Some(Response(401, NotAuthenticated)))])
    {
      var row := CompromiseDeviceTokenFamily(g.familyId);
      if row.None? || row.value.authorization != g.authorizationId || row.value.version != g.family.version + 1 {
        return false;
      }
      RevokeDeviceRefreshTokens(g.familyId);
      RecordAudit(DeviceTokenReplay(g.authorizationId));
      AppendEvent(FamilyCompromisedEvent(g.authorizationId, g.familyId, row.value.version));
      ok := CompleteIdempotency(key, request, Response(401, NotAuthenticated));
    }

    // RotateDeviceToken, the preflight transaction
    method Preflight(mode: Mode, c: Command, now: Time) returns (reply: Reply)
      modifies this
      ensures Tx(db, reply) == PreflightTx(old(db), mode, c, now)
    {
      var saved := db;
      if !Discovered(db, c.refresh) || AuthorityOf(db, c.refresh).authorization.principal == 0 {
        return AuthenticationFailed;
      }
      var key := RecordKeyOf(db, c);
      var begun := BeginIdempotency(key, RequestOf(c), now, ROTATION_RETENTION);
      if !begun.Started? { return ReplayReply(begun); }
      var locked, skew := LockRefreshAuthority(db, mode, c.refresh, now);
      BeginKeepsAuthority(saved, db, mode, c.refresh, now);
      if locked.Some? && locked.value.state.Used? {
        var ok := CompromiseUsed(locked.value, key, RequestOf(c));
        reply := if ok then AuthenticationFailed else Unavailable;
        db := if ok then db else saved;
      } else {
        reply := if skew then Unavailable else if locked.None? then AuthenticationFailed else Proceed(locked.value);
        db := saved;
      }
    }

    // reclassifyDeviceRotationAfterChallengeFailure
    method Reclassify(mode: Mode, c: Command, now: Time, ambiguous: bool) returns (reply: Reply)
      modifies this
      ensures Tx(db, reply) == ReclassifyTx(old(db), mode, c, now, ambiguous)
    {
      var saved := db;
      var failed := if ambiguous then Unavailable else AuthenticationFailed;
      if !Discovered(db, c.refresh) || AuthorityOf(db, c.refresh).authorization.principal == 0 { return failed; }
      var key := RecordKeyOf(db, c);
      var begun := BeginIdempotency(key, RequestOf(c), now, ROTATION_RETENTION);
      if !begun.Started? { return ReplayReply(begun); }
      var locked, skew := LockRefreshAuthority(db, mode, c.refresh, now);
      BeginKeepsAuthority(saved, db, mode, c.refresh, now);
      if locked.Some? && locked.value.state.Used? {
        var ok := CompromiseUsed(locked.value, key, RequestOf(c));
        reply := if ok then AuthenticationFailed else Unavailable;
        db := if ok then db else saved;
      } else {
        reply := if skew then Unavailable else failed;
        db := saved;
      }
    }

    // RotateDeviceToken, the writes of the final transaction
    method RotateRows(g: Authority, times: DeviceTimes, access: Hash, refresh: Hash, key: RecordKey, request: Request,
                      now: Time) returns (ok: bool)
      modifies this
      ensures ok <==> && g.token in old(db).refresh && old(db).refresh[g.token].state.Active?
                      && g.familyId in old(db).families && old(db).families[g.familyId].state.FamilyActive?
                      && now <= old(db).families[g.familyId].idleExpires &&
                         now <= old(db).families[g.familyId].absoluteExpires
                      && AccessHashFree(old(db).families, access)
                      && old(db).families[g.familyId].authorization == g.authorizationId &&
                         old(db).families[g.familyId].version == g.family.version
                      && old(db).families[g.familyId].absoluteExpires == g.family.absoluteExpires
                      && refresh !in old(db).refresh
                      && key in old(db).records && old(db).records[key].state.InProgress? &&
                         old(db).records[key].request == request
      ensures ok ==> db == old(db).(
                families := old(db).families[g.familyId := old(db).families[g.familyId].(
                  accessHash := access, accessExpires := times.access, idleExpires := times.idle,
                  version := g.family.version + 1)],
                refresh := old(db).refresh[g.token := old(db).refresh[g.token].(state := Used)]
                                          [refresh := Refresh(g.familyId, Some(g.token), Active)],
                records := old(db).records[key := old(db).records[key].(state := Completed,
                  response := Some(Response(200, TokenBody(RotatedTokens(g, times, access, refresh)))))])
    {
      var marked := MarkDeviceRefreshUsed(g.token);
      if !marked { return false; }
      var row := RotateDeviceFamilyAccess(g.familyId, access, times, now);
      if row.None? || row.value.authorization != g.authorizationId || row.value.version != g.family.version + 1 ||
         row.value.absoluteExpires != g.family.absoluteExpires { return false; }
      var inserted := InsertDeviceRefreshToken(refresh, g.familyId, Some(g.token));
      if !inserted { return false; }
      ok := CompleteIdempotency(key, request, Response(200, TokenBody(RotatedTokens(g, times, access, refresh))));
    }

    // RotateDeviceToken, the final transaction
    method Final(mode: Mode, c: Command, now: Time, seen: Authority, access: Hash, refresh: Hash) returns (reply: Reply)
      modifies this
      ensures Tx(db, reply) == FinalTx(old(db), mode, c, now, seen, access, refresh)
    {
      var saved := db;
      if !Discovered(db, c.refresh) || AuthorityOf(db, c.refresh).authorization.principal == 0 {
        return AuthenticationFailed;
      }
      var key := RecordKeyOf(db, c);
      var begun := BeginIdempotency(key, RequestOf(c), now, ROTATION_RETENTION);
      if !begun.Started? { return ReplayReply(begun); }
      var locked, skew := LockRefreshAuthority(db, mode, c.refresh, now);
      BeginKeepsAuthority(saved, db, mode, c.refresh, now);
      if locked.None? || !SameAuthority(seen, locked.value) {
        reply := if skew then Unavailable else AuthenticationFailed;
        db := saved;
        return;
      }
      var g := locked.value;
      if g.state.Used? {
        var ok := CompromiseUsed(g, key, RequestOf(c));
        reply := if ok then AuthenticationFailed else Unavailable;
        db := if ok then db else saved;
        return;
      }
      reply := RotateLocked(saved, g, key, RequestOf(c), now, access, refresh);
    }

    // RotateDeviceToken, the final transaction once a live token is locked and its record started
    method RotateLocked(saved: DB, g: Authority, key: RecordKey, request: Request, now: Time, access: Hash,
                        refresh: Hash) returns (reply: Reply)
      requires db == saved.(records := saved.records[key := Record(request, InProgress, None, now,
                                                                   now + ROTATION_RETENTION)])
      requires Discovered(saved, g.token) && g == AuthorityOf(saved, g.token) && g.state.Active? &&
               g.family.state.FamilyActive?
      requires now < g.family.idleExpires && now < g.family.absoluteExpires
      modifies this
      ensures var times := RotatedTimes(g, now);
              if times.None? then Tx(db, reply) == Tx(saved, AuthenticationFailed)
              else if access == 0 || refresh == 0 || refresh in saved.refresh || !AccessHashFree(saved.families, access)
              then Tx(db, reply) == Tx(saved, Unavailable)
              else Tx(db, reply) == Tx(Rotate(saved, g, times.value, access, refresh, key, request, now),
                                       Tokens(RotatedTokens(g, times.value, access, refresh)))
    {
      var times := RotatedTimes(g, now);
      if times.None? || access == 0 || refresh == 0 {
        reply := if times.None? then AuthenticationFailed else Unavailable;
        db := saved;
        return;
      }
      var ok := RotateRows(g, times.value, access, refresh, key, request, now);
      reply := if ok then Tokens(RotatedTokens(g, times.value, access, refresh)) else Unavailable;
      db := if ok then db else saved;
    }

    // ----- revocation -----

    // RevokeDevice, one turn of its loop
    method RevokeOne(f: Id, ghost before: DB, ghost done: set<Id>) returns (ok: bool)
      requires f in before.families && f !in done && !before.families[f].state.FamilyRevoked?
      requires db == before.(families := RevokeSome(before.families, done),
                             refresh := RevokeTokensOf(before.refresh, done))
      modifies this
      ensures ok
      ensures db == before.(families := RevokeSome(before.families, done + {f}),
                            refresh := RevokeTokensOf(before.refresh, done + {f}))
    {
      RevokeOneMore(before.families, before.refresh, done, f);
      RevokeDeviceRefreshTokens(f);
      var rows := RevokeDeviceTokenFamily(f);
      ok := rows == 1;
    }

    // RevokeDevice, the loop over the locked families
    method RevokeEach(rows: seq<FamilyRow>, a: Id) returns (ok: bool)
      requires ListsFamilies(rows, db.families, a)
      requires forall i {:trigger rows[i]} :: 0 <= i < |rows| ==> !rows[i].state.FamilyRevoked?
      modifies this
      ensures ok && db == old(db).(families := RevokeFamilies(old(db).families, a),
                                   refresh := RevokeFamilyTokens(old(db).refresh, old(db).families, a))
    {
      ok := true;
      var i := 0;
      ghost var before := db;
      assert RevokeSome(db.families, {}) == db.families && RevokeTokensOf(db.refresh, {}) == db.refresh;
      while i < |rows| && ok
        invariant ok && 0 <= i <= |rows|
        invariant db == before.(families := RevokeSome(before.families, FirstIds(rows, i)),
                                refresh := RevokeTokensOf(before.refresh, FirstIds(rows, i)))
      {
        NextId(rows, i);
        ok := RevokeOne(rows[i].id, before, FirstIds(rows, i));
        i := i + 1;
      }
      RevokedThemAll(before.families, before.refresh, rows, a);
    }

    // RevokeDevice, the writes once everything is locked and valid
    method RevokeRows(r: Revocation, a: Id, rows: seq<FamilyRow>, key: RecordKey, request: Request) returns (ok: bool)
      requires RevocationValid(db, r, a) && ListsFamilies(rows, db.families, a)
      requires key in db.records && db.records[key].state.InProgress? && db.records[key].request == request
      modifies this
      ensures ok
      ensures var row := old(db).authorizations[a];
              db == old(db).(
                refresh := RevokeFamilyTokens(old(db).refresh, old(db).families, a),
                families := RevokeFamilies(old(db).families, a),
                authorizations := old(db).authorizations[a := row.(state := AuthRevoked, version := row.version + 1)],
                devices := old(db).devices[r.device := old(db).devices[r.device].(state := DeviceRevoked)],
                sessions := RetireSessions(old(db).sessions, BoundSessions(old(db).sessions, a)),
                events := old(db).events + [AuthorizationChanged(a, AuthRevoked, row.version + 1)],
                records := old(db).records[key := old(db).records[key].(state := Completed,
                                                                        response := Some(Response(204, EmptyBody)))])
    {
      var version := db.authorizations[a].version + 1;
      StableExactly(rows, db.families, a);
      var families := RevokeEach(rows, a);
      var authorizations := RevokeDeviceAuthorization(a);
      var devices := RevokeDeviceRecord(r.device);
      RevokeAuthorizationSessions(a);
      AppendEvent(AuthorizationChanged(a, AuthRevoked, version));
      var completed := CompleteIdempotency(key, request, Response(204, EmptyBody));
      ok := families && authorizations == 1 && devices == 1 && completed;
    }

    // RevokeDevice; `a` is the authorization that the device column discovers, zero when there is none
    method RevokeDevice(r: Revocation, now: Time) returns (reply: Reply, ghost a: Id)
      requires OneAuthorizationPerDevice(db) && r.principal != 0 && r.device != 0
      modifies this
      ensures Tx(db, reply) == RevokeTx(old(db), r, a, now)
      ensures forall b :: b in old(db).authorizations && old(db).authorizations[b].device == r.device ==>
                a == b || !Begin(old(db).records, RecordKey(RevokeScope(r.principal), r.key),
                                 RevokeRequest(r.device, r.session, r.proof), now).Started?
    {
      var saved := db;
      a := 0;
      var key := RecordKey(RevokeScope(r.principal), r.key);
      var request := RevokeRequest(r.device, r.session, r.proof);
      var begun := BeginIdempotency(key, request, now, ROTATION_RETENTION);
      match begun {
        case Replay(response) => reply := if response == Response(204, EmptyBody) then Done else Unavailable;
        case KeyConflict => reply := Conflicted;
        case KeyBusy => reply := Busy;
        case KeyUnavailable => reply := Unavailable;
        case Started => reply, a := RevokeLocked(saved, r, key, request, now);
      }
    }

    // RevokeDevice once its record is started
    method RevokeLocked(saved: DB, r: Revocation, key: RecordKey, request: Request, now: Time)
      returns (reply: Reply, ghost a: Id)
      requires OneAuthorizationPerDevice(db) && r.principal != 0 && r.device != 0 &&
               request == RevokeRequest(r.device, r.session, r.proof)
      requires db == saved.(records := saved.records[key := Record(request, InProgress, None, now,
                                                                   now + ROTATION_RETENTION)])
      modifies this
      ensures forall b :: b in saved.authorizations && saved.authorizations[b].device == r.device ==> a == b
      ensures Tx(db, reply) == if RevocationValid(saved, r, a) && ValidateRevocation(saved, r.principal, r.session, now)
                               then Tx(RevokeGraph(saved, r, a, key, now), Done) else Tx(saved, AuthenticationFailed)
    {
      var authorization, rows, valid := LockRevocation(db, r, now);
      a := authorization;
      BeginKeepsRevocation(saved, db, r, a, now);
      if valid {
        var ok := RevokeRows(r, authorization, rows, key, request);
        reply := if ok then Done else Unavailable;
        db := if ok then db else saved;
      } else {
        reply := AuthenticationFailed;
        db := saved;
      }
    }

    // ----- registration -----

    method CreateDevice(d: Id, row: Device) returns (ok: bool)
      modifies this
      ensures ok <==> && d !in old(db).devices && row.principal in old(db).accounts
                      && forall e :: e in old(db).devices && old(db).devices[e].principal == row.principal ==>
                           old(db).devices[e].signingKey != row.signingKey && old(db).devices[e].hpkeKey != row.hpkeKey
      ensures db == if ok then old(db).(devices := old(db).devices[d := row]) else old(db)
    {
      ok := d !in db.devices && row.principal in db.accounts &&
            forall e :: e in db.devices && db.devices[e].principal == row.principal ==>
              db.devices[e].signingKey != row.signingKey && db.devices[e].hpkeKey != row.hpkeKey;
      if ok { db := db.(devices := db.devices[d := row]); }
    }

    method ConsumeEnrollmentGrant(grant: Hash, d: Id, now: Time) returns (row: Option<Grant>)
      modifies this
      ensures row.Some? <==>
                grant in old(db).grants && old(db).grants[grant].state.Unused? &&
                now <= old(db).grants[grant].expiresAt &&
                             d in old(db).devices
      ensures row.Some? ==> row.value == old(db).grants[grant].(state := Consumed, consumedDevice := Some(d))
      ensures db == if row.Some? then old(db).(grants := old(db).grants[grant := row.value]) else old(db)
    {
      if grant in db.grants && db.grants[grant].state.Unused? && now <= db.grants[grant].expiresAt && d in db.devices {
        row := Some(db.grants[grant].(state := Consumed, consumedDevice := Some(d)));
        db := db.(grants := db.grants[grant := row.value]);
      } else {
        row := None;
      }
    }

    method CreateDeviceAuthorization(a: Id, row: Authorization) returns (ok: bool)
      modifies this
      ensures ok <==> && a !in old(db).authorizations && row.device in old(db).devices
                      && (forall b :: b in old(db).authorizations ==> old(db).authorizations[b].device != row.device)
                      && (row.state.Provisional? ==>
                            forall b :: b in old(db).authorizations &&
                                        old(db).authorizations[b].principal == row.principal ==>
                              !old(db).authorizations[b].state.Provisional?)
      ensures db == if ok then old(db).(authorizations := old(db).authorizations[a := row]) else old(db)
    {
      ok := a !in db.authorizations && row.device in db.devices &&
            (forall b :: b in db.authorizations ==> db.authorizations[b].device != row.device) &&
            (row.state.Provisional? ==> forall b ::
               b in db.authorizations && db.authorizations[b].principal == row.principal ==>
               !db.authorizations[b].state.Provisional?);
      if ok { db := db.(authorizations := db.authorizations[a := row]); }
    }

    // BindSessionToAuthorization
    method BindSession(sid: Id, a: Id) returns (ok: bool)
      modifies this
      ensures ok <==> sid in old(db).sessions && old(db).sessions[sid].state.SessionActive? &&
                      old(db).sessions[sid].authorization.None? &&
                      a in old(db).authorizations
      ensures db == if ok then old(db).(
                      sessions := old(db).sessions[sid :=
                        old(db).sessions[sid].(authorization := Some(a), version := old(db).sessions[sid].version + 1)],
                      audit := old(db).audit + [DeviceRegistered(a)]) else old(db)
    {
      ok := sid in db.sessions && db.sessions[sid].state.SessionActive? && db.sessions[sid].authorization.None? &&
      a in db.authorizations;
      if ok {
        db := db.(sessions := db.sessions[sid := db.sessions[sid].(authorization := Some(a),
                                                                   version := db.sessions[sid].version + 1)]);
        RecordAudit(DeviceRegistered(a));
      }
    }

    method CreateDevicePolicySnapshot(a: Id, policy: Policy) returns (ok: bool)
      modifies this
      ensures ok <==> a !in old(db).policies && a in old(db).authorizations
      ensures db == if ok then old(db).(policies := old(db).policies[a := policy]) else old(db)
    {
      ok := a !in db.policies && a in db.authorizations;
      if ok { db := db.(policies := db.policies[a := policy]); }
    }

    method CreateDeviceTokenFamily(f: Id, row: Family) returns (ok: bool)
      modifies this
      ensures ok <==> f !in old(db).families && row.authorization in old(db).authorizations &&
                      AccessHashFree(old(db).families, row.accessHash)
      ensures db == if ok then old(db).(families := old(db).families[f := row]) else old(db)
    {
      ok := f !in db.families && row.authorization in db.authorizations && AccessHashFree(db.families, row.accessHash);
      if ok { db := db.(families := db.families[f := row]); }
    }

    // RegisterDevice, the device, its grant, its authorization and its session
    method EnrollRows(e: Enrollment, state: AuthState, c: Enroll, x: Fresh, now: Time) returns (ok: bool)
      requires ValidateEnrollment(db, c.grant, now) == Some(e)
      modifies this
      ensures ok <==> EnrollAccepted(old(db), e, state, c, x)
      ensures ok ==> db == Enrolled(old(db), e, state, c, x)
    {
      ok := CreateDevice(x.device, Device(e.principal, c.signingKey, c.hpkeKey, 1, DeviceActive));
      if !ok { return; }
      var consumed := ConsumeEnrollmentGrant(c.grant, x.device, now);
      var matched := consumed.Some? && consumed.value.principal == e.principal && consumed.value.session == e.session &&
                     consumed.value.marker == e.marker && consumed.value.provisionalUntil == e.provisionalUntil;
      ok := CreateDeviceAuthorization(x.authorization,
                                      Authorization(e.principal, x.device, state, 1, e.provisionalUntil));
      if !ok { return; }
      var bound := BindSession(e.session, x.authorization);
      ok := matched && bound;
    }

    // RegisterDevice, the policy, the family, its root token, the event and the record
    method RootRows(t: DeviceTokens, state: AuthState, policy: Policy, key: RecordKey, request: Request, now: Time)
      returns (ok: bool)
      requires t.authorization in db.authorizations && key in db.records && db.records[key].state.InProgress? &&
               db.records[key].request == request
      modifies this
      ensures ok <==> RootAccepted(old(db), t)
      ensures ok ==> db == Rooted(old(db), t, state, policy, key, now)
    {
      ok := CreateDevicePolicySnapshot(t.authorization, policy);
      if !ok { return; }
      ok := CreateDeviceTokenFamily(t.family,
        Family(t.authorization, FamilyActive, 1, t.access, t.accessExpires, t.idleExpires, t.absoluteExpires, now));
      if !ok { return; }
      ok := InsertDeviceRefreshToken(t.refresh, t.family, None);
      if !ok { return; }
      AppendEvent(AuthorizationChanged(t.authorization, state, 1));
      ok := CompleteIdempotency(key, request, Response(201, TokenBody(t)));
    }

    // RegisterDevice, preparation and final transaction.  Drawn identifiers and digests are never zero: preparation
    // fails on a zero.
    method RegisterDevice(mode: Mode, c: Enroll, seen: Enrollment, x: Fresh, now: Time) returns (reply: Reply)
      requires x.device != 0 && x.authorization != 0 && x.family != 0 && x.access != 0 && x.refresh != 0
      modifies this
      ensures Tx(db, reply) == RegisterTx(old(db), mode, c, seen, x, now)
    {
      var saved := db;
      var prepared := PolicyFor(seen, now);
      if prepared.None? { return AuthenticationFailed; }
      var key := RecordKey(RegisterScope, c.key);
      var begun := BeginIdempotency(key, EnrollRequest(c), now, REGISTRATION_RETENTION);
      match begun {
        case Replay(response) =>
          var tokens := TokensFromReplay(response, 201);
          reply := if tokens.Some? then Tokens(tokens.value) else Unavailable;
        case KeyConflict => reply := Conflicted;
        case KeyBusy => reply := Busy;
        case KeyUnavailable => reply := Unavailable;
        case Started =>
          BeginKeepsEnrollment(saved, db, c.grant, now);
          var found := ValidateEnrollment(db, c.grant, now);
          if found.None? || !EnrollmentMode(mode, found.value, now) || found.value != seen {
            reply := AuthenticationFailed;
            db := saved;
          } else {
            reply := RegisterStarted(saved, seen, prepared.value.0, prepared.value.1, c, x, now);
          }
      }
    }

    // RegisterDevice once its record is started and its enrollment is found again
    method RegisterStarted(saved: DB, e: Enrollment, state: AuthState, policy: Policy, c: Enroll, x: Fresh, now: Time)
      returns (reply: Reply)
      requires x.device != 0 && x.authorization != 0 && x.family != 0 && x.access != 0 && x.refresh != 0
      requires db == StartedOn(saved, c, now)
      requires ValidateEnrollment(saved, c.grant, now) == Some(e) && ValidateEnrollment(db, c.grant, now) == Some(e)
      modifies this
      ensures Tx(db, reply) == if InsertsAccepted(saved, e, state, c, x)
                               then Tx(RegisterGraph(saved, e, state, policy, c, x, now),
                                       Tokens(RegisteredTokens(e, x, now)))
                               else Tx(saved, Unavailable)
    {
      var t := RegisteredTokens(e, x, now);
      AcceptedInTwoParts(saved, e, state, c, x, now);
      RegistrationInTwoParts(saved, e, state, policy, c, x, now, Enrolled(db, e, state, c, x));
      var ok := EnrollRows(e, state, c, x, now);
      if ok { ok := RootRows(t, state, policy, RecordKey(RegisterScope, c.key), EnrollRequest(c), now); }
      reply := if ok then Tokens(t) else Unavailable;
      db := if ok then db else saved;
    }
  }
}
