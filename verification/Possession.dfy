/** Presenting a device refresh token: which rows admit it, what signature a rotation needs, and a whole call. */
module Possession {
  import opened Schema
  import opened Identity
  import opened DeviceTx
  import opened Protocol
  import opened Effects
  import opened Chains
  import opened Safety
  import opened Attempts
  import opened Ties
  import opened Trial
  import opened Graph
  import opened Steps
  import opened Theorems

  // ----- which rows admit a token -----

  /** The account is verified, or an unverified one is inside the day of its trial. */
  predicate Stands(mode: Mode, account: Account, row: Authorization, now: Time) {
    || (row.state.Authorized? && account.state.AccountActive?)
    || (row.state.Provisional? && mode.EmailGrace? && now < account.createdAt + DAY &&
        (account.state.AccountActive? || (account.state.PendingEmail? && account.createdAt <= now)))
  }

  /** The rows behind family f are all there. */
  predicate Rooted(db: DB, f: Id) {
    && f in db.families && db.families[f].authorization in db.authorizations
    && var row := db.authorizations[db.families[f].authorization];
       row.device in db.devices && row.principal in db.accounts
  }

  predicate FamilyStands(db: DB, mode: Mode, f: Id, now: Time)
    requires Rooted(db, f)
  {
    var row := db.authorizations[db.families[f].authorization];
    && db.families[f].state.FamilyActive? && db.devices[row.device].state.DeviceActive?
    && Stands(mode, db.accounts[row.principal], row, now)
  }

  lemma FamiliesAreRooted(s: State, f: Id)
    requires Reachable(s) && f in s.db.families
    ensures Rooted(s.db, f) && f != 0
    ensures var row := s.db.authorizations[s.db.families[f].authorization];
            && s.db.families[f].authorization != 0 && row.device != 0 && row.principal != 0
            && s.db.devices[row.device].principal == row.principal && AuthorizationOk(row, s.db.accounts)
            && Lifetimes(s.db.families[f], s.db.authorizations)
  {
    ReachableGood(s);
  }

  lemma MarkerExactly(mode: Mode, accounts: map<Id, Account>, row: Authorization, db: DB, now: Time)
    requires db.accounts == accounts && AuthorizationOk(row, accounts)
    ensures MarkerValid(mode, row, now) && AccountAuthority(db, row.principal, now) <==>
            Stands(mode, accounts[row.principal], row, now)
  {
    assert GRACE == DAY;
  }

  /** In every reachable state a presented token is admitted exactly by its own state and deadline, the family, the
      device and the standing of the account: every other check of the lock routine holds by itself. */
  lemma AdmittedExactly(s: State, t: Hash, now: Time)
    requires Reachable(s) && t != 0
    ensures t in s.db.refresh ==> Rooted(s.db, s.db.refresh[t].family)
    ensures LockAuthority(s.db, s.mode, t, now).Some? <==>
            && t in s.db.refresh && FamilyStands(s.db, s.mode, s.db.refresh[t].family, now)
            && var row := s.db.families[s.db.refresh[t].family];
               || (s.db.refresh[t].state.Active? && now < row.idleExpires)
               || (s.db.refresh[t].state.Used? && now < row.absoluteExpires)
    ensures LockAuthority(s.db, s.mode, t, now).Some? ==>
            LockAuthority(s.db, s.mode, t, now).value == AuthorityOf(s.db, t)
  {
    if t in s.db.refresh {
      var f := s.db.refresh[t].family;
      assert f in s.db.families by { ReachableGood(s); }
      FamiliesAreRooted(s, f);
      MarkerExactly(s.mode, s.db.accounts, s.db.authorizations[s.db.families[f].authorization], s.db, now);
    }
  }

  /** A token that may be rotated, and one whose presentation is a reuse. */
  predicate Live(db: DB, mode: Mode, t: Hash, now: Time) {
    && t in db.refresh && Rooted(db, db.refresh[t].family) && FamilyStands(db, mode, db.refresh[t].family, now)
    && db.refresh[t].state.Active? && now < db.families[db.refresh[t].family].idleExpires
  }

  predicate IsReuse(db: DB, mode: Mode, t: Hash, now: Time) {
    && t in db.refresh && Rooted(db, db.refresh[t].family) && FamilyStands(db, mode, db.refresh[t].family, now)
    && db.refresh[t].state.Used? && now < db.families[db.refresh[t].family].absoluteExpires
  }

  // ----- challenges -----

  /** A challenge enters the books only by being issued: for an admitted live token, its family and the given nonce, for
      two minutes and never past the end of a trial. */
  lemma IssuedExactly(s: State, action: Action, id: Id)
    requires Reachable(s) && id !in s.issued && id in Apply(s, action).issued
    ensures action.IssueChallenge? && action.id == id && action.at <= s.clock && action.token in s.db.refresh
    ensures s.db.refresh[action.token].state.Active? && Discovered(s.db, action.token)
    ensures var row := AuthorityOf(s.db, action.token).authorization;
            var end := action.at + 2 * MINUTE;
            Apply(s, action).issued[id] ==
            Challenge(action.bytes, action.token, s.db.refresh[action.token].family, action.nonce,
                      if row.provisionalUntil.Some? && row.provisionalUntil.value < end then row.provisionalUntil.value
                      else end)
    ensures id in Apply(s, action).challenges && Apply(s, action).challenges[id] == Apply(s, action).issued[id]
  {
    if !action.IssueChallenge? { NotIssued(s, action); }
  }

  lemma NotIssued(s: State, action: Action)
    requires !action.IssueChallenge?
    ensures Apply(s, action).issued == s.issued
  {
  }

  lemma IssuedStep(s: State, action: Action, id: Id)
    requires id in s.issued
    ensures id in Apply(s, action).issued && Apply(s, action).issued[id] == s.issued[id]
  {
    if !action.IssueChallenge? { NotIssued(s, action); }
  }

  /** What was issued stays on the books, also after it was consumed. */
  lemma {:induction false} IssuedForever(s: State, actions: seq<Action>, id: Id)
    requires id in s.issued
    ensures id in Run(s, actions).issued && Run(s, actions).issued[id] == s.issued[id]
    decreases |actions|
  {
    if actions != [] {
      IssuedStep(s, actions[0], id);
      IssuedForever(Apply(s, actions[0]), actions[1..], id);
    }
  }

  // ----- what a rotation needs -----

  /** The call behind a rotation of token t: its challenge was issued for t and is spent, and its signature is made with
      the key stored for the device behind t, over the bytes of that challenge, the family and the nonce. */
  ghost predicate SignedFor(s: State, r: Id, t: Hash) {
    && r in s.attempts && s.attempts[r].command.refresh == t && Discovered(s.db, t)
    && var c := s.attempts[r].command;
       var f := s.db.refresh[t].family;
       var row := s.db.authorizations[s.db.families[f].authorization];
       && c.challenge in s.issued && c.challenge !in s.challenges
       && s.issued[c.challenge].token == t && s.issued[c.challenge].nonce == c.nonce
       && s.attempts[r].now < s.issued[c.challenge].expiresAt
       && c.signature.key == s.db.devices[row.device].signingKey
       && c.signature.transcript == RotationTranscript(s.issued[c.challenge].bytes, f, c.nonce)
  }

  lemma OnlyFinalRotates(s: State, action: Action)
    requires EffectOf(s, action).Rotating?
    ensures action.Final? && action.attempt in s.attempts && s.attempts[action.attempt].phase.AtFinal?
    ensures var g := EffectOf(s, action).g; var c := s.attempts[action.attempt].command;
            && Discovered(s.db, c.refresh) && g == AuthorityOf(s.db, c.refresh) && g.token == c.refresh
            && SameAuthority(s.attempts[action.attempt].phase.authority, g)
  {
  }

  lemma RotatingIsSigned(s: State, action: Action)
    requires Reachable(s) && EffectOf(s, action).Rotating?
    ensures action.Final? && SignedFor(s, action.attempt, EffectOf(s, action).g.token)
  {
    OnlyFinalRotates(s, action);
    assert SignedInv(s) && ProofInv(s) by { ReachableGood(s); }
    assert Signed(s.attempts[action.attempt], s.attempts[action.attempt].phase.authority, s.issued);
  }

  lemma SuccessorsComeFromRotations(db: DB, mode: Mode, effect: Effect, db': DB, h: Hash)
    requires Makes(db, mode, effect, db') && h !in db.refresh && h in db'.refresh && db'.refresh[h].previous.Some?
    ensures effect.Rotating? && effect.g.token == db'.refresh[h].previous.value
  {
  }

  /** In every run, whenever some token gets a successor, it was signed for with the device's own key. */
  lemma RotationIsSigned(s: State, action: Action, h: Hash)
    requires Reachable(s) && h !in s.db.refresh && h in Apply(s, action).db.refresh
    requires Apply(s, action).db.refresh[h].previous.Some?
    ensures action.Final? && SignedFor(s, action.attempt, Apply(s, action).db.refresh[h].previous.value)
  {
    ApplyMakes(s, action);
    SuccessorsComeFromRotations(s.db, s.mode, EffectOf(s, action), Apply(s, action).db, h);
    RotatingIsSigned(s, action);
  }

  // ----- a whole call -----

  /** A fresh call with the live token of a standing device, outside the last ten minutes of the family. */
  ghost predicate Callable(s: State, id: Id, r: Id, c: Command) {
    && id != 0 && id !in s.issued && r !in s.attempts && c.refresh != 0 && c.nonce != 0 && c.key != 0 &&
       c.challenge == id
    && c.refresh in s.db.refresh && s.db.refresh[c.refresh].state.Active? &&
       Rooted(s.db, s.db.refresh[c.refresh].family)
    && var f := s.db.refresh[c.refresh].family; var row := s.db.authorizations[s.db.families[f].authorization];
       && FamilyStands(s.db, s.mode, f, s.clock) && s.clock < s.db.families[f].idleExpires
       && s.clock + 10 * MINUTE + 1 < s.db.families[f].absoluteExpires
       && RecordKey(RotateScope(row.principal), c.key) !in s.db.records
  }

  predicate SignsWith(c: Command, key: Hash, bytes: Hash, f: Id) {
    c.signature == Signature(key, RotationTranscript(bytes, f, c.nonce))
  }

  lemma CallableIsAdmitted(s: State, id: Id, r: Id, c: Command)
    requires Reachable(s) && Callable(s, id, r, c)
    ensures LockAuthority(s.db, s.mode, c.refresh, s.clock) == Some(AuthorityOf(s.db, c.refresh))
    ensures AuthorityOf(s.db, c.refresh).authorization.principal != 0
  {
    AdmittedExactly(s, c.refresh, s.clock);
  }

  /** The state once the challenge is stored and the call has passed its preflight. */
  function Challenged(s: State, id: Id, ch: Challenge, r: Id, c: Command, g: Authority): State {
    s.(challenges := s.challenges[id := ch], issued := s.issued[id := ch],
       attempts := s.attempts[r := Attempt(c, s.clock, AtChallenge(g), false)], seen := s.seen + {c.refresh})
  }

  lemma ChallengeIsIssued(s: State, id: Id, bytes: Hash, r: Id, c: Command, s1: State) returns (ch: Challenge)
    requires Reachable(s) && Callable(s, id, r, c) && bytes != 0
    requires s1 == Apply(s, IssueChallenge(id, bytes, c.refresh, c.nonce, s.clock))
    ensures ch.bytes == bytes && ch.token == c.refresh && ch.family == s.db.refresh[c.refresh].family
    ensures ch.nonce == c.nonce && s.clock < ch.expiresAt
    ensures s1 == s.(challenges := s.challenges[id := ch], issued := s.issued[id := ch])
  {
    CallableIsAdmitted(s, id, r, c);
    ch := NewChallenge(s, bytes, c.refresh, c.nonce, s.clock).value;
  }

  lemma CallIsPreflighted(s: State, r: Id, c: Command, s3: State)
    requires r !in s.attempts && CommandValid(c) && Discovered(s.db, c.refresh)
    requires LockAuthority(s.db, s.mode, c.refresh, s.clock) == Some(AuthorityOf(s.db, c.refresh))
    requires s.db.refresh[c.refresh].state.Active? && AuthorityOf(s.db, c.refresh).authorization.principal != 0
    requires RecordKeyOf(s.db, c) !in s.db.records && s3 == Apply(Apply(s, Start(r, c)), Preflight(r, Clean))
    ensures s3 == s.(attempts := s.attempts[r := Attempt(c, s.clock, AtChallenge(AuthorityOf(s.db, c.refresh)), false)],
                     seen := s.seen + {c.refresh})
  {
    var s2 := Apply(s, Start(r, c));
    assert s2.db == s.db && s2.attempts[r] == Attempt(c, s.clock, AtPreflight, false);
    assert PreflightTx(s.db, s.mode, c, s.clock) == Tx(s.db, Proceed(AuthorityOf(s.db, c.refresh)));
  }

  lemma CallIsChallenged(s: State, id: Id, bytes: Hash, r: Id, c: Command, s1: State, s3: State) returns (ch: Challenge)
    requires Reachable(s) && Callable(s, id, r, c) && bytes != 0
    requires s1 == Apply(s, IssueChallenge(id, bytes, c.refresh, c.nonce, s.clock))
    requires s3 == Apply(Apply(s1, Start(r, c)), Preflight(r, Clean))
    ensures ch.bytes == bytes && ch.token == c.refresh && ch.family == s.db.refresh[c.refresh].family
    ensures ch.nonce == c.nonce && s.clock < ch.expiresAt
    ensures s3 == Challenged(s, id, ch, r, c, AuthorityOf(s.db, c.refresh))
  {
    CallableIsAdmitted(s, id, r, c);
    ch := ChallengeIsIssued(s, id, bytes, r, c, s1);
    CallIsPreflighted(s1, r, c, s3);
  }

  /** The challenge step admits exactly the signature of the device's key over the challenge. */
  lemma ConsumeDecides(s: State, id: Id, ch: Challenge, r: Id, c: Command, g: Authority, s4: State)
    requires c.challenge == id && ch.token == c.refresh && ch.family == g.familyId && ch.nonce == c.nonce
    requires s.clock < ch.expiresAt && s4 == Apply(Challenged(s, id, ch, r, c, g), Consume(r, Clean))
    ensures s4.db == s.db && s4.mode == s.mode && id !in s4.challenges && r in s4.attempts &&
            s4.seen == s.seen + {c.refresh}
    ensures s4.attempts[r] == if SignsWith(c, g.device.signingKey, ch.bytes, g.familyId)
                              then Attempt(c, s.clock, AtFinal(g), true)
                              else Attempt(c, s.clock, Finished(AuthenticationFailed), false)
  {
  }

  /** The tokens of a rotation at `now`: ten minutes of access cut at the end of a trial, thirty days of idleness cut
      one nanosecond before the absolute expiry, and the absolute expiry unchanged. */
  function Successors(db: DB, t: Hash, access: Hash, refresh: Hash, now: Time): DeviceTokens
    requires t in db.refresh && Rooted(db, db.refresh[t].family)
  {
    var f := db.refresh[t].family;
    var family := db.families[f];
    var row := db.authorizations[family.authorization];
    var end := now + 10 * MINUTE;
    DeviceTokens(row.device, family.authorization, f, access, refresh,
                 if row.provisionalUntil.Some? && row.provisionalUntil.value < end then row.provisionalUntil.value
                 else end,
                 if now + 30 * DAY < family.absoluteExpires then now + 30 * DAY else family.absoluteExpires - 1,
                 family.absoluteExpires)
  }

  lemma FinalSucceeds(s: State, r: Id, c: Command, access: Hash, refresh: Hash)
    requires Discovered(s.db, c.refresh) && Rooted(s.db, s.db.refresh[c.refresh].family)
    requires var g := AuthorityOf(s.db, c.refresh);
             && r in s.attempts && s.attempts[r] == Attempt(c, s.clock, AtFinal(g), true)
             && LockAuthority(s.db, s.mode, c.refresh, s.clock) == Some(g) && g.state.Active?
             && g.authorization.principal != 0 && RecordKeyOf(s.db, c) !in s.db.records
             && s.clock + 10 * MINUTE + 1 < g.family.absoluteExpires
    requires FreshPair(s, access, refresh) && access != 0 && refresh != 0 && refresh !in s.db.refresh
    requires AccessHashFree(s.db.families, access)
    ensures Apply(s, Final(r, access, refresh, Clean)).attempts[r].phase ==
            Finished(Tokens(Successors(s.db, c.refresh, access, refresh, s.clock)))
  {
    RotationTimesExactly(AuthorityOf(s.db, c.refresh), s.clock, s.mode);
  }

  lemma CallEnds(s: State, id: Id, ch: Challenge, r: Id, c: Command, access: Hash, refresh: Hash, s4: State)
    requires Discovered(s.db, c.refresh) && Rooted(s.db, s.db.refresh[c.refresh].family)
    requires s.db.refresh[c.refresh].state.Active? && AuthorityOf(s.db, c.refresh).authorization.principal != 0
    requires LockAuthority(s.db, s.mode, c.refresh, s.clock) == Some(AuthorityOf(s.db, c.refresh))
    requires RecordKeyOf(s.db, c) !in s.db.records
    requires s.clock + 10 * MINUTE + 1 < AuthorityOf(s.db, c.refresh).family.absoluteExpires
    requires ch.bytes != 0 && c.challenge == id && ch.token == c.refresh && ch.nonce == c.nonce &&
             s.clock < ch.expiresAt
    requires ch.family == s.db.refresh[c.refresh].family && access != 0 && refresh != 0 && access != refresh
    requires access !in s.seen && refresh !in s.seen && access != c.refresh && refresh != c.refresh
    requires refresh !in s.db.refresh && AccessHashFree(s.db.families, access)
    requires s4 == Apply(Challenged(s, id, ch, r, c, AuthorityOf(s.db, c.refresh)), Consume(r, Clean))
    ensures r in Apply(s4, Final(r, access, refresh, Clean)).attempts
    ensures Apply(s4, Final(r, access, refresh, Clean)).attempts[r].phase ==
            Finished(if SignsWith(c, AuthorityOf(s.db, c.refresh).device.signingKey, ch.bytes, ch.family)
                     then Tokens(Successors(s.db, c.refresh, access, refresh, s.clock)) else AuthenticationFailed)
  {
    var g := AuthorityOf(s.db, c.refresh);
    ConsumeDecides(s, id, ch, r, c, g, s4);
    if SignsWith(c, g.device.signingKey, ch.bytes, g.familyId) { FinalSucceeds(s4, r, c, access, refresh); }
  }

  /** A whole call: challenge, start, preflight, proof, rotation.  It ends with the successor tokens if and only if the
      signature is made with the device's key over the challenge, and with an authentication failure otherwise. */
  lemma CallSucceedsExactly(s: State, id: Id, bytes: Hash, r: Id, c: Command, access: Hash, refresh: Hash, s1: State,
                            s3: State, s5: State)
    requires Reachable(s) && Callable(s, id, r, c) && bytes != 0 && access != 0 && refresh != 0 && access != refresh
    requires access !in s.seen && refresh !in s.seen && access != c.refresh && refresh != c.refresh
    requires s1 == Apply(s, IssueChallenge(id, bytes, c.refresh, c.nonce, s.clock))
    requires s3 == Apply(Apply(s1, Start(r, c)), Preflight(r, Clean))
    requires s5 == Apply(Apply(s3, Consume(r, Clean)), Final(r, access, refresh, Clean))
    ensures var f := s.db.refresh[c.refresh].family;
            var key := s.db.devices[s.db.authorizations[s.db.families[f].authorization].device].signingKey;
            && r in s5.attempts
            && s5.attempts[r].phase == Finished(if SignsWith(c, key, bytes, f)
                                                then Tokens(Successors(s.db, c.refresh, access, refresh, s.clock))
                                                else AuthenticationFailed)
  {
    CallableIsAdmitted(s, id, r, c);
    var ch := CallIsChallenged(s, id, bytes, r, c, s1, s3);
    assert refresh !in s.db.refresh && AccessHashFree(s.db.families, access) by { ReachableGood(s); }
    CallEnds(s, id, ch, r, c, access, refresh, Apply(s3, Consume(r, Clean)));
  }
}
