/** The whole system as a state machine.  Every action is one atomic step of some client, worker or administrator: a
    committed or abandoned transaction, one Redis command, or the passage of time. An action whose guard fails changes
    nothing, so a run is any sequence of actions.  Every transaction works with a clock reading `at` taken before it
    could proceed, so the reading may lie any time before its commit. */
module Protocol {
  import opened Schema
  import opened Identity
  import opened DeviceTx

  const CHALLENGE_TTL: Time := 2 * MINUTE

  /** A rotation challenge held in Redis. */
  datatype Challenge = Challenge(bytes: Hash, token: Hash, family: Id, nonce: Hash, expiresAt: Time)

  /** Where one call of RotateDeviceToken stands between its atomic steps. */
  datatype Phase =
    | AtPreflight
    | AtChallenge(authority: Authority)
    | AtReclassify(ambiguous: bool)
    | AtFinal(authority: Authority)
    | Finished(reply: Reply)

  /** `now` is read once when the call starts; `proved` records that its challenge was consumed and its signature
      verified. */
  datatype Attempt = Attempt(command: Command, now: Time, phase: Phase, proved: bool)

  datatype State = State(
    db: DB, mode: Mode, clock: Time,
    challenges: map<Id, Challenge>,
    issued: map<Id, Challenge>,     // every challenge ever stored, also after it was consumed
    attempts: map<Id, Attempt>,
    seen: set<Hash>,     // every device token digest presented or issued so far
    pruned: Time)        // the latest cut-off used to prune idempotency records

  /** A transaction may fail before commit, or commit while the client only sees an error. */
  datatype Fault = Clean | Abort | LostReply

  datatype Action =
    | Tick(elapsed: nat)
    | SignUp(principal: Id, at: Time)
    | SignIn(principal: Id, session: Id, access: Hash, refresh: Hash, at: Time)
    | RefreshSession(token: Hash, access: Hash, refresh: Hash, at: Time)
    | RequireReview(principal: Id)
    | EndSessions(which: set<Id>)
    | MakeGrant(principal: Id, session: Id, grant: Hash, at: Time)
    | Verify(principal: Id, at: Time)
    | Register(enroll: Enroll, found: Enrollment, drawn: Fresh, at: Time)
    | Revoke(revocation: Revocation, authorization: Id, at: Time)
    | IssueChallenge(id: Id, bytes: Hash, token: Hash, nonce: Hash, at: Time)
    | Start(attempt: Id, command: Command)
    | Preflight(attempt: Id, fault: Fault)
    | Consume(attempt: Id, fault: Fault)
    | Reclassify(attempt: Id, fault: Fault)
    | Final(attempt: Id, access: Hash, refresh: Hash, fault: Fault)
    | Prune(cutoff: Time)

  predicate Init(s: State) {
    && s.db == EMPTY_DB && s.challenges == map[] && s.issued == map[] && s.attempts == map[] && s.seen == {}
    && s.pruned <= s.clock
  }

  function WithDB(s: State, db: DB): State { s.(db := db) }

  // createRotationChallenge: the record it stores, when the presented token is a valid active one
  function NewChallenge(s: State, bytes: Hash, token: Hash, nonce: Hash, at: Time): Option<Challenge> {
    var locked := LockAuthority(s.db, s.mode, token, at);
    if bytes == 0 || nonce == 0 || locked.None? || !locked.value.state.Active? then None else
      var until := locked.value.authorization.provisionalUntil;
      var expires := if until.Some? then Min(at + CHALLENGE_TTL, until.value) else at + CHALLENGE_TTL;
      Some(Challenge(bytes, token, locked.value.familyId, nonce, expires))
  }

  predicate CommandValid(c: Command) { c.refresh != 0 && c.challenge != 0 && c.nonce != 0 && c.key != 0 }

  function Goto(s: State, r: Id, phase: Phase): State
    requires r in s.attempts
  {
    s.(attempts := s.attempts[r := s.attempts[r].(phase := phase)])
  }

  /** The state after attempt r ran transaction `tx`: what is stored, and where the call goes next. */
  function Settle(s: State, r: Id, tx: Tx, fault: Fault): State
    requires r in s.attempts
  {
    match fault
    case Abort => Goto(s, r, Finished(Unavailable))
    case LostReply => Goto(WithDB(s, tx.db), r, Finished(Unavailable))
    case Clean =>
      if tx.reply.Proceed? then Goto(WithDB(s, tx.db), r, AtChallenge(tx.reply.authority))
      else Goto(WithDB(s, tx.db), r, Finished(tx.reply))
  }

  // The checks after a successful GETDEL: Consume's own and RotateDeviceToken's
  predicate ChallengeMatches(s: State, a: Attempt, g: Authority, ch: Challenge) {
    && s.clock < ch.expiresAt && ch.token == a.command.refresh && ch.family == g.familyId && ch.nonce == a.command.nonce
  }

  predicate ProofValid(a: Attempt, g: Authority, ch: Challenge) {
    && a.now < ch.expiresAt
    && a.command.signature == Signature(g.device.signingKey, RotationTranscript(ch.bytes, g.familyId, a.command.nonce))
  }

  /** GETDEL of the attempt's challenge and what follows.  A fault is an ambiguous Redis error: `Abort` leaves the
      key, `LostReply` removes it. */
  function ConsumeStep(s: State, r: Id, fault: Fault): State
    requires r in s.attempts && s.attempts[r].phase.AtChallenge?
  {
    var a := s.attempts[r];
    var g := a.phase.authority;
    var id := a.command.challenge;
    var taken := if fault.Abort? then s else s.(challenges := s.challenges - {id});
    if !fault.Clean? then Goto(taken, r, AtReclassify(true))
    else if id !in s.challenges || !ChallengeMatches(s, a, g, s.challenges[id]) then Goto(taken, r, AtReclassify(false))
    else if !ProofValid(a, g, s.challenges[id]) then Goto(taken, r, Finished(AuthenticationFailed))
    else taken.(attempts := taken.attempts[r := a.(phase := AtFinal(g), proved := true)])
  }

  predicate FreshPair(s: State, access: Hash, refresh: Hash) {
    access != refresh && access !in s.seen && refresh !in s.seen
  }

  function PruneRecords(records: map<RecordKey, Record>, cutoff: Time): map<RecordKey, Record> {
    map k | k in records && !(records[k].expiresAt < cutoff && records[k].state.Completed?) :: records[k]
  }

  function Apply(s: State, action: Action): State {
    match action
    case Tick(elapsed) => s.(clock := s.clock + elapsed)
    case SignUp(p, at) => if at <= s.clock then WithDB(s, CreateAccount(s.db, s.mode, p, at)) else s
    case SignIn(p, sid, access, refresh, at) =>
      if at <= s.clock then WithDB(s, IssueSession(s.db, s.mode, p, sid, access, refresh, at)) else s
    case RefreshSession(t, access, refresh, at) =>
      if at <= s.clock then WithDB(s, RotateAccount(s.db, s.mode, t, access, refresh, at)) else s
    case RequireReview(p) => WithDB(s, MarkReview(s.db, p))
    case EndSessions(which) => WithDB(s, RevokeSessions(s.db, which))
    case MakeGrant(p, sid, grant, at) =>
      if at <= s.clock then WithDB(s, CreateGrant(s.db, s.mode, p, sid, grant, at)) else s
    case Verify(p, at) => if at <= s.clock then WithDB(s, VerifyEmail(s.db, p, at)) else s
    case Register(c, found, x, at) =>
      if at <= s.clock && FreshPair(s, x.access, x.refresh)
      then WithDB(s, RegisterTx(s.db, s.mode, c, found, x, at).db).(seen := s.seen + {x.access, x.refresh}) else s
    case Revoke(r, a, at) => if at <= s.clock then WithDB(s, RevokeTx(s.db, r, a, at).db) else s
    case IssueChallenge(id, bytes, token, nonce, at) =>
      if at <= s.clock && id != 0 && id !in s.issued && NewChallenge(s, bytes, token, nonce, at).Some?
      then s.(challenges := s.challenges[id := NewChallenge(s, bytes, token, nonce, at).value],
              issued := s.issued[id := NewChallenge(s, bytes, token, nonce, at).value]) else s
    case Start(r, c) =>
      if r !in s.attempts && CommandValid(c)
      then s.(attempts := s.attempts[r := Attempt(c, s.clock, AtPreflight, false)], seen := s.seen + {c.refresh}) else s
    case Preflight(r, fault) =>
      if r in s.attempts && s.attempts[r].phase.AtPreflight?
      then Settle(s, r, PreflightTx(s.db, s.mode, s.attempts[r].command, s.attempts[r].now), fault) else s
    case Consume(r, fault) =>
      if r in s.attempts && s.attempts[r].phase.AtChallenge? then ConsumeStep(s, r, fault) else s
    case Reclassify(r, fault) =>
      if r in s.attempts && s.attempts[r].phase.AtReclassify?
      then Settle(s, r, ReclassifyTx(s.db, s.mode, s.attempts[r].command, s.attempts[r].now,
                                     s.attempts[r].phase.ambiguous), fault) else s
    case Final(r, access, refresh, fault) =>
      if r in s.attempts && s.attempts[r].phase.AtFinal? && FreshPair(s, access, refresh)
      then Settle(s, r, FinalTx(s.db, s.mode, s.attempts[r].command, s.attempts[r].now, s.attempts[r].phase.authority,
                                access, refresh), fault)
             .(seen := s.seen + {access, refresh})
      else s
    case Prune(cutoff) =>
      if cutoff <= s.clock
      then WithDB(s, s.db.(records := PruneRecords(s.db.records, cutoff))).(pruned := if s.pruned < cutoff then cutoff
                                                                            else s.pruned) else s
  }

  function Run(s: State, actions: seq<Action>): State
    decreases |actions|
  {
    if actions == [] then s else Run(Apply(s, actions[0]), actions[1..])
  }
}
