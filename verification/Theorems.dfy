/** The main results, for every reachable state and every run. */
module Theorems {
  import opened Schema
  import opened Identity
  import opened DeviceTx
  import opened Protocol
  import opened Effects
  import opened Chains
  import opened History
  import opened Records
  import opened Safety
  import opened Attempts
  import opened Steps
  import opened Ties
  import opened Trial
  import opened Graph

  ghost predicate Reachable(s: State) { exists s0, actions :: Init(s0) && s == Run(s0, actions) }

  ghost predicate Good(s: State) { Inv(s) && TieInv(s.db) && IdInv(s.db) && TrialInv(s.db) && GraphInv(s.db) }

  lemma GoodStep(s: State, action: Action)
    requires Good(s)
    ensures Good(Apply(s, action))
  {
    InvStep(s, action);
    TieStep(s, action);
    IdStep(s, action);
    TrialStep(s, action);
    GraphStep(s, action);
  }

  lemma {:induction false} GoodRun(s: State, actions: seq<Action>)
    requires Good(s)
    ensures Good(Run(s, actions))
    decreases |actions|
  {
    if actions != [] {
      GoodStep(s, actions[0]);
      GoodRun(Apply(s, actions[0]), actions[1..]);
    }
  }

  lemma ReachableGood(s: State)
    requires Reachable(s)
    ensures Good(s)
  {
    var s0, actions :| Init(s0) && s == Run(s0, actions);
    InitGood(s0);
    GoodRun(s0, actions);
  }

  lemma InitGood(s: State)
    requires Init(s)
    ensures Good(s)
  {
    InitHolds(s);
    EmptyIsGood();
  }

  lemma EmptyIsGood()
    ensures TieInv(EMPTY_DB) && IdInv(EMPTY_DB) && TrialInv(EMPTY_DB) && GraphInv(EMPTY_DB)
  {
  }

  lemma {:induction false} RunAppends(s: State, first: seq<Action>, second: seq<Action>)
    ensures Run(s, first + second) == Run(Run(s, first), second)
    decreases |first|
  {
    if first == [] {
      assert first + second == second;
    } else {
      assert (first + second)[1..] == first[1..] + second;
      RunAppends(Apply(s, first[0]), first[1..], second);
    }
  }

  lemma ReachableRun(s: State, actions: seq<Action>)
    requires Reachable(s)
    ensures Reachable(Run(s, actions))
  {
    var s0, before :| Init(s0) && s == Run(s0, before);
    RunAppends(s0, before, actions);
  }

  lemma ReachableStep(s: State, action: Action)
    requires Reachable(s)
    ensures Reachable(Apply(s, action))
  {
    ReachableRun(s, [action]);
    assert [action][1..] == [] && Run(Apply(s, action), []) == Apply(s, action);
  }

  // ----- chains, versions, lifetimes -----

  /** In every reachable state a family's refresh tokens form one chain: all but the newest are used, the newest is
      live exactly while the family is, and the version counts the tokens, the compromise and the revocation. */
  lemma FamiliesAreChains(s: State, f: Id)
    requires Reachable(s) && f in s.db.families
    ensures exists c :: IsChain(c, f, s.db.families[f].state.FamilyActive?, s.db.refresh) &&
                        VersionCounts(s.db.families[f], |c|, Compromises(s.db.events, f))
  {
    ReachableGood(s);
    assert FamilyChain(f, s.db.families[f], s.db.refresh, s.db.events);
  }

  /** Access before idle before absolute expiry, never past a running trial; over any run the absolute expiry stays
      the one of registration. */
  lemma LifetimesHold(s: State, actions: seq<Action>, f: Id)
    requires Reachable(s) && f in s.db.families
    ensures var s' := Run(s, actions);
            && f in s'.db.families && Lifetimes(s'.db.families[f], s'.db.authorizations)
            && s'.db.families[f].absoluteExpires == s.db.families[f].absoluteExpires
  {
    RunMovesForward(s, actions);
    ReachableRun(s, actions);
    ReachableGood(Run(s, actions));
    assert FamilyLater(s.db.families[f], Run(s, actions).db.families[f]);
  }

  // ----- idempotency records -----

  lemma CompleteNeverBusy(records: map<RecordKey, Record>, k: RecordKey, request: Request, now: Time)
    requires k in records && WellFormed(k, records[k])
    ensures !Begin(records, k, request, now).KeyBusy?
  {
  }

  /** No committed record is in progress, and every stored response passes the decoder of its operation. */
  lemma RecordsAreComplete(s: State, k: RecordKey, request: Request, now: Time)
    requires Reachable(s) && k in s.db.records
    ensures WellFormed(k, s.db.records[k]) && !Begin(s.db.records, k, request, now).KeyBusy?
  {
    ReachableGood(s);
    CompleteNeverBusy(s.db.records, k, request, now);
  }

  // ----- retries -----

  /** Any two calls that present the same refresh token and succeed return the same tokens, and that token has one
      successor. */
  lemma SuccessfulRetriesAgree(s: State, q: Id, r: Id)
    requires Reachable(s) && q in s.attempts && r in s.attempts && Succeeded(s.attempts[q]) && Succeeded(s.attempts[r])
    requires s.attempts[q].command.refresh == s.attempts[r].command.refresh
    ensures s.attempts[q].phase.reply == s.attempts[r].phase.reply
    ensures forall h :: h in s.db.refresh && s.db.refresh[h].previous == Some(s.attempts[r].command.refresh) ==>
              h == s.attempts[r].phase.reply.tokens.refresh
  {
    ReachableGood(s);
    var t := s.attempts[r].phase.reply.tokens;
    assert Answered(s.attempts[r].command.refresh, t, s.db.records, s.db.refresh);
    forall h | h in s.db.refresh && s.db.refresh[h].previous == Some(s.attempts[r].command.refresh)
      ensures h == t.refresh {
      UniqueSuccessor(s.db.families, s.db.refresh, s.db.events, s.attempts[r].command.refresh, h, t.refresh);
    }
  }

  /** Everyone who presents this call's token is retrying this very call. */
  ghost predicate OnlyRetries(s: State, r: Id)
    requires r in s.attempts
  {
    forall q {:trigger s.attempts[q]} ::
      q in s.attempts && s.attempts[q].command.refresh == s.attempts[r].command.refresh ==>
      s.attempts[q].command == s.attempts[r].command
  }

  /** While its token is only ever presented under one key and body, the record of the rotation that spent it is found
      again. */
  lemma RetryFindsRecord(s: State, r: Id)
    requires Good(s) && r in s.attempts && OnlyRetries(s, r) && Discovered(s.db, s.attempts[r].command.refresh)
    requires SpentOnRecord(s.db.records, s.attempts[r].command.refresh)
    ensures RecordKeyOf(s.db, s.attempts[r].command) in s.db.records
    ensures Rotates(s.db.records[RecordKeyOf(s.db, s.attempts[r].command)], s.attempts[r].command.refresh)
    ensures s.db.records[RecordKeyOf(s.db, s.attempts[r].command)].request == RequestOf(s.attempts[r].command)
  {
    var h := s.attempts[r].command.refresh;
    var k :| k in s.db.records && Rotates(s.db.records[k], h);
    RotatesMeansUsed(s.db.records, s.db.families, s.db.refresh, s.db.events, k, h);
    assert Scoped(k, s.db.records[k], s.db.families, s.db.authorizations);
    assert Originates(s.attempts, k, s.db.records[k].request);
    var q :| q in s.attempts && s.attempts[q].command.key == k.key &&
             RequestOf(s.attempts[q].command) == s.db.records[k].request;
    assert s.attempts[q].command == s.attempts[r].command;
    assert k == RecordKeyOf(s.db, s.attempts[r].command);
  }

  /** A call whose token only its own retries present compromises only after the record of the rotation was pruned:
      its clock reading lies before the end of the family, and the family ended at or before the latest pruning
      cut-off. */
  lemma OnlyPrunedRetriesCompromise(s: State, r: Id, rotate: Option<(Authority, Hash, Hash)>)
    requires Good(s) && r in s.attempts && OnlyRetries(s, r)
    requires LockedEffect(s.db, s.mode, s.attempts[r].command, s.attempts[r].now, rotate).Compromising?
    ensures Discovered(s.db, s.attempts[r].command.refresh) &&
            !SpentOnRecord(s.db.records, s.attempts[r].command.refresh)
    ensures s.attempts[r].now < AuthorityOf(s.db, s.attempts[r].command.refresh).family.absoluteExpires <= s.pruned
  {
    var a := s.attempts[r];
    CompromiseMeans(s.db, s.mode, a.command, a.now, rotate);
    assert !SpentOnRecord(s.db.records, a.command.refresh) by {
      if SpentOnRecord(s.db.records, a.command.refresh) { RetryFindsRecord(s, r); }
    }
    assert SpentInv(s.db.records, s.db.families, s.db.refresh, s.pruned);
  }

  /** A retry that presents a used token, under a key that holds nothing but the record of that token's own rotation,
      compromises the family if and only if that record is gone. */
  lemma RetriesCompromiseExactly(s: State, r: Id, rotate: Option<(Authority, Hash, Hash)>)
    requires Reachable(s) && r in s.attempts && OnlyRetries(s, r)
    requires var a := s.attempts[r];
             && Discovered(s.db, a.command.refresh) && AuthorityOf(s.db, a.command.refresh).authorization.principal != 0
             && LockAuthority(s.db, s.mode, a.command.refresh, a.now).Some?
             && LockAuthority(s.db, s.mode, a.command.refresh, a.now).value.state.Used?
             && (rotate.Some? ==>
                   SameAuthority(rotate.value.0, LockAuthority(s.db, s.mode, a.command.refresh, a.now).value))
             && (RecordKeyOf(s.db, a.command) in s.db.records ==>
                   Rotates(s.db.records[RecordKeyOf(s.db, a.command)], a.command.refresh))
    ensures LockedEffect(s.db, s.mode, s.attempts[r].command, s.attempts[r].now, rotate).Compromising? <==>
            !SpentOnRecord(s.db.records, s.attempts[r].command.refresh)
  {
    ReachableGood(s);
    if LockedEffect(s.db, s.mode, s.attempts[r].command, s.attempts[r].now, rotate).Compromising? {
      OnlyPrunedRetriesCompromise(s, r, rotate);
    }
  }

  lemma CompromiseMeans(db: DB, mode: Mode, c: Command, now: Time, rotate: Option<(Authority, Hash, Hash)>)
    requires LockedEffect(db, mode, c, now, rotate).Compromising?
    ensures Discovered(db, c.refresh) && RecordKeyOf(db, c) !in db.records && db.refresh[c.refresh].state.Used?
    ensures now < AuthorityOf(db, c.refresh).family.absoluteExpires
  {
  }

  lemma NoCompromise(s: State, r: Id, rotate: Option<(Authority, Hash, Hash)>)
    requires Good(s) && r in s.attempts && OnlyRetries(s, r) && s.pruned <= s.attempts[r].now
    ensures !LockedEffect(s.db, s.mode, s.attempts[r].command, s.attempts[r].now, rotate).Compromising?
  {
    if LockedEffect(s.db, s.mode, s.attempts[r].command, s.attempts[r].now, rotate).Compromising? {
      OnlyPrunedRetriesCompromise(s, r, rotate);
    }
  }

  lemma QuietWithoutCompromise(db: DB, mode: Mode, c: Command, now: Time, rotate: Option<(Authority, Hash, Hash)>,
                               db': DB)
    requires Makes(db, mode, LockedEffect(db, mode, c, now, rotate), db')
    requires !LockedEffect(db, mode, c, now, rotate).Compromising?
    ensures db'.events == db.events
  {
  }

  /** Retry safety: no step of a retried call compromises the family, provided the call's clock reading is not older
      than the last pruning. */
  lemma RetriesNeverCompromise(s: State, action: Action)
    requires Reachable(s) && MovesCall(action) && action.attempt in s.attempts
    requires OnlyRetries(s, action.attempt) && s.pruned <= s.attempts[action.attempt].now
    ensures Apply(s, action).db.events == s.db.events
  {
    ReachableGood(s);
    ApplyMakes(s, action);
    var a := s.attempts[action.attempt];
    var rotate := if action.Final? && a.phase.AtFinal? then Some((a.phase.authority, action.access, action.refresh))
                  else None;
    NoCompromise(s, action.attempt, rotate);
    if EffectOf(s, action) == LockedEffect(s.db, s.mode, a.command, a.now, rotate) {
      QuietWithoutCompromise(s.db, s.mode, a.command, a.now, rotate, Apply(s, action).db);
    }
  }
}
