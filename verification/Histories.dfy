/** What holds along every history of interleaved statements, and a history that shows why the second listing is
    needed. */
module Histories {
  import opened Schema
  import opened Identity
  import opened DeviceTx
  import opened Effects
  import opened Chains
  import opened Safety
  import opened Rows
  import opened Locks
  import opened Interleaving
  import opened Concurrency

  // ----- families stay chains -----

  ghost predicate ChainsHold(db: DB) {
    ChainInv(db.families, db.refresh, db.events) && LifetimeInv(db.families, db.authorizations)
  }

  lemma CompromiseKeepsChains(db: DB, mode: Mode, effect: Effect, db': DB)
    requires ChainsHold(db) && Makes(db, mode, effect, db') && effect.Compromising?
    ensures ChainsHold(db')
  {
    var f := effect.g.familyId;
    CompromiseRetires(db.families, db.refresh, db.events, f, db'.families[f], db'.events[|db.events|]);
  }

  lemma ActivationKeepsLifetimes(db: DB, p: Id, now: Time)
    requires LifetimeInv(db.families, db.authorizations)
    ensures LifetimeInv(db.families, VerifyEmail(db, p, now).authorizations)
  {
  }

  lemma EffectKeepsChains(db: DB, mode: Mode, effect: Effect, db': DB)
    requires ChainsHold(db) && Makes(db, mode, effect, db')
    ensures ChainsHold(db')
  {
    match effect
    case Rotating(g, times, access, refresh, key, request, now) =>
      RotationKeepsChains(db, db', mode, g, times, access, refresh, key, request, now);
    case Compromising(_, _, _, _) => CompromiseKeepsChains(db, mode, effect, db');
    case Revoking(r, a, key, now) => RevocationKeepsChains(db, db', r, a, key, now);
    case Registering(c, e, state, policy, x, now) => RegistrationKeepsChains(db, db', e, state, policy, c, x, now);
    case Activating(p, now) => ActivationKeepsLifetimes(db, p, now);
    case _ =>
  }

  lemma {:induction false} ChainsHoldAlong(states: seq<Machine>, moves: seq<Move>, n: nat)
    requires Trace(states, moves) && n < |states| && ChainsHold(states[0].db)
    ensures ChainsHold(states[n].db)
  {
    if n > 0 {
      ChainsHoldAlong(states, moves, n - 1);
      EveryMoveIsAnEffect(states, moves, n - 1);
      var effect :| Makes(states[n - 1].db, states[n - 1].mode, effect, states[n].db);
      EffectKeepsChains(states[n - 1].db, states[n - 1].mode, effect, states[n].db);
    }
  }

  /** Every family is one unbranched chain with at most one live token, and its version counts the chain, at every
      point of every history in which rotations run statement by statement among each other and among all other
      transactions. */
  lemma ChainsAlongTrace(states: seq<Machine>, moves: seq<Move>, n: nat, f: Id)
    requires Trace(states, moves) && n < |states| && ChainsHold(states[0].db) && f in states[n].db.families
    ensures exists c :: IsChain(c, f, states[n].db.families[f].state.FamilyActive?, states[n].db.refresh) &&
                        VersionCounts(states[n].db.families[f], |c|, Compromises(states[n].db.events, f))
  {
    ChainsHoldAlong(states, moves, n);
    assert FamilyChain(f, states[n].db.families[f], states[n].db.refresh, states[n].db.events);
  }

  // ----- a history in which a waiting run misses an insert -----

  ghost predicate Reaches(m: Machine) { exists states, moves :: Trace(states, moves) && states[|states| - 1] == m }

  lemma ReachesStart(db: DB, mode: Mode)
    requires Owned(db.authorizations, db.accounts)
    ensures Reaches(Machine(db, mode, map[]))
  {
    assert Trace([Machine(db, mode, map[])], []);
  }

  lemma ReachesMore(m: Machine, move: Move)
    requires Reaches(m) && Allowed(m, move)
    ensures Reaches(Do(m, move))
  {
    var states, moves :| Trace(states, moves) && states[|states| - 1] == m;
    var states', moves' := states + [Do(m, move)], moves + [move];
    forall i | 0 <= i < |moves'| ensures Allowed(states'[i], moves'[i]) && states'[i + 1] == Do(states'[i], moves'[i]) {
      if i < |moves| { assert moves'[i] == moves[i]; }
    }
    assert Trace(states', moves') && states'[|states'| - 1] == Do(m, move);
  }

  /** Run 1 and run 2 of a machine. */
  function Duo(db: DB, mode: Mode, q: Run, r: Run): Machine { Machine(db, mode, map[1 := q, 2 := r]) }

  lemma FirstSteps(db: DB, mode: Mode, q: Run, r: Run, listing: seq<Row>, q': Run)
    requires Reaches(Duo(db, mode, q, r)) && Stage(q.pc) < 11 && ListingFits(db, q, listing) &&
             q' == Next(db, q, listing)
    requires Wants(q).Some? ==> Wants(q).value !in Held(r)
    ensures Reaches(Duo(db, mode, q', r))
  {
    var m := Duo(db, mode, q, r);
    ReachesMore(m, Advance(1, listing));
    assert Do(m, Advance(1, listing)).runs == map[1 := q', 2 := r];
  }

  lemma SecondSteps(db: DB, mode: Mode, q: Run, r: Run, listing: seq<Row>, r': Run)
    requires Reaches(Duo(db, mode, q, r)) && Stage(r.pc) < 11 && ListingFits(db, r, listing) &&
             r' == Next(db, r, listing)
    requires Wants(r).Some? ==> Wants(r).value !in Held(q)
    ensures Reaches(Duo(db, mode, q, r'))
  {
    var m := Duo(db, mode, q, r);
    ReachesMore(m, Advance(2, listing));
    assert Do(m, Advance(2, listing)).runs == map[1 := q, 2 := r'];
  }

  lemma {:induction false} FirstLocksAll(db: DB, mode: Mode, q: Run, r: Run, listing: seq<Row>)
    requires Reaches(Duo(db, mode, q, r)) && q.pc.LockingRows? && q.rows + q.todo == listing &&
             Lists(listing, db.refresh, q.anchor.family)
    requires forall x :: x in Held(r) ==> x.RecordLock?
    ensures Reaches(Duo(db, mode, q.(rows := listing, todo := []), r))
    decreases |q.todo|
  {
    if q.todo == [] {
      assert q.rows == listing;
    } else {
      assert listing[|q.rows|] == q.todo[0];
      var q' := q.(todo := q.todo[1..], rows := q.rows + [q.todo[0]]);
      FirstSteps(db, mode, q, r, [], q');
      FirstLocksAll(db, mode, q', r, listing);
    }
  }

  /** A rotation of the token behind g may succeed now, and the caller has seen g. */
  ghost predicate Ready(db: DB, mode: Mode, g: Authority, c: Command, now: Time, access: Hash, refresh: Hash) {
    && Owned(db.authorizations, db.accounts) && g.token == c.refresh && g.state.Active? && RotatedTimes(g, now).Some?
    && Locked(db, mode, g, RecordKey(RotateScope(g.authorization.principal), c.key), RequestOf(c), now)
    && access != 0 && refresh != 0 && refresh !in db.refresh && AccessHashFree(db.families, access)
  }

  /** A run of c that has taken its snapshot of the family and waits for the row locks. */
  function WaitingRun(c: Command, now: Time, goal: Goal, anchor: Anchor, listing: seq<Row>): Run {
    NewRun(c, now, goal, false).(pc := LockingRows, anchor := anchor, todo := listing)
  }

  predicate Fresh(db: DB, g: Authority, c: Command) {
    c.refresh == g.token && RecordKey(RotateScope(g.authorization.principal), c.key) !in db.records
  }

  ghost predicate Sited(db: DB, g: Authority, listing: seq<Row>) {
    && Discovered(db, g.token) && g == AuthorityOf(db, g.token) && g.familyId != 0 && g.authorizationId != 0
    && g.authorization.principal != 0 && g.authorization.device != 0 && Lists(listing, db.refresh, g.familyId)
  }

  lemma SecondWaits(db: DB, mode: Mode, g: Authority, q: Run, c: Command, now: Time, goal: Goal, listing: seq<Row>)
    requires Reaches(Duo(db, mode, q, NewRun(c, now, goal, false))) && Sited(db, g, listing) && Fresh(db, g, c) &&
             Held(q) == {}
    ensures Reaches(Duo(db, mode, q, WaitingRun(c, now, goal, AnchorOf(g), listing)))
  {
    var r0 := NewRun(c, now, goal, false);
    var r1 := r0.(pc := Beginning, anchor := AnchorOf(g));
    SecondSteps(db, mode, q, r0, [], r1);
    SecondSteps(db, mode, q, r1, [], r1.(pc := Anchoring));
    SecondSteps(db, mode, q, r1.(pc := Anchoring), [], r1.(pc := Snapshotting));
    SecondSteps(db, mode, q, r1.(pc := Snapshotting), listing, r1.(pc := LockingRows, todo := listing));
  }

  /** The locks of a run that waits for rows: its idempotency record. */
  ghost predicate OnlyRecord(r: Run, key: RecordKey) { forall x :: x in Held(r) ==> x.RecordLock? && x.key != key }

  lemma FirstLocksRows(db: DB, mode: Mode, g: Authority, c: Command, now: Time, goal: Goal, r: Run, listing: seq<Row>)
    requires Reaches(Duo(db, mode, NewRun(c, now, goal, false), r)) && Sited(db, g, listing) && Fresh(db, g, c)
    requires OnlyRecord(r, RecordKey(RotateScope(g.authorization.principal), c.key))
    ensures Reaches(Duo(db, mode, WaitingRun(c, now, goal, AnchorOf(g), listing).(rows := listing, todo := []), r))
  {
    var q0 := NewRun(c, now, goal, false);
    var q1 := q0.(pc := Beginning, anchor := AnchorOf(g));
    FirstSteps(db, mode, q0, r, [], q1);
    FirstSteps(db, mode, q1, r, [], q1.(pc := Anchoring));
    FirstSteps(db, mode, q1.(pc := Anchoring), r, [], q1.(pc := Snapshotting));
    FirstSteps(db, mode, q1.(pc := Snapshotting), r, listing, q1.(pc := LockingRows, todo := listing));
    FirstLocksAll(db, mode, q1.(pc := LockingRows, todo := listing), r, listing);
  }

  /** What a run knows when it decides. */
  function DecidingRun(q: Run, g: Authority, listing: seq<Row>, standing: bool): Run {
    q.(pc := Deciding, family := Some(g.family), authorization := Some(g.authorization), device := Some(g.device),
       found := Some(g),
       standing := standing, again := listing)
  }

  lemma FirstDecides(db: DB, mode: Mode, g: Authority, q: Run, r: Run, listing: seq<Row>)
    requires Reaches(Duo(db, mode, q, r)) && Sited(db, g, listing) && q.pc.LockingRows? && q.todo == [] &&
             q.anchor == AnchorOf(g)
    requires q.command.refresh == g.token && forall x :: x in Held(r) ==> x.RecordLock?
    ensures Reaches(Duo(db, mode,
                        DecidingRun(q, g, listing, AccountAuthority(db, g.authorization.principal, q.now)), r))
  {
    var q1 := q.(pc := LockingFamily);
    FirstSteps(db, mode, q, r, [], q1);
    var q2 := q1.(pc := LockingAuthorization, family := Some(g.family));
    FirstSteps(db, mode, q1, r, [], q2);
    var q3 := q2.(pc := LockingDevice, authorization := Some(g.authorization));
    FirstSteps(db, mode, q2, r, [], q3);
    var q4 := q3.(pc := Rediscovering, device := Some(g.device));
    FirstSteps(db, mode, q3, r, [], q4);
    FirstConfirms(db, mode, g, q4, r, listing);
  }

  lemma FirstConfirms(db: DB, mode: Mode, g: Authority, q: Run, r: Run, listing: seq<Row>)
    requires Reaches(Duo(db, mode, q, r)) && Sited(db, g, listing) && q.pc.Rediscovering? && q.anchor == AnchorOf(g)
    requires q.command.refresh == g.token && forall x :: x in Held(r) ==> x.RecordLock?
    ensures Reaches(Duo(db, mode,
                        q.(pc := Deciding, found := Some(g),
                           standing := AccountAuthority(db, g.authorization.principal, q.now),
                                     again := listing), r))
  {
    var q1 := q.(pc := LockingAccount, found := Some(g));
    FirstSteps(db, mode, q, r, [], q1);
    var q2 := q1.(pc := Relisting, standing := AccountAuthority(db, g.authorization.principal, q.now));
    FirstSteps(db, mode, q1, r, [], q2);
    FirstSteps(db, mode, q2, r, listing, q2.(pc := Deciding, again := listing));
  }

  lemma BothLaunch(db: DB, mode: Mode, q: Run, c: Command, now: Time, goal: Goal, d: Command, later: Time, other: Goal)
    requires Owned(db.authorizations, db.accounts) && q == NewRun(c, now, goal, false)
    ensures Reaches(Duo(db, mode, q, NewRun(d, later, other, false)))
  {
    var m0 := Machine(db, mode, map[]);
    ReachesStart(db, mode);
    ReachesMore(m0, Launch(1, c, now, goal));
    var m1 := Do(m0, Launch(1, c, now, goal));
    ReachesMore(m1, Launch(2, d, later, other));
    assert Do(m1, Launch(2, d, later, other)) == Duo(db, mode, q, NewRun(d, later, other, false));
  }

  /** Run 1 has decided to rotate while run 2 waits for the rows of the same family. */
  function Scene(db: DB, mode: Mode, g: Authority, c: Command, d: Command, now: Time, access: Hash, refresh: Hash,
                 listing: seq<Row>): Machine {
    var q := WaitingRun(c, now, ToRotate(g, access, refresh), AnchorOf(g), listing).(rows := listing, todo := []);
    Duo(db, mode, DecidingRun(q, g, listing, AccountAuthority(db, g.authorization.principal, now)),
        WaitingRun(d, now, ToClassify, AnchorOf(g), listing))
  }

  lemma SceneIsReached(db: DB, mode: Mode, g: Authority, c: Command, d: Command, now: Time, access: Hash, refresh: Hash,
                       listing: seq<Row>)
    requires Owned(db.authorizations, db.accounts) && Sited(db, g, listing) && Fresh(db, g, c) && Fresh(db, g, d) &&
             d.key != c.key
    ensures Reaches(Scene(db, mode, g, c, d, now, access, refresh, listing))
  {
    var goal := ToRotate(g, access, refresh);
    var q, r := NewRun(c, now, goal, false), WaitingRun(d, now, ToClassify, AnchorOf(g), listing);
    BothLaunch(db, mode, q, c, now, goal, d, now, ToClassify);
    SecondWaits(db, mode, g, q, d, now, ToClassify, listing);
    FirstLocksRows(db, mode, g, c, now, goal, r, listing);
    FirstDecides(db, mode, g, WaitingRun(c, now, goal, AnchorOf(g), listing).(rows := listing, todo := []), r, listing);
  }

  /** Whenever a rotation may succeed, a second run of the same token under another key can be waiting with a snapshot
      that misses the token the rotation is about to insert. */
  lemma InsertIsMissed(db: DB, mode: Mode, g: Authority, c: Command, d: Command, now: Time, access: Hash, refresh: Hash,
                       listing: seq<Row>)
    returns (m: Machine)
    requires Ready(db, mode, g, c, now, access, refresh) && Lists(listing, db.refresh, g.familyId)
    requires d.refresh == c.refresh && d.key != c.key &&
             RecordKey(RotateScope(g.authorization.principal), d.key) !in db.records
    ensures Reaches(m) && m.db == db && 1 in m.runs && 2 in m.runs
    ensures m.runs[1].pc.Deciding? && m.runs[1].rows == m.runs[1].again && CommitEffect(db, mode, m.runs[1]).Rotating?
    ensures m.runs[2].pc.LockingRows? && m.runs[2].anchor.family == m.runs[1].anchor.family
    ensures m.runs[1].goal.ToRotate? && m.runs[1].goal.refresh == refresh &&
            !Holds(m.runs[2].rows + m.runs[2].todo, refresh)
  {
    m := Scene(db, mode, g, c, d, now, access, refresh, listing);
    SceneIsReached(db, mode, g, c, d, now, access, refresh, listing);
    Commits(db, mode, g, c, now, access, refresh, listing, m.runs[1]);
    assert m.runs[2].rows + m.runs[2].todo == listing;
  }

  lemma Commits(db: DB, mode: Mode, g: Authority, c: Command, now: Time, access: Hash, refresh: Hash, listing: seq<Row>,
                run: Run)
    requires Ready(db, mode, g, c, now, access, refresh) && Lists(listing, db.refresh, g.familyId)
    requires run == DecidingRun(WaitingRun(c, now, ToRotate(g, access, refresh), AnchorOf(g),
                                           listing).(rows := listing, todo := []), g, listing, true)
    ensures CommitEffect(db, mode, run).Rotating? && !Holds(listing, refresh)
  {
    assert Holds(listing, g.token);
    var i :| 0 <= i < |listing| && listing[i].hash == g.token;
    assert listing[i] == Row(c.refresh, run.anchor.family, g.state);
  }
}
