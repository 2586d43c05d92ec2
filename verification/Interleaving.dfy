/** Rotation transactions statement by statement.  Each run executes lockDeviceRefreshAuthority one statement at a
    time under row locks, every statement seeing its own snapshot of the committed rows, while other runs and all
    other transactions of the system commit in between.  A locking read takes its snapshot first and its locks
    afterwards, so it misses rows inserted while it waits. */
module Interleaving {
  import opened Schema
  import opened Identity
  import opened DeviceTx
  import opened Protocol
  import opened Effects
  import opened History
  import opened Rows
  import opened Locks

  /** Which of the three transactions of RotateDeviceToken is running. */
  datatype Goal = ToClassify | ToReclassify(ambiguous: bool) | ToRotate(seen: Authority, access: Hash, refresh: Hash)

  datatype Pc =
    | Discovering | Beginning | Anchoring | Snapshotting | LockingRows | LockingFamily | LockingAuthorization
    | LockingDevice
    | Rediscovering | LockingAccount | Relisting | Deciding | Ended(reply: Reply)

  function Stage(pc: Pc): nat {
    match pc
    case Discovering => 0
    case Beginning => 1
    case Anchoring => 2
    case Snapshotting => 3
    case LockingRows => 4
    case LockingFamily => 5
    case LockingAuthorization => 6
    case LockingDevice => 7
    case Rediscovering => 8
    case LockingAccount => 9
    case Relisting => 10
    case Deciding => 11
    case Ended(_) => 12
  }

  datatype Anchor = Anchor(family: Id, authorization: Id, principal: Id, device: Id)

  function AnchorOf(g: Authority): Anchor {
    Anchor(g.familyId, g.authorizationId, g.authorization.principal, g.authorization.device)
  }

  /** One transaction: its program counter and the local variables its statements filled so far. */
  datatype Run = Run(
    command: Command, now: Time, goal: Goal, retried: bool, pc: Pc, anchor: Anchor,
    todo: seq<Row>, rows: seq<Row>, family: Option<Family>, authorization: Option<Authorization>,
    device: Option<Device>,
    found: Option<Authority>, standing: bool, again: seq<Row>)

  function NewRun(c: Command, now: Time, goal: Goal, retried: bool): Run {
    Run(c, now, goal, retried, Discovering, Anchor(0, 0, 0, 0), [], [], None, None, None, None, false, [])
  }

  function Key(run: Run): RecordKey { RecordKey(RotateScope(run.anchor.principal), run.command.key) }

  /** The locks a run holds follow from how far it got. */
  function Held(run: Run): set<Resource> {
    var n := Stage(run.pc);
    (if 2 <= n < 12 then {RecordLock(Key(run))} else {}) +
    (if 4 <= n < 12 then set i | 0 <= i < |run.rows| :: TokenLock(run.anchor.family, run.rows[i].hash) else {}) +
    (if 6 <= n < 12 then {FamilyLock(run.anchor.family)} else {}) +
    (if 7 <= n < 12 then {AuthorizationLock(run.anchor.authorization)} else {}) +
    (if 8 <= n < 12 then {DeviceLock(run.anchor.device)} else {}) +
    (if 10 <= n < 12 then {AccountLock(run.anchor.principal)} else {})
  }

  /** The lock its next statement needs. */
  function Wants(run: Run): Option<Resource> {
    match run.pc
    case Beginning => Some(RecordLock(Key(run)))
    case LockingRows => if run.todo == [] then None else Some(TokenLock(run.anchor.family, run.todo[0].hash))
    case LockingFamily => Some(FamilyLock(run.anchor.family))
    case LockingAuthorization => Some(AuthorizationLock(run.anchor.authorization))
    case LockingDevice => Some(DeviceLock(run.anchor.device))
    case LockingAccount => Some(AccountLock(run.anchor.principal))
    case _ => None
  }

  function Failure(goal: Goal): Reply {
    if goal.ToReclassify? && goal.ambiguous then Unavailable else AuthenticationFailed
  }

  /** One statement of a run that is not yet deciding.  `listing` is what a listing statement returns. */
  function Next(db: DB, run: Run, listing: seq<Row>): Run {
    var token := run.command.refresh;
    match run.pc
    case Discovering =>
      if !Discovered(db, token) || AuthorityOf(db, token).authorization.principal == 0
      then run.(pc := Ended(Failure(run.goal)))
      else run.(pc := Beginning, anchor := AnchorOf(AuthorityOf(db, token)))
    case Beginning =>
      var begun := Begin(db.records, Key(run), RequestOf(run.command), run.now);
      if begun.Started? then run.(pc := Anchoring) else run.(pc := Ended(ReplayReply(begun)))
    case Anchoring =>
      if !Discovered(db, token) then run.(pc := Ended(Failure(run.goal)))
      else
        var anchor := AnchorOf(AuthorityOf(db, token));
        if anchor.family == 0 || anchor.authorization == 0 || anchor.principal == 0 || anchor.device == 0 ||
           anchor.principal != run.anchor.principal
        then run.(pc := Ended(Failure(run.goal)))
        else run.(pc := Snapshotting, anchor := anchor)
    case Snapshotting => run.(pc := LockingRows, todo := listing, rows := [])
    case LockingRows =>
      if run.todo == [] then run.(pc := LockingFamily)
      else if run.todo[0].hash !in db.refresh then run.(todo := run.todo[1..])
      else run.(todo := run.todo[1..], rows := run.rows + [RowOf(run.todo[0].hash, db.refresh[run.todo[0].hash])])
    case LockingFamily =>
      if run.anchor.family !in db.families then run.(pc := Ended(Failure(run.goal)))
      else run.(pc := LockingAuthorization, family := Some(db.families[run.anchor.family]))
    case LockingAuthorization =>
      if run.anchor.authorization !in db.authorizations then run.(pc := Ended(Failure(run.goal)))
      else run.(pc := LockingDevice, authorization := Some(db.authorizations[run.anchor.authorization]))
    case LockingDevice =>
      if run.anchor.device !in db.devices then run.(pc := Ended(Failure(run.goal)))
      else run.(pc := Rediscovering, device := Some(db.devices[run.anchor.device]))
    case Rediscovering =>
      if !Discovered(db, token) || AnchorOf(AuthorityOf(db, token)) != run.anchor
      then run.(pc := Ended(Failure(run.goal)))
      else run.(pc := LockingAccount, found := Some(AuthorityOf(db, token)))
    case LockingAccount => run.(pc := Relisting, standing := AccountAuthority(db, run.anchor.principal, run.now))
    case Relisting => run.(pc := Deciding, again := listing)
    case Deciding => run
    case Ended(_) => run
  }

  // validDeviceRefreshAuthority on the local variables: what was discovered last against what was locked
  predicate LocalsValid(mode: Mode, run: Run) {
    && run.found.Some? && run.family == Some(run.found.value.family) &&
       run.authorization == Some(run.found.value.authorization)
    && run.device == Some(run.found.value.device)
    && AuthorityValid(mode, run.found.value, run.now)
    && Row(run.command.refresh, run.anchor.family, run.found.value.state) in run.rows
  }

  /** What a run does with its local variables alone once it has read everything; the writes go to the current rows. */
  function Decide(db: DB, mode: Mode, run: Run): Tx {
    if !run.standing || !LocalsValid(mode, run) then Tx(db, Failure(run.goal)) else
      var g := run.found.value;
      if g.familyId !in db.families || g.token !in db.refresh then Tx(db, Unavailable) else
      if run.goal.ToRotate? && !SameAuthority(run.goal.seen, g) then Tx(db, AuthenticationFailed)
      else if g.state.Used? then Tx(Compromise(db, g, Key(run), RequestOf(run.command), run.now), AuthenticationFailed)
      else match run.goal
        case ToClassify => Tx(db, Proceed(g))
        case ToReclassify(ambiguous) => Tx(db, Failure(run.goal))
        case ToRotate(seen, access, refresh) =>
          var times := RotatedTimes(g, run.now);
          if times.None? then Tx(db, AuthenticationFailed)
          else if access == 0 || refresh == 0 || refresh in db.refresh || !AccessHashFree(db.families, access)
                  then Tx(db, Unavailable)
          else Tx(Rotate(db, g, times.value, access, refresh, Key(run), RequestOf(run.command), run.now),
                  Tokens(RotatedTokens(g, times.value, access, refresh)))
  }

  /** The same transaction as one atomic step. */
  function Atomic(db: DB, mode: Mode, run: Run): Tx {
    match run.goal
    case ToClassify => PreflightTx(db, mode, run.command, run.now)
    case ToReclassify(ambiguous) => ReclassifyTx(db, mode, run.command, run.now, ambiguous)
    case ToRotate(seen, access, refresh) => FinalTx(db, mode, run.command, run.now, seen, access, refresh)
  }

  // ----- what a run knows -----

  /** The rows locked so far are current, and together with those still to lock they hold the presented token. */
  ghost predicate RowsSoFar(rows: seq<Row>, todo: seq<Row>, refresh: map<Hash, Refresh>, f: Id, token: Hash) {
    && Ascending(rows + todo) && Holds(rows + todo, token)
    && (forall i {:trigger rows[i]} :: 0 <= i < |rows| ==>
          rows[i].hash in refresh && rows[i] == RowOf(rows[i].hash, refresh[rows[i].hash]) && rows[i].family == f)
    && (forall i {:trigger todo[i]} :: 0 <= i < |todo| ==> todo[i].hash in refresh && refresh[todo[i].hash].family == f)
  }

  /** Every authorization belongs to an account. */
  ghost predicate Owned(authorizations: map<Id, Authorization>, accounts: map<Id, Account>) {
    forall a {:trigger authorizations[a]} :: a in authorizations ==> authorizations[a].principal in accounts
  }

  /** Whatever a run has read under a lock is what the committed database still holds. */
  ghost predicate RunInv(db: DB, run: Run) {
    var n := Stage(run.pc);
    var token := run.command.refresh;
    1 <= n < 12 ==>
      && Discovered(db, token) && run.anchor == AnchorOf(AuthorityOf(db, token))
      && run.anchor.principal != 0 && run.anchor.principal in db.accounts
      && (2 <= n ==> Key(run) !in db.records)
      && (4 <= n ==> RowsSoFar(run.rows, if n == 4 then run.todo else [], db.refresh, run.anchor.family, token))
      && (6 <= n ==> run.family == Some(db.families[run.anchor.family]))
      && (7 <= n ==> run.authorization == Some(db.authorizations[run.anchor.authorization]))
      && (8 <= n ==> run.device == Some(db.devices[run.anchor.device]))
      && (9 <= n ==> run.found == Some(AuthorityOf(db, token)))
      && (10 <= n ==> run.standing == AccountAuthority(db, run.anchor.principal, run.now))
      && (n == 11 ==> Lists(run.again, db.refresh, run.anchor.family))
  }

  // ----- other transactions do not disturb it -----

  lemma ListsFrame(rows: seq<Row>, x: map<Hash, Refresh>, y: map<Hash, Refresh>, f: Id)
    requires Lists(rows, x, f) && AgreeOn(x, y, {f})
    ensures Lists(rows, y, f)
  {
  }

  lemma RowsFrame(rows: seq<Row>, todo: seq<Row>, x: map<Hash, Refresh>, y: map<Hash, Refresh>, f: Id, token: Hash,
                  locks: set<Resource>)
    requires RowsSoFar(rows, todo, x, f, token) && TokensKept(x, y, locks) && TokensGrow(x, y)
    requires forall i {:trigger rows[i]} :: 0 <= i < |rows| ==> TokenLock(f, rows[i].hash) in locks
    ensures RowsSoFar(rows, todo, y, f, token)
  {
  }

  lemma AnchorFrame(db: DB, db': DB, token: Hash)
    requires Later(db, db') && Discovered(db, token)
    ensures Discovered(db', token) && AnchorOf(AuthorityOf(db', token)) == AnchorOf(AuthorityOf(db, token))
  {
  }

  lemma HeldLocks(run: Run)
    requires Stage(run.pc) < 12
    ensures 2 <= Stage(run.pc) ==> RecordLock(Key(run)) in Held(run)
    ensures 4 <= Stage(run.pc) ==> forall i {:trigger run.rows[i]} ::
              0 <= i < |run.rows| ==> TokenLock(run.anchor.family, run.rows[i].hash) in Held(run)
    ensures 6 <= Stage(run.pc) ==> FamilyLock(run.anchor.family) in Held(run)
    ensures 7 <= Stage(run.pc) ==> AuthorizationLock(run.anchor.authorization) in Held(run)
    ensures 8 <= Stage(run.pc) ==> DeviceLock(run.anchor.device) in Held(run)
    ensures 10 <= Stage(run.pc) ==> AccountLock(run.anchor.principal) in Held(run)
  {
  }

  /** A run's knowledge survives every commit that leaves its locks alone. */
  lemma RunFrame(db: DB, db': DB, run: Run)
    requires RunInv(db, run) && Undisturbed(db, db', Held(run)) && Later(db, db')
    ensures RunInv(db', run)
  {
    var n := Stage(run.pc);
    if 1 <= n < 12 {
      AnchorFrame(db, db', run.command.refresh);
      HeldLocks(run);
      if 4 <= n {
        RowsFrame(run.rows, if n == 4 then run.todo else [], db.refresh, db'.refresh, run.anchor.family,
                  run.command.refresh, Held(run));
      }
      if 9 <= n { FoundFrame(db, db', run); }
      if n == 11 { ListsFrame(run.again, db.refresh, db'.refresh, run.anchor.family); }
    }
  }

  /** The join behind the token is pinned by the four row locks. */
  lemma FoundFrame(db: DB, db': DB, run: Run)
    requires RunInv(db, run) && 9 <= Stage(run.pc) < 12 && Undisturbed(db, db', Held(run))
    requires Discovered(db', run.command.refresh) && AnchorOf(AuthorityOf(db', run.command.refresh)) == run.anchor
    ensures AuthorityOf(db', run.command.refresh) == AuthorityOf(db, run.command.refresh)
  {
    HeldLocks(run);
  }

  // ----- a run's own statements -----

  lemma FirstRow(rows: seq<Row>, todo: seq<Row>, refresh: map<Hash, Refresh>, f: Id, token: Hash)
    requires RowsSoFar(rows, todo, refresh, f, token) && todo != []
    ensures RowsSoFar(rows + [RowOf(todo[0].hash, refresh[todo[0].hash])], todo[1..], refresh, f, token)
  {
    var before, after := rows + todo, rows + [RowOf(todo[0].hash, refresh[todo[0].hash])] + todo[1..];
    assert |before| == |after| && forall i :: 0 <= i < |before| ==> after[i].hash == before[i].hash;
    var i :| 0 <= i < |before| && before[i].hash == token;
    assert after[i].hash == token;
  }

  lemma NewListing(listing: seq<Row>, refresh: map<Hash, Refresh>, f: Id, token: Hash)
    requires Lists(listing, refresh, f) && token in refresh && refresh[token].family == f
    ensures RowsSoFar([], listing, refresh, f, token)
  {
    assert [] + listing == listing && Holds(listing, token);
  }

  ghost predicate ListingFits(db: DB, run: Run, listing: seq<Row>) {
    run.pc.Snapshotting? || run.pc.Relisting? ==> Lists(listing, db.refresh, run.anchor.family)
  }

  lemma OpeningKeeps(db: DB, run: Run, listing: seq<Row>)
    requires RunInv(db, run) && Owned(db.authorizations, db.accounts) && Stage(run.pc) < 3
    ensures RunInv(db, Next(db, run, listing))
    ensures forall r :: r in Held(Next(db, run, listing)) ==> r in Held(run) || Wants(run) == Some(r)
  {
  }

  lemma RowsKeep(db: DB, run: Run, listing: seq<Row>)
    requires RunInv(db, run) && 3 <= Stage(run.pc) < 5 && ListingFits(db, run, listing)
    ensures RunInv(db, Next(db, run, listing))
    ensures forall r :: r in Held(Next(db, run, listing)) ==> r in Held(run) || Wants(run) == Some(r)
  {
    var f := run.anchor.family;
    if run.pc.Snapshotting? {
      NewListing(listing, db.refresh, f, run.command.refresh);
    } else if run.todo != [] {
      FirstRow(run.rows, run.todo, db.refresh, f, run.command.refresh);
    } else {
      assert run.rows + run.todo == run.rows + [];
    }
  }

  lemma LockingKeeps(db: DB, run: Run, listing: seq<Row>)
    requires RunInv(db, run) && 5 <= Stage(run.pc) < 8
    ensures RunInv(db, Next(db, run, listing))
    ensures forall r :: r in Held(Next(db, run, listing)) ==> r in Held(run) || Wants(run) == Some(r)
  {
  }

  lemma ClosingKeeps(db: DB, run: Run, listing: seq<Row>)
    requires RunInv(db, run) && 8 <= Stage(run.pc) < 11 && ListingFits(db, run, listing)
    ensures RunInv(db, Next(db, run, listing))
    ensures forall r :: r in Held(Next(db, run, listing)) ==> r in Held(run) || Wants(run) == Some(r)
  {
    var run' := Next(db, run, listing);
    if run.pc.Rediscovering? {
      assert run' == run.(pc := LockingAccount, found := Some(AuthorityOf(db, run.command.refresh)));
    } else if run.pc.LockingAccount? {
      assert run' == run.(pc := Relisting, standing := AccountAuthority(db, run.anchor.principal, run.now));
    } else {
      assert run' == run.(pc := Deciding, again := listing);
    }
  }

  /** Every statement keeps what the run knows and takes at most the lock it waited for. */
  lemma NextKeeps(db: DB, run: Run, listing: seq<Row>)
    requires RunInv(db, run) && Owned(db.authorizations, db.accounts) && Stage(run.pc) < 11 &&
             ListingFits(db, run, listing)
    ensures RunInv(db, Next(db, run, listing))
    ensures forall r :: r in Held(Next(db, run, listing)) ==> r in Held(run) || Wants(run) == Some(r)
  {
    if Stage(run.pc) < 3 { OpeningKeeps(db, run, listing); }
    else if Stage(run.pc) < 5 { RowsKeep(db, run, listing); }
    else if Stage(run.pc) < 8 { LockingKeeps(db, run, listing); }
    else { ClosingKeeps(db, run, listing); }
  }

  lemma UndiscoveredIsAtomic(db: DB, mode: Mode, run: Run)
    requires run.pc.Discovering? && Next(db, run, []).pc.Ended?
    ensures Atomic(db, mode, run) == Tx(db, Failure(run.goal))
  {
  }

  lemma ReplayIsAtomic(db: DB, mode: Mode, run: Run)
    requires RunInv(db, run) && run.pc.Beginning? &&
             !Begin(db.records, Key(run), RequestOf(run.command), run.now).Started?
    ensures Atomic(db, mode, run) == Tx(db, ReplayReply(Begin(db.records, Key(run), RequestOf(run.command), run.now)))
  {
    assert Key(run) == RecordKeyOf(db, run.command);
  }

  lemma NilAnchorIsAtomic(db: DB, mode: Mode, run: Run)
    requires RunInv(db, run) && run.pc.Anchoring? && Next(db, run, []).pc.Ended?
    ensures Atomic(db, mode, run) == Tx(db, Failure(run.goal))
  {
    assert Key(run) == RecordKeyOf(db, run.command);
    assert LockAuthority(db, mode, run.command.refresh, run.now).None?;
  }

  /** A run that stops early answers as the atomic transaction would at that moment. */
  lemma EarlyEndIsAtomic(db: DB, mode: Mode, run: Run, listing: seq<Row>)
    requires RunInv(db, run) && Stage(run.pc) < 11 && Next(db, run, listing).pc.Ended?
    ensures Tx(db, Next(db, run, listing).pc.reply) == Atomic(db, mode, run)
  {
    if run.pc.Discovering? { UndiscoveredIsAtomic(db, mode, run); }
    else if run.pc.Beginning? { ReplayIsAtomic(db, mode, run); }
    else if run.pc.Anchoring? { NilAnchorIsAtomic(db, mode, run); }
  }

  // ----- the decision -----

  /** When the second listing equals the locked rows, the locals decide exactly as LockAuthority does on the committed
      database. */
  lemma LocalsDecide(db: DB, mode: Mode, run: Run)
    requires RunInv(db, run) && run.pc.Deciding? && run.rows == run.again
    ensures LockAuthority(db, mode, run.command.refresh, run.now) ==
            (if run.standing && LocalsValid(mode, run) then run.found else None)
  {
    PresentedExactly(run.again, db.refresh, run.anchor.family, run.command.refresh, run.found.value.state);
  }

  lemma DecisionIsAtomic(db: DB, mode: Mode, run: Run)
    requires RunInv(db, run) && run.pc.Deciding? && run.rows == run.again
    ensures Decide(db, mode, run) == Atomic(db, mode, run)
  {
    LocalsDecide(db, mode, run);
  }
}
