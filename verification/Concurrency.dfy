/** Any number of rotation transactions interleaved with each other and with every other transaction of the system,
    statement by statement, refine the atomic steps of the protocol. */
module Concurrency {
  import opened Schema
  import opened Identity
  import opened DeviceTx
  import opened Protocol
  import opened Effects
  import opened History
  import opened Rows
  import opened Locks
  import opened Interleaving
  import Graph

  datatype Machine = Machine(db: DB, mode: Mode, runs: map<Id, Run>)

  datatype Move =
    | Launch(id: Id, command: Command, now: Time, goal: Goal)
    | Advance(id: Id, listing: seq<Row>)
    | Crash(id: Id)
    | Elsewhere(effect: Effect, after: DB)

  predicate Live(run: Run) { !run.pc.Ended? }

  ghost predicate Free(m: Machine, id: Id, r: Resource) {
    forall q {:trigger m.runs[q]} :: q in m.runs && q != id ==> r !in Held(m.runs[q])
  }

  /** A statement runs once the lock it needs is free; another transaction commits only when nobody else holds a row
      it changes. */
  ghost predicate Allowed(m: Machine, move: Move) {
    match move
    case Launch(id, c, now, goal) => id !in m.runs
    case Advance(id, listing) =>
      && id in m.runs && Live(m.runs[id]) && ListingFits(m.db, m.runs[id], listing)
      && (Wants(m.runs[id]).Some? ==> Free(m, id, Wants(m.runs[id]).value))
    case Crash(id) => id in m.runs
    case Elsewhere(effect, after) =>
      && Makes(m.db, m.mode, effect, after)
      && (forall q {:trigger m.runs[q]} :: q in m.runs ==> Held(m.runs[q]) !! Touches(m.db, effect))
  }

  /** The decision of a run that has read everything: commit, or after a skew start over once. */
  function Conclude(m: Machine, id: Id): Machine
    requires id in m.runs
  {
    var run := m.runs[id];
    if run.rows == run.again then
      var tx := Decide(m.db, m.mode, run);
      m.(db := tx.db, runs := m.runs[id := run.(pc := Ended(tx.reply))])
    else if run.retried then m.(runs := m.runs[id := run.(pc := Ended(Unavailable))])
    else m.(runs := m.runs[id := NewRun(run.command, run.now, run.goal, true)])
  }

  function Do(m: Machine, move: Move): Machine {
    match move
    case Launch(id, c, now, goal) => m.(runs := m.runs[id := NewRun(c, now, goal, false)])
    case Advance(id, listing) =>
      if id !in m.runs then m
      else if m.runs[id].pc.Deciding? then Conclude(m, id)
      else m.(runs := m.runs[id := Next(m.db, m.runs[id], listing)])
    case Crash(id) => if id !in m.runs then m else m.(runs := m.runs[id := m.runs[id].(pc := Ended(Unavailable))])
    case Elsewhere(effect, after) => m.(db := after)
  }

  ghost predicate Exclusive(runs: map<Id, Run>) {
    forall q, r {:trigger runs[q], runs[r]} :: q in runs && r in runs && q != r ==> Held(runs[q]) !! Held(runs[r])
  }

  ghost predicate Sound(m: Machine) {
    && Owned(m.db.authorizations, m.db.accounts) && Exclusive(m.runs)
    && (forall q {:trigger m.runs[q]} :: q in m.runs ==> RunInv(m.db, m.runs[q]))
  }

  // ----- the commit of one run -----

  /** What a deciding run commits, as an effect. */
  function CommitEffect(db: DB, mode: Mode, run: Run): Effect {
    if run.standing && LocalsValid(mode, run) &&
       !(run.goal.ToRotate? && !SameAuthority(run.goal.seen, run.found.value)) then
      var g := run.found.value;
      if g.state.Used? then Compromising(g, Key(run), RequestOf(run.command), run.now)
      else if run.goal.ToRotate? && RotatedTimes(g, run.now).Some? && run.goal.access != 0 && run.goal.refresh != 0 &&
              run.goal.refresh !in db.refresh && AccessHashFree(db.families, run.goal.access)
      then Rotating(g, RotatedTimes(g, run.now).value, run.goal.access, run.goal.refresh, Key(run),
                    RequestOf(run.command), run.now)
      else Nothing
    else Nothing
  }

  lemma CommitMakes(db: DB, mode: Mode, run: Run)
    requires RunInv(db, run) && run.pc.Deciding? && run.rows == run.again
    ensures Makes(db, mode, CommitEffect(db, mode, run), Decide(db, mode, run).db)
  {
    if run.standing && LocalsValid(mode, run) {
      assert Locked(db, mode, run.found.value, Key(run), RequestOf(run.command), run.now);
    }
  }

  lemma AllRowsLocked(db: DB, run: Run)
    requires RunInv(db, run) && run.pc.Deciding? && run.rows == run.again
    ensures TokenLocks(db.refresh, run.anchor.family) <= Held(run)
  {
    HeldLocks(run);
    forall h | h in db.refresh && db.refresh[h].family == run.anchor.family
      ensures TokenLock(run.anchor.family, h) in Held(run) {
      assert Holds(run.again, h);
      var i :| 0 <= i < |run.rows| && run.rows[i].hash == h;
    }
  }

  /** A commit changes only rows its run has locked. */
  lemma CommitWithinLocks(db: DB, mode: Mode, run: Run)
    requires RunInv(db, run) && run.pc.Deciding? && run.rows == run.again
    ensures Touches(db, CommitEffect(db, mode, run)) <= Held(run)
  {
    HeldLocks(run);
    AllRowsLocked(db, run);
    assert TokenLock(run.anchor.family, run.command.refresh) in TokenLocks(db.refresh, run.anchor.family);
  }

  // ----- every move keeps what every run knows -----

  lemma OwnedKept(db: DB, mode: Mode, effect: Effect, db': DB)
    requires Makes(db, mode, effect, db') && Owned(db.authorizations, db.accounts)
    ensures Owned(db'.authorizations, db'.accounts)
  {
  }

  /** A commit with a given footprint leaves alone every run that holds none of it. */
  lemma OthersKeep(db: DB, mode: Mode, effect: Effect, db': DB, run: Run)
    requires Makes(db, mode, effect, db') && RunInv(db, run) && Held(run) !! Touches(db, effect)
    ensures RunInv(db', run)
  {
    Footprint(db, mode, effect, db', Held(run));
    EffectMovesForward(db, mode, effect, db');
    RunFrame(db, db', run);
  }

  lemma ElsewhereKeeps(m: Machine, effect: Effect, after: DB)
    requires Sound(m) && Allowed(m, Elsewhere(effect, after))
    ensures Sound(Do(m, Elsewhere(effect, after)))
  {
    OwnedKept(m.db, m.mode, effect, after);
    forall q | q in m.runs ensures RunInv(after, m.runs[q]) { OthersKeep(m.db, m.mode, effect, after, m.runs[q]); }
  }

  lemma StillExclusive(runs: map<Id, Run>, id: Id, run: Run)
    requires Exclusive(runs)
    requires forall q {:trigger runs[q]} :: q in runs && q != id ==> Held(run) !! Held(runs[q])
    ensures Exclusive(runs[id := run])
  {
  }

  lemma AdvanceKeeps(m: Machine, id: Id, listing: seq<Row>)
    requires Sound(m) && Allowed(m, Advance(id, listing)) && !m.runs[id].pc.Deciding?
    ensures Sound(Do(m, Advance(id, listing)))
  {
    var run := m.runs[id];
    var run' := Next(m.db, run, listing);
    NextKeeps(m.db, run, listing);
    forall q | q in m.runs && q != id ensures Held(run') !! Held(m.runs[q]) {
      forall r | r in Held(run') ensures r !in Held(m.runs[q]) {
        if Wants(run) == Some(r) { assert Free(m, id, r); }
      }
    }
    StillExclusive(m.runs, id, run');
  }

  /** A run that has ended, or starts over, knows nothing and holds nothing. */
  lemma NothingHeld(db: DB, run: Run)
    requires Stage(run.pc) == 0 || Stage(run.pc) == 12
    ensures Held(run) == {} && RunInv(db, run)
  {
  }

  lemma Replaced(m: Machine, id: Id, run: Run, after: DB)
    requires Exclusive(m.runs) && Owned(after.authorizations, after.accounts) &&
             (Stage(run.pc) == 0 || Stage(run.pc) == 12)
    requires forall q {:trigger m.runs[q]} :: q in m.runs && q != id ==> RunInv(after, m.runs[q])
    ensures Sound(Machine(after, m.mode, m.runs[id := run]))
  {
    NothingHeld(after, run);
    StillExclusive(m.runs, id, run);
  }

  lemma CommitKeeps(m: Machine, id: Id, tx: Tx)
    requires Exclusive(m.runs) && id in m.runs && m.runs[id].rows == m.runs[id].again &&
             tx == Decide(m.db, m.mode, m.runs[id])
    requires Owned(tx.db.authorizations, tx.db.accounts) && forall q {:trigger m.runs[q]} ::
               q in m.runs && q != id ==> RunInv(tx.db, m.runs[q])
    ensures Sound(Conclude(m, id))
  {
    Replaced(m, id, m.runs[id].(pc := Ended(tx.reply)), tx.db);
  }

  lemma CommitLeavesOthers(m: Machine, id: Id)
    requires Sound(m) && id in m.runs && m.runs[id].pc.Deciding? && m.runs[id].rows == m.runs[id].again
    ensures var after := Decide(m.db, m.mode, m.runs[id]).db;
            && Owned(after.authorizations, after.accounts)
            && forall q {:trigger m.runs[q]} :: q in m.runs && q != id ==> RunInv(after, m.runs[q])
  {
    var run := m.runs[id];
    var effect := CommitEffect(m.db, m.mode, run);
    var after := Decide(m.db, m.mode, run).db;
    CommitMakes(m.db, m.mode, run);
    CommitWithinLocks(m.db, m.mode, run);
    OwnedKept(m.db, m.mode, effect, after);
    forall q | q in m.runs && q != id ensures RunInv(after, m.runs[q]) {
      assert Held(run) !! Held(m.runs[q]);
      OthersKeep(m.db, m.mode, effect, after, m.runs[q]);
    }
  }

  lemma SkewKeeps(m: Machine, id: Id)
    requires Sound(m) && id in m.runs && m.runs[id].pc.Deciding? && m.runs[id].rows != m.runs[id].again
    ensures Sound(Conclude(m, id)) && Conclude(m, id).db == m.db
  {
    var run := m.runs[id];
    Replaced(m, id, if run.retried then run.(pc := Ended(Unavailable))
                    else NewRun(run.command, run.now, run.goal, true), m.db);
  }

  lemma MoveKeeps(m: Machine, move: Move)
    requires Sound(m) && Allowed(m, move)
    ensures Sound(Do(m, move))
  {
    match move
    case Launch(id, c, now, goal) => Replaced(m, id, NewRun(c, now, goal, false), m.db);
    case Crash(id) => Replaced(m, id, m.runs[id].(pc := Ended(Unavailable)), m.db);
    case Elsewhere(effect, after) => ElsewhereKeeps(m, effect, after);
    case Advance(id, listing) =>
      if !m.runs[id].pc.Deciding? { AdvanceKeeps(m, id, listing); }
      else if m.runs[id].rows == m.runs[id].again {
        CommitLeavesOthers(m, id);
        CommitKeeps(m, id, Decide(m.db, m.mode, m.runs[id]));
      }
      else { SkewKeeps(m, id); }
  }

  /** A history of the machine: states and the moves between them. */
  ghost predicate Trace(states: seq<Machine>, moves: seq<Move>) {
    && |states| == |moves| + 1 && states[0].runs == map[] && Owned(states[0].db.authorizations, states[0].db.accounts)
    && forall i {:trigger moves[i]} ::
         0 <= i < |moves| ==> Allowed(states[i], moves[i]) && states[i + 1] == Do(states[i], moves[i])
  }

  lemma {:induction false} TraceIsSound(states: seq<Machine>, moves: seq<Move>, n: nat)
    requires Trace(states, moves) && n < |states|
    ensures Sound(states[n])
  {
    if n > 0 {
      TraceIsSound(states, moves, n - 1);
      assert Allowed(states[n - 1], moves[n - 1]);
      MoveKeeps(states[n - 1], moves[n - 1]);
    }
  }

  // ----- main results -----

  /** A run that passes the comparison of its two listings holds exactly the committed rows: the family, the
      authorization, the device, the account and the whole set of refresh tokens, in every history. */
  lemma LockedIsCurrent(states: seq<Machine>, moves: seq<Move>, n: nat, id: Id)
    requires Trace(states, moves) && n < |states| && id in states[n].runs
    requires states[n].runs[id].pc.Deciding? && states[n].runs[id].rows == states[n].runs[id].again
    ensures var db := states[n].db; var run := states[n].runs[id];
            && Lists(run.rows, db.refresh, run.anchor.family)
            && Discovered(db, run.command.refresh) && run.found == Some(AuthorityOf(db, run.command.refresh))
            && run.anchor == AnchorOf(run.found.value) && run.family == Some(run.found.value.family)
            && run.authorization == Some(run.found.value.authorization) && run.device == Some(run.found.value.device)
            && run.standing == AccountAuthority(db, run.anchor.principal, run.now)
  {
    TraceIsSound(states, moves, n);
  }

  /** Every run ends as its atomic transaction on the database committed at that moment, or leaves that database alone
      and answers unavailable. */
  lemma EveryEndIsAtomic(states: seq<Machine>, moves: seq<Move>, n: nat, id: Id)
    requires Trace(states, moves) && n < |moves| && id in states[n].runs && Live(states[n].runs[id])
    requires id in states[n + 1].runs && states[n + 1].runs[id].pc.Ended?
    ensures Tx(states[n + 1].db, states[n + 1].runs[id].pc.reply) ==
            Atomic(states[n].db, states[n].mode, states[n].runs[id]) ||
            Tx(states[n + 1].db, states[n + 1].runs[id].pc.reply) == Tx(states[n].db, Unavailable)
  {
    TraceIsSound(states, moves, n);
    var m, move := states[n], moves[n];
    assert Allowed(m, move) && states[n + 1] == Do(m, move);
    if move.Advance? && move.id == id {
      var run := m.runs[id];
      if run.pc.Deciding? {
        if run.rows == run.again { DecisionIsAtomic(m.db, m.mode, run); }
      } else {
        EarlyEndIsAtomic(m.db, m.mode, run, move.listing);
      }
    }
  }

  ghost predicate Effected(db: DB, mode: Mode, db': DB) { exists effect :: Makes(db, mode, effect, db') }

  /** Every move of the machine changes the committed database by one of the effects of the atomic protocol, so what
      those keep, it keeps. */
  lemma EveryMoveIsAnEffect(states: seq<Machine>, moves: seq<Move>, n: nat)
    requires Trace(states, moves) && n < |moves|
    ensures Effected(states[n].db, states[n].mode, states[n + 1].db)
  {
    TraceIsSound(states, moves, n);
    var m, move := states[n], moves[n];
    assert Allowed(m, move) && states[n + 1] == Do(m, move);
    match move
    case Elsewhere(effect, after) => assert Makes(m.db, m.mode, effect, after);
    case Advance(id, listing) =>
      if m.runs[id].pc.Deciding? && m.runs[id].rows == m.runs[id].again {
        CommitMakes(m.db, m.mode, m.runs[id]);
      } else {
        assert Makes(m.db, m.mode, Nothing, states[n + 1].db);
      }
    case _ => assert Makes(m.db, m.mode, Nothing, states[n + 1].db);
  }

  /** Why the second listing is needed: a run waiting for row locks of a family while another run rotates it has
      missed the new token, although that token is committed before the waiting run gets its locks. */
  lemma WaitingRunMissesInsert(m: Machine, q: Id, r: Id)
    requires Sound(m) && q in m.runs && r in m.runs && q != r && m.runs[q].pc.Deciding? &&
             m.runs[q].rows == m.runs[q].again
    requires CommitEffect(m.db, m.mode, m.runs[q]).Rotating?
    requires m.runs[r].pc.LockingRows? && m.runs[r].anchor.family == m.runs[q].anchor.family
    ensures m.runs[q].goal.ToRotate?
    ensures var m' := Conclude(m, q); var drawn := m.runs[q].goal.refresh;
            && drawn in m'.db.refresh && m'.db.refresh[drawn].family == m.runs[r].anchor.family &&
               m'.db.refresh[drawn].state.Active?
            && m'.runs[r] == m.runs[r] && !Holds(m.runs[r].rows + m.runs[r].todo, drawn)
  {
    var run, drawn := m.runs[r], m.runs[q].goal.refresh;
    assert !Holds(run.rows + run.todo, drawn) by { NotYetInserted(m.db, run, drawn); }
    RotationInserts(m.db, m.mode, m.runs[q]);
  }

  lemma NotYetInserted(db: DB, run: Run, drawn: Hash)
    requires RunInv(db, run) && run.pc.LockingRows? && drawn !in db.refresh
    ensures !Holds(run.rows + run.todo, drawn)
  {
    assert RowsSoFar(run.rows, run.todo, db.refresh, run.anchor.family, run.command.refresh);
    forall i | 0 <= i < |run.rows + run.todo| ensures (run.rows + run.todo)[i].hash != drawn {
      if i < |run.rows| {
        assert (run.rows + run.todo)[i] == run.rows[i];
        } else { assert (run.rows + run.todo)[i] == run.todo[i - |run.rows|];
      }
    }
  }

  lemma RotationInserts(db: DB, mode: Mode, run: Run)
    requires RunInv(db, run) && run.pc.Deciding? && run.rows == run.again && CommitEffect(db, mode, run).Rotating?
    ensures run.goal.ToRotate? && run.goal.refresh !in db.refresh
    ensures var refresh := Decide(db, mode, run).db.refresh;
            run.goal.refresh in refresh &&
            refresh[run.goal.refresh] == Refresh(run.anchor.family, Some(run.command.refresh), Active)
  {
  }

  lemma EffectKeepsGraph(db: DB, mode: Mode, db': DB)
    requires Effected(db, mode, db') && Graph.GraphInv(db)
    ensures Graph.GraphInv(db')
  {
    var effect :| Makes(db, mode, effect, db');
    Graph.EffectKeeps(db, mode, effect, db');
  }

  /** So the device graph stays whole along every history of interleaved statements. */
  lemma {:induction false} GraphAlongTrace(states: seq<Machine>, moves: seq<Move>, n: nat)
    requires Trace(states, moves) && n < |states| && Graph.GraphInv(states[0].db)
    ensures Graph.GraphInv(states[n].db)
  {
    if n > 0 {
      GraphAlongTrace(states, moves, n - 1);
      EveryMoveIsAnEffect(states, moves, n - 1);
      EffectKeepsGraph(states[n - 1].db, states[n - 1].mode, states[n].db);
    }
  }
}
