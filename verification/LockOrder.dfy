/** Rotation, bundle authorization and device revocation take their blocking locks in one strict global order, so no
    reachable state has a cycle of transactions waiting for each other. */
module LockOrder {
  import opened Schema
  import opened DeviceTx
  import opened Effects
  import opened Rows
  import opened Graph
  import opened Locks
  import opened Interleaving
  import opened Concurrency

  /** Idempotency record, refresh rows by family and hash, families, authorization, device, password credential,
      sessions, account. */
  datatype Rank = Rank(level: nat, major: nat, minor: nat)

  function RankOf(r: Resource): Rank {
    match r
    case RecordLock(_) => Rank(0, 0, 0)
    case TokenLock(f, h) => Rank(1, f, h)
    case FamilyLock(f) => Rank(2, f, 0)
    case AuthorizationLock(_) => Rank(3, 0, 0)
    case DeviceLock(_) => Rank(4, 0, 0)
    case CredentialLock(_) => Rank(5, 0, 0)
    case SessionLock(sid) => Rank(6, sid, 0)
    case AccountLock(_) => Rank(7, 0, 0)
  }

  predicate Below(x: Rank, y: Rank) {
    x.level < y.level || (x.level == y.level && (x.major < y.major || (x.major == y.major && x.minor < y.minor)))
  }

  // ----- ordered waiting has no cycle -----

  /** What a transaction holds and what it waits for. */
  datatype Waiter = Waiter(held: set<Resource>, wants: Option<Resource>)

  ghost predicate InOrder(w: Waiter) {
    w.wants.Some? ==> forall r :: r in w.held ==> Below(RankOf(r), RankOf(w.wants.value))
  }

  predicate Waits(w: Waiter, v: Waiter) { w.wants.Some? && w.wants.value in v.held }

  predicate WaitsForNext(waiters: map<Id, Waiter>, c: seq<Id>, i: nat) {
    i + 1 < |c| && c[i] in waiters && c[i + 1] in waiters && Waits(waiters[c[i]], waiters[c[i + 1]])
  }

  /** Each member of c waits for the next one, and the last for the first. */
  ghost predicate Cycle(waiters: map<Id, Waiter>, c: seq<Id>) {
    && |c| > 0 && (forall i {:trigger c[i]} :: 0 <= i < |c| ==> c[i] in waiters)
    && (forall i {:trigger WaitsForNext(waiters, c, i)} :: 0 <= i < |c| - 1 ==> WaitsForNext(waiters, c, i))
    && Waits(waiters[c[|c| - 1]], waiters[c[0]])
  }

  lemma {:induction false} RanksClimb(waiters: map<Id, Waiter>, c: seq<Id>, n: nat)
    requires Cycle(waiters, c) && n < |c|
    requires forall q {:trigger waiters[q]} :: q in waiters ==> InOrder(waiters[q])
    ensures waiters[c[0]].wants.Some? && waiters[c[n]].wants.Some?
    ensures n == 0 || Below(RankOf(waiters[c[0]].wants.value), RankOf(waiters[c[n]].wants.value))
  {
    if n + 1 < |c| { assert WaitsForNext(waiters, c, n); }
    if 1 < |c| { assert WaitsForNext(waiters, c, 0); }
    if n > 0 {
      RanksClimb(waiters, c, n - 1);
      assert WaitsForNext(waiters, c, n - 1) && InOrder(waiters[c[n]]);
    }
  }

  lemma NoCycle(waiters: map<Id, Waiter>, c: seq<Id>)
    requires forall q {:trigger waiters[q]} :: q in waiters ==> InOrder(waiters[q])
    ensures !Cycle(waiters, c)
  {
    if Cycle(waiters, c) { RanksClimb(waiters, c, |c| - 1); }
  }

  // ----- the three kinds of transaction -----

  datatype Statement = One(r: Resource) | TokensOf(f: Id) | SessionsOf(p: Id)

  datatype Kind =
    | Rotation(key: RecordKey, f: Id, a: Id, d: Id, p: Id)
    | Authorization(f: Id, a: Id, d: Id, p: Id)
    | Revocation(key: RecordKey, families: seq<Id>, a: Id, d: Id, p: Id)

  function EachTokens(families: seq<Id>): (statements: seq<Statement>)
    ensures |statements| == |families| && forall i :: 0 <= i < |families| ==> statements[i] == TokensOf(families[i])
  {
    seq(|families|, i requires 0 <= i < |families| => TokensOf(families[i]))
  }

  function EachFamily(families: seq<Id>): (statements: seq<Statement>)
    ensures |statements| == |families| && forall i ::
              0 <= i < |families| ==> statements[i] == One(FamilyLock(families[i]))
  {
    seq(|families|, i requires 0 <= i < |families| => One(FamilyLock(families[i])))
  }

  /** The blocking statements of each kind, in source order. */
  function Program(kind: Kind): seq<Statement> {
    match kind
    case Rotation(key, f, a, d, p) =>
      [One(RecordLock(key)), TokensOf(f), One(FamilyLock(f)), One(AuthorizationLock(a)), One(DeviceLock(d)),
       One(AccountLock(p))]
    case Authorization(f, a, d, p) =>
      [TokensOf(f), One(FamilyLock(f)), One(AuthorizationLock(a)), One(DeviceLock(d)), One(AccountLock(p))]
    case Revocation(key, families, a, d, p) =>
      [One(RecordLock(key))] + EachTokens(families) + EachFamily(families) +
      [One(AuthorizationLock(a)), One(DeviceLock(d)), One(CredentialLock(p)), SessionsOf(p), One(AccountLock(p))]
  }

  /** stableDeviceFamilySet admits only ascending family identifiers before anything is locked. */
  ghost predicate KindValid(kind: Kind) { kind.Revocation? ==> AscendingKeys(kind.families) }

  /** What a statement may lock: fixed for a single row, whatever rows its snapshot holds otherwise. */
  predicate MayLock(s: Statement, r: Resource) {
    match s
    case One(x) => r == x
    case TokensOf(f) => r.TokenLock? && r.family == f
    case SessionsOf(_) => r.SessionLock?
  }

  /** Everything the first statement may lock ranks below everything the second may. */
  predicate Precedes(s: Statement, t: Statement) {
    var x, y := Span(s), Span(t);
    x.level < y.level || (x.level == y.level && !s.SessionsOf? && !t.SessionsOf? && x.major < y.major)
  }

  function Span(s: Statement): Rank {
    match s
    case One(r) => RankOf(r)
    case TokensOf(f) => Rank(1, f, 0)
    case SessionsOf(_) => Rank(6, 0, 0)
  }

  lemma PrecedesSeparates(s: Statement, t: Statement, x: Resource, y: Resource)
    requires Precedes(s, t) && MayLock(s, x) && MayLock(t, y)
    ensures Below(RankOf(x), RankOf(y))
  {
  }

  ghost predicate Straight(program: seq<Statement>) {
    forall i, j {:trigger program[i], program[j]} :: 0 <= i < j < |program| ==> Precedes(program[i], program[j])
  }

  lemma StraightJoins(s: seq<Statement>, t: seq<Statement>)
    requires Straight(s) && Straight(t)
    requires forall i, j {:trigger s[i], t[j]} :: 0 <= i < |s| && 0 <= j < |t| ==> Precedes(s[i], t[j])
    ensures Straight(s + t)
  {
  }

  lemma RevocationIsStraight(key: RecordKey, families: seq<Id>, a: Id, d: Id, p: Id)
    requires AscendingKeys(families)
    ensures Straight(Program(Kind.Revocation(key, families, a, d, p)))
  {
    var opening := [One(RecordLock(key))] + EachTokens(families);
    var closing := [One(AuthorizationLock(a)), One(DeviceLock(d)), One(CredentialLock(p)), SessionsOf(p),
                    One(AccountLock(p))];
    StraightJoins([One(RecordLock(key))], EachTokens(families));
    StraightJoins(opening, EachFamily(families));
    StraightJoins(opening + EachFamily(families), closing);
  }

  lemma ProgramsAreStraight(kind: Kind)
    requires KindValid(kind)
    ensures Straight(Program(kind))
  {
    match kind
    case Revocation(key, families, a, d, p) => RevocationIsStraight(key, families, a, d, p);
    case _ =>
  }

  // ----- what a transaction writes once it has checked what it locked -----

  predicate HasFamily(kind: Kind, f: Id) {
    match kind
    case Rotation(_, g, _, _, _) => f == g
    case Authorization(_, _, _, _) => false
    case Revocation(_, families, _, _, _) => f in families
  }

  predicate TokenRow(db: DB, r: Resource) {
    r.TokenLock? && r.hash in db.refresh && db.refresh[r.hash].family == r.family
  }

  predicate BoundTo(db: DB, s: Id, a: Id) { s in db.sessions && db.sessions[s].authorization == Some(a) }

  /** The rows updated by the writes of each kind, found by the conditions of the update statements in the database of
      that moment. */
  predicate Writes(db: DB, kind: Kind, r: Resource) {
    match kind
    case Rotation(key, f, _, _, _) => r == RecordLock(key) || r == FamilyLock(f) || (TokenRow(db, r) && r.family == f)
    case Authorization(_, _, _, _) => false
    case Revocation(key, families, a, d, _) =>
      || r == RecordLock(key) || r == AuthorizationLock(a) || r == DeviceLock(d) || (r.FamilyLock? && r.f in families)
      || (TokenRow(db, r) && r.family in families) || (r.SessionLock? && BoundTo(db, r.sid, a))
  }

  lemma WrittenRowsAreLocked(db: DB, kind: Kind, r: Resource)
    requires Writes(db, kind, r) && !r.TokenLock? && !r.SessionLock?
    ensures One(r) in Program(kind)
  {
    var program := Program(kind);
    match kind
    case Rotation(key, f, _, _, _) => assert program[0] == One(RecordLock(key)) && program[2] == One(FamilyLock(f));
    case Revocation(key, families, a, d, _) =>
      var n := |families|;
      assert program[0] == One(RecordLock(key)) && program[2 * n + 1] == One(AuthorizationLock(a)) &&
             program[2 * n + 2] == One(DeviceLock(d));
      if r.FamilyLock? && r.f in families {
        var i :| 0 <= i < n && families[i] == r.f;
        assert program[n + 1 + i] == EachFamily(families)[i];
      }
    case _ =>
  }

  // ----- the system -----

  /** A transaction in progress: statements to come, resources its current statement still has to lock, locks held,
      and whether it has checked what it locked and goes on to write. */
  datatype Task = Task(kind: Kind, program: seq<Statement>, queue: seq<Resource>, held: set<Resource>, writing: bool)

  datatype System = System(db: DB, mode: Mode, tasks: map<Id, Task>)

  function AsWaiter(t: Task): Waiter { Waiter(t.held, if t.queue == [] then None else Some(t.queue[0])) }

  function AsWaiters(tasks: map<Id, Task>): map<Id, Waiter> { map q | q in tasks :: AsWaiter(tasks[q]) }

  datatype Turn =
    | Open(id: Id, kind: Kind)
    | Expand(id: Id, rows: seq<Resource>)
    | Acquire(id: Id)
    | Check(id: Id)
    | Write(id: Id, rows: seq<Resource>)
    | End(id: Id, effect: Effect, db': DB)
    | Elsewhere(effect: Effect, db': DB)

  ghost predicate Climbing(rows: seq<Resource>) {
    forall i, j {:trigger rows[i], rows[j]} :: 0 <= i < j < |rows| ==> Below(RankOf(rows[i]), RankOf(rows[j]))
  }

  /** The rows a locking statement finds, in the order it locks them.  A missing single row ends the transaction. */
  ghost predicate Finds(db: DB, s: Statement, rows: seq<Resource>) {
    && Climbing(rows) && (forall i {:trigger rows[i]} :: 0 <= i < |rows| ==> MayLock(s, rows[i]))
    && (s.One? ==> rows == [s.r])
    && (s.SessionsOf? ==> forall x {:trigger db.sessions[x]} ::
          x in db.sessions && db.sessions[x].principal == s.p ==> SessionLock(x) in rows)
  }

  /** The second listing shows no refresh token that is not locked, and the authorization belongs to the caller. */
  ghost predicate Checked(db: DB, t: Task) {
    && t.program == [] && t.queue == []
    && (forall h {:trigger db.refresh[h]} ::
          h in db.refresh && HasFamily(t.kind, db.refresh[h].family) ==> TokenLock(db.refresh[h].family, h) in t.held)
    && (t.kind.Revocation? ==> t.kind.a in db.authorizations && db.authorizations[t.kind.a].principal == t.kind.p)
  }

  ghost predicate Clear(tasks: map<Id, Task>, locks: set<Resource>) {
    forall q {:trigger tasks[q]} :: q in tasks ==> tasks[q].held !! locks
  }

  ghost predicate Enabled(s: System, turn: Turn) {
    match turn
    case Open(id, kind) => id !in s.tasks && KindValid(kind) && (kind.Revocation? ==> kind.a in s.db.authorizations)
    case Expand(id, rows) =>
      id in s.tasks && s.tasks[id].queue == [] && s.tasks[id].program != [] && Finds(s.db, s.tasks[id].program[0], rows)
    case Acquire(id) => id in s.tasks && s.tasks[id].queue != [] && Clear(s.tasks, {s.tasks[id].queue[0]})
    case Check(id) => id in s.tasks && Checked(s.db, s.tasks[id])
    case Write(id, rows) =>
      && id in s.tasks && s.tasks[id].writing && s.tasks[id].queue == []
      && forall i {:trigger rows[i]} ::
           0 <= i < |rows| ==> Writes(s.db, s.tasks[id].kind, rows[i]) && rows[i] !in s.tasks[id].held
    case End(id, effect, db') =>
      id in s.tasks && Makes(s.db, s.mode, effect, db') && Clear(s.tasks - {id}, Touches(s.db, effect))
    case Elsewhere(effect, db') => Makes(s.db, s.mode, effect, db') && Clear(s.tasks, Touches(s.db, effect))
  }

  function With(s: System, id: Id, t: Task): System { s.(tasks := s.tasks[id := t]) }

  ghost function Play(s: System, turn: Turn): System
    requires Enabled(s, turn)
  {
    match turn
    case Open(id, kind) => With(s, id, Task(kind, Program(kind), [], {}, false))
    case Expand(id, rows) => With(s, id, s.tasks[id].(program := s.tasks[id].program[1..], queue := rows))
    case Acquire(id) => With(s, id,
                             s.tasks[id].(queue := s.tasks[id].queue[1..],
                                          held := s.tasks[id].held + {s.tasks[id].queue[0]}))
    case Check(id) => With(s, id, s.tasks[id].(writing := true))
    case Write(id, rows) => With(s, id, s.tasks[id].(queue := rows))
    case End(id, effect, db') => s.(db := db', tasks := s.tasks - {id})
    case Elsewhere(effect, db') => s.(db := db')
  }

  // ----- locks held rank below locks still to take -----

  ghost predicate TaskInOrder(t: Task) {
    && Straight(t.program) && Climbing(t.queue)
    && (forall r, i {:trigger r in t.held, t.queue[i]} ::
          r in t.held && 0 <= i < |t.queue| ==> Below(RankOf(r), RankOf(t.queue[i])))
    && (forall r, i, y {:trigger r in t.held, MayLock(t.program[i], y)} ::
          r in t.held && 0 <= i < |t.program| && MayLock(t.program[i], y) ==> Below(RankOf(r), RankOf(y)))
    && (forall k, i, y {:trigger t.queue[k], MayLock(t.program[i], y)} ::
          0 <= k < |t.queue| && 0 <= i < |t.program| && MayLock(t.program[i], y) ==>
            Below(RankOf(t.queue[k]), RankOf(y)))
  }

  lemma ExpandInOrder(t: Task, rows: seq<Resource>)
    requires TaskInOrder(t) && t.queue == [] && t.program != [] && Climbing(rows)
    requires forall i {:trigger rows[i]} :: 0 <= i < |rows| ==> MayLock(t.program[0], rows[i])
    ensures TaskInOrder(t.(program := t.program[1..], queue := rows))
  {
    var t' := t.(program := t.program[1..], queue := rows);
    assert forall i :: 0 <= i < |t'.program| ==> t'.program[i] == t.program[i + 1];
    forall k, i, y | 0 <= k < |rows| && 0 <= i < |t'.program| && MayLock(t'.program[i], y)
      ensures Below(RankOf(rows[k]), RankOf(y)) {
      PrecedesSeparates(t.program[0], t.program[i + 1], rows[k], y);
    }
  }

  lemma AcquireInOrder(t: Task)
    requires TaskInOrder(t) && t.queue != []
    ensures TaskInOrder(t.(queue := t.queue[1..], held := t.held + {t.queue[0]}))
  {
    var t' := t.(queue := t.queue[1..], held := t.held + {t.queue[0]});
    assert forall i :: 0 <= i < |t'.queue| ==> t'.queue[i] == t.queue[i + 1];
  }

  // ----- a transaction that writes holds every row it writes -----

  predicate Taken(t: Task, r: Resource) { r in t.held || r in t.queue }

  /** Every row of the program is taken, or its statement is still to come. */
  ghost predicate RowsTaken(t: Task) {
    forall r {:trigger One(r)} :: One(r) in Program(t.kind) ==> One(r) in t.program || Taken(t, r)
  }

  /** The session bound to the caller's authorization is among the caller's sessions. */
  ghost predicate SessionsTaken(db: DB, t: Task) {
    t.kind.Revocation? ==>
      && t.kind.a in db.authorizations
      && (db.authorizations[t.kind.a].principal == t.kind.p ==>
            SessionsOf(t.kind.p) in t.program || forall x {:trigger BoundTo(db, x, t.kind.a)} ::
              BoundTo(db, x, t.kind.a) ==> Taken(t, SessionLock(x)))
  }

  ghost predicate Sound(db: DB, t: Task) {
    TaskInOrder(t) && RowsTaken(t) && SessionsTaken(db, t) && (t.writing ==> Checked(db, t))
  }

  lemma OpenSound(db: DB, kind: Kind)
    requires KindValid(kind) && (kind.Revocation? ==> kind.a in db.authorizations)
    ensures Sound(db, Task(kind, Program(kind), [], {}, false))
  {
    ProgramsAreStraight(kind);
    if kind.Revocation? { assert Program(kind)[2 * |kind.families| + 4] == SessionsOf(kind.p); }
  }

  lemma ExpandSound(db: DB, t: Task, rows: seq<Resource>, t': Task)
    requires GraphInv(db) && Sound(db, t) && t.queue == [] && t.program != [] && Finds(db, t.program[0], rows)
    requires t' == t.(program := t.program[1..], queue := rows)
    ensures Sound(db, t')
  {
    ExpandInOrder(t, rows);
    assert t.program == [t.program[0]] + t.program[1..];
    forall r | One(r) in Program(t.kind) && One(r) !in t'.program ensures Taken(t', r) {
      if One(r) in t.program { assert rows == [r]; } else { assert Taken(t, r); }
    }
    if t.kind.Revocation? && db.authorizations[t.kind.a].principal == t.kind.p && SessionsOf(t.kind.p) !in t'.program {
      forall x | BoundTo(db, x, t.kind.a) ensures Taken(t', SessionLock(x)) {
        if SessionsOf(t.kind.p) in t.program {
          assert db.sessions[x].principal == t.kind.p;
          } else { assert Taken(t, SessionLock(x));
        }
      }
    }
  }

  lemma AcquireSound(db: DB, t: Task, t': Task)
    requires Sound(db, t) && t.queue != []
    requires t' == t.(queue := t.queue[1..], held := t.held + {t.queue[0]})
    ensures Sound(db, t')
  {
    AcquireInOrder(t);
    assert t.queue == [t.queue[0]] + t.queue[1..];
    forall r | Taken(t, r) ensures Taken(t', r) {}
  }

  /** A writing transaction holds whatever its update statements find. */
  lemma WritesAreHeld(db: DB, t: Task, r: Resource)
    requires Sound(db, t) && t.writing && Writes(db, t.kind, r)
    ensures r in t.held
  {
    if r.TokenLock? {
      assert HasFamily(t.kind, db.refresh[r.hash].family);
    } else if r.SessionLock? {
      assert Taken(t, SessionLock(r.sid));
    } else {
      WrittenRowsAreLocked(db, t.kind, r);
      assert Taken(t, r);
    }
  }

  // ----- commits of others -----

  ghost predicate BindingsKept(db: DB, db': DB) {
    && (forall a {:trigger db'.authorizations[a]} {:trigger db.authorizations[a]} ::
          a in db.authorizations ==>
            a in db'.authorizations && db'.authorizations[a].principal == db.authorizations[a].principal)
    && (forall x, a {:trigger BoundTo(db, x, a)} :: BoundTo(db, x, a) ==> BoundTo(db', x, a))
  }

  lemma EffectKeepsBindings(db: DB, mode: Mode, effect: Effect, db': DB)
    requires Makes(db, mode, effect, db')
    ensures BindingsKept(db, db')
  {
  }

  lemma SessionsStayTaken(db: DB, db': DB, t: Task)
    requires GraphInv(db) && GraphInv(db') && BindingsKept(db, db') && SessionsTaken(db, t)
    ensures SessionsTaken(db', t)
  {
    if t.kind.Revocation? && db.authorizations[t.kind.a].principal == t.kind.p && SessionsOf(t.kind.p) !in t.program {
      forall x | BoundTo(db', x, t.kind.a) ensures Taken(t, SessionLock(x)) {
        assert HasSession(db.sessions, t.kind.a);
        var y :| y in db.sessions && db.sessions[y].authorization == Some(t.kind.a);
        assert BoundTo(db, y, t.kind.a) && BoundTo(db', y, t.kind.a);
      }
    }
  }

  /** The locked families receive no refresh token from anyone else. */
  lemma StaysChecked(db: DB, db': DB, t: Task)
    requires Sound(db, t) && t.writing && BindingsKept(db, db') && Undisturbed(db, db', t.held)
    ensures Checked(db', t)
  {
    forall h | h in db'.refresh && HasFamily(t.kind, db'.refresh[h].family)
      ensures TokenLock(db'.refresh[h].family, h) in t.held {
      var f := db'.refresh[h].family;
      WritesAreHeld(db, t, FamilyLock(f));
      assert AgreeOn(db.refresh, db'.refresh, {f});
    }
  }

  lemma EffectKeepsTask(db: DB, mode: Mode, effect: Effect, db': DB, t: Task)
    requires GraphInv(db) && Makes(db, mode, effect, db') && t.held !! Touches(db, effect) && Sound(db, t)
    ensures Sound(db', t)
  {
    assert GraphInv(db') by { EffectKeeps(db, mode, effect, db'); }
    assert BindingsKept(db, db') by { EffectKeepsBindings(db, mode, effect, db'); }
    SessionsStayTaken(db, db', t);
    if t.writing {
      assert Undisturbed(db, db', t.held) by { Footprint(db, mode, effect, db', t.held); }
      StaysChecked(db, db', t);
    }
  }

  // ----- schedules -----

  ghost predicate Steady(s: System) {
    GraphInv(s.db) && forall q {:trigger s.tasks[q]} :: q in s.tasks ==> Sound(s.db, s.tasks[q])
  }

  lemma CommitKeeps(s: System, effect: Effect, db': DB, tasks: map<Id, Task>)
    requires Steady(s) && Makes(s.db, s.mode, effect, db') && Clear(tasks, Touches(s.db, effect))
    requires forall q {:trigger tasks[q]} :: q in tasks ==> q in s.tasks && tasks[q] == s.tasks[q]
    ensures Steady(s.(db := db', tasks := tasks))
  {
    EffectKeeps(s.db, s.mode, effect, db');
    forall q | q in tasks ensures Sound(db', tasks[q]) { EffectKeepsTask(s.db, s.mode, effect, db', tasks[q]); }
  }

  /** The update statements of a writing transaction wait for nothing. */
  lemma UpdatesWaitForNothing(s: System, id: Id, rows: seq<Resource>)
    requires Steady(s) && Enabled(s, Write(id, rows))
    ensures rows == []
  {
    if rows != [] { WritesAreHeld(s.db, s.tasks[id], rows[0]); }
  }

  lemma OneTaskKeeps(s: System, turn: Turn, s': System)
    requires Steady(s) && Enabled(s, turn) && !turn.End? && !turn.Elsewhere? && s' == Play(s, turn)
    ensures Steady(s')
  {
    match turn
    case Open(id, kind) => OpenSound(s.db, kind);
    case Expand(id, rows) => ExpandSound(s.db, s.tasks[id], rows, s'.tasks[id]);
    case Acquire(id) => AcquireSound(s.db, s.tasks[id], s'.tasks[id]);
    case Check(id) => assert s'.tasks[id] == s.tasks[id].(writing := true);
    case Write(id, rows) => UpdatesWaitForNothing(s, id, rows);
  }

  lemma TurnKeeps(s: System, turn: Turn, s': System)
    requires Steady(s) && Enabled(s, turn) && s' == Play(s, turn)
    ensures Steady(s')
  {
    match turn
    case End(id, effect, db') => CommitKeeps(s, effect, db', s.tasks - {id});
    case Elsewhere(effect, db') => CommitKeeps(s, effect, db', s.tasks);
    case _ => OneTaskKeeps(s, turn, s');
  }

  /** Any interleaving, from any database whose links hold. */
  ghost predicate Schedule(states: seq<System>, turns: seq<Turn>) {
    && |states| == |turns| + 1 && states[0].tasks == map[] && GraphInv(states[0].db)
    && forall i {:trigger turns[i]} ::
         0 <= i < |turns| ==> Enabled(states[i], turns[i]) && states[i + 1] == Play(states[i], turns[i])
  }

  lemma {:induction false} ScheduleIsSteady(states: seq<System>, turns: seq<Turn>, n: nat)
    requires Schedule(states, turns) && n < |states|
    ensures Steady(states[n])
  {
    if n > 0 {
      ScheduleIsSteady(states, turns, n - 1);
      assert Enabled(states[n - 1], turns[n - 1]);
      TurnKeeps(states[n - 1], turns[n - 1], states[n]);
    }
  }

  lemma TasksInOrder(states: seq<System>, turns: seq<Turn>, n: nat)
    requires Schedule(states, turns) && n < |states|
    ensures forall q {:trigger AsWaiters(states[n].tasks)[q]} ::
              q in AsWaiters(states[n].tasks) ==> InOrder(AsWaiters(states[n].tasks)[q])
  {
    ScheduleIsSteady(states, turns, n);
    var waiters := AsWaiters(states[n].tasks);
    forall q | q in waiters ensures InOrder(waiters[q]) { assert TaskInOrder(states[n].tasks[q]); }
  }

  /** In every schedule of any number of rotations, bundle authorizations and revocations, no transactions ever wait
      for each other in a circle, and what a transaction updates it already holds. */
  lemma NoDeadlock(states: seq<System>, turns: seq<Turn>, n: nat, c: seq<Id>)
    requires Schedule(states, turns) && n < |states|
    ensures !Cycle(AsWaiters(states[n].tasks), c)
    ensures n < |turns| && turns[n].Write? ==> turns[n].rows == []
  {
    TasksInOrder(states, turns, n);
    NoCycle(AsWaiters(states[n].tasks), c);
    if n < |turns| && turns[n].Write? {
      ScheduleIsSteady(states, turns, n);
      UpdatesWaitForNothing(states[n], turns[n].id, turns[n].rows);
    }
  }

  // ----- the statement-by-statement rotations keep the same order -----

  function RunWaiters(runs: map<Id, Run>): map<Id, Waiter> {
    map q | q in runs :: Waiter(Held(runs[q]), Wants(runs[q]))
  }

  lemma RunInOrder(db: DB, run: Run)
    requires RunInv(db, run)
    ensures InOrder(Waiter(Held(run), Wants(run)))
  {
    if run.pc.LockingRows? && run.todo != [] {
      forall i | 0 <= i < |run.rows| ensures run.rows[i].hash < run.todo[0].hash {
        assert (run.rows + run.todo)[i] == run.rows[i] && (run.rows + run.todo)[|run.rows|] == run.todo[0];
      }
    }
  }

  lemma RunsInOrder(states: seq<Machine>, moves: seq<Move>, n: nat)
    requires Trace(states, moves) && n < |states|
    ensures forall q {:trigger RunWaiters(states[n].runs)[q]} ::
              q in RunWaiters(states[n].runs) ==> InOrder(RunWaiters(states[n].runs)[q])
  {
    TraceIsSound(states, moves, n);
    var waiters := RunWaiters(states[n].runs);
    forall q | q in waiters ensures InOrder(waiters[q]) { RunInOrder(states[n].db, states[n].runs[q]); }
  }

  /** Rotations at any point of a statement-by-statement history, among themselves and together with the transactions
      of any schedule. */
  lemma RotationsNeverDeadlock(states: seq<Machine>, moves: seq<Move>, n: nat, systems: seq<System>, turns: seq<Turn>,
                               m: nat, c: seq<Id>)
    requires Trace(states, moves) && n < |states| && Schedule(systems, turns) && m < |systems|
    requires states[n].runs.Keys !! systems[m].tasks.Keys
    ensures !Cycle(RunWaiters(states[n].runs) + AsWaiters(systems[m].tasks), c)
  {
    RunsInOrder(states, moves, n);
    TasksInOrder(systems, turns, m);
    var waiters := RunWaiters(states[n].runs) + AsWaiters(systems[m].tasks);
    forall q | q in waiters ensures InOrder(waiters[q]) {
      if q in systems[m].tasks {
        assert waiters[q] == AsWaiters(systems[m].tasks)[q];
      } else {
        assert waiters[q] == RunWaiters(states[n].runs)[q];
      }
    }
    NoCycle(waiters, c);
  }
}
