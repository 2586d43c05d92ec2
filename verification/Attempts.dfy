/** What every call of RotateDeviceToken in flight or finished knows. */
module Attempts {
  import opened Schema
  import opened DeviceTx
  import opened Chains
  import opened History
  import opened Records
  import opened Protocol
  import opened Effects
  import opened Safety

  // ----- clocks and freshness -----

  /** A call reads the clock after the token it presents was issued. */
  predicate Timely(a: Attempt, clock: Time, seen: set<Hash>, families: map<Id, Family>, refresh: map<Hash, Refresh>) {
    && a.now <= clock && a.command.refresh in seen
    && (a.command.refresh in refresh && refresh[a.command.refresh].family in families ==>
          families[refresh[a.command.refresh].family].createdAt <= a.now)
  }

  ghost predicate TimelyInv(s: State) {
    && (forall r {:trigger s.attempts[r]} ::
          r in s.attempts ==> Timely(s.attempts[r], s.clock, s.seen, s.db.families, s.db.refresh))
    && (forall h {:trigger s.db.refresh[h]} :: h in s.db.refresh ==> h in s.seen)
    && (forall f {:trigger s.db.families[f]} ::
          f in s.db.families ==> s.db.families[f].accessHash in s.seen && s.db.families[f].createdAt <= s.clock)
  }

  // ----- answers -----

  /** `t` is what spending `h` returned: its refresh token is the successor of `h`, and any record of that rotation
      holds `t`. */
  ghost predicate Answered(h: Hash, t: DeviceTokens, records: map<RecordKey, Record>, refresh: map<Hash, Refresh>) {
    && h in refresh && refresh[h].state.Used?
    && t.refresh in refresh && refresh[t.refresh].previous == Some(h)
    && (forall k {:trigger Rotates(records[k], h)} ::
          k in records && Rotates(records[k], h) ==> records[k].response.value.body.tokens == t)
  }

  predicate Succeeded(a: Attempt) { a.phase.Finished? && a.phase.reply.Tokens? }

  ghost predicate AnswerInv(attempts: map<Id, Attempt>, records: map<RecordKey, Record>, refresh: map<Hash, Refresh>) {
    && (forall r {:trigger attempts[r]} :: r in attempts && Succeeded(attempts[r]) ==>
          Answered(attempts[r].command.refresh, attempts[r].phase.reply.tokens, records, refresh))
    && (forall q, r {:trigger attempts[q], attempts[r]} :: 
          q in attempts && r in attempts && Succeeded(attempts[q]) && Succeeded(attempts[r]) &&
          attempts[q].command.refresh == attempts[r].command.refresh
          ==> attempts[q].phase.reply == attempts[r].phase.reply)
  }

  // ----- origins -----

  ghost predicate Originates(attempts: map<Id, Attempt>, k: RecordKey, request: Request) {
    exists r {:trigger attempts[r]} ::
      r in attempts && attempts[r].command.key == k.key && RequestOf(attempts[r].command) == request
  }

  /** Every rotation record was written by a call that is on the books. */
  ghost predicate OriginInv(attempts: map<Id, Attempt>, records: map<RecordKey, Record>) {
    forall k {:trigger records[k]} ::
      k in records && records[k].request.RotateRequest? ==> Originates(attempts, k, records[k].request)
  }

  // ----- challenges -----

  /** A challenge proves at most one call: a consumed identifier is gone for good and belongs to one call. */
  ghost predicate ProofInv(s: State) {
    && (forall id {:trigger id in s.challenges} :: id in s.challenges ==> id in s.issued)
    && (forall r {:trigger s.attempts[r]} :: r in s.attempts ==>
          && (s.attempts[r].phase.AtFinal? ==> s.attempts[r].proved)
          && (s.attempts[r].proved ==>
                s.attempts[r].command.challenge in s.issued && s.attempts[r].command.challenge !in s.challenges))
    && (forall q, r {:trigger s.attempts[q], s.attempts[r]} ::
          q in s.attempts && r in s.attempts && q != r && s.attempts[q].proved && s.attempts[r].proved ==>
          s.attempts[q].command.challenge != s.attempts[r].command.challenge)
  }

  /** The call's challenge was issued for its token, family and nonce and had not expired when the call started, and
      its signature is by the device's key over that challenge. */
  predicate Signed(a: Attempt, g: Authority, issued: map<Id, Challenge>) {
    && a.command.challenge in issued
    && var ch := issued[a.command.challenge];
       && a.now < ch.expiresAt && ch.token == a.command.refresh && ch.family == g.familyId &&
          ch.nonce == a.command.nonce
       && a.command.signature.key == g.device.signingKey
       && a.command.signature.transcript == RotationTranscript(ch.bytes, g.familyId, a.command.nonce)
  }

  /** Stored challenges are as issued, and every call that may still rotate is signed. */
  ghost predicate SignedInv(s: State) {
    && (forall id {:trigger s.challenges[id]} ::
          id in s.challenges ==> id in s.issued && s.issued[id] == s.challenges[id])
    && (forall r {:trigger s.attempts[r]} :: r in s.attempts && s.attempts[r].phase.AtFinal? ==>
          Signed(s.attempts[r], s.attempts[r].phase.authority, s.issued))
  }

  // ----- one transaction of one call -----

  /** A replayed answer is the one on record. */
  lemma ReplayAnswers(db: DB, pruned: Time, c: Command, now: Time, t: DeviceTokens)
    requires DeviceInv(db, pruned) && Discovered(db, c.refresh)
    requires var begun := Begin(db.records, RecordKeyOf(db, c), RequestOf(c), now);
             !begun.Started? && ReplayReply(begun) == Tokens(t)
    ensures Answered(c.refresh, t, db.records, db.refresh) && SpentOnRecord(db.records, c.refresh)
  {
    var key := RecordKeyOf(db, c);
    assert Rotates(db.records[key], c.refresh);
    RotatesMeansUsed(db.records, db.families, db.refresh, db.events, key, c.refresh);
  }

  lemma RotationAnswers(db: DB, pruned: Time, mode: Mode, c: Command, now: Time, seen: Authority, access: Hash,
                        refresh: Hash, t: DeviceTokens)
    requires DeviceInv(db, pruned) && FinalTx(db, mode, c, now, seen, access, refresh).reply == Tokens(t)
    ensures var db' := FinalTx(db, mode, c, now, seen, access, refresh).db;
            Answered(c.refresh, t, db'.records, db'.refresh)
    ensures SpentOnRecord(FinalTx(db, mode, c, now, seen, access, refresh).db.records, c.refresh)
  {
    var begun := Begin(db.records, RecordKeyOf(db, c), RequestOf(c), now);
    if begun.Started? {
      NoOtherRotation(db, pruned, c.refresh);
      assert Rotates(FinalTx(db, mode, c, now, seen, access, refresh).db.records[RecordKeyOf(db, c)], c.refresh);
    } else {
      ReplayAnswers(db, pruned, c, now, t);
    }
  }

  /** Answers stay true while tables grow and any new rotation record spends a token that was not yet used. */
  lemma AnsweredFrame(h: Hash, t: DeviceTokens, records: map<RecordKey, Record>, refresh: map<Hash, Refresh>,
                      records': map<RecordKey, Record>, refresh': map<Hash, Refresh>)
    requires Answered(h, t, records, refresh) && TokensGrow(refresh, refresh')
    requires forall k {:trigger Rotates(records'[k], h)} ::
               k in records' && Rotates(records'[k], h) ==> k in records && records'[k] == records[k]
    ensures Answered(h, t, records', refresh')
  {
  }

  /** One call finishing with the recorded answer agrees with every other call that spent the same token. */
  lemma AnswerAdded(attempts: map<Id, Attempt>, records: map<RecordKey, Record>, refresh: map<Hash, Refresh>, r: Id,
                    a: Attempt)
    requires AnswerInv(attempts, records, refresh)
    requires Succeeded(a) ==>
               Answered(a.command.refresh, a.phase.reply.tokens, records, refresh) &&
               SpentOnRecord(records, a.command.refresh)
    ensures AnswerInv(attempts[r := a], records, refresh)
  {
    if Succeeded(a) {
      var h := a.command.refresh;
      var k :| k in records && Rotates(records[k], h);
      forall q | q in attempts && Succeeded(attempts[q]) && attempts[q].command.refresh == h
        ensures attempts[q].phase.reply == a.phase.reply {
        assert Answered(h, attempts[q].phase.reply.tokens, records, refresh);
      }
    }
  }

  /** No effect writes a second rotation record for a token that is already used. */
  lemma NoSecondRecord(db: DB, mode: Mode, pruned: Time, effect: Effect, db': DB, h: Hash)
    requires DeviceInv(db, pruned) && Makes(db, mode, effect, db') && h in db.refresh && db.refresh[h].state.Used?
    ensures forall k {:trigger Rotates(db'.records[k], h)} ::
              k in db'.records && Rotates(db'.records[k], h) ==> k in db.records && db'.records[k] == db.records[k]
  {
    forall k | k in db'.records && Rotates(db'.records[k], h)
      ensures k in db.records && db'.records[k] == db.records[k] {
      NewRecord(db, mode, effect, db', k, h);
    }
  }

  lemma NewRecord(db: DB, mode: Mode, effect: Effect, db': DB, k: RecordKey, h: Hash)
    requires Makes(db, mode, effect, db') && k in db'.records && Rotates(db'.records[k], h)
    ensures (k in db.records && db'.records[k] == db.records[k]) || (h in db.refresh && db.refresh[h].state.Active?)
  {
  }

  lemma OldAnswersKeep(db: DB, mode: Mode, pruned: Time, effect: Effect, db': DB, attempts: map<Id, Attempt>)
    requires DeviceInv(db, pruned) && Makes(db, mode, effect, db') && TokensGrow(db.refresh, db'.refresh)
    requires AnswerInv(attempts, db.records, db.refresh)
    ensures AnswerInv(attempts, db'.records, db'.refresh)
  {
    forall r | r in attempts && Succeeded(attempts[r])
      ensures Answered(attempts[r].command.refresh, attempts[r].phase.reply.tokens, db'.records, db'.refresh)
    {
      NoSecondRecord(db, mode, pruned, effect, db', attempts[r].command.refresh);
      AnsweredFrame(attempts[r].command.refresh, attempts[r].phase.reply.tokens, db.records, db.refresh, db'.records,
                    db'.refresh);
    }
  }
}
