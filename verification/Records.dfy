/** Idempotency records of device operations, and what they say about the tokens they hold. */
module Records {
  import opened Schema
  import opened DeviceTx
  import opened Chains
  import opened History
  import opened Protocol

  /** The record of a rotation that spent token `h`. */
  predicate Rotates(r: Record, h: Hash) {
    r.request.RotateRequest? && r.request.refresh == h && r.response.Some? && r.response.value.body.TokenBody?
  }

  /** A committed record is complete, and its response passes the replay decoder of its operation. */
  predicate WellFormed(key: RecordKey, r: Record) {
    && r.state.Completed? && r.response.Some?
    && match key.scope
       case RotateScope(_) =>
         && r.request.RotateRequest? && r.expiresAt == r.createdAt + ROTATION_RETENTION
         && (r.response.value == Response(401, NotAuthenticated) || TokensFromReplay(r.response.value, 200).Some?)
       case RegisterScope => r.request.RegisterRequest? && TokensFromReplay(r.response.value, 201).Some?
       case RevokeScope(_) => r.request.RevokeRequest? && r.response.value == Response(204, EmptyBody)
  }

  /** The tokens of a rotation record are the successor of the token it spent, in the same family. */
  predicate Linked(r: Record, families: map<Id, Family>, refresh: map<Hash, Refresh>) {
    r.request.RotateRequest? && r.response.Some? && r.response.value.body.TokenBody? ==>
      var t := r.response.value.body.tokens;
      && t.refresh in refresh && refresh[t.refresh].previous == Some(r.request.refresh) &&
         refresh[t.refresh].family == t.family
      && t.family in families && families[t.family].createdAt <= r.createdAt
      && t.absoluteExpires == families[t.family].absoluteExpires
  }

  ghost predicate RecordInv(records: map<RecordKey, Record>, families: map<Id, Family>, refresh: map<Hash, Refresh>) {
    && (forall k {:trigger WellFormed(k, records[k])} {:trigger records[k]} ::
          k in records ==> WellFormed(k, records[k]))
    && (forall k {:trigger Linked(records[k], families, refresh)} ::
          k in records ==> Linked(records[k], families, refresh))
    && (forall h, j, k {:trigger Rotates(records[j], h), Rotates(records[k], h)} ::
          j in records && k in records && Rotates(records[j], h) && Rotates(records[k], h) ==> j == k)
  }

  ghost predicate SpentOnRecord(records: map<RecordKey, Record>, h: Hash) {
    exists k {:trigger Rotates(records[k], h)} :: k in records && Rotates(records[k], h)
  }

  /** Every spent token has the record of the rotation that spent it, until its family has expired and the record is
      pruned. */
  ghost predicate SpentInv(records: map<RecordKey, Record>, families: map<Id, Family>, refresh: map<Hash, Refresh>,
                           pruned: Time) {
    forall h {:trigger SpentOnRecord(records, h)} :: h in refresh && refresh[h].state.Used? ==>
      SpentOnRecord(records, h) ||
      (refresh[h].family in families && families[refresh[h].family].absoluteExpires <= pruned)
  }

  lemma LinkedFrame(r: Record, families: map<Id, Family>, refresh: map<Hash, Refresh>, families': map<Id, Family>,
                    refresh': map<Hash, Refresh>)
    requires Linked(r, families, refresh) && FamiliesGrow(families, families') && TokensGrow(refresh, refresh')
    ensures Linked(r, families', refresh')
  {
  }

  /** A record whose request spent `h` is evidence that `h` is used. */
  lemma RotatesMeansUsed(records: map<RecordKey, Record>, families: map<Id, Family>, refresh: map<Hash, Refresh>,
                         events: seq<Event>, k: RecordKey, h: Hash)
    requires RecordInv(records, families, refresh) && ChainInv(families, refresh, events)
    requires k in records && Rotates(records[k], h)
    ensures h in refresh && refresh[h].state.Used?
    ensures var t := records[k].response.value.body.tokens;
            t.refresh in refresh && refresh[t.refresh].previous == Some(h) && refresh[h].family == t.family
  {
    assert Linked(records[k], families, refresh);
    PredecessorUsed(families, refresh, events, h, records[k].response.value.body.tokens.refresh);
  }

  /** Adding a well-formed record, while the tables only grow, keeps the record invariant. */
  lemma RecordAdded(records: map<RecordKey, Record>, families: map<Id, Family>, refresh: map<Hash, Refresh>,
                    families': map<Id, Family>, refresh': map<Hash, Refresh>, key: RecordKey, r: Record)
    requires RecordInv(records, families, refresh) && FamiliesGrow(families, families') && TokensGrow(refresh, refresh')
    requires WellFormed(key, r) && Linked(r, families', refresh')
    requires forall h, k {:trigger Rotates(r, h), Rotates(records[k], h)} ::
               k in records && Rotates(records[k], h) ==> !Rotates(r, h)
    ensures RecordInv(records[key := r], families', refresh')
  {
    var records' := records[key := r];
    forall k | k in records' ensures Linked(records'[k], families', refresh') {
      if k != key { LinkedFrame(records[k], families, refresh, families', refresh'); }
    }
    forall k | k in records' ensures WellFormed(k, records'[k]) {
      if k != key { assert WellFormed(k, records[k]); }
    }
    forall h, j, k | j in records' && k in records' && Rotates(records'[j], h) && Rotates(records'[k], h)
      ensures j == k {
      if j != key && k != key {
        assert Rotates(records[j], h) && Rotates(records[k], h);
      }
    }
  }

  lemma RecordsPruned(records: map<RecordKey, Record>, families: map<Id, Family>, refresh: map<Hash, Refresh>,
                      cutoff: Time)
    requires RecordInv(records, families, refresh)
    ensures RecordInv(PruneRecords(records, cutoff), families, refresh)
  {
    var records' := PruneRecords(records, cutoff);
    forall k | k in records' ensures Linked(records'[k], families, refresh) {
      assert Linked(records[k], families, refresh);
    }
    forall h, j, k | j in records' && k in records' && Rotates(records'[j], h) && Rotates(records'[k], h)
      ensures j == k {
      assert Rotates(records[j], h) && Rotates(records[k], h);
    }
  }

  /** Every token spent in the new tables was spent in the old ones, except possibly `spent`, which the new record
      accounts for. */
  lemma SpentAdded(records: map<RecordKey, Record>, families: map<Id, Family>, refresh: map<Hash, Refresh>,
                   pruned: Time,
                   families': map<Id, Family>, refresh': map<Hash, Refresh>, key: RecordKey, r: Record)
    requires SpentInv(records, families, refresh, pruned) && key !in records && FamiliesGrow(families, families') &&
             TokensGrow(refresh, refresh')
    requires forall h ::
               h in refresh' && refresh'[h].state.Used? ==> (h in refresh && refresh[h].state.Used?) || Rotates(r, h)
    ensures SpentInv(records[key := r], families', refresh', pruned)
  {
    var records' := records[key := r];
    forall h | h in refresh' && refresh'[h].state.Used?
      ensures SpentOnRecord(records', h) ||
              (refresh'[h].family in families' && families'[refresh'[h].family].absoluteExpires <= pruned)
    {
      if Rotates(r, h) {
        assert Rotates(records'[key], h);
      } else if SpentOnRecord(records, h) {
        var k :| k in records && Rotates(records[k], h);
        assert Rotates(records'[k], h);
      }
    }
  }

  /** Pruning forgets a spent token only after its whole family has expired: retention is never shorter than a
      family's life. */
  lemma SpentPruned(records: map<RecordKey, Record>, families: map<Id, Family>, refresh: map<Hash, Refresh>,
                    events: seq<Event>, pruned: Time, cutoff: Time)
    requires SpentInv(records, families, refresh, pruned) && RecordInv(records, families, refresh) &&
             ChainInv(families, refresh, events)
    requires forall f :: f in families ==> families[f].absoluteExpires == families[f].createdAt + DEVICE_ABSOLUTE_TTL
    requires forall k :: k in records && records[k].request.RotateRequest? ==> k.scope.RotateScope?
    ensures SpentInv(PruneRecords(records, cutoff), families, refresh, if pruned < cutoff then cutoff else pruned)
  {
    var records' := PruneRecords(records, cutoff);
    forall h | h in refresh && refresh[h].state.Used?
      ensures SpentOnRecord(records', h) ||
              (refresh[h].family in families &&
               families[refresh[h].family].absoluteExpires <= (if pruned < cutoff then cutoff else pruned))
    {
      if SpentOnRecord(records, h) {
        var k :| k in records && Rotates(records[k], h);
        RotatesMeansUsed(records, families, refresh, events, k, h);
        assert Linked(records[k], families, refresh) && WellFormed(k, records[k]);
        if k in records' { assert Rotates(records'[k], h); }
      }
    }
  }
}
