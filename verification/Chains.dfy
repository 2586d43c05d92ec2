/** Refresh tokens of one family form a single chain. */
module Chains {
  import opened Schema
  import opened DeviceTx

  /** How many times a family was reported compromised. */
  function Compromises(events: seq<Event>, f: Id): nat {
    if events == [] then 0
    else Compromises(events[..|events| - 1], f) +
         (if events[|events| - 1].FamilyCompromisedEvent? && events[|events| - 1].family == f then 1 else 0)
  }

  lemma CompromisesAppend(events: seq<Event>, e: Event, f: Id)
    ensures Compromises(events + [e], f) ==
            Compromises(events, f) + (if e.FamilyCompromisedEvent? && e.family == f then 1 else 0)
  {
    assert (events + [e])[..|events|] == events;
  }

  function Previous(c: seq<Hash>, i: nat): Option<Hash>
    requires i < |c|
  {
    if i == 0 then None else Some(c[i - 1])
  }

  /** All but the last token are used; the last is live exactly while the family is. */
  function StateAt(c: seq<Hash>, i: nat, live: bool): TokenState
    requires i < |c|
  {
    if i < |c| - 1 then Used else if live then Active else Revoked
  }

  /** `c` lists the refresh tokens of family `f` from root to newest. */
  ghost predicate IsChain(c: seq<Hash>, f: Id, live: bool, refresh: map<Hash, Refresh>) {
    && |c| > 0
    && (forall i, j :: 0 <= i < j < |c| ==> c[i] != c[j])
    && (forall i :: 0 <= i < |c| ==>
                      c[i] in refresh && refresh[c[i]].family == f && refresh[c[i]].state == StateAt(c, i, live))
    && (forall i {:trigger Previous(c, i)} :: 0 <= i < |c| ==> refresh[c[i]].previous == Previous(c, i))
    && (forall h :: h in refresh && refresh[h].family == f ==> h in c)
  }

  predicate VersionCounts(row: Family, length: nat, compromises: nat) {
    && row.version == length + compromises + (if row.state.FamilyRevoked? then 1 else 0)
    && compromises <= 1
    && (row.state.FamilyActive? ==> compromises == 0)
    && (row.state.FamilyCompromised? ==> compromises == 1)
  }

  ghost predicate FamilyChain(f: Id, row: Family, refresh: map<Hash, Refresh>, events: seq<Event>) {
    exists c :: IsChain(c, f, row.state.FamilyActive?, refresh) && VersionCounts(row, |c|, Compromises(events, f))
  }

  ghost predicate ChainInv(families: map<Id, Family>, refresh: map<Hash, Refresh>, events: seq<Event>) {
    && (forall f {:trigger FamilyChain(f, families[f], refresh, events)} ::
          f in families ==> FamilyChain(f, families[f], refresh, events))
    && (forall h :: h in refresh ==> refresh[h].family in families)
    && (forall f :: f !in families ==> Compromises(events, f) == 0)
  }

  /** A live token of a live family is the newest of its chain. */
  lemma ActiveIsNewest(c: seq<Hash>, f: Id, live: bool, refresh: map<Hash, Refresh>, h: Hash)
    requires IsChain(c, f, live, refresh) && h in refresh && refresh[h].family == f && refresh[h].state.Active?
    ensures h == c[|c| - 1] && live
  {
  }

  /** A token's predecessor belongs to the same family and is used. */
  lemma PredecessorUsed(families: map<Id, Family>, refresh: map<Hash, Refresh>, events: seq<Event>, h: Hash, x: Hash)
    requires ChainInv(families, refresh, events)
    requires x in refresh && refresh[x].previous == Some(h)
    ensures h in refresh && refresh[h].family == refresh[x].family && refresh[h].state.Used?
  {
    var f := refresh[x].family;
    assert FamilyChain(f, families[f], refresh, events);
    var c :| IsChain(c, f, families[f].state.FamilyActive?, refresh) &&
             VersionCounts(families[f], |c|, Compromises(events, f));
    var i :| 0 <= i < |c| && c[i] == x;
    assert refresh[c[i]].previous == Previous(c, i);
    assert c[i - 1] == h;
  }

  /** A token has at most one successor. */
  lemma UniqueSuccessor(families: map<Id, Family>, refresh: map<Hash, Refresh>, events: seq<Event>, h: Hash, x: Hash,
                        y: Hash)
    requires ChainInv(families, refresh, events)
    requires x in refresh && refresh[x].previous == Some(h)
    requires y in refresh && refresh[y].previous == Some(h)
    ensures x == y
  {
    PredecessorUsed(families, refresh, events, h, x);
    PredecessorUsed(families, refresh, events, h, y);
    var f := refresh[h].family;
    assert FamilyChain(f, families[f], refresh, events);
    var c :| IsChain(c, f, families[f].state.FamilyActive?, refresh) &&
             VersionCounts(families[f], |c|, Compromises(events, f));
    var i :| 0 <= i < |c| && c[i] == x;
    var j :| 0 <= j < |c| && c[j] == y;
    assert refresh[c[i]].previous == Previous(c, i) && refresh[c[j]].previous == Previous(c, j);
    assert c[i - 1] == c[j - 1];
  }

  /** A chain is untouched by changes that keep every row of its family. */
  lemma ChainFrame(f: Id, row: Family, refresh: map<Hash, Refresh>, refresh': map<Hash, Refresh>, events: seq<Event>,
                   events': seq<Event>)
    requires FamilyChain(f, row, refresh, events)
    requires forall h :: h in refresh && refresh[h].family == f ==> h in refresh' && refresh'[h] == refresh[h]
    requires forall h :: h in refresh' && refresh'[h].family == f ==> h in refresh
    requires forall h :: h in refresh' && h in refresh ==> refresh'[h].family == refresh[h].family
    requires Compromises(events', f) == Compromises(events, f)
    ensures FamilyChain(f, row, refresh', events')
  {
    var c :| IsChain(c, f, row.state.FamilyActive?, refresh) && VersionCounts(row, |c|, Compromises(events, f));
    assert IsChain(c, f, row.state.FamilyActive?, refresh');
  }

  /** Using the newest token and inserting its successor extends the chain by one. */
  lemma ChainExtends(f: Id, row: Family, row': Family, refresh: map<Hash, Refresh>, events: seq<Event>, spent: Hash,
                     next: Hash)
    requires FamilyChain(f, row, refresh, events) && row.state.FamilyActive?
    requires spent in refresh && refresh[spent].family == f && refresh[spent].state.Active? && next !in refresh
    requires row'.state.FamilyActive? && row'.version == row.version + 1
    ensures FamilyChain(f, row',
                        refresh[spent := refresh[spent].(state := Used)][next := Refresh(f, Some(spent), Active)],
                        events)
  {
    var c :| IsChain(c, f, true, refresh) && VersionCounts(row, |c|, Compromises(events, f));
    ActiveIsNewest(c, f, true, refresh, spent);
    var d := c + [next];
    var refresh' := refresh[spent := refresh[spent].(state := Used)][next := Refresh(f, Some(spent), Active)];
    assert forall i :: 0 <= i < |c| ==> c[i] != next;
    assert forall i :: 0 <= i < |c| ==> Previous(d, i) == Previous(c, i);
    assert forall i :: 0 <= i < |d| ==>
                         d[i] in refresh' && refresh'[d[i]].family == f && refresh'[d[i]].state == StateAt(d, i, true);
    assert forall h :: h in refresh' && refresh'[h].family == f ==> h in d;
    assert IsChain(d, f, true, refresh');
  }

  /** Retiring a family revokes exactly its newest token. */
  lemma ChainRetires(f: Id, row: Family, row': Family, refresh: map<Hash, Refresh>, refresh': map<Hash, Refresh>,
                     events: seq<Event>, events': seq<Event>)
    requires FamilyChain(f, row, refresh, events)
    requires refresh'.Keys == refresh.Keys
    requires forall h :: h in refresh ==> refresh'[h].family == refresh[h].family
    requires forall h :: h in refresh && refresh[h].family == f ==>
               refresh'[h] == (if refresh[h].state.Active? then refresh[h].(state := Revoked) else refresh[h])
    requires !row'.state.FamilyActive?
    requires forall n: nat ::
               VersionCounts(row, n, Compromises(events, f)) ==> VersionCounts(row', n, Compromises(events', f))
    ensures FamilyChain(f, row', refresh', events')
  {
    var c :| IsChain(c, f, row.state.FamilyActive?, refresh) && VersionCounts(row, |c|, Compromises(events, f));
    assert IsChain(c, f, false, refresh');
    assert VersionCounts(row', |c|, Compromises(events', f));
  }

  // ----- the four changes to the family and token tables -----

  lemma RotationExtends(families: map<Id, Family>, refresh: map<Hash, Refresh>, events: seq<Event>, f: Id, row: Family,
                        spent: Hash, next: Hash)
    requires ChainInv(families, refresh, events) && f in families && families[f].state.FamilyActive?
    requires spent in refresh && refresh[spent].family == f && refresh[spent].state.Active? && next !in refresh
    requires row.state.FamilyActive? && row.version == families[f].version + 1
    ensures ChainInv(families[f := row],
                     refresh[spent := refresh[spent].(state := Used)][next := Refresh(f, Some(spent), Active)], events)
  {
    var refresh' := refresh[spent := refresh[spent].(state := Used)][next := Refresh(f, Some(spent), Active)];
    forall k | k in families ensures FamilyChain(k, families[f := row][k], refresh', events) {
      if k == f {
        ChainExtends(f, families[f], row, refresh, events, spent, next);
      } else {
        ChainFrame(k, families[k], refresh, refresh', events, events);
      }
    }
  }

  lemma CompromiseRetires(families: map<Id, Family>, refresh: map<Hash, Refresh>, events: seq<Event>, f: Id,
                          row: Family, e: Event)
    requires ChainInv(families, refresh, events) && f in families && families[f].state.FamilyActive?
    requires row.state.FamilyCompromised? && row.version == families[f].version + 1
    requires e.FamilyCompromisedEvent? && e.family == f
    ensures ChainInv(families[f := row], RevokeActive(refresh, f), events + [e])
  {
    var refresh' := RevokeActive(refresh, f);
    forall k | k in families ensures FamilyChain(k, families[f := row][k], refresh', events + [e]) {
      CompromisesAppend(events, e, k);
      if k == f {
        ChainRetires(f, families[f], row, refresh, refresh', events, events + [e]);
      } else {
        ChainFrame(k, families[k], refresh, refresh', events, events + [e]);
      }
    }
  }

  lemma OtherEvent(families: map<Id, Family>, refresh: map<Hash, Refresh>, events: seq<Event>, e: Event)
    requires ChainInv(families, refresh, events) && e.AuthorizationChanged?
    ensures ChainInv(families, refresh, events + [e])
  {
    forall k | k in families ensures FamilyChain(k, families[k], refresh, events + [e]) {
      CompromisesAppend(events, e, k);
      ChainFrame(k, families[k], refresh, refresh, events, events + [e]);
    }
  }

  lemma RevocationRetires(families: map<Id, Family>, refresh: map<Hash, Refresh>, events: seq<Event>, a: Id)
    requires ChainInv(families, refresh, events)
    requires forall f :: f in families && families[f].authorization == a ==> !families[f].state.FamilyRevoked?
    ensures ChainInv(RevokeFamilies(families, a), RevokeFamilyTokens(refresh, families, a), events)
  {
    var families' := RevokeFamilies(families, a);
    var refresh' := RevokeFamilyTokens(refresh, families, a);
    forall f | f in families ensures FamilyChain(f, families'[f], refresh', events) {
      if families[f].authorization == a {
        ChainRetires(f, families[f], families'[f], refresh, refresh', events, events);
      } else {
        ChainFrame(f, families[f], refresh, refresh', events, events);
      }
    }
  }

  lemma RegistrationRoots(families: map<Id, Family>, refresh: map<Hash, Refresh>, events: seq<Event>, f: Id,
                          row: Family, root: Hash)
    requires ChainInv(families, refresh, events) && f !in families && root !in refresh
    requires row.state.FamilyActive? && row.version == 1
    ensures ChainInv(families[f := row], refresh[root := Refresh(f, None, Active)], events)
  {
    var refresh' := refresh[root := Refresh(f, None, Active)];
    var families' := families[f := row];
    forall k | k in families' ensures FamilyChain(k, families'[k], refresh', events) {
      if k == f {
        assert IsChain([root], f, true, refresh');
        assert VersionCounts(row, |[root]|, Compromises(events, f));
      } else {
        ChainFrame(k, families[k], refresh, refresh', events, events);
      }
    }
  }
}
