/** Row sets as the driver returns them, and the loops over them.  A listing is ordered by key, so two listings can be
    compared position by position. */
module Rows {
  import opened Schema

  /** The columns of a refresh token row that the service compares. */
  datatype Row = Row(hash: Hash, family: Id, state: TokenState)

  function RowOf(h: Hash, r: Refresh): Row { Row(h, r.family, r.state) }

  /** Strictly ascending by key, so without duplicates. */
  ghost predicate Ascending(rows: seq<Row>) {
    forall i, j {:trigger rows[i], rows[j]} :: 0 <= i < j < |rows| ==> rows[i].hash < rows[j].hash
  }

  ghost predicate Distinct(rows: seq<Row>) {
    forall i, j {:trigger rows[i], rows[j]} :: 0 <= i < j < |rows| ==> rows[i].hash != rows[j].hash
  }

  ghost predicate Holds(rows: seq<Row>, h: Hash) { exists i :: 0 <= i < |rows| && rows[i].hash == h }

  /** The rows of the given families, in any order. */
  ghost predicate Covers(rows: seq<Row>, refresh: map<Hash, Refresh>, which: set<Id>) {
    && (forall i {:trigger rows[i]} :: 0 <= i < |rows| ==>
          rows[i].hash in refresh && rows[i] == RowOf(rows[i].hash, refresh[rows[i].hash]) && rows[i].family in which)
    && (forall h {:trigger Holds(rows, h)} :: h in refresh && refresh[h].family in which ==> Holds(rows, h))
  }

  /** The answer to LockDeviceFamilyRefreshTokens or ListDeviceFamilyRefreshTokens. */
  ghost predicate Lists(rows: seq<Row>, refresh: map<Hash, Refresh>, f: Id) {
    Ascending(rows) && Covers(rows, refresh, {f})
  }

  // ----- comparing listings -----

  lemma {:induction false} SameElementsSameOrder(a: seq<Row>, b: seq<Row>)
    requires Ascending(a) && Ascending(b) && (forall x :: x in a <==> x in b)
    ensures a == b
    decreases |a|
  {
    assert a != [] ==> a[0] in a && a[0] in b;
    assert b != [] ==> b[0] in b && b[0] in a;
    if a != [] {
      assert a[0] == b[0];
      forall x ensures x in a[1..] <==> x in b[1..] { TailElements(a, x); TailElements(b, x); }
      SameElementsSameOrder(a[1..], b[1..]);
      assert a == [a[0]] + a[1..] && b == [b[0]] + b[1..];
    }
  }

  lemma TailElements(a: seq<Row>, x: Row)
    requires Ascending(a) && a != []
    ensures x in a[1..] <==> x in a && x != a[0]
  {
    if x in a[1..] { var i :| 0 <= i < |a[1..]| && a[1..][i] == x; assert a[i + 1] == x && a[0].hash < a[i + 1].hash; }
    if x in a && x != a[0] { var i :| 0 <= i < |a| && a[i] == x; assert a[1..][i - 1] == x; }
  }

  /** The two tables hold the same rows for these families. */
  ghost predicate AgreeOn(x: map<Hash, Refresh>, y: map<Hash, Refresh>, which: set<Id>) {
    forall h {:trigger x[h]} {:trigger y[h]} ::
      && (h in x && x[h].family in which ==> h in y && RowOf(h, y[h]) == RowOf(h, x[h]))
      && (h in y && y[h].family in which ==> h in x && RowOf(h, x[h]) == RowOf(h, y[h]))
  }

  lemma CoversElements(rows: seq<Row>, refresh: map<Hash, Refresh>, which: set<Id>, x: Row)
    requires Covers(rows, refresh, which)
    ensures x in rows <==> x.hash in refresh && RowOf(x.hash, refresh[x.hash]) == x && x.family in which
  {
    if x.hash in refresh && RowOf(x.hash, refresh[x.hash]) == x && x.family in which {
      assert Holds(rows, x.hash);
    }
  }

  /** Comparing two ordered row sets position by position decides whether the tables agree on those families. */
  lemma SameRowsExactly(left: seq<Row>, right: seq<Row>, x: map<Hash, Refresh>, y: map<Hash, Refresh>, which: set<Id>)
    requires Ascending(left) && Ascending(right) && Covers(left, x, which) && Covers(right, y, which)
    ensures left == right <==> AgreeOn(x, y, which)
  {
    if left == right {
      forall h ensures (h in x && x[h].family in which ==> h in y && RowOf(h, y[h]) == RowOf(h, x[h]))
               ensures (h in y && y[h].family in which ==> h in x && RowOf(h, x[h]) == RowOf(h, y[h]))
      {
        if h in x { CoversElements(left, x, which, RowOf(h, x[h])); CoversElements(right, y, which, RowOf(h, x[h])); }
        if h in y { CoversElements(left, x, which, RowOf(h, y[h])); CoversElements(right, y, which, RowOf(h, y[h])); }
      }
    }
    if AgreeOn(x, y, which) {
      forall r ensures r in left <==> r in right {
        CoversElements(left, x, which, r);
        CoversElements(right, y, which, r);
      }
      SameElementsSameOrder(left, right);
    }
  }

  // sameDeviceRefreshSet
  method SameRefreshSet(left: seq<Row>, right: seq<Row>) returns (same: bool)
    ensures same <==> left == right
  {
    if |left| != |right| { return false; }
    var i := 0;
    while i < |left|
      invariant 0 <= i <= |left| && left[..i] == right[..i]
    {
      if left[i].family != right[i].family || left[i].state != right[i].state || left[i].hash != right[i].hash {
        return false;
      }
      i := i + 1;
    }
    assert left == left[..i] && right == right[..i];
    return true;
  }

  // ----- selecting -----

  lemma LeastExists(s: set<Hash>) returns (least: Hash)
    requires s != {}
    ensures least in s && forall h :: h in s ==> least <= h
    decreases |s|
  {
    var some :| some in s;
    var rest := set h | h in s && h < some;
    if rest == {} {
      least := some;
      assert forall h :: h in s ==> h !in rest;
    } else {
      SmallerSet(rest, s - {some});
      least := LeastExists(rest);
      assert forall h :: h in s ==> h in rest || some <= h;
    }
  }

  lemma SmallerSet<T>(a: set<T>, b: set<T>)
    requires a <= b
    ensures |a| <= |b|
    decreases a
  {
    if a != {} {
      var x :| x in a;
      SmallerSet(a - {x}, b - {x});
    }
  }

  ghost predicate AscendingKeys(keys: seq<nat>) {
    forall i, j {:trigger keys[i], keys[j]} :: 0 <= i < j < |keys| ==> keys[i] < keys[j]
  }

  /** ORDER BY a unique key. */
  method OrderKeys(keys: set<nat>) returns (ordered: seq<nat>)
    ensures AscendingKeys(ordered) && forall k :: k in ordered <==> k in keys
  {
    var left := keys;
    ordered := [];
    while left != {}
      invariant left <= keys && AscendingKeys(ordered)
      invariant forall k :: k in ordered <==> k in keys && k !in left
      invariant forall i, h {:trigger ordered[i], h in left} :: 0 <= i < |ordered| && h in left ==> ordered[i] < h
      decreases |left|
    {
      ghost var _ := LeastExists(left);
      var least :| least in left && forall h :: h in left ==> least <= h;
      ordered := ordered + [least];
      left := left - {least};
    }
  }

  /** SELECT ... WHERE family_id = f ORDER BY token_hash. */
  method SelectRows(refresh: map<Hash, Refresh>, f: Id) returns (rows: seq<Row>)
    ensures Lists(rows, refresh, f)
  {
    var keys := OrderKeys(set h | h in refresh && refresh[h].family == f);
    assert forall i :: 0 <= i < |keys| ==> keys[i] in keys;
    rows := seq(|keys|, i requires 0 <= i < |keys| => RowOf(keys[i], refresh[keys[i]]));
    forall h | h in refresh && refresh[h].family in {f} ensures Holds(rows, h) {
      assert h in keys;
      var i :| 0 <= i < |keys| && keys[i] == h;
      assert rows[i].hash == h;
    }
  }

  /** The columns of a family row that the service compares. */
  datatype FamilyRow = FamilyRow(id: Id, authorization: Id, state: FamilyState, version: nat)

  function FamilyRowOf(f: Id, row: Family): FamilyRow { FamilyRow(f, row.authorization, row.state, row.version) }

  ghost predicate AscendingFamilies(rows: seq<FamilyRow>) {
    forall i, j {:trigger rows[i], rows[j]} :: 0 <= i < j < |rows| ==> rows[i].id < rows[j].id
  }

  ghost predicate HoldsFamily(rows: seq<FamilyRow>, f: Id) { exists i :: 0 <= i < |rows| && rows[i].id == f }

  /** The answer to ListDeviceAuthorizationFamilies. */
  ghost predicate ListsFamilies(rows: seq<FamilyRow>, families: map<Id, Family>, a: Id) {
    && AscendingFamilies(rows)
    && (forall i {:trigger rows[i]} :: 0 <= i < |rows| ==>
          rows[i].id in families && rows[i] == FamilyRowOf(rows[i].id, families[rows[i].id]) &&
          rows[i].authorization == a)
    && (forall f {:trigger HoldsFamily(rows, f)} ::
          f in families && families[f].authorization == a ==> HoldsFamily(rows, f))
  }

  method SelectFamilies(families: map<Id, Family>, a: Id) returns (rows: seq<FamilyRow>)
    ensures ListsFamilies(rows, families, a)
  {
    var keys := OrderKeys(set f | f in families && families[f].authorization == a);
    assert forall i :: 0 <= i < |keys| ==> keys[i] in keys;
    rows := seq(|keys|, i requires 0 <= i < |keys| => FamilyRowOf(keys[i], families[keys[i]]));
    forall f | f in families && families[f].authorization == a ensures HoldsFamily(rows, f) {
      assert f in keys;
      var i :| 0 <= i < |keys| && keys[i] == f;
      assert rows[i].id == f;
    }
  }

  // stableDeviceFamilySet
  method StableFamilies(rows: seq<FamilyRow>, a: Id) returns (stable: bool)
    ensures stable <==>
            && rows != [] && a != 0 && AscendingFamilies(rows)
            && (forall i {:trigger rows[i]} ::
                  0 <= i < |rows| ==> rows[i].id != 0 && rows[i].authorization == a && !rows[i].state.FamilyRevoked?)
  {
    if |rows| == 0 || a == 0 { return false; }
    var i := 0;
    while i < |rows|
      invariant 0 <= i <= |rows| && AscendingFamilies(rows[..i])
      invariant forall j {:trigger rows[j]} ::
                  0 <= j < i ==> rows[j].id != 0 && rows[j].authorization == a && !rows[j].state.FamilyRevoked?
    {
      if rows[i].id == 0 || rows[i].authorization != a || rows[i].state.FamilyRevoked? ||
         (i > 0 && rows[i - 1].id >= rows[i].id) {
        return false;
      }
      assert rows[..i + 1] == rows[..i] + [rows[i]];
      i := i + 1;
    }
    assert rows[..i] == rows;
    return true;
  }

  // validDeviceRevocationGraph, the loop over the locked refresh rows
  method RowsWithin(rows: seq<Row>, which: set<Id>) returns (valid: bool)
    ensures valid <==> Ascending(rows) && forall i {:trigger rows[i]} :: 0 <= i < |rows| ==> rows[i].family in which
  {
    var i := 0;
    while i < |rows|
      invariant 0 <= i <= |rows| && Ascending(rows[..i])
      invariant forall j {:trigger rows[j]} :: 0 <= j < i ==> rows[j].family in which
    {
      if rows[i].family !in which || (i > 0 && rows[i - 1].hash >= rows[i].hash) { return false; }
      assert rows[..i + 1] == rows[..i] + [rows[i]];
      i := i + 1;
    }
    assert rows[..i] == rows;
    return true;
  }

  // lockDeviceRevocationAuthority, collecting the refresh rows of every family and sorting them by hash
  method CollectRows(refresh: map<Hash, Refresh>, families: seq<FamilyRow>) returns (rows: seq<Row>)
    requires AscendingFamilies(families)
    ensures Ascending(rows) && Covers(rows, refresh, set i | 0 <= i < |families| :: families[i].id)
  {
    var found: seq<Row> := [];
    var n := 0;
    while n < |families|
      invariant 0 <= n <= |families| && Distinct(found)
      invariant Covers(found, refresh, set i | 0 <= i < n :: families[i].id)
    {
      var more := SelectRows(refresh, families[n].id);
      JoinRows(found, more, refresh, set i | 0 <= i < n :: families[i].id, families[n].id);
      found := found + more;
      assert (set i | 0 <= i < n :: families[i].id) + {families[n].id} == set i | 0 <= i < n + 1 :: families[i].id;
      n := n + 1;
    }
    var buffer := new Row[|found|](i requires 0 <= i < |found| => found[i]);
    assert buffer[..] == found;
    SortRows(buffer);
    rows := buffer[..];
    PermutedCovers(found, rows, refresh, set i | 0 <= i < |families| :: families[i].id);
  }

  lemma JoinRows(a: seq<Row>, b: seq<Row>, refresh: map<Hash, Refresh>, which: set<Id>, f: Id)
    requires Distinct(a) && Covers(a, refresh, which) && Lists(b, refresh, f) && f !in which
    ensures Distinct(a + b) && Covers(a + b, refresh, which + {f})
  {
    forall h | h in refresh && refresh[h].family in which + {f} ensures Holds(a + b, h) {
      if refresh[h].family in which {
        assert Holds(a, h);
        var i :| 0 <= i < |a| && a[i].hash == h;
        assert (a + b)[i].hash == h;
      } else {
        assert Holds(b, h);
        var i :| 0 <= i < |b| && b[i].hash == h;
        assert (a + b)[|a| + i].hash == h;
      }
    }
  }

  lemma PermutedCovers(a: seq<Row>, b: seq<Row>, refresh: map<Hash, Refresh>, which: set<Id>)
    requires Covers(a, refresh, which) && multiset(a) == multiset(b)
    ensures Covers(b, refresh, which)
  {
    forall i | 0 <= i < |b| ensures b[i] in a { assert b[i] in multiset(b); }
    forall h | h in refresh && refresh[h].family in which ensures Holds(b, h) {
      assert Holds(a, h);
      var i :| 0 <= i < |a| && a[i].hash == h;
      assert a[i] in multiset(a) && a[i] in b;
    }
  }

  // ----- the presented token among its family -----

  // validDeviceRefreshAuthority, the loop over the locked rows; validStableDeviceRefreshSet with state Active
  method Presented(rows: seq<Row>, f: Id, token: Hash, state: TokenState) returns (valid: bool)
    ensures valid <==>
            && (forall i {:trigger rows[i]} :: 0 <= i < |rows| ==> rows[i].family == f)
            && Ascending(rows) && Row(token, f, state) in rows
  {
    var found := false;
    var i := 0;
    while i < |rows|
      invariant 0 <= i <= |rows|
      invariant forall j {:trigger rows[j]} :: 0 <= j < i ==> rows[j].family == f
      invariant Ascending(rows[..i])
      invariant found ==> Row(token, f, state) in rows[..i]
      invariant !found ==> forall j {:trigger rows[j]} :: 0 <= j < i ==> rows[j].hash != token
    {
      if rows[i].family != f || (i > 0 && rows[i - 1].hash >= rows[i].hash) { return false; }
      if rows[i].hash == token {
        if found || rows[i].state != state { NotPresented(rows, f, token, state, i, found); return false; }
        found := true;
      }
      assert rows[..i + 1] == rows[..i] + [rows[i]];
      i := i + 1;
    }
    assert rows[..i] == rows;
    return found;
  }

  lemma NotPresented(rows: seq<Row>, f: Id, token: Hash, state: TokenState, i: nat, found: bool)
    requires i < |rows| && rows[i].hash == token && (found || rows[i].state != state)
    requires found ==> Row(token, f, state) in rows[..i]
    ensures !(Ascending(rows) && Row(token, f, state) in rows)
  {
    if Row(token, f, state) in rows {
      var j :| 0 <= j < |rows| && rows[j] == Row(token, f, state);
      if found {
        var k :| 0 <= k < |rows[..i]| && rows[..i][k] == Row(token, f, state);
        assert rows[k].hash == rows[i].hash;
      }
      else { assert rows[j].hash == rows[i].hash; }
    }
  }

  /** Over the family's own listing the loop asks exactly whether the token is there in that state. */
  lemma PresentedExactly(rows: seq<Row>, refresh: map<Hash, Refresh>, f: Id, token: Hash, state: TokenState)
    requires Lists(rows, refresh, f)
    ensures Row(token, f, state) in rows <==>
              token in refresh && refresh[token].family == f && refresh[token].state == state
    ensures forall i {:trigger rows[i]} :: 0 <= i < |rows| ==> rows[i].family == f
  {
    CoversElements(rows, refresh, {f}, Row(token, f, state));
  }

  // ----- sorting -----

  /** All pairs up to `outer` are in order, except that the row at `inner` may be too small for what precedes it. */
  ghost predicate OrderedBut(rows: seq<Row>, outer: nat, inner: nat) {
    forall i, j {:trigger rows[i], rows[j]} ::
      0 <= i < j <= outer && j < |rows| && j != inner ==> rows[i].hash <= rows[j].hash
  }

  ghost predicate Ordered(rows: seq<Row>, n: nat) {
    forall i, j {:trigger rows[i], rows[j]} :: 0 <= i < j < n && j < |rows| ==> rows[i].hash <= rows[j].hash
  }

  lemma SwapKeeps(a: seq<Row>, b: seq<Row>, k: nat)
    requires 0 < k < |a| && b == a[k - 1 := a[k]][k := a[k - 1]]
    ensures multiset(a) == multiset(b)
    ensures Distinct(a) ==> Distinct(b)
  {
    assert a == a[..k - 1] + [a[k - 1], a[k]] + a[k + 1..];
    assert b == a[..k - 1] + [a[k], a[k - 1]] + a[k + 1..];
  }

  lemma SwapOrders(a: seq<Row>, b: seq<Row>, outer: nat, k: nat)
    requires 0 < k <= outer < |a| && b == a[k - 1 := a[k]][k := a[k - 1]]
    requires OrderedBut(a, outer, k) && a[k - 1].hash > a[k].hash
    ensures OrderedBut(b, outer, k - 1)
  {
  }

  // sortDeviceRefreshRows
  method SortRows(rows: array<Row>)
    modifies rows
    ensures Ordered(rows[..], rows.Length)
    ensures multiset(rows[..]) == multiset(old(rows[..]))
    ensures Distinct(old(rows[..])) ==> Ascending(rows[..])
  {
    var outer := 1;
    while outer < rows.Length
      invariant 1 <= outer && (rows.Length > 0 ==> outer <= rows.Length)
      invariant Ordered(rows[..], outer)
      invariant multiset(rows[..]) == multiset(old(rows[..]))
      invariant Distinct(old(rows[..])) ==> Distinct(rows[..])
    {
      var inner := outer;
      assert OrderedBut(rows[..], outer, inner);
      while inner > 0 && rows[inner - 1].hash > rows[inner].hash
        invariant 0 <= inner <= outer < rows.Length
        invariant OrderedBut(rows[..], outer, inner)
        invariant multiset(rows[..]) == multiset(old(rows[..]))
        invariant Distinct(old(rows[..])) ==> Distinct(rows[..])
      {
        ghost var before := rows[..];
        rows[inner - 1], rows[inner] := rows[inner], rows[inner - 1];
        SwapKeeps(before, rows[..], inner);
        SwapOrders(before, rows[..], outer, inner);
        inner := inner - 1;
      }
      SettledOrders(rows[..], outer, inner);
      outer := outer + 1;
    }
  }

  lemma SettledOrders(a: seq<Row>, outer: nat, inner: nat)
    requires inner <= outer < |a| && OrderedBut(a, outer, inner) && (inner == 0 || a[inner - 1].hash <= a[inner].hash)
    ensures Ordered(a, outer + 1)
  {
  }
}
