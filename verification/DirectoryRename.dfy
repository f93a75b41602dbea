/** Renaming a directory: one filesystem rename under a durable receipt, then
    an atomic re-key of the indexed places below it. */
module DirectoryRename {
  import opened Options
  import opened ChangeLog
  import opened LocationTables
  import opened IndexTransactions
  import opened LocationIndex

  // ── Keys below the two directories ────────────────────────────────────────

  /** A rename of `from` to `to'` on one backend. */
  datatype Trip = Trip(backend: string, from: string, to': string) {
    /** Neither directory is the other or lies below it. */
    predicate Apart() {
      from != to' && !(from + "/" <= to') && !(to' + "/" <= from)
    }

    predicate Below(key: string) { from + "/" <= key }

    function At(key: string): Loc { Loc(backend, key) }

    function MovedKey(key: string): string
      requires Below(key)
    {
      to' + "/" + key[|from| + 1..]
    }

    function Dest(key: string): Loc
      requires Below(key)
    {
      Loc(backend, MovedKey(key))
    }

    function Hint(key: string): RenameHint
      requires Below(key)
    {
      RenameHint(backend, key, MovedKey(key))
    }

    /** The keys a receipt may record: below the source, each once. */
    predicate Recordable(keys: seq<string>) {
      && Apart()
      && (forall i | 0 <= i < |keys| :: Below(keys[i]))
      && (forall i, j | 0 <= i < j < |keys| :: keys[i] != keys[j])
    }
  }

  /** No key lies below both directories. */
  lemma SubtreesDisjoint(trip: Trip, key: string)
    requires trip.Apart() && trip.Below(key)
    ensures !(trip.to' + "/" <= key)
  {
    if trip.to' + "/" <= key { BelowBoth(trip.from, trip.to', key); }
  }

  lemma BelowBoth(a: string, b: string, key: string)
    requires a + "/" <= key && b + "/" <= key
    ensures a == b || a + "/" <= b || b + "/" <= a
  {
    var f, t := a + "/", b + "/";
    if |a| < |b| {
      assert f == key[..|f|] == t[..|f|] == b[..|f|];
    } else if |b| < |a| {
      assert t == key[..|t|] == f[..|t|] == a[..|t|];
    } else {
      assert a == f[..|a|] == t[..|b|] == b;
    }
  }

  lemma MovedIsBelow(trip: Trip, key: string)
    requires trip.Below(key)
    ensures trip.to' + "/" <= trip.MovedKey(key)
  {
  }

  /** A key keeps its name below the directory. */
  lemma NameIsKept(trip: Trip, name: string)
    ensures trip.Below(trip.from + "/" + name)
    ensures trip.Dest(trip.from + "/" + name) == Loc(trip.backend, trip.to' + "/" + name)
  {
    var key := trip.from + "/" + name;
    assert key[..|trip.from| + 1] == trip.from + "/" && key[|trip.from| + 1..] == name;
  }

  /** A destination is no source, and different keys have different destinations. */
  lemma DestsApart(trip: Trip, a: string, b: string)
    requires trip.Apart() && trip.Below(a) && trip.Below(b)
    ensures trip.Dest(a) != trip.At(b)
    ensures a != b ==> trip.Dest(a) != trip.Dest(b)
  {
    SubtreesDisjoint(trip, b);
    MovedIsBelow(trip, a);
    if trip.MovedKey(a) == trip.MovedKey(b) {
      var f, t := trip.from + "/", trip.to' + "/";
      assert a[|f|..] == trip.MovedKey(a)[|t|..] == trip.MovedKey(b)[|t|..] == b[|f|..];
      assert a == f + a[|f|..] && b == f + b[|f|..];
    }
  }

  // ── The re-key transaction ────────────────────────────────────────────────

  /** Replaces the first occurrence. */
  function Replaced(locs: seq<Loc>, l: Loc, by': Loc): (r: seq<Loc>)
    ensures |r| == |locs|
  {
    if locs == [] then []
    else if locs[0] == l then [by'] + locs[1..]
    else [locs[0]] + Replaced(locs[1..], l, by')
  }

  predicate Distinct(locs: seq<Loc>) {
    forall i, j | 0 <= i < j < |locs| :: locs[i] != locs[j]
  }

  predicate NoRepeats(t: Tables) {
    forall id | id in t.meta :: Distinct(t.meta[id])
  }

  lemma {:induction false} ReplacedHas(locs: seq<Loc>, l: Loc, by': Loc)
    requires l in locs && l != by'
    ensures by' in Replaced(locs, l, by')
    ensures forall x | x != l && x != by' :: x in Replaced(locs, l, by') <==> x in locs
    ensures Distinct(locs) ==> l !in Replaced(locs, l, by')
    ensures Distinct(locs) ==> (Distinct(Replaced(locs, l, by')) <==> by' !in locs)
  {
    var rest := locs[1..];
    if locs[0] == l {
      assert Replaced(locs, l, by') == [by'] + rest;
      assert Distinct(locs) ==> l !in rest && Distinct(rest);
      DistinctCons(by', rest);
    } else {
      ReplacedHas(rest, l, by');
      assert Distinct(locs) ==> Distinct(rest) && locs[0] !in rest;
      DistinctCons(locs[0], Replaced(rest, l, by'));
    }
  }

  lemma DistinctCons(x: Loc, rest: seq<Loc>)
    ensures Distinct([x] + rest) <==> x !in rest && Distinct(rest)
  {
    var all := [x] + rest;
    if Distinct(all) {
      assert forall i | 0 <= i < |rest| :: all[i + 1] == rest[i] && all[0] != all[i + 1];
      forall i, j | 0 <= i < j < |rest| ensures rest[i] != rest[j] {
        assert all[i + 1] != all[j + 1];
      }
    }
  }

  /** Is the key indexed, and listed by its owner? */
  predicate Indexed(t: Tables, l: Loc) {
    l in t.path && l in t.LocationsOf(t.path[l])
  }

  /** Its owner lists the destination instead. */
  function RekeyCmd(t: Tables, trip: Trip, key: string): Command
    requires trip.Below(key) && Indexed(t, trip.At(key))
  {
    var id := t.path[trip.At(key)];
    PutCmd(id, Replaced(t.LocationsOf(id), trip.At(key), trip.Dest(key)), Some(trip.Hint(key)))
  }

  function RekeyOne(t: Tables, trip: Trip, key: string): Tables
    requires trip.Below(key)
  {
    if Indexed(t, trip.At(key)) then PutTables(t, RekeyCmd(t, trip, key).id, RekeyCmd(t, trip, key).locs) else t
  }

  function Rekeyed(t: Tables, trip: Trip, keys: seq<string>): Tables
    requires forall i | 0 <= i < |keys| :: trip.Below(keys[i])
  {
    if keys == [] then t else RekeyOne(Rekeyed(t, trip, keys[..|keys| - 1]), trip, keys[|keys| - 1])
  }

  /** The commands of the transaction, each computed from the tables the ones before it left. */
  function RekeyCmds(t: Tables, trip: Trip, keys: seq<string>): seq<Command>
    requires forall i | 0 <= i < |keys| :: trip.Below(keys[i])
  {
    if keys == [] then []
    else
      var init, key := keys[..|keys| - 1], keys[|keys| - 1];
      var mid := Rekeyed(t, trip, init);
      RekeyCmds(t, trip, init) + if Indexed(mid, trip.At(key)) then [RekeyCmd(mid, trip, key)] else []
  }

  /** The place map with each recorded key that is indexed moved, in order. */
  function RekeyedPath(path: PathMap, trip: Trip, keys: seq<string>): PathMap
    requires forall i | 0 <= i < |keys| :: trip.Below(keys[i])
  {
    if keys == [] then path
    else
      var m, key := RekeyedPath(path, trip, keys[..|keys| - 1]), keys[|keys| - 1];
      if trip.At(key) in m then (m - {trip.At(key)})[trip.Dest(key) := m[trip.At(key)]] else m
  }

  /** No recorded key that is indexed has an indexed destination. */
  predicate Vacant(path: PathMap, trip: Trip, keys: seq<string>)
    requires forall i | 0 <= i < |keys| :: trip.Below(keys[i])
  {
    forall i | 0 <= i < |keys| && trip.At(keys[i]) in path :: trip.Dest(keys[i]) !in path
  }

  /** Every recorded key still indexed is found at its destination under its
      own id, no recorded key remains, and no other place changes. */
  lemma {:induction false} EveryKeyMoves(path: PathMap, trip: Trip, keys: seq<string>)
    requires trip.Recordable(keys)
    ensures var r := RekeyedPath(path, trip, keys);
            && (forall i | 0 <= i < |keys| :: trip.At(keys[i]) !in r)
            && (forall i | 0 <= i < |keys| :: Lookup(r, trip.Dest(keys[i])) ==
                  if trip.At(keys[i]) in path then Some(path[trip.At(keys[i])]) else Lookup(path, trip.Dest(keys[i])))
            && (forall l | (forall i | 0 <= i < |keys| :: l != trip.At(keys[i]) && l != trip.Dest(keys[i])) ::
                  Lookup(r, l) == Lookup(path, l))
  {
    if keys != [] {
      var n := |keys| - 1;
      var init, key := keys[..n], keys[n];
      EveryKeyMoves(path, trip, init);
      OthersApart(trip, keys);
      var m := RekeyedPath(path, trip, init);
      KeyMoves(m, trip, key);
      assert forall k | 0 <= k < n :: init[k] == keys[k];
      assert Lookup(m, trip.At(key)) == Lookup(path, trip.At(key));
      assert Lookup(m, trip.Dest(key)) == Lookup(path, trip.Dest(key));
      forall i | 0 <= i < |keys|
        ensures trip.At(keys[i]) !in RekeyedPath(path, trip, keys)
        ensures Lookup(RekeyedPath(path, trip, keys), trip.Dest(keys[i])) ==
          if trip.At(keys[i]) in path then Some(path[trip.At(keys[i])]) else Lookup(path, trip.Dest(keys[i]))
      {
        if i < n { assert init[i] == keys[i]; }
      }
      forall l | forall i | 0 <= i < |keys| :: l != trip.At(keys[i]) && l != trip.Dest(keys[i])
        ensures Lookup(RekeyedPath(path, trip, keys), l) == Lookup(path, l)
      {
        assert l != trip.At(key) && l != trip.Dest(key);
        assert forall i | 0 <= i < n :: l != trip.At(init[i]) && l != trip.Dest(init[i]);
      }
    }
  }

  lemma KeyMoves(m: PathMap, trip: Trip, key: string)
    requires trip.Below(key) && trip.Dest(key) != trip.At(key)
    ensures var r := if trip.At(key) in m then (m - {trip.At(key)})[trip.Dest(key) := m[trip.At(key)]] else m;
            && trip.At(key) !in r
            && Lookup(r, trip.Dest(key)) == (if trip.At(key) in m then Some(m[trip.At(key)]) else Lookup(m, trip.Dest(key)))
            && forall l | l != trip.At(key) && l != trip.Dest(key) :: Lookup(r, l) == Lookup(m, l)
  {
  }

  lemma {:induction false} SafeRunConcat(m: PathMap, w: Work, a: seq<Command>, b: seq<Command>, base: nat, now: nat)
    requires SafeRun(m, w, a, base, now)
    requires Run(w, a, base, now).Some? ==> SafeRun(m, Run(w, a, base, now).value, b, base, now)
    ensures SafeRun(m, w, a + b, base, now)
    decreases |a|
  {
    if a == [] {
      assert a + b == b;
    } else {
      assert (a + b)[1..] == a[1..] + b && (a + b)[0] == a[0];
      match a[0]
      case PutCmd(id, locs, rename) => SafeRunConcat(m, PutWork(w, id, locs, rename, base, now), a[1..], b, base, now);
      case DeleteCmd(id) => SafeRunConcat(m, DeleteWork(w, id, base, now), a[1..], b, base, now);
      case Nested(inner) =>
        match Run(w, inner, base, now) {
          case None =>
          case Some(w') => SafeRunConcat(m, w', a[1..], b, base, now);
        }
      case Fail =>
    }
  }

  /** The re-key never throws, and leaves these tables. */
  lemma {:induction false} RekeyRuns(t: Tables, trip: Trip, keys: seq<string>, base: nat, now: nat)
    requires forall i | 0 <= i < |keys| :: trip.Below(keys[i])
    ensures Run(Work(t, []), RekeyCmds(t, trip, keys), base, now).Some?
    ensures Run(Work(t, []), RekeyCmds(t, trip, keys), base, now).value.tables == Rekeyed(t, trip, keys)
  {
    if keys != [] {
      var init, key := keys[..|keys| - 1], keys[|keys| - 1];
      var mid := Rekeyed(t, trip, init);
      RekeyRuns(t, trip, init, base, now);
      var last := if Indexed(mid, trip.At(key)) then [RekeyCmd(mid, trip, key)] else [];
      RunConcat(Work(t, []), RekeyCmds(t, trip, init), last, base, now);
      if last != [] { assert last[1..] == []; }
    }
  }

  /** Every pending entry is about one of these keys or their destinations. */
  predicate About(pending: seq<Entry>, trip: Trip, keys: seq<string>)
    requires forall i | 0 <= i < |keys| :: trip.Below(keys[i])
  {
    forall e | 0 <= e < |pending| ::
      exists i :: 0 <= i < |keys| && (pending[e].change.loc == trip.At(keys[i]) || pending[e].change.loc == trip.Dest(keys[i]))
  }

  /** One owner moves from `l` to a free `l'` that the transaction has not touched. */
  lemma MoveOne(m: PathMap, w: Work, id: string, l: Loc, l': Loc, rename: Option<RenameHint>, base: nat, now: nat)
    requires Explained(m, w, base) && NoRepeats(w.tables)
    requires l in w.tables.path && w.tables.path[l] == id && l' !in w.tables.path && l != l'
    requires forall i | 0 <= i < |w.pending| :: w.pending[i].change.loc != l && w.pending[i].change.loc != l'
    ensures var locs := Replaced(w.tables.LocationsOf(id), l, l');
            var r := PutWork(w, id, locs, rename, base, now);
            && Explained(m, r, base) && NoRepeats(r.tables)
            && r.tables.path == (w.tables.path - {l})[l' := id]
            && w.pending <= r.pending
            && (forall i | |w.pending| <= i < |r.pending| :: r.pending[i].change.loc in {l, l'})
            && SafeRun(m, w, [PutCmd(id, locs, rename)], base, now)
  {
    var before := w.tables.LocationsOf(id);
    var locs := Replaced(before, l, l');
    MovedPath(w.tables, id, l, l');
    MoveLogs(m, w.pending, id, before, locs, l, l', rename, base, now);
    PutStaysExplained(m, w, id, locs, rename, base, now);
    assert [PutCmd(id, locs, rename)][1..] == [];
  }

  lemma MoveLogs(m: PathMap, pending: seq<Entry>, id: string, before: seq<Loc>, locs: seq<Loc>, l: Loc, l': Loc,
                 rename: Option<RenameHint>, base: nat, now: nat)
    requires forall x | x != l && x != l' :: x in locs <==> x in before
    requires forall i | 0 <= i < |pending| :: pending[i].change.loc != l && pending[i].change.loc != l'
    ensures var d := Diff(id, before, locs, rename);
            && SafeAll(m, pending, d, base, now)
            && AppendAll(pending, d, base, now) == pending + Numbered(d, base + |pending|, now)
            && forall i | 0 <= i < |d| :: d[i].loc in {l, l'}
  {
    DiffPlaces(id, before, locs, rename);
    DiffDistinct(id, before, locs, rename);
    DistinctIsSafe(m, pending, Diff(id, before, locs, rename), base, now);
  }

  lemma MovedPath(t: Tables, id: string, l: Loc, l': Loc)
    requires t.Inverse() && NoRepeats(t)
    requires l in t.path && t.path[l] == id && l' !in t.path && l != l'
    ensures var locs := Replaced(t.LocationsOf(id), l, l');
            && (forall x | x != l && x != l' :: x in locs <==> x in t.LocationsOf(id))
            && PutTables(t, id, locs).path == (t.path - {l})[l' := id]
            && NoRepeats(PutTables(t, id, locs))
            && t.Unclaimed(id, locs)
  {
    var before := t.LocationsOf(id);
    assert l' in before ==> l' in t.path;
    ReplacedHas(before, l, l');
    var locs := Replaced(before, l, l');
    var got, want := PutTables(t, id, locs).path, (t.path - {l})[l' := id];
    forall x ensures Lookup(got, x) == Lookup(want, x) {
      if x in before { assert t.path[x] == id; }
    }
    MapsAgree(got, want);
  }

  /** A diff only mentions places that one of the lists has and the other has not. */
  lemma DiffPlaces(id: string, before: seq<Loc>, after: seq<Loc>, rename: Option<RenameHint>)
    ensures var d := Diff(id, before, after, rename);
            forall i | 0 <= i < |d| :: !(d[i].loc in before <==> d[i].loc in after)
  {
    var d, dropped, added := Diff(id, before, after, rename), Dropped(before, after, rename), Added(before, after);
    forall i | 0 <= i < |d| ensures !(d[i].loc in before <==> d[i].loc in after) {
      if i < |dropped| {
        assert d[i].loc == dropped[i] && dropped[i] in dropped;
      } else {
        assert d[i].loc == added[i - |dropped|] && added[i - |dropped|] in added;
      }
    }
  }

  /** Mid-way: the keys so far have moved, and only they have entries. */
  ghost predicate Moved(t: Tables, trip: Trip, keys: seq<string>, w: Work, base: nat)
    requires forall i | 0 <= i < |keys| :: trip.Below(keys[i])
  {
    && Explained(t.path, w, base) && NoRepeats(w.tables)
    && w.tables.path == RekeyedPath(t.path, trip, keys)
    && About(w.pending, trip, keys)
  }

  /** While every destination is free, the transaction stays safe: its entries
      explain the moved map, nobody's list repeats, and each owner is unchanged. */
  lemma {:induction false} RekeyIsSafe(t: Tables, trip: Trip, keys: seq<string>, base: nat, now: nat) returns (w: Work)
    requires trip.Recordable(keys) && t.Inverse() && NoRepeats(t) && Vacant(t.path, trip, keys)
    ensures SafeRun(t.path, Work(t, []), RekeyCmds(t, trip, keys), base, now)
    ensures Run(Work(t, []), RekeyCmds(t, trip, keys), base, now) == Some(w)
    ensures w.tables == Rekeyed(t, trip, keys) && Moved(t, trip, keys, w, base)
  {
    if keys == [] {
      w := Work(t, []);
    } else {
      var init := keys[..|keys| - 1];
      var u := RekeyIsSafe(t, trip, init, base, now);
      w := LastKey(t, trip, keys, u, base, now);
      var last := LastCmd(u.tables, trip, keys);
      SafeRunConcat(t.path, Work(t, []), RekeyCmds(t, trip, init), last, base, now);
      RunConcat(Work(t, []), RekeyCmds(t, trip, init), last, base, now);
    }
  }

  function LastCmd(t: Tables, trip: Trip, keys: seq<string>): seq<Command>
    requires keys != [] && forall i | 0 <= i < |keys| :: trip.Below(keys[i])
  {
    var key := keys[|keys| - 1];
    if Indexed(t, trip.At(key)) then [RekeyCmd(t, trip, key)] else []
  }

  lemma LastKey(t: Tables, trip: Trip, keys: seq<string>, w: Work, base: nat, now: nat) returns (r: Work)
    requires keys != [] && trip.Recordable(keys) && Vacant(t.path, trip, keys)
    requires Moved(t, trip, keys[..|keys| - 1], w, base)
    ensures SafeRun(t.path, w, LastCmd(w.tables, trip, keys), base, now)
    ensures Run(w, LastCmd(w.tables, trip, keys), base, now) == Some(r)
    ensures r.tables == RekeyOne(w.tables, trip, keys[|keys| - 1])
    ensures Moved(t, trip, keys, r, base)
  {
    var key := keys[|keys| - 1];
    var l, l' := trip.At(key), trip.Dest(key);
    LastUntouched(t.path, trip, keys, w.pending);
    assert Lookup(w.tables.path, l) == Lookup(t.path, l);
    assert Lookup(w.tables.path, l') == Lookup(t.path, l');
    if l in w.tables.path {
      r := MoveByCmd(t.path, w, trip, key, base, now);
    } else {
      r := w;
    }
    AboutMore(w.pending, r.pending, trip, keys);
  }

  lemma MoveByCmd(m: PathMap, w: Work, trip: Trip, key: string, base: nat, now: nat) returns (r: Work)
    requires trip.Below(key) && trip.At(key) != trip.Dest(key)
    requires Explained(m, w, base) && NoRepeats(w.tables)
    requires trip.At(key) in w.tables.path && trip.Dest(key) !in w.tables.path
    requires forall i | 0 <= i < |w.pending| ::
               w.pending[i].change.loc != trip.At(key) && w.pending[i].change.loc != trip.Dest(key)
    ensures Indexed(w.tables, trip.At(key))
    ensures var c := RekeyCmd(w.tables, trip, key);
            SafeRun(m, w, [c], base, now) && Run(w, [c], base, now) == Some(r)
    ensures r.tables == RekeyOne(w.tables, trip, key)
    ensures Explained(m, r, base) && NoRepeats(r.tables) && w.pending <= r.pending
    ensures r.tables.path == (w.tables.path - {trip.At(key)})[trip.Dest(key) := w.tables.path[trip.At(key)]]
    ensures forall i | |w.pending| <= i < |r.pending| :: r.pending[i].change.loc in {trip.At(key), trip.Dest(key)}
  {
    var id := w.tables.path[trip.At(key)];
    MoveOne(m, w, id, trip.At(key), trip.Dest(key), Some(trip.Hint(key)), base, now);
    var c := RekeyCmd(w.tables, trip, key);
    r := PutWork(w, id, c.locs, c.rename, base, now);
    assert [c][1..] == [];
  }

  /** The keys before it leave the last key, its destination and its entries alone. */
  lemma LastUntouched(path: PathMap, trip: Trip, keys: seq<string>, pending: seq<Entry>)
    requires keys != [] && trip.Recordable(keys)
    requires About(pending, trip, keys[..|keys| - 1])
    ensures var key, m := keys[|keys| - 1], RekeyedPath(path, trip, keys[..|keys| - 1]);
            && trip.Dest(key) != trip.At(key)
            && Lookup(m, trip.At(key)) == Lookup(path, trip.At(key))
            && Lookup(m, trip.Dest(key)) == Lookup(path, trip.Dest(key))
            && forall e | 0 <= e < |pending| ::
                 pending[e].change.loc != trip.At(key) && pending[e].change.loc != trip.Dest(key)
  {
    var init, key := keys[..|keys| - 1], keys[|keys| - 1];
    EveryKeyMoves(path, trip, init);
    OthersApart(trip, keys);
    forall i | 0 <= i < |init|
      ensures trip.At(key) != trip.At(init[i]) && trip.At(key) != trip.Dest(init[i])
      ensures trip.Dest(key) != trip.At(init[i]) && trip.Dest(key) != trip.Dest(init[i])
    {
      assert init[i] == keys[i];
    }
  }

  lemma AboutMore(p: seq<Entry>, r: seq<Entry>, trip: Trip, keys: seq<string>)
    requires keys != [] && forall i | 0 <= i < |keys| :: trip.Below(keys[i])
    requires About(p, trip, keys[..|keys| - 1]) && p <= r
    requires forall e | |p| <= e < |r| :: r[e].change.loc in {trip.At(keys[|keys| - 1]), trip.Dest(keys[|keys| - 1])}
    ensures About(r, trip, keys)
  {
    var init := keys[..|keys| - 1];
    forall e | 0 <= e < |r|
      ensures exists i :: 0 <= i < |keys| && (r[e].change.loc == trip.At(keys[i]) || r[e].change.loc == trip.Dest(keys[i]))
    {
      if e < |p| {
        assert r[e] == p[e];
        var i :| 0 <= i < |init| && (p[e].change.loc == trip.At(init[i]) || p[e].change.loc == trip.Dest(init[i]));
        assert keys[i] == init[i];
      } else {
        var i := |keys| - 1;
        assert r[e].change.loc == trip.At(keys[i]) || r[e].change.loc == trip.Dest(keys[i]);
      }
    }
  }

  lemma OthersApart(trip: Trip, keys: seq<string>)
    requires keys != [] && trip.Recordable(keys)
    ensures var key := keys[|keys| - 1];
            && trip.Dest(key) != trip.At(key)
            && forall i | 0 <= i < |keys| - 1 ::
                 && trip.At(key) != trip.At(keys[i]) && trip.At(key) != trip.Dest(keys[i])
                 && trip.Dest(key) != trip.At(keys[i]) && trip.Dest(key) != trip.Dest(keys[i])
  {
    var key := keys[|keys| - 1];
    DestsApart(trip, key, key);
    forall i | 0 <= i < |keys| - 1
      ensures trip.At(key) != trip.Dest(keys[i]) && trip.Dest(key) != trip.At(keys[i]) && trip.Dest(key) != trip.Dest(keys[i])
    {
      DestsApart(trip, key, keys[i]);
      DestsApart(trip, keys[i], key);
    }
  }

  // ── What happens when a destination is taken ──────────────────────────────

  /** Where a place ends up. */
  function MovedLoc(trip: Trip, keys: seq<string>, l: Loc): Loc
    requires forall i | 0 <= i < |keys| :: trip.Below(keys[i])
  {
    if keys == [] then l
    else
      var p := MovedLoc(trip, keys[..|keys| - 1], l);
      if p == trip.At(keys[|keys| - 1]) then trip.Dest(keys[|keys| - 1]) else p
  }

  lemma {:induction false} MovedLocExact(trip: Trip, keys: seq<string>, l: Loc)
    requires trip.Recordable(keys)
    ensures forall i | 0 <= i < |keys| :: l == trip.At(keys[i]) ==> MovedLoc(trip, keys, l) == trip.Dest(keys[i])
    ensures (forall i | 0 <= i < |keys| :: l != trip.At(keys[i])) ==> MovedLoc(trip, keys, l) == l
  {
    if keys != [] {
      var init := keys[..|keys| - 1];
      MovedLocExact(trip, init, l);
      assert forall i | 0 <= i < |init| :: init[i] == keys[i];
      OthersApart(trip, keys);
    }
  }

  predicate AtMostOnce(locs: seq<Loc>, l: Loc) {
    forall i, j | 0 <= i < |locs| && 0 <= j < |locs| && locs[i] == l && locs[j] == l :: i == j
  }

  lemma {:induction false} ReplacedAt(locs: seq<Loc>, l: Loc, by': Loc, i: nat)
    requires AtMostOnce(locs, l) && i < |locs|
    ensures Replaced(locs, l, by')[i] == if locs[i] == l then by' else locs[i]
  {
    if locs[0] != l && i > 0 {
      var rest := locs[1..];
      assert forall k | 0 <= k < |rest| :: rest[k] == locs[k + 1];
      ReplacedAt(rest, l, by', i - 1);
    }
  }

  /** Free or not, every list keeps its length and order, each place in it
      moves on its own, and below the source the path table stays right. */
  ghost predicate ListsMoved(t: Tables, u: Tables, trip: Trip, keys: seq<string>)
    requires forall i | 0 <= i < |keys| :: trip.Below(keys[i])
  {
    && u.meta.Keys == t.meta.Keys
    && (forall x | x in t.meta :: |u.meta[x]| == |t.meta[x]|)
    && (forall x, i | x in t.meta && 0 <= i < |t.meta[x]| :: u.meta[x][i] == MovedLoc(trip, keys, t.meta[x][i]))
    && (forall key | trip.Below(key) && key !in keys :: Lookup(u.path, trip.At(key)) == Lookup(t.path, trip.At(key)))
  }

  lemma {:induction false} RekeyMovesLists(t: Tables, trip: Trip, keys: seq<string>)
    requires trip.Recordable(keys) && t.Inverse() && NoRepeats(t)
    ensures ListsMoved(t, Rekeyed(t, trip, keys), trip, keys)
  {
    if keys != [] {
      var n := |keys| - 1;
      RekeyMovesLists(t, trip, keys[..n]);
      MoveListsOnce(t, Rekeyed(t, trip, keys[..n]), trip, keys);
    }
  }

  /** Only the owner of a source place lists it, and once. */
  lemma SoleListing(t: Tables, u: Tables, trip: Trip, init: seq<string>, key: string, x: string, i: nat)
    requires trip.Recordable(init) && trip.Apart() && trip.Below(key) && key !in init
    requires t.Inverse() && ListsMoved(t, u, trip, init) && x in t.meta && i < |t.meta[x]|
    ensures u.meta[x][i] == trip.At(key) <==> t.meta[x][i] == trip.At(key)
    ensures u.meta[x][i] == trip.At(key) ==> trip.At(key) in t.path && t.path[trip.At(key)] == x
  {
    var p := t.meta[x][i];
    MovedLocExact(trip, init, p);
    assert u.meta[x][i] == MovedLoc(trip, init, p);
    if j :| 0 <= j < |init| && p == trip.At(init[j]) {
      DestsApart(trip, init[j], key);
    }
  }

  lemma MoveListsOnce(t: Tables, u: Tables, trip: Trip, keys: seq<string>)
    requires keys != [] && trip.Recordable(keys) && t.Inverse() && NoRepeats(t)
    requires ListsMoved(t, u, trip, keys[..|keys| - 1])
    ensures ListsMoved(t, RekeyOne(u, trip, keys[|keys| - 1]), trip, keys)
  {
    var init, key := keys[..|keys| - 1], keys[|keys| - 1];
    assert keys == init + [key];
    assert key !in init;
    if trip.At(key) in t.path { MoveListed(t, u, trip, keys); } else { MoveAbsent(t, u, trip, keys); }
  }

  lemma MoveListed(t: Tables, u: Tables, trip: Trip, keys: seq<string>)
    requires keys != [] && trip.Recordable(keys) && t.Inverse() && NoRepeats(t)
    requires ListsMoved(t, u, trip, keys[..|keys| - 1]) && keys[|keys| - 1] !in keys[..|keys| - 1]
    requires trip.At(keys[|keys| - 1]) in t.path
    ensures ListsMoved(t, RekeyOne(u, trip, keys[|keys| - 1]), trip, keys)
  {
    var init, key := keys[..|keys| - 1], keys[|keys| - 1];
    var l, r := trip.At(key), RekeyOne(u, trip, key);
    SoleListings(t, u, trip, init, key);
    SourceIsIndexed(t, u, trip, init, key);
    MoveInOwner(t, u, trip, keys);
    MoveInPath(t, u, trip, keys);
    forall x, i | x in t.meta && 0 <= i < |t.meta[x]| ensures r.meta[x][i] == MovedLoc(trip, keys, t.meta[x][i]) {
      if x != t.path[l] { assert u.meta[x][i] != l && r.meta[x] == u.meta[x]; }
    }
  }

  lemma MoveAbsent(t: Tables, u: Tables, trip: Trip, keys: seq<string>)
    requires keys != [] && trip.Recordable(keys) && t.Inverse()
    requires ListsMoved(t, u, trip, keys[..|keys| - 1]) && keys[|keys| - 1] !in keys[..|keys| - 1]
    requires trip.At(keys[|keys| - 1]) !in t.path
    ensures ListsMoved(t, RekeyOne(u, trip, keys[|keys| - 1]), trip, keys)
  {
    var init, key := keys[..|keys| - 1], keys[|keys| - 1];
    assert keys == init + [key];
    SoleListings(t, u, trip, init, key);
    assert Lookup(u.path, trip.At(key)) == Lookup(t.path, trip.At(key));
    assert RekeyOne(u, trip, key) == u;
  }

  lemma SoleListings(t: Tables, u: Tables, trip: Trip, init: seq<string>, key: string)
    requires trip.Recordable(init) && trip.Apart() && trip.Below(key) && key !in init
    requires t.Inverse() && ListsMoved(t, u, trip, init)
    ensures forall x, i | x in t.meta && 0 <= i < |t.meta[x]| ::
              && (u.meta[x][i] == trip.At(key) <==> t.meta[x][i] == trip.At(key))
              && (u.meta[x][i] == trip.At(key) ==> trip.At(key) in t.path && t.path[trip.At(key)] == x)
  {
    forall x, i | x in t.meta && 0 <= i < |t.meta[x]|
      ensures u.meta[x][i] == trip.At(key) <==> t.meta[x][i] == trip.At(key)
      ensures u.meta[x][i] == trip.At(key) ==> trip.At(key) in t.path && t.path[trip.At(key)] == x
    {
      SoleListing(t, u, trip, init, key, x, i);
    }
  }

  lemma SourceIsIndexed(t: Tables, u: Tables, trip: Trip, init: seq<string>, key: string)
    requires trip.Recordable(init) && trip.Below(key) && key !in init
    requires t.Inverse() && ListsMoved(t, u, trip, init) && trip.At(key) in t.path
    ensures Indexed(u, trip.At(key)) && u.path[trip.At(key)] == t.path[trip.At(key)]
  {
    var l := trip.At(key);
    var id := t.path[l];
    var j :| 0 <= j < |t.meta[id]| && t.meta[id][j] == l;
    SoleListing(t, u, trip, init, key, id, j);
    assert Lookup(u.path, l) == Lookup(t.path, l);
  }

  /** The owner's list changes at one index. */
  lemma MoveInOwner(t: Tables, u: Tables, trip: Trip, keys: seq<string>)
    requires keys != [] && trip.Recordable(keys) && NoRepeats(t)
    requires ListsMoved(t, u, trip, keys[..|keys| - 1])
    requires trip.At(keys[|keys| - 1]) in t.path && t.path[trip.At(keys[|keys| - 1])] in t.meta
    requires var id, l := t.path[trip.At(keys[|keys| - 1])], trip.At(keys[|keys| - 1]);
             forall i | 0 <= i < |t.meta[id]| :: u.meta[id][i] == l <==> t.meta[id][i] == l
    ensures var key := keys[|keys| - 1];
            var id := t.path[trip.At(key)];
            var locs := Replaced(u.meta[id], trip.At(key), trip.Dest(key));
            forall i | 0 <= i < |t.meta[id]| :: locs[i] == MovedLoc(trip, keys, t.meta[id][i])
  {
    var key := keys[|keys| - 1];
    var l := trip.At(key);
    var id := t.path[l];
    assert AtMostOnce(u.meta[id], l) by {
      assert Distinct(t.meta[id]);
      assert forall i | 0 <= i < |u.meta[id]| && u.meta[id][i] == l :: t.meta[id][i] == l;
    }
    forall i | 0 <= i < |t.meta[id]|
      ensures Replaced(u.meta[id], l, trip.Dest(key))[i] == MovedLoc(trip, keys, t.meta[id][i])
    {
      ReplacedAt(u.meta[id], l, trip.Dest(key), i);
    }
  }

  /** The path entries of the keys still to come are untouched. */
  lemma MoveInPath(t: Tables, u: Tables, trip: Trip, keys: seq<string>)
    requires keys != [] && trip.Recordable(keys) && t.Inverse()
    requires ListsMoved(t, u, trip, keys[..|keys| - 1])
    requires Indexed(u, trip.At(keys[|keys| - 1]))
    ensures var r := RekeyOne(u, trip, keys[|keys| - 1]);
            forall other | trip.Below(other) && other !in keys ::
              Lookup(r.path, trip.At(other)) == Lookup(t.path, trip.At(other))
  {
    var init, key := keys[..|keys| - 1], keys[|keys| - 1];
    var id := u.path[trip.At(key)];
    assert keys == init + [key];
    PathBelowKept(u, id, trip.At(key), trip, key);
    forall other | trip.Below(other) && other !in keys
      ensures Lookup(RekeyOne(u, trip, key).path, trip.At(other)) == Lookup(t.path, trip.At(other))
    {
      var p := trip.At(other);
      if p in u.LocationsOf(id) {
        var i :| 0 <= i < |u.meta[id]| && u.meta[id][i] == p;
        SoleListing(t, u, trip, init, other, id, i);
      }
    }
  }

  lemma PathBelowKept(u: Tables, id: string, l: Loc, trip: Trip, key: string)
    requires l == trip.At(key) && trip.Apart() && trip.Below(key) && l in u.LocationsOf(id)
    ensures var locs := Replaced(u.LocationsOf(id), l, trip.Dest(key));
            forall other | trip.Below(other) && other != key ::
              Lookup(PutTables(u, id, locs).path, trip.At(other)) ==
              if trip.At(other) in u.LocationsOf(id) then Some(id) else Lookup(u.path, trip.At(other))
  {
    forall other | trip.Below(other) && other != key
      ensures trip.At(other) != l && trip.At(other) != trip.Dest(key)
    {
      DestsApart(trip, key, other);
    }
    DestsApart(trip, key, key);
    ReplacedHas(u.LocationsOf(id), l, trip.Dest(key));
  }

  /** The re-key leaves tables inverse and lists free of repeats exactly when no
      recorded key that is indexed had an indexed destination. */
  lemma VacancyExact(t: Tables, trip: Trip, keys: seq<string>)
    requires trip.Recordable(keys) && t.Inverse() && NoRepeats(t)
    ensures var u := Rekeyed(t, trip, keys); u.Inverse() && NoRepeats(u) <==> Vacant(t.path, trip, keys)
  {
    var u := Rekeyed(t, trip, keys);
    if Vacant(t.path, trip, keys) {
      var w := RekeyIsSafe(t, trip, keys, 0, 0);
    } else {
      RekeyMovesLists(t, trip, keys);
      var k :| 0 <= k < |keys| && trip.At(keys[k]) in t.path && trip.Dest(keys[k]) in t.path;
      TakenIsListedTwice(t, u, trip, keys, k);
    }
  }

  /** A taken destination ends up on two lists, or twice on one. */
  lemma TakenIsListedTwice(t: Tables, u: Tables, trip: Trip, keys: seq<string>, k: nat)
    requires trip.Recordable(keys) && t.Inverse() && ListsMoved(t, u, trip, keys)
    requires k < |keys| && trip.At(keys[k]) in t.path && trip.Dest(keys[k]) in t.path
    ensures !(u.Inverse() && NoRepeats(u))
  {
    var l, l' := trip.At(keys[k]), trip.Dest(keys[k]);
    var id, x := t.path[l], t.path[l'];
    var i :| 0 <= i < |t.meta[id]| && t.meta[id][i] == l;
    var j :| 0 <= j < |t.meta[x]| && t.meta[x][j] == l';
    forall q | 0 <= q < |keys| ensures l' != trip.At(keys[q]) {
      DestsApart(trip, keys[k], keys[q]);
    }
    MovedLocExact(trip, keys, l);
    MovedLocExact(trip, keys, l');
    assert u.meta[id][i] == l' && u.meta[x][j] == l';
    DestsApart(trip, keys[k], keys[k]);
    assert l' in u.meta[id] && l' in u.meta[x];
    if id == x {
      assert i != j && u.meta[id][i] == u.meta[id][j];
      assert !Distinct(u.meta[id]);
    } else {
      assert u.Inverse() ==> Lookup(u.path, l') == Some(id);
    }
  }
}
