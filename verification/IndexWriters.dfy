/** Everything that writes the location index: keyed writes and transfers, the
    watcher with its held unlinks, and the scan. Each is one update of the map
    "place → content id", and each keeps the tables and the log in step. */
module IndexWriters {
  import opened Options
  import opened ChangeLog
  import opened LocationTables
  import opened IndexTransactions
  import opened LocationIndex

  // ── Displace, then record ─────────────────────────────────────────────────

  predicate OnlyDeletes(pending: seq<Entry>) {
    forall i | 0 <= i < |pending| :: pending[i].change.op.Delete?
  }

  function Stripped(t: Tables, owner: string, l: Loc): Tables {
    if Without(t.LocationsOf(owner), l) == [] then DeleteTables(t, owner)
    else PutTables(t, owner, Without(t.LocationsOf(owner), l))
  }

  /** Makes every other owner of an overwritten place let go of it. */
  function DisplaceAll(t: Tables, id: string, over: seq<Loc>): seq<Command>
    decreases |over|
  {
    if over == [] then []
    else if over[0] in t.path && t.path[over[0]] != id then
      [LetGo(t, t.path[over[0]], over[0])] + DisplaceAll(Stripped(t, t.path[over[0]], over[0]), id, over[1..])
    else DisplaceAll(t, id, over[1..])
  }

  /** Upserts locations, keeping the order of those already there. */
  function MergeLocations(locs: seq<Loc>, added: seq<Loc>): (r: seq<Loc>)
    ensures forall l :: l in r <==> l in locs || l in added
    decreases |added|
  {
    if added == [] then locs
    else if added[0] in locs then MergeLocations(locs, added[1..])
    else MergeLocations(locs + [added[0]], added[1..])
  }

  /** Places already listed stay where they are in the list, new ones follow, and no place is listed twice. */
  lemma {:induction false} PlacesKeepOrder(locs: seq<Loc>, added: seq<Loc>)
    ensures locs <= MergeLocations(locs, added)
    ensures AllDifferent(locs) ==> AllDifferent(MergeLocations(locs, added))
    decreases |added|
  {
    if added != [] { PlacesKeepOrder(if added[0] in locs then locs else locs + [added[0]], added[1..]); }
  }

  /** The locations of an entry once it gains `added` and gives up `from`. */
  function NewLocations(locs: seq<Loc>, added: seq<Loc>, from: Option<Loc>): (r: seq<Loc>)
    ensures forall l :: l in r <==> (l in locs && from != Some(l)) || l in added
  {
    MergeLocations(if from.Some? then Without(locs, from.value) else locs, added)
  }

  /** One backend, new key: the log should say rename. */
  function HintFor(added: seq<Loc>, from: Option<Loc>): Option<RenameHint> {
    if from.Some? && |added| == 1 && added[0].backend == from.value.backend
    then Some(RenameHint(from.value.backend, from.value.key, added[0].key)) else None
  }

  /** One transaction: displaced owners let go, then `id` is recorded at `added` and no longer at `from`. */
  function Transfer(t: Tables, id: string, over: seq<Loc>, added: seq<Loc>, from: Option<Loc>): seq<Command> {
    DisplaceAll(t, id, over)
    + [PutCmd(id, NewLocations(t.LocationsOf(id), added, from), HintFor(added, from))]
  }

  /** What remains of the path table once the overwritten places are free. */
  function Evicted(path: PathMap, id: string, over: seq<Loc>): PathMap {
    map l | l in path && (l in over ==> path[l] == id) :: path[l]
  }

  /** The simple update every writer refines. */
  function Claimed(path: PathMap, id: string, over: seq<Loc>, added: seq<Loc>, from: Option<Loc>): PathMap {
    var evicted := Evicted(path, id, over);
    map l | l in evicted.Keys + (set x | x in added) && (l in added || from != Some(l) || evicted[l] != id)
      :: if l in added then id else evicted[l]
  }

  /** Place by place: the added ones hold `id`; an overwritten one that somebody else
      had is empty, and so is the place `id` moved away from; all others are as before. */
  lemma TransferAt(path: PathMap, id: string, over: seq<Loc>, added: seq<Loc>, from: Option<Loc>, l: Loc)
    ensures var after := Claimed(path, id, over, added, from);
            && (l in added ==> l in after && after[l] == id)
            && (l !in added && l in path && path[l] != id ==> if l in over then l !in after else l in after && after[l] == path[l])
            && (l !in added && l in path && path[l] == id ==> if from == Some(l) then l !in after else l in after && after[l] == id)
            && (l !in added && l !in path ==> l !in after)
  {
  }

  predicate Free(path: PathMap, id: string, over: seq<Loc>, added: seq<Loc>) {
    forall l | l in added :: l in path ==> path[l] == id || l in over
  }

  /** Letting go frees one place, touches no other entry and leaves none empty. */
  lemma StrippedTables(t: Tables, owner: string, l: Loc)
    requires t.Inverse() && t.NoEmptyEntry() && owner in t.meta && l in t.meta[owner]
    ensures var r := Stripped(t, owner, l);
            && r.path == t.path - {l} && r.NoEmptyEntry()
            && (forall id | id != owner :: r.LocationsOf(id) == t.LocationsOf(id))
  {
    ReleasedTables(t, owner, l, 0, 0);
  }

  /** The rest of an entry, put back without one place, logs deletes only. */
  lemma NarrowLogsDeletes(m: PathMap, w: Work, owner: string, rest: seq<Loc>, base: nat, now: nat)
    requires Explained(m, w, base) && OnlyDeletes(w.pending)
    requires owner in w.tables.meta && forall x | x in rest :: x in w.tables.meta[owner]
    ensures var r := PutWork(w, owner, rest, None, base, now); Explained(m, r, base) && OnlyDeletes(r.pending)
    ensures SafeRun(m, w, [PutCmd(owner, rest, None)], base, now)
  {
    var before := w.tables.LocationsOf(owner);
    var dropped := Dropped(before, rest, None);
    assert Added(before, rest) == [];
    assert Diff(owner, before, rest, None) == Deletes(owner, dropped);
    DeletesAreSafe(m, w.pending, owner, dropped, base, now);
    PutStaysExplained(m, w, owner, rest, None, base, now);
    assert [PutCmd(owner, rest, None)][1..] == [];
  }

  lemma DropLogsDeletes(m: PathMap, w: Work, owner: string, base: nat, now: nat)
    requires Explained(m, w, base) && OnlyDeletes(w.pending)
    ensures var r := DeleteWork(w, owner, base, now); Explained(m, r, base) && OnlyDeletes(r.pending)
    ensures SafeRun(m, w, [DeleteCmd(owner)], base, now)
  {
    DeletesAreSafe(m, w.pending, owner, w.tables.LocationsOf(owner), base, now);
    DeleteStaysExplained(m, w, owner, base, now);
    assert [DeleteCmd(owner)][1..] == [];
  }

  lemma ReleaseStep(m: PathMap, w: Work, owner: string, l: Loc, base: nat, now: nat)
    requires Explained(m, w, base) && OnlyDeletes(w.pending) && w.tables.NoEmptyEntry()
    requires owner in w.tables.meta && l in w.tables.meta[owner]
    ensures var r := Released(w, owner, l, base, now);
            Explained(m, r, base) && OnlyDeletes(r.pending) && r.tables == Stripped(w.tables, owner, l)
    ensures SafeRun(m, w, [LetGo(w.tables, owner, l)], base, now)
    ensures Run(w, [LetGo(w.tables, owner, l)], base, now) == Some(Released(w, owner, l, base, now))
  {
    assert [LetGo(w.tables, owner, l)][1..] == [];
    var rest := Without(w.tables.LocationsOf(owner), l);
    if rest == [] {
      DropLogsDeletes(m, w, owner, base, now);
    } else {
      NarrowLogsDeletes(m, w, owner, rest, base, now);
    }
  }

  lemma SafeConcat(m: PathMap, w: Work, c: Command, then': seq<Command>, base: nat, now: nat)
    requires c.PutCmd? || c.DeleteCmd?
    requires SafeRun(m, w, [c], base, now)
    requires Run(w, [c], base, now).Some?
    requires SafeRun(m, Run(w, [c], base, now).value, then', base, now)
    ensures SafeRun(m, w, [c] + then', base, now)
  {
    assert [c][1..] == [] && ([c] + then')[1..] == then';
  }

  /** Displacement frees the overwritten places, touches nothing of `id`, and logs deletes only. */
  lemma {:induction false} DisplaceKeeps(m: PathMap, w: Work, id: string, over: seq<Loc>, then': seq<Command>,
                                         base: nat, now: nat) returns (r: Work)
    requires Explained(m, w, base) && OnlyDeletes(w.pending) && w.tables.NoEmptyEntry()
    ensures Explained(m, r, base) && OnlyDeletes(r.pending) && r.tables.NoEmptyEntry()
    ensures r.tables.path == Evicted(w.tables.path, id, over)
    ensures r.tables.LocationsOf(id) == w.tables.LocationsOf(id)
    ensures Run(w, DisplaceAll(w.tables, id, over) + then', base, now) == Run(r, then', base, now)
    ensures SafeRun(m, r, then', base, now) ==> SafeRun(m, w, DisplaceAll(w.tables, id, over) + then', base, now)
    decreases |over|
  {
    var t := w.tables;
    if over == [] {
      r := w;
      assert DisplaceAll(t, id, over) + then' == then';
    } else if over[0] in t.path && t.path[over[0]] != id {
      var l, owner := over[0], t.path[over[0]];
      ReleaseStep(m, w, owner, l, base, now);
      StrippedTables(t, owner, l);
      var mid := Released(w, owner, l, base, now);
      r := DisplaceKeeps(m, mid, id, over[1..], then', base, now);
      assert Evicted(t.path, id, over) == Evicted(mid.tables.path, id, over[1..]) by { EvictedStep(t.path, id, over); }
      var rest := DisplaceAll(mid.tables, id, over[1..]) + then';
      assert DisplaceAll(t, id, over) + then' == [LetGo(t, owner, l)] + rest;
      RunConcat(w, [LetGo(t, owner, l)], rest, base, now);
      if SafeRun(m, r, then', base, now) {
        SafeConcat(m, w, LetGo(t, owner, l), rest, base, now);
      }
    } else {
      r := DisplaceKeeps(m, w, id, over[1..], then', base, now);
      EvictedStep(t.path, id, over);
    }
  }

  lemma EvictedStep(path: PathMap, id: string, over: seq<Loc>)
    requires over != []
    ensures Evicted(path, id, over) ==
            Evicted(if over[0] in path && path[over[0]] != id then path - {over[0]} else path, id, over[1..])
  {
    assert forall l :: l in over <==> l == over[0] || l in over[1..];
  }

  /** A transfer updates the place map exactly as claimed. The tables stay
      inverse exactly when no added place is left to another owner, and then
      the entries it logs explain the new tables. */
  lemma TransferExact(t: Tables, id: string, over: seq<Loc>, added: seq<Loc>, from: Option<Loc>, base: nat, now: nat)
    requires t.Inverse() && t.NoEmptyEntry() && added != []
    ensures var run := Run(Work(t, []), Transfer(t, id, over, added, from), base, now);
            && run.Some?
            && run.value.tables.path == Claimed(t.path, id, over, added, from)
            && run.value.tables.NoDangling() && run.value.tables.NoEmptyEntry()
            && (run.value.tables.Inverse() <==> Free(t.path, id, over, added))
    ensures Free(t.path, id, over, added) ==>
              SafeRun(t.path, Work(t, []), Transfer(t, id, over, added, from), base, now)
  {
    var locs, hint := NewLocations(t.LocationsOf(id), added, from), HintFor(added, from);
    var put := [PutCmd(id, locs, hint)];
    var r := DisplaceKeeps(t.path, Work(t, []), id, over, put, base, now);
    assert put[1..] == [];
    assert Run(r, put, base, now) == Some(PutWork(r, id, locs, hint, base, now));
    RecordExact(t, r.tables, id, over, added, from);
    if Free(t.path, id, over, added) {
      PutAfterDeletesIsSafe(t.path, r, id, locs, hint, base, now);
    }
  }

  lemma RecordExact(t: Tables, u: Tables, id: string, over: seq<Loc>, added: seq<Loc>, from: Option<Loc>)
    requires t.Inverse() && u.Inverse() && u.NoEmptyEntry() && added != []
    requires u.path == Evicted(t.path, id, over) && u.LocationsOf(id) == t.LocationsOf(id)
    ensures var locs := NewLocations(t.LocationsOf(id), added, from);
            var after := PutTables(u, id, locs);
            && after.path == Claimed(t.path, id, over, added, from)
            && after.NoDangling() && after.NoEmptyEntry()
            && (after.Inverse() <==> Free(t.path, id, over, added))
            && (u.Unclaimed(id, locs) <==> Free(t.path, id, over, added))
  {
    var locs := NewLocations(t.LocationsOf(id), added, from);
    PutInverseExact(u, id, locs);
    PutNeverDangles(u, id, locs);
    assert locs != [] by { assert added[0] in locs; }
    forall l ensures Lookup(PutTables(u, id, locs).path, l) == Lookup(Claimed(t.path, id, over, added, from), l) {
      ClaimAt(t, u, id, over, added, from, l);
    }
    MapsAgree(PutTables(u, id, locs).path, Claimed(t.path, id, over, added, from));
    FreeExact(t, u, id, over, added, from);
  }

  lemma FreeExact(t: Tables, u: Tables, id: string, over: seq<Loc>, added: seq<Loc>, from: Option<Loc>)
    requires t.Inverse() && u.path == Evicted(t.path, id, over)
    ensures u.Unclaimed(id, NewLocations(t.LocationsOf(id), added, from)) <==> Free(t.path, id, over, added)
  {
    var locs := NewLocations(t.LocationsOf(id), added, from);
    if u.Unclaimed(id, locs) {
      forall l | l in added && l in t.path && l !in over ensures t.path[l] == id {
        assert l in locs && l in u.path;
      }
    }
    if Free(t.path, id, over, added) {
      forall l | l in locs && l in u.path ensures u.path[l] == id {
        assert l in added || l in t.LocationsOf(id);
        assert u.path[l] == t.path[l];
      }
    }
  }

  lemma ClaimAt(t: Tables, u: Tables, id: string, over: seq<Loc>, added: seq<Loc>, from: Option<Loc>, l: Loc)
    requires t.Inverse() && u.path == Evicted(t.path, id, over) && u.LocationsOf(id) == t.LocationsOf(id)
    ensures Lookup(PutTables(u, id, NewLocations(t.LocationsOf(id), added, from)).path, l) ==
            Lookup(Claimed(t.path, id, over, added, from), l)
  {
    if l in t.path && t.path[l] == id {
      assert l in t.LocationsOf(id);
    }
    if l in t.LocationsOf(id) {
      assert l in t.path && t.path[l] == id;
    }
  }

  /** The path table is the whole truth: inverse tables without empty entries
      that agree on it hold the same ids, each at the same places. */
  lemma PathDecidesTables(a: Tables, b: Tables)
    requires a.Inverse() && b.Inverse() && a.NoEmptyEntry() && b.NoEmptyEntry() && a.path == b.path
    ensures a.meta.Keys == b.meta.Keys
    ensures forall id, l | id in a.meta :: l in a.meta[id] <==> l in b.meta[id]
  {
    SameIds(a, b);
    SameIds(b, a);
  }

  lemma SameIds(a: Tables, b: Tables)
    requires a.Inverse() && b.Inverse() && a.NoEmptyEntry() && a.path == b.path
    ensures a.meta.Keys <= b.meta.Keys
    ensures forall id, l | id in a.meta && l in a.meta[id] :: id in b.meta && l in b.meta[id]
  {
    forall id | id in a.meta ensures id in b.meta {
      assert a.meta[id][0] in a.meta[id];
      assert b.path[a.meta[id][0]] == id;
    }
    forall id, l | id in a.meta && l in a.meta[id] ensures id in b.meta && l in b.meta[id] {
      assert l in a.path && b.path[l] == id;
    }
  }

  /** Keeping only some of an entry's places frees exactly the others. */
  lemma NarrowExact(t: Tables, owner: string, rest: seq<Loc>)
    requires t.Inverse() && owner in t.meta && forall l | l in rest :: l in t.meta[owner]
    ensures t.Unclaimed(owner, rest)
    ensures PutTables(t, owner, rest).path == Narrowed(t.path, owner, rest)
    ensures DeleteTables(t, owner).path == Narrowed(t.path, owner, [])
  {
    assert forall l | l in t.meta[owner] :: l in t.path && t.path[l] == owner;
    forall l ensures Lookup(PutTables(t, owner, rest).path, l) == Lookup(Narrowed(t.path, owner, rest), l) {
      if l in t.path && t.path[l] == owner { assert l in t.meta[owner]; }
    }
    MapsAgree(PutTables(t, owner, rest).path, Narrowed(t.path, owner, rest));
    forall l ensures Lookup(DeleteTables(t, owner).path, l) == Lookup(Narrowed(t.path, owner, []), l) {
      if l in t.path && t.path[l] == owner { assert l in t.meta[owner]; }
    }
    MapsAgree(DeleteTables(t, owner).path, Narrowed(t.path, owner, []));
  }

  function Narrowed(path: PathMap, owner: string, rest: seq<Loc>): PathMap {
    map l | l in path && (path[l] == owner ==> l in rest) :: path[l]
  }

  /** A move of one place on one backend is one `rename` entry and nothing else. */
  lemma LoneMoveIsOneRename(t: Tables, id: string, from: Loc, to': Loc, base: nat, now: nat)
    requires t.Inverse() && t.NoEmptyEntry()
    requires from in t.path && t.path[from] == id && to' !in t.path && from.backend == to'.backend
    ensures var run := Run(Work(t, []), Transfer(t, id, [], [to'], Some(from)), base, now);
            && run.Some?
            && run.value.pending == [Entry(base + 1, now, Change(to', Rename(from.key), id))]
  {
    var before := t.LocationsOf(id);
    var after := NewLocations(before, [to'], Some(from));
    var hint := HintFor([to'], Some(from));
    OnlyOwnedAreListed(t, id, from, to');
    MoveDiff(id, before, after, from, to');
    LonePut(t, id, after, hint, Change(to', Rename(from.key), id), base, now);
    PlainTransfer(t, id, [to'], Some(from));
  }

  lemma PlainTransfer(t: Tables, id: string, added: seq<Loc>, from: Option<Loc>)
    ensures Transfer(t, id, [], added, from) ==
            [PutCmd(id, NewLocations(t.LocationsOf(id), added, from), HintFor(added, from))]
  {
  }

  lemma OnlyOwnedAreListed(t: Tables, id: string, from: Loc, to': Loc)
    requires t.Inverse() && from in t.path && t.path[from] == id && to' !in t.path
    ensures from in t.LocationsOf(id) && to' !in t.LocationsOf(id)
  {
    assert to' in t.LocationsOf(id) ==> to' in t.path;
  }

  lemma LonePut(t: Tables, id: string, after: seq<Loc>, hint: Option<RenameHint>, c: Change, base: nat, now: nat)
    requires Diff(id, t.LocationsOf(id), after, hint) == [c]
    ensures var run := Run(Work(t, []), [PutCmd(id, after, hint)], base, now);
            run.Some? && run.value.pending == [Entry(base + 1, now, c)]
  {
    assert [PutCmd(id, after, hint)][1..] == [] && [c][..0] == [];
    assert AppendAll([], [c], base, now) == Append([], c, base, now);
  }

  lemma MoveDiff(id: string, before: seq<Loc>, after: seq<Loc>, from: Loc, to': Loc)
    requires from in before && to' !in before && from.backend == to'.backend
    requires forall l :: l in after <==> (l in before && l != from) || l == to'
    ensures Diff(id, before, after, Some(RenameHint(from.backend, from.key, to'.key))) ==
            [Change(to', Rename(from.key), id)]
  {
    var hint := Some(RenameHint(from.backend, from.key, to'.key));
    RemovedIs(before, after, from);
    RemovedIs(after, before, to');
    DiffOfPair(id, before, after, from, to', hint);
  }

  lemma DiffOfPair(id: string, before: seq<Loc>, after: seq<Loc>, from: Loc, to': Loc, hint: Option<RenameHint>)
    requires Removed(before, after) == [from] && Added(before, after) == [to'] && from.backend == to'.backend
    requires hint == Some(RenameHint(from.backend, from.key, to'.key))
    ensures Diff(id, before, after, hint) == [Change(to', Rename(from.key), id)]
  {
    assert Loc(from.backend, from.key) == from && Loc(from.backend, to'.key) == to';
    assert Pairs(before, after, hint);
    assert Dropped(before, after, hint) == Minus([from], [from]) == [];
    PutsOfPair(id, from, to', hint);
    assert Deletes(id, []) == [];
  }

  lemma PutsOfPair(id: string, from: Loc, to': Loc, hint: Option<RenameHint>)
    requires hint == Some(RenameHint(from.backend, from.key, to'.key)) && from.backend == to'.backend
    ensures Puts(id, [to'], true, hint) == [Change(to', Rename(from.key), id)]
  {
    assert Loc(from.backend, to'.key) == to';
  }

  lemma RemovedIs(before: seq<Loc>, after: seq<Loc>, x: Loc)
    requires x in before && x !in after && forall l | l in before && l != x :: l in after
    ensures Removed(before, after) == [x]
  {
    OnlyOne(Removed(before, after), x);
  }

  lemma OnlyOne(s: seq<Loc>, x: Loc)
    requires forall l :: l in s <==> l == x
    requires forall i, j | 0 <= i < j < |s| :: s[i] != s[j]
    ensures s == [x]
  {
    assert x in s;
    assert |s| > 1 ==> s[0] != s[1];
    forall i | 0 <= i < |s| ensures s[i] == x {
      assert s[i] in s;
    }
  }

  /** Recording what is already recorded logs nothing. */
  lemma RepeatIsSilent(t: Tables, id: string, l: Loc, base: nat, now: nat)
    requires t.Inverse() && l in t.path && t.path[l] == id
    ensures var run := Run(Work(t, []), Transfer(t, id, [l], [l], None), base, now);
            run.Some? && run.value.pending == []
  {
    var before := t.LocationsOf(id);
    var after := NewLocations(before, [l], None);
    assert Removed(before, after) == [] && Added(before, after) == [];
    var put := [PutCmd(id, after, None)];
    assert DisplaceAll(t, id, [l][1..]) == [];
    assert Transfer(t, id, [l], [l], None) == put && put[1..] == [];
    assert Diff(id, before, after, None) == [];
  }

  /** A keyed put (or a copy whose target bytes had vanished) does not displace
      the earlier owner of its key: both entries then list the key, and when the
      first owner goes the key is lost to the second as well. */
  lemma PutCanStealAKey(a: string, b: string, l: Loc)
    requires a != b
    ensures var t := Tables(map[a := [l]], map[l := a]);
            var u := PutTables(t, b, [l]);
            && t.Inverse() && Transfer(t, b, [], [l], None) == [PutCmd(b, [l], None)]
            && u == Tables(map[a := [l], b := [l]], map[l := b])
            && !u.Inverse()
            && DeleteTables(u, a) == Tables(map[b := [l]], map[])
  {
    var t := Tables(map[a := [l]], map[l := a]);
    assert NewLocations([], [l], None) == [l] by {
      assert MergeLocations([], [l]) == MergeLocations([] + [l], [l][1..]);
    }
    var u := PutTables(t, b, [l]);
    assert u.path == map[l := b];
    assert l in u.meta[a] && u.path[l] == b;
  }

  // ── The watcher as a state machine ────────────────────────────────────────

  datatype Inode = Inode(dev: nat, ino: nat)

  /** A held unlink is filed by backend and inode. */
  datatype HoldKey = HoldKey(backend: string, inode: Inode)

  /** `Add` and `Change` carry hashed bytes; `Unlink` the inode the index had noted for the place. */
  datatype Event =
    | Add(l: Loc, id: string, inode: Option<Inode>)
    | Change'(l: Loc, id: string)
    | Unlink(l: Loc, inode: Option<Inode>)
    | Expire(hold: HoldKey)

  datatype Watch = Watch(path: PathMap, held: map<HoldKey, Loc>)

  function HoldOf(l: Loc, inode: Option<Inode>): Option<HoldKey> {
    if inode.Some? then Some(HoldKey(l.backend, inode.value)) else None
  }

  function Observe(w: Watch, e: Event): Watch {
    match e
    case Add(l, id, inode) =>
      var hold := HoldOf(l, inode);
      if hold.None? || hold.value !in w.held || (l in w.path && w.path[l] != id) then w.(path := w.path[l := id])
      else Watch((w.path - {w.held[hold.value]})[l := id], w.held - {hold.value})
    case Change'(l, id) => w.(path := w.path[l := id])
    case Unlink(l, inode) =>
      var hold := HoldOf(l, inode);
      if hold.None? || l !in w.path then w.(path := w.path - {l})
      else if hold.value in w.held then Watch(w.path - {w.held[hold.value]}, w.held[hold.value := l])
      else w.(held := w.held[hold.value := l])
    case Expire(hold) =>
      if hold !in w.held then w else Watch(w.path - {w.held[hold]}, w.held - {hold})
  }

  /** An edit: the place holds the new content, and no hold is touched. */
  lemma EditIsRecorded(w: Watch, l: Loc, id: string)
    ensures Observe(w, Change'(l, id)) == Watch(w.path[l := id], w.held)
  {
  }

  /** A new file, or one put back over an old: the place holds its content. The
      first file with the inode of a held unlink ends that hold, and the file is
      no longer at its old place. */
  lemma AddIsRecorded(w: Watch, l: Loc, id: string, inode: Option<Inode>)
    ensures var after := Observe(w, Add(l, id, inode));
            var paired := inode.Some? && HoldKey(l.backend, inode.value) in w.held && (l in w.path ==> w.path[l] == id);
            && l in after.path && after.path[l] == id
            && (!paired ==> after == Watch(w.path[l := id], w.held))
            && (paired ==>
                  var hold := HoldKey(l.backend, inode.value);
                  after == Watch((w.path - {w.held[hold]})[l := id], w.held - {hold}))
  {
  }

  /** A file gone: with an inode it is held at its place, and an earlier file held
      under that inode is dropped; without one it is dropped at once. */
  lemma UnlinkIsRecorded(w: Watch, l: Loc, inode: Option<Inode>)
    ensures var after := Observe(w, Unlink(l, inode));
            && (inode.None? || l !in w.path ==> after == Watch(w.path - {l}, w.held))
            && (inode.Some? && l in w.path ==>
                  var hold := HoldKey(l.backend, inode.value);
                  && after.held == w.held[hold := l]
                  && after.path == if hold in w.held then w.path - {w.held[hold]} else w.path)
  {
  }

  function ObserveAll(w: Watch, es: seq<Event>): Watch {
    if es == [] then w else Observe(ObserveAll(w, es[..|es| - 1]), es[|es| - 1])
  }

  /** Is the event about this place or this hold? */
  predicate Disturbs(e: Event, l: Loc, hold: HoldKey) {
    match e
    case Add(x, _, inode) => x == l || HoldOf(x, inode) == Some(hold)
    case Change'(x, _) => x == l
    case Unlink(x, inode) => x == l || HoldOf(x, inode) == Some(hold)
    case Expire(h) => h == hold
  }

  ghost predicate HeldOnlyBy(held: map<HoldKey, Loc>, l: Loc, hold: HoldKey) {
    forall h | h in held && held[h] == l :: h == hold
  }

  /** A held place keeps its owner through any events that are not about it. */
  lemma {:induction false} HoldSurvives(w: Watch, es: seq<Event>, l: Loc, hold: HoldKey)
    requires l in w.path && hold in w.held && w.held[hold] == l && HeldOnlyBy(w.held, l, hold)
    requires forall i | 0 <= i < |es| :: !Disturbs(es[i], l, hold)
    ensures var r := ObserveAll(w, es);
            && l in r.path && r.path[l] == w.path[l]
            && hold in r.held && r.held[hold] == l && HeldOnlyBy(r.held, l, hold)
  {
    if es != [] {
      HoldSurvives(w, es[..|es| - 1], l, hold);
    }
  }

  /** Unlink and later add of one inode, whatever else happens between: the
      content is never absent, and ends up at the new place and not at the old one. */
  lemma RenameKeepsIdentity(w: Watch, from: Loc, inode: Inode, es: seq<Event>, to': Loc, n: nat)
    requires from in w.path && from.backend == to'.backend && from != to' && n <= |es|
    requires HoldKey(from.backend, inode) !in w.held && (forall h | h in w.held :: w.held[h] != from)
    requires forall i | 0 <= i < |es| :: !Disturbs(es[i], from, HoldKey(from.backend, inode))
    ensures var held := Observe(w, Unlink(from, Some(inode)));
            var before := ObserveAll(held, es);
            var after := Observe(before, Add(to', w.path[from], Some(inode)));
            && from in ObserveAll(held, es[..n]).path && ObserveAll(held, es[..n]).path[from] == w.path[from]
            && after.path[to'] == w.path[from]
            && (to' !in before.path ==>
                  after == Watch((before.path - {from})[to' := w.path[from]],
                                 before.held - {HoldKey(from.backend, inode)}))
  {
    var hold := HoldKey(from.backend, inode);
    var held := Observe(w, Unlink(from, Some(inode)));
    HoldSurvives(held, es, from, hold);
    HoldSurvives(held, es[..n], from, hold);
  }

  /** Without the second half of a rename, the hold runs out and the place is gone. */
  lemma ExpiryDeletes(w: Watch, l: Loc, inode: Inode, es: seq<Event>)
    requires l in w.path
    requires HoldKey(l.backend, inode) !in w.held && (forall h | h in w.held :: w.held[h] != l)
    requires forall i | 0 <= i < |es| :: !Disturbs(es[i], l, HoldKey(l.backend, inode))
    ensures var hold := HoldKey(l.backend, inode);
            var before := ObserveAll(Observe(w, Unlink(l, Some(inode))), es);
            Observe(before, Expire(hold)) == Watch(before.path - {l}, before.held - {hold})
  {
    HoldSurvives(Observe(w, Unlink(l, Some(inode))), es, l, HoldKey(l.backend, inode));
  }

  /** A hold does not notice that its file came back: after the window the key
      survives exactly when the same content returned with the same inode. */
  lemma RecreatedKeyExpires(w: Watch, l: Loc, inode: Inode, id: string, other: Option<Inode>)
    requires l in w.path && HoldKey(l.backend, inode) !in w.held
    requires forall h | h in w.held :: w.held[h] != l
    ensures var hold := HoldKey(l.backend, inode);
            var back := Observe(Observe(w, Unlink(l, Some(inode))), Add(l, id, other));
            && back.path[l] == id
            && (l in Observe(back, Expire(hold)).path <==> other == Some(inode) && id == w.path[l])
  {
  }

  // ── Scans ─────────────────────────────────────────────────────────────────

  /** One scanned file. `id` is None when hashing failed; `warm` when every recorded attribute matches. */
  datatype Row = Row(key: string, id: Option<string>, warm: bool)

  /** How a walk ended. `files` None: cancelled, failed, or no usable snapshot. */
  datatype Walk = Walk(streamed: seq<Row>, files: Option<seq<Row>>, complete: bool, rootError: bool, badDirs: seq<string>) {
    predicate Removes() { files.Some? && !rootError && complete }

    function AllRows(): seq<Row> { if files.Some? then streamed + files.value else streamed }
  }

  function FirstRow(rows: seq<Row>, key: string): Option<Row> {
    if rows == [] then None
    else
      var r := FirstRow(rows[..|rows| - 1], key);
      if r.Some? then r else if rows[|rows| - 1].key == key then Some(rows[|rows| - 1]) else None
  }

  predicate UnderBadDir(key: string, badDirs: seq<string>) {
    exists d | d in badDirs :: d != "" && (key == d || d + "/" <= key || d + "\\" <= key)
  }

  /** Some row has this key, up to normalization. */
  predicate Spelled(files: seq<Row>, key: string, nfc: string -> string) {
    exists i | 0 <= i < |files| :: nfc(files[i].key) == nfc(key)
  }

  /** Does a complete walk keep this place? */
  predicate Kept(l: Loc, backend: string, files: seq<Row>, badDirs: seq<string>, nfc: string -> string) {
    || l.backend != backend
    || Spelled(files, l.key, nfc)
    || UnderBadDir(l.key, badDirs)
  }

  function IngestedAt(path: PathMap, backend: string, rows: seq<Row>, l: Loc): Option<string> {
    var row := if l.backend == backend then FirstRow(rows, l.key) else None;
    if row.Some? && row.value.id.Some? then row.value.id else Lookup(path, l)
  }

  lemma IngestStep(path: PathMap, mid: PathMap, backend: string, rows: seq<Row>, i: nat)
    requires i < |rows| && forall l :: Lookup(mid, l) == IngestedAt(path, backend, rows[..i], l)
    ensures var row := rows[i];
            var after := if FirstRow(rows[..i], row.key).Some? || row.id.None? then mid
                         else mid[Loc(backend, row.key) := row.id.value];
            forall l :: Lookup(after, l) == IngestedAt(path, backend, rows[..i + 1], l)
  {
    assert rows[..i + 1][..i] == rows[..i];
    var row := rows[i];
    var after := if FirstRow(rows[..i], row.key).Some? || row.id.None? then mid
                 else mid[Loc(backend, row.key) := row.id.value];
    forall l ensures Lookup(after, l) == IngestedAt(path, backend, rows[..i + 1], l) {
      assert Lookup(mid, l) == IngestedAt(path, backend, rows[..i], l);
    }
  }

  /** What a scan of one backend leaves at a place. */
  function ScannedAt(path: PathMap, backend: string, walk: Walk, nfc: string -> string, l: Loc): Option<string> {
    if walk.Removes() && !Kept(l, backend, walk.files.value, walk.badDirs, nfc) then None
    else IngestedAt(path, backend, walk.AllRows(), l)
  }

  predicate NamedBy(rows: seq<Row>, key: string, i: int)
    requires 0 <= i < |rows|
  {
    rows[i].key == key && forall j | 0 <= j < i :: rows[j].key != key
  }

  /** The row that counts is the first one with the key. */
  lemma {:induction false} FirstRowIsFirst(rows: seq<Row>, key: string, i: int)
    requires 0 <= i < |rows| && NamedBy(rows, key, i)
    ensures FirstRow(rows, key) == Some(rows[i])
  {
    var init := rows[..|rows| - 1];
    if i < |rows| - 1 {
      FirstRowIsFirst(init, key, i);
    } else {
      FirstRowExact(init, key);
    }
  }

  /** After any walk at all, the place of the first row of a key that could be hashed
      holds its content, if a walk that removes still spells the key; a key no
      row names is as before, unless such a walk misses it. */
  lemma ScanRecords(path: PathMap, backend: string, walk: Walk, nfc: string -> string, key: string, i: int)
    requires 0 <= i < |walk.AllRows()| && NamedBy(walk.AllRows(), key, i)
    requires walk.Removes() ==> exists k :: 0 <= k < |walk.files.value| && nfc(walk.files.value[k].key) == nfc(key)
    ensures var after := ScannedAt(path, backend, walk, nfc, Loc(backend, key));
            after == if walk.AllRows()[i].id.Some? then walk.AllRows()[i].id else Lookup(path, Loc(backend, key))
  {
    FirstRowIsFirst(walk.AllRows(), key, i);
  }

  /** After any walk that removes, streamed rows and unreadable folders included: a
      key is indexed exactly when it was hashed or indexed before, and the final
      snapshot spells it up to NFC or it lies under a folder that could not be
      read. It then holds what the first row of the key says, or its old entry. */
  lemma CompleteScanExact(path: PathMap, backend: string, walk: Walk, nfc: string -> string, key: string)
    requires walk.Removes()
    ensures var l, row := Loc(backend, key), FirstRow(walk.AllRows(), key);
            var after := ScannedAt(path, backend, walk, nfc, l);
            var hashed := row.Some? && row.value.id.Some?;
            var spelled := exists i :: 0 <= i < |walk.files.value| && nfc(walk.files.value[i].key) == nfc(key);
            var unread := exists d :: d in walk.badDirs && d != "" && (key == d || d + "/" <= key || d + "\\" <= key);
            && (after.Some? <==> (hashed || l in path) && (spelled || unread))
            && (after.Some? ==> after == if hashed then row.value.id else Lookup(path, l))
            && (row.Some? ==> row.value in walk.AllRows() && row.value.key == key)
            && (row.None? ==> forall i | 0 <= i < |walk.AllRows()| :: walk.AllRows()[i].key != key)
    ensures FirstRow(walk.files.value, key).Some? ==> Spelled(walk.files.value, key, nfc)
  {
    FirstRowExact(walk.AllRows(), key);
    FirstRowExact(walk.files.value, key);
  }

  lemma {:induction false} FirstRowExact(rows: seq<Row>, key: string)
    ensures FirstRow(rows, key).Some? <==> exists i | 0 <= i < |rows| :: rows[i].key == key
    ensures FirstRow(rows, key).Some? ==> FirstRow(rows, key).value in rows && FirstRow(rows, key).value.key == key
  {
    if rows != [] {
      FirstRowExact(rows[..|rows| - 1], key);
      if FirstRow(rows, key).None? {
        assert forall i | 0 <= i < |rows| - 1 :: rows[i] == rows[..|rows| - 1][i];
      }
    }
  }

  /** A partial, failed or offline walk removes nothing, nor does any walk under a
      folder it could not read, and other backends never notice a scan. */
  lemma ScanSpares(path: PathMap, backend: string, walk: Walk, nfc: string -> string, l: Loc)
    requires || walk.files.None? || walk.rootError || !walk.complete || l.backend != backend
             || exists d :: d in walk.badDirs && d != "" && (l.key == d || d + "/" <= l.key || d + "\\" <= l.key)
    requires l in path
    ensures ScannedAt(path, backend, walk, nfc, l).Some?
    ensures l.backend != backend ==> ScannedAt(path, backend, walk, nfc, l) == Some(path[l])
  {
  }

  /** One transfer onto one place, seen at the place map. */
  lemma ClaimOne(path: PathMap, id: string, over: seq<Loc>, l: Loc, from: Option<Loc>)
    requires over == [l] || (over == [] && (l in path ==> path[l] == id))
    requires from.Some? && from.value != l && from.value in path ==> path[from.value] == id
    ensures Claimed(path, id, over, [l], from) == (if from.Some? then path - {from.value} else path)[l := id]
    ensures Free(path, id, over, [l])
  {
    var want := (if from.Some? then path - {from.value} else path)[l := id];
    forall x ensures Lookup(Claimed(path, id, over, [l], from), x) == Lookup(want, x) {
    }
    MapsAgree(Claimed(path, id, over, [l], from), want);
  }

  lemma FinishClaim(path: PathMap, id: string, source: Loc, target: Loc)
    requires source != target && (target in path ==> path[target] == id)
    ensures var after := Claimed(path, id, [], [target], Some(source));
            && Lookup(after, target) == Some(id)
            && Lookup(after, source) == (if Lookup(path, source) == Some(id) then None else Lookup(path, source))
            && forall l | l != source && l != target :: Lookup(after, l) == Lookup(path, l)
    ensures Free(path, id, [], [target])
  {
  }

  // ── The index with its writers ────────────────────────────────────────────

  class Catalog {
    const index: Index
    var held: map<HoldKey, Loc>

    ghost function Now(): Tables
      reads this, index
    {
      Tables(index.meta, index.path)
    }

    /** Tables exactly inverse, no entry without a place, and the log explains them. */
    ghost predicate Sound()
      reads this, index
    {
      index.Valid() && index.txDepth == 0 && index.LogExplainsIndex() && Now().NoEmptyEntry()
    }

    ghost function State(): Watch
      reads this, index
    {
      Watch(index.path, held)
    }

    constructor (index: Index)
      ensures this.index == index && held == map[]
    {
      this.index, held := index, map[];
    }

    /** `put`, `copy` and the first half of a streamed move: record `id` at
        `added`, displacing other owners of the places in `over`. */
    method Place(id: string, over: seq<Loc>, added: seq<Loc>, from: Option<Loc>, now: nat)
      requires Sound() && added != []
      modifies index
      ensures index.Valid() && index.txDepth == 0 && Now().NoEmptyEntry() && old(index.log) <= index.log
      ensures index.path == Claimed(old(index.path), id, over, added, from)
      ensures Sound() <==> Free(old(index.path), id, over, added)
      ensures Run(Work(old(Now()), []), Transfer(old(Now()), id, over, added, from), |old(index.log)|, now).Some?
      ensures index.log == old(index.log)
                + Run(Work(old(Now()), []), Transfer(old(Now()), id, over, added, from), |old(index.log)|, now).value.pending
    {
      var t := Tables(index.meta, index.path);
      var cmds := Transfer(t, id, over, added, from);
      ghost var log0 := index.log;
      TransferExact(t, id, over, added, from, |log0|, now);
      var _ := index.Transaction(cmds, now);
      if Free(t.path, id, over, added) { CommitExplains(t, log0, cmds, now); }
    }

    /** The succession every observed edit goes through. */
    method Succeed(l: Loc, id: string, now: nat)
      requires Sound()
      modifies index
      ensures Sound() && old(index.log) <= index.log
      ensures index.path == old(index.path)[l := id]
      ensures l in old(index.path) && old(index.path)[l] == id ==> index.log == old(index.log)
    {
      if l in index.path && index.path[l] == id { RepeatIsSilent(Now(), id, l, |index.log|, now); }
      ClaimOne(index.path, id, [l], l, None);
      Place(id, [l], [l], None, now);
    }

    /** Drops one place from whoever owns it, and the entry with its last place. */
    method ProcessUnlink(l: Loc, now: nat)
      requires Sound()
      modifies index
      ensures Sound() && old(index.log) <= index.log
      ensures index.path == old(index.path) - {l}
    {
      if l !in index.path { return; }
      var owner := index.path[l];
      var rest := Without(index.meta[owner], l);
      assert Narrowed(index.path, owner, rest) == index.path - {l};
      Narrow(owner, rest, now);
    }

    /** Leaves an entry only some of its places; the entry goes with its last one. */
    method Narrow(owner: string, rest: seq<Loc>, now: nat)
      requires Sound() && owner in index.meta && forall l | l in rest :: l in index.meta[owner]
      modifies index
      ensures Sound() && old(index.log) <= index.log
      ensures index.path == Narrowed(old(index.path), owner, rest)
      ensures forall x | x != owner :: x in index.meta <==> x in old(index.meta)
    {
      NarrowExact(Now(), owner, rest);
      if rest == [] {
        var _ := index.Remove(owner, now);
      } else {
        index.Put(owner, rest, None, now);
      }
    }

    method HandleAdd(l: Loc, id: string, inode: Option<Inode>, now: nat)
      requires Sound()
      modifies this, index
      ensures Sound() && old(index.log) <= index.log
      ensures State() == Observe(old(State()), Add(l, id, inode))
      ensures l in index.path && index.path[l] == id
      ensures inode.None? || HoldKey(l.backend, inode.value) !in old(held) ==> index.path == old(index.path)[l := id] && held == old(held)
      ensures var hold := HoldOf(l, inode);
              hold.Some? && hold.value in old(held) && l !in old(index.path) ==>
                var from := old(held)[hold.value];
                from in old(index.path) && old(index.path)[from] == id && from.backend == l.backend ==>
                  index.log == old(index.log) + [Entry(|old(index.log)| + 1, now, Change(l, Rename(from.key), id))]
    {
      if l in index.path && index.path[l] != id {
        Succeed(l, id, now);
        return;
      }
      var hold := HoldOf(l, inode);
      if hold.Some? && hold.value in held {
        var place := held[hold.value];
        held := held - {hold.value};
        AddPaired(l, id, place, now);
      } else {
        ClaimOne(index.path, id, [], l, None);
        Place(id, [], [l], None, now);
      }
    }

    /** An add whose inode is that of a held unlink: one rename entry when the
        content is the same, otherwise the unlink first and the add after it. */
    method AddPaired(l: Loc, id: string, place: Loc, now: nat)
      requires Sound() && (l in index.path ==> index.path[l] == id)
      modifies index
      ensures Sound() && old(index.log) <= index.log
      ensures index.path == (old(index.path) - {place})[l := id]
      ensures l !in old(index.path) && place in old(index.path) && old(index.path)[place] == id && place.backend == l.backend ==>
                index.log == old(index.log) + [Entry(|old(index.log)| + 1, now, Change(l, Rename(place.key), id))]
    {
      if place in index.path && index.path[place] == id && place.backend == l.backend {
        if l !in index.path { LoneMoveIsOneRename(Now(), id, place, l, |index.log|, now); }
        ClaimOne(index.path, id, [], l, Some(place));
        Place(id, [], [l], Some(place), now);
      } else {
        ProcessUnlink(place, now);
        ClaimOne(index.path, id, [], l, None);
        Place(id, [], [l], None, now);
      }
    }

    method HandleChange(l: Loc, id: string, now: nat)
      requires Sound()
      modifies index
      ensures Sound() && old(index.log) <= index.log
      ensures State() == Observe(old(State()), Change'(l, id))
      ensures index.path == old(index.path)[l := id] && held == old(held)
    {
      Succeed(l, id, now);
    }

    /** Holds the unlink when the inode is known, releasing an earlier hold of the same inode. */
    method HandleUnlink(l: Loc, inode: Option<Inode>, now: nat)
      requires Sound()
      modifies this, index
      ensures Sound() && old(index.log) <= index.log
      ensures State() == Observe(old(State()), Unlink(l, inode))
      ensures inode.None? ==> index.path == old(index.path) - {l} && held == old(held)
      ensures inode.Some? && l in old(index.path) ==>
                held == old(held)[HoldKey(l.backend, inode.value) := l]
                && (HoldKey(l.backend, inode.value) !in old(held) ==> index.path == old(index.path))
    {
      var hold := HoldOf(l, inode);
      if hold.Some? && l in index.path {
        if hold.value in held {
          var prior := held[hold.value];
          held := held - {hold.value};
          ProcessUnlink(prior, now);
        }
        held := held[hold.value := l];
      } else {
        ProcessUnlink(l, now);
      }
    }

    method HandleExpiry(hold: HoldKey, now: nat)
      requires Sound()
      modifies this, index
      ensures Sound() && old(index.log) <= index.log
      ensures State() == Observe(old(State()), Expire(hold))
      ensures hold in old(held) ==> index.path == old(index.path) - {old(held)[hold]} && held == old(held) - {hold}
    {
      if hold !in held { return; }
      var l := held[hold];
      held := held - {hold};
      ProcessUnlink(l, now);
    }

    /** Completes a move in the index: the target gains the content, the source loses it. */
    method FinishMove(id: string, source: Loc, target: Loc, now: nat) returns (found: bool)
      requires Sound() && source != target
      requires target in index.path ==> index.path[target] == id
      modifies index
      ensures Sound() && old(index.log) <= index.log
      ensures found == (id in old(index.meta))
      ensures !found ==> index.path == old(index.path) && index.log == old(index.log)
      ensures found ==> target in index.path && index.path[target] == id
      ensures found && source in old(index.path) ==> (source in index.path <==> old(index.path)[source] != id)
      ensures forall l | l != source && l != target :: Lookup(index.path, l) == Lookup(old(index.path), l)
    {
      found := id in index.meta;
      if found {
        FinishClaim(index.path, id, source, target);
        Place(id, [], [target], Some(source), now);
      }
    }

    // ── Scanning ────────────────────────────────────────────────────────────

    method IngestRow(backend: string, row: Row, now: nat)
      requires Sound()
      modifies index
      ensures Sound() && old(index.log) <= index.log
      ensures index.path == if row.id.Some? then old(index.path)[Loc(backend, row.key) := row.id.value] else old(index.path)
      ensures (row.id.Some? ==> Lookup(old(index.path), Loc(backend, row.key)) == row.id) ==> index.log == old(index.log)
    {
      if row.id.None? { return; }
      var l := Loc(backend, row.key);
      if l in index.path && index.path[l] == row.id.value && row.warm { return; }
      Succeed(l, row.id.value, now);
    }

    /** Indexes every row once per key; the first row of a key wins. */
    method Ingest(backend: string, rows: seq<Row>, now: nat)
      requires Sound()
      modifies index
      ensures Sound() && old(index.log) <= index.log
      ensures forall l :: Lookup(index.path, l) == IngestedAt(old(index.path), backend, rows, l)
      ensures (forall row | row in rows && row.id.Some? :: Lookup(old(index.path), Loc(backend, row.key)) == row.id) ==>
                index.log == old(index.log)
    {
      var processed: set<string> := {};
      for i := 0 to |rows|
        invariant Sound() && old(index.log) <= index.log
        invariant forall k :: k in processed <==> FirstRow(rows[..i], k).Some?
        invariant forall l :: Lookup(index.path, l) == IngestedAt(old(index.path), backend, rows[..i], l)
        invariant (forall row | row in rows && row.id.Some? :: Lookup(old(index.path), Loc(backend, row.key)) == row.id) ==>
                    index.log == old(index.log)
      {
        IngestStep(old(index.path), index.path, backend, rows, i);
        assert rows[..i + 1][..i] == rows[..i];
        if rows[i].key !in processed {
          assert Lookup(index.path, Loc(backend, rows[i].key)) == Lookup(old(index.path), Loc(backend, rows[i].key));
          processed := processed + {rows[i].key};
          IngestRow(backend, rows[i], now);
        }
      }
      assert rows[..|rows|] == rows;
    }

    /** Drops every place of the backend that a complete walk did not see. */
    method RemoveMissing(backend: string, files: seq<Row>, badDirs: seq<string>, nfc: string -> string, now: nat)
      requires Sound()
      modifies index
      ensures Sound() && old(index.log) <= index.log
      ensures index.path == map l | l in old(index.path) && Kept(l, backend, files, badDirs, nfc) :: old(index.path)[l]
    {
      var left := index.meta.Keys;
      SieveEnds(index.path, left, backend, files, badDirs, nfc);
      while left != {}
        invariant Sound() && old(index.log) <= index.log && left <= index.meta.Keys
        invariant index.path == Sieved(old(index.path), left, backend, files, badDirs, nfc)
        decreases |left|
      {
        var id :| id in left;
        SieveStep(old(index.path), left, id, backend, files, badDirs, nfc);
        left := left - {id};
        RemoveFrom(id, backend, files, badDirs, nfc, now);
      }
    }

    method RemoveFrom(id: string, backend: string, files: seq<Row>, badDirs: seq<string>, nfc: string -> string, now: nat)
      requires Sound() && id in index.meta
      modifies index
      ensures Sound() && old(index.log) <= index.log
      ensures forall x | x != id :: x in index.meta <==> x in old(index.meta)
      ensures index.path == Sifted(old(index.path), id, backend, files, badDirs, nfc)
    {
      var locs := index.meta[id];
      var next := KeptOnly(locs, backend, files, badDirs, nfc);
      assert Narrowed(index.path, id, next) == Sifted(index.path, id, backend, files, badDirs, nfc);
      if |next| == |locs| {
        KeptAll(locs, backend, files, badDirs, nfc);
      } else {
        Narrow(id, next, now);
      }
    }

    /** Scans one backend: ingest what the walk streamed and returned, then drop
        what a complete walk of a live root did not see. */
    method Scan(backend: string, walk: Walk, nfc: string -> string, now: nat)
      requires Sound()
      modifies index
      ensures Sound() && old(index.log) <= index.log
      ensures forall l :: Lookup(index.path, l) == ScannedAt(old(index.path), backend, walk, nfc, l)
    {
      Ingest(backend, walk.AllRows(), now);
      if walk.files.Some? && !walk.rootError && walk.complete {
        RemoveMissing(backend, walk.files.value, walk.badDirs, nfc, now);
      }
    }
  }

  /** One entry's unseen places gone. */
  function Sifted(path: PathMap, id: string, backend: string, files: seq<Row>, badDirs: seq<string>,
                  nfc: string -> string): PathMap {
    map l | l in path && (path[l] == id ==> Kept(l, backend, files, badDirs, nfc)) :: path[l]
  }

  /** The unseen places of every entry but those still `left` gone. */
  function Sieved(path: PathMap, left: set<string>, backend: string, files: seq<Row>, badDirs: seq<string>,
                  nfc: string -> string): PathMap {
    map l | l in path && (path[l] in left || Kept(l, backend, files, badDirs, nfc)) :: path[l]
  }

  lemma SieveEnds(path: PathMap, left: set<string>, backend: string, files: seq<Row>, badDirs: seq<string>, nfc: string -> string)
    requires forall l | l in path :: path[l] in left
    ensures Sieved(path, left, backend, files, badDirs, nfc) == path
    ensures Sieved(path, {}, backend, files, badDirs, nfc) == map l | l in path && Kept(l, backend, files, badDirs, nfc) :: path[l]
  {
  }

  lemma SieveStep(path: PathMap, left: set<string>, id: string, backend: string, files: seq<Row>,
                  badDirs: seq<string>, nfc: string -> string)
    requires id in left
    ensures Sifted(Sieved(path, left, backend, files, badDirs, nfc), id, backend, files, badDirs, nfc) ==
            Sieved(path, left - {id}, backend, files, badDirs, nfc)
  {
  }

  function KeptOnly(locs: seq<Loc>, backend: string, files: seq<Row>, badDirs: seq<string>, nfc: string -> string): (r: seq<Loc>)
    ensures forall l :: l in r <==> l in locs && Kept(l, backend, files, badDirs, nfc)
    ensures |r| <= |locs|
  {
    if locs == [] then []
    else
      var rest := KeptOnly(locs[1..], backend, files, badDirs, nfc);
      if Kept(locs[0], backend, files, badDirs, nfc) then [locs[0]] + rest else rest
  }

  lemma {:induction false} KeptAll(locs: seq<Loc>, backend: string, files: seq<Row>, badDirs: seq<string>, nfc: string -> string)
    requires |KeptOnly(locs, backend, files, badDirs, nfc)| == |locs|
    ensures forall l | l in locs :: Kept(l, backend, files, badDirs, nfc)
  {
    if locs != [] { KeptAll(locs[1..], backend, files, badDirs, nfc); }
  }
}
