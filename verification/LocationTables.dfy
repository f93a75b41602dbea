/** The two tables of the location index as values, the log entries one
    mutation produces, and when the tables stay inverse to each other. */
module LocationTables {
  import opened Options
  import opened ChangeLog

  /** `options.rename`: fold a removed+added pair on one backend into one entry. */
  datatype RenameHint = RenameHint(backend: string, from: string, to: string)

  /** id → its locations in list order, and place → id. */
  datatype Tables = Tables(meta: map<string, seq<Loc>>, path: PathMap) {

    function LocationsOf(id: string): seq<Loc> {
      if id in meta then meta[id] else []
    }

    /** No path entry points at a missing id, or at one that does not list the place. */
    predicate NoDangling() {
      forall l | l in path :: path[l] in meta && l in meta[path[l]]
    }

    /** The tables are exact inverses: every listed place is owned by the id that lists it. */
    predicate Inverse() {
      && NoDangling()
      && forall id, l | id in meta && l in meta[id] :: l in path && path[l] == id
    }

    predicate NoEmptyEntry() {
      forall id | id in meta :: meta[id] != []
    }

    /** No place in `locs` belongs to another id. */
    predicate Unclaimed(id: string, locs: seq<Loc>) {
      forall l | l in locs :: l in path ==> path[l] == id
    }
  }

  // ── What a put or delete does to the tables ───────────────────────────────

  function PathAfterPut(path: PathMap, id: string, before: seq<Loc>, after: seq<Loc>): PathMap {
    map l | l in path.Keys + (set x | x in after) && (l in after || l !in before)
      :: if l in after then id else path[l]
  }

  function PutTables(t: Tables, id: string, locs: seq<Loc>): Tables {
    Tables(t.meta[id := locs], PathAfterPut(t.path, id, t.LocationsOf(id), locs))
  }

  function DeleteTables(t: Tables, id: string): Tables {
    if id in t.meta then Tables(t.meta - {id}, t.path - (set l | l in t.meta[id])) else t
  }

  /** After a put the id lists exactly its new places and each of them points to
      it; places it gave up point nowhere, and no other id or place changes. */
  lemma PutRecords(t: Tables, id: string, locs: seq<Loc>)
    ensures var u := PutTables(t, id, locs);
            && id in u.meta && u.meta[id] == locs
            && (forall x | x != id :: u.LocationsOf(x) == t.LocationsOf(x))
            && (forall l | l in locs :: l in u.path && u.path[l] == id)
            && (forall l | l !in locs && l in t.LocationsOf(id) :: l !in u.path)
            && (forall l | l !in locs && l !in t.LocationsOf(id) :: Lookup(u.path, l) == Lookup(t.path, l))
  {
  }

  /** After a delete the id is gone and its places point nowhere; nothing else changes. */
  lemma DeleteForgets(t: Tables, id: string)
    ensures var u := DeleteTables(t, id);
            && id !in u.meta
            && (forall x | x != id :: u.LocationsOf(x) == t.LocationsOf(x))
            && (forall l :: Lookup(u.path, l) == if l in t.LocationsOf(id) then None else Lookup(t.path, l))
  {
  }

  /** Any put leaves every path entry pointing at a live id that lists it. */
  lemma PutNeverDangles(t: Tables, id: string, locs: seq<Loc>)
    requires t.NoDangling()
    ensures PutTables(t, id, locs).NoDangling()
  {
  }

  /** Any delete too, even when another id had taken over one of the places. */
  lemma DeleteNeverDangles(t: Tables, id: string)
    requires t.NoDangling()
    ensures DeleteTables(t, id).NoDangling()
  {
  }

  /** A put keeps the tables inverse exactly when it claims nobody else's place. */
  lemma PutInverseExact(t: Tables, id: string, locs: seq<Loc>)
    requires t.Inverse()
    ensures PutTables(t, id, locs).Inverse() <==> t.Unclaimed(id, locs)
  {
    var u := PutTables(t, id, locs);
    if !t.Unclaimed(id, locs) {
      var l :| l in locs && l in t.path && t.path[l] != id;
      var other := t.path[l];
      assert other in u.meta && l in u.meta[other] && u.path[l] == id;
    }
  }

  lemma DeleteKeepsInverse(t: Tables, id: string)
    requires t.Inverse()
    ensures DeleteTables(t, id).Inverse()
  {
  }

  // ── The entries a mutation logs ───────────────────────────────────────────

  predicate AllDifferent(s: seq<Loc>) {
    forall i, j | 0 <= i < j < |s| :: s[i] != s[j]
  }

  /** First occurrences only, in order (a `Map` keyed by place). */
  function Dedup(s: seq<Loc>): (r: seq<Loc>)
    ensures forall l :: l in r <==> l in s
    ensures AllDifferent(r)
  {
    if s == [] then []
    else
      var init := Dedup(s[..|s| - 1]);
      assert s == s[..|s| - 1] + [s[|s| - 1]];
      if s[|s| - 1] in init then init else init + [s[|s| - 1]]
  }

  function Minus(s: seq<Loc>, t: seq<Loc>): (r: seq<Loc>)
    ensures forall l :: l in r <==> l in s && l !in t
    ensures (forall l | l in s :: l in t) ==> r == []
    ensures AllDifferent(s) ==> AllDifferent(r)
  {
    if s == [] then []
    else
      assert AllDifferent(s) ==> AllDifferent(s[..|s| - 1]);
      var init := Minus(s[..|s| - 1], t);
      assert s == s[..|s| - 1] + [s[|s| - 1]];
      if s[|s| - 1] in t then init else init + [s[|s| - 1]]
  }

  function Removed(before: seq<Loc>, after: seq<Loc>): seq<Loc> { Minus(Dedup(before), after) }

  function Added(before: seq<Loc>, after: seq<Loc>): seq<Loc> { Minus(Dedup(after), before) }

  /** Does the hint name a place this put removes and one it adds? */
  predicate Pairs(before: seq<Loc>, after: seq<Loc>, rename: Option<RenameHint>) {
    && rename.Some?
    && Loc(rename.value.backend, rename.value.from) in Removed(before, after)
    && Loc(rename.value.backend, rename.value.to) in Added(before, after)
  }

  /** The removed places that get a `delete` entry: all but a paired source. */
  function Dropped(before: seq<Loc>, after: seq<Loc>, rename: Option<RenameHint>): seq<Loc> {
    if Pairs(before, after, rename)
    then Minus(Removed(before, after), [Loc(rename.value.backend, rename.value.from)])
    else Removed(before, after)
  }

  function DeleteChange(id: string, l: Loc): Change { Change(l, Delete, id) }

  function PutChange(id: string, l: Loc, paired: bool, rename: Option<RenameHint>): Change
    requires paired ==> rename.Some?
  {
    if paired && l == Loc(rename.value.backend, rename.value.to)
    then Change(l, Rename(rename.value.from), id)
    else Change(l, Put, id)
  }

  function Deletes(id: string, locs: seq<Loc>): seq<Change> {
    seq(|locs|, i requires 0 <= i < |locs| => DeleteChange(id, locs[i]))
  }

  function Puts(id: string, locs: seq<Loc>, paired: bool, rename: Option<RenameHint>): seq<Change>
    requires paired ==> rename.Some?
  {
    seq(|locs|, i requires 0 <= i < |locs| => PutChange(id, locs[i], paired, rename))
  }

  function Diff(id: string, before: seq<Loc>, after: seq<Loc>, rename: Option<RenameHint>): seq<Change> {
    Deletes(id, Dropped(before, after, rename))
    + Puts(id, Added(before, after), Pairs(before, after, rename), rename)
  }

  lemma DiffWellFormed(id: string, before: seq<Loc>, after: seq<Loc>, rename: Option<RenameHint>)
    ensures forall i | 0 <= i < |Diff(id, before, after, rename)| :: Diff(id, before, after, rename)[i].WellFormed()
  {
  }

  /** The places one put logs are pairwise distinct. */
  lemma DiffDistinct(id: string, before: seq<Loc>, after: seq<Loc>, rename: Option<RenameHint>)
    ensures var d := Diff(id, before, after, rename);
            forall i, j | 0 <= i < j < |d| :: d[i].loc != d[j].loc
  {
    var d := Diff(id, before, after, rename);
    var gone, fresh' := Dropped(before, after, rename), Added(before, after);
    JoinedDistinct(gone, fresh');
    LogLocs(id, gone, fresh', Pairs(before, after, rename), rename);
    forall i, j | 0 <= i < j < |d| ensures d[i].loc != d[j].loc {
      assert (gone + fresh')[i] != (gone + fresh')[j];
    }
  }

  lemma LogLocs(id: string, gone: seq<Loc>, added: seq<Loc>, paired: bool, rename: Option<RenameHint>)
    requires paired ==> rename.Some?
    ensures var d := Deletes(id, gone) + Puts(id, added, paired, rename);
            |d| == |gone + added| && forall i | 0 <= i < |d| :: d[i].loc == (gone + added)[i]
  {
    var d := Deletes(id, gone) + Puts(id, added, paired, rename);
    forall i | 0 <= i < |d| ensures d[i].loc == (gone + added)[i] {
      if i < |gone| {
        assert d[i] == Deletes(id, gone)[i];
      } else {
        assert d[i] == Puts(id, added, paired, rename)[i - |gone|];
      }
    }
  }

  lemma JoinedDistinct(a: seq<Loc>, b: seq<Loc>)
    requires AllDifferent(a) && AllDifferent(b) && forall l | l in b :: l !in a
    ensures AllDifferent(a + b)
  {
    forall i, j | 0 <= i < j < |a + b| ensures (a + b)[i] != (a + b)[j] {
      if i < |a| <= j { assert b[j - |a|] !in a; }
    }
  }

  // ── Entries explain the path table ────────────────────────────────────────

  lemma {:induction false} ApplyDeletes(m: PathMap, id: string, locs: seq<Loc>)
    ensures ApplyAll(m, Deletes(id, locs)) == m - (set l | l in locs)
  {
    if locs != [] {
      var init := locs[..|locs| - 1];
      assert Deletes(id, locs)[..|locs| - 1] == Deletes(id, init);
      ApplyDeletes(m, id, init);
      assert locs == init + [locs[|locs| - 1]];
    }
  }

  function WithPuts(m: PathMap, id: string, locs: seq<Loc>, gone: set<Loc>): PathMap {
    map l | l in m.Keys + (set x | x in locs) && (l in locs || l !in gone)
      :: if l in locs then id else m[l]
  }

  /** Where a paired rename takes bytes from, once its entry is among `locs`. */
  function Vacated(locs: seq<Loc>, paired: bool, rename: Option<RenameHint>): set<Loc>
    requires paired ==> rename.Some?
  {
    if paired && Loc(rename.value.backend, rename.value.to) in locs
    then {Loc(rename.value.backend, rename.value.from)} else {}
  }

  lemma {:induction false} ApplyPuts(m: PathMap, id: string, locs: seq<Loc>, paired: bool, rename: Option<RenameHint>)
    requires paired ==> rename.Some? && Loc(rename.value.backend, rename.value.from) !in locs
    ensures ApplyAll(m, Puts(id, locs, paired, rename)) == WithPuts(m, id, locs, Vacated(locs, paired, rename))
  {
    var puts := Puts(id, locs, paired, rename);
    if locs == [] {
      assert WithPuts(m, id, locs, {}) == m;
    } else {
      var last, init := locs[|locs| - 1], locs[..|locs| - 1];
      assert locs == init + [last];
      assert puts[..|locs| - 1] == Puts(id, init, paired, rename);
      ApplyPuts(m, id, init, paired, rename);
      assert puts[|locs| - 1] == PutChange(id, last, paired, rename);
      ApplyPutStep(m, id, init, last, paired, rename);
    }
  }

  lemma ApplyPutStep(m: PathMap, id: string, init: seq<Loc>, last: Loc, paired: bool, rename: Option<RenameHint>)
    requires paired ==> rename.Some? && Loc(rename.value.backend, rename.value.from) !in init + [last]
    ensures Apply(WithPuts(m, id, init, Vacated(init, paired, rename)), PutChange(id, last, paired, rename)) ==
            WithPuts(m, id, init + [last], Vacated(init + [last], paired, rename))
  {
    var got := Apply(WithPuts(m, id, init, Vacated(init, paired, rename)), PutChange(id, last, paired, rename));
    var want := WithPuts(m, id, init + [last], Vacated(init + [last], paired, rename));
    forall l ensures Lookup(got, l) == Lookup(want, l) {
    }
    MapsAgree(got, want);
  }

  /** The path table after the entries of one put: dropped places go, added ones come. */
  function Patched(t: Tables, id: string, locs: seq<Loc>, rename: Option<RenameHint>): PathMap {
    var before := t.LocationsOf(id);
    var added := Added(before, locs);
    WithPuts(t.path - (set l | l in Dropped(before, locs, rename)), id, added, Vacated(added, Pairs(before, locs, rename), rename))
  }

  predicate StillOwns(t: Tables, id: string, l: Loc) {
    l in t.path && t.path[l] == id
  }

  /** No place the put keeps has been taken over by another id. */
  predicate Undisturbed(t: Tables, id: string, locs: seq<Loc>) {
    forall l | l in t.LocationsOf(id) && l in locs :: StillOwns(t, id, l)
  }

  lemma InverseIsUndisturbed(t: Tables, id: string, locs: seq<Loc>)
    requires t.Inverse()
    ensures Undisturbed(t, id, locs)
  {
  }

  /** The entries of one put, applied in order, give the new path table exactly
      when no place it keeps has been taken over by another id meanwhile. */
  lemma DiffExplainsExact(t: Tables, id: string, locs: seq<Loc>, rename: Option<RenameHint>)
    ensures Undisturbed(t, id, locs) <==>
            ApplyAll(t.path, Diff(id, t.LocationsOf(id), locs, rename)) == PutTables(t, id, locs).path
  {
    DiffApplied(t, id, locs, rename);
    if Undisturbed(t, id, locs) { DiffReaches(t, id, locs, rename); } else { DiffMisses(t, id, locs, rename); }
  }

  lemma DiffApplied(t: Tables, id: string, locs: seq<Loc>, rename: Option<RenameHint>)
    ensures ApplyAll(t.path, Diff(id, t.LocationsOf(id), locs, rename)) == Patched(t, id, locs, rename)
  {
    var before := t.LocationsOf(id);
    var dropped, added, paired := Dropped(before, locs, rename), Added(before, locs), Pairs(before, locs, rename);
    ApplyAllConcat(t.path, Deletes(id, dropped), Puts(id, added, paired, rename));
    ApplyDeletes(t.path, id, dropped);
    ApplyPuts(t.path - (set l | l in dropped), id, added, paired, rename);
  }

  lemma DiffReaches(t: Tables, id: string, locs: seq<Loc>, rename: Option<RenameHint>)
    requires Undisturbed(t, id, locs)
    ensures Patched(t, id, locs, rename) == PutTables(t, id, locs).path
  {
    var got, want := Patched(t, id, locs, rename), PutTables(t, id, locs).path;
    forall l ensures Lookup(got, l) == Lookup(want, l) {
      DiffAt(t, id, locs, rename, l);
    }
    MapsAgree(got, want);
  }

  lemma DiffMisses(t: Tables, id: string, locs: seq<Loc>, rename: Option<RenameHint>)
    requires !Undisturbed(t, id, locs)
    ensures Patched(t, id, locs, rename) != PutTables(t, id, locs).path
  {
    var l :| l in t.LocationsOf(id) && l in locs && !StillOwns(t, id, l);
    DiffAt(t, id, locs, rename, l);
    assert Lookup(PutTables(t, id, locs).path, l) == Some(id);
  }

  lemma DiffAt(t: Tables, id: string, locs: seq<Loc>, rename: Option<RenameHint>, l: Loc)
    ensures var before := t.LocationsOf(id);
            Lookup(Patched(t, id, locs, rename), l) == if l in locs && l !in before then Some(id)
                                                       else if l in before && l !in locs then None
                                                       else Lookup(t.path, l)
  {
  }
}
