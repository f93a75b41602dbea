/** Deleted and overwritten files: trash items, the shared pool of retained
    bytes they refer to, and what discarding one may take away. */
module Trash {
  import opened Options
  import opened ChangeLog

  datatype State = Pending | Active | Restored | Discarding | Discarded

  /** One deletion. A pinned item has its own cached bytes; the others share the pool. */
  datatype Item = Item(address: Loc, sha: string, pinned: bool, state: State) {
    /** Can it still be restored? */
    predicate Live() { state.Pending? || state.Active? }

    /** Does it count when another item asks whether the bytes are still needed? */
    predicate Refers() { !state.Discarded? && !state.Restored? }
  }

  /** What is known about one digest: places it was kept for, those kept as
      overwritten versions, and the backends holding a copy. */
  datatype Record = Record(keys: set<Loc>, versionKeys: set<Loc>, backends: set<string>)

  datatype Copy = Copy(backend: string, sha: string)

  /** Items by id, records by digest, copies on disk, ids that somebody has read
      as pending and is about to mark active, and the discards that are dropping copies. */
  datatype World = World(
    items: map<nat, Item>,
    records: map<string, Record>,
    copies: set<Copy>,
    finishing: set<nat>,
    dropping: set<nat>)

  function RecordOf(w: World, sha: string): Record {
    if sha in w.records then w.records[sha] else Record({}, {}, {})
  }

  // ── Steps ─────────────────────────────────────────────────────────────────

  /** The digest lock is free: no discard is dropping these bytes. */
  predicate Unlocked(w: World, sha: string) {
    forall id | id in w.dropping && id in w.items :: w.items[id].sha != sha
  }

  /** Copies the bytes into the pool for `at`. */
  function Retain(w: World, at: Loc, sha: string, version: bool): World {
    var r := RecordOf(w, sha);
    w.(copies := w.copies + {Copy(at.backend, sha)},
       records := w.records[sha := Record(r.keys + {at}, if version then r.versionKeys + {at} else r.versionKeys,
                                          r.backends + {at.backend})])
  }

  /** A delete: retain, and publish the pending item under the same lock. */
  function Prepare(w: World, id: nat, at: Loc, sha: string): World {
    if id in w.items || !Unlocked(w, sha) then w
    else
      var r := Retain(w, at, sha, false);
      r.(items := w.items[id := Item(at, sha, false, Pending)], finishing := w.finishing + {id})
  }

  /** An overwrite: retain the version that is about to go. */
  function KeepVersion(w: World, at: Loc, sha: string): World {
    if !Unlocked(w, sha) then w else Retain(w, at, sha, true)
  }

  /** The overwritten file itself goes to the trash after its version was retained. */
  function Capture(w: World, id: nat, at: Loc, sha: string): World {
    if id in w.items || sha !in w.records || at !in w.records[sha].versionKeys then w
    else w.(items := w.items[id := Item(at, sha, false, Pending)], finishing := w.finishing + {id})
  }

  /** Somebody reads the item while it is pending, to mark it active later. */
  function ReadPending(w: World, id: nat): World {
    if id in w.items && w.items[id].state.Pending? then w.(finishing := w.finishing + {id}) else w
  }

  /** Writes the item back as it was read, now active, whatever has happened to it since. */
  function Finish(w: World, id: nat): World {
    if id !in w.finishing || id !in w.items then w
    else w.(items := w.items[id := w.items[id].(state := Active)], finishing := w.finishing - {id})
  }

  /** The pool is read from the backends the record names. */
  predicate Readable(w: World, sha: string) {
    sha in w.records && exists at :: at in w.records[sha].keys && Copy(at.backend, sha) in w.copies
  }

  predicate CanRestore(w: World, id: nat) {
    id in w.items && w.items[id].Live() && (w.items[id].pinned || Readable(w, w.items[id].sha))
  }

  /** Puts the bytes back at a free place; the pool keeps its copy. */
  function Restore(w: World, id: nat, free: bool): World {
    if CanRestore(w, id) && free then w.(items := w.items[id := w.items[id].(state := Restored)]) else w
  }

  /** The intent to discard is durable before any bytes go. */
  function BeginDiscard(w: World, id: nat): World {
    if id !in w.items || w.items[id].state.Restored? || w.items[id].state.Discarded? then w
    else w.(items := w.items[id := w.items[id].(state := Discarding)])
  }

  /** Does any other item still refer to the digest (at one place, when given)? */
  predicate HasReference(w: World, sha: string, except: nat, at: Option<Loc>) {
    exists id :: id in w.items && id != except && w.items[id].sha == sha && w.items[id].Refers()
                 && (at.Some? ==> w.items[id].address == at.value)
  }

  /** The places a digest is still kept for once the item no longer counts. */
  function KeysWithout(w: World, id: nat): set<Loc>
    requires id in w.items && w.items[id].sha in w.records
  {
    var item, r := w.items[id], w.records[w.items[id].sha];
    set at | at in r.keys && (at != item.address || HasReference(w, item.sha, id, Some(item.address)) || at in r.versionKeys)
  }

  function Marked(w: World, id: nat): World
    requires id in w.items
  {
    w.(items := w.items[id := w.items[id].(state := Discarded)])
  }

  /** With the digest lock held: shared bytes stay, the last reference starts dropping them. */
  function Decide(w: World, id: nat): World {
    if id !in w.items || !w.items[id].state.Discarding? || !Unlocked(w, w.items[id].sha) then w
    else
      var item := w.items[id];
      if item.pinned || item.sha !in w.records then Marked(w, id)
      else if KeysWithout(w, id) != {} || HasReference(w, item.sha, id, None) then
        Marked(w.(records := w.records[item.sha := w.records[item.sha].(keys := KeysWithout(w, id))]), id)
      else w.(dropping := w.dropping + {id})
  }

  function DropCopy(w: World, id: nat, backend: string): World {
    if id !in w.dropping || id !in w.items then w else w.(copies := w.copies - {Copy(backend, w.items[id].sha)})
  }

  /** Every copy is gone: forget the digest and close the item. */
  function EndDiscard(w: World, id: nat): World {
    if id !in w.dropping || id !in w.items then w
    else Marked(w.(records := w.records - {w.items[id].sha}, dropping := w.dropping - {id}), id)
  }

  datatype Act =
    | ToTrash(id: nat, at: Loc, sha: string)
    | Overwrite(at: Loc, sha: string)
    | CaptureOld(id: nat, at: Loc, sha: string)
    | Pin(id: nat, at: Loc, sha: string)
    | Peek(id: nat)
    | MarkActive(id: nat)
    | PutBack(id: nat, free: bool)
    | Discard(id: nat)
    | DecideBytes(id: nat)
    | Drop(id: nat, backend: string)
    | Close(id: nat)
    | Crash

  function Next(w: World, a: Act): World {
    match a
    case ToTrash(id, at, sha) => Prepare(w, id, at, sha)
    case Overwrite(at, sha) => KeepVersion(w, at, sha)
    case CaptureOld(id, at, sha) => Capture(w, id, at, sha)
    case Pin(id, at, sha) => if id in w.items then w else w.(items := w.items[id := Item(at, sha, true, Pending)])
    case Peek(id) => ReadPending(w, id)
    case MarkActive(id) => Finish(w, id)
    case PutBack(id, free) => Restore(w, id, free)
    case Discard(id) => BeginDiscard(w, id)
    case DecideBytes(id) => Decide(w, id)
    case Drop(id, backend) => DropCopy(w, id, backend)
    case Close(id) => EndDiscard(w, id)
    case Crash => w.(finishing := {}, dropping := {})
  }

  ghost predicate IsRun(run: seq<World>, acts: seq<Act>) {
    && |run| == |acts| + 1
    && forall i | 0 <= i < |acts| :: run[i + 1] == Next(run[i], acts[i])
  }

  // ── Bytes exist while anything needs them ─────────────────────────────────

  /** The pool has what a live item would restore, where it would look. */
  predicate Backed(w: World, id: nat)
    requires id in w.items
  {
    var item := w.items[id];
    item.sha in w.records && item.address in w.records[item.sha].keys && Copy(item.address.backend, item.sha) in w.copies
  }

  ghost predicate ItemsBacked(w: World) {
    forall id | id in w.items && w.items[id].Live() && !w.items[id].pinned :: Backed(w, id)
  }

  predicate VersionBacked(w: World, sha: string, at: Loc)
    requires sha in w.records
  {
    at in w.records[sha].keys && Copy(at.backend, sha) in w.copies
  }

  ghost predicate VersionsBacked(w: World) {
    forall sha, at | sha in w.records && at in w.records[sha].versionKeys :: VersionBacked(w, sha, at)
  }

  /** Nothing else needs the bytes a running discard is dropping, and no two drop the same. */
  ghost predicate SoleDrop(w: World) {
    && (forall id | id in w.dropping :: id in w.items && w.items[id].state.Discarding?
          && (w.items[id].sha in w.records ==> w.records[w.items[id].sha].versionKeys == {}))
    && (forall id, x | id in w.dropping && x in w.items && x != id && id in w.items && w.items[x].sha == w.items[id].sha ::
          (w.items[x].Live() ==> w.items[x].pinned) && x !in w.dropping)
  }

  ghost predicate Safe(w: World) {
    ItemsBacked(w) && VersionsBacked(w) && SoleDrop(w)
  }

  /** Nobody marks active an item that has been restored or discarded meanwhile. */
  ghost predicate Timely(w: World, a: Act) {
    a.MarkActive? && a.id in w.finishing && a.id in w.items ==> w.items[a.id].Live()
  }

  /** Marking an item active keeps the pool safe exactly when it was still live, or needs nothing that is gone. */
  lemma FinishKeepsExactly(w: World, id: nat)
    requires Safe(w) && id in w.finishing && id in w.items
    ensures ItemsBacked(Finish(w, id)) <==> w.items[id].Live() || w.items[id].pinned || Backed(w, id)
  {
    var f := Finish(w, id);
    assert id in f.items && f.items[id].Live();
    if w.items[id].Live() || w.items[id].pinned || Backed(w, id) {
      forall x | x in f.items && f.items[x].Live() && !f.items[x].pinned ensures Backed(f, x) {
        assert x != id ==> w.items[x] == f.items[x];
        assert Backed(w, x);
      }
    } else {
      assert !Backed(f, id);
    }
  }

  lemma RetainKeeps(w: World, at: Loc, sha: string, version: bool)
    requires Safe(w) && Unlocked(w, sha)
    ensures Safe(Retain(w, at, sha, version))
    ensures sha in Retain(w, at, sha, version).records && at in Retain(w, at, sha, version).records[sha].keys
    ensures Copy(at.backend, sha) in Retain(w, at, sha, version).copies
  {
    var r := Retain(w, at, sha, version);
    forall id | id in r.items && r.items[id].Live() && !r.items[id].pinned ensures Backed(r, id) {
      assert Backed(w, id);
    }
  }

  lemma PrepareKeeps(w: World, id: nat, at: Loc, sha: string)
    requires Safe(w)
    ensures Safe(Prepare(w, id, at, sha))
  {
    if id !in w.items && Unlocked(w, sha) {
      RetainKeeps(w, at, sha, false);
      var r, p := Retain(w, at, sha, false), Prepare(w, id, at, sha);
      forall x | x in p.items && p.items[x].Live() && !p.items[x].pinned ensures Backed(p, x) {
        assert x != id ==> Backed(r, x);
      }
    }
  }

  /** Items that change their state without becoming live keep everything safe. */
  lemma RestateKeeps(w: World, id: nat, state: State)
    requires Safe(w) && id in w.items && !(id in w.dropping && state != Discarding)
    requires state.Active? ==> w.items[id].Live()
    requires state.Pending? ==> w.items[id].state.Pending?
    requires state.Discarding? ==> w.items[id].Refers()
    ensures Safe(w.(items := w.items[id := w.items[id].(state := state)]))
  {
    var r := w.(items := w.items[id := w.items[id].(state := state)]);
    forall x | x in r.items && r.items[x].Live() && !r.items[x].pinned ensures Backed(r, x) {
      assert Backed(w, x);
    }
  }

  /** The decision is right: shared or versioned bytes keep their keys, and only an unneeded digest starts dropping. */
  lemma DecideKeeps(w: World, id: nat)
    requires Safe(w)
    ensures Safe(Decide(w, id))
  {
    if id in w.items && w.items[id].state.Discarding? && Unlocked(w, w.items[id].sha) {
      var item := w.items[id];
      if item.pinned || item.sha !in w.records {
        RestateKeeps(w, id, Discarded);
      } else if KeysWithout(w, id) != {} || HasReference(w, item.sha, id, None) {
        TrimKeeps(w, id);
        RestateKeeps(Trimmed(w, id), id, Discarded);
      } else {
        assert w.records[item.sha].versionKeys == {} by {
          forall at | at in w.records[item.sha].versionKeys ensures at in KeysWithout(w, id) {
            assert VersionBacked(w, item.sha, at);
          }
        }
        var d := Decide(w, id);
        forall x | x in d.items && d.items[x].Live() && !d.items[x].pinned ensures Backed(d, x) {
          assert Backed(w, x);
        }
      }
    }
  }

  function Trimmed(w: World, id: nat): World
    requires id in w.items && w.items[id].sha in w.records
  {
    w.(records := w.records[w.items[id].sha := w.records[w.items[id].sha].(keys := KeysWithout(w, id))])
  }

  lemma TrimKeeps(w: World, id: nat)
    requires Safe(w) && id in w.items && w.items[id].state.Discarding? && w.items[id].sha in w.records && Unlocked(w, w.items[id].sha)
    ensures Safe(Trimmed(w, id))
  {
    var t, item := Trimmed(w, id), w.items[id];
    forall x | x in t.items && t.items[x].Live() && !t.items[x].pinned ensures Backed(t, x) {
      assert Backed(w, x);
      if t.items[x].sha == item.sha && t.items[x].address == item.address {
        assert HasReference(w, item.sha, id, Some(item.address));
      }
    }
  }

  lemma DropKeeps(w: World, id: nat, backend: string)
    requires Safe(w)
    ensures Safe(DropCopy(w, id, backend))
  {
    var d := DropCopy(w, id, backend);
    forall x | x in d.items && d.items[x].Live() && !d.items[x].pinned ensures Backed(d, x) {
      assert Backed(w, x);
    }
  }

  lemma EndKeeps(w: World, id: nat)
    requires Safe(w)
    ensures Safe(EndDiscard(w, id))
  {
    var d := EndDiscard(w, id);
    forall x | x in d.items && d.items[x].Live() && !d.items[x].pinned ensures Backed(d, x) {
      assert Backed(w, x);
    }
  }

  lemma StepKeepsSafe(w: World, a: Act)
    requires Safe(w) && Timely(w, a)
    ensures Safe(Next(w, a))
  {
    match a
    case ToTrash(id, at, sha) => PrepareKeeps(w, id, at, sha);
    case Overwrite(at, sha) => if Unlocked(w, sha) { RetainKeeps(w, at, sha, true); }
    case CaptureOld(id, at, sha) => CaptureKeeps(w, id, at, sha);
    case Pin(id, at, sha) => PinKeeps(w, id, at, sha);
    case Peek(id) => SameBytes(w, ReadPending(w, id));
    case MarkActive(id) =>
      if id in w.finishing && id in w.items {
        RestateKeeps(w, id, Active);
        SameBytes(w.(items := w.items[id := w.items[id].(state := Active)]), Finish(w, id));
      }
    case PutBack(id, free) => if CanRestore(w, id) && free { RestateKeeps(w, id, Restored); }
    case Discard(id) => if id in w.items && w.items[id].Refers() { RestateKeeps(w, id, Discarding); }
    case DecideBytes(id) => DecideKeeps(w, id);
    case Drop(id, backend) => DropKeeps(w, id, backend);
    case Close(id) => EndKeeps(w, id);
    case Crash => SameBytes(w, Next(w, a));
  }

  lemma SameBytes(w: World, r: World)
    requires Safe(w) && r.items == w.items && r.records == w.records && r.copies == w.copies
    requires r.dropping <= w.dropping
    ensures Safe(r)
  {
    forall x | x in r.items && r.items[x].Live() && !r.items[x].pinned ensures Backed(r, x) {
      assert Backed(w, x);
    }
  }

  lemma CaptureKeeps(w: World, id: nat, at: Loc, sha: string)
    requires Safe(w)
    ensures Safe(Capture(w, id, at, sha))
  {
    var c := Capture(w, id, at, sha);
    if c != w {
      assert VersionBacked(w, sha, at);
      forall x | x in c.items && c.items[x].Live() && !c.items[x].pinned ensures Backed(c, x) {
        assert x != id ==> Backed(w, x);
      }
    }
  }

  lemma PinKeeps(w: World, id: nat, at: Loc, sha: string)
    requires Safe(w)
    ensures Safe(Next(w, Pin(id, at, sha)))
  {
    var p := Next(w, Pin(id, at, sha));
    forall x | x in p.items && p.items[x].Live() && !p.items[x].pinned ensures Backed(p, x) {
      assert Backed(w, x);
    }
  }

  /** Over every run in which no late finish hits an item already restored or
      discarded, retained bytes exist for every item that can still be restored
      and for every recorded version, through crashes and half-done drops. */
  lemma {:induction false} BytesOutliveReferences(run: seq<World>, acts: seq<Act>, n: nat)
    requires IsRun(run, acts) && n <= |acts| && Safe(run[0])
    requires forall i | 0 <= i < |acts| :: Timely(run[i], acts[i])
    ensures Safe(run[n])
  {
    if n > 0 {
      BytesOutliveReferences(run, acts, n - 1);
      StepKeepsSafe(run[n - 1], acts[n - 1]);
      assert run[n - 1 + 1] == Next(run[n - 1], acts[n - 1]);
    }
  }

  /** The item records the deletion of this content at this place. */
  predicate Records(w: World, id: nat, at: Loc, sha: string) {
    id in w.items && w.items[id].address == at && w.items[id].sha == sha
  }

  /** Nothing was taken from any other item, digest or copy. */
  ghost predicate OthersKept(w: World, r: World, id: nat) {
    && (forall x | x != id :: (x in r.items <==> x in w.items) && (x in w.items ==> r.items[x] == w.items[x]))
    && w.copies <= r.copies && w.records.Keys <= r.records.Keys
    && forall sha | sha in w.records :: w.records[sha].keys <= r.records[sha].keys && w.records[sha].versionKeys <= r.records[sha].versionKeys
  }

  /** A delete with free bytes publishes a pending item for its place and content, and it can be restored. */
  lemma DeletePublishes(w: World, id: nat, at: Loc, sha: string)
    requires id !in w.items && Unlocked(w, sha)
    ensures var r := Next(w, ToTrash(id, at, sha));
            && Records(r, id, at, sha) && r.items[id].state.Pending? && CanRestore(r, id) && id in r.finishing
            && OthersKept(w, r, id) && r.copies == w.copies + {Copy(at.backend, sha)}
  {
    var r := Next(w, ToTrash(id, at, sha));
    assert at in r.records[sha].keys && Copy(at.backend, sha) in r.copies;
  }

  /** So does the capture of a version an overwrite has retained before, and a
      deletion with cached bytes of its own. */
  lemma CapturePublishes(w: World, id: nat, at: Loc, sha: string)
    requires id !in w.items && Unlocked(w, sha)
    ensures var r := Next(Next(w, Overwrite(at, sha)), CaptureOld(id, at, sha));
            && Records(r, id, at, sha) && r.items[id].state.Pending? && CanRestore(r, id) && id in r.finishing && OthersKept(w, r, id)
            && VersionKept(r, at, sha)
    ensures var p := Next(w, Pin(id, at, sha));
            Records(p, id, at, sha) && p.items[id].state.Pending? && CanRestore(p, id) && OthersKept(w, p, id) && p.copies == w.copies
  {
    var r := Next(Next(w, Overwrite(at, sha)), CaptureOld(id, at, sha));
    assert at in r.records[sha].keys && Copy(at.backend, sha) in r.copies;
  }

  /** A live item stays restorable, for the same place and content, until somebody
      restores or discards that very item, whatever happens to others with the same bytes. */
  lemma {:induction false} LiveStaysRestorable(run: seq<World>, acts: seq<Act>, id: nat, k: nat, n: nat)
    requires IsRun(run, acts) && k <= n <= |acts| && Safe(run[0])
    requires forall i | 0 <= i < |acts| :: Timely(run[i], acts[i])
    requires id in run[k].items && run[k].items[id].Live()
    requires forall i | k <= i < n :: !(acts[i].Discard? && acts[i].id == id) && !(acts[i].PutBack? && acts[i].id == id)
    ensures Records(run[n], id, run[k].items[id].address, run[k].items[id].sha)
    ensures run[n].items[id].Live() && CanRestore(run[n], id)
    decreases n
  {
    BytesOutliveReferences(run, acts, n);
    if n > k {
      LiveStaysRestorable(run, acts, id, k, n - 1);
      BytesOutliveReferences(run, acts, n - 1);
      LiveStays(run[n - 1], acts[n - 1], id);
      assert run[n - 1 + 1] == Next(run[n - 1], acts[n - 1]);
    }
    LiveItemsRestore(run[n], id);
  }

  /** A file deleted at any point of a run stays restorable, for its own place and
      content, until somebody restores or discards that very item. */
  lemma DeletedStaysRestorable(run: seq<World>, acts: seq<Act>, id: nat, at: Loc, sha: string, k: nat, n: nat)
    requires IsRun(run, acts) && k < n <= |acts| && Safe(run[0])
    requires forall i | 0 <= i < |acts| :: Timely(run[i], acts[i])
    requires acts[k] == ToTrash(id, at, sha) && id !in run[k].items && Unlocked(run[k], sha)
    requires forall i | k < i < n :: !(acts[i].Discard? && acts[i].id == id) && !(acts[i].PutBack? && acts[i].id == id)
    ensures Records(run[n], id, at, sha) && run[n].items[id].Live() && CanRestore(run[n], id)
  {
    DeletePublishes(run[k], id, at, sha);
    assert run[k + 1] == Next(run[k], acts[k]);
    LiveStaysRestorable(run, acts, id, k + 1, n);
  }

  lemma LiveStays(w: World, a: Act, id: nat)
    requires Safe(w) && id in w.items && w.items[id].Live()
    requires !(a.Discard? && a.id == id) && !(a.PutBack? && a.id == id)
    ensures Records(Next(w, a), id, w.items[id].address, w.items[id].sha) && Next(w, a).items[id].Live()
  {
  }

  predicate VersionKept(w: World, at: Loc, sha: string) {
    sha in w.records && at in w.records[sha].versionKeys
  }

  lemma VersionStays(w: World, a: Act, at: Loc, sha: string)
    requires Safe(w) && VersionKept(w, at, sha)
    ensures VersionKept(Next(w, a), at, sha)
  {
  }

  /** The version an overwrite retained outlives every delete, restore and
      discard of the same bytes: its copy stays on its backend. */
  lemma {:induction false} OverwrittenVersionStays(run: seq<World>, acts: seq<Act>, at: Loc, sha: string, n: nat)
    requires IsRun(run, acts) && 0 < n <= |acts| && Safe(run[0])
    requires forall i | 0 <= i < |acts| :: Timely(run[i], acts[i])
    requires acts[0] == Overwrite(at, sha) && Unlocked(run[0], sha)
    ensures VersionKept(run[n], at, sha) && Copy(at.backend, sha) in run[n].copies && Readable(run[n], sha)
  {
    assert run[0 + 1] == Next(run[0], acts[0]);
    BytesOutliveReferences(run, acts, n);
    if n > 1 {
      OverwrittenVersionStays(run, acts, at, sha, n - 1);
      BytesOutliveReferences(run, acts, n - 1);
      VersionStays(run[n - 1], acts[n - 1], at, sha);
      assert run[n - 1 + 1] == Next(run[n - 1], acts[n - 1]);
    }
    assert VersionBacked(run[n], sha, at);
  }

  // ── When finishes are never late ──────────────────────────────────────────

  /** Discards and restores of an item wait until nobody is about to mark it active. */
  predicate Patient(w: World, a: Act) {
    && (a.Discard? ==> a.id !in w.finishing)
    && (a.PutBack? ==> a.id !in w.finishing)
  }

  ghost predicate FinishersLive(w: World) {
    forall id | id in w.finishing && id in w.items :: w.items[id].Live()
  }

  /** Patience is enough: then no finish is ever late, and so every run is safe. */
  lemma {:induction false} PatienceIsEnough(run: seq<World>, acts: seq<Act>, n: nat)
    requires IsRun(run, acts) && n <= |acts| && Safe(run[0]) && FinishersLive(run[0])
    requires forall i | 0 <= i < |acts| :: Patient(run[i], acts[i])
    ensures Safe(run[n]) && FinishersLive(run[n])
  {
    if n > 0 {
      PatienceIsEnough(run, acts, n - 1);
      StepKeepsSafe(run[n - 1], acts[n - 1]);
      PatientStep(run[n - 1], acts[n - 1]);
      assert run[n - 1 + 1] == Next(run[n - 1], acts[n - 1]);
    }
  }

  lemma PatientStep(w: World, a: Act)
    requires Safe(w) && FinishersLive(w) && Patient(w, a)
    ensures FinishersLive(Next(w, a))
  {
    if a.DecideBytes? && a.id in w.items && a.id in w.finishing { assert w.items[a.id].Live(); }
  }

  // ── A discard that has begun is final, unless a finish comes late ─────────

  predicate Gone(w: World, id: nat) {
    id in w.items && (w.items[id].state.Discarding? || w.items[id].state.Discarded?)
  }

  /** Once a discard has begun with no finish outstanding, the item is never
      live again and no attempt to restore it does anything, crashes or not. */
  lemma {:induction false} DiscardIsFinal(run: seq<World>, acts: seq<Act>, id: nat, n: nat)
    requires IsRun(run, acts) && n <= |acts|
    requires Gone(run[0], id) && id !in run[0].finishing
    ensures Gone(run[n], id) && id !in run[n].finishing
    ensures !CanRestore(run[n], id) && forall free :: Restore(run[n], id, free) == run[n]
  {
    if n > 0 {
      DiscardIsFinal(run, acts, id, n - 1);
      GoneStep(run[n - 1], acts[n - 1], id);
      assert run[n - 1 + 1] == Next(run[n - 1], acts[n - 1]);
    }
  }

  lemma GoneStep(w: World, a: Act, id: nat)
    requires Gone(w, id) && id !in w.finishing
    ensures Gone(Next(w, a), id) && id !in Next(w, a).finishing
  {
  }

  /** One step can make a discarded item live again: a finish that was
      outstanding. It is restorable then exactly when its bytes happen to survive. */
  lemma ComesBackExactly(w: World, a: Act, id: nat)
    requires Gone(w, id)
    ensures !Gone(Next(w, a), id) <==> a == MarkActive(id) && id in w.finishing
    ensures !Gone(Next(w, a), id) ==>
              (CanRestore(Next(w, a), id) <==> w.items[id].pinned || Readable(w, w.items[id].sha))
  {
    if a == MarkActive(id) && id in w.finishing {
      var f := Finish(w, id);
      assert f.items[id].Live() && f.records == w.records && f.copies == w.copies;
      assert Readable(f, w.items[id].sha) <==> Readable(w, w.items[id].sha);
    }
  }

  /** A listing that reads a pending item, is overtaken by its discard, and then
      marks it active: the trash shows an item whose bytes are gone. */
  lemma LateFinishShowsAGhost(at: Loc, sha: string)
    ensures var w0 := World(map[0 := Item(at, sha, false, Pending)], map[sha := Record({at}, {}, {at.backend})],
                            {Copy(at.backend, sha)}, {}, {});
            var w1 := BeginDiscard(ReadPending(w0, 0), 0);
            var w2 := EndDiscard(DropCopy(Decide(w1, 0), 0, at.backend), 0);
            var w3 := Finish(w2, 0);
            && Safe(w0) && CanRestore(w0, 0)
            && w3.items[0].state == Active && w3.copies == {} && !CanRestore(w3, 0) && !ItemsBacked(w3)
  {
    var w0 := World(map[0 := Item(at, sha, false, Pending)], map[sha := Record({at}, {}, {at.backend})],
                    {Copy(at.backend, sha)}, {}, {});
    var w1 := BeginDiscard(ReadPending(w0, 0), 0);
    assert KeysWithout(w1, 0) == {};
    var w2 := EndDiscard(DropCopy(Decide(w1, 0), 0, at.backend), 0);
    var w3 := Finish(w2, 0);
    assert Backed(w0, 0);
    assert !Backed(w3, 0);
  }

  /** A restore succeeds exactly for an item that is pending or active, whose own
      bytes or a copy for one of the digest's places are there, onto a free place;
      it changes the item's state and nothing else. */
  lemma RestoreExact(w: World, id: nat, free: bool)
    ensures var may := && free && id in w.items && (w.items[id].state == Pending || w.items[id].state == Active)
                       && (w.items[id].pinned
                           || (w.items[id].sha in w.records
                               && exists at :: at in w.records[w.items[id].sha].keys && Copy(at.backend, w.items[id].sha) in w.copies));
            Restore(w, id, free) == if may then w.(items := w.items[id := w.items[id].(state := Restored)]) else w
  {
  }

  /** A digest stays kept for a place exactly while an overwritten version, or some
      other item of that place that is neither restored nor discarded, is its reason;
      other places are not looked at. */
  lemma KeysWithoutExact(w: World, id: nat, at: Loc)
    requires id in w.items && w.items[id].sha in w.records
    ensures var item, r := w.items[id], w.records[w.items[id].sha];
            at in KeysWithout(w, id) <==>
            && at in r.keys
            && (at != item.address || at in r.versionKeys
                || exists x :: x in w.items && x != id && w.items[x].sha == item.sha && w.items[x].address == at
                               && w.items[x].state != Restored && w.items[x].state != Discarded)
  {
    var item := w.items[id];
    if x :| x in w.items && x != id && w.items[x].sha == item.sha && w.items[x].address == at
            && w.items[x].state != Restored && w.items[x].state != Discarded {
      assert w.items[x].Refers();
    }
  }

  /** In a safe world every live item can be restored to a free place, and doing
      so takes nothing from any other item. */
  lemma LiveItemsRestore(w: World, id: nat)
    requires Safe(w) && id in w.items && w.items[id].Live()
    ensures CanRestore(w, id)
    ensures var r := Restore(w, id, true);
            && r.items[id].state.Restored? && r.copies == w.copies && r.records == w.records
            && forall x | x != id :: CanRestore(r, x) <==> CanRestore(w, x)
  {
    if !w.items[id].pinned { assert Backed(w, id); }
    var r := Restore(w, id, true);
    forall x | x != id && x in w.items ensures Readable(r, w.items[x].sha) <==> Readable(w, w.items[x].sha) {
    }
  }

  /** Discarding one item frees the bytes exactly when no other item refers to
      the digest and no overwritten version was kept of it, as long as every
      place on its record still has its reason. */
  lemma DecideExact(w: World, id: nat)
    requires id in w.items && w.items[id].state.Discarding? && !w.items[id].pinned && Unlocked(w, w.items[id].sha)
    requires w.items[id].sha in w.records
    requires VersionsBacked(w)
    requires forall at | at in w.records[w.items[id].sha].keys ::
               at == w.items[id].address || at in w.records[w.items[id].sha].versionKeys
               || HasReference(w, w.items[id].sha, id, Some(at))
    ensures id in Decide(w, id).dropping <==>
            !HasReference(w, w.items[id].sha, id, None) && w.records[w.items[id].sha].versionKeys == {}
  {
    var item := w.items[id];
    forall at | HasReference(w, item.sha, id, Some(at)) ensures HasReference(w, item.sha, id, None) {
    }
    if w.records[item.sha].versionKeys != {} {
      var at :| at in w.records[item.sha].versionKeys;
      assert VersionBacked(w, item.sha, at);
      assert at in KeysWithout(w, id);
    }
  }
}
