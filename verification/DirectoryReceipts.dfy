/** The durable receipt of a directory rename: what each attempt does, and what
    any mix of attempts, crashes and outside changes can and cannot do. */
module DirectoryReceipts {
  import opened Options
  import opened ChangeLog
  import opened LocationTables
  import opened IndexTransactions
  import opened LocationIndex
  import opened DirectoryRename
  import Listing

  /** The source directory's inode and the indexed keys below it when the operation began. */
  datatype Receipt = Receipt(inode: nat, keys: seq<string>, done: bool)

  /** How far the running attempt is; a crash or a refusal goes back to `Idle`. */
  datatype Phase = Idle | Looked(seen: Option<nat>) | Clear | Placed

  /** Directory inodes by path, the index, the receipt, and every inode this operation has moved. */
  datatype Dir = Dir(tree: map<string, nat>, tables: Tables, receipt: Option<Receipt>, phase: Phase, moved: seq<nat>)

  function InodeAt(tree: map<string, nat>, dir: string): Option<nat> {
    if dir in tree then Some(tree[dir]) else None
  }

  /** What an attempt records: the keys a listing of the source shows. */
  ghost predicate Lists(trip: Trip, path: PathMap, keys: seq<string>) {
    && trip.Recordable(keys)
    && forall k :: k in keys <==> Loc(trip.backend, k) in path && Listing.Listable(k, trip.from + "/")
  }

  // ── One attempt, step by step ─────────────────────────────────────────────

  /** Reads the receipt and the source directory; a first attempt writes the receipt. */
  function Look(d: Dir, trip: Trip, listed: seq<string>): Dir {
    if d.receipt.Some? then
      (if d.receipt.value.done then d.(phase := Idle) else d.(phase := Looked(InodeAt(d.tree, trip.from))))
    else if trip.from !in d.tree || trip.to' in d.tree then d.(phase := Idle)
    else d.(receipt := Some(Receipt(d.tree[trip.from], listed, false)), phase := Looked(Some(d.tree[trip.from])))
  }

  /** The source must be the recorded directory and the target absent, or the
      source absent and the target the recorded directory. */
  function Check(d: Dir, trip: Trip): Dir {
    if !d.phase.Looked? || d.receipt.None? then d.(phase := Idle)
    else if d.phase.seen == Some(d.receipt.value.inode) then d.(phase := if trip.to' in d.tree then Idle else Clear)
    else if d.phase.seen.Some? || InodeAt(d.tree, trip.to') != Some(d.receipt.value.inode) then d.(phase := Idle)
    else d.(phase := Placed)
  }

  /** The filesystem rename: moves whatever is at the source now, or fails. */
  function Rename(d: Dir, trip: Trip, ok: bool): Dir {
    if d.phase != Clear then d
    else if !ok || trip.from !in d.tree then d.(phase := Idle)
    else
      d.(tree := (d.tree - {trip.from})[trip.to' := d.tree[trip.from]],
         phase := Placed,
         moved := d.moved + [d.tree[trip.from]])
  }

  predicate Keyed(d: Dir, trip: Trip) {
    d.receipt.Some? ==> trip.Recordable(d.receipt.value.keys)
  }

  /** One transaction re-keys the index and marks the receipt done. */
  function Commit(d: Dir, trip: Trip): Dir
    requires Keyed(d, trip)
  {
    if d.phase != Placed || d.receipt.None? then d.(phase := Idle)
    else
      d.(tables := Rekeyed(d.tables, trip, d.receipt.value.keys),
         receipt := Some(d.receipt.value.(done := true)),
         phase := Idle)
  }

  // ── Runs ──────────────────────────────────────────────────────────────────

  datatype Action =
    | LookUp(listed: seq<string>)
    | CheckEnds
    | MoveTree(ok: bool)
    | Finish
    | Crash
    | Outside(tree: map<string, nat>, tables: Tables)

  ghost predicate Allowed(d: Dir, trip: Trip, a: Action) {
    && (a.LookUp? ==> d.phase.Idle? && Lists(trip, d.tables.path, a.listed))
    && Keyed(d, trip)
  }

  function Next(d: Dir, trip: Trip, a: Action): Dir
    requires Keyed(d, trip)
  {
    match a
    case LookUp(listed) => Look(d, trip, listed)
    case CheckEnds => Check(d, trip)
    case MoveTree(ok) => Rename(d, trip, ok)
    case Finish => Commit(d, trip)
    case Crash => d.(phase := Idle)
    case Outside(tree, tables) => d.(tree := tree, tables := tables)
  }

  /** `run` is a run of the operation: every state follows from the one before by the action between them. */
  ghost predicate IsRun(run: seq<Dir>, acts: seq<Action>, trip: Trip) {
    && |run| == |acts| + 1
    && forall i | 0 <= i < |acts| :: Allowed(run[i], trip, acts[i]) && run[i + 1] == Next(run[i], trip, acts[i])
  }

  /** Nobody else puts this inode back at the source once it has left. */
  predicate NeverBack(run: seq<Dir>, acts: seq<Action>, trip: Trip, inode: nat)
    requires |run| == |acts| + 1
  {
    forall i | 0 <= i < |acts| && acts[i].Outside? ::
      InodeAt(run[i + 1].tree, trip.from) == Some(inode) ==> InodeAt(run[i].tree, trip.from) == Some(inode)
  }

  function Times(moved: seq<nat>, inode: nat): nat {
    if moved == [] then 0
    else Times(moved[..|moved| - 1], inode) + if moved[|moved| - 1] == inode then 1 else 0
  }

  /** However often the operation is retried and wherever it crashes, an inode
      that nobody brings back is moved at most once. */
  lemma {:induction false} MovedAtMostOnce(run: seq<Dir>, acts: seq<Action>, trip: Trip, inode: nat)
    requires IsRun(run, acts, trip) && NeverBack(run, acts, trip, inode) && run[0].moved == [] && trip.Apart()
    ensures var d := run[|acts|];
            && Times(d.moved, inode) <= 1
            && (Times(d.moved, inode) == 1 ==> InodeAt(d.tree, trip.from) != Some(inode))
    decreases |acts|
  {
    if acts != [] {
      var n := |acts| - 1;
      var run', acts' := run[..n + 1], acts[..n];
      MovedAtMostOnce(run', acts', trip, inode);
      assert run[n + 1] == Next(run[n], trip, acts[n]);
      assert run'[n] == run[n];
      var d, e := run[n], run[n + 1];
      if e.moved != d.moved {
        assert e.moved[..|e.moved| - 1] == d.moved;
      }
    }
  }

  /** States `i+1 .. k` belong to one attempt. */
  predicate OneAttempt(run: seq<Dir>, i: nat, k: nat)
    requires k < |run|
  {
    forall n | i < n <= k :: !run[n].phase.Idle?
  }

  /** Where an attempt stands on the way to its rename. */
  predicate Headed(d: Dir, inode: nat) {
    d.receipt.Some? && d.receipt.value.inode == inode && (d.phase == Looked(Some(inode)) || d.phase == Clear)
  }

  lemma HeadedBefore(d: Dir, trip: Trip, a: Action, inode: nat)
    requires Keyed(d, trip) && Headed(Next(d, trip, a), inode) && (a.LookUp? ==> d.phase.Idle?)
    ensures Headed(d, inode) || (a.LookUp? && InodeAt(d.tree, trip.from) == Some(inode))
  {
  }

  /** An attempt on its way to the rename looked at the source earlier and found the recorded directory there. */
  lemma {:induction false} LookedEarlier(run: seq<Dir>, acts: seq<Action>, trip: Trip, inode: nat, k: nat) returns (i: nat)
    requires IsRun(run, acts, trip) && run[0].phase.Idle? && k <= |acts| && Headed(run[k], inode)
    ensures i < k && acts[i].LookUp? && InodeAt(run[i].tree, trip.from) == Some(inode) && OneAttempt(run, i, k)
    decreases k
  {
    assert k > 0;
    assert run[k - 1 + 1] == Next(run[k - 1], trip, acts[k - 1]);
    HeadedBefore(run[k - 1], trip, acts[k - 1], inode);
    if Headed(run[k - 1], inode) {
      i := LookedEarlier(run, acts, trip, inode, k - 1);
    } else {
      i := k - 1;
    }
  }

  /** Whenever anything is moved, the same attempt had found the recorded directory
      at the source; what moves is that directory exactly when nobody changed the
      source between the look and the rename. */
  lemma RenameMovesExactly(run: seq<Dir>, acts: seq<Action>, trip: Trip, k: nat) returns (i: nat)
    requires IsRun(run, acts, trip) && run[0].phase.Idle? && k < |acts|
    requires run[k + 1].moved != run[k].moved
    ensures run[k].receipt.Some? && i < k && acts[i].LookUp? && OneAttempt(run, i, k)
    ensures InodeAt(run[i].tree, trip.from) == Some(run[k].receipt.value.inode)
    ensures run[k + 1].moved == run[k].moved + [run[k].receipt.value.inode] <==>
            InodeAt(run[k].tree, trip.from) == InodeAt(run[i].tree, trip.from)
  {
    PhaseHasReceipt(run, acts, trip, k);
    assert run[k + 1] == Next(run[k], trip, acts[k]);
    var d := run[k];
    assert d.phase == Clear && trip.from in d.tree && run[k + 1].moved == d.moved + [d.tree[trip.from]];
    i := LookedEarlier(run, acts, trip, d.receipt.value.inode, k);
    assert (d.moved + [d.tree[trip.from]])[|d.moved|] == d.tree[trip.from];
    assert (d.moved + [d.receipt.value.inode])[|d.moved|] == d.receipt.value.inode;
  }

  lemma ClearBefore(d: Dir, trip: Trip, a: Action)
    requires Keyed(d, trip) && Next(d, trip, a).phase.Clear?
    ensures d.phase.Clear? || (a.CheckEnds? && trip.to' !in d.tree && d.receipt.Some? && d.phase == Looked(Some(d.receipt.value.inode)))
  {
  }

  /** An attempt about to rename found the target absent. */
  lemma {:induction false} CheckedEarlier(run: seq<Dir>, acts: seq<Action>, trip: Trip, k: nat) returns (j: nat)
    requires IsRun(run, acts, trip) && run[0].phase.Idle? && k <= |acts| && run[k].phase.Clear?
    ensures j < k && acts[j].CheckEnds? && trip.to' !in run[j].tree && OneAttempt(run, j, k)
    decreases k
  {
    assert k > 0;
    assert run[k - 1 + 1] == Next(run[k - 1], trip, acts[k - 1]);
    ClearBefore(run[k - 1], trip, acts[k - 1]);
    if run[k - 1].phase.Clear? {
      j := CheckedEarlier(run, acts, trip, k - 1);
    } else {
      j := k - 1;
    }
  }

  /** The operation changes the tree in one way only: the directory at the source
      goes to the target, after the same attempt had found the target absent. */
  lemma TargetWasAbsent(run: seq<Dir>, acts: seq<Action>, trip: Trip, k: nat) returns (j: nat)
    requires IsRun(run, acts, trip) && run[0].phase.Idle? && k < |acts| && !acts[k].Outside?
    requires run[k + 1].tree != run[k].tree
    ensures j < k && acts[j].CheckEnds? && trip.to' !in run[j].tree && OneAttempt(run, j, k)
    ensures trip.from in run[k].tree && run[k + 1].tree == (run[k].tree - {trip.from})[trip.to' := run[k].tree[trip.from]]
    ensures run[k + 1].moved == run[k].moved + [run[k].tree[trip.from]]
  {
    assert run[k + 1] == Next(run[k], trip, acts[k]);
    j := CheckedEarlier(run, acts, trip, k);
  }

  /** An attempt under way has a receipt. */
  lemma {:induction false} PhaseHasReceipt(run: seq<Dir>, acts: seq<Action>, trip: Trip, n: nat)
    requires IsRun(run, acts, trip) && run[0].phase.Idle? && n <= |acts|
    ensures !run[n].phase.Idle? ==> run[n].receipt.Some?
  {
    if n > 0 {
      PhaseHasReceipt(run, acts, trip, n - 1);
      assert run[n - 1 + 1] == Next(run[n - 1], trip, acts[n - 1]);
    }
  }

  /** Outsiders leave the source alone while an attempt is between its look and its rename. */
  predicate Undisturbed(run: seq<Dir>, acts: seq<Action>, trip: Trip)
    requires |run| == |acts| + 1
  {
    forall i | 0 <= i < |acts| && acts[i].Outside? ::
      (run[i].phase.Looked? || run[i].phase.Clear? ==>
         InodeAt(run[i + 1].tree, trip.from) == InodeAt(run[i].tree, trip.from))
  }

  /** Then no other directory is ever moved either: the operation moves the recorded one, or nothing. */
  ghost predicate Faithful(d: Dir, trip: Trip) {
    && (d.phase.Looked? ==> d.receipt.Some? && d.phase.seen == InodeAt(d.tree, trip.from))
    && (d.phase.Clear? ==> d.receipt.Some? && InodeAt(d.tree, trip.from) == Some(d.receipt.value.inode))
    && (d.receipt.None? ==> d.moved == [])
    && (forall i | 0 <= i < |d.moved| :: d.moved[i] == d.receipt.value.inode)
  }

  lemma {:induction false} OnlyTheRecordedMoves(run: seq<Dir>, acts: seq<Action>, trip: Trip)
    requires IsRun(run, acts, trip) && Undisturbed(run, acts, trip) && trip.Apart()
    requires run[0].moved == [] && run[0].receipt.None? && run[0].phase.Idle?
    ensures Faithful(run[|acts|], trip)
    decreases |acts|
  {
    if acts != [] {
      var n := |acts| - 1;
      OnlyTheRecordedMoves(run[..n + 1], acts[..n], trip);
      assert run[n + 1] == Next(run[n], trip, acts[n]);
    }
  }

  /** A directory that took the recorded one's place at the source blocks the
      operation for as long as it stays: no attempt moves it, re-keys anything or completes. */
  lemma {:induction false} RecreatedSourceBlocks(run: seq<Dir>, acts: seq<Action>, trip: Trip, r: Receipt)
    requires IsRun(run, acts, trip) && run[0].receipt == Some(r) && !r.done && run[0].phase.Idle?
    requires forall i | 0 <= i < |run| :: trip.from in run[i].tree && run[i].tree[trip.from] != r.inode
    ensures var d := run[|acts|];
            && d.receipt == run[0].receipt && d.moved == run[0].moved
            && (d.phase.Idle? || (d.phase.Looked? && d.phase.seen.Some? && d.phase.seen.value != r.inode))
    ensures forall i | 0 <= i < |acts| && !acts[i].Outside? ::
              run[i + 1].tables == run[i].tables && run[i + 1].tree == run[i].tree
    decreases |acts|
  {
    if acts != [] {
      var n := |acts| - 1;
      var run', acts' := run[..n + 1], acts[..n];
      assert forall i | 0 <= i < |run'| :: run'[i] == run[i];
      RecreatedSourceBlocks(run', acts', trip, r);
      assert run[n + 1] == Next(run[n], trip, acts[n]);
    }
  }

  // ── Exactly once ──────────────────────────────────────────────────────────

  function Attempt(d: Dir, trip: Trip, listed: seq<string>, works: bool): Dir
    requires Keyed(d, trip) && trip.Recordable(listed)
  {
    Commit(Rename(Check(Look(d, trip, listed), trip), trip, works), trip)
  }

  /** The first `steps` steps of an attempt, then a crash. */
  function Interrupted(d: Dir, trip: Trip, listed: seq<string>, steps: nat): Dir
    requires Keyed(d, trip) && trip.Recordable(listed)
  {
    var a := Look(d, trip, listed);
    var b := Check(a, trip);
    var c := Rename(b, trip, true);
    (if steps == 0 then d else if steps == 1 then a else if steps == 2 then b else if steps == 3 then c
     else Commit(c, trip)).(phase := Idle)
  }

  function AfterCrashes(d: Dir, trip: Trip, listed: seq<string>, crashes: seq<nat>): Dir
    requires Keyed(d, trip) && trip.Recordable(listed)
    ensures Keyed(AfterCrashes(d, trip, listed, crashes), trip)
    decreases |crashes|
  {
    if crashes == [] then d
    else AfterCrashes(Interrupted(d, trip, listed, crashes[0]), trip, listed, crashes[1..])
  }

  /** In reach of completion: the recorded directory is at one end, and nothing is at the other. */
  predicate Ready(d: Dir, trip: Trip, listed: seq<string>) {
    && d.phase == Idle
    && (match d.receipt
        case None => trip.from in d.tree && trip.to' !in d.tree
        case Some(r) => r.done || (r.keys == listed && InodeAt(d.tree, trip.from) == Some(r.inode) && trip.to' !in d.tree)
                        || (r.keys == listed && trip.from !in d.tree && InodeAt(d.tree, trip.to') == Some(r.inode)))
  }

  /** A retried attempt after any number of crashes, each at any step, ends in
      the very state that one uninterrupted attempt ends in. */
  lemma {:induction false} CrashesAreInvisible(d: Dir, trip: Trip, listed: seq<string>, crashes: seq<nat>)
    requires Ready(d, trip, listed) && Keyed(d, trip) && trip.Recordable(listed)
    ensures Attempt(AfterCrashes(d, trip, listed, crashes), trip, listed, true) == Attempt(d, trip, listed, true)
    ensures Attempt(d, trip, listed, true).receipt.Some? && Attempt(d, trip, listed, true).receipt.value.done
    decreases |crashes|
  {
    if crashes != [] {
      CrashesAreInvisible(Interrupted(d, trip, listed, crashes[0]), trip, listed, crashes[1..]);
    }
  }

  /** What a whole rename means: the directory is at the target under its own
      inode, and below it every key the listing showed is found under its new
      name with its id unchanged. A key stays behind exactly when its name
      begins at or above U+FFFF. */
  lemma RenameDelivers(d: Dir, trip: Trip, listed: seq<string>, crashes: seq<nat>, key: string)
    requires d.phase == Idle && d.receipt.None? && d.moved == [] && trip.from in d.tree && trip.to' !in d.tree
    requires Lists(trip, d.tables.path, listed)
    requires d.tables.Inverse() && NoRepeats(d.tables) && Vacant(d.tables.path, trip, listed)
    requires trip.Below(key) && trip.At(key) in d.tables.path
    ensures var after := Attempt(AfterCrashes(d, trip, listed, crashes), trip, listed, true);
            && after.moved == [d.tree[trip.from]]
            && after.tree == (d.tree - {trip.from})[trip.to' := d.tree[trip.from]]
            && after.tables.Inverse() && NoRepeats(after.tables)
            && (trip.At(key) in after.tables.path <==> key[|trip.from| + 1..] != "" && key[|trip.from| + 1] >= Listing.TOP)
            && (trip.At(key) !in after.tables.path ==>
                  Lookup(after.tables.path, trip.Dest(key)) == Some(d.tables.path[trip.At(key)]))
  {
    CrashesAreInvisible(d, trip, listed, crashes);
    var w := RekeyIsSafe(d.tables, trip, listed, 0, 0);
    EveryKeyMoves(d.tables.path, trip, listed);
    assert key in listed <==> Listing.Listable(key, trip.from + "/");
    if key in listed {
      var i :| 0 <= i < |listed| && listed[i] == key;
      assert trip.At(listed[i]) !in w.tables.path;
    } else {
      forall i | 0 <= i < |listed| ensures trip.At(key) != trip.At(listed[i]) && trip.At(key) != trip.Dest(listed[i]) {
        DestsApart(trip, listed[i], key);
      }
      assert Lookup(w.tables.path, trip.At(key)) == Lookup(d.tables.path, trip.At(key));
    }
  }

  /** A destination key that is still indexed, though the target directory is
      gone from disk: the rename succeeds and both owners list the key. */
  lemma OccupiedDestinationClashes(trip: Trip, key: string, x: string, y: string, inode: nat)
    requires trip.Apart() && trip.Below(key) && x != y
    ensures var a, b := trip.At(key), trip.Dest(key);
            var d := Dir(map[trip.from := inode], Tables(map[x := [a], y := [b]], map[a := x, b := y]), None, Idle, []);
            var after := Attempt(d, trip, [key], true);
            && d.tables.Inverse() && NoRepeats(d.tables)
            && after.receipt.Some? && after.receipt.value.done
            && after.tables.meta == map[x := [b], y := [b]] && !after.tables.Inverse()
  {
    var a, b := trip.At(key), trip.Dest(key);
    DestsApart(trip, key, key);
    var t := Tables(map[x := [a], y := [b]], map[a := x, b := y]);
    TakenKeyListedTwice(t, trip, key, x, y);
    QuietAttempt(Dir(map[trip.from := inode], t, None, Idle, []), trip, [key]);
    assert [key][..0] == [];
    assert Rekeyed(t, trip, [key]) == RekeyOne(t, trip, key);
  }

  /** May the attempt end well: is the receipt done, the recorded directory at its
      source with nothing at the target, or already at the target? */
  predicate CanFinish(d: Dir, trip: Trip, works: bool) {
    match d.receipt
    case None => trip.from in d.tree && trip.to' !in d.tree && works
    case Some(r) =>
      || r.done
      || (InodeAt(d.tree, trip.from) == Some(r.inode) && trip.to' !in d.tree && works)
      || (trip.from !in d.tree && InodeAt(d.tree, trip.to') == Some(r.inode))
  }

  /** Whatever occupies the target stays where it is, and so does the source; an
      attempt finishes exactly when it can, and otherwise re-keys nothing. */
  lemma OccupiedTargetStays(d: Dir, trip: Trip, listed: seq<string>, works: bool)
    requires d.phase.Idle? && Keyed(d, trip) && trip.Recordable(listed)
    ensures var after := Attempt(d, trip, listed, works);
            && (trip.to' in d.tree ==> after.tree == d.tree && after.moved == d.moved)
            && (after.receipt.Some? && after.receipt.value.done <==> CanFinish(d, trip, works))
            && (!CanFinish(d, trip, works) ==> after.tables == d.tables && after.tree == d.tree && after.moved == d.moved)
  {
  }

  /** An undisturbed first attempt re-keys what it recorded. */
  lemma QuietAttempt(d: Dir, trip: Trip, listed: seq<string>)
    requires d.phase.Idle? && d.receipt.None? && trip.from in d.tree && trip.to' !in d.tree && trip.Recordable(listed)
    ensures var after := Attempt(d, trip, listed, true);
            after.receipt.Some? && after.receipt.value.done && after.tables == Rekeyed(d.tables, trip, listed)
  {
  }

  lemma TakenKeyListedTwice(t: Tables, trip: Trip, key: string, x: string, y: string)
    requires trip.Below(key) && x != y && trip.At(key) != trip.Dest(key)
    requires t == Tables(map[x := [trip.At(key)], y := [trip.Dest(key)]], map[trip.At(key) := x, trip.Dest(key) := y])
    ensures var u := RekeyOne(t, trip, key);
            u.meta == map[x := [trip.Dest(key)], y := [trip.Dest(key)]] && !u.Inverse()
    ensures t.Inverse() && NoRepeats(t)
  {
    var a, b := trip.At(key), trip.Dest(key);
    assert Replaced([a], a, b) == [b];
    var u := RekeyOne(t, trip, key);
    assert u.meta == t.meta[x := [b]];
    assert b in u.meta[x] && b in u.meta[y];
    assert u.Inverse() ==> Lookup(u.path, b) == Some(x);
  }

  // ── The operation itself ──────────────────────────────────────────────────

  lemma {:induction false} DistinctFits(s: seq<Loc>, all: set<Loc>)
    requires Distinct(s) && forall i | 0 <= i < |s| :: s[i] in all
    ensures |s| <= |all|
  {
    if s != [] {
      var n := |s| - 1;
      DistinctFits(s[..n], all - {s[n]});
    }
  }

  lemma SortedListing(trip: Trip, path: PathMap, keys: seq<string>)
    requires trip.Apart() && Listing.KeysOf(path, trip.backend, keys)
    ensures Lists(trip, path, Listing.Eligible(keys, trip.from + "/", None))
    ensures |Listing.Eligible(keys, trip.from + "/", None)| <= |path|
  {
    var all := Listing.Eligible(keys, trip.from + "/", None);
    Listing.EligibleExact(keys, trip.from + "/", None);
    forall i, j | 0 <= i < j < |all| ensures all[i] != all[j] {
      Listing.LessIrreflexive(all[i]);
    }
    forall i | 0 <= i < |all| ensures trip.Below(all[i]) && Loc(trip.backend, all[i]) in path {
      assert all[i] in all;
    }
    var locs := seq(|all|, i requires 0 <= i < |all| => Loc(trip.backend, all[i]));
    DistinctFits(locs, path.Keys);
  }

  class Mover {
    const trip: Trip
    const index: Index
    var tree: map<string, nat>
    /** Durable, under the operation id. */
    var receipt: Option<Receipt>
    ghost var moved: seq<nat>

    ghost function State(): Dir
      reads this, index
    {
      Dir(tree, Tables(index.meta, index.path), receipt, Idle, moved)
    }

    ghost predicate Valid()
      reads this, index
    {
      && trip.Apart() && Keyed(State(), trip)
      && index.Valid() && index.txDepth == 0
    }

    constructor (trip: Trip, index: Index, tree: map<string, nat>)
      requires trip.Apart() && index.Valid() && index.txDepth == 0
      ensures Valid() && this.trip == trip && this.index == index
      ensures State() == Dir(tree, Tables(index.meta, index.path), None, Idle, [])
    {
      this.trip, this.index, this.tree, this.receipt, this.moved := trip, index, tree, None, [];
    }

    method ListSource() returns (listed: seq<string>)
      requires Valid()
      ensures Lists(trip, index.path, listed)
    {
      var limit := |index.path| + 1;
      var page := Listing.LocationsByBackend(index, trip.backend, trip.from + "/", None, limit);
      ghost var keys :| Listing.KeysOf(index.path, trip.backend, keys)
                        && page == Listing.PageOf(keys, trip.from + "/", None, ClampLimit(limit));
      SortedListing(trip, index.path, keys);
      listed := page.keys;
    }

    /** The re-key and the receipt in one transaction. */
    method Rekey(keys: seq<string>, now: nat)
      requires Valid() && trip.Recordable(keys)
      modifies index
      ensures Valid()
      ensures Tables(index.meta, index.path) == Rekeyed(old(Tables(index.meta, index.path)), trip, keys)
      ensures old(index.log) <= index.log
      ensures old(index.LogExplainsIndex() && NoRepeats(Tables(index.meta, index.path)) && Vacant(index.path, trip, keys)) ==>
                index.LogExplainsIndex() && NoRepeats(Tables(index.meta, index.path))
    {
      var t := Tables(index.meta, index.path);
      var cmds := RekeyCmds(t, trip, keys);
      ghost var log0 := index.log;
      RekeyRuns(t, trip, keys, |log0|, now);
      var _ := index.Transaction(cmds, now);
      if t.Inverse() && Replay(map[], log0) == t.path && NoRepeats(t) && Vacant(t.path, trip, keys) {
        var _ := RekeyIsSafe(t, trip, keys, |log0|, now);
        CommitExplains(t, log0, cmds, now);
      }
    }

    /** One attempt, start to finish. `works` is the outcome of the filesystem call. */
    method RenameDirectory(works: bool, now: nat) returns (ok: bool, ghost listed: seq<string>)
      requires Valid()
      modifies this, index
      ensures Valid() && Lists(trip, old(index.path), listed)
      ensures State() == Attempt(old(State()), trip, listed, works)
      ensures ok <==> receipt.Some? && receipt.value.done
      ensures ok <==> CanFinish(old(State()), trip, works)
      ensures trip.to' in old(tree) ==> tree == old(tree) && moved == old(moved)
      ensures !ok ==> tree == old(tree) && moved == old(moved) && Tables(index.meta, index.path) == old(Tables(index.meta, index.path))
      ensures old(index.LogExplainsIndex() && NoRepeats(Tables(index.meta, index.path))) ==>
                (receipt.Some? ==> Vacant(old(index.path), trip, receipt.value.keys)) ==> index.LogExplainsIndex()
    {
      var rows := ListSource();
      listed := rows;
      if receipt.Some? && receipt.value.done { return true, listed; }
      var seen := InodeAt(tree, trip.from);
      if receipt.None? {
        if seen.None? || trip.to' in tree { return false, listed; }
        receipt := Some(Receipt(seen.value, rows, false));
      }
      if seen == Some(receipt.value.inode) {
        if trip.to' in tree || !works { return false, listed; }
        moved := moved + [tree[trip.from]];
        tree := (tree - {trip.from})[trip.to' := tree[trip.from]];
      } else {
        if seen.Some? || InodeAt(tree, trip.to') != Some(receipt.value.inode) { return false, listed; }
      }
      Rekey(receipt.value.keys, now);
      receipt := Some(receipt.value.(done := true));
      return true, listed;
    }
  }
}
