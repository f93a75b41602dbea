/** In a quiet environment a two-way mirror converges: every reconcile-and-run
    of an unsettled key lowers a measure, and at zero local, base and hub agree. */
module MirrorConvergence {
  import opened Options
  import opened MirrorModel

  /** The view is current and no older work is pending. */
  predicate Fresh(w: World) {
    w.dev.view == w.hub.objs && w.dev.queue == {}
  }

  predicate Tracked(key: Key, c: Config) {
    key != "" && c.inScope(key) && c.valid(key)
  }

  predicate Settled(w: World, key: Key) {
    At(w.dev.local, key) == At(w.dev.base, key) == At(w.hub.objs, key)
  }

  /** What the reconcile pass queued for `key`, given that nothing was queued before. */
  function Queued(d: Device, key: Key, c: Config): Option<Job> {
    var L, B, R := At(d.local, key), At(d.base, key), At(d.view, key);
    if !Tracked(key, c) then None
    else
      match Direct(Decide(L, B, R), B, R, c.direction)
      case PushIt(_) => Some(Push(key))
      case DeleteRemoteIt(_) => if c.propagateDeletes then Some(DeleteRemote(key)) else None
      case PullIt(_) => Some(Pull(key, R))
      case TrashLocalIt => Some(TrashLocal(key))
      case ConflictIt(_) => Some(Conflict(key))
      case RevertIt(_) => Some(Revert(key, R))
      case _ => None
  }

  lemma ActQueues(d: Device, key: Key, todo: Decision, c: Config)
    requires d.queue == {}
    ensures Act(d, key, todo, c).queue ==
            match todo
            case PushIt(_) => {Push(key)}
            case DeleteRemoteIt(_) => if c.propagateDeletes then {DeleteRemote(key)} else {}
            case PullIt(_) => {Pull(key, At(d.view, key))}
            case TrashLocalIt => {TrashLocal(key)}
            case ConflictIt(_) => {Conflict(key)}
            case RevertIt(_) => {Revert(key, At(d.view, key))}
            case _ => {}
  {
  }

  lemma ReconcileQueues(d: Device, key: Key, c: Config)
    requires d.queue == {}
    ensures Reconcile(d, key, c).queue == match Queued(d, key, c) case None => {} case Some(j) => {j}
  {
    var L, B, R := At(d.local, key), At(d.base, key), At(d.view, key);
    ActQueues(d, key, Direct(Decide(L, B, R), B, R, c.direction), c);
  }

  /** Nobody interferes, transfers succeed, nothing crashes. */
  function QuietEnv(w: World, copyKey: Key, freeKey: Key): Env {
    Env(w.hub.objs, [], [], true, 9, copyKey, freeKey)
  }

  /** One reconcile of `key` and the job it queued, run at once. */
  function Tick(w: World, key: Key, c: Config, copyKey: Key, freeKey: Key): World {
    var d := Reconcile(w.dev, key, c).(queue := {});
    match Queued(w.dev, key, c)
    case None => w.(dev := d)
    case Some(job) => RunJob(w.(dev := d), job, c, QuietEnv(w, copyKey, freeKey))
  }

  /** Local, base and hub content of one key. */
  datatype Triple = Triple(L: Option<Sha>, B: Option<Sha>, R: Option<Sha>)

  function TripleAt(w: World, key: Key): Triple {
    Triple(At(w.dev.local, key), At(w.dev.base, key), At(w.hub.objs, key))
  }

  /** Actions that may leave one more action behind cost two. */
  function TripleCost(t: Triple, c: Config): nat {
    if t.L == t.B && t.B == t.R then 0
    else
      match Decide(t.L, t.B, t.R)
      case ConflictIt(_) => 2
      case TrashLocalIt => 2
      case DeleteRemoteIt(_) => if c.propagateDeletes then 1 else 2
      case _ => 1
  }

  function Cost(w: World, key: Key, c: Config): nat {
    if Tracked(key, c) then TripleCost(TripleAt(w, key), c) else 0
  }

  lemma ZeroIsSettled(w: World, key: Key, c: Config)
    ensures Cost(w, key, c) == 0 <==> !Tracked(key, c) || Settled(w, key)
  {
  }

  // ── What each quiet job does ──────────────────────────────────────────────

  /** Nothing but `key` changed, and the view is still current. */
  ghost predicate Only(w: World, t: World, key: Key) {
    Fresh(t) && forall k | k != key :: TripleAt(t, k) == TripleAt(w, k)
  }

  predicate Quiet(w: World, env: Env) {
    && Fresh(w) && env.polled == w.hub.objs
    && env.before == env.during == [] && env.transfers && env.effects == 9
  }

  lemma QuietPush(w: World, key: Key, c: Config, env: Env)
    requires Quiet(w, env) && key in w.dev.local
    requires At(w.dev.base, key) == At(w.hub.objs, key) && At(w.dev.local, key) != At(w.hub.objs, key)
    ensures var t := RunPush(w, key, c, env); var L := At(w.dev.local, key);
            Only(w, t, key) && TripleAt(t, key) == Triple(L, L, L)
  {
  }

  lemma QuietPull(w: World, key: Key, c: Config, env: Env)
    requires Quiet(w, env) && key in w.hub.objs && At(w.dev.local, key) != At(w.hub.objs, key)
    requires key in w.dev.local ==> At(w.dev.local, key) == At(w.dev.base, key)
    ensures var R := At(w.hub.objs, key); var t := RunPull(w, key, R, c, env);
            Only(w, t, key) && TripleAt(t, key) == Triple(R, R, R)
  {
  }

  lemma QuietDelete(w: World, key: Key, c: Config, env: Env)
    requires Quiet(w, env) && key !in w.dev.local && key in w.dev.base && At(w.dev.base, key) == At(w.hub.objs, key)
    ensures var t := RunDeleteRemote(w, key, c, env);
            Only(w, t, key) && TripleAt(t, key) == Triple(None, None, None)
  {
  }

  lemma QuietTrash(w: World, key: Key, env: Env)
    requires Quiet(w, env) && key in w.dev.local && At(w.dev.base, key) == At(w.dev.local, key) && key !in w.hub.objs
    ensures var t := RunTrashLocal(w, key, env);
            && Only(w, t, key)
            && TripleAt(t, key) == Triple(if (key, w.dev.local[key]) in w.dev.trash then At(w.dev.local, key) else None, None, None)
  {
  }

  lemma QuietConflict(w: World, key: Key, c: Config, env: Env)
    requires Quiet(w, env) && env.copyKey != key
    requires key in w.dev.local && key in w.hub.objs
    requires At(w.dev.local, key) != At(w.hub.objs, key) && At(w.dev.base, key) != At(w.hub.objs, key)
    ensures var t := RunConflict(w, key, c, env); var R := At(w.hub.objs, key);
            && Fresh(t) && TripleAt(t, key) == Triple(R, R, R)
            && (forall k | k != key && k != env.copyKey :: TripleAt(t, k) == TripleAt(w, k))
            && CopyAdded(TripleAt(w, env.copyKey), TripleAt(t, env.copyKey))
  {
    var kept := w.dev.(conflicts := Archive(w.dev.conflicts, env.copyKey, w.dev.local[key], env));
    assert Edited(w.hub, []) == w.hub;
    var up := UploadConflict(World(kept, w.hub), w.dev.local[key], c, env);
    assert up.dev.view == up.hub.objs && up.hub.objs[key] == w.hub.objs[key];
  }

  /** The copy key is as before, or was absent on the hub and is now there. */
  predicate CopyAdded(before: Triple, after: Triple) {
    after == before || (before.R.None? && after == before.(R := after.R))
  }

  /** A new conflict copy costs at most one more action than its key needed before. */
  lemma CopyCost(before: Triple, after: Triple, c: Config)
    requires CopyAdded(before, after)
    ensures TripleCost(after, c) <= TripleCost(before, c) + 1
  {
  }

  /** One tick of an unsettled key either touches only that key and lowers its
      cost, or resolves a conflict outright and adds a copy. */
  lemma TickEffect(w: World, key: Key, c: Config, copyKey: Key, freeKey: Key)
    requires Fresh(w) && c.direction == Bi && copyKey != key
    requires Tracked(key, c) && !Settled(w, key)
    ensures var t := Tick(w, key, c, copyKey, freeKey);
            || (Only(w, t, key) && Cost(t, key, c) < Cost(w, key, c))
            || (Fresh(t) && Cost(w, key, c) == 2 && Cost(t, key, c) == 0
                && (forall k | k != key && k != copyKey :: TripleAt(t, k) == TripleAt(w, k))
                && CopyAdded(TripleAt(w, copyKey), TripleAt(t, copyKey)))
  {
    ReconcileQueues(w.dev, key, c);
    if Todo(w, key).ConflictIt? {
      var v := w.(dev := Reconcile(w.dev, key, c).(queue := {}));
      QuietConflict(v, key, c, QuietEnv(w, copyKey, freeKey));
    } else {
      PlainTick(w, key, c, copyKey, freeKey);
    }
  }

  /** What to do about an unsettled key of a two-way mirror. */
  function Todo(w: World, key: Key): Decision {
    Decide(At(w.dev.local, key), At(w.dev.base, key), At(w.hub.objs, key))
  }

  predicate Unsettled(w: World, key: Key, c: Config) {
    Fresh(w) && c.direction == Bi && Tracked(key, c) && !Settled(w, key)
  }

  lemma PushTick(w: World, key: Key, c: Config, copyKey: Key, freeKey: Key)
    requires Unsettled(w, key, c) && copyKey != key && Todo(w, key).PushIt?
    ensures var t := Tick(w, key, c, copyKey, freeKey); Only(w, t, key) && Cost(t, key, c) < Cost(w, key, c)
  {
    ReconcileQueues(w.dev, key, c);
    var v, env := w.(dev := Reconcile(w.dev, key, c).(queue := {})), QuietEnv(w, copyKey, freeKey);
    QuietPush(v, key, c, env);
  }

  lemma PullTick(w: World, key: Key, c: Config, copyKey: Key, freeKey: Key)
    requires Unsettled(w, key, c) && copyKey != key && Todo(w, key).PullIt?
    ensures var t := Tick(w, key, c, copyKey, freeKey); Only(w, t, key) && Cost(t, key, c) < Cost(w, key, c)
  {
    ReconcileQueues(w.dev, key, c);
    var v, env := w.(dev := Reconcile(w.dev, key, c).(queue := {})), QuietEnv(w, copyKey, freeKey);
    QuietPull(v, key, c, env);
  }

  lemma DeleteTick(w: World, key: Key, c: Config, copyKey: Key, freeKey: Key)
    requires Unsettled(w, key, c) && copyKey != key && Todo(w, key).DeleteRemoteIt?
    ensures var t := Tick(w, key, c, copyKey, freeKey); Only(w, t, key) && Cost(t, key, c) < Cost(w, key, c)
  {
    ReconcileQueues(w.dev, key, c);
    var v, env := w.(dev := Reconcile(w.dev, key, c).(queue := {})), QuietEnv(w, copyKey, freeKey);
    if c.propagateDeletes { QuietDelete(v, key, c, env); }
  }

  lemma TrashTick(w: World, key: Key, c: Config, copyKey: Key, freeKey: Key)
    requires Unsettled(w, key, c) && copyKey != key && Todo(w, key).TrashLocalIt?
    ensures var t := Tick(w, key, c, copyKey, freeKey); Only(w, t, key) && Cost(t, key, c) < Cost(w, key, c)
  {
    ReconcileQueues(w.dev, key, c);
    var v, env := w.(dev := Reconcile(w.dev, key, c).(queue := {})), QuietEnv(w, copyKey, freeKey);
    QuietTrash(v, key, env);
  }

  lemma AdoptTick(w: World, key: Key, c: Config, copyKey: Key, freeKey: Key)
    requires Unsettled(w, key, c) && copyKey != key && Todo(w, key).Adopt?
    ensures var t := Tick(w, key, c, copyKey, freeKey); Only(w, t, key) && Cost(t, key, c) < Cost(w, key, c)
  {
    ReconcileQueues(w.dev, key, c);
  }

  lemma PlainTick(w: World, key: Key, c: Config, copyKey: Key, freeKey: Key)
    requires Unsettled(w, key, c) && copyKey != key && !Todo(w, key).ConflictIt?
    ensures var t := Tick(w, key, c, copyKey, freeKey); Only(w, t, key) && Cost(t, key, c) < Cost(w, key, c)
  {
    match Todo(w, key)
    case PushIt(_) => PushTick(w, key, c, copyKey, freeKey);
    case PullIt(_) => PullTick(w, key, c, copyKey, freeKey);
    case DeleteRemoteIt(_) => DeleteTick(w, key, c, copyKey, freeKey);
    case TrashLocalIt => TrashTick(w, key, c, copyKey, freeKey);
    case _ => AdoptTick(w, key, c, copyKey, freeKey);
  }

  // ── The measure ───────────────────────────────────────────────────────────

  predicate Distinct(ks: seq<Key>) {
    forall i, j | 0 <= i < j < |ks| :: ks[i] != ks[j]
  }

  function Total(w: World, ks: seq<Key>, c: Config): nat {
    if ks == [] then 0 else Cost(w, ks[0], c) + Total(w, ks[1..], c)
  }

  /** The universe holds every key anything is known about. */
  ghost predicate Covers(w: World, ks: seq<Key>) {
    forall k | k in w.dev.local || k in w.dev.base || k in w.hub.objs :: k in ks
  }

  lemma {:induction false} TotalZero(w: World, ks: seq<Key>, c: Config)
    ensures Total(w, ks, c) == 0 <==> forall k | k in ks :: Cost(w, k, c) == 0
  {
    if ks != [] {
      TotalZero(w, ks[1..], c);
      assert ks == [ks[0]] + ks[1..];
    }
  }

  lemma {:induction false} TotalChange(v: World, w: World, ks: seq<Key>, key: Key, copy: Key, drop: int, rise: int, c: Config)
    requires Distinct(ks) && key != copy && rise >= 0
    requires forall k | k in ks && k != key && k != copy :: Cost(w, k, c) == Cost(v, k, c)
    requires Cost(w, key, c) == Cost(v, key, c) - drop && Cost(w, copy, c) <= Cost(v, copy, c) + rise
    ensures Total(w, ks, c) <= Total(v, ks, c) - (if key in ks then drop else 0) + (if copy in ks then rise else 0)
  {
    if ks != [] {
      assert ks == [ks[0]] + ks[1..];
      assert ks[0] !in ks[1..];
      TotalChange(v, w, ks[1..], key, copy, drop, rise, c);
    }
  }

  lemma CoversKept(w: World, t: World, key: Key, copyKey: Key, ks: seq<Key>)
    requires Covers(w, ks) && key in ks && copyKey in ks
    requires forall k | k != key && k != copyKey :: TripleAt(t, k) == TripleAt(w, k)
    ensures Covers(t, ks)
  {
    forall k | k in t.dev.local || k in t.dev.base || k in t.hub.objs ensures k in ks {
      if k != key && k != copyKey {
        assert TripleAt(t, k) == TripleAt(w, k);
      }
    }
  }

  /** Every tick of an unsettled key lowers the measure, new conflict copies included. */
  lemma TickLowers(w: World, key: Key, c: Config, copyKey: Key, freeKey: Key, ks: seq<Key>)
    requires Fresh(w) && c.direction == Bi && copyKey != key
    requires Distinct(ks) && Covers(w, ks) && copyKey in ks
    requires Tracked(key, c) && !Settled(w, key)
    ensures var t := Tick(w, key, c, copyKey, freeKey);
            Fresh(t) && Covers(t, ks) && Total(t, ks, c) < Total(w, ks, c)
  {
    var t := Tick(w, key, c, copyKey, freeKey);
    TickEffect(w, key, c, copyKey, freeKey);
    assert key in ks;
    CoversKept(w, t, key, copyKey, ks);
    var drop := Cost(w, key, c) - Cost(t, key, c);
    if Only(w, t, key) && drop > 0 {
      TotalChange(w, t, ks, key, copyKey, drop, 0, c);
    } else {
      CopyCost(TripleAt(w, copyKey), TripleAt(t, copyKey), c);
      TotalChange(w, t, ks, key, copyKey, 2, 1, c);
    }
  }

  /** A choice of key to reconcile next, with the archive names used if it conflicts. */
  datatype Pick = Pick(key: Key, copyKey: Key, freeKey: Key)

  function Ticks(w: World, picks: seq<Pick>, c: Config): World {
    if picks == [] then w
    else Tick(Ticks(w, picks[..|picks| - 1], c), picks[|picks| - 1].key, c, picks[|picks| - 1].copyKey, picks[|picks| - 1].freeKey)
  }

  /** Every pick takes a key that still needs work. */
  predicate Busy(w: World, picks: seq<Pick>, c: Config, ks: seq<Key>) {
    picks == [] ||
    var last := picks[|picks| - 1];
    && Busy(w, picks[..|picks| - 1], c, ks)
    && last.copyKey != last.key && last.copyKey in ks
    && Tracked(last.key, c) && !Settled(Ticks(w, picks[..|picks| - 1], c), last.key)
  }

  /** However the keys are picked, there are at most as many ticks as the measure
      of the start, and as soon as no tracked key needs work, local, base and
      hub agree on every tracked key. */
  lemma {:induction false} Converges(w: World, picks: seq<Pick>, c: Config, ks: seq<Key>)
    requires Fresh(w) && c.direction == Bi && Distinct(ks) && Covers(w, ks)
    requires Busy(w, picks, c, ks)
    ensures var t := Ticks(w, picks, c);
            && Fresh(t) && Covers(t, ks)
            && |picks| + Total(t, ks, c) <= Total(w, ks, c)
            && (Total(t, ks, c) == 0 <==> forall k | Tracked(k, c) :: Settled(t, k))
  {
    var t := Ticks(w, picks, c);
    if picks != [] {
      var last := picks[|picks| - 1];
      Converges(w, picks[..|picks| - 1], c, ks);
      TickLowers(Ticks(w, picks[..|picks| - 1], c), last.key, c, last.copyKey, last.freeKey, ks);
    }
    TotalZero(t, ks, c);
    forall k ensures Cost(t, k, c) == 0 <==> !Tracked(k, c) || Settled(t, k) {
      ZeroIsSettled(t, k, c);
    }
    forall k | Tracked(k, c) && k !in ks ensures Settled(t, k) {
      assert At(t.dev.local, k) == At(t.dev.base, k) == At(t.hub.objs, k) == None;
    }
  }

  // ── Convergence is not always deletion ────────────────────────────────────

  /** A hub delete of a file whose very content is already in the trash at that
      key: the move to trash is a no-op, the base is dropped all the same, and
      the next pass pushes the file back to the hub. */
  lemma TrashedBeforeComesBack(key: Key, sha: Sha, c: Config, copyKey: Key, freeKey: Key)
    requires c.direction == Bi && Tracked(key, c)
    ensures var d := Device(map[key := sha], map[], map[key := sha], {(key, sha)}, {}, {}, {}, {});
            var t := Tick(World(d, Hub(map[], {sha}, {}, [])), key, c, copyKey, freeKey);
            && t.dev.local == map[key := sha] && t.dev.base == map[]
            && Tick(t, key, c, copyKey, freeKey).hub.objs == map[key := sha]
  {
    var d := Device(map[key := sha], map[], map[key := sha], {(key, sha)}, {}, {}, {}, {});
    var w := World(d, Hub(map[], {sha}, {}, []));
    ReconcileQueues(d, key, c);
    var t := Tick(w, key, c, copyKey, freeKey);
    assert t.dev.local == map[key := sha] && t.dev.base == map[] && t.dev.view == map[] && t.dev.queue == {};
    ReconcileQueues(t.dev, key, c);
  }

  /** Exactly then: a clean, quiet `trash-local` removes the local file unless the trash already has it. */
  lemma TrashRemovesExactly(w: World, key: Key, c: Config, copyKey: Key, freeKey: Key)
    requires Fresh(w) && c.direction == Bi && Tracked(key, c) && key in w.dev.local
    requires At(w.dev.base, key) == At(w.dev.local, key) && key !in w.hub.objs
    ensures var t := Tick(w, key, c, copyKey, freeKey);
            && (key !in t.dev.local <==> (key, w.dev.local[key]) !in w.dev.trash)
            && key !in t.dev.base
  {
    ReconcileQueues(w.dev, key, c);
  }
}
