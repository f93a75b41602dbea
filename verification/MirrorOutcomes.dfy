/** What each mirror step promises a caller, told without the step's own
    branches: which key it may touch, when, and what it leaves on the hub. */
module MirrorOutcomes {
  import opened Options
  import opened MirrorModel
  import opened MirrorSafety
  import opened MirrorRuns

  // ── The conditional write ─────────────────────────────────────────────────

  predicate Elsewhere(e: HubEdit, key: Key) {
    match e
    case EditPut(k, _) => k != key
    case EditDelete(k) => k != key
    case EditRename(from, target) => from != key && target != key
  }

  lemma {:induction false} EditedElsewhere(h: Hub, es: seq<HubEdit>, key: Key)
    requires forall e | e in es :: Elsewhere(e, key)
    ensures At(Edited(h, es).objs, key) == At(h.objs, key)
    decreases |es|
  {
    if es != [] {
      assert Elsewhere(es[0], key);
      assert forall e | e in es[1..] :: e in es;
      EditedElsewhere(Edit(h, es[0]), es[1..], key);
    }
  }

  /** Of two writers that agreed on the same version of a key only the first gets through. */
  lemma OnlyOneWins(h: Hub, key: Key, a: Sha, b: Sha, agreed: Option<Sha>, between: seq<HubEdit>)
    requires CasPut(h, key, a, agreed).Some? && Some(a) != agreed
    requires forall e | e in between :: Elsewhere(e, key)
    ensures CasPut(Edited(CasPut(h, key, a, agreed).value, between), key, b, agreed).None?
  {
    EditedElsewhere(CasPut(h, key, a, agreed).value, between, key);
  }

  // ── Reconciling ───────────────────────────────────────────────────────────

  /** The pending jobs about a key that a newer decision replaces. */
  function PendingFor(d: Device, key: Key): set<Job> {
    set j | j in d.queue && j.Names(key) && !j.IsRename()
  }

  predicate Agreed(d: Device, key: Key) {
    At(d.local, key) == At(d.base, key) == At(d.view, key)
  }

  /** Jobs of other keys stay pending. */
  ghost predicate OthersPending(d: Device, e: Device, key: Key) {
    forall j: Job | !j.Names(key) :: j in e.queue <==> j in d.queue
  }

  /** A decision never touches the folder, the archives, the view, the dirty set,
      or the ledger and jobs of other keys. */
  lemma ActOutcome(d: Device, key: Key, todo: Decision, c: Config)
    ensures var e := Act(d, key, todo, c);
            && e.local == d.local && e.trash == d.trash && e.conflicts == d.conflicts && e.view == d.view && e.dirty == d.dirty
            && (forall k | k != key :: At(e.base, k) == At(d.base, k))
            && OthersPending(d, e, key)
  {
  }

  /** Is the job about this key, for a rename at either end? */
  predicate About(j: Job, key: Key) {
    match j
    case Push(k) => k == key
    case Pull(k, _) => k == key
    case DeleteRemote(k) => k == key
    case TrashLocal(k) => k == key
    case Conflict(k) => k == key
    case Revert(k, _) => k == key
    case RenameRemote(from, target) => from == key || target == key
    case RenameLocal(from, target) => from == key || target == key
  }

  /** A newer decision replaces the key's other pending jobs but never a rename;
      an agreement or a reported skip ends them all. */
  lemma SupersedesExactly(d: Device, job: Job, j: Job)
    requires !job.IsRename()
    ensures j in Enqueue(d, job).queue <==> j == job || (j in d.queue && (!About(j, job.key) || j.RenameRemote? || j.RenameLocal?))
    ensures j in CancelByKey(d, job.key).queue <==> j in d.queue && !About(j, job.key)
  {
  }

  lemma EnqueueSupersedes(d: Device, job: Job)
    requires !job.IsRename()
    ensures PendingFor(Enqueue(d, job), job.key) == {job}
  {
  }

  /** A new decision replaces the key's older pending jobs: one is left or none. */
  lemma ActSupersedes(d: Device, key: Key, todo: Decision, c: Config)
    ensures var pending := PendingFor(Act(d, key, todo, c), key);
            pending == PendingFor(d, key) || forall i, j | i in pending && j in pending :: i == j
  {
    var R, u := At(d.view, key), Unskip(d, key);
    match todo
    case RevertIt(_) => EnqueueSupersedes(u, Revert(key, R));
    case PushIt(ifMatch) => EnqueueSupersedes(if ifMatch.None? then u.Forget(key) else u, Push(key));
    case DeleteRemoteIt(_) => EnqueueSupersedes(u, DeleteRemote(key));
    case PullIt(_) => EnqueueSupersedes(u, Pull(key, R));
    case TrashLocalIt => EnqueueSupersedes(u, TrashLocal(key));
    case ConflictIt(_) => EnqueueSupersedes(u, Conflict(key));
    case _ =>
      assert PendingFor(CancelByKey(d, key), key) == {};
      assert PendingFor(CancelByKey(u, key), key) == {};
  }

  /** What a reconcile promises about everything but its own key, and about the jobs of its own. */
  ghost predicate Reconciled(d: Device, e: Device, key: Key) {
    && e.local == d.local && e.trash == d.trash && e.conflicts == d.conflicts && e.view == d.view && e.dirty == d.dirty
    && (forall k | k != key :: At(e.base, k) == At(d.base, k))
    && OthersPending(d, e, key)
    && var pending := PendingFor(e, key);
       pending == PendingFor(d, key) || forall i, j | i in pending && j in pending :: i == j
  }

  /** Reconciling a key touches nothing else; where local and hub hold the same,
      the ledger says so afterwards. */
  lemma ReconcileOutcome(d: Device, key: Key, c: Config)
    ensures Reconciled(d, Reconcile(d, key, c), key)
    ensures key != "" && c.inScope(key) && c.valid(key) && At(d.local, key) == At(d.view, key) ==>
              Agreed(Reconcile(d, key, c), key)
  {
    var B, R := At(d.base, key), At(d.view, key);
    var todo := Direct(Decide(At(d.local, key), B, R), B, R, c.direction);
    ActOutcome(d, key, todo, c);
    ActSupersedes(d, key, todo, c);
    if At(d.local, key) == R { assert todo == if B == R then Nothing else Adopt; }
  }

  /** Following a local rename carries one ledger entry to the new key and queues
      the rename, or leaves ledger and queue alone and has both ends re-examined. */
  ghost predicate CarriedOver(d: Device, e: Device, from: Key, target: Key, c: Config) {
    && e.local == d.local && e.view == d.view && target in e.dirty && d.dirty <= e.dirty
    && e.base.Values == d.base.Values
    && (e.base == d.base ==> from in e.dirty && e.queue == d.queue)
    && (e.base != d.base ==>
          && c.direction != PullOnly && from in d.base && from !in e.base && At(e.base, target) == At(d.base, from)
          && (forall k | k != from && k != target :: At(e.base, k) == At(d.base, k))
          && RenameRemote(from, target) in e.queue && Push(from) !in e.queue)
  }

  lemma LocalRenameOutcome(d: Device, from: Key, target: Key, c: Config)
    ensures CarriedOver(d, LocalRenamed(d, from, target, c), from, target, c)
  {
    if from in d.base && target !in d.base {
      var moved := (d.base - {from})[target := d.base[from]];
      forall v ensures v in d.base.Values <==> v in moved.Values {
        if k :| k in d.base && d.base[k] == v {
          if k == from { assert moved[target] == v; } else { assert moved[k] == v; }
        }
        if k :| k in moved && moved[k] == v {
          if k == target { assert d.base[from] == v; } else { assert d.base[k] == v; }
        }
      }
    }
  }

  /** A hub rename queues a local rename only of a clean file onto a free key;
      otherwise both ends are re-examined. Nothing else changes. */
  predicate Followed(d: Device, e: Device, from: Key, target: Key, c: Config) {
    && e.local == d.local && e.base == d.base && e.view == d.view
    && (e.queue != d.queue || {from, target} <= e.dirty || RenameLocal(from, target) in d.queue)
    && (e.queue != d.queue ==>
          && e.queue == d.queue + {RenameLocal(from, target)} && c.direction != PushOnly
          && from in d.local && At(d.local, from) == At(d.base, from) && target !in d.local)
  }

  lemma HubRenameOutcome(d: Device, from: Key, target: Key, c: Config)
    ensures Followed(d, RemoteRenamed(d, from, target, c), from, target, c)
  {
  }

  // ── Jobs ──────────────────────────────────────────────────────────────────

  /** What the hub may have become while a job ran: others' edits, none, some or all of those around it. */
  predicate HubOfOthers(w: World, env: Env, h: Hub) {
    h == w.hub || h == Edited(w.hub, env.before) || h == Outside(w.hub, env)
  }

  lemma RedecideKeepsFolder(d: Device, key: Key, R: Option<Sha>, c: Config, env: Env)
    ensures Redecide(d, key, R, c, env).local == d.local
  {
    var f := if R.Some? then FreshRemote(d, key, Exactly(R.value), env)
             else if key in d.view then FreshRemote(d, key, Afresh, env)
             else d;
    ReconcileOutcome(f, key, c);
  }

  /** A push leaves the folder alone, and the hub to others, except that it may
      replace exactly the version the ledger agreed on with the local content. */
  predicate Pushed(v: World, w: World, key: Key, env: Env) {
    && w.dev.local == v.dev.local
    && (HubOfOthers(v, env, w.hub)
        || (var h := Outside(v.hub, env);
            key in v.dev.local && At(h.objs, key) == At(v.dev.base, key)
            && w.hub == HubSet(h, key, v.dev.local[key], true, At(v.dev.base, key))))
  }

  lemma PushOutcome(w: World, key: Key, c: Config, env: Env)
    ensures Pushed(w, RunPush(w, key, c, env), key, env)
  {
    var d := w.dev;
    var h1, h2 := Edited(w.hub, env.before), Outside(w.hub, env);
    var R := if key !in d.base && key !in d.view then None else At(h1.objs, key);
    RedecideKeepsFolder(d, key, R, c, env);
    RedecideKeepsFolder(d, key, At(h2.objs, key), c, env);
  }

  /** A pull writes nothing to the hub, and changes at most its own key in the
      folder, to what the device sees there on the hub, over nothing or over the
      agreed version: an edited file is never overwritten. */
  ghost predicate Pulled(v: World, w: World, key: Key, env: Env) {
    && w.hub == Outside(v.hub, env)
    && (forall k | k != key :: At(w.dev.local, k) == At(v.dev.local, k))
    && (At(w.dev.local, key) != At(v.dev.local, key) ==>
          && (key !in v.dev.local || At(v.dev.local, key) == At(v.dev.base, key))
          && key in w.dev.local && At(w.dev.local, key) == At(w.dev.view, key))
  }

  lemma PullOutcome(w: World, key: Key, want: Option<Sha>, c: Config, env: Env)
    ensures Pulled(w, RunPull(w, key, want, c, env), key, env)
  {
    ReconcileOutcome(FreshRemote(w.dev, key, WantOf(want), env), key, c);
  }

  /** A hub delete leaves the folder alone, and removes exactly the agreed version
      of a key that is gone locally, or nothing. */
  predicate DeletedRemote(v: World, w: World, key: Key, env: Env) {
    && w.dev.local == v.dev.local
    && (HubOfOthers(v, env, w.hub)
        || (var h := Outside(v.hub, env);
            key !in v.dev.local && key in v.dev.base && At(h.objs, key) == At(v.dev.base, key)
            && w.hub == HubDrop(h, key, true, At(v.dev.base, key))))
  }

  lemma DeleteOutcome(w: World, key: Key, c: Config, env: Env)
    ensures DeletedRemote(w, RunDeleteRemote(w, key, c, env), key, env)
  {
    RedecideKeepsFolder(w.dev, key, At(w.dev.view, key), c, env);
    RedecideKeepsFolder(w.dev, key, At(Outside(w.hub, env).objs, key), c, env);
  }

  ghost predicate KeptAside(d: Device, sha: Sha) {
    exists k :: (k, sha) in d.conflicts
  }

  lemma UploadOutcome(w: World, sha: Sha, c: Config, env: Env)
    ensures var t := UploadConflict(w, sha, c, env);
            && t.dev.local == w.dev.local && t.dev.conflicts == w.dev.conflicts
            && (forall k | k in w.hub.objs :: At(t.hub.objs, k) == At(w.hub.objs, k))
            && (if c.renameConflicts then env.copyKey in t.hub.objs else sha in t.hub.inbox)
  {
  }

  /** Resolving a conflict changes only its own key in the folder, only after the
      local content went to the conflicts folder and was offered to the hub, and
      never overwrites an object on the hub. */
  ghost predicate Resolved(v: World, w: World, key: Key, c: Config, env: Env) {
    && (forall k | k != key :: At(w.dev.local, k) == At(v.dev.local, k))
    && (HubOfOthers(v, env, w.hub)
        || forall k | k in Outside(v.hub, env).objs :: At(w.hub.objs, k) == At(Outside(v.hub, env).objs, k))
    && (At(w.dev.local, key) != At(v.dev.local, key) ==>
          && key in v.dev.local && KeptAside(w.dev, v.dev.local[key])
          && At(w.dev.local, key) == At(w.dev.view, key)
          && (if c.renameConflicts then env.copyKey in w.hub.objs else v.dev.local[key] in w.hub.inbox))
  }

  lemma ConflictOutcome(w: World, key: Key, c: Config, env: Env)
    ensures Resolved(w, RunConflict(w, key, c, env), key, c, env)
  {
    var d, h1, t := w.dev, Edited(w.hub, env.before), RunConflict(w, key, c, env);
    var R := At(h1.objs, key);
    ReconcileOutcome(d, key, c);
    if key !in d.local || R.None? || R == At(d.local, key) || R == At(d.base, key) || !env.transfers || env.effects <= 1 {
      assert t.dev.local == d.local && HubOfOthers(w, env, t.hub);
    } else {
      PlacedOutcome(w, key, c, env);
    }
  }

  lemma PlacedOutcome(w: World, key: Key, c: Config, env: Env)
    requires key in w.dev.local && key in Edited(w.hub, env.before).objs && env.transfers && env.effects > 1
    requires At(Edited(w.hub, env.before).objs, key) !in {At(w.dev.local, key), At(w.dev.base, key)}
    ensures Resolved(w, RunConflict(w, key, c, env), key, c, env)
  {
    var L := w.dev.local[key];
    ArchiveKeeps(w.dev.conflicts, env.copyKey, L, env);
    var kept := w.dev.(conflicts := Archive(w.dev.conflicts, env.copyKey, L, env));
    assert KeptAside(kept, L);
    UploadOutcome(World(kept, Outside(w.hub, env)), L, c, env);
    var up := UploadConflict(World(kept, Outside(w.hub, env)), L, c, env);
    assert KeptAside(up.dev, L);
    PlacedShape(w, key, c, env, up);
  }

  /** After the upload only the key's file, the view and the ledger can still change. */
  lemma PlacedShape(w: World, key: Key, c: Config, env: Env, up: World)
    requires key in w.dev.local && key in Edited(w.hub, env.before).objs && env.transfers && env.effects > 1
    requires At(Edited(w.hub, env.before).objs, key) !in {At(w.dev.local, key), At(w.dev.base, key)}
    requires var kept := w.dev.(conflicts := Archive(w.dev.conflicts, env.copyKey, w.dev.local[key], env));
             up == UploadConflict(World(kept, Outside(w.hub, env)), w.dev.local[key], c, env)
    ensures var t := RunConflict(w, key, c, env);
            && t.hub == up.hub && t.dev.conflicts == up.dev.conflicts
            && (t.dev.local == up.dev.local
                || (key in t.dev.view && t.dev.local == up.dev.local[key := t.dev.view[key]]))
  {
    var R := Edited(w.hub, env.before).objs[key];
    var f, t := FreshRemote(up.dev, key, Exactly(R), env), RunConflict(w, key, c, env);
    assert f == up.dev.(view := f.view);
    if env.effects <= 2 {
      assert t == up;
    } else if key !in f.view {
      assert t == up.(dev := f.MarkDirty({key}));
    } else {
      var placed := f.(local := f.local[key := f.view[key]]);
      assert t == up.(dev := if env.effects <= 3 then placed else placed.Agree(key, R));
    }
  }

  /** A move to trash empties at most its own key, of a clean file the hub does
      not list, into the trash. */
  ghost predicate Trashed(v: World, w: World, key: Key) {
    && w.hub == v.hub
    && (forall k | k != key :: At(w.dev.local, k) == At(v.dev.local, k))
    && (At(w.dev.local, key) != At(v.dev.local, key) ==>
          && key in v.dev.local && key !in w.dev.local && key !in v.dev.view
          && At(v.dev.local, key) == At(v.dev.base, key)
          && exists k :: (k, v.dev.local[key]) in w.dev.trash)
  }

  lemma TrashOutcome(w: World, key: Key, env: Env)
    ensures Trashed(w, RunTrashLocal(w, key, env), key)
  {
    if key in w.dev.local { ArchiveKeeps(w.dev.trash, key, w.dev.local[key], env); }
  }

  /** A revert writes nothing to the hub, and changes only its own key, after its content went to the conflicts folder. */
  ghost predicate Reverted(v: World, w: World, key: Key, env: Env) {
    && HubOfOthers(v, env, w.hub)
    && (forall k | k != key :: At(w.dev.local, k) == At(v.dev.local, k))
    && (At(w.dev.local, key) != At(v.dev.local, key) ==>
          key in v.dev.local && KeptAside(w.dev, v.dev.local[key]) && At(w.dev.local, key) == At(w.dev.view, key))
  }

  lemma RevertOutcome(w: World, key: Key, want: Option<Sha>, c: Config, env: Env)
    ensures Reverted(w, RunRevert(w, key, want, c, env), key, env)
  {
    if key in w.dev.local {
      var d := FreshRemote(w.dev, key, WantOf(want), env);
      if At(d.view, key).None? || At(d.view, key) == At(w.dev.local, key) {
        ReconcileOutcome(d, key, c);
      } else {
        ArchiveKeeps(w.dev.conflicts, env.copyKey, w.dev.local[key], env);
      }
    }
  }

  /** A rename on the hub followed here: the hub is left alone, and the file moves,
      whole, exactly when it is clean, its new name is free and the move works.
      Otherwise both ends are looked at again, or the job failed and changed nothing. */
  predicate RenamedHere(v: World, w: World, from: Key, target: Key, env: Env) {
    var d, e := v.dev, w.dev;
    var free := from in d.local && At(d.local, from) == At(d.base, from) && target !in d.local;
    && w.hub == v.hub
    && (free && env.transfers ==>
          && e.local == (d.local - {from})[target := d.local[from]]
          && (env.effects > 1 ==> e.base == (d.base - {from})[target := d.local[from]]))
    && (!free ==> {from, target} <= e.dirty && e.local == d.local && e.base == d.base)
    && (free && !env.transfers ==> w == v)
  }

  lemma RenameLocalOutcome(w: World, from: Key, target: Key, env: Env)
    ensures RenamedHere(w, RunRenameLocal(w, from, target, env), from, target, env)
  {
  }

  /** May the hub's file be renamed: is the agreed version there, and the new name free? */
  predicate Renamable(v: World, from: Key, target: Key, env: Env) {
    var h := Outside(v.hub, env);
    && target in v.dev.base && At(v.dev.view, from) == At(v.dev.base, target) && target !in v.dev.view
    && At(h.objs, from) == At(v.dev.base, target) && target !in h.objs
  }

  /** A rename here carried to the hub: the folder is left alone, and on the hub
      exactly the agreed version moves, to a free name. Otherwise nothing is
      written, and the new name is looked at again or the rename tried again. */
  predicate RenamedThere(v: World, w: World, from: Key, target: Key, env: Env) {
    var h := Outside(v.hub, env);
    && w.dev.local == v.dev.local
    && (Renamable(v, from, target, env) ==>
          && w.hub.objs == (h.objs - {from})[target := v.dev.base[target]]
          && w.hub.past == h.past && w.hub.inbox == h.inbox
          && w.hub.writes == h.writes + [Write(true, from, At(v.dev.base, target), At(v.dev.base, target))]
          && (env.effects > 1 ==> w.dev.base == v.dev.base && w.dev.view == (v.dev.view - {from})[target := v.dev.base[target]]))
    && (!Renamable(v, from, target, env) ==>
          HubOfOthers(v, env, w.hub) && (target in w.dev.dirty || RenameRemote(from, target) in w.dev.queue))
  }

  lemma RenameRemoteOutcome(w: World, from: Key, target: Key, env: Env)
    ensures RenamedThere(w, RunRenameRemote(w, from, target, env), from, target, env)
  {
    if Renamable(w, from, target, env) {
      var h, B := Outside(w.hub, env), w.dev.base[target];
      assert h.objs[from] == B;
      assert w.dev.base[target := B] == w.dev.base;
    }
  }

  /** What each kind of job promises. */
  ghost predicate JobDid(v: World, w: World, job: Job, c: Config, env: Env) {
    match job
    case Push(key) => Pushed(v, w, key, env)
    case Pull(key, _) => Pulled(v, w, key, env)
    case DeleteRemote(key) => DeletedRemote(v, w, key, env)
    case TrashLocal(key) => Trashed(v, w, key)
    case RenameRemote(from, target) => RenamedThere(v, w, from, target, env)
    case RenameLocal(from, target) => RenamedHere(v, w, from, target, env)
    case Conflict(key) => Resolved(v, w, key, c, env)
    case Revert(key, _) => Reverted(v, w, key, env)
  }

  // ── Nothing is forgotten ──────────────────────────────────────────────────

  /** The key is agreed on, has a pending job, is reported as skipped, will be looked
      at again, is gone without a trace, or is a hub change a `push` mirror ignores. */
  predicate Tended(d: Device, key: Key, c: Config) {
    || Agreed(d, key) || PendingFor(d, key) != {} || key in d.skips || key in d.dirty
    || (key !in d.local && key !in d.base)
    || (c.direction == PushOnly && At(d.local, key) == At(d.base, key))
  }

  lemma QueuedIsPending(d: Device, job: Job)
    requires !job.IsRename()
    ensures PendingFor(Enqueue(d, job), job.key) != {}
  {
    assert job in PendingFor(Enqueue(d, job), job.key);
  }

  lemma ActTends(d: Device, key: Key, todo: Decision, c: Config)
    requires !todo.Nothing? && (todo.Adopt? ==> At(d.local, key) == At(d.view, key))
    requires todo.DeleteRemoteIt? ==> key !in d.local
    ensures Tended(Act(d, key, todo, c), key, c)
  {
    var R, u := At(d.view, key), Unskip(d, key);
    match todo
    case RevertIt(_) => QueuedIsPending(u, Revert(key, R));
    case PushIt(ifMatch) => QueuedIsPending(if ifMatch.None? then u.Forget(key) else u, Push(key));
    case DeleteRemoteIt(_) => if c.propagateDeletes { QueuedIsPending(u, DeleteRemote(key)); }
    case PullIt(_) => QueuedIsPending(u, Pull(key, R));
    case TrashLocalIt => QueuedIsPending(u, TrashLocal(key));
    case ConflictIt(_) => QueuedIsPending(u, Conflict(key));
    case _ =>
  }

  /** A reconcile leaves no tracked key without a next step. */
  lemma ReconcileTends(d: Device, key: Key, c: Config)
    requires key != "" && c.inScope(key)
    ensures Tended(Reconcile(d, key, c), key, c)
  {
    if c.valid(key) {
      var L, B, R := At(d.local, key), At(d.base, key), At(d.view, key);
      var todo := Direct(Decide(L, B, R), B, R, c.direction);
      if !todo.Nothing? { ActTends(d, key, todo, c); }
    }
  }

  /** Nor does a push or delete that the hub refused. */
  lemma RedecideTends(d: Device, key: Key, R: Option<Sha>, c: Config, env: Env)
    requires key != "" && c.inScope(key) && R != At(d.base, key)
    ensures Tended(Redecide(d, key, R, c, env), key, c)
  {
    var f := if R.Some? then FreshRemote(d, key, Exactly(R.value), env)
             else if key in d.view then FreshRemote(d, key, Afresh, env)
             else d;
    ReconcileTends(f, key, c);
    match Decide(At(f.local, key), At(f.base, key), R)
    case PullIt(sha) => QueuedIsPending(f, Pull(key, Some(sha)));
    case TrashLocalIt => QueuedIsPending(f, TrashLocal(key));
    case ConflictIt(_) => QueuedIsPending(f, Conflict(key));
    case _ =>
  }

  /** No job that runs to its end leaves its key without a next step. One whose
      transfer failed has changed neither folder nor ledger nor queue, and is still
      to be done. The exceptions: a delete of a key that was never agreed on, a
      move to trash of a file the trash already has, and a conflict after which the
      folder shows what the hub shows. */
  lemma JobTends(w: World, job: Job, c: Config, env: Env)
    requires !job.IsRename() && job.key != "" && c.inScope(job.key) && env.effects > 3
    ensures var t := RunJob(w, job, c, env);
            || Tended(t.dev, job.key, c)
            || (!env.transfers && t.dev == w.dev.(view := t.dev.view))
            || (job.DeleteRemote? && job.key !in w.dev.base && t == w)
            || (job.TrashLocal? && job.key in w.dev.local && (job.key, w.dev.local[job.key]) in w.dev.trash)
            || (job.Conflict? && At(t.dev.local, job.key) == At(t.dev.view, job.key) && KeptAside(t.dev, w.dev.local[job.key]))
  {
    match job
    case Push(key) => PushTends(w, key, c, env);
    case Pull(key, want) => PullTends(w, key, want, c, env);
    case DeleteRemote(key) => DeleteTends(w, key, c, env);
    case TrashLocal(key) =>
    case Conflict(key) => ConflictTends(w, key, c, env);
    case Revert(key, want) => RevertTends(w, key, want, c, env);
  }

  lemma RevertTends(w: World, key: Key, want: Option<Sha>, c: Config, env: Env)
    requires key != "" && c.inScope(key) && env.effects > 3
    ensures var t := RunRevert(w, key, want, c, env);
            Tended(t.dev, key, c) || (!env.transfers && t.dev == w.dev.(view := t.dev.view))
  {
    ReconcileTends(FreshRemote(w.dev, key, WantOf(want), env), key, c);
  }

  lemma ConflictTends(w: World, key: Key, c: Config, env: Env)
    requires key != "" && c.inScope(key) && env.effects > 3
    ensures var t := RunConflict(w, key, c, env);
            || Tended(t.dev, key, c) || (!env.transfers && t.dev == w.dev)
            || (key in w.dev.local && At(t.dev.local, key) == At(t.dev.view, key) && KeptAside(t.dev, w.dev.local[key]))
  {
    var d, R := w.dev, At(Edited(w.hub, env.before).objs, key);
    if R == At(d.local, key) || R == At(d.base, key) {
      ReconcileTends(d, key, c);
    } else if key in d.local && R.Some? && env.transfers {
      ConflictOutcome(w, key, c, env);
      ArchiveKeeps(d.conflicts, env.copyKey, d.local[key], env);
      var kept := d.(conflicts := Archive(d.conflicts, env.copyKey, d.local[key], env));
      var up := UploadConflict(World(kept, Outside(w.hub, env)), d.local[key], c, env);
      PlacedShape(w, key, c, env, up);
    }
  }

  lemma PushTends(w: World, key: Key, c: Config, env: Env)
    requires key != "" && c.inScope(key) && env.effects > 1
    ensures var t := RunPush(w, key, c, env); Tended(t.dev, key, c) || (!env.transfers && t.dev == w.dev)
  {
    var h1, h2 := Edited(w.hub, env.before), Outside(w.hub, env);
    var R := if key !in w.dev.base && key !in w.dev.view then None else At(h1.objs, key);
    if R != At(w.dev.base, key) { RedecideTends(w.dev, key, R, c, env); }
    if At(h2.objs, key) != At(w.dev.base, key) { RedecideTends(w.dev, key, At(h2.objs, key), c, env); }
  }

  lemma PullTends(w: World, key: Key, want: Option<Sha>, c: Config, env: Env)
    requires key != "" && c.inScope(key) && env.effects > 1
    ensures Tended(RunPull(w, key, want, c, env).dev, key, c)
  {
    ReconcileTends(FreshRemote(w.dev, key, WantOf(want), env), key, c);
  }

  lemma DeleteTends(w: World, key: Key, c: Config, env: Env)
    requires key != "" && c.inScope(key) && env.effects > 1
    ensures var t := RunDeleteRemote(w, key, c, env); Tended(t.dev, key, c) || (key !in w.dev.base && t == w)
  {
    var d, h := w.dev, Outside(w.hub, env);
    if At(d.view, key) != At(d.base, key) { RedecideTends(d, key, At(d.view, key), c, env); }
    if At(h.objs, key) != At(d.base, key) { RedecideTends(d, key, At(h.objs, key), c, env); }
  }

  /** In every direction but `bi` one side is read-only to the device's jobs. */
  predicate SidesKept(v: World, w: World, job: Job, c: Config, env: Env) {
    && (c.direction == PullOnly && PullQueue(v.dev) && PullKind(job) ==>
          PullQueue(w.dev) && HubOfOthers(v, env, w.hub))
    && (c.direction == PushOnly && PushQueue(v.dev) && PushKind(job) ==>
          w.dev.local == v.dev.local && (PushQueue(w.dev) <==> !Yields(v, job, env)))
  }

  lemma JobKeepsSides(w: World, job: Job, c: Config, env: Env)
    ensures SidesKept(w, RunJob(w, job, c, env), job, c, env)
  {
    if c.direction == PullOnly && PullQueue(w.dev) && PullKind(job) {
      PullOnlyJob(w, job, c, env);
      match job
      case Revert(key, want) => RevertOutcome(w, key, want, c, env);
      case _ =>
    }
    if c.direction == PushOnly && PushQueue(w.dev) && PushKind(job) { PushOnlyJobExact(w, job, c, env); }
  }
}
