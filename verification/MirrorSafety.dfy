/** What no step of a mirror can do, whatever jobs run, however late, and
    whatever everyone else does on the hub meanwhile: lose local content, or
    replace a hub version its ledger had not agreed on. */
module MirrorSafety {
  import opened Options
  import opened MirrorModel

  predicate AllIn(m: Files, past: set<Sha>) {
    forall k | k in m :: m[k] in past
  }

  /** Every base, and everything the device believes about the hub, is a content the hub once held. */
  predicate Sound(w: World) {
    AllIn(w.hub.objs, w.hub.past) && AllIn(w.dev.base, w.hub.past) && AllIn(w.dev.view, w.hub.past)
  }

  /** A poll brings only contents the hub has held by then. */
  predicate EnvOk(w: World, env: Env) {
    AllIn(env.polled, Outside(w.hub, env).past)
  }

  ghost predicate Archived(d: Device, sha: Sha) {
    (exists k :: (k, sha) in d.trash) || (exists k :: (k, sha) in d.conflicts)
  }

  /** Content that can still be fetched from somewhere. */
  ghost predicate Recoverable(w: World, sha: Sha) {
    Archived(w.dev, sha) || sha in w.hub.past
  }

  /** Archives and history only grow. */
  predicate Grows(v: World, w: World) {
    v.dev.trash <= w.dev.trash && v.dev.conflicts <= w.dev.conflicts && v.hub.past <= w.hub.past
  }

  /** Whatever left a local key can still be fetched. */
  ghost predicate NothingLost(v: World, w: World) {
    forall k | k in v.dev.local :: At(w.dev.local, k) == Some(v.dev.local[k]) || Recoverable(w, v.dev.local[k])
  }

  /** Every hub version this device replaced, deleted or renamed away was the one its ledger agreed on. */
  predicate NoLostUpdate(h: Hub) {
    forall i | 0 <= i < |h.writes| :: h.writes[i].mine && h.writes[i].was.Some? ==> h.writes[i].agreed == h.writes[i].was
  }

  /** Every change of a hub key is on record: by whom, what it replaced, and what was agreed on. */
  lemma ChangesAreRecorded(h: Hub, key: Key, target: Key, sha: Sha, mine: bool, agreed: Option<Sha>)
    ensures var s := HubSet(h, key, sha, mine, agreed);
            && s.objs == h.objs[key := sha] && s.past == h.past + {sha}
            && s.writes == h.writes + [Write(mine, key, At(h.objs, key), agreed)]
    ensures var r := HubDrop(h, key, mine, agreed);
            r.objs == h.objs - {key} && r.past == h.past && r.writes == h.writes + [Write(mine, key, At(h.objs, key), agreed)]
    ensures key in h.objs ==>
              var m := HubMove(h, key, target, mine, agreed);
              && m.objs == (h.objs - {key})[target := h.objs[key]] && m.past == h.past
              && m.writes == h.writes + [Write(mine, key, At(h.objs, key), agreed)]
  {
  }

  ghost predicate Harmless(v: World, w: World) {
    && Sound(w) && Grows(v, w) && NothingLost(v, w)
    && (NoLostUpdate(v.hub) ==> NoLostUpdate(w.hub))
  }

  // ── Hub edits by others ───────────────────────────────────────────────────

  lemma {:induction false} EditedSound(h: Hub, es: seq<HubEdit>)
    requires AllIn(h.objs, h.past)
    ensures var r := Edited(h, es);
            && AllIn(r.objs, r.past) && h.past <= r.past
            && (NoLostUpdate(h) ==> NoLostUpdate(r))
    decreases |es|
  {
    if es != [] {
      EditedSound(Edit(h, es[0]), es[1..]);
    }
  }

  lemma OutsideSound(h: Hub, env: Env)
    requires AllIn(h.objs, h.past)
    ensures var h1, h2 := Edited(h, env.before), Outside(h, env);
            && AllIn(h1.objs, h1.past) && AllIn(h2.objs, h2.past) && h.past <= h1.past <= h2.past
            && (NoLostUpdate(h) ==> NoLostUpdate(h1) && NoLostUpdate(h2))
  {
    EditedSound(h, env.before);
    EditedSound(Edited(h, env.before), env.during);
  }

  // ── Ledger and queue updates touch no content ─────────────────────────────

  /** Same folder, same archives; base and view still name past hub contents. */
  predicate LedgerStep(d: Device, e: Device, past: set<Sha>) {
    && e.local == d.local && e.trash == d.trash && e.conflicts == d.conflicts
    && AllIn(e.base, past) && AllIn(e.view, past)
  }

  lemma ActIsLedgerStep(d: Device, key: Key, todo: Decision, c: Config, past: set<Sha>)
    requires AllIn(d.base, past) && AllIn(d.view, past)
    requires todo.Adopt? && key in d.local ==> d.local[key] in past
    ensures LedgerStep(d, Act(d, key, todo, c), past)
    ensures Act(d, key, todo, c).view == d.view
  {
  }

  lemma ReconcileIsLedgerStep(d: Device, key: Key, c: Config, past: set<Sha>)
    requires AllIn(d.base, past) && AllIn(d.view, past)
    ensures LedgerStep(d, Reconcile(d, key, c), past)
    ensures Reconcile(d, key, c).view == d.view
  {
    if key != "" && c.inScope(key) && c.valid(key) {
      var L, B, R := At(d.local, key), At(d.base, key), At(d.view, key);
      var todo := Direct(Decide(L, B, R), B, R, c.direction);
      AdoptsHubContent(L, B, R, c.direction);
      ActIsLedgerStep(d, key, todo, c, past);
    }
  }

  lemma AdoptsHubContent(L: Option<Sha>, B: Option<Sha>, R: Option<Sha>, dir: Direction)
    ensures Direct(Decide(L, B, R), B, R, dir).Adopt? ==> L == R
  {
  }

  lemma FreshIsLedgerStep(d: Device, key: Key, want: Want, env: Env, past: set<Sha>)
    requires AllIn(d.base, past) && AllIn(d.view, past) && AllIn(env.polled, past)
    ensures LedgerStep(d, FreshRemote(d, key, want, env), past)
  {
  }

  lemma RedecideIsLedgerStep(d: Device, key: Key, R: Option<Sha>, c: Config, env: Env, past: set<Sha>)
    requires AllIn(d.base, past) && AllIn(d.view, past) && AllIn(env.polled, past)
    ensures LedgerStep(d, Redecide(d, key, R, c, env), past)
  {
    var f := if R.Some? then FreshRemote(d, key, Exactly(R.value), env)
             else if key in d.view then FreshRemote(d, key, Afresh, env)
             else d;
    assert LedgerStep(d, f, past);
    match Decide(At(f.local, key), At(f.base, key), R)
    case PullIt(sha) => EnqueueIsLedgerStep(d, f, Pull(key, Some(sha)), past);
    case TrashLocalIt => EnqueueIsLedgerStep(d, f, TrashLocal(key), past);
    case ConflictIt(_) => EnqueueIsLedgerStep(d, f, Conflict(key), past);
    case _ => ReconcileIsLedgerStep(f, key, c, past);
  }

  lemma EnqueueIsLedgerStep(d: Device, f: Device, job: Job, past: set<Sha>)
    requires LedgerStep(d, f, past) && !job.IsRename()
    ensures LedgerStep(d, Enqueue(f, job), past)
  {
  }

  lemma LedgerStepHarmless(w: World, e: Device, h: Hub)
    requires Sound(w) && LedgerStep(w.dev, e, h.past) && AllIn(h.objs, h.past) && w.hub.past <= h.past
    requires NoLostUpdate(w.hub) ==> NoLostUpdate(h)
    ensures Harmless(w, World(e, h))
  {
  }

  // ── Every job is harmless ─────────────────────────────────────────────────

  lemma ArchiveKeeps(a: set<(Key, Sha)>, key: Key, sha: Sha, env: Env)
    ensures a <= Archive(a, key, sha, env)
    ensures exists k :: (k, sha) in Archive(a, key, sha, env)
  {
    assert (key, sha) in Archive(a, key, sha, env) || (env.freeKey, sha) in Archive(a, key, sha, env);
  }

  /** Redeciding after the outside moved on. */
  lemma RedecideHarmless(w: World, key: Key, R: Option<Sha>, c: Config, env: Env)
    requires Sound(w) && EnvOk(w, env)
    ensures Harmless(w, World(Redecide(w.dev, key, R, c, env), Outside(w.hub, env)))
  {
    OutsideSound(w.hub, env);
    RedecideIsLedgerStep(w.dev, key, R, c, env, Outside(w.hub, env).past);
    LedgerStepHarmless(w, Redecide(w.dev, key, R, c, env), Outside(w.hub, env));
  }

  lemma ReconcileHarmless(w: World, d: Device, key: Key, c: Config, h: Hub)
    requires Sound(w) && LedgerStep(w.dev, d, h.past) && AllIn(h.objs, h.past) && w.hub.past <= h.past
    requires NoLostUpdate(w.hub) ==> NoLostUpdate(h)
    ensures Harmless(w, World(Reconcile(d, key, c), h))
  {
    ReconcileIsLedgerStep(d, key, c, h.past);
    LedgerStepHarmless(w, Reconcile(d, key, c), h);
  }

  /** The conditional PUT replaces the agreed base or nothing. */
  lemma CasPutHarmless(w: World, key: Key, sha: Sha, h: Hub, effects: nat)
    requires Sound(w) && AllIn(h.objs, h.past) && w.hub.past <= h.past
    requires NoLostUpdate(w.hub) ==> NoLostUpdate(h)
    requires CasPut(h, key, sha, At(w.dev.base, key)).Some?
    ensures var h' := CasPut(h, key, sha, At(w.dev.base, key)).value;
            && Harmless(w, w.(hub := h'))
            && Harmless(w, World(w.dev.(view := w.dev.view[key := sha]).Agree(key, sha), h'))
  {
  }

  lemma PushHarmless(w: World, key: Key, c: Config, env: Env)
    requires Sound(w) && EnvOk(w, env)
    ensures Harmless(w, RunPush(w, key, c, env))
  {
    var d := w.dev;
    var L, B := At(d.local, key), At(d.base, key);
    var h1, h2 := Edited(w.hub, env.before), Outside(w.hub, env);
    var R := if B.None? && key !in d.view then None else At(h1.objs, key);
    OutsideSound(w.hub, env);
    if L.None? {
      assert RunPush(w, key, c, env) == w.(dev := d.MarkDirty({key}));
    } else if R != B {
      RedecideHarmless(w, key, R, c, env);
    } else if At(d.view, key) == L && key in h2.objs {
      LedgerStepHarmless(w, d.Agree(key, L.value), h2);
    } else if !env.transfers {
      LedgerStepHarmless(w, d, h2);
    } else if CasPut(h2, key, L.value, B).None? {
      RedecideHarmless(w, key, At(h2.objs, key), c, env);
    } else {
      CasPutHarmless(w, key, L.value, h2, env.effects);
    }
  }

  lemma PullHarmless(w: World, key: Key, want: Option<Sha>, c: Config, env: Env)
    requires Sound(w) && EnvOk(w, env)
    ensures Harmless(w, RunPull(w, key, want, c, env))
  {
    OutsideSound(w.hub, env);
    var h := Outside(w.hub, env);
    var d := FreshRemote(w.dev, key, WantOf(want), env);
    FreshIsLedgerStep(w.dev, key, WantOf(want), env, h.past);
    ReconcileIsLedgerStep(d, key, c, h.past);
    FreshIsLedgerStep(d, key, Afresh, env, h.past);
  }

  lemma DeleteRemoteHarmless(w: World, key: Key, c: Config, env: Env)
    requires Sound(w) && EnvOk(w, env)
    ensures Harmless(w, RunDeleteRemote(w, key, c, env))
  {
    OutsideSound(w.hub, env);
    var d, h := w.dev, Outside(w.hub, env);
    var L, B, R := At(d.local, key), At(d.base, key), At(d.view, key);
    var gone := d.(view := d.view - {key});
    if B.None? {
      LedgerStepHarmless(w, d, w.hub);
    } else if L.Some? {
      LedgerStepHarmless(w, d.MarkDirty({key}), w.hub);
    } else if R.None? {
      LedgerStepHarmless(w, d.Forget(key), w.hub);
    } else if R != B {
      RedecideHarmless(w, key, R, c, env);
    } else if key !in h.objs {
      LedgerStepHarmless(w, gone.Forget(key), h);
    } else if At(h.objs, key) != B {
      RedecideHarmless(w, key, At(h.objs, key), c, env);
    } else {
      var h' := HubDrop(h, key, true, B);
      LedgerStepHarmless(w, d, h');
      LedgerStepHarmless(w, gone.Forget(key), h');
    }
  }

  lemma TrashLocalHarmless(w: World, key: Key, env: Env)
    requires Sound(w)
    ensures Harmless(w, RunTrashLocal(w, key, env))
  {
    if key in w.dev.local {
      ArchiveKeeps(w.dev.trash, key, w.dev.local[key], env);
    }
  }

  lemma RenameRemoteHarmless(w: World, from: Key, target: Key, env: Env)
    requires Sound(w) && EnvOk(w, env)
    ensures Harmless(w, RunRenameRemote(w, from, target, env))
  {
    OutsideSound(w.hub, env);
    var d, h := w.dev, Outside(w.hub, env);
    if target in d.base {
      var B := d.base[target];
      if from !in d.view || (At(d.view, from) == Some(B) && target !in d.view && target !in h.objs && from !in h.objs) {
        var f := FreshRemote(d, from, Exactly(B), env);
        FreshIsLedgerStep(d, from, Exactly(B), env, h.past);
        LedgerStepHarmless(w, AppendJob(f, RenameRemote(from, target)), h);
        LedgerStepHarmless(w, f.Forget(target).MarkDirty({target}), h);
      } else if d.view[from] != B || target in d.view || target in h.objs || At(h.objs, from) != Some(B) {
        var f := FreshRemote(d, target, Afresh, env);
        FreshIsLedgerStep(d, target, Afresh, env, h.past);
        LedgerStepHarmless(w, f.Forget(target).MarkDirty({from, target}), h);
      } else {
        var h' := HubMove(h, from, target, true, Some(B));
        LedgerStepHarmless(w, d, h');
        LedgerStepHarmless(w, d.(view := (d.view - {from})[target := B]).Agree(target, B), h');
      }
    }
  }

  lemma RenameLocalHarmless(w: World, from: Key, target: Key, env: Env)
    requires Sound(w)
    ensures Harmless(w, RunRenameLocal(w, from, target, env))
  {
  }

  lemma UploadHarmless(w: World, sha: Sha, c: Config, env: Env)
    requires Sound(w)
    ensures var r := UploadConflict(w, sha, c, env);
            && Harmless(w, r)
            && r.dev.local == w.dev.local && r.dev.conflicts == w.dev.conflicts
            && r.dev.trash == w.dev.trash && r.dev.base == w.dev.base
  {
  }

  /** Once local content is archived, the key may be overwritten with any content the hub held. */
  lemma OverwriteHarmless(w: World, e: Device, h: Hub, key: Key, sha: Sha)
    requires Sound(w) && key in w.dev.local && sha in h.past
    requires e.local == w.dev.local[key := sha] && AllIn(e.base, h.past) && AllIn(e.view, h.past)
    requires w.dev.trash <= e.trash && w.dev.conflicts <= e.conflicts
    requires exists k :: (k, w.dev.local[key]) in e.conflicts
    requires AllIn(h.objs, h.past) && w.hub.past <= h.past && (NoLostUpdate(w.hub) ==> NoLostUpdate(h))
    ensures Harmless(w, World(e, h))
  {
  }

  lemma KeepHarmless(w: World, e: Device, h: Hub)
    requires Sound(w) && e.local == w.dev.local && AllIn(e.base, h.past) && AllIn(e.view, h.past)
    requires w.dev.trash <= e.trash && w.dev.conflicts <= e.conflicts
    requires AllIn(h.objs, h.past) && w.hub.past <= h.past && (NoLostUpdate(w.hub) ==> NoLostUpdate(h))
    ensures Harmless(w, World(e, h))
  {
  }

  lemma ConflictHarmless(w: World, key: Key, c: Config, env: Env)
    requires Sound(w) && EnvOk(w, env)
    ensures Harmless(w, RunConflict(w, key, c, env))
  {
    OutsideSound(w.hub, env);
    var d := w.dev;
    var L, B := At(d.local, key), At(d.base, key);
    var h1, h2 := Edited(w.hub, env.before), Outside(w.hub, env);
    var R := At(h1.objs, key);
    if L.None? {
      KeepHarmless(w, d.MarkDirty({key}), w.hub);
    } else if R.None? {
      KeepHarmless(w, d.Forget(key).MarkDirty({key}), h1);
    } else if R == L || R == B {
      ReconcileHarmless(w, d, key, c, h1);
    } else {
      ArchiveKeeps(d.conflicts, env.copyKey, L.value, env);
      var kept := d.(conflicts := Archive(d.conflicts, env.copyKey, L.value, env));
      var up := UploadConflict(World(kept, h2), L.value, c, env);
      UploadHarmless(World(kept, h2), L.value, c, env);
      KeepHarmless(w, d, h1);
      KeepHarmless(w, kept, h1);
      KeepHarmless(w, up.dev, up.hub);
      var f := FreshRemote(up.dev, key, Exactly(R.value), env);
      FreshIsLedgerStep(up.dev, key, Exactly(R.value), env, up.hub.past);
      if key !in f.view {
        KeepHarmless(w, f.MarkDirty({key}), up.hub);
      } else {
        var placed := f.(local := f.local[key := f.view[key]]);
        OverwriteHarmless(w, placed, up.hub, key, f.view[key]);
        OverwriteHarmless(w, placed.Agree(key, R.value), up.hub, key, f.view[key]);
      }
    }
  }

  lemma RevertHarmless(w: World, key: Key, want: Option<Sha>, c: Config, env: Env)
    requires Sound(w) && EnvOk(w, env)
    ensures Harmless(w, RunRevert(w, key, want, c, env))
  {
    OutsideSound(w.hub, env);
    var h, L := Outside(w.hub, env), At(w.dev.local, key);
    if L.None? {
      KeepHarmless(w, w.dev.MarkDirty({key}), h);
    } else {
      var d := FreshRemote(w.dev, key, WantOf(want), env);
      FreshIsLedgerStep(w.dev, key, WantOf(want), env, h.past);
      var R := At(d.view, key);
      if R.None? || R == L {
        ReconcileHarmless(w, d, key, c, h);
      } else {
        ArchiveKeeps(d.conflicts, env.copyKey, L.value, env);
        var kept := d.(conflicts := Archive(d.conflicts, env.copyKey, L.value, env));
        KeepHarmless(w, d, h);
        KeepHarmless(w, kept, h);
        var placed := kept.(local := kept.local[key := R.value]);
        OverwriteHarmless(w, placed, h, key, R.value);
        OverwriteHarmless(w, placed.Agree(key, R.value), h, key, R.value);
      }
    }
  }

  /** Any job at all, stale or not, run at any time, is harmless. */
  lemma JobHarmless(w: World, job: Job, c: Config, env: Env)
    requires Sound(w) && EnvOk(w, env)
    ensures Harmless(w, RunJob(w, job, c, env))
  {
    match job
    case Push(key) => PushHarmless(w, key, c, env);
    case Pull(key, want) => PullHarmless(w, key, want, c, env);
    case DeleteRemote(key) => DeleteRemoteHarmless(w, key, c, env);
    case TrashLocal(key) => TrashLocalHarmless(w, key, env);
    case RenameRemote(from, target) => RenameRemoteHarmless(w, from, target, env);
    case RenameLocal(from, target) => RenameLocalHarmless(w, from, target, env);
    case Conflict(key) => ConflictHarmless(w, key, c, env);
    case Revert(key, want) => RevertHarmless(w, key, want, c, env);
  }
}
