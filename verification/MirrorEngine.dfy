/** The mirror as the object that runs: folder, view, ledger, queue and dirty
    set updated step by step, against a hub that others edit meanwhile. Every
    method is tied to the value function the theorems are about, and carries
    over what they promise a caller. */
module MirrorEngine {
  import opened Options
  import opened MirrorModel
  import opened MirrorSafety
  import opened MirrorOutcomes

  /** The hub, with conditional writes and a record of who replaced what. */
  class HubServer {
    var objs: Files
    var past: set<Sha>
    var inbox: set<Sha>
    var writes: seq<Write>

    ghost function State(): Hub
      reads this
    {
      Hub(objs, past, inbox, writes)
    }

    constructor ()
      ensures State() == Hub(map[], {}, {}, [])
    {
      objs, past, inbox, writes := map[], {}, {}, [];
    }

    method Store(key: Key, sha: Sha, mine: bool, agreed: Option<Sha>)
      modifies this
      ensures State() == HubSet(old(State()), key, sha, mine, agreed)
    {
      writes := writes + [Write(mine, key, At(objs, key), agreed)];
      objs := objs[key := sha];
      past := past + {sha};
    }

    method Drop(key: Key, mine: bool, agreed: Option<Sha>)
      modifies this
      ensures State() == HubDrop(old(State()), key, mine, agreed)
    {
      writes := writes + [Write(mine, key, At(objs, key), agreed)];
      objs := objs - {key};
    }

    method Move(from: Key, target: Key, mine: bool, agreed: Option<Sha>)
      requires from in objs
      modifies this
      ensures State() == HubMove(old(State()), from, target, mine, agreed)
    {
      writes := writes + [Write(mine, from, At(objs, from), agreed)];
      var sha := objs[from];
      objs := (objs - {from})[target := sha];
    }

    method ApplyEdits(es: seq<HubEdit>)
      modifies this
      ensures State() == Edited(old(State()), es)
    {
      ghost var start := State();
      for i := 0 to |es|
        invariant Edited(State(), es[i..]) == Edited(start, es)
      {
        assert es[i..][0] == es[i] && es[i..][1..] == es[i + 1..];
        match es[i]
        case EditPut(key, sha) => Store(key, sha, false, None);
        case EditDelete(key) => Drop(key, false, None);
        case EditRename(from, target) => if from in objs { Move(from, target, false, None); }
      }
      assert es[|es|..] == [];
    }

    /** `PUT` under If-Match (an agreed content) or If-None-Match: * (none). */
    method PutIf(key: Key, sha: Sha, agreed: Option<Sha>) returns (ok: bool)
      modifies this
      ensures ok <==> At(old(objs), key) == agreed
      ensures objs == if ok then old(objs)[key := sha] else old(objs)
      ensures old(NoLostUpdate(State())) ==> NoLostUpdate(State())
      ensures ok <==> CasPut(old(State()), key, sha, agreed).Some?
      ensures State() == if ok then CasPut(old(State()), key, sha, agreed).value else old(State())
    {
      if At(objs, key) != agreed { return false; }
      Store(key, sha, true, agreed);
      return true;
    }
  }

  class Mirror {
    const hub: HubServer
    const c: Config
    var local: Files
    var view: Files
    var base: Files
    var trash: set<(Key, Sha)>
    var conflicts: set<(Key, Sha)>
    var queue: set<Job>
    var dirty: set<Key>
    var skips: set<Key>

    ghost function Dev(): Device
      reads this
    {
      Device(local, view, base, trash, conflicts, queue, dirty, skips)
    }

    ghost function W(): World
      reads this, hub
    {
      World(Dev(), hub.State())
    }

    constructor (hub: HubServer, c: Config)
      ensures this.hub == hub && this.c == c
      ensures Dev() == Device(map[], map[], map[], {}, {}, {}, {}, {})
    {
      this.hub, this.c := hub, c;
      local, view, base, trash, conflicts := map[], map[], map[], {}, {};
      queue, dirty, skips := {}, {}, {};
    }

    // ── Ledger and queue ────────────────────────────────────────────────────

    method CancelKey(key: Key)
      modifies `queue
      ensures Dev() == CancelByKey(old(Dev()), key)
    {
      queue := set j | j in queue && !j.Names(key);
    }

    method EnqueueJob(job: Job)
      requires !job.IsRename()
      modifies `queue
      ensures Dev() == Enqueue(old(Dev()), job)
    {
      var superseded := set j | j in queue && j.Names(job.key) && !j.IsRename();
      queue := queue - superseded + {job};
    }

    method ReconcileKey(key: Key)
      modifies `base, `queue, `skips
      ensures Dev() == Reconcile(old(Dev()), key, c)
      ensures Reconciled(old(Dev()), Dev(), key)
      ensures key != "" && c.inScope(key) && c.valid(key) && old(At(local, key) == At(view, key)) ==> Agreed(Dev(), key)
      ensures old(Sound(W())) ==> Harmless(old(W()), W())
    {
      ReconcileOutcome(Dev(), key, c);
      if Sound(W()) { ReconcileHarmless(W(), Dev(), key, c, hub.State()); }
      if key == "" || !c.inScope(key) { return; }
      if !c.valid(key) { skips := skips + {key}; return; }
      var L, B, R := At(local, key), At(base, key), At(view, key);
      ActOn(key, Direct(Decide(L, B, R), B, R, c.direction));
    }

    /** Queues, records or reports what was decided for the key. */
    method ActOn(key: Key, todo: Decision)
      modifies `base, `queue, `skips
      ensures Dev() == Act(old(Dev()), key, todo, c)
    {
      var L, R := At(local, key), At(view, key);
      if todo.SkipIt? {
        CancelKey(key);
        skips := skips + {key};
        return;
      }
      skips := skips - {key};
      match todo
      case Nothing =>
      case RevertIt(_) => EnqueueJob(Revert(key, R));
      case PushIt(ifMatch) =>
        if ifMatch.None? { base := base - {key}; }
        EnqueueJob(Push(key));
      case DeleteRemoteIt(_) =>
        if c.propagateDeletes { EnqueueJob(DeleteRemote(key)); } else { base := base - {key}; }
      case PullIt(_) => EnqueueJob(Pull(key, R));
      case TrashLocalIt => EnqueueJob(TrashLocal(key));
      case Adopt =>
        CancelKey(key);
        if L.Some? { base := base[key := L.value]; } else { base := base - {key}; }
      case ConflictIt(_) => EnqueueJob(Conflict(key));
    }

    method SeeLocalRename(from: Key, target: Key)
      modifies `base, `queue, `dirty
      ensures Dev() == LocalRenamed(old(Dev()), from, target, c)
      ensures CarriedOver(old(Dev()), Dev(), from, target, c)
      ensures old(Sound(W())) ==> Harmless(old(W()), W())
    {
      LocalRenameOutcome(Dev(), from, target, c);
      if Sound(W()) { KeepHarmless(W(), LocalRenamed(Dev(), from, target, c), hub.State()); }
      if c.direction == PullOnly || from !in base || target in base || !c.inScope(from) || !c.inScope(target) {
        dirty := dirty + {from, target};
        return;
      }
      var moved := base[from];
      base := (base - {from})[target := moved];
      queue := set j | j in queue && !(j.Push? && j.key == from);
      queue := queue + {RenameRemote(from, target)};
      dirty := dirty + {target};
    }

    method SeeHubRename(from: Key, target: Key)
      modifies `queue, `dirty
      ensures Dev() == RemoteRenamed(old(Dev()), from, target, c)
      ensures Followed(old(Dev()), Dev(), from, target, c)
      ensures old(Sound(W())) ==> Harmless(old(W()), W())
    {
      HubRenameOutcome(Dev(), from, target, c);
      if Sound(W()) { KeepHarmless(W(), RemoteRenamed(Dev(), from, target, c), hub.State()); }
      var L, B := At(local, from), At(base, from);
      if c.direction != PushOnly && L.Some? && L == B && target !in local && c.inScope(from) && c.inScope(target) {
        queue := queue + {RenameLocal(from, target)};
        return;
      }
      dirty := dirty + {from, target};
    }

    method Freshen(key: Key, want: Want, env: Env)
      modifies `view
      ensures Dev() == FreshRemote(old(Dev()), key, want, env)
    {
      if key in view && (want.Anything? || (want.Exactly? && view[key] == want.sha)) { return; }
      view := env.polled;
    }

    method RedecideKey(key: Key, R: Option<Sha>, env: Env)
      modifies `view, `base, `queue, `skips
      ensures Dev() == Redecide(old(Dev()), key, R, c, env)
    {
      if R.Some? {
        Freshen(key, Exactly(R.value), env);
      } else if key in view {
        Freshen(key, Afresh, env);
      }
      match Decide(At(local, key), At(base, key), R)
      case Adopt => ReconcileKey(key);
      case PushIt(_) => ReconcileKey(key);
      case DeleteRemoteIt(_) => ReconcileKey(key);
      case PullIt(sha) => EnqueueJob(Pull(key, Some(sha)));
      case TrashLocalIt => EnqueueJob(TrashLocal(key));
      case ConflictIt(_) => EnqueueJob(Conflict(key));
      case _ =>
    }

    // ── Jobs ────────────────────────────────────────────────────────────────

    method DoPush(key: Key, env: Env)
      modifies this, hub
      ensures W() == RunPush(old(W()), key, c, env)
      ensures Pushed(old(W()), W(), key, env)
    {
      PushOutcome(W(), key, c, env);
      var L, B := At(local, key), At(base, key);
      if L.None? { dirty := dirty + {key}; return; }
      var brandNew := B.None? && key !in view;
      hub.ApplyEdits(env.before);
      var R := if brandNew then None else At(hub.objs, key);
      hub.ApplyEdits(env.during);
      if R != B { RedecideKey(key, R, env); return; }
      if At(view, key) == L && key in hub.objs { base := base[key := L.value]; return; }
      if !env.transfers { return; }
      var ok := hub.PutIf(key, L.value, B);
      if !ok { RedecideKey(key, At(hub.objs, key), env); return; }
      if env.effects <= 1 { return; }
      view := view[key := L.value];
      base := base[key := L.value];
    }

    method DoPull(key: Key, want: Option<Sha>, env: Env)
      modifies this, hub
      ensures W() == RunPull(old(W()), key, want, c, env)
      ensures Pulled(old(W()), W(), key, env)
    {
      PullOutcome(W(), key, want, c, env);
      hub.ApplyEdits(env.before);
      hub.ApplyEdits(env.during);
      Freshen(key, WantOf(want), env);
      var L, B, R := At(local, key), At(base, key), At(view, key);
      if R.None? { dirty := dirty + {key}; return; }
      if L == R || (L.Some? && L != B) { ReconcileKey(key); return; }
      if !env.transfers {
        Freshen(key, Afresh, env);
        dirty := dirty + {key};
        return;
      }
      local := local[key := R.value];
      if env.effects <= 1 { return; }
      base := base[key := R.value];
    }

    method DoDeleteRemote(key: Key, env: Env)
      modifies this, hub
      ensures W() == RunDeleteRemote(old(W()), key, c, env)
      ensures DeletedRemote(old(W()), W(), key, env)
    {
      DeleteOutcome(W(), key, c, env);
      var L, B, R := At(local, key), At(base, key), At(view, key);
      if B.None? { return; }
      if L.Some? { dirty := dirty + {key}; return; }
      if R.None? { base := base - {key}; return; }
      hub.ApplyEdits(env.before);
      hub.ApplyEdits(env.during);
      if R != B { RedecideKey(key, R, env); return; }
      if key in hub.objs && At(hub.objs, key) != B { RedecideKey(key, At(hub.objs, key), env); return; }
      if key in hub.objs {
        hub.Drop(key, true, B);
        if env.effects <= 1 { return; }
      }
      view := view - {key};
      base := base - {key};
    }

    method DoTrashLocal(key: Key, env: Env)
      modifies this
      ensures W() == RunTrashLocal(old(W()), key, env)
      ensures Trashed(old(W()), W(), key)
    {
      TrashOutcome(W(), key, env);
      var L, B, R := At(local, key), At(base, key), At(view, key);
      if L.None? { base := base - {key}; return; }
      if L != B || R.Some? { dirty := dirty + {key}; return; }
      if (key, L.value) in trash { base := base - {key}; return; }
      if !env.transfers { return; }
      trash := Archive(trash, key, L.value, env);
      local := local - {key};
      if env.effects <= 1 { return; }
      base := base - {key};
    }

    method DoRenameRemote(from: Key, target: Key, env: Env)
      modifies this, hub
      ensures W() == RunRenameRemote(old(W()), from, target, env)
      ensures RenamedThere(old(W()), W(), from, target, env)
    {
      RenameRemoteOutcome(W(), from, target, env);
      if target !in base { dirty := dirty + {target}; return; }
      var B := base[target];
      hub.ApplyEdits(env.before);
      hub.ApplyEdits(env.during);
      if from !in view || (view[from] == B && target !in view && target !in hub.objs && from !in hub.objs) {
        Freshen(from, Exactly(B), env);
        if from in view {
          queue := queue + {RenameRemote(from, target)};
        } else {
          base := base - {target};
          dirty := dirty + {target};
        }
        return;
      }
      if view[from] != B || target in view || target in hub.objs || At(hub.objs, from) != Some(B) {
        Freshen(target, Afresh, env);
        base := base - {target};
        dirty := dirty + {from, target};
        return;
      }
      hub.Move(from, target, true, Some(B));
      if env.effects <= 1 { return; }
      view := (view - {from})[target := B];
      base := base[target := B];
    }

    method DoRenameLocal(from: Key, target: Key, env: Env)
      modifies this
      ensures W() == RunRenameLocal(old(W()), from, target, env)
      ensures RenamedHere(old(W()), W(), from, target, env)
    {
      RenameLocalOutcome(W(), from, target, env);
      var L, B := At(local, from), At(base, from);
      if L.None? || L != B || target in local { dirty := dirty + {from, target}; return; }
      if !env.transfers { return; }
      local := (local - {from})[target := L.value];
      if env.effects <= 1 { return; }
      base := (base - {from})[target := B.value];
    }

    method DoConflict(key: Key, env: Env)
      modifies this, hub
      ensures W() == RunConflict(old(W()), key, c, env)
      ensures Resolved(old(W()), W(), key, c, env)
    {
      ConflictOutcome(W(), key, c, env);
      var L, B := At(local, key), At(base, key);
      if L.None? { dirty := dirty + {key}; return; }
      hub.ApplyEdits(env.before);
      var R := At(hub.objs, key);
      if R.None? { base := base - {key}; dirty := dirty + {key}; return; }
      if R == L || R == B { ReconcileKey(key); return; }
      if !env.transfers { return; }
      conflicts := Archive(conflicts, env.copyKey, L.value, env);
      if env.effects <= 1 { return; }
      hub.ApplyEdits(env.during);
      OfferCopy(L.value, env);
      if env.effects <= 2 { return; }
      Freshen(key, Exactly(R.value), env);
      if key !in view { dirty := dirty + {key}; return; }
      local := local[key := view[key]];
      if env.effects <= 3 { return; }
      base := base[key := R.value];
    }

    /** Offers the device's version to the hub: an inbox document, or an object at the copy key. */
    method OfferCopy(sha: Sha, env: Env)
      modifies `view, hub
      ensures W() == UploadConflict(old(W()), sha, c, env)
    {
      if !c.renameConflicts {
        hub.inbox := hub.inbox + {sha};
      } else if env.copyKey !in hub.objs {
        hub.Store(env.copyKey, sha, true, None);
        view := view[env.copyKey := sha];
      }
    }

    method DoRevert(key: Key, want: Option<Sha>, env: Env)
      modifies this, hub
      ensures W() == RunRevert(old(W()), key, want, c, env)
      ensures Reverted(old(W()), W(), key, env)
    {
      RevertOutcome(W(), key, want, c, env);
      hub.ApplyEdits(env.before);
      hub.ApplyEdits(env.during);
      var L := At(local, key);
      if L.None? { dirty := dirty + {key}; return; }
      Freshen(key, WantOf(want), env);
      var R := At(view, key);
      if R.None? || R == L { ReconcileKey(key); return; }
      if !env.transfers { return; }
      conflicts := Archive(conflicts, env.copyKey, L.value, env);
      if env.effects <= 1 { return; }
      local := local[key := R.value];
      if env.effects <= 2 { return; }
      base := base[key := R.value];
    }

    method Execute(job: Job, env: Env)
      modifies this, hub
      ensures W() == RunJob(old(W()), job, c, env)
      ensures old(Sound(W())) && EnvOk(old(W()), env) ==> Harmless(old(W()), W())
      ensures SidesKept(old(W()), W(), job, c, env)
      ensures JobDid(old(W()), W(), job, c, env)
    {
      if Sound(W()) && EnvOk(W(), env) { JobHarmless(W(), job, c, env); }
      JobKeepsSides(W(), job, c, env);
      match job
      case Push(key) => DoPush(key, env);
      case Pull(key, want) => DoPull(key, want, env);
      case DeleteRemote(key) => DoDeleteRemote(key, env);
      case TrashLocal(key) => DoTrashLocal(key, env);
      case RenameRemote(from, target) => DoRenameRemote(from, target, env);
      case RenameLocal(from, target) => DoRenameLocal(from, target, env);
      case Conflict(key) => DoConflict(key, env);
      case Revert(key, want) => DoRevert(key, want, env);
    }
  }
}
