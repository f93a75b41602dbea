/** What a mirror achieves when nothing interferes: whose content a key ends up
    with, in each direction, and that a rename on either side arrives on the other. */
module MirrorEffects {
  import opened Options
  import opened MirrorModel
  import opened MirrorSafety
  import opened MirrorOutcomes
  import opened MirrorConvergence

  /** Folder, ledger and hub content of a key. */
  predicate Is(w: World, key: Key, L: Option<Sha>, B: Option<Sha>, R: Option<Sha>) {
    At(w.dev.local, key) == L && At(w.dev.base, key) == B && At(w.hub.objs, key) == R
  }

  predicate AllAre(w: World, key: Key, s: Option<Sha>) {
    Is(w, key, s, s, s)
  }

  ghost predicate InTrash(d: Device, sha: Sha) {
    exists k :: (k, sha) in d.trash
  }

  /** Every other key is as it was. */
  ghost predicate OthersAre(w: World, t: World, key: Key) {
    Fresh(t) && forall k | k != key :: Is(t, k, At(w.dev.local, k), At(w.dev.base, k), At(w.hub.objs, k))
  }

  // ── Whose content a key ends up with ──────────────────────────────────────

  /** What a reconcile of a quiet world hands to the job it queued. */
  lemma QuietReconcile(w: World, key: Key, c: Config)
    requires Fresh(w)
    ensures var v := w.(dev := Reconcile(w.dev, key, c).(queue := {}));
            && Fresh(v) && v.dev.local == w.dev.local && v.dev.trash == w.dev.trash && v.dev.conflicts == w.dev.conflicts
            && forall k | k != key :: At(v.dev.base, k) == At(w.dev.base, k)
  {
    ReconcileOutcome(w.dev, key, c);
  }

  /** Changed on the hub alone: the hub's content arrives, in direction `push` nothing
      does. A file deleted on the hub is dropped here, and is in the trash. */
  lemma HubChangeArrives(w: World, key: Key, c: Config, copyKey: Key, freeKey: Key)
    requires Fresh(w) && Tracked(key, c)
    requires At(w.dev.local, key) == At(w.dev.base, key) != At(w.hub.objs, key)
    ensures var L, R, t := At(w.dev.local, key), At(w.hub.objs, key), Tick(w, key, c, copyKey, freeKey);
            && OthersAre(w, t, key)
            && (c.direction == PushOnly ==> Is(t, key, L, L, R))
            && (c.direction != PushOnly && R.Some? ==> AllAre(t, key, R))
            && (c.direction != PushOnly && R.None? ==>
                  InTrash(t.dev, L.value) && Is(t, key, if (key, L.value) in w.dev.trash then L else None, None, None))
  {
    if c.direction == PushOnly {
      HubChangeIgnored(w, key, c, copyKey, freeKey);
    } else if key in w.hub.objs {
      HubEditPulled(w, key, c, copyKey, freeKey);
    } else {
      HubDeleteTrashed(w, key, c, copyKey, freeKey);
    }
  }

  lemma HubChangeIgnored(w: World, key: Key, c: Config, copyKey: Key, freeKey: Key)
    requires Fresh(w) && Tracked(key, c)
    requires c.direction == PushOnly && At(w.dev.local, key) == At(w.dev.base, key) != At(w.hub.objs, key)
    ensures var L, B, R, t := At(w.dev.local, key), At(w.dev.base, key), At(w.hub.objs, key), Tick(w, key, c, copyKey, freeKey);
            OthersAre(w, t, key) && Is(t, key, L, L, R)
  {
    ReconcileQueues(w.dev, key, c);
    QuietReconcile(w, key, c);
    var v, env := w.(dev := Reconcile(w.dev, key, c).(queue := {})), QuietEnv(w, copyKey, freeKey);
    assert Queued(w.dev, key, c) == None;
  }

  lemma HubEditPulled(w: World, key: Key, c: Config, copyKey: Key, freeKey: Key)
    requires Fresh(w) && Tracked(key, c)
    requires c.direction != PushOnly && key in w.hub.objs && At(w.dev.local, key) == At(w.dev.base, key) != At(w.hub.objs, key)
    ensures var L, B, R, t := At(w.dev.local, key), At(w.dev.base, key), At(w.hub.objs, key), Tick(w, key, c, copyKey, freeKey);
            OthersAre(w, t, key) && AllAre(t, key, R)
  {
    ReconcileQueues(w.dev, key, c);
    QuietReconcile(w, key, c);
    var v, env := w.(dev := Reconcile(w.dev, key, c).(queue := {})), QuietEnv(w, copyKey, freeKey);
    QuietPull(v, key, c, env);
  }

  lemma HubDeleteTrashed(w: World, key: Key, c: Config, copyKey: Key, freeKey: Key)
    requires Fresh(w) && Tracked(key, c)
    requires c.direction != PushOnly && key !in w.hub.objs && key in w.dev.local && At(w.dev.local, key) == At(w.dev.base, key)
    ensures var L, B, R, t := At(w.dev.local, key), At(w.dev.base, key), At(w.hub.objs, key), Tick(w, key, c, copyKey, freeKey);
            && OthersAre(w, t, key) && InTrash(t.dev, L.value)
            && Is(t, key, if (key, L.value) in w.dev.trash then L else None, None, None)
  {
    ReconcileQueues(w.dev, key, c);
    QuietReconcile(w, key, c);
    var v, env := w.(dev := Reconcile(w.dev, key, c).(queue := {})), QuietEnv(w, copyKey, freeKey);
    QuietTrash(v, key, env);
    ArchiveKeeps(w.dev.trash, key, w.dev.local[key], env);
  }

  /** Changed here alone: the change arrives on the hub. In direction `pull` it is
      undone instead, an edit after it was put aside; a new file stays as it is. */
  lemma LocalChangeArrives(w: World, key: Key, c: Config, copyKey: Key, freeKey: Key)
    requires Fresh(w) && Tracked(key, c)
    requires At(w.dev.local, key) != At(w.dev.base, key) == At(w.hub.objs, key)
    ensures var L, R, t := At(w.dev.local, key), At(w.hub.objs, key), Tick(w, key, c, copyKey, freeKey);
            && OthersAre(w, t, key)
            && (c.direction != PullOnly && (L.Some? || c.propagateDeletes) ==> AllAre(t, key, L))
            && (c.direction != PullOnly && L.None? && !c.propagateDeletes ==> Is(t, key, None, None, R))
            && (c.direction == PullOnly && R.Some? ==> AllAre(t, key, R) && (L.Some? ==> KeptAside(t.dev, L.value)))
            && (c.direction == PullOnly && R.None? ==> Is(t, key, L, None, None))
  {
    if c.direction == PullOnly {
      if key in w.hub.objs { EditUndone(w, key, c, copyKey, freeKey); } else { NewFileStays(w, key, c, copyKey, freeKey); }
    } else if key in w.dev.local {
      EditPushed(w, key, c, copyKey, freeKey);
    } else {
      DeletePushed(w, key, c, copyKey, freeKey);
    }
  }

  lemma EditPushed(w: World, key: Key, c: Config, copyKey: Key, freeKey: Key)
    requires Fresh(w) && Tracked(key, c)
    requires c.direction != PullOnly && key in w.dev.local && At(w.dev.local, key) != At(w.dev.base, key) == At(w.hub.objs, key)
    ensures var L, B, R, t := At(w.dev.local, key), At(w.dev.base, key), At(w.hub.objs, key), Tick(w, key, c, copyKey, freeKey);
            OthersAre(w, t, key) && AllAre(t, key, L)
  {
    ReconcileQueues(w.dev, key, c);
    QuietReconcile(w, key, c);
    var v, env := w.(dev := Reconcile(w.dev, key, c).(queue := {})), QuietEnv(w, copyKey, freeKey);
    QuietPush(v, key, c, env);
  }

  lemma DeletePushed(w: World, key: Key, c: Config, copyKey: Key, freeKey: Key)
    requires Fresh(w) && Tracked(key, c)
    requires c.direction != PullOnly && key !in w.dev.local && key in w.hub.objs && At(w.dev.base, key) == At(w.hub.objs, key)
    ensures var L, B, R, t := At(w.dev.local, key), At(w.dev.base, key), At(w.hub.objs, key), Tick(w, key, c, copyKey, freeKey);
            && OthersAre(w, t, key)
            && if c.propagateDeletes then AllAre(t, key, None) else Is(t, key, None, None, R)
  {
    ReconcileQueues(w.dev, key, c);
    QuietReconcile(w, key, c);
    var v, env := w.(dev := Reconcile(w.dev, key, c).(queue := {})), QuietEnv(w, copyKey, freeKey);
    if c.propagateDeletes { QuietDelete(v, key, c, env); }
  }

  lemma LocalEditUndone(w: World, key: Key, c: Config, copyKey: Key, freeKey: Key)
    requires Fresh(w) && Tracked(key, c)
    requires c.direction == PullOnly && key in w.hub.objs && key in w.dev.local
    requires At(w.dev.local, key) != At(w.dev.base, key) == At(w.hub.objs, key)
    ensures var L, B, R, t := At(w.dev.local, key), At(w.dev.base, key), At(w.hub.objs, key), Tick(w, key, c, copyKey, freeKey);
            OthersAre(w, t, key) && AllAre(t, key, R) && KeptAside(t.dev, L.value)
  {
    ReconcileQueues(w.dev, key, c);
    QuietReconcile(w, key, c);
    var v, env := w.(dev := Reconcile(w.dev, key, c).(queue := {})), QuietEnv(w, copyKey, freeKey);
    assert Queued(w.dev, key, c) == Some(Revert(key, At(w.hub.objs, key)));
    QuietRevert(v, key, c, env);
  }

  lemma LocalDeleteUndone(w: World, key: Key, c: Config, copyKey: Key, freeKey: Key)
    requires Fresh(w) && Tracked(key, c)
    requires c.direction == PullOnly && key in w.hub.objs && key !in w.dev.local && At(w.dev.base, key) == At(w.hub.objs, key)
    ensures var L, B, R, t := At(w.dev.local, key), At(w.dev.base, key), At(w.hub.objs, key), Tick(w, key, c, copyKey, freeKey);
            OthersAre(w, t, key) && AllAre(t, key, R)
  {
    ReconcileQueues(w.dev, key, c);
    QuietReconcile(w, key, c);
    var v, env := w.(dev := Reconcile(w.dev, key, c).(queue := {})), QuietEnv(w, copyKey, freeKey);
    assert Queued(w.dev, key, c) == Some(Pull(key, At(w.hub.objs, key)));
    QuietPull(v, key, c, env);
  }

  lemma EditUndone(w: World, key: Key, c: Config, copyKey: Key, freeKey: Key)
    requires Fresh(w) && Tracked(key, c)
    requires c.direction == PullOnly && key in w.hub.objs && At(w.dev.local, key) != At(w.dev.base, key) == At(w.hub.objs, key)
    ensures var L, B, R, t := At(w.dev.local, key), At(w.dev.base, key), At(w.hub.objs, key), Tick(w, key, c, copyKey, freeKey);
            OthersAre(w, t, key) && AllAre(t, key, R) && (L.Some? ==> KeptAside(t.dev, L.value))
  {
    if key in w.dev.local { LocalEditUndone(w, key, c, copyKey, freeKey); } else { LocalDeleteUndone(w, key, c, copyKey, freeKey); }
  }

  lemma NewFileStays(w: World, key: Key, c: Config, copyKey: Key, freeKey: Key)
    requires Fresh(w) && Tracked(key, c)
    requires c.direction == PullOnly && key in w.dev.local && key !in w.dev.base && key !in w.hub.objs
    ensures var L, B, R, t := At(w.dev.local, key), At(w.dev.base, key), At(w.hub.objs, key), Tick(w, key, c, copyKey, freeKey);
            OthersAre(w, t, key) && Is(t, key, L, None, None)
  {
    ReconcileQueues(w.dev, key, c);
    QuietReconcile(w, key, c);
    var v, env := w.(dev := Reconcile(w.dev, key, c).(queue := {})), QuietEnv(w, copyKey, freeKey);
  }

  /** An edit undone: the hub's content is back, the edit in the conflicts folder. */
  lemma QuietRevert(w: World, key: Key, c: Config, env: Env)
    requires Quiet(w, env) && key in w.dev.local && key in w.hub.objs && At(w.dev.local, key) != At(w.hub.objs, key)
    ensures var R := At(w.hub.objs, key); var t := RunRevert(w, key, R, c, env);
            OthersAre(w, t, key) && AllAre(t, key, R) && KeptAside(t.dev, w.dev.local[key])
  {
    ArchiveKeeps(w.dev.conflicts, env.copyKey, w.dev.local[key], env);
  }

  /** Changed on both sides. The same change is agreed on. An edit beats a delete:
      it comes back here, or goes to the hub, as far as the direction allows. */
  lemma EditBeatsDelete(w: World, key: Key, c: Config, copyKey: Key, freeKey: Key)
    requires Fresh(w) && Tracked(key, c)
    requires At(w.dev.base, key) !in {At(w.dev.local, key), At(w.hub.objs, key)}
    requires At(w.dev.local, key) == At(w.hub.objs, key) || At(w.dev.local, key).None? || At(w.hub.objs, key).None?
    ensures var L, B, R, t := At(w.dev.local, key), At(w.dev.base, key), At(w.hub.objs, key), Tick(w, key, c, copyKey, freeKey);
            && OthersAre(w, t, key)
            && (L == R ==> AllAre(t, key, L))
            && (L.None? && R.Some? && c.direction != PushOnly ==> AllAre(t, key, R))
            && (L.None? && R.Some? && c.direction == PushOnly ==> Is(t, key, L, B, R))
            && (L.Some? && R.None? && c.direction != PullOnly ==> AllAre(t, key, L))
            && (L.Some? && R.None? && c.direction == PullOnly ==> Is(t, key, L, B, R))
  {
    if At(w.dev.local, key) == At(w.hub.objs, key) {
      SameChangeAgreed(w, key, c, copyKey, freeKey);
    } else if key in w.hub.objs {
      HubEditBeatsDelete(w, key, c, copyKey, freeKey);
    } else {
      EditBeatsHubDelete(w, key, c, copyKey, freeKey);
    }
  }

  lemma SameChangeAgreed(w: World, key: Key, c: Config, copyKey: Key, freeKey: Key)
    requires Fresh(w) && Tracked(key, c)
    requires At(w.dev.base, key) != At(w.dev.local, key) == At(w.hub.objs, key)
    ensures var L, B, R, t := At(w.dev.local, key), At(w.dev.base, key), At(w.hub.objs, key), Tick(w, key, c, copyKey, freeKey);
            OthersAre(w, t, key) && AllAre(t, key, L)
  {
    ReconcileQueues(w.dev, key, c);
    QuietReconcile(w, key, c);
    var v, env := w.(dev := Reconcile(w.dev, key, c).(queue := {})), QuietEnv(w, copyKey, freeKey);
  }

  lemma HubEditReturns(w: World, key: Key, c: Config, copyKey: Key, freeKey: Key)
    requires Fresh(w) && Tracked(key, c)
    requires c.direction != PushOnly && key !in w.dev.local && key in w.hub.objs && key in w.dev.base && At(w.dev.base, key) != At(w.hub.objs, key)
    ensures var L, B, R, t := At(w.dev.local, key), At(w.dev.base, key), At(w.hub.objs, key), Tick(w, key, c, copyKey, freeKey);
            OthersAre(w, t, key) && AllAre(t, key, R)
  {
    ReconcileQueues(w.dev, key, c);
    QuietReconcile(w, key, c);
    var v, env := w.(dev := Reconcile(w.dev, key, c).(queue := {})), QuietEnv(w, copyKey, freeKey);
    assert Queued(w.dev, key, c) == Some(Pull(key, At(w.hub.objs, key)));
    QuietPull(v, key, c, env);
  }

  lemma HubEditLeft(w: World, key: Key, c: Config, copyKey: Key, freeKey: Key)
    requires Fresh(w) && Tracked(key, c)
    requires c.direction == PushOnly && key !in w.dev.local && key in w.hub.objs && key in w.dev.base && At(w.dev.base, key) != At(w.hub.objs, key)
    ensures var L, B, R, t := At(w.dev.local, key), At(w.dev.base, key), At(w.hub.objs, key), Tick(w, key, c, copyKey, freeKey);
            OthersAre(w, t, key) && Is(t, key, L, B, R)
  {
    ReconcileQueues(w.dev, key, c);
    QuietReconcile(w, key, c);
    var v, env := w.(dev := Reconcile(w.dev, key, c).(queue := {})), QuietEnv(w, copyKey, freeKey);
    assert Queued(w.dev, key, c) == None;
  }

  lemma HubEditBeatsDelete(w: World, key: Key, c: Config, copyKey: Key, freeKey: Key)
    requires Fresh(w) && Tracked(key, c)
    requires key !in w.dev.local && key in w.hub.objs && key in w.dev.base && At(w.dev.base, key) != At(w.hub.objs, key)
    ensures var L, B, R, t := At(w.dev.local, key), At(w.dev.base, key), At(w.hub.objs, key), Tick(w, key, c, copyKey, freeKey);
            OthersAre(w, t, key) && if c.direction != PushOnly then AllAre(t, key, R) else Is(t, key, L, B, R)
  {
    if c.direction == PushOnly { HubEditLeft(w, key, c, copyKey, freeKey); } else { HubEditReturns(w, key, c, copyKey, freeKey); }
  }

  lemma EditBeatsHubDelete(w: World, key: Key, c: Config, copyKey: Key, freeKey: Key)
    requires Fresh(w) && Tracked(key, c)
    requires key in w.dev.local && key !in w.hub.objs && key in w.dev.base && At(w.dev.base, key) != At(w.dev.local, key)
    ensures var L, B, R, t := At(w.dev.local, key), At(w.dev.base, key), At(w.hub.objs, key), Tick(w, key, c, copyKey, freeKey);
            OthersAre(w, t, key) && if c.direction != PullOnly then AllAre(t, key, L) else Is(t, key, L, B, R)
  {
    ReconcileQueues(w.dev, key, c);
    QuietReconcile(w, key, c);
    var v, env := w.(dev := Reconcile(w.dev, key, c).(queue := {})), QuietEnv(w, copyKey, freeKey);
    if c.direction != PullOnly { QuietPush(v, key, c, env); }
  }

  /** Two different edits: the hub's keeps the name. Both directions that write here
      put the local one aside first, `bi` also offers it to the hub; `push` leaves both. */
  lemma ConflictResolves(w: World, key: Key, c: Config, copyKey: Key, freeKey: Key)
    requires Fresh(w) && Tracked(key, c) && copyKey != key && key in w.dev.local && key in w.hub.objs
    requires At(w.dev.local, key) != At(w.hub.objs, key)
    requires At(w.dev.base, key) !in {At(w.dev.local, key), At(w.hub.objs, key)}
    ensures var L, B, R, t := w.dev.local[key], At(w.dev.base, key), At(w.hub.objs, key), Tick(w, key, c, copyKey, freeKey);
            && (c.direction == PushOnly ==> Is(t, key, Some(L), B, R))
            && (c.direction != PushOnly ==> AllAre(t, key, R) && KeptAside(t.dev, L))
            && (c.direction == Bi ==> if c.renameConflicts then copyKey in t.hub.objs else L in t.hub.inbox)
            && (c.direction == Bi && c.renameConflicts && copyKey !in w.hub.objs ==> At(t.hub.objs, copyKey) == Some(L))
            && (forall k | k != key && k != copyKey :: Is(t, k, At(w.dev.local, k), At(w.dev.base, k), At(w.hub.objs, k)))
  {
    match c.direction
    case Bi => ConflictSettled(w, key, c, copyKey, freeKey);
    case PullOnly => ConflictUndone(w, key, c, copyKey, freeKey);
    case PushOnly => ConflictLeft(w, key, c, copyKey, freeKey);
  }

  lemma ConflictSettled(w: World, key: Key, c: Config, copyKey: Key, freeKey: Key)
    requires Fresh(w) && Tracked(key, c)
    requires copyKey != key && key in w.dev.local && key in w.hub.objs && At(w.dev.local, key) != At(w.hub.objs, key)
    requires At(w.dev.base, key) !in {At(w.dev.local, key), At(w.hub.objs, key)}
    requires c.direction == Bi
    ensures var L, B, R, t := At(w.dev.local, key), At(w.dev.base, key), At(w.hub.objs, key), Tick(w, key, c, copyKey, freeKey);
            && AllAre(t, key, R) && KeptAside(t.dev, L.value)
            && (if c.renameConflicts then copyKey in t.hub.objs else L.value in t.hub.inbox)
            && (c.renameConflicts && copyKey !in w.hub.objs ==> At(t.hub.objs, copyKey) == L)
            && (forall k | k != key && k != copyKey :: Is(t, k, At(w.dev.local, k), At(w.dev.base, k), At(w.hub.objs, k)))
  {
    ReconcileQueues(w.dev, key, c);
    QuietReconcile(w, key, c);
    var v, env := w.(dev := Reconcile(w.dev, key, c).(queue := {})), QuietEnv(w, copyKey, freeKey);
    QuietConflict(v, key, c, env);
    QuietOffer(v, key, c, env);
    assert TripleAt(RunConflict(v, key, c, env), key) == Triple(At(w.hub.objs, key), At(w.hub.objs, key), At(w.hub.objs, key));
  }

  lemma ConflictUndone(w: World, key: Key, c: Config, copyKey: Key, freeKey: Key)
    requires Fresh(w) && Tracked(key, c)
    requires copyKey != key && key in w.dev.local && key in w.hub.objs && At(w.dev.local, key) != At(w.hub.objs, key)
    requires At(w.dev.base, key) !in {At(w.dev.local, key), At(w.hub.objs, key)}
    requires c.direction == PullOnly
    ensures var L, B, R, t := At(w.dev.local, key), At(w.dev.base, key), At(w.hub.objs, key), Tick(w, key, c, copyKey, freeKey);
            AllAre(t, key, R) && KeptAside(t.dev, L.value) && OthersAre(w, t, key)
  {
    ReconcileQueues(w.dev, key, c);
    QuietReconcile(w, key, c);
    var v, env := w.(dev := Reconcile(w.dev, key, c).(queue := {})), QuietEnv(w, copyKey, freeKey);
    assert Queued(w.dev, key, c) == Some(Revert(key, At(w.hub.objs, key)));
    QuietRevert(v, key, c, env);
  }

  lemma ConflictLeft(w: World, key: Key, c: Config, copyKey: Key, freeKey: Key)
    requires Fresh(w) && Tracked(key, c)
    requires copyKey != key && key in w.dev.local && key in w.hub.objs && At(w.dev.local, key) != At(w.hub.objs, key)
    requires At(w.dev.base, key) !in {At(w.dev.local, key), At(w.hub.objs, key)}
    requires c.direction == PushOnly
    ensures var L, B, R, t := At(w.dev.local, key), At(w.dev.base, key), At(w.hub.objs, key), Tick(w, key, c, copyKey, freeKey);
            Is(t, key, L, B, R) && OthersAre(w, t, key)
  {
    ReconcileQueues(w.dev, key, c);
    QuietReconcile(w, key, c);
    var v, env := w.(dev := Reconcile(w.dev, key, c).(queue := {})), QuietEnv(w, copyKey, freeKey);
  }

  lemma QuietOffer(w: World, key: Key, c: Config, env: Env)
    requires Quiet(w, env) && env.copyKey != key && key in w.dev.local && key in w.hub.objs
    requires At(w.dev.local, key) != At(w.hub.objs, key) && At(w.dev.base, key) != At(w.hub.objs, key)
    ensures var t, L := RunConflict(w, key, c, env), w.dev.local[key];
            && KeptAside(t.dev, L)
            && (if c.renameConflicts then env.copyKey in t.hub.objs else L in t.hub.inbox)
            && (c.renameConflicts && env.copyKey !in w.hub.objs ==> At(t.hub.objs, env.copyKey) == Some(L))
  {
    var L := w.dev.local[key];
    ArchiveKeeps(w.dev.conflicts, env.copyKey, L, env);
    var kept := w.dev.(conflicts := Archive(w.dev.conflicts, env.copyKey, L, env));
    assert Edited(w.hub, []) == w.hub && Outside(w.hub, env) == w.hub;
    UploadOutcome(World(kept, w.hub), L, c, env);
    var up := UploadConflict(World(kept, w.hub), L, c, env);
    PlacedShape(w, key, c, env, up);
  }

  // ── Renames ───────────────────────────────────────────────────────────────

  /** A clean file renamed on the hub: seen, queued and run, the folder has it under its new name. */
  lemma HubRenameArrives(w: World, from: Key, target: Key, c: Config, env: Env)
    requires c.direction != PushOnly && c.inScope(from) && c.inScope(target) && from != target
    requires from in w.dev.local && At(w.dev.local, from) == At(w.dev.base, from) && target !in w.dev.local
    requires env.transfers && env.effects > 1
    ensures var d := RemoteRenamed(w.dev, from, target, c);
            && RenameLocal(from, target) in d.queue
            && var t := RunJob(w.(dev := d), RenameLocal(from, target), c, env);
               && t.hub == w.hub
               && t.dev.local == (w.dev.local - {from})[target := w.dev.local[from]]
               && t.dev.base == (w.dev.base - {from})[target := w.dev.local[from]]
  {
  }

  /** A synchronized file renamed here: seen, queued and run, the hub has it under
      its new name, and nobody else's key changed. */
  lemma LocalRenameArrives(w: World, from: Key, target: Key, c: Config, env: Env)
    requires c.direction != PullOnly && c.inScope(from) && c.inScope(target) && from != target
    requires Quiet(w, env) && from in w.hub.objs && At(w.dev.base, from) == At(w.hub.objs, from)
    requires target !in w.dev.base && target !in w.hub.objs
    ensures var d := LocalRenamed(w.dev, from, target, c);
            && RenameRemote(from, target) in d.queue && Push(from) !in d.queue
            && var t := RunJob(w.(dev := d), RenameRemote(from, target), c, env);
               && t.dev.local == w.dev.local
               && t.hub.objs == (w.hub.objs - {from})[target := w.hub.objs[from]]
               && t.dev.view == t.hub.objs
               && t.dev.base == (w.dev.base - {from})[target := w.hub.objs[from]]
  {
    assert Edited(w.hub, []) == w.hub && Outside(w.hub, env) == w.hub;
  }
}
