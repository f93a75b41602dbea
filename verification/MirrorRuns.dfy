/** Whole runs of a mirror: content is conserved, no update is lost, a pull-only
    mirror never touches the hub, and what a push-only mirror really promises. */
module MirrorRuns {
  import opened Options
  import opened MirrorModel
  import opened MirrorSafety

  /** A world, every content the user ever stored locally, and every content whose
      last local copy the user threw away and has not stored again since. */
  datatype Run = Run(w: World, authored: set<Sha>, discarded: set<Sha>)

  datatype Step =
    | UserPut(key: Key, sha: Sha)
    | UserDelete(key: Key)
    | UserMove(from: Key, target: Key)
    | HubDoes(e: HubEdit)
    | PollView(view: Files)
    | ReconcileKey(key: Key)
    | SeeLocalRename(from: Key, target: Key)
    | SeeHubRename(from: Key, target: Key)
    | Work(job: Job, env: Env)
    | Crash

  /** The content that leaves the folder for good when it turns from `m` into `n`. */
  function Dropped(m: Files, n: Files): set<Sha> {
    m.Values - n.Values
  }

  function Next(r: Run, s: Step, c: Config): Run {
    var d := r.w.dev;
    match s
    case UserPut(key, sha) =>
      var local := d.local[key := sha];
      Run(r.w.(dev := d.(local := local)), r.authored + {sha}, r.discarded + Dropped(d.local, local) - {sha})
    case UserDelete(key) =>
      r.(w := r.w.(dev := d.(local := d.local - {key})), discarded := r.discarded + Dropped(d.local, d.local - {key}))
    case UserMove(from, target) =>
      if from !in d.local || from == target then r
      else
        var local := (d.local - {from})[target := d.local[from]];
        r.(w := r.w.(dev := d.(local := local)), discarded := r.discarded + Dropped(d.local, local))
    case HubDoes(e) => r.(w := r.w.(hub := Edit(r.w.hub, e)))
    case PollView(view) => r.(w := r.w.(dev := d.(view := view)))
    case ReconcileKey(key) => r.(w := r.w.(dev := Reconcile(d, key, c)))
    case SeeLocalRename(from, target) => r.(w := r.w.(dev := LocalRenamed(d, from, target, c)))
    case SeeHubRename(from, target) => r.(w := r.w.(dev := RemoteRenamed(d, from, target, c)))
    case Work(job, env) => r.(w := RunJob(r.w, job, c, env))
    case Crash => r.(w := r.w.(dev := d.(dirty := {})))
  }

  /** Polls, inside a job or between jobs, show only contents the hub has held. */
  predicate Allowed(r: Run, s: Step) {
    match s
    case PollView(view) => AllIn(view, r.w.hub.past)
    case Work(_, env) => EnvOk(r.w, env)
    case _ => true
  }

  ghost predicate IsRun(states: seq<Run>, steps: seq<Step>, c: Config) {
    && |states| == |steps| + 1
    && forall i | 0 <= i < |steps| :: Allowed(states[i], steps[i]) && states[i + 1] == Next(states[i], steps[i], c)
  }

  // ── Conservation and no lost update ───────────────────────────────────────

  ghost predicate Stored(w: World, sha: Sha) {
    (exists k :: k in w.dev.local && w.dev.local[k] == sha) || Recoverable(w, sha)
  }

  ghost predicate Conserved(r: Run) {
    && Sound(r.w)
    && NoLostUpdate(r.w.hub)
    && forall sha | sha in r.authored :: Stored(r.w, sha) || sha in r.discarded
  }

  lemma HarmlessConserves(r: Run, w: World)
    requires Conserved(r) && Harmless(r.w, w)
    ensures Conserved(r.(w := w))
  {
    forall sha | sha in r.authored ensures Stored(w, sha) || sha in r.discarded {
      if sha !in r.discarded && !Recoverable(r.w, sha) {
        var k :| k in r.w.dev.local && r.w.dev.local[k] == sha;
        assert At(w.dev.local, k) == Some(sha) || Recoverable(w, sha);
      }
    }
  }

  lemma UserConserves(r: Run, s: Step, c: Config)
    requires Conserved(r) && (s.UserPut? || s.UserDelete? || s.UserMove?)
    ensures Conserved(Next(r, s, c))
  {
    var n := Next(r, s, c);
    forall sha | sha in n.authored ensures Stored(n.w, sha) || sha in n.discarded {
      if s.UserPut? && sha == s.sha {
        assert n.w.dev.local[s.key] == sha;
      } else if sha !in r.discarded && !Recoverable(r.w, sha) {
        var k :| k in r.w.dev.local && r.w.dev.local[k] == sha;
        assert sha in r.w.dev.local.Values;
        if sha in n.w.dev.local.Values {
          var k' :| k' in n.w.dev.local && n.w.dev.local[k'] == sha;
        }
      }
    }
  }

  lemma StepConserves(r: Run, s: Step, c: Config)
    requires Conserved(r) && Allowed(r, s)
    ensures Conserved(Next(r, s, c))
  {
    var w := r.w;
    match s
    case UserPut(_, _) => UserConserves(r, s, c);
    case UserDelete(_) => UserConserves(r, s, c);
    case UserMove(_, _) => UserConserves(r, s, c);
    case HubDoes(e) =>
      EditedSound(w.hub, [e]);
      assert [e][1..] == [] && Edited(w.hub, [e]) == Edit(w.hub, e);
      KeepHarmless(w, w.dev, Edit(w.hub, e));
      HarmlessConserves(r, w.(hub := Edit(w.hub, e)));
    case PollView(view) =>
      KeepHarmless(w, w.dev.(view := view), w.hub);
      HarmlessConserves(r, w.(dev := w.dev.(view := view)));
    case ReconcileKey(key) =>
      ReconcileHarmless(w, w.dev, key, c, w.hub);
      HarmlessConserves(r, w.(dev := Reconcile(w.dev, key, c)));
    case SeeLocalRename(from, target) =>
      KeepHarmless(w, LocalRenamed(w.dev, from, target, c), w.hub);
      HarmlessConserves(r, w.(dev := LocalRenamed(w.dev, from, target, c)));
    case SeeHubRename(from, target) =>
      KeepHarmless(w, RemoteRenamed(w.dev, from, target, c), w.hub);
      HarmlessConserves(r, w.(dev := RemoteRenamed(w.dev, from, target, c)));
    case Work(job, env) =>
      JobHarmless(w, job, c, env);
      HarmlessConserves(r, RunJob(w, job, c, env));
    case Crash =>
      KeepHarmless(w, w.dev.(dirty := {}), w.hub);
      HarmlessConserves(r, w.(dev := w.dev.(dirty := {})));
  }

  /** Over every run — user edits, hub edits by anyone, polls, crashes, and jobs
      of any kind run at any time and in any order — every content the user ever
      stored is still local, archived or in the hub's history, unless the user
      discarded it; every base is a past hub content; and no hub version was
      replaced that the device's ledger had not agreed on at that moment. */
  lemma {:induction false} RunConserves(states: seq<Run>, steps: seq<Step>, c: Config, n: nat)
    requires IsRun(states, steps, c) && n <= |steps|
    requires Conserved(states[0])
    ensures Conserved(states[n])
  {
    if n > 0 {
      RunConserves(states, steps, c, n - 1);
      StepConserves(states[n - 1], steps[n - 1], c);
    }
  }

  // ── Pull-only: the hub is the only writer ─────────────────────────────────

  predicate PullKind(j: Job) {
    j.Pull? || j.TrashLocal? || j.RenameLocal? || j.Revert?
  }

  predicate PullQueue(d: Device) {
    forall j | j in d.queue :: PullKind(j)
  }

  lemma PullOnlyReconcile(d: Device, key: Key, c: Config)
    requires c.direction == PullOnly && PullQueue(d)
    ensures PullQueue(Reconcile(d, key, c))
  {
  }

  /** The hub is what other writers alone have made of it. */
  ghost predicate OthersOnly(h: Hub, since: Hub) {
    exists es :: h == Edited(since, es)
  }

  lemma {:induction false} EditedConcat(h: Hub, a: seq<HubEdit>, b: seq<HubEdit>)
    ensures Edited(h, a + b) == Edited(Edited(h, a), b)
    decreases |a|
  {
    if a == [] {
      assert a + b == b;
    } else {
      assert (a + b)[0] == a[0] && (a + b)[1..] == a[1..] + b;
      EditedConcat(Edit(h, a[0]), a[1..], b);
    }
  }

  lemma OthersOnlyChains(h: Hub, mid: Hub, since: Hub)
    requires OthersOnly(h, mid) && OthersOnly(mid, since)
    ensures OthersOnly(h, since)
  {
    var b :| h == Edited(mid, b);
    var a :| mid == Edited(since, a);
    EditedConcat(since, a, b);
  }

  lemma OutsideIsOthersOnly(h: Hub, env: Env)
    ensures OthersOnly(Outside(h, env), h) && OthersOnly(h, h)
  {
    EditedConcat(h, env.before, env.during);
    assert Edited(h, []) == h;
  }

  lemma PullOnlyJob(w: World, job: Job, c: Config, env: Env)
    requires c.direction == PullOnly && PullQueue(w.dev) && PullKind(job)
    ensures PullQueue(RunJob(w, job, c, env).dev)
    ensures OthersOnly(RunJob(w, job, c, env).hub, w.hub)
  {
    OutsideIsOthersOnly(w.hub, env);
    match job
    case Pull(key, want) => PullOnlyReconcile(FreshRemote(w.dev, key, WantOf(want), env), key, c);
    case Revert(key, want) => PullOnlyReconcile(FreshRemote(w.dev, key, WantOf(want), env), key, c);
    case _ =>
  }

  lemma PullOnlyStep(r: Run, s: Step, c: Config)
    requires c.direction == PullOnly && PullQueue(r.w.dev)
    requires s.Work? ==> s.job in r.w.dev.queue
    ensures PullQueue(Next(r, s, c).w.dev)
    ensures OthersOnly(Next(r, s, c).w.hub, r.w.hub)
  {
    assert Edited(r.w.hub, []) == r.w.hub;
    match s
    case Work(job, env) => PullOnlyJob(r.w, job, c, env);
    case ReconcileKey(key) => PullOnlyReconcile(r.w.dev, key, c);
    case HubDoes(e) =>
      assert [e][1..] == [] && Edited(r.w.hub, [e]) == Edit(r.w.hub, e);
    case _ =>
  }

  /** In direction `pull`, from an empty queue, no run of queued jobs changes the
      hub: at any point it is what others made of it, inbox and history included. */
  lemma {:induction false} PullOnlyLeavesHubAlone(states: seq<Run>, steps: seq<Step>, c: Config, n: nat)
    requires IsRun(states, steps, c) && n <= |steps|
    requires c.direction == PullOnly && states[0].w.dev.queue == {}
    requires forall i | 0 <= i < |steps| && steps[i].Work? :: steps[i].job in states[i].w.dev.queue
    ensures PullQueue(states[n].w.dev)
    ensures OthersOnly(states[n].w.hub, states[0].w.hub)
  {
    if n == 0 {
      assert Edited(states[0].w.hub, []) == states[0].w.hub;
    } else {
      PullOnlyLeavesHubAlone(states, steps, c, n - 1);
      PullOnlyStep(states[n - 1], steps[n - 1], c);
      OthersOnlyChains(states[n].w.hub, states[n - 1].w.hub, states[0].w.hub);
    }
  }

  // ── Push-only: not quite the only writer ──────────────────────────────────

  predicate AppliesHub(j: Job, key: Key) {
    (j.Pull? || j.TrashLocal? || j.Conflict?) && j.key == key
  }

  predicate NoneApplies(d: Device, key: Key) {
    forall j | j in d.queue :: !AppliesHub(j, key)
  }

  lemma PushOnlyReconcile(d: Device, key: Key, c: Config)
    requires c.direction == PushOnly && NoneApplies(d, key)
    ensures NoneApplies(Reconcile(d, key, c), key)
  {
  }

  /** The hub content moved away from the base, and the local side is the base, or differs from a hub file that is there. */
  predicate TakesHubSide(d: Device, key: Key, R: Option<Sha>) {
    R != At(d.base, key) && (At(d.local, key) == At(d.base, key) || (R.Some? && R != At(d.local, key)))
  }

  /** A push or delete job that finds the hub's content moved re-decides without
      the direction: a push-only mirror then queues a job that applies the hub's
      side locally exactly when the local side is still the base, or differs from
      a hub file that is there, a deleted file included. */
  lemma PushOnlyAppliesExactly(d: Device, key: Key, R: Option<Sha>, c: Config, env: Env)
    requires c.direction == PushOnly && NoneApplies(d, key) && R != At(d.base, key)
    ensures NoneApplies(Redecide(d, key, R, c, env), key) <==> !TakesHubSide(d, key, R)
  {
    var f := if R.Some? then FreshRemote(d, key, Exactly(R.value), env)
             else if key in d.view then FreshRemote(d, key, Afresh, env)
             else d;
    PushOnlyReconcile(f, key, c);
    var L, B := At(d.local, key), At(d.base, key);
    if L == B && R.Some? {
      assert Pull(key, R) in Redecide(d, key, R, c, env).queue;
    } else if L == B {
      assert TrashLocal(key) in Redecide(d, key, R, c, env).queue;
    } else if R.Some? && L.None? {
      assert Pull(key, R) in Redecide(d, key, R, c, env).queue;
    } else if R.Some? && R != L {
      assert Conflict(key) in Redecide(d, key, R, c, env).queue;
    }
  }

  /** So the promise that hub edits are never applied locally fails: the hub file
      changes under a queued push of an unchanged file, and the hub's bytes land. */
  lemma PushOnlyCanApplyHubBytes(key: Key, old': Sha, new': Sha, c: Config)
    requires c.direction == PushOnly && old' != new' && key != ""
    ensures var d := Device(map[key := old'], map[key := old'], map[key := old'], {}, {}, {Push(key)}, {}, {});
            var env := Env(map[key := new'], [EditPut(key, new')], [], true, 9, "", "");
            var w1 := RunJob(World(d, Hub(map[key := old'], {old'}, {}, [])), Push(key), c, env);
            && Pull(key, Some(new')) in w1.dev.queue
            && RunJob(w1, Pull(key, Some(new')), c, env.(before := [])).dev.local == map[key := new']
  {
    var d := Device(map[key := old'], map[key := old'], map[key := old'], {}, {}, {Push(key)}, {}, {});
    var env := Env(map[key := new'], [EditPut(key, new')], [], true, 9, "", "");
    var h := Hub(map[key := old'], {old'}, {}, []);
    assert env.before[1..] == [];
    assert Edited(h, env.before) == Edit(h, EditPut(key, new'));
    var w1 := RunJob(World(d, h), Push(key), c, env);
    assert w1.dev == Redecide(d, key, Some(new'), c, env);
  }

  /** And a second time: the user deletes a file whose hub version has changed;
      the refused delete turns into a pull, and the hub's bytes land. */
  lemma PushOnlyDeleteCanApplyHubBytes(key: Key, old': Sha, new': Sha, c: Config)
    requires c.direction == PushOnly && old' != new' && key != ""
    ensures var d := Device(map[], map[key := old'], map[key := old'], {}, {}, {DeleteRemote(key)}, {}, {});
            var env := Env(map[key := new'], [EditPut(key, new')], [], true, 9, "", "");
            var w1 := RunJob(World(d, Hub(map[key := old'], {old'}, {}, [])), DeleteRemote(key), c, env);
            && Pull(key, Some(new')) in w1.dev.queue
            && RunJob(w1, Pull(key, Some(new')), c, env.(before := [])).dev.local == map[key := new']
  {
    var d := Device(map[], map[key := old'], map[key := old'], {}, {}, {DeleteRemote(key)}, {}, {});
    var env := Env(map[key := new'], [EditPut(key, new')], [], true, 9, "", "");
    var h := Hub(map[key := old'], {old'}, {}, []);
    assert env.before[1..] == [];
    assert Edited(h, env.before) == Edit(h, EditPut(key, new'));
    var w1 := RunJob(World(d, h), DeleteRemote(key), c, env);
    assert w1.dev == Redecide(d, key, Some(new'), c, env);
  }

  // ── Push-only runs ────────────────────────────────────────────────────────

  predicate PushKind(j: Job) {
    j.Push? || j.DeleteRemote? || j.RenameRemote?
  }

  predicate PushQueue(d: Device) {
    forall j | j in d.queue :: PushKind(j)
  }

  /** The hub content a push or delete job re-decides with, when it does: what a
      HEAD, a 412 or its own view reported instead of the base. */
  function Surprise(w: World, job: Job, env: Env): Option<Option<Sha>> {
    match job
    case Push(key) =>
      var L, B := At(w.dev.local, key), At(w.dev.base, key);
      var h1, h2 := Edited(w.hub, env.before), Outside(w.hub, env);
      var R := if B.None? && key !in w.dev.view then None else At(h1.objs, key);
      if L.None? then None
      else if R != B then Some(R)
      else if (At(w.dev.view, key) == L && key in h2.objs) || !env.transfers || At(h2.objs, key) == B then None
      else Some(At(h2.objs, key))
    case DeleteRemote(key) =>
      var L, B, R := At(w.dev.local, key), At(w.dev.base, key), At(w.dev.view, key);
      var h := Outside(w.hub, env);
      if B.None? || L.Some? || R.None? then None
      else if R != B then Some(R)
      else if key !in h.objs || At(h.objs, key) == B then None
      else Some(At(h.objs, key))
    case _ => None
  }

  function KeyOf(job: Job): Key {
    match job
    case RenameRemote(from, _) => from
    case RenameLocal(from, _) => from
    case Push(key) => key
    case Pull(key, _) => key
    case DeleteRemote(key) => key
    case TrashLocal(key) => key
    case Conflict(key) => key
    case Revert(key, _) => key
  }

  /** The job meets a changed hub and takes its side. */
  predicate Yields(w: World, job: Job, env: Env) {
    var s := Surprise(w, job, env);
    s.Some? && TakesHubSide(w.dev, KeyOf(job), s.value)
  }

  lemma PushOnlyReconcileKeepsQueue(d: Device, key: Key, c: Config)
    requires c.direction == PushOnly && PushQueue(d)
    ensures PushQueue(Reconcile(d, key, c)) && Reconcile(d, key, c).local == d.local
  {
  }

  lemma PushOnlyRedecide(d: Device, key: Key, R: Option<Sha>, c: Config, env: Env)
    requires c.direction == PushOnly && PushQueue(d) && R != At(d.base, key)
    ensures PushQueue(Redecide(d, key, R, c, env)) <==> !TakesHubSide(d, key, R)
    ensures Redecide(d, key, R, c, env).local == d.local
  {
    var f := if R.Some? then FreshRemote(d, key, Exactly(R.value), env)
             else if key in d.view then FreshRemote(d, key, Afresh, env)
             else d;
    PushOnlyReconcileKeepsQueue(f, key, c);
    PushOnlyAppliesExactly(d, key, R, c, env);
  }

  /** A job of a push-only queue never writes the local folder itself, and leaves
      the queue free of jobs that would exactly when it does not meet a changed
      hub whose side it takes. */
  lemma PushOnlyJobExact(w: World, job: Job, c: Config, env: Env)
    requires c.direction == PushOnly && PushQueue(w.dev) && PushKind(job)
    ensures RunJob(w, job, c, env).dev.local == w.dev.local
    ensures PushQueue(RunJob(w, job, c, env).dev) <==> !Yields(w, job, env)
  {
    var s := Surprise(w, job, env);
    if s.Some? {
      PushOnlyRedecide(w.dev, KeyOf(job), s.value, c, env);
      assert RunJob(w, job, c, env).dev == Redecide(w.dev, KeyOf(job), s.value, c, env);
    } else {
      UnsurprisedKeepsQueue(w, job, c, env);
    }
  }

  lemma UnsurprisedKeepsQueue(w: World, job: Job, c: Config, env: Env)
    requires PushQueue(w.dev) && PushKind(job) && Surprise(w, job, env).None?
    ensures RunJob(w, job, c, env).dev.local == w.dev.local && PushQueue(RunJob(w, job, c, env).dev)
  {
    match job
    case Push(key) => UnsurprisedPush(w, key, c, env);
    case DeleteRemote(key) => UnsurprisedDelete(w, key, c, env);
    case _ =>
  }

  lemma UnsurprisedPush(w: World, key: Key, c: Config, env: Env)
    requires PushQueue(w.dev) && Surprise(w, Push(key), env).None?
    ensures RunPush(w, key, c, env).dev.local == w.dev.local && PushQueue(RunPush(w, key, c, env).dev)
  {
  }

  lemma UnsurprisedDelete(w: World, key: Key, c: Config, env: Env)
    requires PushQueue(w.dev) && Surprise(w, DeleteRemote(key), env).None?
    ensures RunDeleteRemote(w, key, c, env).dev.local == w.dev.local && PushQueue(RunDeleteRemote(w, key, c, env).dev)
  {
  }

  /** What the user alone does to the folder. */
  function UserEdit(m: Files, s: Step): Files {
    match s
    case UserPut(key, sha) => m[key := sha]
    case UserDelete(key) => m - {key}
    case UserMove(from, target) => if from !in m || from == target then m else (m - {from})[target := m[from]]
    case _ => m
  }

  function UserEdits(m: Files, steps: seq<Step>, n: nat): Files
    requires n <= |steps|
  {
    if n == 0 then m else UserEdit(UserEdits(m, steps, n - 1), steps[n - 1])
  }

  lemma PushOnlyStep(r: Run, s: Step, c: Config)
    requires c.direction == PushOnly && PushQueue(r.w.dev)
    requires s.Work? ==> s.job in r.w.dev.queue && !Yields(r.w, s.job, s.env)
    ensures PushQueue(Next(r, s, c).w.dev)
    ensures Next(r, s, c).w.dev.local == UserEdit(r.w.dev.local, s)
  {
    match s
    case Work(job, env) => PushOnlyJobExact(r.w, job, c, env);
    case ReconcileKey(key) => PushOnlyReconcileKeepsQueue(r.w.dev, key, c);
    case _ =>
  }

  /** In direction `push`, from an empty queue, as long as no job meets a changed
      hub whose side it takes, the local folder is what the user alone has made of it. */
  lemma {:induction false} PushOnlyLeavesFolderAlone(states: seq<Run>, steps: seq<Step>, c: Config, n: nat)
    requires IsRun(states, steps, c) && n <= |steps|
    requires c.direction == PushOnly && states[0].w.dev.queue == {}
    requires forall i | 0 <= i < |steps| && steps[i].Work? ::
               steps[i].job in states[i].w.dev.queue && !Yields(states[i].w, steps[i].job, steps[i].env)
    ensures PushQueue(states[n].w.dev)
    ensures states[n].w.dev.local == UserEdits(states[0].w.dev.local, steps, n)
  {
    if n > 0 {
      PushOnlyLeavesFolderAlone(states, steps, c, n - 1);
      PushOnlyStep(states[n - 1], steps[n - 1], c);
      assert states[n - 1 + 1] == Next(states[n - 1], steps[n - 1], c);
    }
  }
}
