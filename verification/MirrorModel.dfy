/** The device mirror as values: the three-way table, the ledger and queue
    updates around it, and every job, with the hub and the outside world as
    parameters of the step. */
module MirrorModel {
  import opened Options

  type Key = string
  type Sha = string
  type Files = map<Key, Sha>

  function At(m: Files, key: Key): Option<Sha> {
    if key in m then Some(m[key]) else None
  }

  // ── The three-way table ───────────────────────────────────────────────────

  datatype Decision =
    | Nothing
    | PushIt(ifMatch: Option<Sha>)
    | DeleteRemoteIt(ifMatch: Option<Sha>)
    | PullIt(sha: Sha)
    | TrashLocalIt
    | Adopt
    | ConflictIt(remote: Sha)
    | RevertIt(remote: Sha)
    | SkipIt(reason: string)

  /** Local, base and hub content of one key to one action. */
  function Decide(L: Option<Sha>, B: Option<Sha>, R: Option<Sha>): Decision {
    var localChanged, remoteChanged := L != B, R != B;
    if !localChanged && !remoteChanged then Nothing
    else if localChanged && !remoteChanged then
      if L.Some? then PushIt(B)
      else if B.Some? then DeleteRemoteIt(B) else Nothing
    else if !localChanged && remoteChanged then
      if R.Some? then PullIt(R.value)
      else if L.Some? then TrashLocalIt else Nothing
    else if L == R then Adopt
    else if L.None? && R.Some? then PullIt(R.value)
    else if L.Some? && R.None? then PushIt(None)
    else ConflictIt(R.value)
  }

  datatype Direction = Bi | PullOnly | PushOnly

  /** Narrows a decision to the mirror's direction. */
  function Direct(d: Decision, B: Option<Sha>, R: Option<Sha>, dir: Direction): Decision {
    match dir
    case Bi => d
    case PullOnly =>
      (match d
       case PushIt(_) => if R.Some? then RevertIt(R.value) else SkipIt("local-only")
       case DeleteRemoteIt(_) => if R.Some? then PullIt(R.value) else Nothing
       case ConflictIt(remote) => RevertIt(remote)
       case _ => d)
    case PushOnly =>
      (match d
       case PullIt(_) => SkipIt(if B.Some? then "remote-changed" else "remote-only")
       case TrashLocalIt => Nothing
       case ConflictIt(_) => SkipIt("conflict")
       case _ => d)
  }

  // ── State ─────────────────────────────────────────────────────────────────

  datatype Job =
    | Push(key: Key)
    | Pull(key: Key, want: Option<Sha>)
    | DeleteRemote(key: Key)
    | TrashLocal(key: Key)
    | RenameRemote(from: Key, target: Key)
    | RenameLocal(from: Key, target: Key)
    | Conflict(key: Key)
    | Revert(key: Key, want: Option<Sha>)
  {
    predicate IsRename() { RenameRemote? || RenameLocal? }

    /** `byKey` finds a job by its key and, for a rename, by either end. */
    predicate Names(k: Key) {
      if IsRename() then from == k || target == k else key == k
    }
  }

  /** `inScope` covers prefixes and ignore patterns, `valid` the key check. */
  datatype Config = Config(direction: Direction, propagateDeletes: bool, renameConflicts: bool,
                           inScope: Key -> bool, valid: Key -> bool)

  /** The device: its folder, its view of the hub, the base ledger, the two
      archive folders as (key, content) pairs, and the pending work. */
  datatype Device = Device(local: Files, view: Files, base: Files,
                           trash: set<(Key, Sha)>, conflicts: set<(Key, Sha)>,
                           queue: set<Job>, dirty: set<Key>, skips: set<Key>)
  {
    function MarkDirty(keys: set<Key>): Device { this.(dirty := dirty + keys) }
    function Agree(key: Key, sha: Sha): Device { this.(base := base[key := sha]) }
    function Forget(key: Key): Device { this.(base := base - {key}) }
  }

  /** One change of a hub key: who made it, what it replaced, and what the
      device's ledger held for it at that moment. */
  datatype Write = Write(mine: bool, key: Key, was: Option<Sha>, agreed: Option<Sha>)

  /** `past` is every content the hub ever held at some key. */
  datatype Hub = Hub(objs: Files, past: set<Sha>, inbox: set<Sha>, writes: seq<Write>)

  datatype World = World(dev: Device, hub: Hub)

  // ── The hub ───────────────────────────────────────────────────────────────

  function HubSet(h: Hub, key: Key, sha: Sha, mine: bool, agreed: Option<Sha>): Hub {
    Hub(h.objs[key := sha], h.past + {sha}, h.inbox, h.writes + [Write(mine, key, At(h.objs, key), agreed)])
  }

  function HubDrop(h: Hub, key: Key, mine: bool, agreed: Option<Sha>): Hub {
    Hub(h.objs - {key}, h.past, h.inbox, h.writes + [Write(mine, key, At(h.objs, key), agreed)])
  }

  function HubMove(h: Hub, from: Key, target: Key, mine: bool, agreed: Option<Sha>): Hub
    requires from in h.objs
  {
    Hub((h.objs - {from})[target := h.objs[from]], h.past, h.inbox,
        h.writes + [Write(mine, from, At(h.objs, from), agreed)])
  }

  /** What anyone else may do on the hub at any time. */
  datatype HubEdit = EditPut(key: Key, sha: Sha) | EditDelete(key: Key) | EditRename(from: Key, target: Key)

  function Edit(h: Hub, e: HubEdit): Hub {
    match e
    case EditPut(key, sha) => HubSet(h, key, sha, false, None)
    case EditDelete(key) => HubDrop(h, key, false, None)
    case EditRename(from, target) => if from in h.objs then HubMove(h, from, target, false, None) else h
  }

  function Edited(h: Hub, es: seq<HubEdit>): Hub
    decreases |es|
  {
    if es == [] then h else Edited(Edit(h, es[0]), es[1..])
  }

  /** `PUT` with If-Match (the agreed base) or If-None-Match: * (no base); None is a 412. */
  function CasPut(h: Hub, key: Key, sha: Sha, agreed: Option<Sha>): Option<Hub> {
    if At(h.objs, key) == agreed then Some(HubSet(h, key, sha, true, agreed)) else None
  }

  // ── The outside of one job ────────────────────────────────────────────────

  /** What happens around a job: the hub view a poll would bring, hub edits
      before its first and between its hub requests, whether byte transfers
      succeed, after how many durable effects it dies, and the archive names. */
  datatype Env = Env(polled: Files, before: seq<HubEdit>, during: seq<HubEdit>,
                     transfers: bool, effects: nat, copyKey: Key, freeKey: Key)

  /** The hub once everything the outside does around a job has happened. */
  function Outside(h: Hub, env: Env): Hub {
    Edited(Edited(h, env.before), env.during)
  }

  datatype Want = Anything | Exactly(sha: Sha) | Afresh

  /** Polls the feed unless the view already shows what is wanted. */
  function FreshRemote(d: Device, key: Key, want: Want, env: Env): Device {
    if key in d.view && (want.Anything? || (want.Exactly? && d.view[key] == want.sha)) then d
    else d.(view := env.polled)
  }

  function WantOf(want: Option<Sha>): Want {
    match want case None => Anything case Some(sha) => Exactly(sha)
  }

  /** Where an archive copy lands: nowhere new when it is already there, beside
      other content when the name is taken. */
  function Archive(a: set<(Key, Sha)>, key: Key, sha: Sha, env: Env): set<(Key, Sha)> {
    if (key, sha) in a then a
    else if (set p | p in a && p.0 == key) != {} then a + {(env.freeKey, sha)}
    else a + {(key, sha)}
  }

  // ── Queueing ──────────────────────────────────────────────────────────────

  function CancelByKey(d: Device, key: Key): Device {
    d.(queue := set j | j in d.queue && !j.Names(key))
  }

  /** A newer decision supersedes the key's other pending jobs, renames excepted. */
  function Enqueue(d: Device, job: Job): Device
    requires !job.IsRename()
  {
    d.(queue := (set j | j in d.queue && !(j.Names(job.key) && !j.IsRename())) + {job})
  }

  function AppendJob(d: Device, job: Job): Device {
    d.(queue := d.queue + {job})
  }

  function Unskip(d: Device, key: Key): Device { d.(skips := d.skips - {key}) }

  /** Carries out a directed decision: a queued job, a ledger entry, or a reported skip. */
  function Act(d: Device, key: Key, todo: Decision, c: Config): Device {
    var L, R := At(d.local, key), At(d.view, key);
    var u := Unskip(d, key);
    match todo
    case SkipIt(_) => CancelByKey(d, key).(skips := d.skips + {key})
    case Nothing => u
    case RevertIt(_) => Enqueue(u, Revert(key, R))
    case PushIt(ifMatch) => Enqueue(if ifMatch.None? then u.Forget(key) else u, Push(key))
    case DeleteRemoteIt(_) => if c.propagateDeletes then Enqueue(u, DeleteRemote(key)) else u.Forget(key)
    case PullIt(_) => Enqueue(u, Pull(key, R))
    case TrashLocalIt => Enqueue(u, TrashLocal(key))
    case Adopt =>
      var v := CancelByKey(u, key);
      if L.Some? then v.Agree(key, L.value) else v.Forget(key)
    case ConflictIt(_) => Enqueue(u, Conflict(key))
  }

  /** Decides for one key from the index and the ledger, and acts on it. */
  function Reconcile(d: Device, key: Key, c: Config): Device {
    if key == "" || !c.inScope(key) then d
    else if !c.valid(key) then d.(skips := d.skips + {key})
    else
      var B, R := At(d.base, key), At(d.view, key);
      Act(d, key, Direct(Decide(At(d.local, key), B, R), B, R, c.direction), c)
  }

  /** A local `mv`: the base follows the key and the hub gets a rename. */
  function LocalRenamed(d: Device, from: Key, target: Key, c: Config): Device {
    if c.direction == PullOnly || from !in d.base || target in d.base || !c.inScope(from) || !c.inScope(target)
    then d.MarkDirty({from, target})
    else
      var moved := d.(base := (d.base - {from})[target := d.base[from]]);
      var cancelled := moved.(queue := set j | j in moved.queue && !(j.Push? && j.key == from));
      AppendJob(cancelled, RenameRemote(from, target)).MarkDirty({target})
  }

  /** A hub rename: re-key locally when our copy is clean. */
  function RemoteRenamed(d: Device, from: Key, target: Key, c: Config): Device {
    if c.direction != PushOnly && from in d.local && At(d.local, from) == At(d.base, from)
       && target !in d.local && c.inScope(from) && c.inScope(target)
    then AppendJob(d, RenameLocal(from, target))
    else d.MarkDirty({from, target})
  }

  // ── Jobs ──────────────────────────────────────────────────────────────────

  /** The table again with a confirmed hub content (after a HEAD or a 412). */
  function Redecide(d: Device, key: Key, R: Option<Sha>, c: Config, env: Env): Device {
    var f := if R.Some? then FreshRemote(d, key, Exactly(R.value), env)
             else if key in d.view then FreshRemote(d, key, Afresh, env)
             else d;
    match Decide(At(f.local, key), At(f.base, key), R)
    case Nothing => f
    case Adopt => Reconcile(f, key, c)
    case PushIt(_) => Reconcile(f, key, c)
    case DeleteRemoteIt(_) => Reconcile(f, key, c)
    case PullIt(sha) => Enqueue(f, Pull(key, Some(sha)))
    case TrashLocalIt => Enqueue(f, TrashLocal(key))
    case ConflictIt(_) => Enqueue(f, Conflict(key))
    case _ => f
  }

  function RunPush(w: World, key: Key, c: Config, env: Env): World {
    var d := w.dev;
    var L, B := At(d.local, key), At(d.base, key);
    if L.None? then w.(dev := d.MarkDirty({key}))
    else
      var brandNew := B.None? && key !in d.view;
      var h1 := Edited(w.hub, env.before);
      var R := if brandNew then None else At(h1.objs, key);
      var h2 := Edited(h1, env.during);
      if R != B then World(Redecide(d, key, R, c, env), h2)
      else
        if At(d.view, key) == L && key in h2.objs then World(d.Agree(key, L.value), h2)
        else if !env.transfers then w.(hub := h2)
        else
          match CasPut(h2, key, L.value, B)
          case None => World(Redecide(d, key, At(h2.objs, key), c, env), h2)
          case Some(h3) =>
            if env.effects <= 1 then w.(hub := h3)
            else World(d.(view := d.view[key := L.value]).Agree(key, L.value), h3)
  }

  function RunPull(w: World, key: Key, want: Option<Sha>, c: Config, env: Env): World {
    var h := Outside(w.hub, env);
    var d := FreshRemote(w.dev, key, WantOf(want), env);
    var L, B, R := At(d.local, key), At(d.base, key), At(d.view, key);
    if R.None? then World(d.MarkDirty({key}), h)
    else if L == R || (L.Some? && L != B) then World(Reconcile(d, key, c), h)
    else if !env.transfers then World(FreshRemote(d, key, Afresh, env).MarkDirty({key}), h)
    else
      var copied := d.(local := d.local[key := R.value]);
      World(if env.effects <= 1 then copied else copied.Agree(key, R.value), h)
  }

  function RunDeleteRemote(w: World, key: Key, c: Config, env: Env): World {
    var d := w.dev;
    var L, B, R := At(d.local, key), At(d.base, key), At(d.view, key);
    if B.None? then w
    else if L.Some? then w.(dev := d.MarkDirty({key}))
    else if R.None? then w.(dev := d.Forget(key))
    else if R != B then World(Redecide(d, key, R, c, env), Outside(w.hub, env))
    else
      var h := Outside(w.hub, env);
      var gone := d.(view := d.view - {key});
      if key !in h.objs then World(gone.Forget(key), h)
      else if At(h.objs, key) != B then World(Redecide(d, key, At(h.objs, key), c, env), h)
      else
        var h' := HubDrop(h, key, true, B);
        if env.effects <= 1 then w.(hub := h') else World(gone.Forget(key), h')
  }

  function RunTrashLocal(w: World, key: Key, env: Env): World {
    var d := w.dev;
    var L, B, R := At(d.local, key), At(d.base, key), At(d.view, key);
    if L.None? then w.(dev := d.Forget(key))
    else if L != B || R.Some? then w.(dev := d.MarkDirty({key}))
    else if (key, L.value) in d.trash then w.(dev := d.Forget(key))
    else if !env.transfers then w
    else
      var moved := d.(trash := Archive(d.trash, key, L.value, env), local := d.local - {key});
      w.(dev := if env.effects <= 1 then moved else moved.Forget(key))
  }

  function RunRenameRemote(w: World, from: Key, target: Key, env: Env): World {
    var d := w.dev;
    if target !in d.base then w.(dev := d.MarkDirty({target}))
    else
      var B := d.base[target];
      var h := Outside(w.hub, env);
      if from !in d.view || (At(d.view, from) == Some(B) && target !in d.view && target !in h.objs && from !in h.objs) then
        var f := FreshRemote(d, from, Exactly(B), env);
        if from in f.view then World(AppendJob(f, RenameRemote(from, target)), h)
        else World(f.Forget(target).MarkDirty({target}), h)
      else if d.view[from] != B || target in d.view || target in h.objs || At(h.objs, from) != Some(B) then
        World(FreshRemote(d, target, Afresh, env).Forget(target).MarkDirty({from, target}), h)
      else
        var h' := HubMove(h, from, target, true, At(d.base, target));
        if env.effects <= 1 then w.(hub := h')
        else World(d.(view := (d.view - {from})[target := B]).Agree(target, B), h')
  }

  function RunRenameLocal(w: World, from: Key, target: Key, env: Env): World {
    var d := w.dev;
    var L, B := At(d.local, from), At(d.base, from);
    if L.None? || L != B || target in d.local then w.(dev := d.MarkDirty({from, target}))
    else if !env.transfers then w
    else
      var moved := d.(local := (d.local - {from})[target := L.value]);
      w.(dev := if env.effects <= 1 then moved else moved.(base := (moved.base - {from})[target := B.value]))
  }

  /** Uploads the device version of a conflict: an inbox document, or an object at the copy key. */
  function UploadConflict(w: World, sha: Sha, c: Config, env: Env): World {
    if !c.renameConflicts then w.(hub := w.hub.(inbox := w.hub.inbox + {sha}))
    else if env.copyKey in w.hub.objs then w
    else World(w.dev.(view := w.dev.view[env.copyKey := sha]), HubSet(w.hub, env.copyKey, sha, true, None))
  }

  function RunConflict(w: World, key: Key, c: Config, env: Env): World {
    var d := w.dev;
    var L, B := At(d.local, key), At(d.base, key);
    var h1 := Edited(w.hub, env.before);
    var R := At(h1.objs, key);
    if L.None? then w.(dev := d.MarkDirty({key}))
    else if R.None? then World(d.Forget(key).MarkDirty({key}), h1)
    else if R == L || R == B then World(Reconcile(d, key, c), h1)
    else if !env.transfers then w.(hub := h1)
    else
      var kept := d.(conflicts := Archive(d.conflicts, env.copyKey, L.value, env));
      if env.effects <= 1 then World(kept, h1)
      else
        var up := UploadConflict(World(kept, Edited(h1, env.during)), L.value, c, env);
        if env.effects <= 2 then up
        else
          var f := FreshRemote(up.dev, key, Exactly(R.value), env);
          if key !in f.view then up.(dev := f.MarkDirty({key}))
          else
            var placed := f.(local := f.local[key := f.view[key]]);
            up.(dev := if env.effects <= 3 then placed else placed.Agree(key, R.value))
  }

  function RunRevert(w: World, key: Key, want: Option<Sha>, c: Config, env: Env): World {
    var h := Outside(w.hub, env);
    var L := At(w.dev.local, key);
    if L.None? then World(w.dev.MarkDirty({key}), h)
    else
      var d := FreshRemote(w.dev, key, WantOf(want), env);
      var R := At(d.view, key);
      if R.None? || R == L then World(Reconcile(d, key, c), h)
      else if !env.transfers then World(d, h)
      else
        var kept := d.(conflicts := Archive(d.conflicts, env.copyKey, L.value, env));
        if env.effects <= 1 then World(kept, h)
        else
          var placed := kept.(local := kept.local[key := R.value]);
          World(if env.effects <= 2 then placed else placed.Agree(key, R.value), h)
  }

  function RunJob(w: World, job: Job, c: Config, env: Env): World {
    match job
    case Push(key) => RunPush(w, key, c, env)
    case Pull(key, want) => RunPull(w, key, want, c, env)
    case DeleteRemote(key) => RunDeleteRemote(w, key, c, env)
    case TrashLocal(key) => RunTrashLocal(w, key, env)
    case RenameRemote(from, target) => RunRenameRemote(w, from, target, env)
    case RenameLocal(from, target) => RunRenameLocal(w, from, target, env)
    case Conflict(key) => RunConflict(w, key, c, env)
    case Revert(key, want) => RunRevert(w, key, want, c, env)
  }
}
