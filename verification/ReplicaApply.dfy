/** Applying one replica operation as a chain of durable steps: what each step
    may touch, and that a crash after any of them changes nothing in the end. */
module ReplicaApply {
  import opened Options
  import opened ReplicaModel

  type Bytes = map<Endpoint, Content>

  function At(m: Bytes, e: Endpoint): Option<Content> {
    if e in m then Some(m[e]) else None
  }

  /** The durable world: journal, owner rows, destination bytes, staging pins, captured uploads. */
  datatype World = World(ops: Ops, owners: Owners, dest: Bytes, pins: map<OpId, Content>, blobs: map<CacheKey, Content>) {
    function Put(x: OpId, op: Op): World { this.(ops := ops[x := op]) }
  }

  /** Which places support recoverable overwrite and removal, and how a free name is found. */
  datatype Config = Config(overwrites: Endpoint -> bool, retires: Endpoint -> bool,
                           freeName: (Bytes, Endpoint) -> Endpoint)

  // ── Claims ────────────────────────────────────────────────────────────────

  predicate Targets(p: Plan, e: Endpoint) {
    exists i | 0 <= i < |p.targets| :: p.targets[i].at == e
  }

  predicate OwnerClaims(w: World, owner: Owner, e: Endpoint) {
    exists o | o in w.owners :: o != owner && Lists(w.owners[o], e)
  }

  predicate OpClaims(w: World, x: OpId, e: Endpoint) {
    exists y | y in w.ops :: y != x && !w.ops[y].Terminal() && (Targets(w.ops[y].plan, e) || w.ops[y].plan.source == Some(e))
  }

  /** Does another owner, or another unfinished operation, still need this place? */
  predicate OtherClaims(w: World, x: OpId, e: Endpoint)
    requires x in w.ops
  {
    OwnerClaims(w, w.ops[x].owner, e) || OpClaims(w, x, e)
  }

  /** Pending, running or blocked. */
  predicate Unfinished(op: Op) {
    op.state == Pending || op.state == Running || op.state == Blocked
  }

  /** Another owner's row lists the place, or another unfinished operation reads from it or is to deliver there. */
  predicate NeededElsewhere(w: World, x: OpId, e: Endpoint)
    requires x in w.ops
  {
    || (exists o, k | o in w.owners && 0 <= k < |w.owners[o].replicas| ::
          o != w.ops[x].owner && w.owners[o].replicas[k].at == e)
    || (exists z | z in w.ops :: z != x && Unfinished(w.ops[z]) && w.ops[z].plan.source == Some(e))
    || (exists z, i | z in w.ops && 0 <= i < |w.ops[z].plan.targets| ::
          z != x && Unfinished(w.ops[z]) && w.ops[z].plan.targets[i].at == e)
  }

  /** What the executor asks about a place before it takes bytes away is exactly whether anybody else needs it. */
  lemma ClaimsExact(w: World, x: OpId, e: Endpoint)
    requires x in w.ops
    ensures OtherClaims(w, x, e) <==> NeededElsewhere(w, x, e)
  {
    if o, k :| o in w.owners && 0 <= k < |w.owners[o].replicas| && o != w.ops[x].owner && w.owners[o].replicas[k].at == e {
      assert Lists(w.owners[o], e);
    }
    if z, i :| z in w.ops && 0 <= i < |w.ops[z].plan.targets| && z != x && Unfinished(w.ops[z]) && w.ops[z].plan.targets[i].at == e {
      assert Targets(w.ops[z].plan, e);
    }
  }

  // ── Resolving a destination ───────────────────────────────────────────────

  /** The base replica that was asked for under this name. */
  function Previous(replicas: seq<Replica>, requested: Endpoint): (r: Option<Replica>)
    ensures r.Some? ==> r.value in replicas && r.value.requested == requested
  {
    if replicas == [] then None
    else if replicas[0].requested == requested then Some(replicas[0])
    else Previous(replicas[1..], requested)
  }

  predicate ManagedAt(row: OwnerRow, e: Endpoint) {
    exists i | 0 <= i < |row.replicas| :: row.replicas[i].at == e && row.replicas[i].managed
  }

  predicate AnyManagedAt(owners: Owners, e: Endpoint) {
    exists o | o in owners :: ManagedAt(owners[o], e)
  }

  /** Fixes name, expected content and own version of one destination; None when
      a managed replica changed behind the executor's back. */
  function ResolveTarget(w: World, base: OwnerRow, plan: Plan, t: Target, c: Config): Option<Outcome> {
    var previous := Previous(base.replicas, t.at);
    var at := if previous.Some? && t.onConflict == Rename then previous.value.at else t.at;
    var current := At(w.dest, at);
    if previous.Some? && previous.value.managed && current.Some?
       && current.value != previous.value.content && current.value != plan.content
    then None
    else
      var own := if previous.Some? && previous.value.managed && previous.value.mirror && c.overwrites(t.at)
                 then Some(previous.value.content) else None;
      var managed := (previous.Some? && previous.value.managed) || current.None? || t.adopt || AnyManagedAt(w.owners, t.at);
      if current.Some? && current != Some(plan.content) && current != own && t.onConflict == Rename
      then Some(Outcome(c.freeName(w.dest, t.at), t.at, true, t.mirror, None, own, false))
      else Some(Outcome(at, t.at, managed, t.mirror, current, own, false))
  }

  // ── Steps ─────────────────────────────────────────────────────────────────

  /** Where an application stands; lost in a crash. */
  datatype Stage =
    | AtBase | AtPin | AtTarget(i: nat) | AtPlace(i: nat) | AtCheck(i: nat)
    | AtRetire(j: nat) | AtVerify(k: nat) | AtRelease(r: nat) | AtFinish

  datatype Progress = Go(w: World, stage: Stage) | Halt(w: World, reason: string) | Finished(w: World)

  function BaseOf(w: World, op: Op): OwnerRow {
    if op.base.Some? then op.base.value
    else if op.owner in w.owners then w.owners[op.owner] else OwnerRow("", [])
  }

  function SourceOf(op: Op): Option<Endpoint>
    requires op.base.Some?
  {
    if op.plan.source.Some? then op.plan.source
    else if op.base.value.replicas != [] then Some(op.base.value.replicas[0].at) else None
  }

  /** Does the place the content is to be staged from still hold it? */
  predicate SourceHolds(w: World, op: Op)
    requires op.base.Some?
  {
    if op.plan.cached.Some? then op.plan.cached.value in w.blobs && w.blobs[op.plan.cached.value] == op.plan.content
    else SourceOf(op).Some? && At(w.dest, SourceOf(op).value) == Some(op.plan.content)
  }

  function SourceFailure(w: World, op: Op): string
    requires op.base.Some?
  {
    if op.plan.cached.Some? then (if op.plan.cached.value !in w.blobs then "IO_ERROR" else "STAGING_CORRUPT")
    else if SourceOf(op).None? then "NO_SOURCE"
    else if SourceOf(op).value !in w.dest then "SOURCE_MISSING"
    else "SOURCE_CHANGED"
  }

  predicate NeedsPin(op: Op)
    requires op.base.Some?
  {
    op.plan.targets != [] || op.base.value.replicas != []
  }

  predicate InOutcomes(op: Op, e: Endpoint) {
    exists i | 0 <= i < |op.outcomes| :: op.outcomes[i].at == e
  }

  /** A base replica the plan keeps, exports for good, never owned, or shares stays. */
  predicate KeptReplica(w: World, x: OpId, old': Replica)
    requires x in w.ops
  {
    || InOutcomes(w.ops[x], old'.at) || old'.at in w.ops[x].plan.preserve
    || !old'.mirror || !old'.managed || OtherClaims(w, x, old'.at)
  }

  function PlaceStep(w: World, x: OpId, i: nat): Progress
    requires x in w.ops && i < |w.ops[x].outcomes| && i < |w.ops[x].plan.targets|
  {
    var op := w.ops[x];
    var o, t := op.outcomes[i], op.plan.targets[i];
    var found := At(w.dest, o.at);
    if found == Some(op.plan.content) then Go(w.Put(x, op.(outcomes := op.outcomes[i := o.(verified := true)])), AtTarget(i + 1))
    else if found.Some? && found != o.ownVersion && t.onConflict != Overwrite then Halt(w, "TARGET_CONFLICT")
    else if found.Some? && OtherClaims(w, x, o.at) then Halt(w, "SHARED_REPLICA")
    else if found.Some? && found != o.expected then Halt(w, "TARGET_CHANGED")
    else if found.None? && o.expected.Some? && o.verified then Halt(w, "TARGET_CHANGED")
    else Go(w.(dest := w.dest[o.at := op.plan.content]), AtCheck(i))
  }

  function RetireStep(w: World, x: OpId, j: nat, c: Config): Progress
    requires x in w.ops && w.ops[x].base.Some? && j < |w.ops[x].base.value.replicas|
  {
    var old' := w.ops[x].base.value.replicas[j];
    var found := At(w.dest, old'.at);
    if KeptReplica(w, x, old') || found.None? then Go(w, AtRetire(j + 1))
    else if found != Some(old'.content) then Halt(w, "TARGET_CHANGED")
    else if !c.retires(old'.at) then Halt(w, "RECOVERY_UNAVAILABLE")
    else Go(w.(dest := w.dest - {old'.at}), AtRetire(j))
  }

  function ReleaseStep(w: World, x: OpId, r: nat): Progress
    requires x in w.ops && r < |w.ops[x].plan.release|
  {
    var loc := w.ops[x].plan.release[r];
    var found := At(w.dest, loc.at);
    if OtherClaims(w, x, loc.at) || found.None? then Go(w, AtRelease(r + 1))
    else if found != Some(loc.content) then Halt(w, "SOURCE_CHANGED")
    else Go(w.(dest := w.dest - {loc.at}), AtRelease(r))
  }

  function AsReplica(o: Outcome, content: Content): Replica {
    Replica(o.at, o.requested, content, o.managed, o.mirror)
  }

  predicate InRelease(p: Plan, e: Endpoint) {
    exists r | 0 <= r < |p.release| :: p.release[r].at == e
  }

  /** Base replicas that stay owned as plain copies. */
  function Preserved(op: Op, replicas: seq<Replica>): seq<Replica> {
    if replicas == [] then []
    else
      var r, rest := replicas[0], Preserved(op, replicas[1..]);
      if (!r.mirror || r.at in op.plan.preserve) && !InOutcomes(op, r.at) && !InRelease(op.plan, r.at)
      then [r.(mirror := false)] + rest else rest
  }

  function FinalRow(op: Op): OwnerRow
    requires op.base.Some?
  {
    OwnerRow(op.plan.content, Preserved(op, op.base.value.replicas)
                              + seq(|op.outcomes|, i requires 0 <= i < |op.outcomes| => AsReplica(op.outcomes[i], op.plan.content)))
  }

  /** One durable step of the operation. */
  function Exec(w: World, x: OpId, stage: Stage, c: Config): Progress
    requires x in w.ops
  {
    var op := w.ops[x];
    if stage.AtBase? then Go(w.Put(x, op.(base := Some(BaseOf(w, op)))), AtPin)
    else if op.base.None? then Halt(w, "NO_BASE")
    else
      match stage
      case AtBase => Halt(w, "")
      case AtPin =>
        if !NeedsPin(op) then Go(w, AtTarget(0))
        else if x in w.pins then
          if w.pins[x] == op.plan.content then Go(w.Put(x, op.(staged := true)), AtTarget(0)) else Halt(w, "STAGING_CORRUPT")
        else if SourceHolds(w, op) then Go(w.(pins := w.pins[x := op.plan.content]), AtPin)
        else Halt(w, SourceFailure(w, op))
      case AtTarget(i) =>
        if i >= |op.plan.targets| then Go(w, AtRetire(0))
        else if i < |op.outcomes| then Go(w, AtPlace(i))
        else
          (match ResolveTarget(w, op.base.value, op.plan, op.plan.targets[i], c)
           case None => Halt(w, "TARGET_CHANGED")
           case Some(o) => Go(w.Put(x, op.(outcomes := op.outcomes + [o])), AtPlace(i)))
      case AtPlace(i) =>
        if i < |op.outcomes| && i < |op.plan.targets| then PlaceStep(w, x, i) else Halt(w, "NO_OUTCOME")
      case AtCheck(i) =>
        if i < |op.outcomes| && i < |op.plan.targets| && At(w.dest, op.outcomes[i].at) == Some(op.plan.content)
        then Go(w.Put(x, op.(outcomes := op.outcomes[i := op.outcomes[i].(verified := true)])), AtTarget(i + 1))
        else Halt(w, "VERIFY_FAILED")
      case AtRetire(j) =>
        if j < |op.base.value.replicas| then RetireStep(w, x, j, c) else Go(w, AtVerify(0))
      case AtVerify(k) =>
        if k >= |op.outcomes| then Go(w, AtRelease(0))
        else if At(w.dest, op.outcomes[k].at) == Some(op.plan.content) then Go(w, AtVerify(k + 1))
        else Halt(w, "VERIFY_FAILED")
      case AtRelease(r) =>
        if op.outcomes != [] && r < |op.plan.release| then ReleaseStep(w, x, r) else Go(w, AtFinish)
      case AtFinish =>
        var done := op.(state := Complete, finished := true);
        Finished(World(w.ops[x := done], w.owners[op.owner := FinalRow(done)], w.dest, w.pins, w.blobs))
  }

  // ── What a step may touch ─────────────────────────────────────────────────

  /** A placement: over nothing, or over the version recorded at resolution that is
      the executor's own (or any, under `overwrite`) and that nobody else claims. */
  predicate Placement(w: World, x: OpId, stage: Stage, e: Endpoint, before: Option<Content>, after: Option<Content>)
    requires x in w.ops
  {
    var op := w.ops[x];
    && stage.AtPlace? && stage.i < |op.outcomes| && stage.i < |op.plan.targets|
    && e == op.outcomes[stage.i].at && after == Some(op.plan.content)
    && (before.Some? ==>
          && before == op.outcomes[stage.i].expected && !OtherClaims(w, x, e)
          && (before == op.outcomes[stage.i].ownVersion || op.plan.targets[stage.i].onConflict == Overwrite))
  }

  /** A retirement: a managed, unchanged mirror replica the new plan neither uses nor keeps, claimed by nobody else. */
  predicate Retirement(w: World, x: OpId, stage: Stage, e: Endpoint, before: Option<Content>, after: Option<Content>, c: Config)
    requires x in w.ops
  {
    var op := w.ops[x];
    && stage.AtRetire? && op.base.Some? && stage.j < |op.base.value.replicas| && after.None?
    && var old' := op.base.value.replicas[stage.j];
       (e == old'.at && before == Some(old'.content) && old'.managed && old'.mirror && c.retires(e)
        && !InOutcomes(op, e) && e !in op.plan.preserve && !OtherClaims(w, x, e))
  }

  /** A release: an unchanged staging place, claimed by nobody else. */
  predicate Release(w: World, x: OpId, stage: Stage, e: Endpoint, before: Option<Content>, after: Option<Content>)
    requires x in w.ops
  {
    var op := w.ops[x];
    && stage.AtRelease? && op.outcomes != [] && stage.r < |op.plan.release| && after.None?
    && e == op.plan.release[stage.r].at && before == Some(op.plan.release[stage.r].content) && !OtherClaims(w, x, e)
  }

  /** Nothing else ever happens to a destination. */
  lemma StepTouchesOnly(w: World, x: OpId, stage: Stage, c: Config, e: Endpoint)
    requires x in w.ops
    ensures var before, after := At(w.dest, e), At(Exec(w, x, stage, c).w.dest, e);
            || after == before
            || Placement(w, x, stage, e, before, after)
            || Retirement(w, x, stage, e, before, after, c)
            || Release(w, x, stage, e, before, after)
  {
  }

  /** A recorded own version really is one: a managed mirror replica of the base under the requested name. */
  predicate OwnVersionsReal(op: Op) {
    && |op.outcomes| <= |op.plan.targets|
    && (op.outcomes != [] ==> op.base.Some?)
    && forall i | 0 <= i < |op.outcomes| && op.outcomes[i].ownVersion.Some? ::
         OwnedBefore(op.base.value, op.plan.targets[i].at, op.outcomes[i].ownVersion.value)
  }

  predicate OwnedBefore(base: OwnerRow, requested: Endpoint, content: Content) {
    exists r | r in base.replicas :: r.managed && r.mirror && r.requested == requested && r.content == content
  }

  lemma StepKeepsOwnVersions(w: World, x: OpId, stage: Stage, c: Config)
    requires x in w.ops && OwnVersionsReal(w.ops[x])
    requires stage.AtTarget? ==> stage.i <= |w.ops[x].outcomes|
    ensures Exec(w, x, stage, c).Go? ==> OwnVersionsReal(Exec(w, x, stage, c).w.ops[x])
  {
    var op := w.ops[x];
    if stage.AtTarget? && op.base.Some? && stage.i == |op.outcomes| && stage.i < |op.plan.targets| {
      var o := ResolveTarget(w, op.base.value, op.plan, op.plan.targets[stage.i], c);
      if o.Some? {
        ResolvedOwnVersion(w, op.base.value, op.plan, op.plan.targets[stage.i], c);
      }
    }
  }

  lemma ResolvedOwnVersion(w: World, base: OwnerRow, plan: Plan, t: Target, c: Config)
    ensures var o := ResolveTarget(w, base, plan, t, c);
            o.Some? && o.value.ownVersion.Some? ==> OwnedBefore(base, t.at, o.value.ownVersion.value)
  {
    var p := Previous(base.replicas, t.at);
    if p.Some? { assert p.value in base.replicas; }
  }

  // ── Crash and re-run ──────────────────────────────────────────────────────

  predicate Placed(w: World, op: Op, i: nat)
    requires i < |op.outcomes|
  {
    op.outcomes[i].verified && At(w.dest, op.outcomes[i].at) == Some(op.plan.content)
  }

  predicate AllPlaced(w: World, op: Op, n: nat)
    requires n <= |op.outcomes|
  {
    forall i | 0 <= i < n :: Placed(w, op, i)
  }

  predicate Pinned(w: World, x: OpId)
    requires x in w.ops && w.ops[x].base.Some?
  {
    NeedsPin(w.ops[x]) ==> x in w.pins && w.pins[x] == w.ops[x].plan.content && w.ops[x].staged
  }

  predicate Retired(w: World, x: OpId, n: nat)
    requires x in w.ops && w.ops[x].base.Some? && n <= |w.ops[x].base.value.replicas|
  {
    forall j | 0 <= j < n ::
      KeptReplica(w, x, w.ops[x].base.value.replicas[j]) || w.ops[x].base.value.replicas[j].at !in w.dest
  }

  predicate ReleasedUpTo(w: World, x: OpId, n: nat)
    requires x in w.ops && n <= |w.ops[x].plan.release|
  {
    forall r | 0 <= r < n ::
      OtherClaims(w, x, w.ops[x].plan.release[r].at) || w.ops[x].plan.release[r].at !in w.dest
  }

  /** Everything before the stage has been done and still stands. */
  predicate DoneBefore(w: World, x: OpId, stage: Stage) {
    && x in w.ops && |w.ops[x].outcomes| <= |w.ops[x].plan.targets|
    && var op := w.ops[x];
       (stage.AtBase? ||
        (op.base.Some? &&
         (stage.AtPin? ||
          (Pinned(w, x) &&
           match stage
           case AtTarget(i) => i <= |op.outcomes| <= |op.plan.targets| && AllPlaced(w, op, i)
           case AtPlace(i) => i < |op.outcomes| <= |op.plan.targets| && AllPlaced(w, op, i)
           case AtCheck(i) =>
             i < |op.outcomes| <= |op.plan.targets| && AllPlaced(w, op, i)
             && At(w.dest, op.outcomes[i].at) == Some(op.plan.content)
           case AtRetire(j) => AllDone(w, op) && j <= |op.base.value.replicas| && Retired(w, x, j)
           case AtVerify(k) => k <= |op.outcomes| && AllDone(w, op) && Retired(w, x, |op.base.value.replicas|)
           case AtRelease(r) =>
             AllDone(w, op) && Retired(w, x, |op.base.value.replicas|) && r <= |op.plan.release| && ReleasedUpTo(w, x, r)
           case AtFinish =>
             AllDone(w, op) && Retired(w, x, |op.base.value.replicas|)
             && (op.outcomes != [] ==> ReleasedUpTo(w, x, |op.plan.release|))
           case _ => true))))
  }

  predicate AllDone(w: World, op: Op) {
    |op.outcomes| == |op.plan.targets| && AllPlaced(w, op, |op.outcomes|)
  }

  /** The plan does not release a place it also delivers to. */
  predicate NoSelfRelease(op: Op) {
    forall i, r | 0 <= i < |op.outcomes| && 0 <= r < |op.plan.release| :: op.outcomes[i].at != op.plan.release[r].at
  }

  /** Stages in order; each step goes up, or stays with less left to do. */
  function Phase(s: Stage): nat {
    match s
    case AtBase => 6
    case AtPin => 5
    case AtTarget(_) => 4
    case AtPlace(_) => 4
    case AtCheck(_) => 4
    case AtRetire(_) => 3
    case AtVerify(_) => 2
    case AtRelease(_) => 1
    case AtFinish => 0
  }

  function Clamp(n: int): nat { if n < 0 then 0 else n }

  function Left(w: World, x: OpId, s: Stage): nat
    requires x in w.ops
  {
    var op := w.ops[x];
    match s
    case AtTarget(i) => Clamp(|op.plan.targets| - i)
    case AtPlace(i) => Clamp(|op.plan.targets| - i)
    case AtCheck(i) => Clamp(|op.plan.targets| - i)
    case AtRetire(j) => if op.base.Some? then Clamp(|op.base.value.replicas| - j) else 0
    case AtVerify(k) => Clamp(|op.outcomes| - k)
    case AtRelease(r) => Clamp(|op.plan.release| - r)
    case _ => 0
  }

  function Within(w: World, x: OpId, s: Stage): nat
    requires x in w.ops
  {
    var op := w.ops[x];
    match s
    case AtPin => if x in w.pins then 0 else 1
    case AtTarget(_) => 3
    case AtPlace(_) => 2
    case AtCheck(_) => 1
    case AtRetire(j) => if op.base.Some? && j < |op.base.value.replicas| && op.base.value.replicas[j].at in w.dest then 1 else 0
    case AtRelease(r) => if r < |op.plan.release| && op.plan.release[r].at in w.dest then 1 else 0
    case _ => 0
  }

  predicate Descends(w: World, s: Stage, w': World, s': Stage, x: OpId)
    requires x in w.ops
  {
    && x in w'.ops
    && (Phase(s') < Phase(s)
        || (Phase(s') == Phase(s) && (Left(w', x, s') < Left(w, x, s)
            || (Left(w', x, s') == Left(w, x, s) && Within(w', x, s') < Within(w, x, s)))))
  }

  lemma StepDescends(w: World, x: OpId, s: Stage, c: Config)
    requires x in w.ops && Exec(w, x, s, c).Go?
    ensures Descends(w, s, Exec(w, x, s, c).w, Exec(w, x, s, c).stage, x)
  {
    match s
    case AtPlace(i) => PlaceDescends(w, x, i);
    case AtCheck(i) => CheckDescends(w, x, i, c);
    case AtRetire(j) => RetireDescends(w, x, j, c);
    case AtVerify(k) => VerifyDescends(w, x, k, c);
    case AtRelease(r) => ReleaseDescends(w, x, r, c);
    case _ => EarlyDescends(w, x, s, c);
  }

  lemma EarlyDescends(w: World, x: OpId, s: Stage, c: Config)
    requires x in w.ops && Exec(w, x, s, c).Go? && (s.AtBase? || s.AtPin? || s.AtTarget?)
    ensures Descends(w, s, Exec(w, x, s, c).w, Exec(w, x, s, c).stage, x)
  {
  }

  lemma RetireDescends(w: World, x: OpId, j: nat, c: Config)
    requires x in w.ops && Exec(w, x, AtRetire(j), c).Go?
    ensures Descends(w, AtRetire(j), Exec(w, x, AtRetire(j), c).w, Exec(w, x, AtRetire(j), c).stage, x)
  {
  }

  lemma VerifyDescends(w: World, x: OpId, k: nat, c: Config)
    requires x in w.ops && Exec(w, x, AtVerify(k), c).Go?
    ensures Descends(w, AtVerify(k), Exec(w, x, AtVerify(k), c).w, Exec(w, x, AtVerify(k), c).stage, x)
  {
  }

  lemma ReleaseDescends(w: World, x: OpId, r: nat, c: Config)
    requires x in w.ops && Exec(w, x, AtRelease(r), c).Go?
    ensures Descends(w, AtRelease(r), Exec(w, x, AtRelease(r), c).w, Exec(w, x, AtRelease(r), c).stage, x)
  {
  }

  lemma PlaceDescends(w: World, x: OpId, i: nat)
    requires x in w.ops && i < |w.ops[x].outcomes| && i < |w.ops[x].plan.targets| && PlaceStep(w, x, i).Go?
    ensures Descends(w, AtPlace(i), PlaceStep(w, x, i).w, PlaceStep(w, x, i).stage, x)
  {
  }

  lemma CheckDescends(w: World, x: OpId, i: nat, c: Config)
    requires x in w.ops && Exec(w, x, AtCheck(i), c).Go?
    ensures Descends(w, AtCheck(i), Exec(w, x, AtCheck(i), c).w, Exec(w, x, AtCheck(i), c).stage, x)
  {
  }

  /** Runs the operation from a stage until it completes or halts. */
  function RunFrom(w: World, x: OpId, stage: Stage, c: Config): Progress
    requires x in w.ops
    decreases Phase(stage), Left(w, x, stage), Within(w, x, stage)
  {
    if Exec(w, x, stage, c).Go? then
      StepDescends(w, x, stage, c);
      RunFrom(Exec(w, x, stage, c).w, x, Exec(w, x, stage, c).stage, c)
    else Exec(w, x, stage, c)
  }

  // Steps keep what earlier stages achieved.

  lemma TargetKeepsDone(w: World, x: OpId, i: nat, c: Config)
    requires DoneBefore(w, x, AtTarget(i)) && Exec(w, x, AtTarget(i), c).Go?
    ensures DoneBefore(Exec(w, x, AtTarget(i), c).w, x, Exec(w, x, AtTarget(i), c).stage)
  {
    var op, n := w.ops[x], Exec(w, x, AtTarget(i), c);
    if i < |op.plan.targets| && i == |op.outcomes| {
      var op' := n.w.ops[x];
      assert forall k | 0 <= k < i :: op'.outcomes[k] == op.outcomes[k] && Placed(w, op, k);
    }
  }

  lemma PlaceKeepsDone(w: World, x: OpId, i: nat, c: Config)
    requires DoneBefore(w, x, AtPlace(i)) && Exec(w, x, AtPlace(i), c).Go?
    ensures DoneBefore(Exec(w, x, AtPlace(i), c).w, x, Exec(w, x, AtPlace(i), c).stage)
  {
    var op, n := w.ops[x], Exec(w, x, AtPlace(i), c);
    var op' := n.w.ops[x];
    assert forall k | 0 <= k < i :: Placed(w, op, k) && op'.outcomes[k] == op.outcomes[k];
  }

  lemma CheckKeepsDone(w: World, x: OpId, i: nat, c: Config)
    requires DoneBefore(w, x, AtCheck(i)) && Exec(w, x, AtCheck(i), c).Go?
    ensures DoneBefore(Exec(w, x, AtCheck(i), c).w, x, Exec(w, x, AtCheck(i), c).stage)
  {
    var op, n := w.ops[x], Exec(w, x, AtCheck(i), c);
    var op' := n.w.ops[x];
    assert forall k | 0 <= k < i :: Placed(w, op, k) && op'.outcomes[k] == op.outcomes[k];
  }

  lemma RetireKeepsDone(w: World, x: OpId, j: nat, c: Config)
    requires DoneBefore(w, x, AtRetire(j)) && Exec(w, x, AtRetire(j), c).Go?
    ensures DoneBefore(Exec(w, x, AtRetire(j), c).w, x, Exec(w, x, AtRetire(j), c).stage)
  {
    var op, n := w.ops[x], Exec(w, x, AtRetire(j), c);
    forall k | 0 <= k < |op.outcomes| ensures Placed(n.w, op, k) {
      assert Placed(w, op, k) && InOutcomes(op, op.outcomes[k].at);
    }
    forall k | 0 <= k < j
      ensures KeptReplica(n.w, x, op.base.value.replicas[k]) || op.base.value.replicas[k].at !in n.w.dest
    {
      SameClaims(w, n.w, x, op.base.value.replicas[k].at);
    }
    if j < |op.base.value.replicas| { SameClaims(w, n.w, x, op.base.value.replicas[j].at); }
  }

  /** Bytes and pins have no say in who claims a place. */
  lemma SameClaims(w: World, w': World, x: OpId, e: Endpoint)
    requires x in w.ops && w'.ops == w.ops && w'.owners == w.owners
    ensures OtherClaims(w', x, e) <==> OtherClaims(w, x, e)
  {
  }

  lemma ReleaseKeepsDone(w: World, x: OpId, r: nat, c: Config)
    requires DoneBefore(w, x, AtRelease(r)) && Exec(w, x, AtRelease(r), c).Go? && NoSelfRelease(w.ops[x])
    ensures DoneBefore(Exec(w, x, AtRelease(r), c).w, x, Exec(w, x, AtRelease(r), c).stage)
  {
    var op, n := w.ops[x], Exec(w, x, AtRelease(r), c);
    forall k | 0 <= k < |op.outcomes| ensures Placed(n.w, op, k) {
      assert Placed(w, op, k);
    }
    forall k | 0 <= k < |op.base.value.replicas|
      ensures KeptReplica(n.w, x, op.base.value.replicas[k]) || op.base.value.replicas[k].at !in n.w.dest
    {
      SameClaims(w, n.w, x, op.base.value.replicas[k].at);
    }
    forall k | 0 <= k < |op.plan.release|
      ensures OtherClaims(n.w, x, op.plan.release[k].at) <==> OtherClaims(w, x, op.plan.release[k].at)
    {
      SameClaims(w, n.w, x, op.plan.release[k].at);
    }
  }

  lemma StepKeepsDone(w: World, x: OpId, s: Stage, c: Config)
    requires DoneBefore(w, x, s) && Exec(w, x, s, c).Go? && NoSelfRelease(w.ops[x])
    ensures DoneBefore(Exec(w, x, s, c).w, x, Exec(w, x, s, c).stage)
  {
    match s
    case AtBase => case AtPin => case AtVerify(_) => case AtFinish =>
    case AtTarget(i) => TargetKeepsDone(w, x, i, c);
    case AtPlace(i) => PlaceKeepsDone(w, x, i, c);
    case AtCheck(i) => CheckKeepsDone(w, x, i, c);
    case AtRetire(j) => RetireKeepsDone(w, x, j, c);
    case AtRelease(r) => ReleaseKeepsDone(w, x, r, c);
  }

  // A re-run passes over what is done without changing anything.

  lemma SkipBase(w: World, x: OpId, c: Config)
    requires x in w.ops && w.ops[x].base.Some?
    ensures RunFrom(w, x, AtBase, c) == RunFrom(w, x, AtPin, c)
  {
    assert w.Put(x, w.ops[x].(base := Some(BaseOf(w, w.ops[x])))) == w;
  }

  lemma SkipPin(w: World, x: OpId, c: Config)
    requires x in w.ops && w.ops[x].base.Some? && Pinned(w, x)
    ensures RunFrom(w, x, AtPin, c) == RunFrom(w, x, AtTarget(0), c)
  {
    if NeedsPin(w.ops[x]) {
      assert w.Put(x, w.ops[x].(staged := true)) == w;
    }
  }

  lemma {:induction false} SkipTargets(w: World, x: OpId, i: nat, c: Config)
    requires x in w.ops && w.ops[x].base.Some?
    requires i <= |w.ops[x].outcomes| <= |w.ops[x].plan.targets| && AllPlaced(w, w.ops[x], i)
    ensures RunFrom(w, x, AtTarget(0), c) == RunFrom(w, x, AtTarget(i), c)
  {
    if i > 0 {
      SkipTargets(w, x, i - 1, c);
      var op := w.ops[x];
      assert Placed(w, op, i - 1);
      assert Exec(w, x, AtTarget(i - 1), c) == Go(w, AtPlace(i - 1));
      assert op.outcomes[i - 1 := op.outcomes[i - 1].(verified := true)] == op.outcomes;
      assert Exec(w, x, AtPlace(i - 1), c) == Go(w, AtTarget(i));
    }
  }

  lemma {:induction false} SkipRetired(w: World, x: OpId, j: nat, c: Config)
    requires x in w.ops && w.ops[x].base.Some? && j <= |w.ops[x].base.value.replicas| && Retired(w, x, j)
    ensures RunFrom(w, x, AtRetire(0), c) == RunFrom(w, x, AtRetire(j), c)
  {
    if j > 0 {
      SkipRetired(w, x, j - 1, c);
      assert Exec(w, x, AtRetire(j - 1), c) == Go(w, AtRetire(j));
    }
  }

  lemma {:induction false} SkipVerified(w: World, x: OpId, k: nat, c: Config)
    requires x in w.ops && w.ops[x].base.Some? && k <= |w.ops[x].outcomes| && AllPlaced(w, w.ops[x], k)
    ensures RunFrom(w, x, AtVerify(0), c) == RunFrom(w, x, AtVerify(k), c)
  {
    if k > 0 {
      SkipVerified(w, x, k - 1, c);
      assert Placed(w, w.ops[x], k - 1);
      assert Exec(w, x, AtVerify(k - 1), c) == Go(w, AtVerify(k));
    }
  }

  lemma {:induction false} SkipReleased(w: World, x: OpId, r: nat, c: Config)
    requires x in w.ops && w.ops[x].base.Some? && w.ops[x].outcomes != []
    requires r <= |w.ops[x].plan.release| && ReleasedUpTo(w, x, r)
    ensures RunFrom(w, x, AtRelease(0), c) == RunFrom(w, x, AtRelease(r), c)
  {
    if r > 0 {
      SkipReleased(w, x, r - 1, c);
      assert Exec(w, x, AtRelease(r - 1), c) == Go(w, AtRelease(r));
    }
  }

  lemma SkipPlacing(w: World, x: OpId, i: nat, s: Stage, c: Config)
    requires s == AtTarget(i) || s == AtPlace(i) || s == AtCheck(i)
    requires DoneBefore(w, x, s)
    ensures RunFrom(w, x, AtBase, c) == RunFrom(w, x, s, c)
  {
    SkipBase(w, x, c);
    SkipPin(w, x, c);
    SkipTargets(w, x, i, c);
    if s != AtTarget(i) {
      assert Exec(w, x, AtTarget(i), c) == Go(w, AtPlace(i));
    }
    if s == AtCheck(i) {
      assert Exec(w, x, AtPlace(i), c) == Exec(w, x, AtCheck(i), c);
    }
  }

  lemma SkipToRetire(w: World, x: OpId, j: nat, c: Config)
    requires DoneBefore(w, x, AtRetire(j))
    ensures RunFrom(w, x, AtBase, c) == RunFrom(w, x, AtRetire(j), c)
  {
    SkipPlacing(w, x, |w.ops[x].plan.targets|, AtTarget(|w.ops[x].plan.targets|), c);
    assert Exec(w, x, AtTarget(|w.ops[x].plan.targets|), c) == Go(w, AtRetire(0));
    SkipRetired(w, x, j, c);
  }

  lemma SkipToVerify(w: World, x: OpId, k: nat, c: Config)
    requires DoneBefore(w, x, AtVerify(k))
    ensures RunFrom(w, x, AtBase, c) == RunFrom(w, x, AtVerify(k), c)
  {
    var n := |w.ops[x].base.value.replicas|;
    SkipToRetire(w, x, n, c);
    assert Exec(w, x, AtRetire(n), c) == Go(w, AtVerify(0));
    SkipVerified(w, x, k, c);
  }

  lemma SkipToRelease(w: World, x: OpId, r: nat, c: Config)
    requires DoneBefore(w, x, AtRelease(r))
    ensures RunFrom(w, x, AtBase, c) == RunFrom(w, x, AtRelease(r), c)
  {
    var n := |w.ops[x].outcomes|;
    SkipToVerify(w, x, n, c);
    assert Exec(w, x, AtVerify(n), c) == Go(w, AtRelease(0));
    if w.ops[x].outcomes != [] {
      SkipReleased(w, x, r, c);
    } else {
      assert Exec(w, x, AtRelease(0), c) == Exec(w, x, AtRelease(r), c);
    }
  }

  lemma SkipToFinish(w: World, x: OpId, c: Config)
    requires DoneBefore(w, x, AtFinish)
    ensures RunFrom(w, x, AtBase, c) == RunFrom(w, x, AtFinish, c)
  {
    var n := if w.ops[x].outcomes == [] then 0 else |w.ops[x].plan.release|;
    SkipToRelease(w, x, n, c);
    assert Exec(w, x, AtRelease(n), c) == Go(w, AtFinish);
  }

  /** Crash after any step: starting over from the journal ends exactly where going on would have. */
  lemma CrashReplays(w: World, x: OpId, s: Stage, c: Config)
    requires DoneBefore(w, x, s)
    ensures RunFrom(w, x, AtBase, c) == RunFrom(w, x, s, c)
  {
    match s
    case AtBase =>
    case AtPin => SkipBase(w, x, c);
    case AtTarget(i) => SkipPlacing(w, x, i, s, c);
    case AtPlace(i) => SkipPlacing(w, x, i, s, c);
    case AtCheck(i) => SkipPlacing(w, x, i, s, c);
    case AtRetire(j) => SkipToRetire(w, x, j, c);
    case AtVerify(k) => SkipToVerify(w, x, k, c);
    case AtRelease(r) => SkipToRelease(w, x, r, c);
    case AtFinish => SkipToFinish(w, x, c);
  }

  // ── Any number of crashes ─────────────────────────────────────────────────

  /** Up to `n` steps from a stage. */
  function Steps(w: World, x: OpId, s: Stage, n: nat, c: Config): Progress
    requires x in w.ops
    decreases n
  {
    if n == 0 then Go(w, s)
    else
      var next := Exec(w, x, s, c);
      if next.Go? && x in next.w.ops then Steps(next.w, x, next.stage, n - 1, c) else next
  }

  /** In every state of these steps the plan releases no place it delivers to. */
  predicate StepsApart(w: World, x: OpId, s: Stage, n: nat, c: Config)
    requires x in w.ops
    decreases n
  {
    NoSelfRelease(w.ops[x]) &&
    (n == 0 ||
     var next := Exec(w, x, s, c);
     next.Go? && x in next.w.ops ==> StepsApart(next.w, x, next.stage, n - 1, c))
  }

  lemma {:induction false} StepsReplay(w: World, x: OpId, s: Stage, n: nat, c: Config)
    requires DoneBefore(w, x, s) && StepsApart(w, x, s, n, c)
    ensures var r := Steps(w, x, s, n, c);
            r.Go? ==> DoneBefore(r.w, x, r.stage) && RunFrom(r.w, x, r.stage, c) == RunFrom(w, x, s, c)
    decreases n
  {
    if n > 0 {
      var next := Exec(w, x, s, c);
      if next.Go? {
        StepKeepsDone(w, x, s, c);
        StepsReplay(next.w, x, next.stage, n - 1, c);
      }
    }
  }

  /** The world after attempts that crashed after so many steps each. */
  function AfterCrashes(w: World, x: OpId, crashes: seq<nat>, c: Config): World
    requires x in w.ops
    decreases |crashes|
  {
    if crashes == [] then w
    else
      var r := Steps(w, x, AtBase, crashes[0], c);
      if r.Go? && x in r.w.ops then AfterCrashes(r.w, x, crashes[1..], c) else w
  }

  predicate CrashesApart(w: World, x: OpId, crashes: seq<nat>, c: Config)
    requires x in w.ops
    decreases |crashes|
  {
    crashes == [] ||
    (StepsApart(w, x, AtBase, crashes[0], c) &&
     var r := Steps(w, x, AtBase, crashes[0], c);
     r.Go? && x in r.w.ops ==> CrashesApart(r.w, x, crashes[1..], c))
  }

  /** However often and wherever an operation crashes, running it again reaches
      the same bytes, owner rows, journal and pins, or the same failure. */
  lemma {:induction false} CrashesChangeNothing(w: World, x: OpId, crashes: seq<nat>, c: Config)
    requires x in w.ops && |w.ops[x].outcomes| <= |w.ops[x].plan.targets|
    requires CrashesApart(w, x, crashes, c)
    ensures x in AfterCrashes(w, x, crashes, c).ops
    ensures RunFrom(AfterCrashes(w, x, crashes, c), x, AtBase, c) == RunFrom(w, x, AtBase, c)
    decreases |crashes|
  {
    if crashes != [] {
      var r := Steps(w, x, AtBase, crashes[0], c);
      StepsReplay(w, x, AtBase, crashes[0], c);
      if r.Go? {
        CrashReplays(r.w, x, r.stage, c);
        CrashesChangeNothing(r.w, x, crashes[1..], c);
      }
    }
  }

  // ── What completion means ─────────────────────────────────────────────────

  /** The plan releases no place it delivers to, all the way from here. */
  predicate Apart(w: World, x: OpId, s: Stage, c: Config)
    requires x in w.ops
    decreases Phase(s), Left(w, x, s), Within(w, x, s)
  {
    NoSelfRelease(w.ops[x]) &&
    if Exec(w, x, s, c).Go? then
      StepDescends(w, x, s, c);
      Apart(Exec(w, x, s, c).w, x, Exec(w, x, s, c).stage, c)
    else true
  }

  /** Completing an operation changes nothing about what others claim. */
  lemma ClaimsSurviveFinish(w: World, f: World, x: OpId, e: Endpoint)
    requires x in w.ops && f.owners.Keys == w.owners.Keys + {w.ops[x].owner}
    requires f.ops == w.ops[x := w.ops[x].(state := Complete, finished := true)]
    requires forall o | o in w.owners && o != w.ops[x].owner :: f.owners[o] == w.owners[o]
    ensures OtherClaims(w, x, e) ==> OtherClaims(f, x, e)
  {
    if OwnerClaims(w, w.ops[x].owner, e) {
      var o :| o in w.owners && o != w.ops[x].owner && Lists(w.owners[o], e);
      assert o in f.owners && Lists(f.owners[o], e);
    } else if OpClaims(w, x, e) {
      var y :| y in w.ops && y != x && !w.ops[y].Terminal() && (Targets(w.ops[y].plan, e) || w.ops[y].plan.source == Some(e));
      assert y in f.ops && f.ops[y] == w.ops[y];
    }
  }

  /** A completed operation left its content at every destination, its owner row
      lists them all, obsolete replicas are gone or kept for a reason, and the
      staging places were let go only after that. */
  lemma {:induction false} CompletionDelivers(w: World, x: OpId, s: Stage, c: Config)
    requires DoneBefore(w, x, s) && Apart(w, x, s, c)
    requires RunFrom(w, x, s, c).Finished?
    ensures var f := RunFrom(w, x, s, c).w;
            && x in f.ops && f.ops[x].state == Complete && f.ops[x].base.Some? && AllDone(f, f.ops[x])
            && f.ops[x].owner in f.owners && f.owners[f.ops[x].owner] == FinalRow(f.ops[x])
            && Retired(f, x, |f.ops[x].base.value.replicas|)
            && (f.ops[x].outcomes != [] ==> ReleasedUpTo(f, x, |f.ops[x].plan.release|))
            && (NeedsPin(f.ops[x]) ==> x in f.pins && f.pins[x] == f.ops[x].plan.content)
    decreases Phase(s), Left(w, x, s), Within(w, x, s)
  {
    var next := Exec(w, x, s, c);
    if next.Go? {
      StepDescends(w, x, s, c);
      StepKeepsDone(w, x, s, c);
      CompletionDelivers(next.w, x, next.stage, c);
    } else {
      assert s.AtFinish?;
      var f := RunFrom(w, x, s, c).w;
      forall i | 0 <= i < |f.ops[x].outcomes| ensures Placed(f, f.ops[x], i) {
        assert Placed(w, w.ops[x], i);
      }
      forall j | 0 <= j < |f.ops[x].base.value.replicas|
        ensures KeptReplica(f, x, f.ops[x].base.value.replicas[j]) || f.ops[x].base.value.replicas[j].at !in f.dest
      {
        ClaimsSurviveFinish(w, f, x, w.ops[x].base.value.replicas[j].at);
      }
      forall r | f.ops[x].outcomes != [] && 0 <= r < |f.ops[x].plan.release|
        ensures OtherClaims(f, x, f.ops[x].plan.release[r].at) || f.ops[x].plan.release[r].at !in f.dest
      {
        ClaimsSurviveFinish(w, f, x, w.ops[x].plan.release[r].at);
      }
    }
  }

  /** Releasing a place keeps every destination exactly when the plan does not also deliver there. */
  lemma ReleaseKeepsExactly(w: World, x: OpId, r: nat, c: Config)
    requires DoneBefore(w, x, AtRelease(r)) && r < |w.ops[x].plan.release|
    requires Exec(w, x, AtRelease(r), c).Go? && Exec(w, x, AtRelease(r), c).w != w
    ensures AllDone(Exec(w, x, AtRelease(r), c).w, w.ops[x]) <==> !InOutcomes(w.ops[x], w.ops[x].plan.release[r].at)
  {
    var op, n := w.ops[x], Exec(w, x, AtRelease(r), c);
    var e := op.plan.release[r].at;
    if InOutcomes(op, e) {
      var i :| 0 <= i < |op.outcomes| && op.outcomes[i].at == e;
      assert !Placed(n.w, op, i);
    } else {
      forall k | 0 <= k < |op.outcomes| ensures Placed(n.w, op, k) {
        assert Placed(w, op, k) && op.outcomes[k].at != e;
      }
    }
  }

  // ── Plans that keep what they deliver, seen before submission ─────────────

  /** A destination can only end up at the place asked for, or under `rename` at
      the replica that was asked for under that name before, or at a free name. */
  ghost predicate CanLandAt(base: OwnerRow, t: Target, c: Config, e: Endpoint) {
    || e == t.at
    || (t.onConflict == Rename && Previous(base.replicas, t.at).Some? && e == Previous(base.replicas, t.at).value.at)
    || (t.onConflict == Rename && exists d: Bytes :: e == c.freeName(d, t.at))
  }

  /** Nothing the plan releases is a place one of its targets can land at. */
  ghost predicate PlanKeeps(base: OwnerRow, plan: Plan, c: Config) {
    forall i, e | 0 <= i < |plan.targets| && CanLandAt(base, plan.targets[i], c, e) :: !InRelease(plan, e)
  }

  /** What is recorded landed where the plan allows, and none of it is released. */
  ghost predicate Landed(w: World, x: OpId, c: Config)
    requires x in w.ops
  {
    var op := w.ops[x];
    && PlanKeeps(BaseOf(w, op), op.plan, c)
    && forall i | 0 <= i < |op.outcomes| :: !InRelease(op.plan, op.outcomes[i].at)
  }

  lemma LandedKeeps(w: World, x: OpId, c: Config)
    requires x in w.ops && Landed(w, x, c)
    ensures NoSelfRelease(w.ops[x])
  {
  }

  lemma ResolvedLands(w: World, base: OwnerRow, plan: Plan, t: Target, c: Config)
    ensures var o := ResolveTarget(w, base, plan, t, c); o.Some? ==> CanLandAt(base, t, c, o.value.at)
    ensures var o := ResolveTarget(w, base, plan, t, c); o.Some? && t.onConflict != Rename ==> o.value.at == t.at
  {
  }

  /** A step fixes plan, base and landing places; only the target loop adds one. */
  predicate SameRecord(a: Op, b: Op) {
    && b.plan == a.plan && b.owner == a.owner && b.no == a.no
    && (a.base.Some? ==> b.base == a.base)
    && |a.outcomes| <= |b.outcomes|
    && forall i | 0 <= i < |a.outcomes| :: b.outcomes[i] == a.outcomes[i].(verified := b.outcomes[i].verified)
  }

  predicate KeepsRecord(w: World, x: OpId, s: Stage, c: Config)
    requires x in w.ops
  {
    var n := Exec(w, x, s, c);
    && x in n.w.ops && SameRecord(w.ops[x], n.w.ops[x])
    && (!s.AtTarget? ==> |n.w.ops[x].outcomes| == |w.ops[x].outcomes|)
    && (n.Go? ==> n.w.owners == w.owners && BaseOf(n.w, n.w.ops[x]) == BaseOf(w, w.ops[x]))
  }

  lemma StepKeepsRecord(w: World, x: OpId, s: Stage, c: Config)
    requires x in w.ops
    ensures KeepsRecord(w, x, s, c)
  {
    match s
    case AtTarget(i) => TargetKeepsRecord(w, x, i, c);
    case AtPlace(i) => PlaceKeepsRecord(w, x, i, c);
    case AtRetire(j) => LateKeepsRecord(w, x, s, c);
    case AtRelease(r) => LateKeepsRecord(w, x, s, c);
    case AtCheck(i) => CheckKeepsRecord(w, x, i, c);
    case AtBase => EarlyKeepsRecord(w, x, s, c);
    case AtPin => EarlyKeepsRecord(w, x, s, c);
    case AtVerify(k) => EndKeepsRecord(w, x, s, c);
    case AtFinish => EndKeepsRecord(w, x, s, c);
  }

  lemma EarlyKeepsRecord(w: World, x: OpId, s: Stage, c: Config)
    requires x in w.ops && (s.AtBase? || s.AtPin?)
    ensures KeepsRecord(w, x, s, c)
  {
  }

  lemma CheckKeepsRecord(w: World, x: OpId, i: nat, c: Config)
    requires x in w.ops
    ensures KeepsRecord(w, x, AtCheck(i), c)
  {
  }

  lemma EndKeepsRecord(w: World, x: OpId, s: Stage, c: Config)
    requires x in w.ops && (s.AtVerify? || s.AtFinish?)
    ensures KeepsRecord(w, x, s, c)
  {
  }

  lemma LateKeepsRecord(w: World, x: OpId, s: Stage, c: Config)
    requires x in w.ops && (s.AtRetire? || s.AtRelease?)
    ensures KeepsRecord(w, x, s, c)
  {
    assert Exec(w, x, s, c).w.ops == w.ops;
  }

  lemma TargetKeepsRecord(w: World, x: OpId, i: nat, c: Config)
    requires x in w.ops
    ensures KeepsRecord(w, x, AtTarget(i), c)
  {
    var op, n := w.ops[x], Exec(w, x, AtTarget(i), c).w;
    assert x in n.ops;
    forall k | 0 <= k < |op.outcomes| ensures n.ops[x].outcomes[k] == op.outcomes[k] {
    }
  }

  lemma PlaceKeepsRecord(w: World, x: OpId, i: nat, c: Config)
    requires x in w.ops
    ensures KeepsRecord(w, x, AtPlace(i), c)
  {
    var op, n := w.ops[x], Exec(w, x, AtPlace(i), c).w;
    assert n.owners == w.owners;
    assert n.ops == w.ops || (i < |op.outcomes| && n.ops[x] == op.(outcomes := op.outcomes[i := op.outcomes[i].(verified := true)]));
  }

  lemma StepKeepsLanded(w: World, x: OpId, s: Stage, c: Config)
    requires x in w.ops && Landed(w, x, c)
    ensures Exec(w, x, s, c).Go? ==> x in Exec(w, x, s, c).w.ops && Landed(Exec(w, x, s, c).w, x, c)
  {
    StepKeepsRecord(w, x, s, c);
    var op, n := w.ops[x], Exec(w, x, s, c);
    if n.Go? {
      assert BaseOf(n.w, n.w.ops[x]) == BaseOf(w, op);
      if s.AtTarget? && |n.w.ops[x].outcomes| > |op.outcomes| { NewOutcomeLands(w, x, s.i, c); }
    }
  }

  /** The target loop adds one outcome, resolved from what is there now. */
  lemma NewOutcomeLands(w: World, x: OpId, i: nat, c: Config)
    requires x in w.ops && Exec(w, x, AtTarget(i), c).Go?
    requires |Exec(w, x, AtTarget(i), c).w.ops[x].outcomes| > |w.ops[x].outcomes|
    ensures var op := w.ops[x];
            && op.base.Some? && i < |op.plan.targets| && |op.outcomes| <= i
            && var o := ResolveTarget(w, op.base.value, op.plan, op.plan.targets[i], c);
               o.Some? && Exec(w, x, AtTarget(i), c).w.ops[x].outcomes == op.outcomes + [o.value]
               && CanLandAt(op.base.value, op.plan.targets[i], c, o.value.at)
  {
    var op := w.ops[x];
    ResolvedLands(w, op.base.value, op.plan, op.plan.targets[i], c);
  }

  lemma {:induction false} LandedIsApart(w: World, x: OpId, s: Stage, c: Config)
    requires x in w.ops && Landed(w, x, c)
    ensures Apart(w, x, s, c)
    decreases Phase(s), Left(w, x, s), Within(w, x, s)
  {
    LandedKeeps(w, x, c);
    if Exec(w, x, s, c).Go? {
      StepDescends(w, x, s, c);
      StepKeepsLanded(w, x, s, c);
      LandedIsApart(Exec(w, x, s, c).w, x, Exec(w, x, s, c).stage, c);
    }
  }

  lemma {:induction false} LandedStepsApart(w: World, x: OpId, s: Stage, n: nat, c: Config)
    requires x in w.ops && Landed(w, x, c)
    ensures StepsApart(w, x, s, n, c)
    ensures var r := Steps(w, x, s, n, c); r.Go? ==> x in r.w.ops && Landed(r.w, x, c)
    decreases n
  {
    LandedKeeps(w, x, c);
    if n > 0 {
      StepKeepsLanded(w, x, s, c);
      if Exec(w, x, s, c).Go? { LandedStepsApart(Exec(w, x, s, c).w, x, Exec(w, x, s, c).stage, n - 1, c); }
    }
  }

  lemma {:induction false} LandedCrashesApart(w: World, x: OpId, crashes: seq<nat>, c: Config)
    requires x in w.ops && Landed(w, x, c)
    ensures CrashesApart(w, x, crashes, c)
    decreases |crashes|
  {
    if crashes != [] {
      LandedStepsApart(w, x, AtBase, crashes[0], c);
      var r := Steps(w, x, AtBase, crashes[0], c);
      if r.Go? { LandedCrashesApart(r.w, x, crashes[1..], c); }
    }
  }

  /** The same as a promise about a submitted plan: if nothing it releases is a
      place it can deliver to, any crashes are invisible, and completion means delivery. */
  lemma SubmittedPlanDelivers(w: World, x: OpId, crashes: seq<nat>, c: Config)
    requires x in w.ops && w.ops[x].outcomes == [] && PlanKeeps(BaseOf(w, w.ops[x]), w.ops[x].plan, c)
    ensures x in AfterCrashes(w, x, crashes, c).ops
    ensures var end := RunFrom(AfterCrashes(w, x, crashes, c), x, AtBase, c);
            && end == RunFrom(w, x, AtBase, c)
            && (end.Finished? ==>
                  && x in end.w.ops && end.w.ops[x].state == Complete && end.w.ops[x].base.Some? && AllDone(end.w, end.w.ops[x])
                  && Retired(end.w, x, |end.w.ops[x].base.value.replicas|)
                  && (end.w.ops[x].outcomes != [] ==> ReleasedUpTo(end.w, x, |end.w.ops[x].plan.release|))
                  && end.w.ops[x].owner in end.w.owners && end.w.owners[end.w.ops[x].owner] == FinalRow(end.w.ops[x]))
  {
    LandedCrashesApart(w, x, crashes, c);
    CrashesChangeNothing(w, x, crashes, c);
    LandedIsApart(w, x, AtBase, c);
    if RunFrom(w, x, AtBase, c).Finished? { CompletionDelivers(w, x, AtBase, c); }
  }

  // Without `rename` everything lands exactly where asked.

  predicate NoRename(p: Plan) {
    forall i | 0 <= i < |p.targets| :: p.targets[i].onConflict != Rename
  }

  /** Outcomes so far landed exactly where asked, and past the target loop all are there. */
  predicate AsAsked(op: Op, s: Stage) {
    && |op.outcomes| <= |op.plan.targets|
    && (forall i | 0 <= i < |op.outcomes| :: op.outcomes[i].at == op.plan.targets[i].at)
    && (s.AtTarget? || s.AtPlace? || s.AtCheck? ==> s.i <= |op.outcomes|)
    && (s.AtPlace? || s.AtCheck? ==> s.i < |op.outcomes|)
    && (s.AtRetire? || s.AtVerify? || s.AtRelease? || s.AtFinish? ==> |op.outcomes| == |op.plan.targets|)
  }

  lemma StepKeepsAsked(w: World, x: OpId, s: Stage, c: Config)
    requires x in w.ops && NoRename(w.ops[x].plan) && AsAsked(w.ops[x], s) && Exec(w, x, s, c).Go?
    ensures var n := Exec(w, x, s, c); x in n.w.ops && n.w.ops[x].plan == w.ops[x].plan && AsAsked(n.w.ops[x], n.stage)
  {
    match s
    case AtTarget(i) => TargetKeepsAsked(w, x, i, c);
    case AtPlace(i) => CheckKeepsAsked(w, x, i, c);
    case AtCheck(i) => CheckKeepsAsked(w, x, i, c);
    case _ => LaterKeepsAsked(w, x, s, c);
  }

  lemma TargetKeepsAsked(w: World, x: OpId, i: nat, c: Config)
    requires x in w.ops && NoRename(w.ops[x].plan) && AsAsked(w.ops[x], AtTarget(i)) && Exec(w, x, AtTarget(i), c).Go?
    ensures var n := Exec(w, x, AtTarget(i), c); x in n.w.ops && n.w.ops[x].plan == w.ops[x].plan && AsAsked(n.w.ops[x], n.stage)
  {
    var op := w.ops[x];
    if i == |op.outcomes| && i < |op.plan.targets| {
      ResolvedLands(w, op.base.value, op.plan, op.plan.targets[i], c);
    }
  }

  lemma CheckKeepsAsked(w: World, x: OpId, i: nat, c: Config)
    requires x in w.ops && AsAsked(w.ops[x], AtPlace(i))
    ensures forall s | s in {AtPlace(i), AtCheck(i)} && Exec(w, x, s, c).Go? ::
              var n := Exec(w, x, s, c); x in n.w.ops && n.w.ops[x].plan == w.ops[x].plan && AsAsked(n.w.ops[x], n.stage)
  {
  }

  lemma LaterKeepsAsked(w: World, x: OpId, s: Stage, c: Config)
    requires x in w.ops && AsAsked(w.ops[x], s) && Exec(w, x, s, c).Go?
    requires !s.AtTarget? && !s.AtPlace? && !s.AtCheck?
    ensures var n := Exec(w, x, s, c);
            x in n.w.ops && n.w.ops[x].plan == w.ops[x].plan && n.w.ops[x].outcomes == w.ops[x].outcomes && AsAsked(n.w.ops[x], n.stage)
  {
  }

  /** A submitted plan that delivers to its own staging place loses that copy, and
      the owner row claims it all the same. */
  lemma SelfReleaseLoses(x: OpId, owner: Owner, e: Endpoint, content: Content, c: Config)
    ensures var plan := Plan(content, Some(e), None, [Target(e, Refuse, false, false)], {}, [Staging(e, content)]);
            var op := Op(owner, 1, plan, Pending, 0, None, [], false, None, false, false);
            var r := RunFrom(World(map[x := op], map[], map[e := content], map[], map[]), x, AtBase, c);
            && r.Finished? && e !in r.w.dest && owner in r.w.owners && Lists(r.w.owners[owner], e)
  {
    var plan := Plan(content, Some(e), None, [Target(e, Refuse, false, false)], {}, [Staging(e, content)]);
    var op := Op(owner, 1, plan, Pending, 0, None, [], false, None, false, false);
    var w := World(map[x := op], map[], map[e := content], map[], map[]);
    var based := op.(base := Some(OwnerRow("", [])));
    var w1 := w.(ops := map[x := based]);
    assert Exec(w, x, AtBase, c) == Go(w1, AtPin);
    var w2 := w1.(pins := map[x := content]);
    assert Exec(w1, x, AtPin, c) == Go(w2, AtPin);
    var w3 := w2.(ops := map[x := based.(staged := true)]);
    assert Exec(w2, x, AtPin, c) == Go(w3, AtTarget(0));
    SelfReleasePlaces(w3, x, e, c);
    assert RunFrom(w, x, AtBase, c) == RunFrom(w1, x, AtPin, c) == RunFrom(w2, x, AtPin, c) == RunFrom(w3, x, AtTarget(0), c);
  }

  lemma SelfReleasePlaces(w: World, x: OpId, e: Endpoint, c: Config)
    requires x in w.ops && w.ops.Keys == {x} && w.owners == map[] && w.ops[x].base == Some(OwnerRow("", []))
    requires var op := w.ops[x];
             && op.plan.targets == [Target(e, Refuse, false, false)] && op.outcomes == []
             && op.plan.release == [Staging(e, op.plan.content)] && At(w.dest, e) == Some(op.plan.content)
    ensures var r := RunFrom(w, x, AtTarget(0), c);
            r.Finished? && e !in r.w.dest && w.ops[x].owner in r.w.owners && Lists(r.w.owners[w.ops[x].owner], e)
  {
    var op := w.ops[x];
    var o := Outcome(e, e, false, false, Some(op.plan.content), None, false);
    assert ResolveTarget(w, OwnerRow("", []), op.plan, op.plan.targets[0], c) == Some(o);
    assert [] + [o] == [o] && [o][0 := o.(verified := true)] == [o.(verified := true)];
    var v := w.Put(x, op.(outcomes := [o]));
    assert Exec(w, x, AtTarget(0), c) == Go(v, AtPlace(0));
    var u := v.Put(x, op.(outcomes := [o.(verified := true)]));
    assert Exec(v, x, AtPlace(0), c) == Go(u, AtTarget(1));
    SelfReleaseTail(u, x, e, c);
    assert RunFrom(w, x, AtTarget(0), c) == RunFrom(v, x, AtPlace(0), c) == RunFrom(u, x, AtTarget(1), c);
  }

  lemma SelfReleaseTail(w: World, x: OpId, e: Endpoint, c: Config)
    requires x in w.ops && w.ops.Keys == {x} && w.owners == map[] && w.ops[x].base == Some(OwnerRow("", []))
    requires var op := w.ops[x];
             && |op.plan.targets| == 1 && |op.outcomes| == 1 && op.outcomes[0].at == e
             && op.plan.release == [Staging(e, op.plan.content)] && At(w.dest, e) == Some(op.plan.content)
    ensures var r := RunFrom(w, x, AtTarget(1), c);
            r.Finished? && e !in r.w.dest && w.ops[x].owner in r.w.owners && Lists(r.w.owners[w.ops[x].owner], e)
  {
    var op := w.ops[x];
    assert !OtherClaims(w, x, e);
    var w1 := w.(dest := w.dest - {e});
    assert Exec(w, x, AtTarget(1), c) == Go(w, AtRetire(0));
    assert Exec(w, x, AtRetire(0), c) == Go(w, AtVerify(0));
    assert Exec(w, x, AtVerify(0), c) == Go(w, AtVerify(1));
    assert Exec(w, x, AtVerify(1), c) == Go(w, AtRelease(0));
    assert Exec(w, x, AtRelease(0), c) == Go(w1, AtRelease(0));
    assert Exec(w1, x, AtRelease(0), c) == Go(w1, AtRelease(1));
    assert Exec(w1, x, AtRelease(1), c) == Go(w1, AtFinish);
    assert RunFrom(w1, x, AtRelease(0), c) == RunFrom(w1, x, AtRelease(1), c) == RunFrom(w1, x, AtFinish, c);
    assert RunFrom(w, x, AtVerify(0), c) == RunFrom(w, x, AtVerify(1), c) == RunFrom(w, x, AtRelease(0), c);
    assert RunFrom(w, x, AtTarget(1), c) == RunFrom(w, x, AtRetire(0), c) == RunFrom(w, x, AtVerify(0), c);
    assert FinalRow(op.(state := Complete, finished := true)).replicas[0].at == e;
  }
}
