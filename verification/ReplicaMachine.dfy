/** The executor among everything else that happens: claims, crashes, cleanup and
    its failures, submissions, supersession, owner retirement, adoption,
    relocation, and outsiders editing destinations. */
module ReplicaMachine {
  import opened Options
  import opened ReplicaModel
  import opened ReplicaApply
  import ReplicaLedger

  /** Claimed: marked running from a copy of its record, waiting for the storage
      lock. Cleaning: committed, and about to give up its pin. */
  datatype Pc = Idle | Claimed(x: OpId, copy: Op) | Applying(x: OpId, stage: Stage) | Cleaning(x: OpId) {
    predicate About(y: OpId) { !Idle? && x == y }
  }

  datatype Machine = Machine(w: World, pc: Pc, head: nat)

  datatype Move =
    | Claim(x: OpId)
    | Begin
    | Advance
    | Crash
    | Outsider(e: Endpoint, content: Option<Content>)
    | Submit(id: OpId, owner: Owner, plan: Plan)
    | Supersede(id: OpId, id': OpId, plan: Plan)
    | RetireOwner(owner: Owner, archive: Owner)
    | Adopt(owner: Owner, e: Endpoint)
    | Relocate(moved: map<Endpoint, Endpoint>)
    | DropPin(x: OpId)
    | DropBlob(x: OpId)
    | EndCleaning(x: OpId)
    | Reopen(transient: bool)

  // ── Cleaning up ───────────────────────────────────────────────────────────

  /** The end of the chain of successors of a superseded operation. */
  function FinalSuccessor(ops: Ops, x: OpId, visited: set<OpId>): Option<OpId>
    decreases ops.Keys - visited
  {
    if x !in ops then None
    else if ops[x].state == Cancelled && ops[x].successor.Some? && x !in visited
    then FinalSuccessor(ops, ops[x].successor.value, visited + {x})
    else Some(x)
  }

  /** The operation, or the one that finally replaced it, is complete. */
  predicate Superseded(ops: Ops, x: OpId) {
    var last := FinalSuccessor(ops, x, {});
    last.Some? && last.value in ops && ops[last.value].state == Complete
  }

  /** Only a finished operation is cleaned, between applications or at the end of its own. */
  predicate MayClean(m: Machine, x: OpId) {
    && x in m.w.ops && m.w.ops[x].Terminal() && !m.w.ops[x].cleaned && Superseded(m.w.ops, x)
    && (m.pc.Idle? || m.pc == Cleaning(x))
  }

  predicate BlobNeeded(w: World, key: CacheKey) {
    exists y | y in w.ops :: !w.ops[y].Terminal() && w.ops[y].plan.cached == Some(key)
  }

  // ── Superseding ───────────────────────────────────────────────────────────

  /** Puts a replica into a row, over the one at the same place if there is one. */
  function Upsert(rs: seq<Replica>, r: Replica): seq<Replica> {
    if rs == [] then [r]
    else if rs[0].at == r.at then [r] + rs[1..]
    else [rs[0]] + Upsert(rs[1..], r)
  }

  lemma {:induction false} UpsertExact(rs: seq<Replica>, r: Replica, e: Endpoint)
    ensures ListsAmong(Upsert(rs, r), e) <==> ListsAmong(rs, e) || e == r.at
  {
    if rs == [] {
      assert [r][0].at == r.at;
    } else {
      ListsFirst(rs, e);
      ListsFirst(Upsert(rs, r), e);
      if rs[0].at == r.at {
        assert Upsert(rs, r)[1..] == rs[1..];
      } else {
        assert Upsert(rs, r)[1..] == Upsert(rs[1..], r);
        UpsertExact(rs[1..], r, e);
      }
    }
  }

  lemma ListsFirst(rs: seq<Replica>, e: Endpoint)
    requires rs != []
    ensures ListsAmong(rs, e) <==> rs[0].at == e || ListsAmong(rs[1..], e)
  {
    if ListsAmong(rs[1..], e) {
      var i :| 0 <= i < |rs[1..]| && rs[1..][i].at == e;
      assert rs[i + 1].at == e;
    }
    if i :| 0 <= i < |rs| && rs[i].at == e && i > 0 { assert rs[1..][i - 1].at == e; }
  }

  /** The base row plus every outcome so far whose place really holds the content. */
  function WithHeld(rs: seq<Replica>, op: Op, dest: Bytes, n: nat): seq<Replica>
    requires n <= |op.outcomes|
  {
    if n == 0 then rs
    else
      var before := WithHeld(rs, op, dest, n - 1);
      var o := op.outcomes[n - 1];
      if At(dest, o.at) == Some(op.plan.content) then Upsert(before, AsReplica(o, op.plan.content)) else before
  }

  /** Superseding never makes an owner let go of a place. */
  lemma {:induction false} WithHeldLists(rs: seq<Replica>, op: Op, dest: Bytes, n: nat, e: Endpoint)
    requires n <= |op.outcomes| && ListsAmong(rs, e)
    ensures ListsAmong(WithHeld(rs, op, dest, n), e)
  {
    if n > 0 {
      WithHeldLists(rs, op, dest, n - 1, e);
      UpsertExact(WithHeld(rs, op, dest, n - 1), AsReplica(op.outcomes[n - 1], op.plan.content), e);
    }
  }

  function SupersededRow(w: World, x: OpId): OwnerRow
    requires x in w.ops
  {
    var op := w.ops[x];
    var row := if op.owner in w.owners then w.owners[op.owner]
               else if op.base.Some? then op.base.value else OwnerRow("", []);
    row.(replicas := WithHeld(row.replicas, op, w.dest, |op.outcomes|))
  }

  // ── Moves ─────────────────────────────────────────────────────────────────

  predicate EarlierDone(ops: Ops, x: OpId)
    requires x in ops
  {
    forall y | y in ops && ops[y].owner == ops[x].owner && ops[y].no < ops[x].no :: ops[y].Terminal()
  }

  function SetDest(w: World, e: Endpoint, content: Option<Content>): World {
    w.(dest := if content.Some? then w.dest[e := content.value] else w.dest - {e})
  }

  function AdvanceStep(m: Machine, c: Config): Machine {
    if !m.pc.Applying? || m.pc.x !in m.w.ops then m
    else
      match Exec(m.w, m.pc.x, m.pc.stage, c)
      case Go(w', stage') => m.(w := w', pc := Applying(m.pc.x, stage'))
      case Halt(w', _) => m.(w := w'.Put(m.pc.x, m.w.ops[m.pc.x].(state := Blocked)), pc := Idle)
      case Finished(w') => m.(w := w', pc := Cleaning(m.pc.x))
  }

  function SupersedeStep(m: Machine, id: OpId, id': OpId, plan: Plan): Machine {
    if !(m.pc.Idle? || m.pc.Claimed?) || id !in m.w.ops || m.w.ops[id].Terminal() || id' in m.w.ops then m
    else
      var was := m.w.ops[id];
      var ops := m.w.ops[id := was.(state := Cancelled, successor := Some(id'))]
                        [id' := ReplicaLedger.NewOp(was.owner, m.head + 1, plan)];
      m.(w := m.w.(ops := ops, owners := m.w.owners[was.owner := SupersededRow(m.w, id)]), head := m.head + 1)
  }

  /** A claimed operation, or the successor that took its place, is unfinished. */
  predicate Busy(m: Machine, owner: Owner) {
    || (m.pc.Claimed? && m.pc.copy.owner == owner)
    || exists y | y in m.w.ops :: m.w.ops[y].owner == owner && !m.w.ops[y].Terminal()
  }

  function RetireStepOf(m: Machine, owner: Owner, archive: Owner): Machine {
    if !(m.pc.Idle? || m.pc.Claimed?) || Busy(m, owner) || (exists y | y in m.w.ops :: m.w.ops[y].owner == archive)
       || archive in m.w.owners || archive == owner
    then m
    else m.(w := m.w.(ops := ReplicaLedger.Archived(m.w.ops, owner, archive), owners := m.w.owners - {owner}))
  }

  /** The first replica at the place becomes a managed one. */
  function Adopted(rs: seq<Replica>, e: Endpoint): seq<Replica> {
    if rs == [] then []
    else if rs[0].at == e then [rs[0].(managed := true)] + rs[1..]
    else [rs[0]] + Adopted(rs[1..], e)
  }

  lemma {:induction false} AdoptedLists(rs: seq<Replica>, e: Endpoint, e': Endpoint)
    ensures ListsAmong(Adopted(rs, e), e') <==> ListsAmong(rs, e')
  {
    if rs != [] {
      ListsFirst(rs, e');
      ListsFirst(Adopted(rs, e), e');
      if rs[0].at == e {
        assert Adopted(rs, e)[1..] == rs[1..];
      } else {
        assert Adopted(rs, e)[1..] == Adopted(rs[1..], e);
        AdoptedLists(rs[1..], e, e');
      }
    }
  }

  /** Only a replica still holding what its row says is adopted. */
  function AdoptStep(m: Machine, owner: Owner, e: Endpoint): Machine {
    if !(m.pc.Idle? || m.pc.Claimed?) || owner !in m.w.owners then m
    else
      var row := m.w.owners[owner];
      var found := FirstAt(row.replicas, e);
      if found.None? || At(m.w.dest, e) != Some(found.value.content) then m
      else m.(w := m.w.(owners := m.w.owners[owner := row.(replicas := Adopted(row.replicas, e))]))
  }

  function FirstAt(rs: seq<Replica>, e: Endpoint): Option<Replica> {
    if rs == [] then None else if rs[0].at == e then Some(rs[0]) else FirstAt(rs[1..], e)
  }

  predicate Affected(row: OwnerRow, moved: map<Endpoint, Endpoint>) {
    exists i | 0 <= i < |row.replicas| :: row.replicas[i].at in moved
  }

  /** A row is relocated only while its owner is at rest, to places that hold what it says. */
  predicate MayRelocate(m: Machine, owner: Owner, moved: map<Endpoint, Endpoint>)
    requires owner in m.w.owners
  {
    var rs := m.w.owners[owner].replicas;
    !Busy(m, owner) && forall i | 0 <= i < |rs| && rs[i].at in moved :: At(m.w.dest, moved[rs[i].at]) == Some(rs[i].content)
  }

  function RelocatedRow(row: OwnerRow, moved: map<Endpoint, Endpoint>): OwnerRow {
    row.(replicas := seq(|row.replicas|, i requires 0 <= i < |row.replicas| =>
      var r := row.replicas[i]; if r.at in moved then r.(at := moved[r.at], requested := moved[r.at]) else r))
  }

  /** A file, or every file of a directory, was moved: all rows that list one follow, or none does. */
  function RelocateStep(m: Machine, moved: map<Endpoint, Endpoint>): Machine {
    if !(m.pc.Idle? || m.pc.Claimed?)
       || exists o | o in m.w.owners :: Affected(m.w.owners[o], moved) && !MayRelocate(m, o, moved)
    then m
    else m.(w := m.w.(owners := map o | o in m.w.owners ::
                                  if Affected(m.w.owners[o], moved) then RelocatedRow(m.w.owners[o], moved) else m.w.owners[o]))
  }

  function Next(m: Machine, move: Move, c: Config): Machine {
    var w := m.w;
    match move
    case Claim(x) =>
      if m.pc.Idle? && x in w.ops && !w.ops[x].Terminal() && EarlierDone(w.ops, x)
      then m.(w := w.Put(x, w.ops[x].(state := Running)), pc := Claimed(x, w.ops[x].(state := Running))) else m
    case Begin =>
      // The copy made at the claim is what is applied and written back.
      if m.pc.Claimed? then m.(w := w.Put(m.pc.x, m.pc.copy), pc := Applying(m.pc.x, AtBase)) else m
    case Advance => AdvanceStep(m, c)
    case Crash =>
      if !m.pc.Idle? && m.pc.x in w.ops && w.ops[m.pc.x].state == Running
      then m.(w := w.Put(m.pc.x, w.ops[m.pc.x].(state := Pending)), pc := Idle) else m.(pc := Idle)
    case Outsider(e, content) => m.(w := SetDest(w, e, content))
    case Submit(id, owner, plan) =>
      if id in w.ops then m else m.(w := w.Put(id, ReplicaLedger.NewOp(owner, m.head + 1, plan)), head := m.head + 1)
    case Supersede(id, id', plan) => SupersedeStep(m, id, id', plan)
    case RetireOwner(owner, archive) => RetireStepOf(m, owner, archive)
    case Adopt(owner, e) => AdoptStep(m, owner, e)
    case Relocate(moved) => RelocateStep(m, moved)
    case DropPin(x) => if MayClean(m, x) then m.(w := w.(pins := w.pins - {x})) else m
    case DropBlob(x) =>
      if MayClean(m, x) && x !in w.pins && w.ops[x].plan.cached.Some? && !BlobNeeded(w, w.ops[x].plan.cached.value)
      then m.(w := w.(blobs := w.blobs - {w.ops[x].plan.cached.value})) else m
    case EndCleaning(x) =>
      if !MayClean(m, x) then m
      else if x !in w.pins && (w.ops[x].plan.cached.Some? ==> w.ops[x].plan.cached.value !in w.blobs)
      then m.(w := w.Put(x, w.ops[x].(cleaned := true)), pc := Idle) else m.(pc := Idle)
    case Reopen(transient) =>
      // The cleanup threw: the record just committed is saved again as unfinished.
      if m.pc.Cleaning? && m.pc.x in w.ops
      then m.(w := w.Put(m.pc.x, w.ops[m.pc.x].(state := if transient then Pending else Blocked)), pc := Idle) else m
  }

  ghost predicate IsRun(states: seq<Machine>, moves: seq<Move>, c: Config) {
    && |states| == |moves| + 1
    && forall i | 0 <= i < |moves| :: states[i + 1] == Next(states[i], moves[i], c)
  }

  // ── What one durable step leaves alone ────────────────────────────────────

  /** A step of `y` changes no other operation, adds at most its own pin, and
      keeps its own state and every owner row unless it commits. */
  ghost predicate StepEffect(w: World, y: OpId, s: Stage, c: Config)
    requires y in w.ops
  {
    var n := Exec(w, y, s, c);
    && n.w.ops.Keys == w.ops.Keys && (forall z | z in w.ops && z != y :: n.w.ops[z] == w.ops[z])
    && (forall z | z in w.pins :: z in n.w.pins && n.w.pins[z] == w.pins[z])
    && n.w.blobs == w.blobs
    && (forall o | o != w.ops[y].owner :: (o in n.w.owners <==> o in w.owners) && (o in w.owners ==> n.w.owners[o] == w.owners[o]))
    && (!n.Finished? ==> n.w.owners == w.owners && n.w.ops[y].state == w.ops[y].state && n.w.ops[y].finished == w.ops[y].finished)
    && (n.Halt? ==> n.w == w)
    && (n.Finished? ==> s.AtFinish? && w.ops[y].base.Some? && n.w.dest == w.dest
                        && n.w.ops[y] == w.ops[y].(state := Complete, finished := true)
                        && n.w.owners == w.owners[w.ops[y].owner := FinalRow(n.w.ops[y])])
  }

  lemma StepHasEffect(w: World, y: OpId, s: Stage, c: Config)
    requires y in w.ops
    ensures StepEffect(w, y, s, c)
  {
    match s
    case AtBase => BaseHasEffect(w, y, s, c);
    case AtPin => PinHasEffect(w, y, s, c);
    case AtTarget(i) => TargetHasEffect(w, y, s, c);
    case AtPlace(i) => PlaceHasEffect(w, y, s, c);
    case AtCheck(i) => CheckHasEffect(w, y, s, c);
    case AtRetire(j) => RetireHasEffect(w, y, s, c);
    case AtRelease(r) => ReleaseHasEffect(w, y, s, c);
    case _ => EndHasEffect(w, y, s, c);
  }

  /** Moving bytes, or nothing at all. */
  lemma BytesHaveEffect(w: World, y: OpId, s: Stage, c: Config)
    requires y in w.ops && !Exec(w, y, s, c).Finished? && (Exec(w, y, s, c).Halt? ==> Exec(w, y, s, c).w == w)
    requires Exec(w, y, s, c).w == w.(dest := Exec(w, y, s, c).w.dest)
    ensures StepEffect(w, y, s, c)
  {
  }

  /** Writing the operation's own record. */
  lemma RecordHasEffect(w: World, y: OpId, s: Stage, c: Config, op: Op)
    requires y in w.ops && Exec(w, y, s, c).Go? && Exec(w, y, s, c).w == w.Put(y, op)
    requires op.state == w.ops[y].state && op.finished == w.ops[y].finished
    ensures StepEffect(w, y, s, c)
  {
  }

  lemma BaseHasEffect(w: World, y: OpId, s: Stage, c: Config)
    requires y in w.ops && s.AtBase?
    ensures StepEffect(w, y, s, c)
  {
    RecordHasEffect(w, y, s, c, w.ops[y].(base := Some(BaseOf(w, w.ops[y]))));
  }

  lemma PinHasEffect(w: World, y: OpId, s: Stage, c: Config)
    requires y in w.ops && s.AtPin?
    ensures StepEffect(w, y, s, c)
  {
    var n, op := Exec(w, y, s, c).w, w.ops[y];
    assert n == w || n == w.Put(y, op.(staged := true)) || (y !in w.pins && n == w.(pins := w.pins[y := op.plan.content]));
  }

  lemma TargetHasEffect(w: World, y: OpId, s: Stage, c: Config)
    requires y in w.ops && s.AtTarget?
    ensures StepEffect(w, y, s, c)
  {
    var op, n := w.ops[y], Exec(w, y, s, c);
    if n.w.ops != w.ops {
      assert n.Go?;
      RecordHasEffect(w, y, s, c, n.w.ops[y]);
    } else {
      BytesHaveEffect(w, y, s, c);
    }
  }

  lemma PlaceHasEffect(w: World, y: OpId, s: Stage, c: Config)
    requires y in w.ops && s.AtPlace?
    ensures StepEffect(w, y, s, c)
  {
    var op, n := w.ops[y], Exec(w, y, s, c);
    if n.w.ops != w.ops {
      assert n.Go? && s.i < |op.outcomes|;
      RecordHasEffect(w, y, s, c, op.(outcomes := op.outcomes[s.i := op.outcomes[s.i].(verified := true)]));
    } else {
      BytesHaveEffect(w, y, s, c);
    }
  }

  lemma CheckHasEffect(w: World, y: OpId, s: Stage, c: Config)
    requires y in w.ops && s.AtCheck?
    ensures StepEffect(w, y, s, c)
  {
    var op, n := w.ops[y], Exec(w, y, s, c);
    if n.Go? {
      RecordHasEffect(w, y, s, c, op.(outcomes := op.outcomes[s.i := op.outcomes[s.i].(verified := true)]));
    } else {
      BytesHaveEffect(w, y, s, c);
    }
  }

  lemma RetireHasEffect(w: World, y: OpId, s: Stage, c: Config)
    requires y in w.ops && s.AtRetire?
    ensures StepEffect(w, y, s, c)
  {
    BytesHaveEffect(w, y, s, c);
  }

  lemma ReleaseHasEffect(w: World, y: OpId, s: Stage, c: Config)
    requires y in w.ops && s.AtRelease?
    ensures StepEffect(w, y, s, c)
  {
    BytesHaveEffect(w, y, s, c);
  }

  lemma EndHasEffect(w: World, y: OpId, s: Stage, c: Config)
    requires y in w.ops && (s.AtVerify? || s.AtFinish?)
    ensures StepEffect(w, y, s, c)
  {
  }
}
