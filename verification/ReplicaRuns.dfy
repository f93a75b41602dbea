/** Where content is, over whole runs of the executor: shared replicas, staging
    pins, and the content of an accepted operation until it is finished, and
    after a failed cleanup too. */
module ReplicaRuns {
  import opened Options
  import opened ReplicaModel
  import opened ReplicaApply
  import opened ReplicaMachine
  import opened ReplicaOrder
  import opened ReplicaDelivery
  import ReplicaLedger

  // ── A shared replica survives until its last owner lets go ────────────────

  predicate ListedBy(m: Machine, owner: Owner, e: Endpoint) {
    owner in m.w.owners && Lists(m.w.owners[owner], e)
  }

  /** The move is not an outsider's edit of `e`, nor a step of `owner`'s own operations. */
  predicate Foreign(m: Machine, move: Move, owner: Owner, e: Endpoint) {
    && (move.Outsider? ==> move.e != e)
    && (move.Advance? && m.pc.Applying? && m.pc.x in m.w.ops ==> m.w.ops[m.pc.x].owner != owner)
  }

  lemma ForeignStepKeeps(m: Machine, move: Move, owner: Owner, e: Endpoint, c: Config)
    requires ListedBy(m, owner, e) && Foreign(m, move, owner, e) && e in m.w.dest
    ensures At(Next(m, move, c).w.dest, e) == At(m.w.dest, e)
  {
    if move.Advance? && m.pc.Applying? && m.pc.x in m.w.ops {
      assert OtherClaims(m.w, m.pc.x, e);
      StepTouchesOnly(m.w, m.pc.x, m.pc.stage, c, e);
    }
  }

  /** As long as an owner's row lists a place, no operation of any other owner
      overwrites, retires or releases what is there, whatever else happens. */
  lemma {:induction false} SharedReplicaSurvives(states: seq<Machine>, moves: seq<Move>, owner: Owner, e: Endpoint, c: Config, n: nat)
    requires IsRun(states, moves, c) && n <= |moves|
    requires forall i | 0 <= i < n :: ListedBy(states[i], owner, e) && Foreign(states[i], moves[i], owner, e)
    requires e in states[0].w.dest
    ensures At(states[n].w.dest, e) == At(states[0].w.dest, e)
  {
    if n > 0 {
      SharedReplicaSurvives(states, moves, owner, e, c, n - 1);
      var m := states[n - 1];
      assert ListedBy(m, owner, e) && Foreign(m, moves[n - 1], owner, e) && e in m.w.dest;
      ForeignStepKeeps(m, moves[n - 1], owner, e, c);
      assert states[n - 1 + 1] == Next(m, moves[n - 1], c);
    }
  }

  // ── Nobody works against an unfinished operation ──────────────────────────

  /** What another unfinished operation reads from or is to deliver to is left alone by every step. */
  lemma NeededPlaceStands(w: World, x: OpId, s: Stage, c: Config, z: OpId, e: Endpoint)
    requires x in w.ops && z in w.ops && z != x && Unfinished(w.ops[z])
    requires w.ops[z].plan.source == Some(e) || exists i :: 0 <= i < |w.ops[z].plan.targets| && w.ops[z].plan.targets[i].at == e
    requires e in w.dest
    ensures At(Exec(w, x, s, c).w.dest, e) == At(w.dest, e)
  {
    ClaimsExact(w, x, e);
    StepTouchesOnly(w, x, s, c, e);
  }

  /** Unfinished, and `e` is its source or one of its destinations. */
  predicate WorksOn(m: Machine, z: OpId, e: Endpoint) {
    && z in m.w.ops && Unfinished(m.w.ops[z])
    && (m.w.ops[z].plan.source == Some(e) || exists i :: 0 <= i < |m.w.ops[z].plan.targets| && m.w.ops[z].plan.targets[i].at == e)
  }

  /** As long as an operation is unfinished, no other operation, of whatever owner,
      overwrites, retires or releases what is at its source or destinations. */
  lemma {:induction false} PendingOperationIsSpared(states: seq<Machine>, moves: seq<Move>, z: OpId, e: Endpoint, c: Config, n: nat)
    requires IsRun(states, moves, c) && n <= |moves|
    requires forall i | 0 <= i < n :: WorksOn(states[i], z, e)
    requires forall i | 0 <= i < n :: (moves[i].Outsider? ==> moves[i].e != e) && !(moves[i].Advance? && states[i].pc.About(z))
    requires e in states[0].w.dest
    ensures At(states[n].w.dest, e) == At(states[0].w.dest, e)
  {
    if n > 0 {
      PendingOperationIsSpared(states, moves, z, e, c, n - 1);
      assert states[n - 1 + 1] == Next(states[n - 1], moves[n - 1], c);
      SparedByStep(states[n - 1], moves[n - 1], z, e, c);
    }
  }

  lemma SparedByStep(m: Machine, move: Move, z: OpId, e: Endpoint, c: Config)
    requires WorksOn(m, z, e) && e in m.w.dest
    requires (move.Outsider? ==> move.e != e) && !(move.Advance? && m.pc.About(z))
    ensures At(Next(m, move, c).w.dest, e) == At(m.w.dest, e)
  {
    if move.Advance? && m.pc.Applying? && m.pc.x in m.w.ops {
      NeededPlaceStands(m.w, m.pc.x, m.pc.stage, c, z, e);
    }
  }

  // ── Pins ──────────────────────────────────────────────────────────────────

  lemma PinLeaves(m: Machine, move: Move, x: OpId, c: Config)
    requires x in m.w.pins && x !in Next(m, move, c).w.pins
    ensures move == DropPin(x) && MayClean(m, x)
  {
    if move.Advance? && m.pc.Applying? && m.pc.x in m.w.ops {
      StepHasEffect(m.w, m.pc.x, m.pc.stage, c);
    }
  }

  /** Over every run a pin stays until its operation, or the last of its successors, is complete. */
  lemma {:induction false} PinsOutlive(states: seq<Machine>, moves: seq<Move>, x: OpId, c: Config, n: nat)
    requires IsRun(states, moves, c) && n <= |moves|
    requires x in states[0].w.pins && forall i | 0 <= i < n :: !Superseded(states[i].w.ops, x)
    ensures x in states[n].w.pins
  {
    if n > 0 {
      PinsOutlive(states, moves, x, c, n - 1);
      assert states[n - 1 + 1] == Next(states[n - 1], moves[n - 1], c);
      if x !in states[n].w.pins { PinLeaves(states[n - 1], moves[n - 1], x, c); }
    }
  }

  // ── Where accepted content is ─────────────────────────────────────────────

  predicate HasPin(w: World, x: OpId) {
    x in w.ops && x in w.pins && w.pins[x] == w.ops[x].plan.content
  }

  /** What the content is staged from is known: a source, a captured upload, or the base row. */
  predicate Anchored(op: Op) {
    op.plan.source.Some? || op.plan.cached.Some? || op.base.Some?
  }

  /** The captured upload, the source, or, until the operation has committed, the first base replica. */
  predicate SourceStill(w: World, op: Op) {
    if op.plan.cached.Some? then op.plan.cached.value in w.blobs && w.blobs[op.plan.cached.value] == op.plan.content
    else if op.plan.source.Some? then At(w.dest, op.plan.source.value) == Some(op.plan.content)
    else FromBase(op) && At(w.dest, op.base.value.replicas[0].at) == Some(op.plan.content)
  }

  predicate FromBase(op: Op) {
    op.plan.cached.None? && op.plan.source.None? && !op.finished && op.base.Some? && op.base.value.replicas != []
  }

  predicate AllHold(w: World, op: Op) {
    |op.outcomes| == |op.plan.targets| && forall i | 0 <= i < |op.outcomes| :: At(w.dest, op.outcomes[i].at) == Some(op.plan.content)
  }

  /** Committed, and every destination holds the content. */
  predicate Delivered(w: World, op: Op) {
    op.finished && AllHold(w, op)
  }

  predicate Kept(w: World, x: OpId)
    requires x in w.ops
  {
    HasPin(w, x) || SourceStill(w, w.ops[x]) || Delivered(w, w.ops[x])
  }

  // ── The invariant behind it ───────────────────────────────────────────────

  ghost predicate RecordOk(op: Op, c: Config) {
    && Anchored(op) && |op.outcomes| <= |op.plan.targets|
    && (op.outcomes != [] || op.finished ==> op.base.Some?)
    && (op.finished ==> |op.outcomes| == |op.plan.targets|)
    && (op.base.Some? ==> PlanKeeps(op.base.value, op.plan, c))
    && forall i | 0 <= i < |op.outcomes| :: !InRelease(op.plan, op.outcomes[i].at)
  }

  /** Past staging the pin is held, the indices fit, and what was verified still stands. */
  predicate StageOk(m: Machine, x: OpId)
    requires x in m.w.ops
  {
    var op := m.w.ops[x];
    && (m.pc.Applying? && m.pc.x == x ==> StageFits(m.w, x, m.pc.stage))
    && (m.pc == Cleaning(x) ==> Delivered(m.w, op))
  }

  predicate StageFits(w: World, x: OpId, s: Stage)
    requires x in w.ops
  {
    var op := w.ops[x];
    && (!s.AtBase? ==> op.base.Some?)
    && (!s.AtBase? && !s.AtPin? ==> NeedsPin(op) ==> HasPin(w, x))
    && (s.AtTarget? ==> s.i <= |op.outcomes|)
    && (s.AtPlace? || s.AtCheck? ==> s.i < |op.outcomes|)
    && (s.AtRetire? || s.AtVerify? || s.AtRelease? || s.AtFinish? ==> |op.outcomes| == |op.plan.targets|)
    && (s.AtVerify? ==> s.k <= |op.outcomes| && forall i | 0 <= i < s.k :: At(w.dest, op.outcomes[i].at) == Some(op.plan.content))
    && (s.AtRelease? || s.AtFinish? ==> AllHold(w, op))
  }

  /** The owner row protects what the operation relies on. */
  predicate RowOk(w: World, op: Op) {
    && (op.finished ==> op.owner in w.owners && forall i | 0 <= i < |op.outcomes| :: Lists(w.owners[op.owner], op.outcomes[i].at))
    && (FromBase(op) ==> op.owner in w.owners && Lists(w.owners[op.owner], op.base.value.replicas[0].at))
  }

  ghost predicate Secured(m: Machine, x: OpId, c: Config) {
    && Ordered(m) && x in m.w.ops && RecordOk(m.w.ops[x], c) && StageOk(m, x)
    && (Live(m, x) ==> Kept(m.w, x) && RowOk(m.w, m.w.ops[x]))
  }

  /** What is asked of outsiders: not to destroy the last copy themselves, and to
      leave the destinations alone from the moment they are verified for the last
      time until the operation is over. */
  predicate Considerate(m: Machine, move: Move, x: OpId)
    requires x in m.w.ops
  {
    move.Outsider? ==>
      && (Kept(m.w, x) ==> Kept(SetDest(m.w, move.e, move.content), x))
      && ((m.pc.Applying? && m.pc.x == x && (m.pc.stage.AtVerify? || m.pc.stage.AtRelease? || m.pc.stage.AtFinish?)) || m.pc == Cleaning(x) ==>
            forall i | 0 <= i < |m.w.ops[x].outcomes| :: m.w.ops[x].outcomes[i].at != move.e)
  }

  /** The plan releases nothing it can deliver to, given the owner row it starts from. */
  ghost predicate StartsWell(m: Machine, x: OpId, c: Config)
    requires x in m.w.ops
  {
    m.pc == Applying(x, AtBase) ==> PlanKeeps(BaseOf(m.w, m.w.ops[x]), m.w.ops[x].plan, c)
  }

  // Steps of the operation itself.

  lemma OwnStepKeepsRecordOk(w: World, x: OpId, s: Stage, c: Config)
    requires x in w.ops && RecordOk(w.ops[x], c) && StageFits(w, x, s)
    requires s.AtBase? ==> PlanKeeps(BaseOf(w, w.ops[x]), w.ops[x].plan, c)
    ensures RecordOk(Exec(w, x, s, c).w.ops[x], c)
  {
    StepKeepsRecord(w, x, s, c);
    StepHasEffect(w, x, s, c);
    var op, op' := w.ops[x], Exec(w, x, s, c).w.ops[x];
    if s.AtTarget? && |op'.outcomes| > |op.outcomes| { NewOutcomeLands(w, x, s.i, c); }
    if s.AtBase? { assert op'.base == Some(BaseOf(w, op)) && op'.outcomes == op.outcomes; }
  }

  lemma OwnStepFits(w: World, x: OpId, s: Stage, c: Config)
    requires x in w.ops && RecordOk(w.ops[x], c) && StageFits(w, x, s) && Exec(w, x, s, c).Go?
    ensures StageFits(Exec(w, x, s, c).w, x, Exec(w, x, s, c).stage)
  {
    StepKeepsRecord(w, x, s, c);
    StepHasEffect(w, x, s, c);
    match s
    case AtBase => EarlyFits(w, x, s, c);
    case AtPin => EarlyFits(w, x, s, c);
    case AtTarget(i) => TargetFits(w, x, s, c);
    case AtPlace(i) => PlaceFits(w, x, s, c);
    case AtCheck(i) => CheckFits(w, x, s, c);
    case AtRetire(j) => RetireFits(w, x, s, c);
    case AtVerify(k) => VerifyFits(w, x, k, c);
    case AtRelease(r) => ReleaseFits(w, x, r, c);
    case AtFinish =>
  }

  lemma EarlyFits(w: World, x: OpId, s: Stage, c: Config)
    requires x in w.ops && StageFits(w, x, s) && Exec(w, x, s, c).Go? && (s.AtBase? || s.AtPin?)
    ensures StageFits(Exec(w, x, s, c).w, x, Exec(w, x, s, c).stage)
  {
  }

  lemma TargetFits(w: World, x: OpId, s: Stage, c: Config)
    requires x in w.ops && |w.ops[x].outcomes| <= |w.ops[x].plan.targets|
    requires StageFits(w, x, s) && Exec(w, x, s, c).Go? && s.AtTarget?
    ensures StageFits(Exec(w, x, s, c).w, x, Exec(w, x, s, c).stage)
  {
  }

  lemma PlaceFits(w: World, x: OpId, s: Stage, c: Config)
    requires x in w.ops && StageFits(w, x, s) && Exec(w, x, s, c).Go? && s.AtPlace?
    ensures StageFits(Exec(w, x, s, c).w, x, Exec(w, x, s, c).stage)
  {
  }

  lemma CheckFits(w: World, x: OpId, s: Stage, c: Config)
    requires x in w.ops && StageFits(w, x, s) && Exec(w, x, s, c).Go? && s.AtCheck?
    ensures StageFits(Exec(w, x, s, c).w, x, Exec(w, x, s, c).stage)
  {
  }

  lemma RetireFits(w: World, x: OpId, s: Stage, c: Config)
    requires x in w.ops && StageFits(w, x, s) && Exec(w, x, s, c).Go? && s.AtRetire?
    ensures StageFits(Exec(w, x, s, c).w, x, Exec(w, x, s, c).stage)
  {
  }

  lemma VerifyFits(w: World, x: OpId, k: nat, c: Config)
    requires x in w.ops && StageFits(w, x, AtVerify(k)) && Exec(w, x, AtVerify(k), c).Go?
    ensures StageFits(Exec(w, x, AtVerify(k), c).w, x, Exec(w, x, AtVerify(k), c).stage)
  {
  }

  lemma ReleaseFits(w: World, x: OpId, r: nat, c: Config)
    requires x in w.ops && RecordOk(w.ops[x], c) && StageFits(w, x, AtRelease(r)) && Exec(w, x, AtRelease(r), c).Go?
    ensures StageFits(Exec(w, x, AtRelease(r), c).w, x, Exec(w, x, AtRelease(r), c).stage)
  {
    var op, n := w.ops[x], Exec(w, x, AtRelease(r), c).w;
    assert n.ops == w.ops && n.pins == w.pins;
    forall i | 0 <= i < |op.outcomes| ensures At(n.dest, op.outcomes[i].at) == Some(op.plan.content) {
      assert !InRelease(op.plan, op.outcomes[i].at);
    }
  }

  /** Before the pin is held the operation itself moves no bytes. */
  lemma OwnStepKeeps(w: World, x: OpId, s: Stage, c: Config)
    requires x in w.ops && RecordOk(w.ops[x], c) && StageFits(w, x, s) && Kept(w, x)
    ensures var n := Exec(w, x, s, c); n.Finished? || Kept(n.w, x)
  {
    StepKeepsRecord(w, x, s, c);
    StepHasEffect(w, x, s, c);
    var op, n := w.ops[x], Exec(w, x, s, c);
    if !HasPin(w, x) && !n.Finished? {
      assert s.AtBase? || s.AtPin? || !NeedsPin(op);
      assert n.w.dest == w.dest by { UnpinnedMovesNothing(w, x, s, c); }
    }
  }

  lemma UnpinnedMovesNothing(w: World, x: OpId, s: Stage, c: Config)
    requires x in w.ops && StageFits(w, x, s) && |w.ops[x].outcomes| <= |w.ops[x].plan.targets|
    requires s.AtBase? || s.AtPin? || !NeedsPin(w.ops[x])
    ensures Exec(w, x, s, c).w.dest == w.dest
  {
  }

  lemma FinalRowLists(op: Op, i: nat)
    requires op.base.Some? && i < |op.outcomes|
    ensures Lists(FinalRow(op), op.outcomes[i].at)
  {
    var kept := Preserved(op, op.base.value.replicas);
    assert FinalRow(op).replicas[|kept| + i].at == op.outcomes[i].at;
  }

  lemma OwnAdvanceSecures(m: Machine, x: OpId, c: Config)
    requires Secured(m, x, c) && StartsWell(m, x, c) && m.pc.Applying? && m.pc.x == x
    ensures Secured(AdvanceStep(m, c), x, c)
  {
    var s, op := m.pc.stage, m.w.ops[x];
    AdvanceKeepsOrder(m, c);
    StepHasEffect(m.w, x, s, c);
    StepKeepsRecord(m.w, x, s, c);
    OwnStepKeepsRecordOk(m.w, x, s, c);
    OwnStepKeeps(m.w, x, s, c);
    match Exec(m.w, x, s, c)
    case Go(w', s') =>
      OwnStepFits(m.w, x, s, c);
      OwnRowStays(m.w, x, s, c);
    case Halt(w', _) =>
      assert w' == m.w;
    case Finished(w') =>
      var done := w'.ops[x];
      forall i | 0 <= i < |done.outcomes| ensures Lists(w'.owners[done.owner], done.outcomes[i].at) {
        FinalRowLists(done, i);
      }
  }

  lemma OwnRowStays(w: World, x: OpId, s: Stage, c: Config)
    requires x in w.ops && RecordOk(w.ops[x], c) && StageFits(w, x, s) && RowOk(w, w.ops[x]) && Exec(w, x, s, c).Go?
    ensures RowOk(Exec(w, x, s, c).w, Exec(w, x, s, c).w.ops[x])
  {
    StepHasEffect(w, x, s, c);
    StepKeepsRecord(w, x, s, c);
  }

  // Steps of other operations.

  lemma OwnersDiffer(m: Machine, x: OpId)
    requires Ordered(m) && x in m.w.ops && !m.w.ops[x].Terminal() && m.w.ops[x].base.Some?
    requires m.pc.Applying? && m.pc.x != x
    ensures m.w.ops[m.pc.x].owner != m.w.ops[x].owner
  {
    assert PairOrdered(m, m.pc.x, x) && PairOrdered(m, x, m.pc.x);
  }

  lemma ClaimedIsSpared(w: World, y: OpId, s: Stage, c: Config, e: Endpoint)
    requires y in w.ops && OtherClaims(w, y, e) && e in w.dest
    ensures At(Exec(w, y, s, c).w.dest, e) == At(w.dest, e)
  {
    StepTouchesOnly(w, y, s, c, e);
  }

  lemma OthersSpareSource(m: Machine, x: OpId, c: Config)
    requires Secured(m, x, c) && m.pc.Applying? && m.pc.x != x && !m.w.ops[x].Terminal()
    requires SourceStill(m.w, m.w.ops[x])
    ensures SourceStill(Exec(m.w, m.pc.x, m.pc.stage, c).w, m.w.ops[x])
  {
    var y, s, op := m.pc.x, m.pc.stage, m.w.ops[x];
    StepHasEffect(m.w, y, s, c);
    if op.plan.cached.None? {
      var e := if op.plan.source.Some? then op.plan.source.value else op.base.value.replicas[0].at;
      if op.plan.source.Some? {
        assert OpClaims(m.w, y, e);
      } else {
        OwnersDiffer(m, x);
        assert OwnerClaims(m.w, m.w.ops[y].owner, e);
      }
      ClaimedIsSpared(m.w, y, s, c, e);
    }
  }

  lemma OthersSpareDestinations(m: Machine, x: OpId, c: Config)
    requires Secured(m, x, c) && m.pc.Applying? && m.pc.x != x && !m.w.ops[x].Terminal()
    requires Delivered(m.w, m.w.ops[x])
    ensures Delivered(Exec(m.w, m.pc.x, m.pc.stage, c).w, m.w.ops[x])
  {
    var y, s, op, n := m.pc.x, m.pc.stage, m.w.ops[x], Exec(m.w, m.pc.x, m.pc.stage, c);
    OwnersDiffer(m, x);
    forall i | 0 <= i < |op.outcomes| ensures At(n.w.dest, op.outcomes[i].at) == Some(op.plan.content) {
      assert OwnerClaims(m.w, m.w.ops[y].owner, op.outcomes[i].at);
      ClaimedIsSpared(m.w, y, s, c, op.outcomes[i].at);
    }
  }

  lemma OtherAdvanceKeeps(m: Machine, x: OpId, c: Config)
    requires Secured(m, x, c) && m.pc.Applying? && m.pc.x != x && !m.w.ops[x].Terminal()
    ensures var w' := Exec(m.w, m.pc.x, m.pc.stage, c).w;
            HasPin(w', x) || SourceStill(w', m.w.ops[x]) || Delivered(w', m.w.ops[x])
  {
    StepHasEffect(m.w, m.pc.x, m.pc.stage, c);
    if HasPin(m.w, x) {
      assert HasPin(Exec(m.w, m.pc.x, m.pc.stage, c).w, x);
    } else if SourceStill(m.w, m.w.ops[x]) {
      OthersSpareSource(m, x, c);
    } else {
      OthersSpareDestinations(m, x, c);
    }
  }

  lemma OtherAdvanceSecures(m: Machine, x: OpId, c: Config)
    requires Secured(m, x, c) && m.pc.Applying? && m.pc.x != x
    ensures Secured(AdvanceStep(m, c), x, c)
  {
    AdvanceKeepsOrder(m, c);
    StepHasEffect(m.w, m.pc.x, m.pc.stage, c);
    if !m.w.ops[x].Terminal() {
      OtherAdvanceKeeps(m, x, c);
      if m.w.ops[x].base.Some? { OwnersDiffer(m, x); }
    }
  }

  // Everything else.

  lemma SupersedeSecures(m: Machine, x: OpId, id: OpId, id': OpId, plan: Plan, c: Config)
    requires Secured(m, x, c)
    ensures Secured(SupersedeStep(m, id, id', plan), x, c)
  {
    SupersedeKeepsOrder(m, id, id', plan);
    var n := SupersedeStep(m, id, id', plan);
    if n != m {
      var was := m.w.ops[id];
      forall e | was.owner in m.w.owners && Lists(m.w.owners[was.owner], e) ensures Lists(n.w.owners[was.owner], e) {
        WithHeldLists(m.w.owners[was.owner].replicas, was, m.w.dest, |was.outcomes|, e);
      }
    }
  }

  lemma RetireSecures(m: Machine, x: OpId, owner: Owner, archive: Owner, c: Config)
    requires Secured(m, x, c)
    ensures Secured(RetireStepOf(m, owner, archive), x, c)
  {
    RetireKeepsOrder(m, owner, archive);
  }

  /** Adoption keeps every place its row lists. */
  lemma AdoptSecures(m: Machine, x: OpId, owner: Owner, e: Endpoint, c: Config)
    requires Secured(m, x, c)
    ensures Secured(Next(m, Adopt(owner, e), c), x, c)
  {
    StepKeepsOrder(m, Adopt(owner, e), c);
    forall e' | owner in m.w.owners && Lists(m.w.owners[owner], e')
      ensures ListsAmong(Adopted(m.w.owners[owner].replicas, e), e')
    {
      AdoptedLists(m.w.owners[owner].replicas, e, e');
    }
  }

  /** A row is not relocated while its owner has an unfinished operation. */
  lemma RelocateSecures(m: Machine, x: OpId, moved: map<Endpoint, Endpoint>, c: Config)
    requires Secured(m, x, c)
    ensures Secured(Next(m, Relocate(moved), c), x, c)
  {
    StepKeepsOrder(m, Relocate(moved), c);
    var n, owner := Next(m, Relocate(moved), c), m.w.ops[x].owner;
    if n != m && Live(m, x) {
      assert Busy(m, owner);
      assert owner in m.w.owners ==> n.w.owners[owner] == m.w.owners[owner];
    }
  }

  /** Claims, starts, crashes and reopenings change how an operation stands, not what it recorded. */
  lemma ClaimSecures(m: Machine, x: OpId, y: OpId, c: Config)
    requires Secured(m, x, c)
    ensures Secured(Next(m, Claim(y), c), x, c)
  {
    StepKeepsOrder(m, Claim(y), c);
  }

  lemma BeginSecures(m: Machine, x: OpId, c: Config)
    requires Secured(m, x, c)
    ensures Secured(Next(m, Begin, c), x, c)
  {
    StepKeepsOrder(m, Begin, c);
  }

  lemma CrashSecures(m: Machine, x: OpId, c: Config)
    requires Secured(m, x, c)
    ensures Secured(Next(m, Crash, c), x, c)
  {
    StepKeepsOrder(m, Crash, c);
  }

  lemma ReopenSecures(m: Machine, x: OpId, transient: bool, c: Config)
    requires Secured(m, x, c)
    ensures Secured(Next(m, Reopen(transient), c), x, c)
  {
    StepKeepsOrder(m, Reopen(transient), c);
  }

  lemma SubmitSecures(m: Machine, x: OpId, id: OpId, owner: Owner, plan: Plan, c: Config)
    requires Secured(m, x, c)
    ensures Secured(Next(m, Submit(id, owner, plan), c), x, c)
  {
    StepKeepsOrder(m, Submit(id, owner, plan), c);
  }

  /** What a cleanup gives up is no longer needed. */
  lemma DropPinSecures(m: Machine, x: OpId, y: OpId, c: Config)
    requires Secured(m, x, c)
    ensures Secured(Next(m, DropPin(y), c), x, c)
  {
    StepKeepsOrder(m, DropPin(y), c);
  }

  lemma DropBlobSecures(m: Machine, x: OpId, y: OpId, c: Config)
    requires Secured(m, x, c)
    ensures Secured(Next(m, DropBlob(y), c), x, c)
  {
    StepKeepsOrder(m, DropBlob(y), c);
  }

  lemma EndCleaningSecures(m: Machine, x: OpId, y: OpId, c: Config)
    requires Secured(m, x, c)
    ensures Secured(Next(m, EndCleaning(y), c), x, c)
  {
    StepKeepsOrder(m, EndCleaning(y), c);
  }

  lemma OutsiderSecures(m: Machine, x: OpId, move: Move, c: Config)
    requires Secured(m, x, c) && move.Outsider? && Considerate(m, move, x)
    ensures Secured(Next(m, move, c), x, c)
  {
    StepKeepsOrder(m, move, c);
  }

  lemma StepSecures(m: Machine, move: Move, x: OpId, c: Config)
    requires Secured(m, x, c) && Considerate(m, move, x) && (move.Advance? ==> StartsWell(m, x, c))
    ensures Secured(Next(m, move, c), x, c)
  {
    match move
    case Advance =>
      if m.pc.Applying? {
        if m.pc.x == x { OwnAdvanceSecures(m, x, c); } else { OtherAdvanceSecures(m, x, c); }
      }
    case Supersede(id, id', plan) => SupersedeSecures(m, x, id, id', plan, c);
    case RetireOwner(owner, archive) => RetireSecures(m, x, owner, archive, c);
    case Adopt(owner, e) => AdoptSecures(m, x, owner, e, c);
    case Relocate(moved) => RelocateSecures(m, x, moved, c);
    case Submit(id, owner, plan) => SubmitSecures(m, x, id, owner, plan, c);
    case Outsider(_, _) => OutsiderSecures(m, x, move, c);
    case Claim(y) => ClaimSecures(m, x, y, c);
    case Begin => BeginSecures(m, x, c);
    case Crash => CrashSecures(m, x, c);
    case Reopen(transient) => ReopenSecures(m, x, transient, c);
    case DropPin(y) => DropPinSecures(m, x, y, c);
    case DropBlob(y) => DropBlobSecures(m, x, y, c);
    case EndCleaning(y) => EndCleaningSecures(m, x, y, c);
  }

  /** Over every run, with crashes, other operations, supersession, failed cleanups
      and outsiders anywhere: as long as an operation is unfinished, or about to be
      again, its content is in what it is staged from, in its staging pin, or at
      all its destinations. */
  lemma {:induction false} AcceptedContentIsHeld(states: seq<Machine>, moves: seq<Move>, x: OpId, c: Config, n: nat)
    requires IsRun(states, moves, c) && n <= |moves| && Secured(states[0], x, c)
    requires forall i | 0 <= i < n && x in states[i].w.ops :: Considerate(states[i], moves[i], x)
    requires forall i | 0 <= i < n && x in states[i].w.ops && moves[i].Advance? :: StartsWell(states[i], x, c)
    ensures Secured(states[n], x, c)
    ensures Live(states[n], x) ==> Kept(states[n].w, x)
  {
    if n > 0 {
      AcceptedContentIsHeld(states, moves, x, c, n - 1);
      StepSecures(states[n - 1], moves[n - 1], x, c);
      assert states[n - 1 + 1] == Next(states[n - 1], moves[n - 1], c);
    }
  }

  /** A pin that is gone was given up by a cleanup: at the end of the operation's own
      application, with every destination holding the content, or later, with the
      operation finished and nothing in hand. */
  lemma {:induction false} PinGivenUpWhenDelivered(states: seq<Machine>, moves: seq<Move>, x: OpId, c: Config, n: nat) returns (k: nat)
    requires IsRun(states, moves, c) && n <= |moves| && Secured(states[0], x, c)
    requires forall i | 0 <= i < n && x in states[i].w.ops :: Considerate(states[i], moves[i], x)
    requires forall i | 0 <= i < n && x in states[i].w.ops && moves[i].Advance? :: StartsWell(states[i], x, c)
    requires x in states[0].w.pins && x !in states[n].w.pins
    ensures k < n && moves[k] == DropPin(x) && x in states[k].w.pins && x in states[k].w.ops && Superseded(states[k].w.ops, x)
    ensures if states[k].pc == Cleaning(x) then Delivered(states[k].w, states[k].w.ops[x])
            else states[k].pc.Idle? && states[k].w.ops[x].Terminal()
  {
    assert n > 0;
    assert states[n - 1 + 1] == Next(states[n - 1], moves[n - 1], c);
    if x in states[n - 1].w.pins {
      k := n - 1;
      AcceptedContentIsHeld(states, moves, x, c, n - 1);
      PinLeaves(states[k], moves[k], x, c);
    } else {
      k := PinGivenUpWhenDelivered(states, moves, x, c, n - 1);
    }
  }

  /** A submission whose content can be staged from what it names starts out secured. */
  lemma SubmittedIsSecured(m: Machine, x: OpId, owner: Owner, plan: Plan, c: Config)
    requires Ordered(m) && x !in m.w.ops
    requires if plan.cached.Some? then plan.cached.value in m.w.blobs && m.w.blobs[plan.cached.value] == plan.content
             else plan.source.Some? && At(m.w.dest, plan.source.value) == Some(plan.content)
    ensures Secured(Next(m, Submit(x, owner, plan), c), x, c)
  {
    StepKeepsOrder(m, Submit(x, owner, plan), c);
  }

  /** One that names no source and no upload is staged from the first replica of
      its owner's row: taking that row as its base secures it exactly when the
      replica, or a pin already there, holds the content. */
  lemma BaseSecuresExactly(m: Machine, x: OpId, c: Config)
    requires Ordered(m) && m.pc == Applying(x, AtBase)
    requires var op := m.w.ops[x];
             && op.plan.source.None? && op.plan.cached.None? && op.base.None? && op.outcomes == [] && !op.finished
             && PlanKeeps(BaseOf(m.w, op), op.plan, c)
    ensures var rs := BaseOf(m.w, m.w.ops[x]).replicas;
            Secured(AdvanceStep(m, c), x, c) <==>
            HasPin(m.w, x) || (rs != [] && At(m.w.dest, rs[0].at) == Some(m.w.ops[x].plan.content))
  {
    AdvanceKeepsOrder(m, c);
    var op, n := m.w.ops[x], AdvanceStep(m, c);
    assert n == m.(w := m.w.Put(x, op.(base := Some(BaseOf(m.w, op)))), pc := Applying(x, AtPin));
    var base := BaseOf(m.w, op);
    if base.replicas != [] { assert base.replicas[0].at == base.replicas[0].at && Lists(base, base.replicas[0].at); }
  }

  // ── A failed cleanup ──────────────────────────────────────────────────────

  /** How an operation stands, and what has been cleaned up, is no part of what it completed. */
  lemma StandingKeepsCompleted(w: World, v: World, x: OpId)
    requires AsCompleted(w, x) && x in v.ops && v.ops == w.ops[x := v.ops[x]]
    requires v.ops[x] == w.ops[x].(state := v.ops[x].state, cleaned := v.ops[x].cleaned)
    requires v.dest == w.dest && v.owners == w.owners
    ensures AsCompleted(v, x)
  {
    forall e ensures OtherClaims(v, x, e) <==> OtherClaims(w, x, e) { OwnRecordClaimsNothing(w, v, x, e); }
    forall i | 0 <= i < |v.ops[x].outcomes| ensures Placed(v, v.ops[x], i) {
      assert Placed(w, w.ops[x], i);
    }
    forall j | 0 <= j < |v.ops[x].base.value.replicas|
      ensures KeptReplica(v, x, v.ops[x].base.value.replicas[j]) || v.ops[x].base.value.replicas[j].at !in v.dest
    {
      assert KeptReplica(w, x, w.ops[x].base.value.replicas[j]) || w.ops[x].base.value.replicas[j].at !in w.dest;
    }
  }

  /** A failed cleanup, and then the retry: the operation is claimed and started. */
  function Retried(m: Machine, x: OpId, transient: bool, c: Config): Machine {
    Next(Next(Next(m, Reopen(transient), c), Claim(x), c), Begin, c)
  }

  lemma RetriedStarts(m: Machine, x: OpId, transient: bool, c: Config)
    requires Ordered(m) && m.pc == Cleaning(x)
    ensures Retried(m, x, transient, c) == Machine(m.w.Put(x, m.w.ops[x].(state := Running)), Applying(x, AtBase), m.head)
  {
    var open' := m.w.ops[x].(state := if transient then Pending else Blocked);
    forall y | y in m.w.ops && m.w.ops[y].owner == m.w.ops[x].owner && m.w.ops[y].no < m.w.ops[x].no
      ensures m.w.ops[y].Terminal()
    {
      assert PairOrdered(m, y, x);
    }
    assert Next(m, Reopen(transient), c) == Machine(m.w.Put(x, open'), Idle, m.head);
    assert EarlierDone(m.w.Put(x, open').ops, x);
    StartsIdle(Machine(m.w.Put(x, open'), Idle, m.head), x, c);
    PutTwice(m.w, x, open', m.w.ops[x].(state := Running));
  }

  lemma PutTwice(w: World, x: OpId, a: Op, b: Op)
    ensures w.Put(x, a).Put(x, b) == w.Put(x, b)
  {
  }

  /** Claimed and started with nothing in between. */
  lemma StartsIdle(m: Machine, x: OpId, c: Config)
    requires m.pc.Idle? && x in m.w.ops && !m.w.ops[x].Terminal() && EarlierDone(m.w.ops, x)
    ensures Next(Next(m, Claim(x), c), Begin, c) == Machine(m.w.Put(x, m.w.ops[x].(state := Running)), Applying(x, AtBase), m.head)
  {
    var running := m.w.ops[x].(state := Running);
    assert Next(m, Claim(x), c) == Machine(m.w.Put(x, running), Claimed(x, running), m.head);
    PutTwice(m.w, x, running, running);
  }

  /** An operation whose cleanup failed is run again: its retry finishes if and
      only if the cleanup had not yet given up what the content is staged from.
      Otherwise it halts, with everything it promised already in place. */
  lemma ReopenedExactly(m: Machine, x: OpId, transient: bool, c: Config)
    requires Ordered(m) && m.pc == Cleaning(x) && AsCompleted(m.w, x)
    ensures var n := Retried(m, x, transient, c);
            && n.pc == Applying(x, AtBase) && n.w.dest == m.w.dest
            && (RunFrom(n.w, x, AtBase, c).Finished? <==> CanStage(m.w, x))
            && (!CanStage(m.w, x) ==> RunFrom(n.w, x, AtBase, c).Halt?)
  {
    RetriedStarts(m, x, transient, c);
    var n := Retried(m, x, transient, c);
    StandingKeepsCompleted(m.w, n.w, x);
    RetryExactly(n.w, x, c);
  }

  /** What `AsCompleted` asks is what a submitted plan that spares its destinations leaves. */
  lemma CompletedByRunning(w: World, x: OpId, c: Config)
    requires x in w.ops && w.ops[x].outcomes == [] && PlanKeeps(BaseOf(w, w.ops[x]), w.ops[x].plan, c)
    requires RunFrom(w, x, AtBase, c).Finished?
    ensures AsCompleted(RunFrom(w, x, AtBase, c).w, x) && CanStage(RunFrom(w, x, AtBase, c).w, x)
  {
    LandedIsApart(w, x, AtBase, c);
    CompletionDelivers(w, x, AtBase, c);
  }

  function Advances(m: Machine, n: nat, c: Config): Machine
    decreases n
  {
    if n == 0 then m else Advances(AdvanceStep(m, c), n - 1, c)
  }

  /** An undisturbed application is a series of advances that ends in its cleanup. */
  lemma {:induction false} AdvancesReach(m: Machine, c: Config) returns (n: nat)
    requires m.pc.Applying? && m.pc.x in m.w.ops && RunFrom(m.w, m.pc.x, m.pc.stage, c).Finished?
    ensures Advances(m, n, c) == m.(w := RunFrom(m.w, m.pc.x, m.pc.stage, c).w, pc := Cleaning(m.pc.x))
    decreases Phase(m.pc.stage), Left(m.w, m.pc.x, m.pc.stage), Within(m.w, m.pc.x, m.pc.stage)
  {
    var x, next := m.pc.x, Exec(m.w, m.pc.x, m.pc.stage, c);
    if next.Go? {
      StepDescends(m.w, x, m.pc.stage, c);
      var k := AdvancesReach(AdvanceStep(m, c), c);
      n := k + 1;
    } else {
      n := 1;
      assert Advances(AdvanceStep(m, c), 0, c) == AdvanceStep(m, c);
    }
  }

  /** A plan that moves content from its staging place to one destination. */
  function MovePlan(s: Endpoint, d: Endpoint, content: Content): Plan {
    Plan(content, Some(s), None, [Target(d, Refuse, true, false)], {}, [Staging(s, content)])
  }

  predicate MoveDone(w: World, x: OpId, s: Endpoint, d: Endpoint, content: Content) {
    && w.dest == map[d := content] && w.pins == map[x := content] && w.ops.Keys == {x} && w.ops[x].base.Some?
    && w.ops[x].state == Complete && w.ops[x].plan == MovePlan(s, d, content) && !w.ops[x].cleaned
  }

  lemma MovePlanRuns(x: OpId, owner: Owner, s: Endpoint, d: Endpoint, content: Content, c: Config)
    requires s != d
    ensures var w := World(map[x := ReplicaLedger.NewOp(owner, 1, MovePlan(s, d, content)).(state := Running)], map[],
                           map[s := content], map[], map[]);
            var r := RunFrom(w, x, AtBase, c);
            r.Finished? && MoveDone(r.w, x, s, d, content)
  {
    var plan := MovePlan(s, d, content);
    var op := ReplicaLedger.NewOp(owner, 1, plan).(state := Running);
    var w := World(map[x := op], map[], map[s := content], map[], map[]);
    var based := op.(base := Some(OwnerRow("", [])));
    var o := Outcome(d, d, true, true, None, None, false);
    var w1 := w.(ops := map[x := based]);
    assert Exec(w, x, AtBase, c) == Go(w1, AtPin);
    var w2 := w1.(pins := map[x := content]);
    assert Exec(w1, x, AtPin, c) == Go(w2, AtPin);
    var w3 := w2.(ops := map[x := based.(staged := true)]);
    assert Exec(w2, x, AtPin, c) == Go(w3, AtTarget(0));
    assert ResolveTarget(w3, OwnerRow("", []), plan, plan.targets[0], c) == Some(o);
    assert [] + [o] == [o];
    var w4 := w3.(ops := map[x := based.(staged := true, outcomes := [o])]);
    assert Exec(w3, x, AtTarget(0), c) == Go(w4, AtPlace(0));
    MovePlanPlaces(w4, x, owner, s, d, content, c);
    assert RunFrom(w, x, AtBase, c) == RunFrom(w1, x, AtPin, c) == RunFrom(w2, x, AtPin, c);
    assert RunFrom(w2, x, AtPin, c) == RunFrom(w3, x, AtTarget(0), c) == RunFrom(w4, x, AtPlace(0), c);
  }

  lemma MovePlanPlaces(w: World, x: OpId, owner: Owner, s: Endpoint, d: Endpoint, content: Content, c: Config)
    requires s != d
    requires var o := Outcome(d, d, true, true, None, None, false);
             w == World(map[x := ReplicaLedger.NewOp(owner, 1, MovePlan(s, d, content))
                                   .(state := Running, base := Some(OwnerRow("", [])), staged := true, outcomes := [o])],
                        map[], map[s := content], map[x := content], map[])
    ensures var r := RunFrom(w, x, AtPlace(0), c);
            r.Finished? && MoveDone(r.w, x, s, d, content)
  {
    var op := w.ops[x];
    var w1 := w.(dest := map[s := content, d := content]);
    assert Exec(w, x, AtPlace(0), c) == Go(w1, AtCheck(0));
    var w2 := w1.Put(x, op.(outcomes := op.outcomes[0 := op.outcomes[0].(verified := true)]));
    assert Exec(w1, x, AtCheck(0), c) == Go(w2, AtTarget(1));
    MovePlanReleases(w2, x, s, d, content, c);
    assert RunFrom(w, x, AtPlace(0), c) == RunFrom(w1, x, AtCheck(0), c) == RunFrom(w2, x, AtTarget(1), c);
  }

  lemma MovePlanReleases(w: World, x: OpId, s: Endpoint, d: Endpoint, content: Content, c: Config)
    requires s != d && w.ops.Keys == {x} && w.owners == map[] && w.dest == map[s := content, d := content]
    requires var op := w.ops[x];
             && op.plan == MovePlan(s, d, content) && op.base == Some(OwnerRow("", [])) && !op.cleaned
             && |op.outcomes| == 1 && op.outcomes[0].at == d
    ensures var r := RunFrom(w, x, AtTarget(1), c);
            r.Finished? && (w.pins == map[x := content] ==> MoveDone(r.w, x, s, d, content))
  {
    assert !OtherClaims(w, x, s);
    var w1 := w.(dest := map[d := content]);
    assert w.dest - {s} == w1.dest;
    assert Exec(w, x, AtTarget(1), c) == Go(w, AtRetire(0));
    assert Exec(w, x, AtRetire(0), c) == Go(w, AtVerify(0));
    assert Exec(w, x, AtVerify(0), c) == Go(w, AtVerify(1));
    assert Exec(w, x, AtVerify(1), c) == Go(w, AtRelease(0));
    assert Exec(w, x, AtRelease(0), c) == Go(w1, AtRelease(0));
    assert Exec(w1, x, AtRelease(0), c) == Go(w1, AtRelease(1));
    assert Exec(w1, x, AtRelease(1), c) == Go(w1, AtFinish);
    assert RunFrom(w1, x, AtRelease(0), c) == RunFrom(w1, x, AtRelease(1), c) == RunFrom(w1, x, AtFinish, c);
    assert RunFrom(w, x, AtVerify(0), c) == RunFrom(w, x, AtVerify(1), c) == RunFrom(w, x, AtRelease(0), c);
    assert RunFrom(w, x, AtTarget(1), c) == RunFrom(w, x, AtRetire(0), c) == RunFrom(w, x, AtVerify(0), c);
  }

  /** It happens: an operation that moves content out of its staging place is
      submitted, applied and committed; its cleanup gives up the pin and then
      fails. It is pending again, with neither pin nor source; only the
      destination holds the content, and every retry halts. */
  lemma ReopenedHasNeitherPinNorSource(x: OpId, owner: Owner, s: Endpoint, d: Endpoint, content: Content, c: Config)
    returns (n: nat)
    requires s != d
    ensures var m0 := Next(Machine(World(map[], map[], map[s := content], map[], map[]), Idle, 0),
                           Submit(x, owner, MovePlan(s, d, content)), c);
            var m1 := Advances(Next(Next(m0, Claim(x), c), Begin, c), n, c);
            var m2 := Next(Next(m1, DropPin(x), c), Reopen(true), c);
            var m3 := Next(Next(m2, Claim(x), c), Begin, c);
            && x in m2.w.ops && m2.w.ops[x].state == Pending
            && x !in m2.w.pins && s !in m2.w.dest && At(m2.w.dest, d) == Some(content)
            && m3.pc == Applying(x, AtBase) && x in m3.w.ops && RunFrom(m3.w, x, AtBase, c).Halt?
  {
    var m := StartedMove(x, owner, s, d, content, c);
    MovePlanRuns(x, owner, s, d, content, c);
    n := AdvancesReach(m, c);
    FailedCleanup(Advances(m, n, c), x, s, d, content, c);
  }

  lemma StartedMove(x: OpId, owner: Owner, s: Endpoint, d: Endpoint, content: Content, c: Config) returns (m: Machine)
    ensures var m0 := Next(Machine(World(map[], map[], map[s := content], map[], map[]), Idle, 0),
                           Submit(x, owner, MovePlan(s, d, content)), c);
            m == Next(Next(m0, Claim(x), c), Begin, c)
    ensures m == Machine(World(map[x := ReplicaLedger.NewOp(owner, 1, MovePlan(s, d, content)).(state := Running)], map[],
                               map[s := content], map[], map[]), Applying(x, AtBase), 1)
  {
    var m0 := Next(Machine(World(map[], map[], map[s := content], map[], map[]), Idle, 0),
                   Submit(x, owner, MovePlan(s, d, content)), c);
    var op := ReplicaLedger.NewOp(owner, 1, MovePlan(s, d, content));
    assert m0 == Machine(World(map[x := op], map[], map[s := content], map[], map[]), Idle, 1);
    var m1 := Next(m0, Claim(x), c);
    assert m1.w.ops == map[x := op.(state := Running)] && m1.pc == Claimed(x, op.(state := Running));
    m := Next(m1, Begin, c);
    assert m.w.ops == map[x := op.(state := Running)];
  }

  lemma FailedCleanup(m: Machine, x: OpId, s: Endpoint, d: Endpoint, content: Content, c: Config)
    requires s != d && m.pc == Cleaning(x) && MoveDone(m.w, x, s, d, content)
    ensures var n := Next(Next(m, DropPin(x), c), Reopen(true), c);
            var r := Next(Next(n, Claim(x), c), Begin, c);
            && x in n.w.ops && n.w.ops[x].state == Pending && x !in n.w.pins && n.w.dest == m.w.dest
            && r.pc == Applying(x, AtBase) && x in r.w.ops && RunFrom(r.w, x, AtBase, c).Halt?
  {
    var n := CleanedThenReopened(m, x, c);
    assert EarlierDone(n.w.ops, x);
    StartsIdle(n, x, c);
    var r := n.w.Put(x, n.w.ops[x].(state := Running));
    assert r.ops[x].plan == MovePlan(s, d, content) && r.ops[x].base.Some? && !CanStage(r, x);
    var _ := StagingDecides(r, x, c);
  }

  lemma CleanedThenReopened(m: Machine, x: OpId, c: Config) returns (n: Machine)
    requires m.pc == Cleaning(x) && x in m.w.ops && m.w.ops[x].state == Complete && !m.w.ops[x].cleaned
    ensures n == Next(Next(m, DropPin(x), c), Reopen(true), c)
    ensures n == Machine(m.w.Put(x, m.w.ops[x].(state := Pending)).(pins := m.w.pins - {x}), Idle, m.head)
  {
    assert FinalSuccessor(m.w.ops, x, {}) == Some(x);
    assert MayClean(m, x);
    n := Next(Next(m, DropPin(x), c), Reopen(true), c);
  }
}
