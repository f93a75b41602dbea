/** What must have happened before the executor touches a destination, over whole
    runs with outsiders, other operations, crashes and failed cleanups. */
module ReplicaHistory {
  import opened Options
  import opened ReplicaModel
  import opened ReplicaApply
  import opened ReplicaMachine
  import opened ReplicaOrder
  import ReplicaLedger

  // ── Records only grow ─────────────────────────────────────────────────────

  /** Plan, base and every recorded outcome are for good; only `verified` may change. */
  predicate Grown(a: Op, b: Op) {
    && b.plan == a.plan && (a.base.Some? ==> b.base == a.base) && |a.outcomes| <= |b.outcomes|
    && forall i | 0 <= i < |a.outcomes| :: b.outcomes[i] == a.outcomes[i].(verified := b.outcomes[i].verified)
  }

  lemma GrownChains(a: Op, b: Op, c: Op)
    requires Grown(a, b) && Grown(b, c)
    ensures Grown(a, c)
  {
  }

  /** The target loop is never ahead of the outcomes. */
  predicate IndexFits(m: Machine) {
    m.pc.Applying? && m.pc.x in m.w.ops ==>
      && (m.pc.stage.AtTarget? ==> m.pc.stage.i <= |m.w.ops[m.pc.x].outcomes|)
      && (m.pc.stage.AtPlace? || m.pc.stage.AtCheck? ==> m.pc.stage.i < |m.w.ops[m.pc.x].outcomes|)
  }

  lemma AdvanceKeepsIndex(m: Machine, c: Config)
    requires IndexFits(m)
    ensures IndexFits(AdvanceStep(m, c))
  {
    if m.pc.Applying? && m.pc.x in m.w.ops {
      StepKeepsRecord(m.w, m.pc.x, m.pc.stage, c);
      if Exec(m.w, m.pc.x, m.pc.stage, c).Go? { StageIndex(m.w, m.pc.x, m.pc.stage, c); }
    }
  }

  lemma StageIndex(w: World, x: OpId, s: Stage, c: Config)
    requires x in w.ops && Exec(w, x, s, c).Go? && x in Exec(w, x, s, c).w.ops
    requires (s.AtTarget? ==> s.i <= |w.ops[x].outcomes|) && (s.AtPlace? || s.AtCheck? ==> s.i < |w.ops[x].outcomes|)
    ensures var t, n := Exec(w, x, s, c).stage, |Exec(w, x, s, c).w.ops[x].outcomes|;
            (t.AtTarget? ==> t.i <= n) && (t.AtPlace? || t.AtCheck? ==> t.i < n)
  {
    match s
    case AtTarget(i) => case AtPlace(i) => case AtCheck(i) =>
    case _ => LaterIndex(w, x, s, c);
  }

  lemma LaterIndex(w: World, x: OpId, s: Stage, c: Config)
    requires x in w.ops && Exec(w, x, s, c).Go? && !s.AtTarget? && !s.AtPlace? && !s.AtCheck?
    ensures var t := Exec(w, x, s, c).stage; !t.AtPlace? && !t.AtCheck? && (t.AtTarget? ==> t.i == 0)
  {
  }

  lemma StepKeepsIndex(m: Machine, move: Move, c: Config)
    requires IndexFits(m) && Settled(m)
    ensures IndexFits(Next(m, move, c))
  {
    match move
    case Advance => AdvanceKeepsIndex(m, c);
    case Supersede(_, _, _) => case RetireOwner(_, _) =>
    case _ => PlainKeepsIndex(m, move, c);
  }

  lemma PlainKeepsIndex(m: Machine, move: Move, c: Config)
    requires IndexFits(m) && Settled(m) && !move.Advance? && !move.Supersede? && !move.RetireOwner?
    ensures IndexFits(Next(m, move, c))
  {
    if m.pc.Applying? && Next(m, move, c).pc.Applying? {
      assert m.pc.x in m.w.ops && Next(m, move, c).pc == m.pc;
    }
  }

  // ── One step ──────────────────────────────────────────────────────────────

  /** A record grows by one outcome only when its own target loop resolves a target. */
  lemma StepGrows(m: Machine, move: Move, x: OpId, c: Config)
    requires Settled(m) && x in m.w.ops
    ensures var n := Next(m, move, c);
            && x in n.w.ops && Grown(m.w.ops[x], n.w.ops[x])
            && (|n.w.ops[x].outcomes| > |m.w.ops[x].outcomes| ==> move.Advance? && m.pc.Applying? && m.pc.x == x && m.pc.stage.AtTarget?)
            && (m.w.ops[x].base.None? && n.w.ops[x].base.Some? ==>
                  (move.Advance? && m.pc == Applying(x, AtBase) && n.w.ops[x].base == Some(BaseOf(m.w, m.w.ops[x]))))
  {
    if move.Advance? {
      if m.pc.Applying? { AdvanceGrows(m, x, c); }
    } else {
      OthersGrowNothing(m, move, x, c);
    }
  }

  lemma AdvanceGrows(m: Machine, x: OpId, c: Config)
    requires Settled(m) && x in m.w.ops && m.pc.Applying?
    ensures var n := AdvanceStep(m, c);
            && x in n.w.ops && Grown(m.w.ops[x], n.w.ops[x])
            && (|n.w.ops[x].outcomes| > |m.w.ops[x].outcomes| ==> m.pc.x == x && m.pc.stage.AtTarget?)
            && (m.w.ops[x].base.None? && n.w.ops[x].base.Some? ==>
                  (m.pc == Applying(x, AtBase) && n.w.ops[x].base == Some(BaseOf(m.w, m.w.ops[x]))))
  {
    StepHasEffect(m.w, m.pc.x, m.pc.stage, c);
    if m.pc.x == x {
      StepKeepsRecord(m.w, x, m.pc.stage, c);
      if m.w.ops[x].base.None? { BaseSetAtBase(m.w, x, m.pc.stage, c); }
    }
  }

  lemma BaseSetAtBase(w: World, x: OpId, s: Stage, c: Config)
    requires x in w.ops && w.ops[x].base.None? && x in Exec(w, x, s, c).w.ops
    ensures Exec(w, x, s, c).w.ops[x].base.Some? ==> s.AtBase? && Exec(w, x, s, c).w.ops[x].base == Some(BaseOf(w, w.ops[x]))
  {
  }

  lemma OthersGrowNothing(m: Machine, move: Move, x: OpId, c: Config)
    requires Settled(m) && x in m.w.ops && !move.Advance?
    ensures var n := Next(m, move, c);
            x in n.w.ops && n.w.ops[x].plan == m.w.ops[x].plan && n.w.ops[x].base == m.w.ops[x].base
            && n.w.ops[x].outcomes == m.w.ops[x].outcomes
  {
    match move
    case Supersede(_, _, _) => case RetireOwner(_, _) =>
    case Outsider(_, _) => assert Next(m, move, c).w.ops == m.w.ops;
    case Adopt(_, _) => assert Next(m, move, c).w.ops == m.w.ops;
    case Relocate(_) => assert Next(m, move, c).w.ops == m.w.ops;
    case DropPin(_) => assert Next(m, move, c).w.ops == m.w.ops;
    case DropBlob(_) => assert Next(m, move, c).w.ops == m.w.ops;
    case Claim(y) => ClaimRestands(m, y, x, c);
    case Begin => BeginRestands(m, x, c);
    case Crash => CrashRestands(m, x, c);
    case Submit(id, owner, plan) => SubmitRestands(m, id, owner, plan, x, c);
    case EndCleaning(y) => EndCleaningRestands(m, y, x, c);
    case Reopen(transient) => ReopenRestands(m, transient, x, c);
  }

  /** A new operation has nothing recorded. */
  lemma NewHasNothing(m: Machine, move: Move, x: OpId, c: Config)
    requires Settled(m) && x !in m.w.ops
    ensures var ops := Next(m, move, c).w.ops; x in ops ==> ops[x].outcomes == [] && ops[x].base.None?
  {
    if move.Advance? && m.pc.Applying? { StepHasEffect(m.w, m.pc.x, m.pc.stage, c); }
  }

  // ── Runs ──────────────────────────────────────────────────────────────────

  /** A run from a journal in order with nothing in hand. */
  ghost predicate FromRest(states: seq<Machine>, moves: seq<Move>, c: Config) {
    IsRun(states, moves, c) && Ordered(states[0]) && states[0].pc.Idle?
  }

  lemma {:induction false} InvariantsHold(states: seq<Machine>, moves: seq<Move>, c: Config, n: nat)
    requires FromRest(states, moves, c) && n <= |moves|
    ensures Ordered(states[n]) && IndexFits(states[n])
  {
    if n > 0 {
      InvariantsHold(states, moves, c, n - 1);
      StepKeepsOrder(states[n - 1], moves[n - 1], c);
      StepKeepsIndex(states[n - 1], moves[n - 1], c);
      assert states[n - 1 + 1] == Next(states[n - 1], moves[n - 1], c);
    }
  }

  /** Step `j` resolved target `i` of `x`, and that is the outcome found in `op`. */
  ghost predicate ResolvedAt(states: seq<Machine>, moves: seq<Move>, x: OpId, i: nat, j: nat, op: Op, c: Config)
    requires j < |moves| && |states| == |moves| + 1
  {
    && moves[j].Advance? && states[j].pc == Applying(x, AtTarget(i)) && x in states[j].w.ops
    && var was := states[j].w.ops[x];
       && was.plan == op.plan && was.base.Some? && op.base == was.base && i < |was.plan.targets| && i < |op.outcomes|
       && var o := ResolveTarget(states[j].w, was.base.value, was.plan, was.plan.targets[i], c);
          o.Some? && op.outcomes[i] == o.value.(verified := op.outcomes[i].verified)
  }

  lemma ResolvesNow(m: Machine, x: OpId, i: nat, c: Config)
    requires Settled(m) && IndexFits(m) && m.pc.Applying? && m.pc.x == x && m.pc.stage.AtTarget?
    requires x in AdvanceStep(m, c).w.ops
    requires |AdvanceStep(m, c).w.ops[x].outcomes| > |m.w.ops[x].outcomes| == i
    ensures var op, op' := m.w.ops[x], AdvanceStep(m, c).w.ops[x];
            && m.pc.stage == AtTarget(i) && op'.plan == op.plan && op.base.Some? && op'.base == op.base && i < |op.plan.targets|
            && |op'.outcomes| == i + 1
            && ResolveTarget(m.w, op.base.value, op.plan, op.plan.targets[i], c) == Some(op'.outcomes[i])
  {
    StepKeepsRecord(m.w, x, m.pc.stage, c);
    StepHasEffect(m.w, x, m.pc.stage, c);
    if Exec(m.w, x, m.pc.stage, c).Go? { NewOutcomeLands(m.w, x, m.pc.stage.i, c); }
  }

  /** Every recorded outcome was resolved by one earlier step of its own operation. */
  lemma {:induction false} WasResolved(states: seq<Machine>, moves: seq<Move>, c: Config, x: OpId, i: nat, k: nat) returns (j: nat)
    requires FromRest(states, moves, c) && k <= |moves|
    requires x in states[0].w.ops ==> |states[0].w.ops[x].outcomes| <= i
    requires x in states[k].w.ops && i < |states[k].w.ops[x].outcomes|
    ensures j < k && ResolvedAt(states, moves, x, i, j, states[k].w.ops[x], c)
    decreases k
  {
    assert k > 0;
    var m := states[k - 1];
    assert states[k - 1 + 1] == Next(m, moves[k - 1], c);
    InvariantsHold(states, moves, c, k - 1);
    if x !in m.w.ops { NewHasNothing(m, moves[k - 1], x, c); }
    StepGrows(m, moves[k - 1], x, c);
    if i < |m.w.ops[x].outcomes| {
      j := WasResolved(states, moves, c, x, i, k - 1);
    } else {
      j := k - 1;
      OneAtATime(m, x, c);
      ResolvesNow(m, x, i, c);
    }
  }

  lemma OneAtATime(m: Machine, x: OpId, c: Config)
    requires Settled(m) && m.pc.Applying? && m.pc.x == x && m.pc.stage.AtTarget?
    ensures x in AdvanceStep(m, c).w.ops && |AdvanceStep(m, c).w.ops[x].outcomes| <= |m.w.ops[x].outcomes| + 1
  {
    StepKeepsRecord(m.w, x, m.pc.stage, c);
    if Exec(m.w, x, m.pc.stage, c).Go? {
      if |Exec(m.w, x, m.pc.stage, c).w.ops[x].outcomes| > |m.w.ops[x].outcomes| { NewOutcomeLands(m.w, x, m.pc.stage.i, c); }
    } else {
      StepHasEffect(m.w, x, m.pc.stage, c);
    }
  }

  /** An overwrite: the executor saw exactly this version when it resolved the
      destination, wrote that down, and it was its owner's own replica then, or
      the plan says overwrite; and nobody else claims the place now. */
  lemma OverwriteWasSeen(states: seq<Machine>, moves: seq<Move>, c: Config, x: OpId, i: nat, k: nat, e: Endpoint) returns (j: nat)
    requires FromRest(states, moves, c) && k < |moves|
    requires x in states[0].w.ops ==> states[0].w.ops[x].outcomes == []
    requires moves[k].Advance? && states[k].pc == Applying(x, AtPlace(i)) && x in states[k].w.ops
    requires e in states[k].w.dest && At(states[k + 1].w.dest, e) != At(states[k].w.dest, e)
    ensures j < k && moves[j].Advance? && states[j].pc == Applying(x, AtTarget(i))
    ensures At(states[j].w.dest, e) == At(states[k].w.dest, e)
    ensures var op := states[k].w.ops[x];
            && op.base.Some? && i < |op.plan.targets| && !NeededElsewhere(states[k].w, x, e)
            && At(states[k + 1].w.dest, e) == Some(op.plan.content)
            && (op.plan.targets[i].onConflict == Overwrite
                || OwnedBefore(op.base.value, op.plan.targets[i].at, states[k].w.dest[e]))
  {
    var m := states[k];
    assert states[k + 1] == Next(m, moves[k], c);
    InvariantsHold(states, moves, c, k);
    StepTouchesOnly(m.w, x, AtPlace(i), c, e);
    ClaimsExact(m.w, x, e);
    AdvanceMoves(m, c);
    assert Placement(m.w, x, AtPlace(i), e, At(m.w.dest, e), At(states[k + 1].w.dest, e));
    j := WasResolved(states, moves, c, x, i, k);
    var was := states[j].w.ops[x];
    ResolvedSaw(states[j].w, was.base.value, was.plan, was.plan.targets[i], c);
    ResolvedOwnVersion(states[j].w, was.base.value, was.plan, was.plan.targets[i], c);
  }

  lemma AdvanceMoves(m: Machine, c: Config)
    requires m.pc.Applying? && m.pc.x in m.w.ops
    ensures AdvanceStep(m, c).w.dest == Exec(m.w, m.pc.x, m.pc.stage, c).w.dest
  {
  }

  /** A resolved outcome expects what was at its place, or nothing. */
  lemma ResolvedSaw(w: World, base: OwnerRow, plan: Plan, t: Target, c: Config)
    ensures var o := ResolveTarget(w, base, plan, t, c);
            o.Some? && o.value.expected.Some? ==> At(w.dest, o.value.at) == o.value.expected
  {
  }

  // ── Retirement ────────────────────────────────────────────────────────────

  /** The base row of an operation was taken from its owner's row when it started. */
  lemma {:induction false} BaseWasTaken(states: seq<Machine>, moves: seq<Move>, c: Config, x: OpId, k: nat) returns (j: nat)
    requires FromRest(states, moves, c) && k <= |moves|
    requires x in states[0].w.ops ==> states[0].w.ops[x].base.None?
    requires x in states[k].w.ops && states[k].w.ops[x].base.Some?
    ensures j < k && moves[j].Advance? && states[j].pc == Applying(x, AtBase) && x in states[j].w.ops
    ensures states[k].w.ops[x].base == Some(BaseOf(states[j].w, states[j].w.ops[x]))
    decreases k
  {
    assert k > 0;
    var m := states[k - 1];
    assert states[k - 1 + 1] == Next(m, moves[k - 1], c);
    InvariantsHold(states, moves, c, k - 1);
    if x !in m.w.ops { NewHasNothing(m, moves[k - 1], x, c); }
    StepGrows(m, moves[k - 1], x, c);
    if m.w.ops[x].base.Some? {
      j := BaseWasTaken(states, moves, c, x, k - 1);
    } else {
      j := k - 1;
    }
  }

  /** A retirement removes a managed mirror replica that the owner's row held when
      the operation started, still unchanged, that the new plan neither delivers
      to nor keeps and nobody else claims. */
  lemma RetiredWasOwned(states: seq<Machine>, moves: seq<Move>, c: Config, x: OpId, n: nat, k: nat, e: Endpoint) returns (j: nat)
    requires FromRest(states, moves, c) && k < |moves|
    requires x in states[0].w.ops ==> states[0].w.ops[x].base.None?
    requires moves[k].Advance? && states[k].pc == Applying(x, AtRetire(n)) && x in states[k].w.ops
    requires e in states[k].w.dest && At(states[k + 1].w.dest, e) != At(states[k].w.dest, e)
    ensures j < k && states[j].pc == Applying(x, AtBase) && x in states[j].w.ops
    ensures var row, op := BaseOf(states[j].w, states[j].w.ops[x]), states[k].w.ops[x];
            && (exists r | r in row.replicas :: r.at == e && r.managed && r.mirror && At(states[k].w.dest, e) == Some(r.content))
            && (forall i | 0 <= i < |op.outcomes| :: op.outcomes[i].at != e) && e !in op.plan.preserve
            && !NeededElsewhere(states[k].w, x, e)
            && e !in states[k + 1].w.dest
  {
    var m := states[k];
    assert states[k + 1] == Next(m, moves[k], c);
    StepTouchesOnly(m.w, x, AtRetire(n), c, e);
    ClaimsExact(m.w, x, e);
    AdvanceMoves(m, c);
    assert Retirement(m.w, x, AtRetire(n), e, At(m.w.dest, e), At(states[k + 1].w.dest, e), c);
    j := BaseWasTaken(states, moves, c, x, k);
    assert m.w.ops[x].base.value.replicas[n] in m.w.ops[x].base.value.replicas;
  }

  // ── Release ───────────────────────────────────────────────────────────────

  /** Has the final verification passed outcome `t`? */
  predicate PastVerify(pc: Pc, x: OpId, t: nat) {
    pc.Applying? && pc.x == x && ((pc.stage.AtVerify? && t < pc.stage.k) || pc.stage.AtRelease? || pc.stage.AtFinish?)
  }

  lemma PastVerifyBefore(m: Machine, move: Move, n: Machine, x: OpId, t: nat, c: Config)
    requires Settled(m) && n == Next(m, move, c) && PastVerify(n.pc, x, t)
    requires x in n.w.ops && t < |n.w.ops[x].outcomes|
    ensures x in m.w.ops && m.w.ops[x].plan == n.w.ops[x].plan && t < |m.w.ops[x].outcomes|
    ensures m.w.ops[x].outcomes[t].at == n.w.ops[x].outcomes[t].at
    ensures PastVerify(m.pc, x, t)
            || (move.Advance? && m.pc == Applying(x, AtVerify(t))
                && At(m.w.dest, m.w.ops[x].outcomes[t].at) == Some(m.w.ops[x].plan.content))
  {
    if move.Advance? {
      StepKeepsRecord(m.w, x, m.pc.stage, c);
      VerifyPasses(m.w, x, m.pc.stage, t, c);
    } else {
      assert m.pc.Applying? && m.pc == Next(m, move, c).pc by { StaysApplying(m, move, c); }
      OthersGrowNothing(m, move, x, c);
    }
  }

  lemma StaysApplying(m: Machine, move: Move, c: Config)
    requires !move.Advance? && Next(m, move, c).pc.Applying? && Settled(m)
    ensures m.pc == Next(m, move, c).pc || (move.Begin? && Next(m, move, c).pc.stage.AtBase?)
  {
  }

  lemma VerifyPasses(w: World, x: OpId, s: Stage, t: nat, c: Config)
    requires x in w.ops && Exec(w, x, s, c).Go? && t < |w.ops[x].outcomes|
    requires PastVerify(Applying(x, Exec(w, x, s, c).stage), x, t)
    ensures PastVerify(Applying(x, s), x, t)
            || (s == AtVerify(t) && At(w.dest, w.ops[x].outcomes[t].at) == Some(w.ops[x].plan.content))
  {
  }

  /** States `j+1 .. k` belong to one application of `x`. */
  predicate OneAttempt(states: seq<Machine>, x: OpId, j: nat, k: nat)
    requires k < |states|
  {
    forall n | j < n <= k :: states[n].pc.Applying? && states[n].pc.x == x
  }

  lemma SettledThere(states: seq<Machine>, moves: seq<Move>, c: Config, n: nat)
    requires FromRest(states, moves, c) && n <= |moves|
    ensures Settled(states[n])
  {
    InvariantsHold(states, moves, c, n);
  }

  lemma OneMoreState(states: seq<Machine>, x: OpId, j: nat, k: nat)
    requires 0 < k < |states| && OneAttempt(states, x, j, k - 1) && states[k].pc.Applying? && states[k].pc.x == x
    ensures OneAttempt(states, x, j, k)
  {
  }

  lemma {:induction false} WasVerified(states: seq<Machine>, moves: seq<Move>, c: Config, x: OpId, t: nat, k: nat) returns (j: nat)
    requires FromRest(states, moves, c) && k <= |moves| && PastVerify(states[k].pc, x, t)
    requires x in states[k].w.ops && t < |states[k].w.ops[x].outcomes|
    ensures j < k && moves[j].Advance? && states[j].pc == Applying(x, AtVerify(t)) && OneAttempt(states, x, j, k)
    ensures At(states[j].w.dest, states[k].w.ops[x].outcomes[t].at) == Some(states[k].w.ops[x].plan.content)
    decreases k
  {
    assert k > 0;
    var m, n := states[k - 1], states[k];
    assert states[k - 1 + 1] == Next(m, moves[k - 1], c);
    SettledThere(states, moves, c, k - 1);
    PastVerifyBefore(m, moves[k - 1], n, x, t, c);
    if PastVerify(m.pc, x, t) {
      j := WasVerified(states, moves, c, x, t, k - 1);
      OneMoreState(states, x, j, k);
    } else {
      j := k - 1;
    }
  }

  /** A release: in this same application every destination was found holding the
      content before, and the staging place is unchanged and claimed by nobody else. */
  lemma ReleaseAfterVerification(states: seq<Machine>, moves: seq<Move>, c: Config, x: OpId, r: nat, k: nat, e: Endpoint, t: nat)
    returns (j: nat)
    requires FromRest(states, moves, c) && k < |moves|
    requires moves[k].Advance? && states[k].pc == Applying(x, AtRelease(r)) && x in states[k].w.ops
    requires At(states[k + 1].w.dest, e) != At(states[k].w.dest, e) && t < |states[k].w.ops[x].outcomes|
    ensures j < k && moves[j].Advance? && states[j].pc == Applying(x, AtVerify(t)) && OneAttempt(states, x, j, k)
    ensures At(states[j].w.dest, states[k].w.ops[x].outcomes[t].at) == Some(states[k].w.ops[x].plan.content)
    ensures r < |states[k].w.ops[x].plan.release| && e == states[k].w.ops[x].plan.release[r].at
    ensures At(states[k].w.dest, e) == Some(states[k].w.ops[x].plan.release[r].content) && !NeededElsewhere(states[k].w, x, e)
  {
    assert states[k + 1] == Next(states[k], moves[k], c);
    StepTouchesOnly(states[k].w, x, AtRelease(r), c, e);
    ClaimsExact(states[k].w, x, e);
    AdvanceMoves(states[k], c);
    j := WasVerified(states, moves, c, x, t, k);
  }
}
