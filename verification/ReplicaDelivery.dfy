/** What is at the destinations once an operation has run: exactly when a plan
    keeps what it delivers, and exactly when an operation whose cleanup failed
    can be run again. */
module ReplicaDelivery {
  import opened Options
  import opened ReplicaModel
  import opened ReplicaApply
  import opened ReplicaMachine

  // ── Claims do not change under an operation's own steps ───────────────────

  lemma StepKeepsClaims(w: World, x: OpId, s: Stage, c: Config, e: Endpoint)
    requires x in w.ops && Exec(w, x, s, c).Go?
    ensures x in Exec(w, x, s, c).w.ops
    ensures OtherClaims(Exec(w, x, s, c).w, x, e) <==> OtherClaims(w, x, e)
  {
    StepHasEffect(w, x, s, c);
    StepKeepsRecord(w, x, s, c);
    var v := Exec(w, x, s, c).w;
    assert OwnerClaims(v, v.ops[x].owner, e) <==> OwnerClaims(w, w.ops[x].owner, e);
    if y :| y in w.ops && y != x && !w.ops[y].Terminal() && (Targets(w.ops[y].plan, e) || w.ops[y].plan.source == Some(e)) {
      assert v.ops[y] == w.ops[y];
    }
  }

  // ── The release loop ──────────────────────────────────────────────────────

  /** Will the release loop from `r` on let go of this place? */
  predicate LetsGo(w: World, x: OpId, r: nat, e: Endpoint)
    requires x in w.ops
  {
    && !OtherClaims(w, x, e)
    && exists k :: r <= k < |w.ops[x].plan.release| && w.ops[x].plan.release[k].at == e
  }

  lemma ReleaseStepFacts(w: World, x: OpId, r: nat, c: Config)
    requires x in w.ops && Exec(w, x, AtRelease(r), c).Go? && w.ops[x].outcomes != [] && r < |w.ops[x].plan.release|
    ensures var n, e := Exec(w, x, AtRelease(r), c), w.ops[x].plan.release[r].at;
            && n.w.ops == w.ops && n.w.owners == w.owners
            && ((n.stage == AtRelease(r + 1) && n.w == w && (OtherClaims(w, x, e) || e !in w.dest))
                || (n.stage == AtRelease(r) && n.w.dest == w.dest - {e} && !OtherClaims(w, x, e)))
  {
  }

  lemma LetsGoNext(w: World, x: OpId, r: nat, e: Endpoint)
    requires x in w.ops && r < |w.ops[x].plan.release|
    ensures LetsGo(w, x, r, e) <==> LetsGo(w, x, r + 1, e) || (!OtherClaims(w, x, e) && w.ops[x].plan.release[r].at == e)
  {
    if LetsGo(w, x, r, e) {
      var k :| r <= k < |w.ops[x].plan.release| && w.ops[x].plan.release[k].at == e;
      assert k == r || r + 1 <= k;
    }
  }

  /** In a run that finishes, the release loop empties exactly the unclaimed places it names. */
  lemma {:induction false} ReleaseTail(w: World, x: OpId, r: nat, c: Config, e: Endpoint)
    requires x in w.ops && w.ops[x].outcomes != [] && RunFrom(w, x, AtRelease(r), c).Finished?
    ensures At(RunFrom(w, x, AtRelease(r), c).w.dest, e) == if LetsGo(w, x, r, e) then None else At(w.dest, e)
    decreases Phase(AtRelease(r)), Left(w, x, AtRelease(r)), Within(w, x, AtRelease(r))
  {
    var n := Exec(w, x, AtRelease(r), c);
    StepDescends(w, x, AtRelease(r), c);
    if r < |w.ops[x].plan.release| {
      ReleaseStepFacts(w, x, r, c);
      LetsGoNext(w, x, r, e);
      if n.stage == AtRelease(r) {
        SameClaims(w, n.w, x, e);
        ReleaseTail(n.w, x, r, c, e);
      } else {
        ReleaseTail(w, x, r + 1, c, e);
      }
    } else {
      assert n == Go(w, AtFinish) && !LetsGo(w, x, r, e);
      assert RunFrom(w, x, AtFinish, c).w.dest == w.dest;
    }
  }

  // ── Up to the release loop ────────────────────────────────────────────────

  /** Everything asked for is at its place. */
  predicate HoldsTargets(w: World, plan: Plan) {
    forall i | 0 <= i < |plan.targets| :: At(w.dest, plan.targets[i].at) == Some(plan.content)
  }

  /** Before the release loop; the first `k` places already verified in the last pass. */
  predicate OnTheWay(w: World, x: OpId, s: Stage)
    requires x in w.ops
  {
    && NoRename(w.ops[x].plan) && AsAsked(w.ops[x], s) && !s.AtRelease? && !s.AtFinish?
    && (s.AtVerify? ==>
          (s.k <= |w.ops[x].outcomes|
           && forall i | 0 <= i < s.k :: At(w.dest, w.ops[x].outcomes[i].at) == Some(w.ops[x].plan.content)))
  }

  lemma VerifyGoesOn(w: World, x: OpId, k: nat, c: Config)
    requires x in w.ops && OnTheWay(w, x, AtVerify(k)) && Exec(w, x, AtVerify(k), c).Go?
    ensures var n := Exec(w, x, AtVerify(k), c);
            && n.w == w
            && (n.stage == AtRelease(0) || (n.stage == AtVerify(k + 1) && OnTheWay(w, x, AtVerify(k + 1))))
            && (n.stage == AtRelease(0) ==> HoldsTargets(w, w.ops[x].plan))
  {
  }

  lemma StaysOnTheWay(w: World, x: OpId, s: Stage, c: Config)
    requires x in w.ops && OnTheWay(w, x, s) && !s.AtVerify? && Exec(w, x, s, c).Go?
    ensures var n := Exec(w, x, s, c); x in n.w.ops && n.w.ops[x].plan == w.ops[x].plan && OnTheWay(n.w, x, n.stage)
  {
    StepKeepsAsked(w, x, s, c);
    NotYetReleasing(w, x, s, c);
  }

  lemma NotYetReleasing(w: World, x: OpId, s: Stage, c: Config)
    requires x in w.ops && !s.AtVerify? && !s.AtRelease? && !s.AtFinish? && Exec(w, x, s, c).Go?
    ensures var t := Exec(w, x, s, c).stage; !t.AtRelease? && !t.AtFinish? && (t.AtVerify? ==> t.k == 0)
  {
  }

  /** A run that finishes enters its release loop with every target holding the
      content, and with the same claims as at the start. */
  lemma {:induction false} ReachesRelease(w: World, x: OpId, s: Stage, c: Config) returns (v: World)
    requires x in w.ops && OnTheWay(w, x, s) && RunFrom(w, x, s, c).Finished?
    ensures x in v.ops && v.ops[x].plan == w.ops[x].plan && |v.ops[x].outcomes| == |v.ops[x].plan.targets|
    ensures RunFrom(w, x, s, c) == RunFrom(v, x, AtRelease(0), c)
    ensures HoldsTargets(v, v.ops[x].plan)
    ensures forall e :: OtherClaims(v, x, e) <==> OtherClaims(w, x, e)
    decreases Phase(s), Left(w, x, s), Within(w, x, s)
  {
    var n := Exec(w, x, s, c);
    assert n.Go? by {
      StepHasEffect(w, x, s, c);
    }
    StepDescends(w, x, s, c);
    forall e ensures OtherClaims(n.w, x, e) <==> OtherClaims(w, x, e) { StepKeepsClaims(w, x, s, c, e); }
    if s.AtVerify? { VerifyGoesOn(w, x, s.k, c); } else { StaysOnTheWay(w, x, s, c); }
    if n.stage == AtRelease(0) && s.AtVerify? {
      v := n.w;
    } else {
      v := ReachesRelease(n.w, x, n.stage, c);
    }
  }

  // ── The exact condition ───────────────────────────────────────────────────

  /** A completed plan without `rename` has its content at every target exactly
      when each target that it also releases is still claimed by another owner or
      another unfinished operation. */
  lemma DeliversExactly(w: World, x: OpId, c: Config)
    requires x in w.ops && w.ops[x].outcomes == [] && NoRename(w.ops[x].plan) && w.ops[x].plan.targets != []
    requires RunFrom(w, x, AtBase, c).Finished?
    ensures var plan := w.ops[x].plan;
            HoldsTargets(RunFrom(w, x, AtBase, c).w, plan) <==>
            forall i, r | 0 <= i < |plan.targets| && 0 <= r < |plan.release| && plan.targets[i].at == plan.release[r].at ::
              NeededElsewhere(w, x, plan.targets[i].at)
  {
    var plan, f := w.ops[x].plan, RunFrom(w, x, AtBase, c).w;
    var v := ReachesRelease(w, x, AtBase, c);
    assert v.ops[x].outcomes != [];
    forall i | 0 <= i < |plan.targets|
      ensures At(f.dest, plan.targets[i].at) == if LetsGo(v, x, 0, plan.targets[i].at) then None else Some(plan.content)
    {
      ReleaseTail(v, x, 0, c, plan.targets[i].at);
    }
    forall i, r | 0 <= i < |plan.targets| && 0 <= r < |plan.release| && plan.targets[i].at == plan.release[r].at
      ensures LetsGo(v, x, 0, plan.targets[i].at) <==> !NeededElsewhere(w, x, plan.targets[i].at)
    {
      ClaimsExact(w, x, plan.targets[i].at);
      assert v.ops[x].plan.release[r].at == plan.targets[i].at;
    }
  }

  // ── Running again after a failed cleanup ──────────────────────────────────

  /** What a completed application leaves: every destination verified and holding,
      obsolete replicas gone or kept, staging places let go. */
  predicate AsCompleted(w: World, x: OpId) {
    && x in w.ops && w.ops[x].base.Some? && AllDone(w, w.ops[x])
    && Retired(w, x, |w.ops[x].base.value.replicas|)
    && (w.ops[x].outcomes != [] ==> ReleasedUpTo(w, x, |w.ops[x].plan.release|))
  }

  /** Can the content still be staged: from the pin, or else from where it came? */
  predicate CanStage(w: World, x: OpId)
    requires x in w.ops && w.ops[x].base.Some?
  {
    var op := w.ops[x];
    !NeedsPin(op) || (if x in w.pins then w.pins[x] == op.plan.content else SourceHolds(w, op))
  }

  lemma StagingDecides(w: World, x: OpId, c: Config) returns (v: World)
    requires x in w.ops && w.ops[x].base.Some?
    ensures CanStage(w, x) ==>
              && x in v.ops && v.ops[x] == w.ops[x].(staged := v.ops[x].staged) && v.ops == w.ops[x := v.ops[x]]
              && v.dest == w.dest && v.owners == w.owners
              && RunFrom(w, x, AtBase, c) == RunFrom(v, x, AtTarget(0), c)
    ensures !CanStage(w, x) ==> RunFrom(w, x, AtBase, c).Halt?
  {
    SkipBase(w, x, c);
    var op := w.ops[x];
    if !NeedsPin(op) {
      v := w;
      assert Exec(w, x, AtPin, c) == Go(w, AtTarget(0));
      assert w.ops == w.ops[x := w.ops[x]];
    } else {
      var u := if x in w.pins then w else w.(pins := w.pins[x := op.plan.content]);
      v := u.Put(x, op.(staged := true));
      if CanStage(w, x) {
        assert Exec(u, x, AtPin, c) == Go(v, AtTarget(0));
        if x !in w.pins { assert Exec(w, x, AtPin, c) == Go(u, AtPin); }
      } else {
        assert Exec(w, x, AtPin, c).Halt?;
      }
    }
  }

  lemma StagedIsCompleted(w: World, v: World, x: OpId)
    requires AsCompleted(w, x) && x in v.ops && v.ops[x] == w.ops[x].(staged := v.ops[x].staged)
    requires v.ops == w.ops[x := v.ops[x]] && v.dest == w.dest && v.owners == w.owners
    ensures AsCompleted(v, x)
  {
    forall e ensures OtherClaims(v, x, e) <==> OtherClaims(w, x, e) { OwnRecordClaimsNothing(w, v, x, e); }
    forall i | 0 <= i < |v.ops[x].outcomes| ensures Placed(v, v.ops[x], i) {
      assert Placed(w, w.ops[x], i);
    }
    forall j | 0 <= j < |v.ops[x].base.value.replicas|
      ensures KeptReplica(v, x, v.ops[x].base.value.replicas[j]) || v.ops[x].base.value.replicas[j].at !in v.dest
    {
      assert KeptReplica(w, x, w.ops[x].base.value.replicas[j]) || w.ops[x].base.value.replicas[j].at !in w.dest;
    }
  }

  lemma OwnRecordClaimsNothing(w: World, v: World, x: OpId, e: Endpoint)
    requires x in w.ops && x in v.ops && v.ops == w.ops[x := v.ops[x]] && v.owners == w.owners && v.ops[x].owner == w.ops[x].owner
    ensures OtherClaims(v, x, e) <==> OtherClaims(w, x, e)
  {
    if y :| y in w.ops && y != x && !w.ops[y].Terminal() && (Targets(w.ops[y].plan, e) || w.ops[y].plan.source == Some(e)) {
      assert v.ops[y] == w.ops[y];
    }
  }

  lemma CompletedFinishes(w: World, x: OpId, c: Config)
    requires AsCompleted(w, x)
    ensures RunFrom(w, x, AtTarget(0), c).Finished?
  {
    var op := w.ops[x];
    var n, k, m := |op.plan.targets|, |op.base.value.replicas|, if op.outcomes == [] then 0 else |op.plan.release|;
    SkipTargets(w, x, n, c);
    assert Exec(w, x, AtTarget(n), c) == Go(w, AtRetire(0));
    SkipRetired(w, x, k, c);
    assert Exec(w, x, AtRetire(k), c) == Go(w, AtVerify(0));
    SkipVerified(w, x, n, c);
    assert Exec(w, x, AtVerify(n), c) == Go(w, AtRelease(0));
    if op.outcomes != [] { SkipReleased(w, x, m, c); }
    assert Exec(w, x, AtRelease(m), c) == Go(w, AtFinish);
    assert RunFrom(w, x, AtFinish, c).Finished?;
  }

  /** An operation reopened with its effects in place finishes when it is run again
      if and only if its content can still be staged; otherwise it is stuck,
      although everything it promised is done. */
  lemma RetryExactly(w: World, x: OpId, c: Config)
    requires AsCompleted(w, x)
    ensures RunFrom(w, x, AtBase, c).Finished? <==> CanStage(w, x)
    ensures !CanStage(w, x) ==> RunFrom(w, x, AtBase, c).Halt?
  {
    var v := StagingDecides(w, x, c);
    if CanStage(w, x) {
      StagedIsCompleted(w, v, x);
      CompletedFinishes(v, x, c);
    }
  }
}
