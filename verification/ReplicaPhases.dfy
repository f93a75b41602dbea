/** One undisturbed application of an operation, phase by phase: exactly when it
    completes, and exactly which bytes it leaves at every place. */
module ReplicaPhases {
  import opened Options
  import opened ReplicaModel
  import opened ReplicaApply
  import opened ReplicaMachine
  import opened ReplicaDelivery

  /** Only destination bytes differ. */
  predicate BytesOnly(w: World, v: World) {
    v == w.(dest := v.dest)
  }

  lemma SameRecordsSameClaims(w: World, v: World, x: OpId, e: Endpoint)
    requires x in w.ops && BytesOnly(w, v)
    ensures OtherClaims(v, x, e) <==> OtherClaims(w, x, e)
  {
  }

  // ── Releasing ─────────────────────────────────────────────────────────────

  /** The first of the releases from `r` on that names its place. */
  predicate FirstRelease(p: Plan, r: nat, k: int)
    requires r <= k < |p.release|
  {
    forall k' | r <= k' < k :: p.release[k'].at != p.release[k].at
  }

  /** Every place to be let go from `r` on is empty or still holds what it should. */
  predicate ReleaseOk(w: World, x: OpId, r: nat)
    requires x in w.ops
  {
    var release := w.ops[x].plan.release;
    forall k | r <= k < |release| && FirstRelease(w.ops[x].plan, r, k) && !OtherClaims(w, x, release[k].at) ::
      release[k].at !in w.dest || w.dest[release[k].at] == release[k].content
  }

  lemma ReleaseOkNext(w: World, v: World, x: OpId, r: nat)
    requires x in w.ops && BytesOnly(w, v) && r < |w.ops[x].plan.release|
    requires var e := w.ops[x].plan.release[r].at; v.dest == w.dest || (v.dest == w.dest - {e} && !OtherClaims(w, x, e))
    requires var e := w.ops[x].plan.release[r].at; OtherClaims(w, x, e) || e !in v.dest
    requires var s := w.ops[x].plan.release[r]; OtherClaims(w, x, s.at) || s.at !in w.dest || w.dest[s.at] == s.content
    ensures ReleaseOk(w, x, r) <==> ReleaseOk(v, x, r + 1)
  {
    var p := w.ops[x].plan;
    forall k | r < k < |p.release| ensures FirstRelease(p, r, k) <==> FirstRelease(p, r + 1, k) && p.release[r].at != p.release[k].at {
    }
    if ReleaseOk(w, x, r) {
      forall k | r + 1 <= k < |p.release| && FirstRelease(p, r + 1, k) && !OtherClaims(v, x, p.release[k].at)
        ensures p.release[k].at !in v.dest || v.dest[p.release[k].at] == p.release[k].content
      {
        if p.release[k].at != p.release[r].at { assert FirstRelease(p, r, k); }
      }
    }
    if ReleaseOk(v, x, r + 1) {
      forall k | r <= k < |p.release| && FirstRelease(p, r, k) && !OtherClaims(w, x, p.release[k].at)
        ensures p.release[k].at !in w.dest || w.dest[p.release[k].at] == p.release[k].content
      {
        if k > r { assert FirstRelease(p, r + 1, k) && p.release[k].at != p.release[r].at; }
      }
    }
  }

  /** The release loop empties the unclaimed places it names and completes, or halts at one that changed. */
  lemma {:induction false} ReleasePhase(w: World, x: OpId, r: nat, c: Config) returns (v: World)
    requires x in w.ops && w.ops[x].base.Some? && w.ops[x].outcomes != [] && r <= |w.ops[x].plan.release|
    ensures BytesOnly(w, v)
    ensures ReleaseOk(w, x, r) ==>
              && RunFrom(w, x, AtRelease(r), c) == RunFrom(v, x, AtFinish, c)
              && forall e :: At(v.dest, e) == if LetsGo(w, x, r, e) then None else At(w.dest, e)
    ensures !ReleaseOk(w, x, r) ==> RunFrom(w, x, AtRelease(r), c).Halt?
    decreases |w.ops[x].plan.release| - r
  {
    var release := w.ops[x].plan.release;
    if r == |release| {
      v := w;
      assert Exec(w, x, AtRelease(r), c) == Go(w, AtFinish);
    } else {
      var s := release[r];
      forall e ensures LetsGo(w, x, r, e) <==> LetsGo(w, x, r + 1, e) || (!OtherClaims(w, x, e) && s.at == e) { LetsGoNext(w, x, r, e); }
      if OtherClaims(w, x, s.at) || s.at !in w.dest {
        assert Exec(w, x, AtRelease(r), c) == Go(w, AtRelease(r + 1));
        ReleaseOkNext(w, w, x, r);
        v := ReleasePhase(w, x, r + 1, c);
      } else if w.dest[s.at] != s.content {
        v := w;
        assert FirstRelease(w.ops[x].plan, r, r);
      } else {
        var u := w.(dest := w.dest - {s.at});
        assert Exec(w, x, AtRelease(r), c) == Go(u, AtRelease(r));
        assert Exec(u, x, AtRelease(r), c) == Go(u, AtRelease(r + 1));
        ReleaseOkNext(w, u, x, r);
        v := ReleasePhase(u, x, r + 1, c);
        var n := r + 1;
        forall e ensures LetsGo(u, x, n, e) <==> LetsGo(w, x, n, e) { SameRecordsSameClaims(w, u, x, e); }
        assert RunFrom(w, x, AtRelease(r), c) == RunFrom(u, x, AtRelease(r), c) == RunFrom(u, x, AtRelease(r + 1), c);
      }
    }
  }

  // ── Retiring ──────────────────────────────────────────────────────────────

  /** A base replica this operation does away with. */
  predicate Goes(w: World, x: OpId, k: int)
    requires x in w.ops && w.ops[x].base.Some? && 0 <= k < |w.ops[x].base.value.replicas|
  {
    !KeptReplica(w, x, w.ops[x].base.value.replicas[k])
  }

  predicate FirstToGo(w: World, x: OpId, j: nat, k: int)
    requires x in w.ops && w.ops[x].base.Some? && j <= k < |w.ops[x].base.value.replicas|
  {
    var replicas := w.ops[x].base.value.replicas;
    Goes(w, x, k) && forall k' | j <= k' < k && replicas[k'].at == replicas[k].at :: !Goes(w, x, k')
  }

  /** Every replica to be retired from `j` on is gone already, or unchanged at a place that supports retirement. */
  predicate RetireOk(w: World, x: OpId, j: nat, c: Config)
    requires x in w.ops && w.ops[x].base.Some?
  {
    var replicas := w.ops[x].base.value.replicas;
    forall k | j <= k < |replicas| && FirstToGo(w, x, j, k) ::
      replicas[k].at !in w.dest || (w.dest[replicas[k].at] == replicas[k].content && c.retires(replicas[k].at))
  }

  /** Will the retire loop from `j` on do away with this place? */
  predicate Retires(w: World, x: OpId, j: nat, e: Endpoint)
    requires x in w.ops && w.ops[x].base.Some?
  {
    exists k :: j <= k < |w.ops[x].base.value.replicas| && Goes(w, x, k) && w.ops[x].base.value.replicas[k].at == e
  }

  lemma SameGoes(w: World, v: World, x: OpId)
    requires x in w.ops && w.ops[x].base.Some? && BytesOnly(w, v)
    ensures forall k | 0 <= k < |w.ops[x].base.value.replicas| :: Goes(v, x, k) <==> Goes(w, x, k)
  {
    forall k | 0 <= k < |w.ops[x].base.value.replicas| ensures Goes(v, x, k) <==> Goes(w, x, k) {
      SameRecordsSameClaims(w, v, x, w.ops[x].base.value.replicas[k].at);
    }
  }

  lemma RetiresNext(w: World, x: OpId, j: nat, e: Endpoint)
    requires x in w.ops && w.ops[x].base.Some? && j < |w.ops[x].base.value.replicas|
    ensures Retires(w, x, j, e) <==> Retires(w, x, j + 1, e) || (Goes(w, x, j) && w.ops[x].base.value.replicas[j].at == e)
  {
    if Retires(w, x, j, e) {
      var k :| j <= k < |w.ops[x].base.value.replicas| && Goes(w, x, k) && w.ops[x].base.value.replicas[k].at == e;
      assert k == j || j + 1 <= k;
    }
  }

  lemma FirstToGoNext(w: World, v: World, x: OpId, j: nat, k: int)
    requires x in w.ops && w.ops[x].base.Some? && BytesOnly(w, v) && j < k < |w.ops[x].base.value.replicas|
    ensures FirstToGo(w, x, j, k) <==>
            FirstToGo(v, x, j + 1, k) && !(Goes(w, x, j) && w.ops[x].base.value.replicas[j].at == w.ops[x].base.value.replicas[k].at)
  {
    SameGoes(w, v, x);
  }

  lemma RetireOkNext(w: World, v: World, x: OpId, j: nat, c: Config)
    requires x in w.ops && w.ops[x].base.Some? && BytesOnly(w, v) && j < |w.ops[x].base.value.replicas|
    requires var r := w.ops[x].base.value.replicas[j]; v.dest == w.dest || (v.dest == w.dest - {r.at} && Goes(w, x, j))
    requires var r := w.ops[x].base.value.replicas[j]; Goes(w, x, j) ==> r.at !in v.dest
    requires var r := w.ops[x].base.value.replicas[j];
             Goes(w, x, j) && r.at in w.dest ==> w.dest[r.at] == r.content && c.retires(r.at)
    ensures RetireOk(w, x, j, c) <==> RetireOk(v, x, j + 1, c)
  {
    var replicas := w.ops[x].base.value.replicas;
    if RetireOk(w, x, j, c) {
      forall k | j + 1 <= k < |replicas| && FirstToGo(v, x, j + 1, k)
        ensures replicas[k].at !in v.dest || (v.dest[replicas[k].at] == replicas[k].content && c.retires(replicas[k].at))
      {
        FirstToGoNext(w, v, x, j, k);
      }
    }
    if RetireOk(v, x, j + 1, c) {
      forall k | j <= k < |replicas| && FirstToGo(w, x, j, k)
        ensures replicas[k].at !in w.dest || (w.dest[replicas[k].at] == replicas[k].content && c.retires(replicas[k].at))
      {
        if k > j { FirstToGoNext(w, v, x, j, k); }
      }
    }
  }

  /** The retire loop empties exactly the places of the replicas that go, or halts at one it may not touch. */
  lemma {:induction false} RetirePhase(w: World, x: OpId, j: nat, c: Config) returns (v: World)
    requires x in w.ops && w.ops[x].base.Some? && j <= |w.ops[x].base.value.replicas|
    ensures BytesOnly(w, v)
    ensures RetireOk(w, x, j, c) ==>
              && RunFrom(w, x, AtRetire(j), c) == RunFrom(v, x, AtVerify(0), c)
              && forall e :: At(v.dest, e) == if Retires(w, x, j, e) then None else At(w.dest, e)
    ensures !RetireOk(w, x, j, c) ==> RunFrom(w, x, AtRetire(j), c).Halt?
    decreases |w.ops[x].base.value.replicas| - j
  {
    var replicas := w.ops[x].base.value.replicas;
    if j == |replicas| {
      v := w;
      assert Exec(w, x, AtRetire(j), c) == Go(w, AtVerify(0));
    } else {
      var r, n := replicas[j], j + 1;
      forall e ensures Retires(w, x, j, e) <==> Retires(w, x, n, e) || (Goes(w, x, j) && r.at == e) { RetiresNext(w, x, j, e); }
      if !Goes(w, x, j) || r.at !in w.dest {
        assert Exec(w, x, AtRetire(j), c) == Go(w, AtRetire(n));
        RetireOkNext(w, w, x, j, c);
        v := RetirePhase(w, x, n, c);
      } else if w.dest[r.at] != r.content || !c.retires(r.at) {
        v := w;
        assert FirstToGo(w, x, j, j);
      } else {
        var u := w.(dest := w.dest - {r.at});
        RetiresOne(w, u, x, j, c);
        RetireOkNext(w, u, x, j, c);
        v := RetirePhase(u, x, n, c);
        forall e ensures Retires(u, x, n, e) <==> Retires(w, x, n, e) { SameGoes(w, u, x); }
      }
    }
  }

  lemma RetiresOne(w: World, u: World, x: OpId, j: nat, c: Config)
    requires x in w.ops && w.ops[x].base.Some? && j < |w.ops[x].base.value.replicas| && Goes(w, x, j)
    requires var r := w.ops[x].base.value.replicas[j];
             At(w.dest, r.at) == Some(r.content) && c.retires(r.at) && u == w.(dest := w.dest - {r.at})
    ensures RunFrom(w, x, AtRetire(j), c) == RunFrom(u, x, AtRetire(j + 1), c)
  {
    assert Exec(w, x, AtRetire(j), c) == Go(u, AtRetire(j));
    assert Exec(u, x, AtRetire(j), c) == Go(u, AtRetire(j + 1));
    assert RunFrom(w, x, AtRetire(j), c) == RunFrom(u, x, AtRetire(j), c);
  }

  // ── Placing ───────────────────────────────────────────────────────────────

  /** The own managed version this target may replace, if there is one. */
  function OwnAt(base: OwnerRow, t: Target, c: Config): Option<Content> {
    var previous := Previous(base.replicas, t.at);
    if previous.Some? && previous.value.managed && previous.value.mirror && c.overwrites(t.at)
    then Some(previous.value.content) else None
  }

  /** Did the managed replica asked for under this name change behind the executor's back? */
  predicate Changed(base: OwnerRow, t: Target, found: Content) {
    var previous := Previous(base.replicas, t.at);
    previous.Some? && previous.value.managed && previous.value.content != found
  }

  /** The destination is free, holds the content, or holds a version that may be
      replaced: its own or any under `overwrite`, and needed by nobody else. */
  predicate Accepts(w: World, x: OpId, t: Target, c: Config)
    requires x in w.ops && w.ops[x].base.Some?
  {
    || t.at !in w.dest || w.dest[t.at] == w.ops[x].plan.content
    || (&& !Changed(w.ops[x].base.value, t, w.dest[t.at])
        && (OwnAt(w.ops[x].base.value, t, c) == Some(w.dest[t.at]) || t.onConflict == Overwrite)
        && !OtherClaims(w, x, t.at))
  }

  /** Outcomes so far: as asked, in place and verified. */
  predicate Underway(w: World, x: OpId, i: nat) {
    && x in w.ops && w.ops[x].base.Some? && NoRename(w.ops[x].plan)
    && |w.ops[x].outcomes| == i <= |w.ops[x].plan.targets|
    && AllPlaced(w, w.ops[x], i)
    && forall k | 0 <= k < i :: w.ops[x].outcomes[k].at == w.ops[x].plan.targets[k].at
  }

  /** Only the operation's outcomes and the bytes differ. */
  predicate OutcomesOnly(w: World, v: World, x: OpId) {
    && x in w.ops && x in v.ops
    && v == w.(dest := v.dest, ops := w.ops[x := w.ops[x].(outcomes := v.ops[x].outcomes)])
  }

  lemma SameOthersSameClaims(w: World, v: World, x: OpId, e: Endpoint)
    requires OutcomesOnly(w, v, x)
    ensures OtherClaims(v, x, e) <==> OtherClaims(w, x, e)
  {
    assert v.ops == w.ops[x := v.ops[x]];
    OwnRecordClaimsNothing(w, v, x, e);
  }

  /** What resolving an asked-for name finds. */
  lemma ResolvesAsked(w: World, x: OpId, i: nat, c: Config)
    requires Underway(w, x, i) && i < |w.ops[x].plan.targets|
    ensures var op, t := w.ops[x], w.ops[x].plan.targets[i];
            var o := ResolveTarget(w, op.base.value, op.plan, t, c);
            && (o.None? <==> t.at in w.dest && w.dest[t.at] != op.plan.content && Changed(op.base.value, t, w.dest[t.at]))
            && (o.Some? ==> o.value.at == t.at && o.value.expected == At(w.dest, t.at) && !o.value.verified
                            && o.value.ownVersion == OwnAt(op.base.value, t, c))
  {
    assert w.ops[x].plan.targets[i].onConflict != Rename;
  }

  /** A destination is the owner's to replace and retire later exactly when it was
      before, nothing was there, the plan adopts it, or some owner manages a
      replica there; a file found with the right content stays its user's. */
  lemma ManagedExactly(w: World, x: OpId, i: nat, c: Config)
    requires Underway(w, x, i) && i < |w.ops[x].plan.targets|
    requires ResolveTarget(w, w.ops[x].base.value, w.ops[x].plan, w.ops[x].plan.targets[i], c).Some?
    ensures var base, t := w.ops[x].base.value, w.ops[x].plan.targets[i];
            var o := ResolveTarget(w, base, w.ops[x].plan, t, c).value;
            && o.requested == t.at && o.mirror == t.mirror
            && (o.managed <==>
                  || t.at !in w.dest || t.adopt
                  || (exists k :: 0 <= k < |base.replicas| && base.replicas[k].requested == t.at && base.replicas[k].managed
                                  && forall k' | 0 <= k' < k :: base.replicas[k'].requested != t.at)
                  || (exists owner, k :: owner in w.owners && 0 <= k < |w.owners[owner].replicas|
                                         && w.owners[owner].replicas[k].at == t.at && w.owners[owner].replicas[k].managed))
  {
    var base, t := w.ops[x].base.value, w.ops[x].plan.targets[i];
    PreviousIsFirst(base.replicas, t.at);
    forall k | 0 <= k < |base.replicas| && base.replicas[k].requested == t.at
               && forall k' | 0 <= k' < k :: base.replicas[k'].requested != t.at
      ensures Previous(base.replicas, t.at) == Some(base.replicas[k])
    {
      PreviousIs(base.replicas, t.at, k);
    }
    forall owner, k | owner in w.owners && 0 <= k < |w.owners[owner].replicas|
                      && w.owners[owner].replicas[k].at == t.at && w.owners[owner].replicas[k].managed
      ensures AnyManagedAt(w.owners, t.at)
    {
      assert ManagedAt(w.owners[owner], t.at);
    }
  }

  /** One target: resolved, placed and verified, or the operation halts there. */
  lemma TargetPhaseStep(w: World, x: OpId, i: nat, c: Config) returns (v: World)
    requires Underway(w, x, i) && i < |w.ops[x].plan.targets|
    ensures Accepts(w, x, w.ops[x].plan.targets[i], c) ==>
              && OutcomesOnly(w, v, x) && Underway(v, x, i + 1)
              && v.dest == w.dest[w.ops[x].plan.targets[i].at := w.ops[x].plan.content]
              && RunFrom(w, x, AtTarget(i), c) == RunFrom(v, x, AtTarget(i + 1), c)
    ensures !Accepts(w, x, w.ops[x].plan.targets[i], c) ==> RunFrom(w, x, AtTarget(i), c).Halt?
  {
    var op, t := w.ops[x], w.ops[x].plan.targets[i];
    ResolvesAsked(w, x, i, c);
    var o := ResolveTarget(w, op.base.value, op.plan, t, c);
    if o.None? {
      v := w;
      assert Exec(w, x, AtTarget(i), c).Halt?;
    } else {
      var u := w.Put(x, op.(outcomes := op.outcomes + [o.value]));
      assert Exec(w, x, AtTarget(i), c) == Go(u, AtPlace(i));
      SameOthersSameClaims(w, u, x, t.at);
      v := PlaceOne(w, u, x, i, o.value, c);
    }
  }

  /** Resolved as `o`, and nothing done about it yet. */
  ghost predicate JustResolved(w: World, u: World, x: OpId, i: nat, o: Outcome, c: Config) {
    && Underway(w, x, i) && i < |w.ops[x].plan.targets| && OutcomesOnly(w, u, x) && u.dest == w.dest
    && u.ops[x].outcomes == w.ops[x].outcomes + [o] && !o.verified
    && var t := w.ops[x].plan.targets[i];
       && o.at == t.at && o.expected == At(w.dest, t.at) && o.ownVersion == OwnAt(w.ops[x].base.value, t, c)
       && (t.at in w.dest && w.dest[t.at] != w.ops[x].plan.content ==> !Changed(w.ops[x].base.value, t, w.dest[t.at]))
       && (OtherClaims(u, x, t.at) <==> OtherClaims(w, x, t.at))
  }

  /** The content at the destination and the outcome verified. */
  function WithPlaced(w: World, x: OpId, o: Outcome): World
    requires x in w.ops
  {
    var op := w.ops[x];
    World(w.ops[x := op.(outcomes := op.outcomes + [o.(verified := true)])], w.owners, w.dest[o.at := op.plan.content], w.pins, w.blobs)
  }

  /** From the resolved destination on. */
  lemma PlaceOne(w: World, u: World, x: OpId, i: nat, o: Outcome, c: Config) returns (v: World)
    requires JustResolved(w, u, x, i, o, c)
    ensures Accepts(w, x, w.ops[x].plan.targets[i], c) ==>
              && OutcomesOnly(w, v, x) && Underway(v, x, i + 1)
              && v.dest == w.dest[w.ops[x].plan.targets[i].at := w.ops[x].plan.content]
              && RunFrom(u, x, AtPlace(i), c) == RunFrom(v, x, AtTarget(i + 1), c)
    ensures !Accepts(w, x, w.ops[x].plan.targets[i], c) ==> RunFrom(u, x, AtPlace(i), c).Halt?
  {
    v := WithPlaced(w, x, o);
    PlacedSoFar(w, v, x, i, o);
    if At(w.dest, o.at) == Some(w.ops[x].plan.content) {
      PlaceHeld(w, u, x, i, o, c);
    } else if Accepts(w, x, w.ops[x].plan.targets[i], c) {
      PlaceAccepted(w, u, x, i, o, c);
    } else {
      assert Exec(u, x, AtPlace(i), c).Halt?;
    }
  }

  lemma PlaceHeld(w: World, u: World, x: OpId, i: nat, o: Outcome, c: Config)
    requires JustResolved(w, u, x, i, o, c) && At(w.dest, o.at) == Some(w.ops[x].plan.content)
    ensures RunFrom(u, x, AtPlace(i), c) == RunFrom(WithPlaced(w, x, o), x, AtTarget(i + 1), c)
  {
    var v := WithPlaced(w, x, o);
    assert u.ops[x].outcomes[i := o.(verified := true)] == v.ops[x].outcomes;
    assert v.dest == w.dest && v == u.Put(x, v.ops[x]);
    assert Exec(u, x, AtPlace(i), c) == Go(v, AtTarget(i + 1));
  }

  lemma PlaceAccepted(w: World, u: World, x: OpId, i: nat, o: Outcome, c: Config)
    requires JustResolved(w, u, x, i, o, c) && At(w.dest, o.at) != Some(w.ops[x].plan.content)
    requires Accepts(w, x, w.ops[x].plan.targets[i], c)
    ensures RunFrom(u, x, AtPlace(i), c) == RunFrom(WithPlaced(w, x, o), x, AtTarget(i + 1), c)
  {
    var v := WithPlaced(w, x, o);
    assert u.ops[x].outcomes[i := o.(verified := true)] == v.ops[x].outcomes;
    var p := u.(dest := v.dest);
    assert Exec(u, x, AtPlace(i), c) == Go(p, AtCheck(i));
    assert v == p.Put(x, v.ops[x]);
    assert Exec(p, x, AtCheck(i), c) == Go(v, AtTarget(i + 1));
    assert RunFrom(u, x, AtPlace(i), c) == RunFrom(p, x, AtCheck(i), c);
  }

  lemma PlacedSoFar(w: World, v: World, x: OpId, i: nat, o: Outcome)
    requires Underway(w, x, i) && i < |w.ops[x].plan.targets| && OutcomesOnly(w, v, x) && o.at == w.ops[x].plan.targets[i].at
    requires v.ops[x].outcomes == w.ops[x].outcomes + [o.(verified := true)]
    requires v.dest == w.dest[o.at := w.ops[x].plan.content]
    ensures Underway(v, x, i + 1)
  {
    forall k | 0 <= k < i + 1
      ensures Placed(v, v.ops[x], k) && v.ops[x].outcomes[k].at == v.ops[x].plan.targets[k].at
    {
      if k < i { assert v.ops[x].outcomes[k] == w.ops[x].outcomes[k] && Placed(w, w.ops[x], k); }
    }
  }

  /** The version a name stands for is that of the first base replica asked for under it. */
  lemma {:induction false} PreviousIsFirst(replicas: seq<Replica>, requested: Endpoint)
    ensures Previous(replicas, requested).None? <==> forall k | 0 <= k < |replicas| :: replicas[k].requested != requested
    ensures Previous(replicas, requested).Some? ==>
              exists k :: 0 <= k < |replicas| && replicas[k] == Previous(replicas, requested).value && replicas[k].requested == requested
                          && forall k' | 0 <= k' < k :: replicas[k'].requested != requested
  {
    if replicas != [] && replicas[0].requested != requested {
      PreviousIsFirst(replicas[1..], requested);
      forall k | 0 < k < |replicas| ensures replicas[k] == replicas[1..][k - 1] {
      }
      if Previous(replicas[1..], requested).Some? {
        var k :| 0 <= k < |replicas[1..]| && replicas[1..][k] == Previous(replicas[1..], requested).value
                 && replicas[1..][k].requested == requested
                 && forall k' | 0 <= k' < k :: replicas[1..][k'].requested != requested;
        assert replicas[k + 1] == Previous(replicas, requested).value;
        forall k' | 0 <= k' < k + 1 ensures replicas[k'].requested != requested {
          if k' > 0 { assert replicas[k'] == replicas[1..][k' - 1]; }
        }
      }
    }
  }

  /** Under `rename`, somebody else's bytes at a name asked for the first time stay,
      and the content lands at a free name. */
  lemma RenameSparesOthers(w: World, x: OpId, i: nat, c: Config) returns (v: World)
    requires x in w.ops && w.ops[x].base.Some? && i == |w.ops[x].outcomes| < |w.ops[x].plan.targets|
    requires var op, t := w.ops[x], w.ops[x].plan.targets[i];
             && t.onConflict == Rename && t.at in w.dest && w.dest[t.at] != op.plan.content
             && (forall k | 0 <= k < |op.base.value.replicas| :: op.base.value.replicas[k].requested != t.at)
             && c.freeName(w.dest, t.at) !in w.dest
    ensures var op, t := w.ops[x], w.ops[x].plan.targets[i];
            && OutcomesOnly(w, v, x) && v.dest == w.dest[c.freeName(w.dest, t.at) := op.plan.content]
            && At(v.dest, t.at) == At(w.dest, t.at)
            && |v.ops[x].outcomes| == i + 1 && v.ops[x].outcomes[i].at == c.freeName(w.dest, t.at) && v.ops[x].outcomes[i].requested == t.at
            && RunFrom(w, x, AtTarget(i), c) == RunFrom(v, x, AtTarget(i + 1), c)
  {
    var op, t := w.ops[x], w.ops[x].plan.targets[i];
    PreviousIsFirst(op.base.value.replicas, t.at);
    var o := Outcome(c.freeName(w.dest, t.at), t.at, true, t.mirror, None, None, false);
    assert ResolveTarget(w, op.base.value, op.plan, t, c) == Some(o);
    v := PlaceFree(w, x, i, o, c);
  }

  /** Under `rename`, a later version of what is mirrored here goes to the name it got before. */
  lemma RenameFollowsItsReplica(w: World, x: OpId, i: nat, k: nat, c: Config) returns (v: World)
    requires x in w.ops && w.ops[x].base.Some? && i == |w.ops[x].outcomes| < |w.ops[x].plan.targets|
    requires k < |w.ops[x].base.value.replicas|
    requires var op, t, r := w.ops[x], w.ops[x].plan.targets[i], w.ops[x].base.value.replicas[k];
             && t.onConflict == Rename && r.requested == t.at && r.managed && r.mirror && c.overwrites(t.at)
             && (forall k' | 0 <= k' < k :: op.base.value.replicas[k'].requested != t.at)
             && At(w.dest, r.at) == Some(r.content) && r.content != op.plan.content && !NeededElsewhere(w, x, r.at)
    ensures var op, r := w.ops[x], w.ops[x].base.value.replicas[k];
            && OutcomesOnly(w, v, x) && v.dest == w.dest[r.at := op.plan.content]
            && |v.ops[x].outcomes| == i + 1 && v.ops[x].outcomes[i].at == r.at
            && RunFrom(w, x, AtTarget(i), c) == RunFrom(v, x, AtTarget(i + 1), c)
  {
    var op, t, r := w.ops[x], w.ops[x].plan.targets[i], w.ops[x].base.value.replicas[k];
    PreviousIs(op.base.value.replicas, t.at, k);
    var o := Outcome(r.at, t.at, true, t.mirror, Some(r.content), Some(r.content), false);
    assert ResolveTarget(w, op.base.value, op.plan, t, c) == Some(o);
    ClaimsExact(w, x, r.at);
    v := PlaceFree(w, x, i, o, c);
  }

  lemma {:induction false} PreviousIs(replicas: seq<Replica>, requested: Endpoint, k: nat)
    requires k < |replicas| && replicas[k].requested == requested
    requires forall k' | 0 <= k' < k :: replicas[k'].requested != requested
    ensures Previous(replicas, requested) == Some(replicas[k])
  {
    if k > 0 {
      forall k' | 0 <= k' < k - 1 ensures replicas[1..][k'].requested != requested {
        assert replicas[1..][k'] == replicas[k' + 1];
      }
      PreviousIs(replicas[1..], requested, k - 1);
    }
  }

  /** A resolved destination that is free, or holds exactly the own version it expects. */
  lemma PlaceFree(w: World, x: OpId, i: nat, o: Outcome, c: Config) returns (v: World)
    requires x in w.ops && w.ops[x].base.Some? && i == |w.ops[x].outcomes| < |w.ops[x].plan.targets| && !o.verified
    requires ResolveTarget(w, w.ops[x].base.value, w.ops[x].plan, w.ops[x].plan.targets[i], c) == Some(o)
    requires At(w.dest, o.at) == o.expected && o.expected != Some(w.ops[x].plan.content)
    requires o.expected.Some? ==> o.ownVersion == o.expected && !OtherClaims(w, x, o.at)
    ensures OutcomesOnly(w, v, x) && v.dest == w.dest[o.at := w.ops[x].plan.content]
    ensures v.ops[x].outcomes == w.ops[x].outcomes + [o.(verified := true)]
    ensures RunFrom(w, x, AtTarget(i), c) == RunFrom(v, x, AtTarget(i + 1), c)
  {
    var op := w.ops[x];
    var u := w.Put(x, op.(outcomes := op.outcomes + [o]));
    assert Exec(w, x, AtTarget(i), c) == Go(u, AtPlace(i));
    SameOthersSameClaims(w, u, x, o.at);
    var p := u.(dest := w.dest[o.at := op.plan.content]);
    assert Exec(u, x, AtPlace(i), c) == Go(p, AtCheck(i));
    var done := op.(outcomes := op.outcomes + [o.(verified := true)]);
    assert (op.outcomes + [o])[i := o.(verified := true)] == done.outcomes;
    v := World(w.ops[x := done], w.owners, p.dest, w.pins, w.blobs);
    assert v == p.Put(x, done);
    assert Exec(p, x, AtCheck(i), c) == Go(v, AtTarget(i + 1));
    assert RunFrom(w, x, AtTarget(i), c) == RunFrom(u, x, AtPlace(i), c) == RunFrom(p, x, AtCheck(i), c);
  }

  predicate FirstTarget(p: Plan, i: nat, k: int)
    requires i <= k < |p.targets|
  {
    forall k' | i <= k' < k :: p.targets[k'].at != p.targets[k].at
  }

  predicate TargetsOk(w: World, x: OpId, i: nat, c: Config)
    requires x in w.ops && w.ops[x].base.Some?
  {
    var targets := w.ops[x].plan.targets;
    forall k | i <= k < |targets| && FirstTarget(w.ops[x].plan, i, k) :: Accepts(w, x, targets[k], c)
  }

  /** Is the place still to be delivered to, from target `i` on? */
  predicate Delivers(w: World, x: OpId, i: nat, e: Endpoint)
    requires x in w.ops
  {
    exists k :: i <= k < |w.ops[x].plan.targets| && w.ops[x].plan.targets[k].at == e
  }

  lemma DeliversNext(w: World, x: OpId, i: nat, e: Endpoint)
    requires x in w.ops && i < |w.ops[x].plan.targets|
    ensures Delivers(w, x, i, e) <==> Delivers(w, x, i + 1, e) || w.ops[x].plan.targets[i].at == e
  {
    if Delivers(w, x, i, e) {
      var k :| i <= k < |w.ops[x].plan.targets| && w.ops[x].plan.targets[k].at == e;
      assert k == i || i + 1 <= k;
    }
  }

  lemma FirstTargetNext(p: Plan, i: nat, k: int)
    requires i < k < |p.targets|
    ensures FirstTarget(p, i, k) <==> FirstTarget(p, i + 1, k) && p.targets[i].at != p.targets[k].at
  {
  }

  lemma AcceptsElsewhere(w: World, v: World, x: OpId, i: nat, k: int, c: Config)
    requires Underway(w, x, i) && i < k < |w.ops[x].plan.targets| && OutcomesOnly(w, v, x)
    requires v.dest == w.dest[w.ops[x].plan.targets[i].at := w.ops[x].plan.content]
    ensures w.ops[x].plan.targets[k].at == w.ops[x].plan.targets[i].at ==> Accepts(v, x, w.ops[x].plan.targets[k], c)
    ensures w.ops[x].plan.targets[k].at != w.ops[x].plan.targets[i].at ==>
              (Accepts(v, x, w.ops[x].plan.targets[k], c) <==> Accepts(w, x, w.ops[x].plan.targets[k], c))
  {
    SameOthersSameClaims(w, v, x, w.ops[x].plan.targets[k].at);
  }

  lemma TargetsOkNext(w: World, v: World, x: OpId, i: nat, c: Config)
    requires Underway(w, x, i) && i < |w.ops[x].plan.targets| && OutcomesOnly(w, v, x)
    requires v.dest == w.dest[w.ops[x].plan.targets[i].at := w.ops[x].plan.content]
    requires Accepts(w, x, w.ops[x].plan.targets[i], c)
    ensures TargetsOk(w, x, i, c) <==> TargetsOk(v, x, i + 1, c)
  {
    var p := w.ops[x].plan;
    if TargetsOk(w, x, i, c) {
      forall k | i + 1 <= k < |p.targets| && FirstTarget(p, i + 1, k) ensures Accepts(v, x, p.targets[k], c) {
        FirstTargetNext(p, i, k);
        AcceptsElsewhere(w, v, x, i, k, c);
      }
    }
    if TargetsOk(v, x, i + 1, c) {
      forall k | i <= k < |p.targets| && FirstTarget(p, i, k) ensures Accepts(w, x, p.targets[k], c) {
        if k > i {
          FirstTargetNext(p, i, k);
          AcceptsElsewhere(w, v, x, i, k, c);
        }
      }
    }
  }

  /** The target loop puts the content at every target, or halts at one that does not accept it. */
  lemma {:induction false} TargetPhase(w: World, x: OpId, i: nat, c: Config) returns (v: World)
    requires Underway(w, x, i)
    ensures TargetsOk(w, x, i, c) ==>
              && OutcomesOnly(w, v, x) && Underway(v, x, |w.ops[x].plan.targets|)
              && RunFrom(w, x, AtTarget(i), c) == RunFrom(v, x, AtRetire(0), c)
              && forall e :: At(v.dest, e) == if Delivers(w, x, i, e) then Some(w.ops[x].plan.content) else At(w.dest, e)
    ensures !TargetsOk(w, x, i, c) ==> RunFrom(w, x, AtTarget(i), c).Halt?
    decreases |w.ops[x].plan.targets| - i
  {
    var targets := w.ops[x].plan.targets;
    if i == |targets| {
      v := w;
      assert Exec(w, x, AtTarget(i), c) == Go(w, AtRetire(0));
      assert w.ops == w.ops[x := w.ops[x]];
    } else {
      assert FirstTarget(w.ops[x].plan, i, i);
      var u := TargetPhaseStep(w, x, i, c);
      v := u;
      if Accepts(w, x, targets[i], c) {
        TargetsOkNext(w, u, x, i, c);
        v := TargetPhase(u, x, i + 1, c);
        var n := i + 1;
        forall e ensures Delivers(w, x, i, e) <==> Delivers(u, x, n, e) || targets[i].at == e { DeliversNext(w, x, i, e); }
        OutcomesChain(w, u, v, x, TargetsOk(w, x, i, c));
      }
    }
  }

  lemma OutcomesChain(w: World, u: World, v: World, x: OpId, ok: bool)
    requires OutcomesOnly(w, u, x) && (ok ==> OutcomesOnly(u, v, x))
    ensures ok ==> OutcomesOnly(w, v, x)
  {
  }

  /** At a resolved destination, whatever others have done there since: the content
      is written exactly when the place is empty and was not verified with something
      there before, or still holds the version seen at resolution, which is the
      operation's own or may be overwritten, and which nobody else needs. */
  lemma PlacingExact(w: World, x: OpId, i: nat, c: Config)
    requires x in w.ops && w.ops[x].base.Some? && i < |w.ops[x].outcomes| && i < |w.ops[x].plan.targets|
    ensures var op, r := w.ops[x], Exec(w, x, AtPlace(i), c);
            var o, found := op.outcomes[i], At(w.dest, op.outcomes[i].at);
            var may := if found.None? then !(o.expected.Some? && o.verified)
                       else found == o.expected && (found == o.ownVersion || op.plan.targets[i].onConflict == Overwrite)
                            && !NeededElsewhere(w, x, o.at);
            && (found == Some(op.plan.content) ==>
                  r == Go(w.Put(x, op.(outcomes := op.outcomes[i := o.(verified := true)])), AtTarget(i + 1)))
            && (found != Some(op.plan.content) ==>
                  if may then r == Go(w.(dest := w.dest[o.at := op.plan.content]), AtCheck(i)) else r.Halt? && r.w == w)
  {
    ClaimsExact(w, x, w.ops[x].outcomes[i].at);
  }

  /** After the write the place is read back: the outcome is verified, or the operation halts. */
  lemma CheckExact(w: World, x: OpId, i: nat, c: Config)
    requires x in w.ops && w.ops[x].base.Some? && i < |w.ops[x].outcomes| && i < |w.ops[x].plan.targets|
    ensures var op, r := w.ops[x], Exec(w, x, AtCheck(i), c);
            if At(w.dest, op.outcomes[i].at) == Some(op.plan.content)
            then r == Go(w.Put(x, op.(outcomes := op.outcomes[i := op.outcomes[i].(verified := true)])), AtTarget(i + 1))
            else r.Halt? && r.w == w
  {
  }

  // ── What a whole application does, told before it starts ──────────────────

  /** The row the operation starts from: its recorded base, or its owner's row, or none. */
  predicate StartsFrom(w: World, x: OpId, row: OwnerRow)
    requires x in w.ops
  {
    var op := w.ops[x];
    if op.base.Some? then op.base == Some(row)
    else if op.owner in w.owners then w.owners[op.owner] == row
    else row == OwnerRow("", [])
  }

  predicate Asked(p: Plan, e: Endpoint) {
    exists i :: 0 <= i < |p.targets| && p.targets[i].at == e
  }

  /** A managed mirror replica that the plan neither delivers to nor keeps, and nobody else needs. */
  predicate Obsolete(w: World, x: OpId, r: Replica)
    requires x in w.ops
  {
    r.managed && r.mirror && !Asked(w.ops[x].plan, r.at) && r.at !in w.ops[x].plan.preserve && !NeededElsewhere(w, x, r.at)
  }

  predicate Emptied(w: World, x: OpId, row: OwnerRow, e: Endpoint)
    requires x in w.ops
  {
    exists k :: 0 <= k < |row.replicas| && row.replicas[k].at == e && Obsolete(w, x, row.replicas[k])
  }

  predicate LetGo(w: World, x: OpId, e: Endpoint)
    requires x in w.ops
  {
    w.ops[x].plan.targets != [] && !NeededElsewhere(w, x, e)
    && exists r :: 0 <= r < |w.ops[x].plan.release| && w.ops[x].plan.release[r].at == e
  }

  /** What is at a place before the staging places are let go. */
  function PlacedAt(w: World, x: OpId, row: OwnerRow, e: Endpoint): Option<Content>
    requires x in w.ops
  {
    if Asked(w.ops[x].plan, e) then Some(w.ops[x].plan.content)
    else if Emptied(w, x, row, e) then None
    else At(w.dest, e)
  }

  function FinalAt(w: World, x: OpId, row: OwnerRow, e: Endpoint): Option<Content>
    requires x in w.ops
  {
    if LetGo(w, x, e) then None else PlacedAt(w, x, row, e)
  }

  /** The content is pinned already, or can be staged: from the captured upload, the
      source, or the first base replica. Without targets and base nothing needs staging. */
  predicate StageReady(w: World, x: OpId, row: OwnerRow)
    requires x in w.ops
  {
    var p := w.ops[x].plan;
    || (p.targets == [] && row.replicas == [])
    || (if x in w.pins then w.pins[x] == p.content
        else if p.cached.Some? then p.cached.value in w.blobs && w.blobs[p.cached.value] == p.content
        else if p.source.Some? then At(w.dest, p.source.value) == Some(p.content)
        else row.replicas != [] && At(w.dest, row.replicas[0].at) == Some(p.content))
  }

  /** Free, already right, or a version that may be replaced. */
  predicate TargetReady(w: World, x: OpId, row: OwnerRow, t: Target, c: Config)
    requires x in w.ops
  {
    || t.at !in w.dest || w.dest[t.at] == w.ops[x].plan.content
    || (&& !Changed(row, t, w.dest[t.at])
        && (OwnAt(row, t, c) == Some(w.dest[t.at]) || t.onConflict == Overwrite)
        && !NeededElsewhere(w, x, t.at))
  }

  predicate TargetsReady(w: World, x: OpId, row: OwnerRow, c: Config)
    requires x in w.ops
  {
    var p := w.ops[x].plan;
    forall k | 0 <= k < |p.targets| && FirstTarget(p, 0, k) :: TargetReady(w, x, row, p.targets[k], c)
  }

  predicate FirstObsolete(w: World, x: OpId, row: OwnerRow, k: int)
    requires x in w.ops && 0 <= k < |row.replicas|
  {
    Obsolete(w, x, row.replicas[k])
    && forall k' | 0 <= k' < k && row.replicas[k'].at == row.replicas[k].at :: !Obsolete(w, x, row.replicas[k'])
  }

  predicate RetireReady(w: World, x: OpId, row: OwnerRow, c: Config)
    requires x in w.ops
  {
    forall k | 0 <= k < |row.replicas| && FirstObsolete(w, x, row, k) ::
      row.replicas[k].at !in w.dest || (w.dest[row.replicas[k].at] == row.replicas[k].content && c.retires(row.replicas[k].at))
  }

  predicate ReleaseReady(w: World, x: OpId, row: OwnerRow)
    requires x in w.ops
  {
    var p := w.ops[x].plan;
    p.targets != [] ==>
      forall r | 0 <= r < |p.release| && FirstRelease(p, 0, r) && !NeededElsewhere(w, x, p.release[r].at) ::
        PlacedAt(w, x, row, p.release[r].at) in {None, Some(p.release[r].content)}
  }

  /** Everything a caller could check before the application starts. */
  predicate MayComplete(w: World, x: OpId, row: OwnerRow, c: Config)
    requires x in w.ops
  {
    StageReady(w, x, row) && TargetsReady(w, x, row, c) && RetireReady(w, x, row, c) && ReleaseReady(w, x, row)
  }

  // From the start of the run to a world within it.

  /** The operation's own record aside, `v` is a world of the same application as `w`. */
  ghost predicate Within'(w: World, v: World, x: OpId, row: OwnerRow) {
    && x in w.ops && x in v.ops && v.ops[x].plan == w.ops[x].plan && v.ops[x].base == Some(row)
    && forall e :: OtherClaims(v, x, e) <==> NeededElsewhere(w, x, e)
  }

  lemma BasedWithin(w: World, x: OpId, row: OwnerRow)
    requires x in w.ops
    ensures Within'(w, w.Put(x, w.ops[x].(base := Some(row))), x, row)
  {
    var v := w.Put(x, w.ops[x].(base := Some(row)));
    forall e ensures OtherClaims(v, x, e) <==> NeededElsewhere(w, x, e) {
      ClaimsExact(w, x, e);
      OwnRecordClaimsNothing(w, v, x, e);
    }
  }

  lemma StagedWithin(w: World, u: World, v: World, x: OpId, row: OwnerRow)
    requires Within'(w, u, x, row) && x in v.ops && v.ops[x] == u.ops[x].(staged := v.ops[x].staged)
    requires v.ops == u.ops[x := v.ops[x]] && v.owners == u.owners
    ensures Within'(w, v, x, row)
  {
    forall e ensures OtherClaims(v, x, e) <==> NeededElsewhere(w, x, e) { OwnRecordClaimsNothing(u, v, x, e); }
  }

  lemma PlacedWithin(w: World, u: World, v: World, x: OpId, row: OwnerRow)
    requires Within'(w, u, x, row) && OutcomesOnly(u, v, x)
    ensures Within'(w, v, x, row)
  {
    forall e ensures OtherClaims(v, x, e) <==> NeededElsewhere(w, x, e) { SameOthersSameClaims(u, v, x, e); }
  }

  lemma BytesWithin(w: World, u: World, v: World, x: OpId, row: OwnerRow)
    requires Within'(w, u, x, row) && BytesOnly(u, v)
    ensures Within'(w, v, x, row)
  {
    forall e ensures OtherClaims(v, x, e) <==> NeededElsewhere(w, x, e) { SameRecordsSameClaims(u, v, x, e); }
  }

  lemma StageReadyExact(w: World, v: World, x: OpId, row: OwnerRow)
    requires x in w.ops && v == w.Put(x, w.ops[x].(base := Some(row)))
    ensures CanStage(v, x) <==> StageReady(w, x, row)
  {
  }

  lemma TargetsReadyExact(w: World, v: World, x: OpId, row: OwnerRow, c: Config)
    requires Within'(w, v, x, row) && v.dest == w.dest
    ensures TargetsOk(v, x, 0, c) <==> TargetsReady(w, x, row, c)
  {
    forall t ensures Accepts(v, x, t, c) <==> TargetReady(w, x, row, t, c) {
    }
  }

  lemma GoesExact(w: World, v: World, x: OpId, row: OwnerRow)
    requires Within'(w, v, x, row) && Underway(v, x, |v.ops[x].plan.targets|)
    ensures forall k | 0 <= k < |row.replicas| :: Goes(v, x, k) <==> Obsolete(w, x, row.replicas[k])
    ensures forall e :: InOutcomes(v.ops[x], e) <==> Asked(w.ops[x].plan, e)
  {
    forall e ensures InOutcomes(v.ops[x], e) <==> Asked(w.ops[x].plan, e) {
      if i :| 0 <= i < |v.ops[x].outcomes| && v.ops[x].outcomes[i].at == e { assert w.ops[x].plan.targets[i].at == e; }
      if i :| 0 <= i < |w.ops[x].plan.targets| && w.ops[x].plan.targets[i].at == e { assert v.ops[x].outcomes[i].at == e; }
    }
  }

  lemma RetireReadyExact(w: World, v: World, x: OpId, row: OwnerRow, c: Config)
    requires Within'(w, v, x, row) && Underway(v, x, |v.ops[x].plan.targets|)
    requires forall e :: At(v.dest, e) == if Asked(w.ops[x].plan, e) then Some(w.ops[x].plan.content) else At(w.dest, e)
    ensures RetireOk(v, x, 0, c) <==> RetireReady(w, x, row, c)
    ensures forall e :: Retires(v, x, 0, e) <==> Emptied(w, x, row, e)
  {
    GoesExact(w, v, x, row);
    forall k | 0 <= k < |row.replicas| ensures FirstToGo(v, x, 0, k) <==> FirstObsolete(w, x, row, k) {
    }
    forall k | 0 <= k < |row.replicas| && FirstObsolete(w, x, row, k)
      ensures At(v.dest, row.replicas[k].at) == At(w.dest, row.replicas[k].at)
    {
    }
    forall e ensures Retires(v, x, 0, e) <==> Emptied(w, x, row, e) {
      if k :| 0 <= k < |row.replicas| && Goes(v, x, k) && row.replicas[k].at == e { assert Obsolete(w, x, row.replicas[k]); }
      if k :| 0 <= k < |row.replicas| && row.replicas[k].at == e && Obsolete(w, x, row.replicas[k]) { assert Goes(v, x, k); }
    }
  }

  lemma ReleaseReadyExact(w: World, v: World, x: OpId, row: OwnerRow)
    requires Within'(w, v, x, row) && w.ops[x].plan.targets != []
    requires forall e :: At(v.dest, e) == PlacedAt(w, x, row, e)
    ensures ReleaseOk(v, x, 0) <==> ReleaseReady(w, x, row)
    ensures forall e :: LetsGo(v, x, 0, e) <==> LetGo(w, x, e)
  {
    forall e ensures (e !in v.dest) == (PlacedAt(w, x, row, e) == None) && (e in v.dest ==> Some(v.dest[e]) == PlacedAt(w, x, row, e)) {
      assert At(v.dest, e) == PlacedAt(w, x, row, e);
    }
  }

  /** The journal and the owner's row at the end of an application that stood at `v`. */
  predicate Committed(v: World, x: OpId, end: World) {
    && x in v.ops && v.ops[x].base.Some? && x in end.ops
    && end.ops == v.ops[x := v.ops[x].(state := Complete, finished := true)]
    && end.owners == v.owners[v.ops[x].owner := FinalRow(end.ops[x])]
    && end.pins == v.pins && end.blobs == v.blobs
  }

  lemma FinishCommits(w: World, x: OpId, c: Config)
    requires x in w.ops && w.ops[x].base.Some?
    ensures var end := RunFrom(w, x, AtFinish, c); end.Finished? && Committed(w, x, end.w) && end.w.dest == w.dest
  {
  }

  /** After the retire loop everything is verified once more, and the staging places go. */
  lemma VerifyAndLetGo(w: World, v: World, x: OpId, row: OwnerRow, c: Config)
    requires Within'(w, v, x, row) && Underway(v, x, |v.ops[x].plan.targets|)
    requires forall e :: At(v.dest, e) == PlacedAt(w, x, row, e)
    ensures var end := RunFrom(v, x, AtVerify(0), c);
            && (end.Finished? <==> ReleaseReady(w, x, row)) && (!ReleaseReady(w, x, row) ==> end.Halt?)
            && (end.Finished? ==> Committed(v, x, end.w) && forall e :: At(end.w.dest, e) == FinalAt(w, x, row, e))
  {
    var n := |v.ops[x].outcomes|;
    SkipVerified(v, x, n, c);
    assert Exec(v, x, AtVerify(n), c) == Go(v, AtRelease(0));
    if n > 0 {
      ReleaseReadyExact(w, v, x, row);
      var f := ReleasePhase(v, x, 0, c);
      if ReleaseOk(v, x, 0) { FinishCommits(f, x, c); }
    } else {
      assert Exec(v, x, AtRelease(0), c) == Go(v, AtFinish);
      FinishCommits(v, x, c);
    }
  }

  /** After the target loop: obsolete replicas go, and then the rest. */
  lemma RetireAndLetGo(w: World, v: World, x: OpId, row: OwnerRow, c: Config)
    requires Within'(w, v, x, row) && Underway(v, x, |v.ops[x].plan.targets|)
    requires forall e :: At(v.dest, e) == if Asked(w.ops[x].plan, e) then Some(w.ops[x].plan.content) else At(w.dest, e)
    ensures var end, ok := RunFrom(v, x, AtRetire(0), c), RetireReady(w, x, row, c) && ReleaseReady(w, x, row);
            && (end.Finished? <==> ok) && (!ok ==> end.Halt?)
            && (end.Finished? ==> Committed(v, x, end.w) && forall e :: At(end.w.dest, e) == FinalAt(w, x, row, e))
  {
    RetireReadyExact(w, v, x, row, c);
    var u := RetirePhase(v, x, 0, c);
    if RetireOk(v, x, 0, c) {
      BytesWithin(w, v, u, x, row);
      forall e ensures At(u.dest, e) == PlacedAt(w, x, row, e) {
        assert Asked(w.ops[x].plan, e) ==> !Emptied(w, x, row, e);
      }
      RetiredUnderway(w, v, u, x, row);
      VerifyAndLetGo(w, u, x, row, c);
    }
  }

  lemma RetiredUnderway(w: World, v: World, u: World, x: OpId, row: OwnerRow)
    requires Within'(w, v, x, row) && Underway(v, x, |v.ops[x].plan.targets|) && BytesOnly(v, u)
    requires forall e :: At(u.dest, e) == PlacedAt(w, x, row, e)
    ensures Underway(u, x, |u.ops[x].plan.targets|)
  {
    forall k | 0 <= k < |u.ops[x].outcomes| ensures Placed(u, u.ops[x], k) {
      assert Placed(v, v.ops[x], k);
      assert w.ops[x].plan.targets[k].at == u.ops[x].outcomes[k].at;
      assert Asked(w.ops[x].plan, u.ops[x].outcomes[k].at);
    }
  }

  /** What a completed application wrote besides bytes. */
  predicate Records(w: World, x: OpId, row: OwnerRow, end: World)
    requires x in w.ops
  {
    && x in end.ops && end.ops == w.ops[x := end.ops[x]]
    && var op := end.ops[x];
       && op.state == Complete && op.finished && op.plan == w.ops[x].plan && op.base == Some(row) && op.owner == w.ops[x].owner
       && |op.outcomes| == |op.plan.targets|
       && (forall i | 0 <= i < |op.outcomes| :: op.outcomes[i].at == op.plan.targets[i].at && op.outcomes[i].verified)
       && end.owners == w.owners[op.owner := FinalRow(op)]
  }

  /** An application that nobody disturbs completes if and only if it may, judged
      before it starts; and then every place of the world is as foretold: the
      content at every target, obsolete replicas and unneeded staging places
      gone, everything else untouched. The operation is complete, its destinations
      are the asked ones, and only its own record and its owner's row were written. */
  lemma AppliesExactly(w: World, x: OpId, row: OwnerRow, c: Config)
    requires x in w.ops && w.ops[x].outcomes == [] && NoRename(w.ops[x].plan) && StartsFrom(w, x, row)
    ensures var end := RunFrom(w, x, AtBase, c);
            && (end.Finished? <==> MayComplete(w, x, row, c))
            && (!MayComplete(w, x, row, c) ==> end.Halt?)
            && (end.Finished? ==> forall e :: At(end.w.dest, e) == FinalAt(w, x, row, e))
            && (end.Finished? ==> Records(w, x, row, end.w))
  {
    var b := w.Put(x, w.ops[x].(base := Some(row)));
    BasedRuns(w, b, x, row, c);
    BasedWithin(w, x, row);
    StageReadyExact(w, b, x, row);
    var s := StagingDecides(b, x, c);
    if CanStage(b, x) {
      StagedWithin(w, b, s, x, row);
      TargetsReadyExact(w, s, x, row, c);
      var v := TargetPhase(s, x, 0, c);
      if TargetsOk(s, x, 0, c) {
        PlacedWithin(w, s, v, x, row);
        forall e ensures Delivers(s, x, 0, e) <==> Asked(w.ops[x].plan, e) {
        }
        RetireAndLetGo(w, v, x, row, c);
        if RunFrom(v, x, AtRetire(0), c).Finished? { RecordsWritten(w, b, s, v, x, row, RunFrom(v, x, AtRetire(0), c).w); }
      }
    }
  }

  lemma RecordsWritten(w: World, b: World, s: World, v: World, x: OpId, row: OwnerRow, end: World)
    requires x in w.ops && b == w.Put(x, w.ops[x].(base := Some(row)))
    requires x in s.ops && s.ops[x] == b.ops[x].(staged := s.ops[x].staged) && s.ops == b.ops[x := s.ops[x]] && s.owners == b.owners
    requires OutcomesOnly(s, v, x) && Underway(v, x, |v.ops[x].plan.targets|) && Committed(v, x, end)
    ensures Records(w, x, row, end)
  {
    assert end.ops == w.ops[x := end.ops[x]];
    forall i | 0 <= i < |v.ops[x].outcomes| ensures v.ops[x].outcomes[i].verified {
      assert Placed(v, v.ops[x], i);
    }
  }

  lemma BasedRuns(w: World, b: World, x: OpId, row: OwnerRow, c: Config)
    requires x in w.ops && StartsFrom(w, x, row) && b == w.Put(x, w.ops[x].(base := Some(row)))
    ensures RunFrom(w, x, AtBase, c) == RunFrom(b, x, AtBase, c)
  {
    assert Exec(w, x, AtBase, c) == Go(b, AtPin);
    assert b.Put(x, b.ops[x].(base := Some(row))) == b;
    assert Exec(b, x, AtBase, c) == Go(b, AtPin);
  }

  /** The same of an application that ended in `end`, for whatever row it starts from. */
  ghost predicate AsForetold(w: World, x: OpId, c: Config, end: World, completed: bool)
    requires x in w.ops
  {
    w.ops[x].outcomes == [] && NoRename(w.ops[x].plan) ==>
      forall row | StartsFrom(w, x, row) ::
        && (completed <==> MayComplete(w, x, row, c))
        && (completed ==> Records(w, x, row, end) && forall e :: At(end.dest, e) == FinalAt(w, x, row, e))
  }

  lemma RunIsForetold(w: World, x: OpId, c: Config)
    requires x in w.ops
    ensures AsForetold(w, x, c, RunFrom(w, x, AtBase, c).w, RunFrom(w, x, AtBase, c).Finished?)
  {
    if w.ops[x].outcomes == [] && NoRename(w.ops[x].plan) {
      forall row | StartsFrom(w, x, row)
        ensures RunFrom(w, x, AtBase, c).Finished? <==> MayComplete(w, x, row, c)
        ensures RunFrom(w, x, AtBase, c).Finished? ==>
                  Records(w, x, row, RunFrom(w, x, AtBase, c).w)
                  && forall e :: At(RunFrom(w, x, AtBase, c).w.dest, e) == FinalAt(w, x, row, e)
      {
        AppliesExactly(w, x, row, c);
      }
    }
  }
}
