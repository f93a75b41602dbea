/** The executor's application of one operation as the loops that run it, tied
    step for step to the chain of durable steps the crash theorems are about. */
module ReplicaExecutor {
  import opened Options
  import opened ReplicaModel
  import opened ReplicaApply
  import opened ReplicaPhases

  lemma BaseRuns(w: World, x: OpId, c: Config)
    requires x in w.ops
    ensures RunFrom(w, x, AtBase, c) == RunFrom(w.Put(x, w.ops[x].(base := Some(BaseOf(w, w.ops[x])))), x, AtPin, c)
  {
    assert Exec(w, x, AtBase, c) == Go(w.Put(x, w.ops[x].(base := Some(BaseOf(w, w.ops[x])))), AtPin);
  }

  class Executor {
    const c: Config
    var ops: Ops
    var owners: Owners
    var dest: Bytes
    var pins: map<OpId, Content>
    var blobs: map<CacheKey, Content>

    ghost function W(): World
      reads this
    {
      World(ops, owners, dest, pins, blobs)
    }

    constructor (c: Config)
      ensures this.c == c && W() == World(map[], map[], map[], map[], map[])
    {
      this.c := c;
      ops, owners, dest, pins, blobs := map[], map[], map[], map[], map[];
    }

    /** Can the accepted content be read from the captured upload, or from the source? */
    method CheckSource(op: Op) returns (failure: Option<string>)
      requires op.base.Some?
      ensures failure == if SourceHolds(W(), op) then None else Some(SourceFailure(W(), op))
    {
      if op.plan.cached.Some? {
        if op.plan.cached.value !in blobs { return Some("IO_ERROR"); }
        if blobs[op.plan.cached.value] != op.plan.content { return Some("STAGING_CORRUPT"); }
        return None;
      }
      var source := SourceOf(op);
      if source.None? { return Some("NO_SOURCE"); }
      if source.value !in dest { return Some("SOURCE_MISSING"); }
      if dest[source.value] != op.plan.content { return Some("SOURCE_CHANGED"); }
      return None;
    }

    /** Keeps an immutable copy of the accepted content for the whole operation. */
    method StageContent(x: OpId) returns (failure: Option<string>)
      requires x in ops && ops[x].base.Some?
      modifies this
      ensures x in ops && ops[x].base == old(ops[x].base) && ops[x].plan == old(ops[x].plan) && ops[x].outcomes == old(ops[x].outcomes)
      ensures failure.None? ==> RunFrom(old(W()), x, AtPin, c) == RunFrom(W(), x, AtTarget(0), c)
      ensures failure.Some? ==> RunFrom(old(W()), x, AtPin, c) == Halt(W(), failure.value)
    {
      var op := ops[x];
      if !NeedsPin(op) { return None; }
      if x !in pins {
        failure := CheckSource(op);
        if failure.Some? { return; }
        pins := pins[x := op.plan.content];
        assert RunFrom(old(W()), x, AtPin, c) == RunFrom(W(), x, AtPin, c);
      }
      if pins[x] != op.plan.content { return Some("STAGING_CORRUPT"); }
      ops := ops[x := op.(staged := true)];
      return None;
    }

    /** Resolves destination `i` once, then places and verifies it. */
    method PlaceTarget(x: OpId, i: nat) returns (failure: Option<string>)
      requires x in ops && ops[x].base.Some? && i <= |ops[x].outcomes| <= |ops[x].plan.targets| && i < |ops[x].plan.targets|
      modifies `ops, `dest
      ensures x in ops && ops[x].base == old(ops[x].base) && ops[x].plan == old(ops[x].plan)
      ensures |ops[x].outcomes| <= |ops[x].plan.targets| && |old(ops[x].outcomes)| <= |ops[x].outcomes|
      ensures failure.None? ==> i < |ops[x].outcomes|
      ensures failure.None? ==> RunFrom(old(W()), x, AtTarget(i), c) == RunFrom(W(), x, AtTarget(i + 1), c)
      ensures failure.Some? ==> RunFrom(old(W()), x, AtTarget(i), c) == Halt(W(), failure.value)
    {
      if i >= |ops[x].outcomes| {
        var o := ResolveTarget(World(ops, owners, dest, pins, blobs), ops[x].base.value, ops[x].plan, ops[x].plan.targets[i], c);
        if o.None? { return Some("TARGET_CHANGED"); }
        ops := ops[x := ops[x].(outcomes := ops[x].outcomes + [o.value])];
      }
      assert RunFrom(old(W()), x, AtTarget(i), c) == RunFrom(W(), x, AtPlace(i), c);
      failure := PlaceResolved(x, i);
    }

    /** Writes the destination unless it already holds the content, refusing anything it may not replace. */
    method PlaceResolved(x: OpId, i: nat) returns (failure: Option<string>)
      requires x in ops && ops[x].base.Some? && i < |ops[x].outcomes| <= |ops[x].plan.targets|
      modifies `ops, `dest
      ensures x in ops && ops[x].base == old(ops[x].base) && ops[x].plan == old(ops[x].plan)
      ensures |ops[x].outcomes| == |old(ops[x].outcomes)|
      ensures failure.None? ==> RunFrom(old(W()), x, AtPlace(i), c) == RunFrom(W(), x, AtTarget(i + 1), c)
      ensures failure.Some? ==> RunFrom(old(W()), x, AtPlace(i), c) == Halt(W(), failure.value)
    {
      var op := ops[x];
      var o, t := op.outcomes[i], op.plan.targets[i];
      var found := At(dest, o.at);
      if found != Some(op.plan.content) {
        if found.Some? && found != o.ownVersion && t.onConflict != Overwrite { return Some("TARGET_CONFLICT"); }
        if found.Some? && OtherClaims(World(ops, owners, dest, pins, blobs), x, o.at) { return Some("SHARED_REPLICA"); }
        if found.Some? && found != o.expected { return Some("TARGET_CHANGED"); }
        if found.None? && o.expected.Some? && o.verified { return Some("TARGET_CHANGED"); }
        ghost var unplaced := W();
        dest := dest[o.at := op.plan.content];
        assert RunFrom(unplaced, x, AtPlace(i), c) == RunFrom(W(), x, AtCheck(i), c);
        assert RunFrom(W(), x, AtCheck(i), c) == RunFrom(W(), x, AtPlace(i), c);
      }
      MarkVerified(x, i);
      return None;
    }

    /** Records that a destination was found holding the content. */
    method MarkVerified(x: OpId, i: nat)
      requires x in ops && ops[x].base.Some? && i < |ops[x].outcomes| <= |ops[x].plan.targets|
      requires At(dest, ops[x].outcomes[i].at) == Some(ops[x].plan.content)
      modifies `ops
      ensures x in ops && ops[x].base == old(ops[x].base) && ops[x].plan == old(ops[x].plan)
      ensures |ops[x].outcomes| == |old(ops[x].outcomes)|
      ensures RunFrom(old(W()), x, AtPlace(i), c) == RunFrom(W(), x, AtTarget(i + 1), c)
    {
      var op := ops[x];
      ops := ops[x := op.(outcomes := op.outcomes[i := op.outcomes[i].(verified := true)])];
    }

    /** Removes one obsolete managed replica nobody else needs. */
    method RetireReplica(x: OpId, j: nat) returns (failure: Option<string>)
      requires x in ops && ops[x].base.Some? && j < |ops[x].base.value.replicas|
      modifies `dest
      ensures failure.None? ==> RunFrom(old(W()), x, AtRetire(j), c) == RunFrom(W(), x, AtRetire(j + 1), c)
      ensures failure.Some? ==> RunFrom(old(W()), x, AtRetire(j), c) == Halt(W(), failure.value)
    {
      var former := ops[x].base.value.replicas[j];
      var found := At(dest, former.at);
      if KeptReplica(World(ops, owners, dest, pins, blobs), x, former) || found.None? { return None; }
      if found != Some(former.content) { return Some("TARGET_CHANGED"); }
      if !c.retires(former.at) { return Some("RECOVERY_UNAVAILABLE"); }
      dest := dest - {former.at};
      assert RunFrom(old(W()), x, AtRetire(j), c) == RunFrom(W(), x, AtRetire(j), c);
      return None;
    }

    /** Lets one staging place go, unless somebody else needs it. */
    method ReleaseStaging(x: OpId, r: nat) returns (failure: Option<string>)
      requires x in ops && ops[x].base.Some? && ops[x].outcomes != [] && r < |ops[x].plan.release|
      modifies `dest
      ensures failure.None? ==> RunFrom(old(W()), x, AtRelease(r), c) == RunFrom(W(), x, AtRelease(r + 1), c)
      ensures failure.Some? ==> RunFrom(old(W()), x, AtRelease(r), c) == Halt(W(), failure.value)
    {
      var loc := ops[x].plan.release[r];
      var found := At(dest, loc.at);
      if OtherClaims(World(ops, owners, dest, pins, blobs), x, loc.at) || found.None? { return None; }
      if found != Some(loc.content) { return Some("SOURCE_CHANGED"); }
      dest := dest - {loc.at};
      assert RunFrom(old(W()), x, AtRelease(r), c) == RunFrom(W(), x, AtRelease(r), c);
      return None;
    }

    /** Stage, place all, retire, verify all again, release, commit. */
    method Apply(x: OpId) returns (failure: Option<string>)
      requires x in ops && |ops[x].outcomes| <= |ops[x].plan.targets|
      modifies this
      ensures failure.None? ==> RunFrom(old(W()), x, AtBase, c) == Finished(W())
      ensures failure.Some? ==> RunFrom(old(W()), x, AtBase, c) == Halt(W(), failure.value)
      ensures AsForetold(old(W()), x, c, W(), failure.None?)
    {
      ghost var start := W();
      RunIsForetold(start, x, c);
      FixBase(x);
      failure := StageContent(x);
      if failure.Some? { return; }
      failure := PlaceAll(x, start);
      if failure.Some? { return; }
      failure := RetireAll(x, start);
      if failure.Some? { return; }
      failure := VerifyAndRelease(x, start);
      if failure.Some? { return; }
      Commit(x);
    }

    /** The owner row the operation starts from is persisted before anything else. */
    method FixBase(x: OpId)
      requires x in ops && |ops[x].outcomes| <= |ops[x].plan.targets|
      modifies `ops
      ensures x in ops && ops[x].base.Some? && |ops[x].outcomes| <= |ops[x].plan.targets|
      ensures RunFrom(old(W()), x, AtBase, c) == RunFrom(W(), x, AtPin, c)
    {
      BaseRuns(W(), x, c);
      var owner := ops[x].owner;
      var row := if ops[x].base.Some? then ops[x].base.value
                 else if owner in owners then owners[owner] else OwnerRow("", []);
      ghost var fixed := W().Put(x, ops[x].(base := Some(row)));
      ops := ops[x := ops[x].(base := Some(row))];
      assert W() == fixed;
    }

    /** Ownership and completion are written together. */
    method Commit(x: OpId)
      requires x in ops && ops[x].base.Some?
      modifies `ops, `owners
      ensures RunFrom(old(W()), x, AtFinish, c) == Finished(W())
    {
      var done := ops[x].(state := Complete, finished := true);
      owners := owners[done.owner := FinalRow(done)];
      ops := ops[x := done];
    }

    method PlaceAll(x: OpId, ghost start: World) returns (failure: Option<string>)
      requires x in ops && ops[x].base.Some? && |ops[x].outcomes| <= |ops[x].plan.targets|
      requires x in start.ops && RunFrom(start, x, AtBase, c) == RunFrom(W(), x, AtTarget(0), c)
      modifies `ops, `dest
      ensures x in ops && ops[x].base.Some?
      ensures failure.None? ==> RunFrom(start, x, AtBase, c) == RunFrom(W(), x, AtRetire(0), c)
      ensures failure.Some? ==> RunFrom(start, x, AtBase, c) == Halt(W(), failure.value)
    {
      var i := 0;
      while i < |ops[x].plan.targets|
        invariant x in ops && ops[x].base.Some? && ops[x].plan == old(ops[x].plan)
        invariant i <= |ops[x].outcomes| <= |ops[x].plan.targets|
        invariant RunFrom(start, x, AtBase, c) == RunFrom(W(), x, AtTarget(i), c)
        decreases |old(ops[x].plan.targets)| - i
      {
        failure := PlaceTarget(x, i);
        if failure.Some? { return; }
        i := i + 1;
      }
      return None;
    }

    method RetireAll(x: OpId, ghost start: World) returns (failure: Option<string>)
      requires x in ops && ops[x].base.Some?
      requires x in start.ops && RunFrom(start, x, AtBase, c) == RunFrom(W(), x, AtRetire(0), c)
      modifies `dest
      ensures failure.None? ==> RunFrom(start, x, AtBase, c) == RunFrom(W(), x, AtVerify(0), c)
      ensures failure.Some? ==> RunFrom(start, x, AtBase, c) == Halt(W(), failure.value)
    {
      for j := 0 to |ops[x].base.value.replicas|
        invariant RunFrom(start, x, AtBase, c) == RunFrom(W(), x, AtRetire(j), c)
      {
        failure := RetireReplica(x, j);
        if failure.Some? { return; }
      }
      return None;
    }

    /** Not one staging place is released before every destination was verified again. */
    method VerifyAndRelease(x: OpId, ghost start: World) returns (failure: Option<string>)
      requires x in ops && ops[x].base.Some?
      requires x in start.ops && RunFrom(start, x, AtBase, c) == RunFrom(W(), x, AtVerify(0), c)
      modifies `dest
      ensures failure.None? ==> RunFrom(start, x, AtBase, c) == RunFrom(W(), x, AtFinish, c)
      ensures failure.Some? ==> RunFrom(start, x, AtBase, c) == Halt(W(), failure.value)
      ensures (exists i | 0 <= i < |ops[x].outcomes| :: At(old(dest), ops[x].outcomes[i].at) != Some(ops[x].plan.content)) ==>
                dest == old(dest) && failure.Some?
    {
      for k := 0 to |ops[x].outcomes|
        invariant forall i | 0 <= i < k :: At(dest, ops[x].outcomes[i].at) == Some(ops[x].plan.content)
        invariant RunFrom(start, x, AtBase, c) == RunFrom(W(), x, AtVerify(k), c)
      {
        if At(dest, ops[x].outcomes[k].at) != Some(ops[x].plan.content) { return Some("VERIFY_FAILED"); }
      }
      if ops[x].outcomes != [] {
        for r := 0 to |ops[x].plan.release|
          invariant RunFrom(start, x, AtBase, c) == RunFrom(W(), x, AtRelease(r), c)
        {
          failure := ReleaseStaging(x, r);
          if failure.Some? { return; }
        }
      }
      return None;
    }
  }
}
