/** What each write of an owner row says: at completion, when superseded, adopted or relocated. */
module ReplicaRows {
  import opened Options
  import opened ReplicaModel
  import opened ReplicaApply
  import opened ReplicaMachine

  // ── Completion ────────────────────────────────────────────────────────────

  /** A base replica that stays on the row: a plain copy, or one the plan keeps,
      at a place the operation neither delivered to nor let go. */
  predicate StaysOwned(op: Op, r: Replica) {
    && (!r.mirror || r.at in op.plan.preserve)
    && (forall i | 0 <= i < |op.outcomes| :: op.outcomes[i].at != r.at)
    && (forall i | 0 <= i < |op.plan.release| :: op.plan.release[i].at != r.at)
  }

  lemma {:induction false} PreservedExact(op: Op, replicas: seq<Replica>, q: Replica)
    ensures q in Preserved(op, replicas) <==>
            exists k :: 0 <= k < |replicas| && StaysOwned(op, replicas[k]) && q == replicas[k].(mirror := false)
  {
    if replicas != [] {
      PreservedExact(op, replicas[1..], q);
      if k :| 0 <= k < |replicas[1..]| && StaysOwned(op, replicas[1..][k]) && q == replicas[1..][k].(mirror := false) {
        assert replicas[k + 1] == replicas[1..][k];
      }
      if k :| 0 <= k < |replicas| && StaysOwned(op, replicas[k]) && q == replicas[k].(mirror := false) {
        if k > 0 { assert replicas[1..][k - 1] == replicas[k]; }
      }
    }
  }

  /** The row a completion commits: every destination as it was resolved, with the
      new content, and of the base replicas exactly those that stay, no longer mirrored. */
  lemma FinalRowExact(op: Op, q: Replica)
    requires op.base.Some?
    ensures FinalRow(op).content == op.plan.content
    ensures q in FinalRow(op).replicas <==>
            || (exists i :: 0 <= i < |op.outcomes| &&
                  q == Replica(op.outcomes[i].at, op.outcomes[i].requested, op.plan.content, op.outcomes[i].managed, op.outcomes[i].mirror))
            || (exists k :: 0 <= k < |op.base.value.replicas| && StaysOwned(op, op.base.value.replicas[k])
                  && q == op.base.value.replicas[k].(mirror := false))
  {
    var kept := Preserved(op, op.base.value.replicas);
    PreservedExact(op, op.base.value.replicas, q);
    if i :| 0 <= i < |op.outcomes| && q == AsReplica(op.outcomes[i], op.plan.content) {
      assert FinalRow(op).replicas[|kept| + i] == q;
    }
    if j :| 0 <= j < |FinalRow(op).replicas| && FinalRow(op).replicas[j] == q {
      if j < |kept| { assert q in kept; } else { assert q == AsReplica(op.outcomes[j - |kept|], op.plan.content); }
    }
  }

  // ── Supersession ──────────────────────────────────────────────────────────

  lemma {:induction false} WithHeldExact(rs: seq<Replica>, op: Op, dest: Bytes, n: nat, e: Endpoint)
    requires n <= |op.outcomes|
    ensures ListsAmong(WithHeld(rs, op, dest, n), e) <==>
            ListsAmong(rs, e) || exists i :: 0 <= i < n && op.outcomes[i].at == e && At(dest, e) == Some(op.plan.content)
  {
    if n > 0 {
      WithHeldExact(rs, op, dest, n - 1, e);
      UpsertExact(WithHeld(rs, op, dest, n - 1), AsReplica(op.outcomes[n - 1], op.plan.content), e);
      if i :| 0 <= i < n && op.outcomes[i].at == e && At(dest, e) == Some(op.plan.content) {
        assert i == n - 1 || i < n - 1;
      }
    }
  }

  /** Superseding an operation keeps on its owner's row what was there, and adds
      exactly the destinations that really hold the operation's content by then. */
  lemma SupersededRowExact(m: Machine, x: OpId, x': OpId, plan: Plan, c: Config, e: Endpoint)
    requires (m.pc.Idle? || m.pc.Claimed?) && x in m.w.ops && !m.w.ops[x].Terminal() && x' !in m.w.ops
    requires m.w.ops[x].owner in m.w.owners
    ensures var n, op := Next(m, Supersede(x, x', plan), c), m.w.ops[x];
            && op.owner in n.w.owners && n.w.dest == m.w.dest
            && n.w.ops[x].state == Cancelled && n.w.ops[x].successor == Some(x')
            && n.w.ops[x'].owner == op.owner && n.w.ops[x'].plan == plan && n.w.ops[x'].state == Pending
            && (Lists(n.w.owners[op.owner], e) <==>
                  Lists(m.w.owners[op.owner], e)
                  || exists i :: 0 <= i < |op.outcomes| && op.outcomes[i].at == e && At(m.w.dest, e) == Some(op.plan.content))
  {
    var op := m.w.ops[x];
    WithHeldExact(m.w.owners[op.owner].replicas, op, m.w.dest, |op.outcomes|, e);
  }

  // ── Adoption and relocation ───────────────────────────────────────────────

  predicate FirstOf(rs: seq<Replica>, k: nat, e: Endpoint)
    requires k < |rs|
  {
    rs[k].at == e && forall k' | 0 <= k' < k :: rs[k'].at != e
  }

  lemma {:induction false} AdoptedExact(rs: seq<Replica>, k: nat, e: Endpoint)
    requires k < |rs| && FirstOf(rs, k, e)
    ensures FirstAt(rs, e) == Some(rs[k])
    ensures Adopted(rs, e) == rs[k := rs[k].(managed := true)]
  {
    if k > 0 {
      forall k' | 0 <= k' < k - 1 ensures rs[1..][k'].at != e {
        assert rs[1..][k'] == rs[k' + 1];
      }
      AdoptedExact(rs[1..], k - 1, e);
      assert rs[k := rs[k].(managed := true)] == [rs[0]] + rs[1..][k - 1 := rs[k].(managed := true)];
    } else {
      assert rs[0 := rs[0].(managed := true)] == [rs[0].(managed := true)] + rs[1..];
    }
  }

  /** An owner adopts a replica exactly when it is there as the row says; one flag changes. */
  lemma AdoptionExact(m: Machine, owner: Owner, k: nat, e: Endpoint, c: Config)
    requires m.pc.Idle? && owner in m.w.owners && k < |m.w.owners[owner].replicas| && FirstOf(m.w.owners[owner].replicas, k, e)
    ensures var rs := m.w.owners[owner].replicas;
            Next(m, Adopt(owner, e), c) ==
            if At(m.w.dest, e) == Some(rs[k].content)
            then m.(w := m.w.(owners := m.w.owners[owner := m.w.owners[owner].(replicas := rs[k := rs[k].(managed := true)])]))
            else m
  {
    AdoptedExact(m.w.owners[owner].replicas, k, e);
  }

  /** May this replica's row follow the move of its file? */
  predicate CanFollow(m: Machine, owner: Owner, r: Replica, moved: map<Endpoint, Endpoint>) {
    r.at in moved ==>
      && At(m.w.dest, moved[r.at]) == Some(r.content)
      && forall y | y in m.w.ops && m.w.ops[y].owner == owner :: m.w.ops[y].state == Complete || m.w.ops[y].state == Cancelled
  }

  ghost predicate AllFollow(m: Machine, moved: map<Endpoint, Endpoint>) {
    forall o, k | o in m.w.owners && 0 <= k < |m.w.owners[o].replicas| :: CanFollow(m, o, m.w.owners[o].replicas[k], moved)
  }

  function Followed(r: Replica, moved: map<Endpoint, Endpoint>): Replica {
    if r.at in moved then r.(at := moved[r.at], requested := moved[r.at]) else r
  }

  /** Rows follow a moved file or directory, all of them, exactly when every owner
      that lists a moved file is at rest and the file is at its new place; then
      each listed place is replaced by its new one and nothing else changes. */
  lemma RelocationExact(m: Machine, moved: map<Endpoint, Endpoint>, c: Config)
    requires m.pc.Idle?
    ensures !AllFollow(m, moved) ==> Next(m, Relocate(moved), c) == m
    ensures AllFollow(m, moved) ==>
              var n := Next(m, Relocate(moved), c);
              && n == m.(w := m.w.(owners := n.w.owners)) && n.w.owners.Keys == m.w.owners.Keys
              && (forall o | o in m.w.owners :: |n.w.owners[o].replicas| == |m.w.owners[o].replicas|)
              && forall o, k | o in m.w.owners && 0 <= k < |m.w.owners[o].replicas| ::
                   n.w.owners[o].replicas[k] == Followed(m.w.owners[o].replicas[k], moved)
  {
    if AllFollow(m, moved) {
      forall o | o in m.w.owners && Affected(m.w.owners[o], moved) ensures MayRelocate(m, o, moved) {
        var i :| 0 <= i < |m.w.owners[o].replicas| && m.w.owners[o].replicas[i].at in moved;
        assert CanFollow(m, o, m.w.owners[o].replicas[i], moved);
      }
    } else {
      var o, k :| o in m.w.owners && 0 <= k < |m.w.owners[o].replicas| && !CanFollow(m, o, m.w.owners[o].replicas[k], moved);
      assert Affected(m.w.owners[o], moved) && !MayRelocate(m, o, moved);
    }
  }

  // ── Owners and cleanup ────────────────────────────────────────────────────

  /** An owner is retired exactly when all its operations are finished and the
      archive name is new: its row goes, its operations keep everything but their owner. */
  lemma RetirementExact(m: Machine, owner: Owner, archive: Owner, c: Config)
    requires m.pc.Idle?
    ensures var n := Next(m, RetireOwner(owner, archive), c);
            var may := (forall y | y in m.w.ops && m.w.ops[y].owner == owner :: m.w.ops[y].state == Complete || m.w.ops[y].state == Cancelled)
                       && (forall y | y in m.w.ops :: m.w.ops[y].owner != archive) && archive !in m.w.owners && archive != owner;
            && (!may ==> n == m)
            && (may ==>
                  && n == m.(w := m.w.(ops := n.w.ops, owners := m.w.owners - {owner})) && n.w.ops.Keys == m.w.ops.Keys
                  && forall y | y in m.w.ops ::
                       n.w.ops[y] == if m.w.ops[y].owner == owner then m.w.ops[y].(owner := archive) else m.w.ops[y])
  {
  }

  /** The cleanup of an operation that has just completed gives up its pin and,
      once no unfinished operation is to be staged from it, its captured upload;
      then, and only with both gone, the operation is marked clean. */
  lemma CleanupExact(m: Machine, x: OpId, c: Config)
    requires m.pc == Cleaning(x) && x in m.w.ops && m.w.ops[x].state == Complete && !m.w.ops[x].cleaned
    ensures Next(m, DropPin(x), c) == m.(w := m.w.(pins := m.w.pins - {x}))
    ensures var cached := m.w.ops[x].plan.cached;
            var needed := exists y :: y in m.w.ops && Unfinished(m.w.ops[y]) && m.w.ops[y].plan.cached == cached;
            Next(m, DropBlob(x), c) ==
            if x !in m.w.pins && cached.Some? && !needed then m.(w := m.w.(blobs := m.w.blobs - {cached.value})) else m
    ensures var cached := m.w.ops[x].plan.cached;
            Next(m, EndCleaning(x), c) ==
            if x !in m.w.pins && (cached.Some? ==> cached.value !in m.w.blobs)
            then m.(w := m.w.(ops := m.w.ops[x := m.w.ops[x].(cleaned := true)]), pc := Idle) else m.(pc := Idle)
  {
    assert FinalSuccessor(m.w.ops, x, {}) == Some(x);
    assert MayClean(m, x);
    var cached := m.w.ops[x].plan.cached;
    if cached.Some? {
      assert BlobNeeded(m.w, cached.value) <==> exists y :: y in m.w.ops && Unfinished(m.w.ops[y]) && m.w.ops[y].plan.cached == cached;
    }
  }

  /** Each operation of the chain was superseded by the next; the last one was not. */
  predicate SupersededAlong(ops: Ops, chain: seq<OpId>) {
    && chain != [] && (forall i | 0 <= i < |chain| :: chain[i] in ops)
    && (forall i, j | 0 <= i < j < |chain| :: chain[i] != chain[j])
    && (forall i | 0 <= i < |chain| - 1 :: ops[chain[i]].state == Cancelled && ops[chain[i]].successor == Some(chain[i + 1]))
    && !(ops[chain[|chain| - 1]].state == Cancelled && ops[chain[|chain| - 1]].successor.Some?)
  }

  lemma {:induction false} LastSuccessor(ops: Ops, chain: seq<OpId>, i: nat, visited: set<OpId>)
    requires SupersededAlong(ops, chain) && i < |chain| && forall j | i <= j < |chain| :: chain[j] !in visited
    ensures FinalSuccessor(ops, chain[i], visited) == Some(chain[|chain| - 1])
    decreases |chain| - i
  {
    if i < |chain| - 1 { LastSuccessor(ops, chain, i + 1, visited + {chain[i]}); }
  }

  /** A superseded operation is cleaned up later, between applications, exactly once
      the operation at the end of its chain of successors is complete. */
  lemma SupersededIsCleaned(m: Machine, chain: seq<OpId>, c: Config)
    requires m.pc.Idle? && SupersededAlong(m.w.ops, chain) && |chain| > 1 && !m.w.ops[chain[0]].cleaned
    ensures var last := m.w.ops[chain[|chain| - 1]];
            Next(m, DropPin(chain[0]), c) ==
            if last.state == Complete then m.(w := m.w.(pins := m.w.pins - {chain[0]})) else m
  {
    LastSuccessor(m.w.ops, chain, 0, {});
  }

  /** An operation is started exactly when nothing is in hand, it is unfinished, and
      every earlier one of its owner is finished. */
  lemma StartExact(m: Machine, x: OpId, c: Config)
    requires m.pc.Idle? && x in m.w.ops
    ensures var n := Next(Next(m, Claim(x), c), Begin, c);
            var may := Unfinished(m.w.ops[x])
                       && forall y | y in m.w.ops && m.w.ops[y].owner == m.w.ops[x].owner && m.w.ops[y].no < m.w.ops[x].no ::
                            m.w.ops[y].state == Complete || m.w.ops[y].state == Cancelled;
            n == if may then Machine(m.w.Put(x, m.w.ops[x].(state := Running)), Applying(x, AtBase), m.head) else m
  {
    var running := m.w.ops[x].(state := Running);
    if Unfinished(m.w.ops[x]) && EarlierDone(m.w.ops, x) {
      assert Next(m, Claim(x), c) == Machine(m.w.Put(x, running), Claimed(x, running), m.head);
      assert m.w.Put(x, running).Put(x, running) == m.w.Put(x, running);
    } else {
      assert Next(m, Claim(x), c) == m;
    }
  }

  /** One step of the application in hand: it goes on, or the operation is put down
      blocked with its bytes as they are, or it is committed and its cleanup begins. */
  lemma AdvanceExact(m: Machine, x: OpId, s: Stage, c: Config)
    requires m.pc == Applying(x, s) && x in m.w.ops
    ensures var r, n := Exec(m.w, x, s, c), Next(m, Advance, c);
            && (r.Go? ==> n == Machine(r.w, Applying(x, r.stage), m.head))
            && (r.Finished? ==> n == Machine(r.w, Cleaning(x), m.head))
            && (r.Halt? ==> n == Machine(m.w.Put(x, m.w.ops[x].(state := Blocked)), Idle, m.head))
  {
    StepHasEffect(m.w, x, s, c);
  }

  /** A cleanup that fails saves the operation it was about as pending or blocked, with everything else as committed. */
  lemma ReopenExact(m: Machine, x: OpId, transient: bool, c: Config)
    requires m.pc == Cleaning(x) && x in m.w.ops
    ensures Next(m, Reopen(transient), c) ==
            Machine(m.w.Put(x, m.w.ops[x].(state := if transient then Pending else Blocked)), Idle, m.head)
  {
  }

  /** A crash loses what was in hand; an operation that was running is pending again. */
  lemma CrashExact(m: Machine, c: Config)
    ensures var n := Next(m, Crash, c);
            && n.pc == Idle && n.head == m.head && n.w == m.w.(ops := n.w.ops) && n.w.ops.Keys == m.w.ops.Keys
            && forall y | y in m.w.ops ::
                 n.w.ops[y] == if m.pc.About(y) && m.w.ops[y].state == Running then m.w.ops[y].(state := Pending) else m.w.ops[y]
  {
  }
}
