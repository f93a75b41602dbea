/** Per-owner order over whole runs of the executor, and the two ways in which a
    finished operation becomes unfinished again. */
module ReplicaOrder {
  import opened Options
  import opened ReplicaModel
  import opened ReplicaApply
  import opened ReplicaMachine
  import ReplicaLedger

  // ── Finished is not for ever ──────────────────────────────────────────────

  /** A completed or cancelled operation is unfinished again exactly when the
      cleanup right after its own completion fails, or when it was superseded
      between its claim and its start: the claim's copy then overwrites the cancellation. */
  lemma TerminalEndsExactly(m: Machine, move: Move, x: OpId, c: Config)
    requires x in m.w.ops && m.w.ops[x].Terminal() && Settled(m)
    ensures x in Next(m, move, c).w.ops
    ensures !Next(m, move, c).w.ops[x].Terminal() <==>
            (move.Reopen? && m.pc == Cleaning(x)) || (move.Begin? && m.pc.Claimed? && m.pc.x == x)
  {
    match move
    case Advance =>
      if m.pc.Applying? {
        assert m.pc.x != x;
        StepHasEffect(m.w, m.pc.x, m.pc.stage, c);
      }
    case Supersede(_, _, _) => case RetireOwner(_, _) =>
    case Outsider(_, _) => case Adopt(_, _) => case Relocate(_) => case DropPin(_) => case DropBlob(_) =>
    case Claim(y) => ClaimRestands(m, y, x, c);
    case Begin => BeginRestands(m, x, c);
    case Crash => CrashRestands(m, x, c);
    case Submit(id, owner, plan) => SubmitRestands(m, id, owner, plan, x, c);
    case EndCleaning(y) => EndCleaningRestands(m, y, x, c);
    case Reopen(transient) => ReopenRestands(m, transient, x, c);
  }

  /** What was asked and what has been recorded are as before. */
  predicate Restood(ops: Ops, ops': Ops, x: OpId)
    requires x in ops
  {
    x in ops' && ops'[x].plan == ops[x].plan && ops'[x].base == ops[x].base && ops'[x].outcomes == ops[x].outcomes
  }

  lemma ClaimRestands(m: Machine, y: OpId, x: OpId, c: Config)
    requires x in m.w.ops
    ensures Restood(m.w.ops, Next(m, Claim(y), c).w.ops, x)
    ensures m.w.ops[x].Terminal() ==> Next(m, Claim(y), c).w.ops[x].Terminal()
  {
    var n := Next(m, Claim(y), c);
    if n.w.ops != m.w.ops {
      assert y in m.w.ops && !m.w.ops[y].Terminal() && n.w.ops == m.w.ops[y := m.w.ops[y].(state := Running)];
    }
  }

  lemma BeginRestands(m: Machine, x: OpId, c: Config)
    requires x in m.w.ops && Settled(m)
    ensures Restood(m.w.ops, Next(m, Begin, c).w.ops, x)
    ensures m.w.ops[x].Terminal() ==> (Next(m, Begin, c).w.ops[x].Terminal() <==> !(m.pc.Claimed? && m.pc.x == x))
  {
  }

  lemma CrashRestands(m: Machine, x: OpId, c: Config)
    requires x in m.w.ops
    ensures Restood(m.w.ops, Next(m, Crash, c).w.ops, x)
    ensures m.w.ops[x].Terminal() ==> Next(m, Crash, c).w.ops[x].Terminal()
  {
  }

  lemma SubmitRestands(m: Machine, id: OpId, owner: Owner, plan: Plan, x: OpId, c: Config)
    requires x in m.w.ops
    ensures Restood(m.w.ops, Next(m, Submit(id, owner, plan), c).w.ops, x)
    ensures m.w.ops[x].Terminal() ==> Next(m, Submit(id, owner, plan), c).w.ops[x].Terminal()
  {
  }

  lemma EndCleaningRestands(m: Machine, y: OpId, x: OpId, c: Config)
    requires x in m.w.ops
    ensures Restood(m.w.ops, Next(m, EndCleaning(y), c).w.ops, x)
    ensures m.w.ops[x].Terminal() ==> Next(m, EndCleaning(y), c).w.ops[x].Terminal()
  {
    var n := Next(m, EndCleaning(y), c);
    if n.w.ops != m.w.ops {
      assert y in m.w.ops && n.w.ops == m.w.ops[y := m.w.ops[y].(cleaned := true)];
    }
  }

  lemma ReopenRestands(m: Machine, transient: bool, x: OpId, c: Config)
    requires x in m.w.ops
    ensures Restood(m.w.ops, Next(m, Reopen(transient), c).w.ops, x)
    ensures m.w.ops[x].Terminal() ==> (Next(m, Reopen(transient), c).w.ops[x].Terminal() <==> m.pc != Cleaning(x))
  {
    var n := Next(m, Reopen(transient), c);
    if m.pc.Cleaning? && m.pc.x in m.w.ops {
      assert n.w.ops == m.w.ops[m.pc.x := m.w.ops[m.pc.x].(state := if transient then Pending else Blocked)];
    } else {
      assert n == m;
    }
  }

  // ── The order invariant ───────────────────────────────────────────────────

  predicate SameButStanding(a: Op, b: Op) {
    a == b.(state := a.state, successor := a.successor)
  }

  /** The stage in hand fits the record it is about. */
  predicate Settled(m: Machine) {
    match m.pc
    case Idle => true
    case Claimed(x, copy) => x in m.w.ops && SameButStanding(copy, m.w.ops[x]) && copy.state == Running && !m.w.ops[x].state.Complete?
    case Applying(x, s) => x in m.w.ops && !m.w.ops[x].Terminal()
    case Cleaning(x) => x in m.w.ops && m.w.ops[x].state == Complete && m.w.ops[x].finished
  }

  /** Unfinished, or about to be again. */
  predicate Live(m: Machine, x: OpId)
    requires x in m.w.ops
  {
    !m.w.ops[x].Terminal() || (m.pc.About(x) && (m.pc.Claimed? || m.pc.Cleaning?))
  }

  predicate Before(ops: Ops, a: OpId, b: OpId) {
    a in ops && b in ops && ops[a].owner == ops[b].owner && ops[a].no < ops[b].no
  }

  /** Nothing earlier of the same owner is unfinished once an operation has
      started, or while one is in hand. */
  predicate PairOrdered(m: Machine, a: OpId, b: OpId) {
    Before(m.w.ops, a, b) ==>
      && (m.w.ops[b].base.Some? && Live(m, b) ==> m.w.ops[a].Terminal() && !m.pc.About(a))
      && (m.pc.About(b) ==> m.w.ops[a].Terminal())
  }

  ghost predicate Ordered(m: Machine) {
    && Settled(m) && ReplicaLedger.Numbered(m.w.ops, m.head)
    && forall a, b :: PairOrdered(m, a, b)
  }

  lemma AdvanceKeepsOrder(m: Machine, c: Config)
    requires Ordered(m)
    ensures Ordered(AdvanceStep(m, c))
  {
    if m.pc.Applying? {
      var y, n := m.pc.x, AdvanceStep(m, c);
      StepHasEffect(m.w, y, m.pc.stage, c);
      StepKeepsRecord(m.w, y, m.pc.stage, c);
      assert y in n.w.ops && n.w.ops == m.w.ops[y := n.w.ops[y]];
      InHandKeepsOrder(m, n, y);
    }
  }

  /** Work on the operation in hand, up to its end or its failure. */
  lemma InHandKeepsOrder(m: Machine, n: Machine, y: OpId)
    requires Ordered(m) && m.pc.Applying? && m.pc.x == y && Settled(n) && n.head == m.head
    requires y in n.w.ops && n.w.ops == m.w.ops[y := n.w.ops[y]]
    requires n.w.ops[y].owner == m.w.ops[y].owner && n.w.ops[y].no == m.w.ops[y].no
    requires n.pc.Idle? || n.pc.About(y)
    ensures Ordered(n)
  {
    forall a, b ensures PairOrdered(n, a, b) {
      assert PairOrdered(m, a, b);
    }
  }

  lemma SupersedeKeepsOrder(m: Machine, id: OpId, id': OpId, plan: Plan)
    requires Ordered(m)
    ensures Ordered(SupersedeStep(m, id, id', plan))
  {
    var n := SupersedeStep(m, id, id', plan);
    forall a, b ensures PairOrdered(n, a, b) {
      assert PairOrdered(m, a, b);
    }
  }

  /** An owner without unfinished operations moves to a name nobody uses. */
  lemma RetireKeepsOrder(m: Machine, owner: Owner, archive: Owner)
    requires Ordered(m)
    ensures Ordered(RetireStepOf(m, owner, archive))
  {
    var n := RetireStepOf(m, owner, archive);
    if n != m {
      assert n.w.ops == ReplicaLedger.Archived(m.w.ops, owner, archive);
      forall a, b ensures PairOrdered(n, a, b) {
        assert PairOrdered(m, a, b);
        if Before(n.w.ops, a, b) { assert Before(m.w.ops, a, b); }
      }
    }
  }

  lemma ClaimKeepsOrder(m: Machine, x: OpId, c: Config)
    requires Ordered(m)
    ensures Ordered(Next(m, Claim(x), c))
  {
    var n := Next(m, Claim(x), c);
    forall a, b ensures PairOrdered(n, a, b) {
      assert PairOrdered(m, a, b);
    }
  }

  lemma BeginKeepsOrder(m: Machine, c: Config)
    requires Ordered(m)
    ensures Ordered(Next(m, Begin, c))
  {
    var n := Next(m, Begin, c);
    forall a, b ensures PairOrdered(n, a, b) {
      assert PairOrdered(m, a, b);
    }
  }

  /** Putting down an operation, however it then stands. */
  lemma PutDownKeepsOrder(m: Machine, n: Machine, x: OpId, op: Op)
    requires Ordered(m) && x in m.w.ops && op == m.w.ops[x].(state := op.state, cleaned := op.cleaned)
    requires n.w.ops == m.w.ops[x := op] && n.pc.Idle? && n.head == m.head
    requires !op.Terminal() ==> Live(m, x)
    requires m.w.ops[x].Terminal() && !m.pc.About(x) ==> op.Terminal()
    ensures Ordered(n)
  {
    forall a, b ensures PairOrdered(n, a, b) {
      assert PairOrdered(m, a, b);
    }
  }

  /** Bytes, pins and owner rows have no say in the order, and nobody has to hold an operation. */
  lemma LetGoKeepsOrder(m: Machine, n: Machine)
    requires Ordered(m) && n.w.ops == m.w.ops && n.pc.Idle? && n.head == m.head
    ensures Ordered(n)
  {
    forall a, b ensures PairOrdered(n, a, b) {
      assert PairOrdered(m, a, b);
    }
  }

  lemma CrashKeepsOrder(m: Machine, c: Config)
    requires Ordered(m)
    ensures Ordered(Next(m, Crash, c))
  {
    var n := Next(m, Crash, c);
    if !m.pc.Idle? && m.pc.x in m.w.ops && m.w.ops[m.pc.x].state == Running {
      PutDownKeepsOrder(m, n, m.pc.x, m.w.ops[m.pc.x].(state := Pending));
    } else {
      LetGoKeepsOrder(m, n);
    }
  }

  lemma EndCleaningKeepsOrder(m: Machine, x: OpId, c: Config)
    requires Ordered(m)
    ensures Ordered(Next(m, EndCleaning(x), c))
  {
    var n := Next(m, EndCleaning(x), c);
    if n.w.ops != m.w.ops {
      PutDownKeepsOrder(m, n, x, m.w.ops[x].(cleaned := true));
    } else if n.pc.Idle? {
      LetGoKeepsOrder(m, n);
    }
  }

  lemma ReopenKeepsOrder(m: Machine, transient: bool, c: Config)
    requires Ordered(m)
    ensures Ordered(Next(m, Reopen(transient), c))
  {
    if m.pc.Cleaning? {
      PutDownKeepsOrder(m, Next(m, Reopen(transient), c), m.pc.x,
                        m.w.ops[m.pc.x].(state := if transient then Pending else Blocked));
    }
  }

  lemma SubmitKeepsOrder(m: Machine, id: OpId, owner: Owner, plan: Plan, c: Config)
    requires Ordered(m)
    ensures Ordered(Next(m, Submit(id, owner, plan), c))
  {
    var n := Next(m, Submit(id, owner, plan), c);
    forall a, b ensures PairOrdered(n, a, b) {
      assert PairOrdered(m, a, b);
    }
  }

  /** Bytes, pins and owner rows have no say in the order. */
  lemma SameJournalKeepsOrder(m: Machine, n: Machine)
    requires Ordered(m) && n.w.ops == m.w.ops && n.pc == m.pc && n.head == m.head
    ensures Ordered(n)
  {
    forall a, b ensures PairOrdered(n, a, b) {
      assert PairOrdered(m, a, b);
    }
  }

  lemma StepKeepsOrder(m: Machine, move: Move, c: Config)
    requires Ordered(m)
    ensures Ordered(Next(m, move, c))
  {
    match move
    case Advance => AdvanceKeepsOrder(m, c);
    case Supersede(id, id', plan) => SupersedeKeepsOrder(m, id, id', plan);
    case RetireOwner(owner, archive) => RetireKeepsOrder(m, owner, archive);
    case Claim(x) => ClaimKeepsOrder(m, x, c);
    case Begin => BeginKeepsOrder(m, c);
    case Submit(id, owner, plan) => SubmitKeepsOrder(m, id, owner, plan, c);
    case Outsider(_, _) => SameJournalKeepsOrder(m, Next(m, move, c));
    case Adopt(_, _) => SameJournalKeepsOrder(m, Next(m, move, c));
    case Relocate(_) => SameJournalKeepsOrder(m, Next(m, move, c));
    case DropPin(_) => SameJournalKeepsOrder(m, Next(m, move, c));
    case DropBlob(_) => SameJournalKeepsOrder(m, Next(m, move, c));
    case Crash => CrashKeepsOrder(m, c);
    case EndCleaning(x) => EndCleaningKeepsOrder(m, x, c);
    case Reopen(transient) => ReopenKeepsOrder(m, transient, c);
  }

  /** Over every run, with supersession in the claim window, failed cleanups and
      crashes: whenever an operation is in hand, every earlier one of its owner is finished. */
  lemma {:induction false} OrderHolds(states: seq<Machine>, moves: seq<Move>, c: Config, n: nat)
    requires IsRun(states, moves, c) && n <= |moves| && Ordered(states[0])
    ensures Ordered(states[n])
    ensures forall y | y in states[n].w.ops && states[n].pc.About(y) :: EarlierDone(states[n].w.ops, y)
  {
    if n > 0 {
      OrderHolds(states, moves, c, n - 1);
      StepKeepsOrder(states[n - 1], moves[n - 1], c);
      assert states[n - 1 + 1] == Next(states[n - 1], moves[n - 1], c);
    }
    forall y, a | y in states[n].w.ops && states[n].pc.About(y) && a in states[n].w.ops
                  && states[n].w.ops[a].owner == states[n].w.ops[y].owner && states[n].w.ops[a].no < states[n].w.ops[y].no
      ensures states[n].w.ops[a].Terminal()
    {
      assert PairOrdered(states[n], a, y);
    }
  }

  /** Superseded between claim and start: the cancelled operation is applied all
      the same, its cancellation forgotten, with the successor waiting behind it. */
  lemma SupersededIsAppliedAnyway(m: Machine, x: OpId, id': OpId, plan: Plan, c: Config)
    requires m.pc.Idle? && x in m.w.ops && !m.w.ops[x].Terminal() && EarlierDone(m.w.ops, x) && id' !in m.w.ops
    ensures var claimed := Next(m, Claim(x), c);
            var cancelled := Next(claimed, Supersede(x, id', plan), c);
            var begun := Next(cancelled, Begin, c);
            && cancelled.w.ops[x].state == Cancelled && cancelled.w.ops[x].successor == Some(id')
            && begun.pc == Applying(x, AtBase) && begun.w.ops[x] == m.w.ops[x].(state := Running)
            && id' in begun.w.ops && begun.w.ops[id'].state == Pending
  {
  }
}
