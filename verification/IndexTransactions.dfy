/** Transactions over the location index as values: what a body does to the
    tables and the pending log, that nesting is invisible, and that the log
    entries of a safe transaction explain the tables it leaves. */
module IndexTransactions {
  import opened Options
  import opened ChangeLog
  import opened LocationTables

  // ── One transaction as a value ────────────────────────────────────────────

  /** What a transaction body may do. `Nested` is a `transaction()` inside it, `Fail` a throw. */
  datatype Command =
    | PutCmd(id: string, locs: seq<Loc>, rename: Option<RenameHint>)
    | DeleteCmd(id: string)
    | Nested(cmds: seq<Command>)
    | Fail

  /** The tables and the entries appended so far. */
  datatype Work = Work(tables: Tables, pending: seq<Entry>)

  function PutWork(w: Work, id: string, locs: seq<Loc>, rename: Option<RenameHint>, base: nat, now: nat): Work {
    Work(PutTables(w.tables, id, locs),
         AppendAll(w.pending, Diff(id, w.tables.LocationsOf(id), locs, rename), base, now))
  }

  function DeleteWork(w: Work, id: string, base: nat, now: nat): Work {
    Work(DeleteTables(w.tables, id),
         AppendAll(w.pending, Deletes(id, w.tables.LocationsOf(id)), base, now))
  }

  /** Runs a body; None when it throws. */
  function Run(w: Work, cmds: seq<Command>, base: nat, now: nat): Option<Work>
    decreases cmds
  {
    if cmds == [] then Some(w)
    else
      match cmds[0]
      case PutCmd(id, locs, rename) => Run(PutWork(w, id, locs, rename, base, now), cmds[1..], base, now)
      case DeleteCmd(id) => Run(DeleteWork(w, id, base, now), cmds[1..], base, now)
      case Nested(inner) =>
        (match Run(w, inner, base, now)
         case None => None
         case Some(w') => Run(w', cmds[1..], base, now))
      case Fail => None
  }

  lemma {:induction false} RunConcat(w: Work, a: seq<Command>, b: seq<Command>, base: nat, now: nat)
    ensures Run(w, a + b, base, now) ==
            match Run(w, a, base, now) case None => None case Some(w') => Run(w', b, base, now)
    decreases |a|
  {
    if a == [] {
      assert a + b == b;
    } else {
      assert (a + b)[1..] == a[1..] + b && (a + b)[0] == a[0];
      match a[0]
      case PutCmd(id, locs, rename) => RunConcat(PutWork(w, id, locs, rename, base, now), a[1..], b, base, now);
      case DeleteCmd(id) => RunConcat(DeleteWork(w, id, base, now), a[1..], b, base, now);
      case Nested(inner) =>
        match Run(w, inner, base, now) {
          case None =>
          case Some(w') => RunConcat(w', a[1..], b, base, now);
        }
      case Fail =>
    }
  }

  /** A nested transaction joins the outer one: its boundaries are invisible. */
  lemma NestingIsTransparent(w: Work, a: seq<Command>, inner: seq<Command>, b: seq<Command>, base: nat, now: nat)
    ensures Run(w, a + [Nested(inner)] + b, base, now) == Run(w, a + inner + b, base, now)
  {
    RunConcat(w, a + [Nested(inner)], b, base, now);
    RunConcat(w, a, [Nested(inner)], base, now);
    RunConcat(w, a + inner, b, base, now);
    RunConcat(w, a, inner, base, now);
    match Run(w, a, base, now) {
      case None =>
      case Some(w') =>
        assert [Nested(inner)][1..] == [];
    }
  }

  // ── A failure the body catches ────────────────────────────────────────────

  /** How far a body gets: the work done when it ends or throws, and whether it threw. */
  datatype Reached = Reached(work: Work, threw: bool)

  function RunUntil(w: Work, cmds: seq<Command>, base: nat, now: nat): Reached
    decreases cmds
  {
    if cmds == [] then Reached(w, false)
    else
      match cmds[0]
      case PutCmd(id, locs, rename) => RunUntil(PutWork(w, id, locs, rename, base, now), cmds[1..], base, now)
      case DeleteCmd(id) => RunUntil(DeleteWork(w, id, base, now), cmds[1..], base, now)
      case Nested(inner) =>
        var r := RunUntil(w, inner, base, now);
        if r.threw then r else RunUntil(r.work, cmds[1..], base, now)
      case Fail => Reached(w, true)
  }

  predicate Throws(cmds: seq<Command>)
    decreases cmds
  {
    cmds != [] && (cmds[0].Fail? || (cmds[0].Nested? && Throws(cmds[0].cmds)) || Throws(cmds[1..]))
  }

  /** The commands up to the first throw. */
  function CutAtThrow(cmds: seq<Command>): seq<Command>
    decreases cmds
  {
    if cmds == [] || cmds[0].Fail? then []
    else if cmds[0].Nested? && Throws(cmds[0].cmds) then [Nested(CutAtThrow(cmds[0].cmds))]
    else [cmds[0]] + CutAtThrow(cmds[1..])
  }

  lemma {:induction false} UntilThrows(w: Work, cmds: seq<Command>, base: nat, now: nat)
    ensures RunUntil(w, cmds, base, now).threw <==> Throws(cmds)
    ensures Run(w, cmds, base, now) == if Throws(cmds) then None else Some(RunUntil(w, cmds, base, now).work)
    decreases cmds
  {
    if cmds != [] {
      match cmds[0]
      case PutCmd(id, locs, rename) => UntilThrows(PutWork(w, id, locs, rename, base, now), cmds[1..], base, now);
      case DeleteCmd(id) => UntilThrows(DeleteWork(w, id, base, now), cmds[1..], base, now);
      case Nested(inner) =>
        UntilThrows(w, inner, base, now);
        UntilThrows(RunUntil(w, inner, base, now).work, cmds[1..], base, now);
      case Fail =>
    }
  }

  lemma {:induction false} CutReaches(w: Work, cmds: seq<Command>, base: nat, now: nat)
    ensures Run(w, CutAtThrow(cmds), base, now) == Some(RunUntil(w, cmds, base, now).work)
    decreases cmds
  {
    if cmds != [] && !cmds[0].Fail? {
      var c, rest := cmds[0], CutAtThrow(cmds[1..]);
      assert ([c] + rest)[1..] == rest;
      match c
      case PutCmd(id, locs, rename) => CutReaches(PutWork(w, id, locs, rename, base, now), cmds[1..], base, now);
      case DeleteCmd(id) => CutReaches(DeleteWork(w, id, base, now), cmds[1..], base, now);
      case Nested(inner) =>
        UntilThrows(w, inner, base, now);
        if Throws(inner) {
          CutReaches(w, inner, base, now);
          assert [Nested(CutAtThrow(inner))][1..] == [];
        } else {
          CutReaches(RunUntil(w, inner, base, now).work, cmds[1..], base, now);
        }
    }
  }

  /** A body that catches the failure of an inner transaction keeps everything the
      inner one did before it threw: only the outermost transaction rolls back. */
  lemma CaughtFailureKeepsItsPrefix(w: Work, a: seq<Command>, inner: seq<Command>, b: seq<Command>, base: nat, now: nat)
    requires Run(w, a, base, now).Some?
    ensures Run(RunUntil(Run(w, a, base, now).value, inner, base, now).work, b, base, now) ==
            Run(w, a + CutAtThrow(inner) + b, base, now)
  {
    RunConcat(w, a + CutAtThrow(inner), b, base, now);
    RunConcat(w, a, CutAtThrow(inner), base, now);
    CutReaches(Run(w, a, base, now).value, inner, base, now);
  }

  /** Every put claims only free places and every append is safe. */
  predicate SafeRun(m: PathMap, w: Work, cmds: seq<Command>, base: nat, now: nat)
    decreases cmds
  {
    cmds == [] ||
    match cmds[0]
    case PutCmd(id, locs, rename) =>
      && w.tables.Unclaimed(id, locs)
      && SafeAll(m, w.pending, Diff(id, w.tables.LocationsOf(id), locs, rename), base, now)
      && SafeRun(m, PutWork(w, id, locs, rename, base, now), cmds[1..], base, now)
    case DeleteCmd(id) =>
      && SafeAll(m, w.pending, Deletes(id, w.tables.LocationsOf(id)), base, now)
      && SafeRun(m, DeleteWork(w, id, base, now), cmds[1..], base, now)
    case Nested(inner) =>
      && SafeRun(m, w, inner, base, now)
      && (match Run(w, inner, base, now)
          case None => true
          case Some(w') => SafeRun(m, w', cmds[1..], base, now))
    case Fail => true
  }

  /** The tables are inverse and the pending entries turn `m` into the current path table. */
  ghost predicate Explained(m: PathMap, w: Work, base: nat) {
    && Pending(w.pending, base)
    && w.tables.Inverse()
    && Replay(m, w.pending) == w.tables.path
  }

  lemma PutStaysExplained(m: PathMap, w: Work, id: string, locs: seq<Loc>, rename: Option<RenameHint>, base: nat, now: nat)
    requires Explained(m, w, base) && w.tables.Unclaimed(id, locs)
    requires SafeAll(m, w.pending, Diff(id, w.tables.LocationsOf(id), locs, rename), base, now)
    ensures Explained(m, PutWork(w, id, locs, rename, base, now), base)
  {
    var cs := Diff(id, w.tables.LocationsOf(id), locs, rename);
    assert Pending(AppendAll(w.pending, cs, base, now), base)
           && Replay(m, AppendAll(w.pending, cs, base, now)) == ApplyAll(w.tables.path, cs) by {
      DiffWellFormed(id, w.tables.LocationsOf(id), locs, rename);
      SafeAllExplains(m, w.pending, cs, base, now);
    }
    assert PutTables(w.tables, id, locs).Inverse() by { PutInverseExact(w.tables, id, locs); }
    assert ApplyAll(w.tables.path, cs) == PutTables(w.tables, id, locs).path by {
      DiffOfInverse(w.tables, id, locs, rename);
    }
  }

  lemma DiffOfInverse(t: Tables, id: string, locs: seq<Loc>, rename: Option<RenameHint>)
    requires t.Inverse()
    ensures ApplyAll(t.path, Diff(id, t.LocationsOf(id), locs, rename)) == PutTables(t, id, locs).path
  {
    InverseIsUndisturbed(t, id, locs);
    DiffExplainsExact(t, id, locs, rename);
  }

  lemma DeleteStaysExplained(m: PathMap, w: Work, id: string, base: nat, now: nat)
    requires Explained(m, w, base)
    requires SafeAll(m, w.pending, Deletes(id, w.tables.LocationsOf(id)), base, now)
    ensures Explained(m, DeleteWork(w, id, base, now), base)
  {
    var locs := w.tables.LocationsOf(id);
    SafeAllExplains(m, w.pending, Deletes(id, locs), base, now);
    ApplyDeletes(w.tables.path, id, locs);
    DeleteKeepsInverse(w.tables, id);
    if id !in w.tables.meta {
      assert w.tables.path - (set l | l in locs) == w.tables.path;
    }
  }

  /** Whatever a safe transaction does, nested or not, its entries replay to the new path table. */
  lemma {:induction false} RunStaysExplained(m: PathMap, w: Work, cmds: seq<Command>, base: nat, now: nat)
    requires Explained(m, w, base) && SafeRun(m, w, cmds, base, now)
    ensures Run(w, cmds, base, now).Some? ==> Explained(m, Run(w, cmds, base, now).value, base)
    decreases cmds
  {
    if cmds != [] {
      match cmds[0]
      case PutCmd(id, locs, rename) =>
        PutStaysExplained(m, w, id, locs, rename, base, now);
        RunStaysExplained(m, PutWork(w, id, locs, rename, base, now), cmds[1..], base, now);
      case DeleteCmd(id) =>
        DeleteStaysExplained(m, w, id, base, now);
        RunStaysExplained(m, DeleteWork(w, id, base, now), cmds[1..], base, now);
      case Nested(inner) =>
        RunStaysExplained(m, w, inner, base, now);
        match Run(w, inner, base, now) {
          case None =>
          case Some(w') => RunStaysExplained(m, w', cmds[1..], base, now);
        }
      case Fail =>
    }
  }

  lemma {:induction false} RunKeepsPending(w: Work, cmds: seq<Command>, base: nat, now: nat)
    requires Pending(w.pending, base) && w.tables.NoDangling()
    ensures Run(w, cmds, base, now).Some? ==>
              var r := Run(w, cmds, base, now).value; Pending(r.pending, base) && r.tables.NoDangling()
    decreases cmds
  {
    if cmds != [] {
      match cmds[0]
      case PutCmd(id, locs, rename) =>
        PutWorkOk(w, id, locs, rename, base, now);
        RunKeepsPending(PutWork(w, id, locs, rename, base, now), cmds[1..], base, now);
      case DeleteCmd(id) =>
        DeleteWorkOk(w, id, base, now);
        RunKeepsPending(DeleteWork(w, id, base, now), cmds[1..], base, now);
      case Nested(inner) =>
        RunKeepsPending(w, inner, base, now);
        match Run(w, inner, base, now) {
          case None =>
          case Some(w') => RunKeepsPending(w', cmds[1..], base, now);
        }
      case Fail =>
    }
  }

  lemma {:induction false} AppendAllKeepsPending(pending: seq<Entry>, cs: seq<Change>, base: nat, now: nat)
    requires Pending(pending, base)
    requires forall i | 0 <= i < |cs| :: cs[i].WellFormed()
    ensures Pending(AppendAll(pending, cs, base, now), base)
    ensures |pending| <= |AppendAll(pending, cs, base, now)|
  {
    if cs != [] {
      AppendAllKeepsPending(pending, cs[..|cs| - 1], base, now);
      AppendKeepsPending(AppendAll(pending, cs[..|cs| - 1], base, now), cs[|cs| - 1], base, now);
    }
  }

  lemma PutWorkOk(w: Work, id: string, locs: seq<Loc>, rename: Option<RenameHint>, base: nat, now: nat)
    requires Pending(w.pending, base) && w.tables.NoDangling()
    ensures var r := PutWork(w, id, locs, rename, base, now); Pending(r.pending, base) && r.tables.NoDangling()
  {
    DiffWellFormed(id, w.tables.LocationsOf(id), locs, rename);
    AppendAllKeepsPending(w.pending, Diff(id, w.tables.LocationsOf(id), locs, rename), base, now);
    PutNeverDangles(w.tables, id, locs);
  }

  lemma DeleteWorkOk(w: Work, id: string, base: nat, now: nat)
    requires Pending(w.pending, base) && w.tables.NoDangling()
    ensures var r := DeleteWork(w, id, base, now); Pending(r.pending, base) && r.tables.NoDangling()
  {
    AppendAllKeepsPending(w.pending, Deletes(id, w.tables.LocationsOf(id)), base, now);
    DeleteNeverDangles(w.tables, id);
  }

  // ── The repository's own transactions are safe ────────────────────────────

  /** A put that opens its transaction (a watcher add with or without a paired
      rename, a finished move, one step of a scan) never coalesces at all. */
  lemma LonePutIsSafe(t: Tables, id: string, locs: seq<Loc>, rename: Option<RenameHint>, base: nat, now: nat)
    requires t.Unclaimed(id, locs)
    ensures SafeRun(t.path, Work(t, []), [PutCmd(id, locs, rename)], base, now)
  {
    DiffDistinct(id, t.LocationsOf(id), locs, rename);
    DistinctIsSafe(t.path, [], Diff(id, t.LocationsOf(id), locs, rename), base, now);
    assert [PutCmd(id, locs, rename)][1..] == [];
  }

  function Numbered(cs: seq<Change>, base: nat, now: nat): seq<Entry> {
    seq(|cs|, i requires 0 <= i < |cs| => Entry(base + i + 1, now, cs[i]))
  }

  predicate PairwiseApart(cs: seq<Change>) {
    forall i, j | 0 <= i < j < |cs| :: cs[i].loc != cs[j].loc
  }

  predicate NonePending(cs: seq<Change>, pending: seq<Entry>) {
    forall i, j | 0 <= i < |cs| && 0 <= j < |pending| :: cs[i].loc != pending[j].change.loc
  }

  /** Changes at distinct places with no pending entry are appended as they are, safely. */
  lemma {:induction false} DistinctIsSafe(m: PathMap, pending: seq<Entry>, cs: seq<Change>, base: nat, now: nat)
    requires PairwiseApart(cs) && NonePending(cs, pending)
    ensures SafeAll(m, pending, cs, base, now)
    ensures AppendAll(pending, cs, base, now) == pending + Numbered(cs, base + |pending|, now)
  {
    if cs != [] {
      DistinctIsSafe(m, pending, cs[..|cs| - 1], base, now);
      DistinctStep(m, pending, AppendAll(pending, cs[..|cs| - 1], base, now), cs, base, now);
    } else {
      assert Numbered(cs, base + |pending|, now) == [];
    }
  }

  lemma DistinctStep(m: PathMap, pending: seq<Entry>, p: seq<Entry>, cs: seq<Change>, base: nat, now: nat)
    requires cs != [] && PairwiseApart(cs) && NonePending(cs, pending)
    requires p == pending + Numbered(cs[..|cs| - 1], base + |pending|, now)
    ensures SafeAppend(m, p, cs[|cs| - 1])
    ensures Append(p, cs[|cs| - 1], base, now) == pending + Numbered(cs, base + |pending|, now)
  {
    FreshAtEnd(pending, cs, p, base + |pending|, now);
    FreshAppends(m, p, cs[|cs| - 1], base, now);
    NumberedAfter(pending, cs, base + |pending|, now);
  }

  lemma NumberedAfter(pending: seq<Entry>, cs: seq<Change>, base: nat, now: nat)
    requires cs != []
    ensures pending + Numbered(cs[..|cs| - 1], base, now) + [Entry(base + |cs|, now, cs[|cs| - 1])] == pending + Numbered(cs, base, now)
  {
    NumberedSnoc(cs, base, now);
    assert pending + Numbered(cs[..|cs| - 1], base, now) + [Entry(base + |cs|, now, cs[|cs| - 1])]
        == pending + (Numbered(cs[..|cs| - 1], base, now) + [Entry(base + |cs|, now, cs[|cs| - 1])]);
  }

  predicate KeyFresh(p: seq<Entry>, c: Change) {
    forall i | 0 <= i < |p| :: p[i].change.loc != c.loc
  }

  lemma FreshAtEnd(pending: seq<Entry>, cs: seq<Change>, p: seq<Entry>, base: nat, now: nat)
    requires cs != [] && p == pending + Numbered(cs[..|cs| - 1], base, now)
    requires PairwiseApart(cs) && NonePending(cs, pending)
    ensures |p| == |pending| + |cs| - 1 && KeyFresh(p, cs[|cs| - 1])
  {
    var n := |cs| - 1;
    forall i | 0 <= i < |p| ensures p[i].change.loc != cs[n].loc {
      if i >= |pending| { assert p[i].change == cs[i - |pending|]; }
    }
  }

  lemma FreshAppends(m: PathMap, p: seq<Entry>, c: Change, base: nat, now: nat)
    requires KeyFresh(p, c)
    ensures SafeAppend(m, p, c) && Append(p, c, base, now) == p + [Entry(base + |p| + 1, now, c)]
  {
    FreshIsSafe(m, p, c);
  }

  lemma NumberedSnoc(cs: seq<Change>, base: nat, now: nat)
    requires cs != []
    ensures Numbered(cs, base, now) ==
            Numbered(cs[..|cs| - 1], base, now) + [Entry(base + |cs|, now, cs[|cs| - 1])]
  {
  }

  /** After deletes only (an old owner letting go), the entries of one put are
      safe even when they coalesce: an overwrite, an edit, a move onto a
      displaced key. */
  lemma {:induction false} DiffAfterDeletesIsSafe(m: PathMap, pending: seq<Entry>, cs: seq<Change>, gone: set<Loc>,
                                                  base: nat, now: nat)
    requires Pending(pending, base)
    requires forall i | 0 <= i < |pending| :: pending[i].change.op.Delete?
    requires forall i, j | 0 <= i < j < |cs| :: cs[i].loc != cs[j].loc
    requires forall i | 0 <= i < |cs| :: cs[i].WellFormed()
    requires forall i | 0 <= i < |cs| && cs[i].op.Rename? :: cs[i].Source() in gone
    requires forall i | 0 <= i < |cs| && !cs[i].op.Delete? :: cs[i].loc !in gone
    ensures SafeAll(m, pending, cs, base, now)
    ensures var p := AppendAll(pending, cs, base, now);
            && Pending(p, base)
            && forall i | 0 <= i < |p| :: p[i].change.op.Delete? || p[i].change in cs
  {
    if cs != [] {
      var n := |cs| - 1;
      var init := cs[..n];
      DiffAfterDeletesIsSafe(m, pending, init, gone, base, now);
      var p := AppendAll(pending, init, base, now);
      AppendKeepsPending(p, cs[n], base, now);
      OneMoreIsSafe(m, p, init, cs[n], gone, base);
      assert cs == init + [cs[n]];
    }
  }

  lemma OneMoreIsSafe(m: PathMap, p: seq<Entry>, done: seq<Change>, c: Change, gone: set<Loc>, base: nat)
    requires Pending(p, base) && c.WellFormed()
    requires forall i | 0 <= i < |p| :: p[i].change.op.Delete? || p[i].change in done
    requires forall d | d in done :: d.loc != c.loc
    requires forall d | d in done && d.op.Rename? :: d.Source() in gone
    requires forall d | d in done && !d.op.Delete? :: d.loc !in gone
    requires c.op.Rename? ==> c.Source() in gone
    requires !c.op.Delete? ==> c.loc !in gone
    ensures SafeAppend(m, p, c)
    ensures var j := Prior(p, c.loc); j < |p| ==> p[j].change.op.Delete?
  {
    var j := Prior(p, c.loc);
    if j < |p| {
      assert p[j].change.op.Delete? by {
        if p[j].change in done { assert false; }
      }
      if c.op.Rename? { NotRefilled(p, done, j + 1, c, gone); }
      if !c.op.Delete? { NotRenamedAway(p, done, j, c, gone, base); }
    }
  }

  /** Nothing put so far is at a place that was let go. */
  lemma NotRefilled(p: seq<Entry>, done: seq<Change>, k: nat, c: Change, gone: set<Loc>)
    requires k <= |p| && c.op.Rename? && c.Source() in gone
    requires forall i | 0 <= i < |p| :: p[i].change.op.Delete? || p[i].change in done
    requires forall d | d in done && !d.op.Delete? :: d.loc !in gone
    ensures !FateOf(p[k..], c.Source()).Holds?
  {
    var tail := p[k..];
    forall i | 0 <= i < |tail| ensures !(tail[i].change.loc == c.Source() && !tail[i].change.op.Delete?) {
      assert tail[i] == p[k + i];
    }
    NotHeld(tail, c.Source());
  }

  /** Nothing after the entry of a key mentions it as the source of a rename. */
  lemma NotRenamedAway(p: seq<Entry>, done: seq<Change>, j: nat, c: Change, gone: set<Loc>, base: nat)
    requires Pending(p, base) && j < |p| && p[j].change.loc == c.loc && c.loc !in gone
    requires forall i | 0 <= i < |p| :: p[i].change.op.Delete? || p[i].change in done
    requires forall d | d in done && d.op.Rename? :: d.Source() in gone
    ensures FateOf(p[j + 1..], c.loc).Untouched?
  {
    FateUntouched(p[j + 1..], c.loc);
    var tail := p[j + 1..];
    forall i | 0 <= i < |tail| ensures !Mentions(tail[i].change, c.loc) {
      assert tail[i] == p[j + 1 + i];
    }
  }

  lemma {:induction false} NotHeld(es: seq<Entry>, l: Loc)
    requires forall i | 0 <= i < |es| :: !(es[i].change.loc == l && !es[i].change.op.Delete?)
    ensures !FateOf(es, l).Holds?
  {
    if es != [] {
      NotHeld(es[..|es| - 1], l);
    }
  }

  // ── Letting an old owner go before the new one is recorded ────────────────

  function Without(locs: seq<Loc>, l: Loc): (r: seq<Loc>)
    ensures forall x :: x in r <==> x in locs && x != l
  {
    Minus(locs, [l])
  }

  /** Strips one location from an entry, dropping the entry with its last one. */
  function LetGo(t: Tables, owner: string, l: Loc): Command {
    if Without(t.LocationsOf(owner), l) == [] then DeleteCmd(owner)
    else PutCmd(owner, Without(t.LocationsOf(owner), l), None)
  }

  /** What letting go leaves: the tables, and delete entries only. */
  function Released(w: Work, owner: string, l: Loc, base: nat, now: nat): Work {
    if Without(w.tables.LocationsOf(owner), l) == [] then DeleteWork(w, owner, base, now)
    else PutWork(w, owner, Without(w.tables.LocationsOf(owner), l), None, base, now)
  }

  /** Letting go clears one path entry and touches no other id. */
  lemma ReleasedTables(t: Tables, owner: string, l: Loc, base: nat, now: nat)
    requires t.Inverse() && owner in t.meta && l in t.meta[owner]
    ensures var r := Released(Work(t, []), owner, l, base, now).tables;
            && r.path == t.path - {l}
            && (forall id | id != owner :: r.LocationsOf(id) == t.LocationsOf(id))
  {
    var rest := Without(t.meta[owner], l);
    if rest == [] {
      assert forall x | x in t.meta[owner] && x != l :: x in rest;
      assert (set x | x in t.meta[owner]) == {l};
      assert DeleteTables(t, owner).path == t.path - {l};
    } else {
      ReleasedPath(t, owner, l);
    }
  }

  lemma ReleasedPath(t: Tables, owner: string, l: Loc)
    requires t.Inverse() && owner in t.meta && l in t.meta[owner]
    ensures PathAfterPut(t.path, owner, t.meta[owner], Without(t.meta[owner], l)) == t.path - {l}
  {
    var rest := Without(t.meta[owner], l);
    assert forall x | x in rest :: x in t.path && t.path[x] == owner;
    assert forall x | x in t.meta[owner] && x !in rest :: x == l;
    var got, want := PathAfterPut(t.path, owner, t.meta[owner], rest), t.path - {l};
    forall x ensures Lookup(got, x) == Lookup(want, x) {
    }
    MapsAgree(got, want);
  }

  lemma {:induction false} DeletesAreSafe(m: PathMap, pending: seq<Entry>, id: string, locs: seq<Loc>, base: nat, now: nat)
    requires Pending(pending, base)
    requires forall i | 0 <= i < |pending| :: pending[i].change.op.Delete?
    ensures SafeAll(m, pending, Deletes(id, locs), base, now)
    ensures var p := AppendAll(pending, Deletes(id, locs), base, now);
            Pending(p, base) && forall i | 0 <= i < |p| :: p[i].change.op.Delete?
  {
    if locs != [] {
      var n := |locs| - 1;
      assert Deletes(id, locs)[..n] == Deletes(id, locs[..n]);
      DeletesAreSafe(m, pending, id, locs[..n], base, now);
      AppendKeepsPending(AppendAll(pending, Deletes(id, locs[..n]), base, now), Deletes(id, locs)[n], base, now);
    }
  }

  /** A put after deletes only is safe. */
  lemma PutAfterDeletesIsSafe(m: PathMap, w: Work, id: string, locs: seq<Loc>, rename: Option<RenameHint>,
                              base: nat, now: nat)
    requires Pending(w.pending, base) && w.tables.Unclaimed(id, locs)
    requires forall i | 0 <= i < |w.pending| :: w.pending[i].change.op.Delete?
    ensures SafeRun(m, w, [PutCmd(id, locs, rename)], base, now)
  {
    var before := w.tables.LocationsOf(id);
    DiffDistinct(id, before, locs, rename);
    DiffWellFormed(id, before, locs, rename);
    DiffSources(id, before, locs, rename);
    DiffAfterDeletesIsSafe(m, w.pending, Diff(id, before, locs, rename), (set x | x in Removed(before, locs)), base, now);
    assert [PutCmd(id, locs, rename)][1..] == [];
  }

  lemma DiffSources(id: string, before: seq<Loc>, after: seq<Loc>, rename: Option<RenameHint>)
    ensures var d := Diff(id, before, after, rename);
            && (forall i | 0 <= i < |d| && d[i].op.Rename? :: d[i].Source() in Removed(before, after))
            && (forall i | 0 <= i < |d| && !d[i].op.Delete? :: d[i].loc !in Removed(before, after))
  {
    var removed, added, paired := Removed(before, after), Added(before, after), Pairs(before, after, rename);
    EntrySources(id, Dropped(before, after, rename), added, removed, paired, rename);
  }

  lemma EntrySources(id: string, dropped: seq<Loc>, added: seq<Loc>, removed: seq<Loc>, paired: bool,
                     rename: Option<RenameHint>)
    requires paired ==> rename.Some? && Loc(rename.value.backend, rename.value.from) in removed
    requires forall l | l in added :: l !in removed
    ensures var d := Deletes(id, dropped) + Puts(id, added, paired, rename);
            && (forall i | 0 <= i < |d| && d[i].op.Rename? :: d[i].Source() in removed)
            && (forall i | 0 <= i < |d| && !d[i].op.Delete? :: d[i].loc !in removed)
  {
    var d := Deletes(id, dropped) + Puts(id, added, paired, rename);
    forall i | 0 <= i < |d|
      ensures d[i].op.Rename? ==> d[i].Source() in removed
      ensures !d[i].op.Delete? ==> d[i].loc !in removed
    {
      if i >= |dropped| { assert d[i] == PutChange(id, added[i - |dropped|], paired, rename); }
    }
  }
}
