/** The durable change log of the location index: what one entry means to a
    reader that replays it, how entries coalesce inside a transaction, and
    exactly when coalescing keeps the replay faithful. */
module ChangeLog {

  import opened Options

  /** One addressable place: the `backend:key` pair of the path index. */
  datatype Loc = Loc(backend: string, key: string)

  datatype Op = Put | Delete | Rename(from: string)

  /** What happened to `loc`, and the content id involved. */
  datatype Change = Change(loc: Loc, op: Op, id: string) {
    /** The place a rename took the bytes from. */
    function Source(): Loc
      requires op.Rename?
    {
      Loc(loc.backend, op.from)
    }

    /** A rename never names its own key as its source. */
    predicate WellFormed() {
      op.Rename? ==> op.from != loc.key
    }
  }

  datatype Entry = Entry(no: nat, ts: nat, change: Change)

  type PathMap = map<Loc, string>

  function Lookup(m: PathMap, l: Loc): Option<string> {
    if l in m then Some(m[l]) else None
  }

  // ── Replay ────────────────────────────────────────────────────────────────

  function Apply(m: PathMap, c: Change): PathMap {
    match c.op
    case Put => m[c.loc := c.id]
    case Delete => m - {c.loc}
    case Rename(_) => (m - {c.Source()})[c.loc := c.id]
  }

  function ApplyAll(m: PathMap, cs: seq<Change>): PathMap {
    if cs == [] then m else Apply(ApplyAll(m, cs[..|cs| - 1]), cs[|cs| - 1])
  }

  /** Replays entries oldest first: put sets, delete clears, rename moves `from` to the key. */
  function Replay(m: PathMap, es: seq<Entry>): PathMap {
    if es == [] then m else Apply(Replay(m, es[..|es| - 1]), es[|es| - 1].change)
  }

  lemma {:induction false} ReplayConcat(m: PathMap, a: seq<Entry>, b: seq<Entry>)
    ensures Replay(m, a + b) == Replay(Replay(m, a), b)
  {
    if b == [] {
      assert a + b == a;
    } else {
      assert (a + b)[..|a + b| - 1] == a + b[..|b| - 1];
      ReplayConcat(m, a, b[..|b| - 1]);
    }
  }

  lemma {:induction false} ApplyAllConcat(m: PathMap, a: seq<Change>, b: seq<Change>)
    ensures ApplyAll(m, a + b) == ApplyAll(ApplyAll(m, a), b)
  {
    if b == [] {
      assert a + b == a;
    } else {
      assert (a + b)[..|a + b| - 1] == a + b[..|b| - 1];
      ApplyAllConcat(m, a, b[..|b| - 1]);
    }
  }

  // ── What a stretch of log does to one key ─────────────────────────────────

  /** The net effect of a stretch of log on one place. */
  datatype Fate = Untouched | Gone | Holds(id: string)

  /** Does the entry name `l`, as its key or as a rename's source? */
  predicate Mentions(c: Change, l: Loc) {
    c.loc == l || (c.op.Rename? && c.Source() == l)
  }

  function Effect(c: Change, l: Loc): Fate {
    if c.loc == l then (if c.op.Delete? then Gone else Holds(c.id))
    else if c.op.Rename? && c.Source() == l then Gone
    else Untouched
  }

  function FateOf(es: seq<Entry>, l: Loc): Fate {
    if es == [] then Untouched
    else if Mentions(es[|es| - 1].change, l) then Effect(es[|es| - 1].change, l)
    else FateOf(es[..|es| - 1], l)
  }

  function Resolve(before: Option<string>, f: Fate): Option<string> {
    match f
    case Untouched => before
    case Gone => None
    case Holds(id) => Some(id)
  }

  /** Only the last entry that mentions a place decides what replay leaves there. */
  lemma {:induction false} ReplayAt(m: PathMap, es: seq<Entry>, l: Loc)
    ensures Lookup(Replay(m, es), l) == Resolve(Lookup(m, l), FateOf(es, l))
  {
    if es != [] {
      ReplayAt(m, es[..|es| - 1], l);
    }
  }

  lemma {:induction false} FateConcat(a: seq<Entry>, b: seq<Entry>, l: Loc)
    ensures FateOf(a + b, l) == if FateOf(b, l).Untouched? then FateOf(a, l) else FateOf(b, l)
  {
    if b == [] {
      assert a + b == a;
    } else {
      assert (a + b)[..|a + b| - 1] == a + b[..|b| - 1];
      FateConcat(a, b[..|b| - 1], l);
    }
  }

  /** A place nothing mentions keeps its value. */
  lemma {:induction false} FateUntouched(es: seq<Entry>, l: Loc)
    ensures FateOf(es, l).Untouched? <==> forall i | 0 <= i < |es| :: !Mentions(es[i].change, l)
  {
    if es != [] {
      FateUntouched(es[..|es| - 1], l);
    }
  }

  lemma MapsAgree(m: PathMap, n: PathMap)
    requires forall l :: Lookup(m, l) == Lookup(n, l)
    ensures m == n
  {
    forall l ensures l in m <==> l in n {
      assert Lookup(m, l) == Lookup(n, l);
    }
    forall l | l in m ensures m[l] == n[l] {
      assert Lookup(m, l) == Lookup(n, l);
    }
  }

  // ── Coalescing inside one transaction ─────────────────────────────────────

  /** Index of the pending entry for `l`, or the length when there is none. */
  function Prior(pending: seq<Entry>, l: Loc): (j: nat)
    ensures j <= |pending|
    ensures j < |pending| ==> pending[j].change.loc == l
    ensures forall i | 0 <= i < j :: pending[i].change.loc != l
  {
    if pending == [] then 0
    else if pending[0].change.loc == l then 0
    else 1 + Prior(pending[1..], l)
  }

  /** A rename's source survives a later put of the same key. */
  function Merge(prior: Change, c: Change): Change {
    if prior.op.Rename? && c.op.Put? then c.(op := prior.op) else c
  }

  /** Appends one change to the pending entries of a transaction whose first
      entry takes sequence number `base + 1`, replacing an earlier entry for the same key in place. */
  function Append(pending: seq<Entry>, c: Change, base: nat, now: nat): (r: seq<Entry>)
    ensures |pending| <= |r| <= |pending| + 1
  {
    var j := Prior(pending, c.loc);
    if j < |pending| then pending[j := Entry(pending[j].no, now, Merge(pending[j].change, c))]
    else pending + [Entry(base + |pending| + 1, now, c)]
  }

  function AppendAll(pending: seq<Entry>, cs: seq<Change>, base: nat, now: nat): seq<Entry> {
    if cs == [] then pending
    else Append(AppendAll(pending, cs[..|cs| - 1], base, now), cs[|cs| - 1], base, now)
  }

  /** Numbered from `base + 1` without gaps, one entry per place, renames sane. */
  predicate Pending(pending: seq<Entry>, base: nat) {
    && (forall i | 0 <= i < |pending| :: pending[i].no == base + i + 1)
    && (forall i | 0 <= i < |pending| :: pending[i].change.WellFormed())
    && (forall i, j | 0 <= i < j < |pending| :: pending[i].change.loc != pending[j].change.loc)
  }

  lemma AppendKeepsPending(pending: seq<Entry>, c: Change, base: nat, now: nat)
    requires Pending(pending, base) && c.WellFormed()
    ensures Pending(Append(pending, c, base, now), base)
  {
    var r := Append(pending, c, base, now);
    forall i, j | 0 <= i < j < |r| ensures r[i].change.loc != r[j].change.loc {
      if j < |pending| {
        assert pending[i].change.loc != pending[j].change.loc;
      } else {
        assert r[i].change.loc == pending[i].change.loc;
      }
    }
  }

  /** The condition under which appending `c` leaves a log that still explains
      the index. It only bites when `c` coalesces onto an earlier entry at `j`:
      entries after `j` must not rename the key away again, nothing after `j`
      may refill the source of `c`, and a rename source that the merge forgets
      must have been settled elsewhere. */
  predicate SafeAppend(m: PathMap, pending: seq<Entry>, c: Change) {
    var j := Prior(pending, c.loc);
    j < |pending| ==>
      var prior, tail := pending[j].change, pending[j + 1..];
      && (c.op.Delete? || FateOf(tail, c.loc).Untouched?)
      && (c.op.Rename? ==> !FateOf(tail, c.Source()).Holds?)
      && (prior.op.Rename? && !c.op.Put? && c.op != prior.op ==>
            !FateOf(tail, prior.Source()).Untouched? || prior.Source() !in Replay(m, pending[..j]))
  }

  /** A change whose key has no pending entry is always safe. */
  lemma FreshIsSafe(m: PathMap, pending: seq<Entry>, c: Change)
    requires forall i | 0 <= i < |pending| :: pending[i].change.loc != c.loc
    ensures SafeAppend(m, pending, c)
  {
  }

  lemma TailSkipsKey(pending: seq<Entry>, base: nat, j: nat)
    requires Pending(pending, base) && j < |pending|
    ensures !FateOf(pending[j + 1..], pending[j].change.loc).Holds?
  {
    var l := pending[j].change.loc;
    var tail := pending[j + 1..];
    forall i | 0 <= i < |tail| ensures tail[i].change.loc != l {
      assert tail[i] == pending[j + 1 + i];
    }
    NeverHeld(tail, l);
  }

  lemma {:induction false} NeverHeld(es: seq<Entry>, l: Loc)
    requires forall i | 0 <= i < |es| :: es[i].change.loc != l
    ensures !FateOf(es, l).Holds?
  {
    if es != [] {
      NeverHeld(es[..|es| - 1], l);
    }
  }

  lemma ApplyAt(m: PathMap, c: Change, l: Loc)
    requires c.WellFormed()
    ensures Lookup(Apply(m, c), l) == Resolve(Lookup(m, l), Effect(c, l))
  {
  }

  /** The value at `l` when the entry at `j` reads `mid`. */
  lemma SplitAt(m: PathMap, pending: seq<Entry>, j: nat, mid: Entry, l: Loc)
    requires j < |pending| && mid.change.WellFormed()
    ensures Lookup(Replay(m, pending[j := mid]), l) ==
            Resolve(Resolve(Lookup(Replay(m, pending[..j]), l), Effect(mid.change, l)), FateOf(pending[j + 1..], l))
  {
    var tail := pending[j + 1..];
    assert pending[j := mid] == pending[..j] + [mid] + tail;
    ReplayConcat(m, pending[..j] + [mid], tail);
    assert (pending[..j] + [mid])[..j] == pending[..j];
    ReplayAt(Replay(m, pending[..j] + [mid]), tail, l);
    ApplyAt(Replay(m, pending[..j]), mid.change, l);
  }

  /** What `l` should hold after `c`, and what the coalesced log leaves there. */
  function Wanted(before: Option<string>, prior: Change, tail: Fate, c: Change, l: Loc): Option<string> {
    Resolve(Resolve(Resolve(before, Effect(prior, l)), tail), Effect(c, l))
  }

  function Logged(before: Option<string>, prior: Change, tail: Fate, c: Change, l: Loc): Option<string> {
    Resolve(Resolve(before, Effect(Merge(prior, c), l)), tail)
  }

  lemma CoalescedAt(m: PathMap, pending: seq<Entry>, c: Change, base: nat, now: nat, l: Loc)
    requires Pending(pending, base) && c.WellFormed()
    requires Prior(pending, c.loc) < |pending|
    ensures var j := Prior(pending, c.loc);
            var before, tail := Lookup(Replay(m, pending[..j]), l), FateOf(pending[j + 1..], l);
            && Lookup(Replay(m, Append(pending, c, base, now)), l) == Logged(before, pending[j].change, tail, c, l)
            && Lookup(Apply(Replay(m, pending), c), l) == Wanted(before, pending[j].change, tail, c, l)
  {
    var j := Prior(pending, c.loc);
    SplitAt(m, pending, j, Entry(pending[j].no, now, Merge(pending[j].change, c)), l);
    SplitAt(m, pending, j, pending[j], l);
    assert pending[j := pending[j]] == pending;
    ApplyAt(Replay(m, pending), c, l);
  }

  /** Coalescing is invisible to a replaying reader exactly when the append is safe. */
  lemma CoalescingExact(m: PathMap, pending: seq<Entry>, c: Change, base: nat, now: nat)
    requires Pending(pending, base) && c.WellFormed()
    ensures SafeAppend(m, pending, c) <==>
            Replay(m, Append(pending, c, base, now)) == Apply(Replay(m, pending), c)
  {
    var j := Prior(pending, c.loc);
    var want := Apply(Replay(m, pending), c);
    var got := Replay(m, Append(pending, c, base, now));
    if j == |pending| {
      var e := Entry(base + |pending| + 1, now, c);
      assert (pending + [e])[..|pending|] == pending;
    } else {
      TailSkipsKey(pending, base, j);
      if SafeAppend(m, pending, c) {
        forall l ensures Lookup(got, l) == Lookup(want, l) {
          CoalescedAt(m, pending, c, base, now, l);
          SafeAgrees(m, pending, c, l);
        }
        MapsAgree(got, want);
      } else {
        var bad := UnsafeWitness(m, pending, c);
        CoalescedAt(m, pending, c, base, now, bad);
        assert Lookup(got, bad) != Lookup(want, bad);
      }
    }
  }

  lemma SafeAgrees(m: PathMap, pending: seq<Entry>, c: Change, l: Loc)
    requires Prior(pending, c.loc) < |pending|
    requires c.WellFormed() && pending[Prior(pending, c.loc)].change.WellFormed()
    requires !FateOf(pending[Prior(pending, c.loc) + 1..], c.loc).Holds?
    requires SafeAppend(m, pending, c)
    ensures var j := Prior(pending, c.loc);
            var before, tail := Lookup(Replay(m, pending[..j]), l), FateOf(pending[j + 1..], l);
            Logged(before, pending[j].change, tail, c, l) == Wanted(before, pending[j].change, tail, c, l)
  {
  }

  /** An unsafe append is caught at the key, at its source, or at the forgotten source. */
  lemma UnsafeWitness(m: PathMap, pending: seq<Entry>, c: Change) returns (l: Loc)
    requires Prior(pending, c.loc) < |pending|
    requires c.WellFormed() && pending[Prior(pending, c.loc)].change.WellFormed()
    requires !FateOf(pending[Prior(pending, c.loc) + 1..], c.loc).Holds?
    requires !SafeAppend(m, pending, c)
    ensures var j := Prior(pending, c.loc);
            var before, tail := Lookup(Replay(m, pending[..j]), l), FateOf(pending[j + 1..], l);
            Logged(before, pending[j].change, tail, c, l) != Wanted(before, pending[j].change, tail, c, l)
  {
    var j := Prior(pending, c.loc);
    var prior, tail := pending[j].change, pending[j + 1..];
    if !(c.op.Delete? || FateOf(tail, c.loc).Untouched?) {
      l := c.loc;
    } else if c.op.Rename? && FateOf(tail, c.Source()).Holds? {
      l := c.Source();
    } else {
      l := prior.Source();
    }
  }

  /** A transaction in which every append was safe is explained by its entries. */
  predicate SafeAll(m: PathMap, pending: seq<Entry>, cs: seq<Change>, base: nat, now: nat) {
    cs == [] ||
    (SafeAll(m, pending, cs[..|cs| - 1], base, now)
     && SafeAppend(m, AppendAll(pending, cs[..|cs| - 1], base, now), cs[|cs| - 1]))
  }

  lemma {:induction false} SafeAllExplains(m: PathMap, pending: seq<Entry>, cs: seq<Change>, base: nat, now: nat)
    requires Pending(pending, base)
    requires forall i | 0 <= i < |cs| :: cs[i].WellFormed()
    requires SafeAll(m, pending, cs, base, now)
    ensures Pending(AppendAll(pending, cs, base, now), base)
    ensures Replay(m, AppendAll(pending, cs, base, now)) == ApplyAll(Replay(m, pending), cs)
  {
    if cs != [] {
      var init := cs[..|cs| - 1];
      SafeAllExplains(m, pending, init, base, now);
      CoalescingExact(m, AppendAll(pending, init, base, now), cs[|cs| - 1], base, now);
      AppendKeepsPending(AppendAll(pending, init, base, now), cs[|cs| - 1], base, now);
    }
  }

  // ── The side condition really is needed ───────────────────────────────────

  /** A rename followed by a delete of its target in one transaction: the merged
      entry forgets the source, and a reader keeps a key the index dropped. */
  lemma RenameThenDeleteForgets(id: string, base: nat, now: nat)
    ensures var a, b := Loc("home", "a"), Loc("home", "b");
            var log := AppendAll([], [Change(b, Rename("a"), id), Change(b, Delete, id)], base, now);
            && ApplyAll(map[a := id], [Change(b, Rename("a"), id), Change(b, Delete, id)]) == map[]
            && Replay(map[a := id], log) == map[a := id]
  {
    var a, b := Loc("home", "a"), Loc("home", "b");
    var r, d := Change(b, Rename("a"), id), Change(b, Delete, id);
    CoalescedPair(r, d, base, now);
    ApplyPair(map[a := id], r, d);
    ReplayOne(map[a := id], Entry(base + 1, now, d));
    assert a != b;
    assert Apply(map[a := id], r) == map[b := id];
  }

  lemma CoalescedPair(r: Change, d: Change, base: nat, now: nat)
    requires r.loc == d.loc && d.op.Delete?
    ensures AppendAll([], [r, d], base, now) == [Entry(base + 1, now, d)]
  {
    assert [r, d][..1] == [r] && [r][..0] == [];
    assert AppendAll([], [r], base, now) == Append([], r, base, now) == [Entry(base + 1, now, r)];
    assert Append([Entry(base + 1, now, r)], d, base, now) == [Entry(base + 1, now, d)];
  }

  lemma ApplyPair(m: PathMap, r: Change, d: Change)
    ensures ApplyAll(m, [r, d]) == Apply(Apply(m, r), d)
  {
    assert [r, d][..1] == [r] && [r][..0] == [];
    assert ApplyAll(m, [r]) == Apply(m, r);
  }

  lemma ReplayOne(m: PathMap, e: Entry)
    ensures Replay(m, [e]) == Apply(m, e.change)
  {
    assert [e][..0] == [];
  }

  // ── The listener's copy ───────────────────────────────────────────────────

  /** An entry as it stands in memory for the listener: the change, and the field
      `from`, which a later entry assigned over it does not clear. */
  datatype Held = Held(change: Change, from: Option<string>)

  function FromOf(c: Change): Option<string> {
    if c.op.Rename? then Some(c.op.from) else None
  }

  /** Assigning the merged fields over the earlier ones: an absent field stays. */
  function AssignOver(prior: Held, c: Change): Held {
    var merged := Merge(prior.change, c);
    Held(merged, if merged.op.Rename? then FromOf(merged) else prior.from)
  }

  /** What the listener holds for one key after the transaction's appends to it. */
  function HeldAfter(cs: seq<Change>): Held
    requires cs != []
  {
    if |cs| == 1 then Held(cs[0], FromOf(cs[0])) else AssignOver(HeldAfter(cs[..|cs| - 1]), cs[|cs| - 1])
  }

  /** What is in the log for that key. */
  function LoggedAfter(cs: seq<Change>): Change
    requires cs != []
  {
    if |cs| == 1 then cs[0] else Merge(LoggedAfter(cs[..|cs| - 1]), cs[|cs| - 1])
  }

  predicate RenamedAmong(cs: seq<Change>) {
    exists i | 0 <= i < |cs| :: cs[i].op.Rename?
  }

  lemma RenamedOneMore(cs: seq<Change>)
    requires cs != []
    ensures RenamedAmong(cs) <==> RenamedAmong(cs[..|cs| - 1]) || cs[|cs| - 1].op.Rename?
  {
    assert forall i | 0 <= i < |cs| - 1 :: cs[..|cs| - 1][i] == cs[i];
    if i :| 0 <= i < |cs| && cs[i].op.Rename? && i < |cs| - 1 { assert cs[..|cs| - 1][i].op.Rename?; }
  }

  /** The listener is handed what was logged, except that an entry that is no
      rename in the end still carries a `from` exactly when the key was renamed
      onto earlier in the transaction. */
  lemma {:induction false} ListenerSeesExactly(cs: seq<Change>)
    requires cs != []
    ensures HeldAfter(cs).change == LoggedAfter(cs)
    ensures HeldAfter(cs).from.Some? <==> RenamedAmong(cs)
    ensures HeldAfter(cs).from == FromOf(LoggedAfter(cs)) <==> LoggedAfter(cs).op.Rename? || !RenamedAmong(cs)
  {
    RenamedOneMore(cs);
    if |cs| > 1 {
      ListenerSeesExactly(cs[..|cs| - 1]);
    } else {
      assert cs[..0] == [];
    }
  }
}
