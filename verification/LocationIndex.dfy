/** The location index as the object the store mutates: two tables, a durable
    change log, and transactions that join, commit, roll back and trim. */
module LocationIndex {
  import opened Options
  import opened ChangeLog
  import opened LocationTables
  import opened IndexTransactions

  const TRIM_EVERY: nat := 1000
  const DEFAULT_LIMIT: nat := 1000

  /** One answer of the change feed. */
  datatype Page = Page(changes: seq<Entry>, head: nat, oldest: Option<nat>, cursor: nat, cursorTooOld: bool)

  /** The entries of one backend, in order; no filter when `backend` is None. */
  function Matching(es: seq<Entry>, backend: Option<string>): seq<Entry> {
    if es == [] then []
    else
      var init, last := Matching(es[..|es| - 1], backend), es[|es| - 1];
      if backend.Some? && last.change.loc.backend != backend.value then init else init + [last]
  }

  lemma {:induction false} MatchingConcat(a: seq<Entry>, b: seq<Entry>, backend: Option<string>)
    ensures Matching(a + b, backend) == Matching(a, backend) + Matching(b, backend)
  {
    if b == [] {
      assert a + b == a;
    } else {
      assert (a + b)[..|a + b| - 1] == a + b[..|b| - 1];
      MatchingConcat(a, b[..|b| - 1], backend);
    }
  }

  /** Exactly the entries of the backend, or all of them. */
  lemma {:induction false} MatchingExact(es: seq<Entry>, backend: Option<string>, e: Entry)
    ensures e in Matching(es, backend) <==> e in es && (backend.None? || e.change.loc.backend == backend.value)
  {
    if es != [] {
      MatchingExact(es[..|es| - 1], backend, e);
      assert e in es <==> e in es[..|es| - 1] || e == es[|es| - 1];
    }
  }

  lemma MatchingStep(es: seq<Entry>, from: nat, n: nat, backend: Option<string>)
    requires from < n <= |es|
    ensures Matching(es[from..n], backend) ==
            if backend.Some? && es[n - 1].change.loc.backend != backend.value then Matching(es[from..n - 1], backend)
            else Matching(es[from..n - 1], backend) + [es[n - 1]]
  {
    var part := es[from..n];
    assert part[..|part| - 1] == es[from..n - 1] && part[|part| - 1] == es[n - 1];
  }

  predicate Expired(e: Entry, minSeq: int, cutoff: int) {
    e.no < minSeq || e.ts < cutoff
  }

  function ClampLimit(limit: int): nat {
    if limit == 0 then DEFAULT_LIMIT else if limit < 1 then 1 else limit
  }

  class Index {
    var meta: map<string, seq<Loc>>
    var path: PathMap
    /** The `changes` table, by sequence number. */
    var changes: map<nat, Entry>
    /** The persisted `changes.seq`. */
    var savedHead: nat
    var head: nat
    var pending: seq<Entry>
    var txDepth: nat
    var appendsSinceTrim: nat
    /** Every entry handed to the change listener so far. */
    var delivered: seq<Entry>
    const keep: nat
    const maxAge: nat
    /** Every entry ever committed, trimmed or not, and how many are trimmed. */
    ghost var log: seq<Entry>
    ghost var trimmed: nat

    ghost function Visible(): seq<Entry>
      reads this
    {
      log + pending
    }

    ghost function State(): Work
      reads this
    {
      Work(Tables(meta, path), pending)
    }

    /** The change table holds exactly the retained run `trimmed+1 .. head`. */
    ghost predicate Contiguous()
      reads this
    {
      && trimmed <= |log|
      && head == savedHead == |log| + |pending|
      && (forall n :: n in changes <==> trimmed < n <= head)
      && (forall n | n in changes :: changes[n] == Visible()[n - 1])
      && (forall i | 0 <= i < |log| :: log[i].no == i + 1 && log[i].change.WellFormed())
    }

    /** The log part of validity, which holds even half way through a mutation. */
    ghost predicate Logging()
      reads this
    {
      Contiguous() && Pending(pending, |log|) && delivered == log
    }

    ghost predicate Valid()
      reads this
    {
      && Logging()
      && Tables(meta, path).NoDangling()
      && (txDepth == 0 ==> pending == [])
    }

    /** The committed log, replayed from nothing, is the path table. */
    ghost predicate LogExplainsIndex()
      reads this
    {
      && Tables(meta, path).Inverse()
      && Replay(map[], log) == path
    }

    constructor (keep: nat, maxAge: nat)
      ensures Valid() && LogExplainsIndex()
      ensures log == [] && meta == map[] && txDepth == 0
      ensures this.keep == keep && this.maxAge == maxAge
    {
      meta, path, changes, savedHead, head := map[], map[], map[], 0, 0;
      pending, txDepth, appendsSinceTrim, delivered := [], 0, 0, [];
      log, trimmed := [], 0;
      this.keep, this.maxAge := keep, maxAge;
    }

    // ── Inside a transaction ────────────────────────────────────────────────

    method FindPending(l: Loc) returns (j: nat)
      ensures j == Prior(pending, l)
    {
      j := 0;
      while j < |pending| && pending[j].change.loc != l
        invariant 0 <= j <= |pending|
        invariant forall i | 0 <= i < j :: pending[i].change.loc != l
      {
        j := j + 1;
      }
    }

    /** Appends one entry, coalescing onto a pending entry for the same key. */
    method AppendEntry(c: Change, now: nat)
      requires Logging() && txDepth > 0 && c.WellFormed()
      modifies `changes, `savedHead, `head, `pending, `appendsSinceTrim
      ensures Logging()
      ensures pending == Append(old(pending), c, |log|, now)
    {
      AppendKeepsPending(pending, c, |log|, now);
      var j := FindPending(c.loc);
      if j < |pending| {
        ReplaceEntry(j, c, now);
      } else {
        AddEntry(c, now);
      }
    }

    /** Rewrites the pending entry at `j` in place, in memory and in the table. */
    method ReplaceEntry(j: nat, c: Change, now: nat)
      requires Contiguous() && j < |pending| && pending[j].no == |log| + j + 1
      modifies `changes, `pending
      ensures Contiguous()
      ensures pending == old(pending)[j := Entry(old(pending)[j].no, now, Merge(old(pending)[j].change, c))]
    {
      var no := pending[j].no;
      var merged := if pending[j].change.op.Rename? && c.op.Put? then c.(op := pending[j].change.op) else c;
      changes := changes[no := Entry(no, now, merged)];
      pending := pending[j := Entry(no, now, merged)];
    }

    method AddEntry(c: Change, now: nat)
      requires Contiguous()
      modifies `changes, `savedHead, `head, `pending, `appendsSinceTrim
      ensures Contiguous()
      ensures pending == old(pending) + [Entry(|log| + |old(pending)| + 1, now, c)]
      ensures appendsSinceTrim == old(appendsSinceTrim) + 1
    {
      head := head + 1;
      var full := Entry(head, now, c);
      changes := changes[head := full];
      savedHead := head;
      pending := pending + [full];
      appendsSinceTrim := appendsSinceTrim + 1;
    }

    /** One `delete` entry per removed place, leaving out a paired rename's source. */
    method LogRemoved(id: string, removed: seq<Loc>, paired: bool, rename: Option<RenameHint>, now: nat)
      requires Logging() && txDepth > 0
      requires paired ==> rename.Some?
      modifies `changes, `savedHead, `head, `pending, `appendsSinceTrim
      ensures Logging()
      ensures pending == AppendAll(old(pending), Deletes(id, KeptOf(removed, paired, rename)), |log|, now)
    {
      ghost var was := pending;
      for i := 0 to |removed|
        invariant Logging()
        invariant pending == LoggedRemoved(was, id, removed, i, paired, rename, |log|, now)
      {
        if !paired || removed[i] != Loc(rename.value.backend, rename.value.from) {
          AppendEntry(Change(removed[i], Delete, id), now);
        }
      }
      RemovedIsAppended(was, id, removed, |removed|, paired, rename, |log|, now);
    }

    /** One `put` entry per added place; a paired target becomes a `rename`. */
    method LogAdded(id: string, added: seq<Loc>, paired: bool, rename: Option<RenameHint>, now: nat)
      requires Logging() && txDepth > 0
      requires paired ==> rename.Some? && Loc(rename.value.backend, rename.value.from) !in added
      modifies `changes, `savedHead, `head, `pending, `appendsSinceTrim
      ensures Logging()
      ensures pending == AppendAll(old(pending), Puts(id, added, paired, rename), |log|, now)
    {
      ghost var was := pending;
      for i := 0 to |added|
        invariant Logging()
        invariant pending == LoggedAdded(was, id, added, i, paired, rename, |log|, now)
      {
        LogAddedAt(id, added[i], paired, rename, now);
      }
      AddedIsAppended(was, id, added, |added|, paired, rename, |log|, now);
    }

    method LogAddedAt(id: string, l: Loc, paired: bool, rename: Option<RenameHint>, now: nat)
      requires Logging() && txDepth > 0
      requires paired ==> rename.Some? && Loc(rename.value.backend, rename.value.from) != l
      modifies `changes, `savedHead, `head, `pending, `appendsSinceTrim
      ensures Logging()
      ensures pending == Append(old(pending), PutChange(id, l, paired, rename), |log|, now)
    {
      var entry := Change(l, Op.Put, id);
      if paired && l == Loc(rename.value.backend, rename.value.to) {
        entry := entry.(op := Rename(rename.value.from));
      }
      AppendEntry(entry, now);
    }

    /** Logs every place a put removed or added, pairing a rename when both ends are among them. */
    method LogLocationDiff(id: string, before: seq<Loc>, after: seq<Loc>, rename: Option<RenameHint>, now: nat)
      requires Logging() && txDepth > 0
      modifies `changes, `savedHead, `head, `pending, `appendsSinceTrim
      ensures Logging()
      ensures pending == AppendAll(old(pending), Diff(id, before, after, rename), |log|, now)
    {
      var removed := Minus(Dedup(before), after);
      var added := Minus(Dedup(after), before);
      var paired := Pairs(before, after, rename);
      AppendAllConcat(pending, Deletes(id, KeptOf(removed, paired, rename)), Puts(id, added, paired, rename), |log|, now);
      LogRemoved(id, removed, paired, rename, now);
      LogAdded(id, added, paired, rename, now);
    }

    method UpdatePaths(id: string, existing: seq<Loc>, locs: seq<Loc>)
      modifies `path
      ensures path == PathAfterPut(old(path), id, existing, locs)
    {
      ghost var was := path;
      var gone := Minus(Dedup(existing), locs);
      for i := 0 to |gone|
        invariant path == Cleared(was, gone[..i])
      {
        ClearedStep(was, gone, i);
        path := path - {gone[i]};
      }
      assert gone[..|gone|] == gone;
      ghost var mid := path;
      var keys := Dedup(locs);
      for i := 0 to |keys|
        invariant path == WithPuts(mid, id, keys[..i], {})
      {
        WithPutsStep(mid, id, keys, i);
        path := path[keys[i] := id];
      }
      assert keys[..|keys|] == keys;
      PutPathAgrees(was, id, existing, locs, mid, path);
    }

    method PutBody(id: string, locs: seq<Loc>, rename: Option<RenameHint>, now: nat)
      requires Valid() && txDepth > 0
      modifies `meta, `path, `changes, `savedHead, `head, `pending, `appendsSinceTrim
      ensures Valid()
      ensures State() == PutWork(old(State()), id, locs, rename, |log|, now)
    {
      PutNeverDangles(Tables(meta, path), id, locs);
      var existing := if id in meta then meta[id] else [];
      UpdatePaths(id, existing, locs);
      meta := meta[id := locs];
      LogLocationDiff(id, existing, locs, rename, now);
    }

    /** Clears each listed place and logs it as deleted. */
    method ClearAndLog(id: string, locs: seq<Loc>, now: nat)
      requires Logging() && txDepth > 0
      modifies `path, `changes, `savedHead, `head, `pending, `appendsSinceTrim
      ensures Logging()
      ensures path == Cleared(old(path), locs)
      ensures pending == AppendAll(old(pending), Deletes(id, locs), |log|, now)
    {
      ghost var was, before := pending, path;
      for i := 0 to |locs|
        invariant Logging()
        invariant path == Cleared(before, locs[..i])
        invariant pending == DeletesOf(was, id, locs[..i], |log|, now)
      {
        assert DeletesOf(was, id, locs[..i + 1], |log|, now) ==
               Append(pending, Change(locs[i], Delete, id), |log|, now) by {
          assert locs[..i + 1] == locs[..i] + [locs[i]];
          DeletesStep(was, id, locs[..i], locs[i], |log|, now);
        }
        path := path - {locs[i]};
        AppendEntry(Change(locs[i], Delete, id), now);
        ClearedStep(before, locs, i);
      }
      assert locs[..|locs|] == locs;
    }

    method DeleteBody(id: string, now: nat) returns (found: bool)
      requires Valid() && txDepth > 0
      modifies `meta, `path, `changes, `savedHead, `head, `pending, `appendsSinceTrim
      ensures Valid() && found == (id in old(meta))
      ensures State() == DeleteWork(old(State()), id, |log|, now)
    {
      if id !in meta { return false; }
      DeleteNeverDangles(Tables(meta, path), id);
      ClearAndLog(id, meta[id], now);
      meta := meta - {id};
      return true;
    }

    // ── Transactions ────────────────────────────────────────────────────────

    /** Runs the commands of a body in order, stopping at the first throw. */
    method RunCommands(cmds: seq<Command>, now: nat) returns (ok: bool)
      requires Valid() && txDepth > 0
      modifies this
      ensures txDepth == old(txDepth) && log == old(log) && trimmed == old(trimmed) && delivered == old(delivered)
      ensures ok <==> Run(old(State()), cmds, |log|, now).Some?
      ensures ok ==> Valid() && State() == Run(old(State()), cmds, |log|, now).value
      decreases cmds, 0
    {
      ghost var start := State();
      for i := 0 to |cmds|
        invariant Valid() && txDepth == old(txDepth)
        invariant log == old(log) && trimmed == old(trimmed) && delivered == old(delivered)
        invariant Run(start, cmds, |log|, now) == Run(State(), cmds[i..], |log|, now)
      {
        assert cmds[i..][1..] == cmds[i + 1..];
        match cmds[i]
        case PutCmd(id, locs, rename) =>
          PutBody(id, locs, rename, now);
        case DeleteCmd(id) =>
          var _ := DeleteBody(id, now);
        case Nested(inner) =>
          var joined := Transaction(inner, now);
          if !joined { return false; }
        case Fail =>
          return false;
      }
      assert cmds[|cmds|..] == [];
      return true;
    }

    /** Runs a body in one transaction. An inner call joins the outer one; the
        outermost commits and tells the listener, or restores every table. */
    method Transaction(cmds: seq<Command>, now: nat) returns (ok: bool)
      requires Valid()
      modifies this
      ensures ok <==> Run(old(State()), cmds, |old(log)|, now).Some?
      ensures old(txDepth) > 0 ==>
                txDepth == old(txDepth) && log == old(log) && trimmed == old(trimmed) && delivered == old(delivered)
      ensures old(txDepth) > 0 && ok ==> Valid() && State() == Run(old(State()), cmds, |log|, now).value
      ensures old(txDepth) == 0 ==> Valid() && txDepth == 0 && old(trimmed) <= trimmed
      ensures old(txDepth) == 0 && ok ==>
                var w := Run(old(State()), cmds, |old(log)|, now).value;
                Tables(meta, path) == w.tables && log == old(log) + w.pending
      ensures old(txDepth) == 0 && !ok ==>
                && meta == old(meta) && path == old(path) && changes == old(changes)
                && head == old(head) && log == old(log) && trimmed == old(trimmed) && delivered == old(delivered)
      decreases cmds, 2
    {
      if txDepth > 0 {
        ok := RunCommands(cmds, now);
      } else {
        ok := OuterTransaction(cmds, now);
      }
    }

    method OuterTransaction(cmds: seq<Command>, now: nat) returns (ok: bool)
      requires Valid() && txDepth == 0
      modifies this
      ensures Valid() && txDepth == 0 && old(trimmed) <= trimmed
      ensures ok <==> Run(old(State()), cmds, |old(log)|, now).Some?
      ensures ok ==>
                var w := Run(old(State()), cmds, |old(log)|, now).value;
                Tables(meta, path) == w.tables && log == old(log) + w.pending
      ensures !ok ==>
                && meta == old(meta) && path == old(path) && changes == old(changes)
                && head == old(head) && log == old(log) && trimmed == old(trimmed) && delivered == old(delivered)
      decreases cmds, 1
    {
      txDepth := 1;
      var meta0, path0, changes0, savedHead0, headAtStart := meta, path, changes, savedHead, head;
      ok := RunCommands(cmds, now);
      if ok {
        Commit(now);
      } else {
        RollBack(meta0, path0, changes0, savedHead0, headAtStart);
      }
    }

    /** The tables of a quiet moment: nothing in them but the committed log. */
    ghost predicate Quiet(meta: map<string, seq<Loc>>, path: PathMap, changes: map<nat, Entry>, savedHead: nat, head: nat)
      reads this
    {
      && trimmed <= |log| && head == savedHead == |log| && delivered == log
      && (forall n :: n in changes <==> trimmed < n <= head)
      && (forall n | n in changes :: changes[n] == log[n - 1])
      && (forall i | 0 <= i < |log| :: log[i].no == i + 1 && log[i].change.WellFormed())
      && Tables(meta, path).NoDangling()
    }

    method RollBack(meta0: map<string, seq<Loc>>, path0: PathMap, changes0: map<nat, Entry>, savedHead0: nat, headAtStart: nat)
      requires Quiet(meta0, path0, changes0, savedHead0, headAtStart)
      modifies `txDepth, `pending, `meta, `path, `changes, `savedHead, `head
      ensures Valid() && txDepth == 0
      ensures meta == meta0 && path == path0 && changes == changes0 && head == headAtStart
    {
      txDepth := 0;
      pending := [];
      meta, path, changes, savedHead := meta0, path0, changes0, savedHead0;
      head := headAtStart;
    }

    /** Makes the pending entries history, tells the listener, and trims now and then. */
    method Commit(now: nat)
      requires Valid() && txDepth > 0
      modifies `txDepth, `pending, `log, `delivered, `appendsSinceTrim, `changes, `trimmed
      ensures Valid() && txDepth == 0
      ensures log == old(log + pending) && old(trimmed) <= trimmed
      ensures if old(appendsSinceTrim) >= TRIM_EVERY then appendsSinceTrim == 0 && head - trimmed <= keep
              else appendsSinceTrim == old(appendsSinceTrim) && trimmed == old(trimmed)
    {
      txDepth := 0;
      var batch := pending;
      pending := [];
      log := log + batch;
      delivered := delivered + batch;
      assert Visible() == old(Visible());
      assert Valid();
      if appendsSinceTrim >= TRIM_EVERY {
        appendsSinceTrim := 0;
        var _ := TrimChanges(keep, maxAge, now);
      }
    }

    /** Upserts an entry's locations as a transaction of its own (or inside the current one). */
    method Put(id: string, locs: seq<Loc>, rename: Option<RenameHint>, now: nat)
      requires Valid() && txDepth == 0
      modifies this
      ensures Valid() && txDepth == 0
      ensures Tables(meta, path) == PutTables(old(Tables(meta, path)), id, locs)
      ensures id in meta && meta[id] == locs && forall l | l in locs :: l in path && path[l] == id
      ensures old(log) <= log
      ensures old(LogExplainsIndex() && Tables(meta, path).Unclaimed(id, locs)) ==> LogExplainsIndex()
    {
      ghost var t, log0 := Tables(meta, path), log;
      assert [PutCmd(id, locs, rename)][1..] == [];
      var _ := Transaction([PutCmd(id, locs, rename)], now);
      if t.Inverse() && Replay(map[], log0) == t.path && t.Unclaimed(id, locs) {
        LonePutIsSafe(t, id, locs, rename, |log0|, now);
        CommitExplains(t, log0, [PutCmd(id, locs, rename)], now);
      }
    }

    /** Drops an entry and every place it had; false when there is none. */
    method Remove(id: string, now: nat) returns (found: bool)
      requires Valid() && txDepth == 0
      modifies this
      ensures Valid() && txDepth == 0
      ensures found == (id in old(meta))
      ensures Tables(meta, path) == DeleteTables(old(Tables(meta, path)), id)
      ensures id !in meta && (id in old(meta) ==> forall l | l in old(meta)[id] :: l !in path)
      ensures old(log) <= log
      ensures old(LogExplainsIndex()) ==> LogExplainsIndex()
    {
      ghost var t, log0 := Tables(meta, path), log;
      found := id in meta;
      assert [DeleteCmd(id)][1..] == [];
      var _ := Transaction([DeleteCmd(id)], now);
      if t.Inverse() && Replay(map[], log0) == t.path {
        LoneDeleteIsSafe(t, id, |log0|, now);
        CommitExplains(t, log0, [DeleteCmd(id)], now);
      }
    }

    // ── The feed ────────────────────────────────────────────────────────────

    /** Sequence number of the oldest retained entry. */
    method Oldest() returns (r: Option<nat>)
      requires Contiguous()
      ensures r == if trimmed < head then Some(trimmed + 1) else None
    {
      var n := 1;
      while n <= head && n !in changes
        invariant 1 <= n <= trimmed + 1
      {
        n := n + 1;
      }
      if n in changes { return Some(n); }
      return None;
    }

    /** Entries after `since`, oldest first, optionally of one backend only. */
    method Changes(backend: Option<string>, since: int, limit: int) returns (page: Page)
      requires Valid()
      ensures page.head == head
      ensures page.oldest == if trimmed < head then Some(trimmed + 1) else None
      ensures var from := if since < 0 then 0 else since;
              && (page.cursorTooOld <==> from < trimmed)
              && from <= page.cursor
              && (page.cursorTooOld || head <= from ==> page.changes == [] && page.cursor == from)
              && (!page.cursorTooOld && from < head ==>
                    && page.cursor <= head
                    && page.changes == Matching(Visible()[from..page.cursor], backend)
                    && |page.changes| <= ClampLimit(limit)
                    && (|page.changes| == ClampLimit(limit) ==> page.changes[|page.changes| - 1].no == page.cursor)
                    && (page.cursor == head || |page.changes| == ClampLimit(limit)))
    {
      var from := if since < 0 then 0 else since;
      var max := ClampLimit(limit);
      var oldest := Oldest();
      var floor := match oldest case Some(n) => n case None => head + 1;
      var tooOld := from + 1 < floor;
      var found: seq<Entry> := [];
      var cursor := from;
      if !tooOld && from < head {
        found, cursor := ScanFrom(backend, from, max);
      }
      page := Page(found, head, oldest, cursor, tooOld);
    }

    /** Reads on from a retained position until the page is full or the head is reached. */
    method ScanFrom(backend: Option<string>, from: nat, max: nat) returns (found: seq<Entry>, cursor: nat)
      requires Valid() && trimmed <= from < head && max > 0
      ensures from <= cursor <= head && found == Matching(Visible()[from..cursor], backend)
      ensures |found| <= max && (|found| == max ==> found[max - 1].no == cursor)
      ensures cursor == head || |found| == max
    {
      found, cursor := [], from;
      while cursor < head && |found| < max
        invariant from <= cursor <= head
        invariant found == Matching(Visible()[from..cursor], backend)
        invariant |found| <= max && (|found| == max ==> found[max - 1].no == cursor)
        decreases head - cursor
      {
        cursor := cursor + 1;
        var value := changes[cursor];
        MatchingStep(Visible(), from, cursor, backend);
        if backend.None? || value.change.loc.backend == backend.value {
          found := found + [value];
        }
      }
    }

    /** Drops the longest run of oldest entries that are beyond the retention window. */
    method TrimChanges(keep: nat, maxAge: nat, now: nat) returns (count: nat)
      requires Valid() && txDepth == 0
      modifies `changes, `trimmed
      ensures Valid()
      ensures trimmed == old(trimmed) + count
      ensures head - trimmed <= keep
      ensures forall i | old(trimmed) <= i < trimmed :: log[i].no <= head - keep || log[i].ts + maxAge < now
      ensures trimmed < head ==> log[trimmed].no > head - keep && log[trimmed].ts + maxAge >= now
    {
      var oldest := Oldest();
      if oldest.None? { return 0; }
      var n := FirstKept(oldest.value, keep, maxAge, now);
      count := n - oldest.value;
      DropBefore(n);
    }

    method DropBefore(n: nat)
      requires Valid() && txDepth == 0 && trimmed < n <= head + 1
      modifies `changes, `trimmed
      ensures Valid() && trimmed == n - 1
    {
      changes := map m | m in changes && n <= m :: changes[m];
      trimmed := n - 1;
    }

    /** The first entry inside the retention window, or one past the end. */
    method FirstKept(oldest: nat, keep: nat, maxAge: nat, now: nat) returns (n: nat)
      requires Contiguous() && pending == [] && trimmed < head && oldest == trimmed + 1
      ensures trimmed < n <= head + 1 && head - n + 1 <= keep
      ensures n <= head ==> !Expired(log[n - 1], head - keep + 1, now - maxAge)
      ensures forall i | trimmed <= i < n - 1 :: Expired(log[i], head - keep + 1, now - maxAge)
    {
      var minSeq: int := head - keep + 1;
      var cutoff: int := now - maxAge;
      n := oldest;
      while n <= head && (n < minSeq || changes[n].ts < cutoff)
        invariant trimmed < n <= head + 1
        invariant forall i | trimmed <= i < n - 1 :: Expired(log[i], minSeq, cutoff)
      {
        n := n + 1;
      }
    }
  }

  lemma LoneDeleteIsSafe(t: Tables, id: string, base: nat, now: nat)
    ensures SafeRun(t.path, Work(t, []), [DeleteCmd(id)], base, now)
  {
    DeletesAreSafe(t.path, [], id, t.LocationsOf(id), base, now);
    assert [DeleteCmd(id)][1..] == [];
  }

  /** Committing a safe transaction extends the log so that it still replays to the path table. */
  lemma CommitExplains(t: Tables, log: seq<Entry>, cmds: seq<Command>, now: nat)
    requires t.Inverse() && Replay(map[], log) == t.path
    requires SafeRun(t.path, Work(t, []), cmds, |log|, now)
    ensures Run(Work(t, []), cmds, |log|, now).Some? ==>
              var w := Run(Work(t, []), cmds, |log|, now).value;
              w.tables.Inverse() && Replay(map[], log + w.pending) == w.tables.path
  {
    RunStaysExplained(t.path, Work(t, []), cmds, |log|, now);
    if Run(Work(t, []), cmds, |log|, now).Some? {
      ReplayConcat(map[], log, Run(Work(t, []), cmds, |log|, now).value.pending);
    }
  }

  /** The removed places that are logged as deletes, in order. */
  function KeptOf(removed: seq<Loc>, paired: bool, rename: Option<RenameHint>): seq<Loc>
    requires paired ==> rename.Some?
  {
    if paired then Minus(removed, [Loc(rename.value.backend, rename.value.from)]) else removed
  }

  lemma KeptOfStep(removed: seq<Loc>, i: nat, paired: bool, rename: Option<RenameHint>)
    requires i < |removed| && (paired ==> rename.Some?)
    ensures KeptOf(removed[..i + 1], paired, rename) ==
            if paired && removed[i] == Loc(rename.value.backend, rename.value.from)
            then KeptOf(removed[..i], paired, rename)
            else KeptOf(removed[..i], paired, rename) + [removed[i]]
  {
    assert removed[..i + 1][..i] == removed[..i];
  }

  lemma {:induction false} AppendAllConcat(pending: seq<Entry>, a: seq<Change>, b: seq<Change>, base: nat, now: nat)
    ensures AppendAll(pending, a + b, base, now) == AppendAll(AppendAll(pending, a, base, now), b, base, now)
  {
    if b == [] {
      assert a + b == a;
    } else {
      assert (a + b)[..|a + b| - 1] == a + b[..|b| - 1];
      AppendAllConcat(pending, a, b[..|b| - 1], base, now);
    }
  }

  function DeletesOf(pending: seq<Entry>, id: string, locs: seq<Loc>, base: nat, now: nat): seq<Entry> {
    AppendAll(pending, Deletes(id, locs), base, now)
  }

  lemma DeletesStep(pending: seq<Entry>, id: string, locs: seq<Loc>, l: Loc, base: nat, now: nat)
    ensures AppendAll(pending, Deletes(id, locs + [l]), base, now) ==
            Append(AppendAll(pending, Deletes(id, locs), base, now), Change(l, Delete, id), base, now)
  {
    assert Deletes(id, locs + [l]) == Deletes(id, locs) + [Change(l, Delete, id)];
    AppendAllSnoc(pending, Deletes(id, locs), Change(l, Delete, id), base, now);
  }

  lemma PutsStep(pending: seq<Entry>, id: string, locs: seq<Loc>, l: Loc, paired: bool, rename: Option<RenameHint>,
                 base: nat, now: nat)
    requires paired ==> rename.Some?
    ensures AppendAll(pending, Puts(id, locs + [l], paired, rename), base, now) ==
            Append(AppendAll(pending, Puts(id, locs, paired, rename), base, now), PutChange(id, l, paired, rename), base, now)
  {
    AppendAllSnoc(pending, Puts(id, locs, paired, rename), PutChange(id, l, paired, rename), base, now);
    PutsSnoc(id, locs, l, paired, rename);
  }

  lemma PutsSnoc(id: string, locs: seq<Loc>, l: Loc, paired: bool, rename: Option<RenameHint>)
    requires paired ==> rename.Some?
    ensures Puts(id, locs + [l], paired, rename) == Puts(id, locs, paired, rename) + [PutChange(id, l, paired, rename)]
  {
  }

  lemma AppendAllSnoc(pending: seq<Entry>, cs: seq<Change>, c: Change, base: nat, now: nat)
    ensures AppendAll(pending, cs + [c], base, now) == Append(AppendAll(pending, cs, base, now), c, base, now)
  {
    assert (cs + [c])[..|cs|] == cs;
  }

  /** The pending entries once the first `i` removed places are logged. */
  function LoggedRemoved(was: seq<Entry>, id: string, removed: seq<Loc>, i: nat, paired: bool, rename: Option<RenameHint>,
                         base: nat, now: nat): seq<Entry>
    requires i <= |removed| && (paired ==> rename.Some?)
  {
    if i == 0 then was
    else
      var before := LoggedRemoved(was, id, removed, i - 1, paired, rename, base, now);
      if paired && removed[i - 1] == Loc(rename.value.backend, rename.value.from) then before
      else Append(before, Change(removed[i - 1], Delete, id), base, now)
  }

  lemma {:induction false} RemovedIsAppended(was: seq<Entry>, id: string, removed: seq<Loc>, i: nat, paired: bool,
                                             rename: Option<RenameHint>, base: nat, now: nat)
    requires i <= |removed| && (paired ==> rename.Some?)
    ensures LoggedRemoved(was, id, removed, i, paired, rename, base, now) ==
            AppendAll(was, Deletes(id, KeptOf(removed[..i], paired, rename)), base, now)
    ensures removed[..|removed|] == removed
  {
    if i > 0 {
      RemovedIsAppended(was, id, removed, i - 1, paired, rename, base, now);
      KeptOfStep(removed, i - 1, paired, rename);
      DeletesStep(was, id, KeptOf(removed[..i - 1], paired, rename), removed[i - 1], base, now);
    } else {
      assert KeptOf(removed[..0], paired, rename) == [];
    }
  }

  /** The pending entries once the first `i` added places are logged. */
  function LoggedAdded(was: seq<Entry>, id: string, added: seq<Loc>, i: nat, paired: bool, rename: Option<RenameHint>,
                       base: nat, now: nat): seq<Entry>
    requires i <= |added| && (paired ==> rename.Some?)
  {
    if i == 0 then was
    else Append(LoggedAdded(was, id, added, i - 1, paired, rename, base, now), PutChange(id, added[i - 1], paired, rename), base, now)
  }

  lemma {:induction false} AddedIsAppended(was: seq<Entry>, id: string, added: seq<Loc>, i: nat, paired: bool,
                                           rename: Option<RenameHint>, base: nat, now: nat)
    requires i <= |added| && (paired ==> rename.Some?)
    ensures LoggedAdded(was, id, added, i, paired, rename, base, now) == AppendAll(was, Puts(id, added[..i], paired, rename), base, now)
    ensures added[..|added|] == added
  {
    if i > 0 {
      AddedIsAppended(was, id, added, i - 1, paired, rename, base, now);
      assert added[..i] == added[..i - 1] + [added[i - 1]];
      PutsStep(was, id, added[..i - 1], added[i - 1], paired, rename, base, now);
    }
  }

  function Cleared(m: PathMap, locs: seq<Loc>): PathMap {
    m - (set l | l in locs)
  }

  lemma ClearedStep(m: PathMap, locs: seq<Loc>, i: nat)
    requires i < |locs|
    ensures Cleared(m, locs[..i + 1]) == Cleared(m, locs[..i]) - {locs[i]}
  {
    assert locs[..i + 1] == locs[..i] + [locs[i]];
  }

  lemma WithPutsStep(m: PathMap, id: string, locs: seq<Loc>, i: nat)
    requires i < |locs|
    ensures WithPuts(m, id, locs[..i + 1], {}) == WithPuts(m, id, locs[..i], {})[locs[i] := id]
  {
    assert locs[..i + 1] == locs[..i] + [locs[i]];
  }

  lemma PutPathAgrees(path: PathMap, id: string, before: seq<Loc>, after: seq<Loc>, mid: PathMap, got: PathMap)
    requires mid == Cleared(path, Removed(before, after))
    requires got == WithPuts(mid, id, Dedup(after), {})
    ensures got == PathAfterPut(path, id, before, after)
  {
    var want := PathAfterPut(path, id, before, after);
    forall l ensures Lookup(got, l) == Lookup(want, l) {
    }
    MapsAgree(got, want);
  }
}
