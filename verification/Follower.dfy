/** The hub client that tails the change feed: its row map, its cursor, and why
    a poll that reaches the head leaves the rows equal to the hub's index. */
module Follower {
  import opened Options
  import opened ChangeLog
  import opened LocationTables
  import opened LocationIndex

  const CHANGES_PAGE: nat := 1000

  type Rows = map<string, string>

  function RowOf(files: Rows, key: string): Option<string> {
    if key in files then Some(files[key]) else None
  }

  /** What the hub's index, as of this log, holds at `backend:key`. */
  function HubRow(log: seq<Entry>, backend: string, key: string): Option<string> {
    Lookup(Replay(map[], log), Loc(backend, key))
  }

  // ── Applying feed entries to the rows ─────────────────────────────────────

  /** One feed entry: a rename always clears its source, other entries outside the scope are ignored. */
  function ApplyRow(files: Rows, c: Change, scope: string -> bool): Rows {
    match c.op
    case Rename(from) => if scope(c.loc.key) then (files - {from})[c.loc.key := c.id] else files - {from}
    case Delete => if scope(c.loc.key) then files - {c.loc.key} else files
    case Put => if scope(c.loc.key) then files[c.loc.key := c.id] else files
  }

  function ApplyRows(files: Rows, es: seq<Entry>, scope: string -> bool): Rows {
    if es == [] then files else ApplyRow(ApplyRows(files, es[..|es| - 1], scope), es[|es| - 1].change, scope)
  }

  predicate OneBackend(es: seq<Entry>, backend: string) {
    forall i | 0 <= i < |es| :: es[i].change.loc.backend == backend && es[i].change.WellFormed()
  }

  predicate SaneLog(log: seq<Entry>) {
    forall i | 0 <= i < |log| :: log[i].change.WellFormed()
  }

  /** An in-scope row goes where the last entry mentioning it says. */
  lemma {:induction false} RowsAt(files: Rows, es: seq<Entry>, backend: string, scope: string -> bool, key: string)
    requires OneBackend(es, backend) && scope(key)
    ensures RowOf(ApplyRows(files, es, scope), key) == Resolve(RowOf(files, key), FateOf(es, Loc(backend, key)))
  {
    if es != [] {
      RowsAt(files, es[..|es| - 1], backend, scope, key);
    }
  }

  /** Filtering out other backends hides nothing about this one. */
  lemma {:induction false} MatchingFate(es: seq<Entry>, backend: string, key: string)
    requires SaneLog(es)
    ensures OneBackend(Matching(es, Some(backend)), backend)
    ensures FateOf(Matching(es, Some(backend)), Loc(backend, key)) == FateOf(es, Loc(backend, key))
  {
    if es != [] {
      MatchingFate(es[..|es| - 1], backend, key);
      var init, last := Matching(es[..|es| - 1], Some(backend)), es[|es| - 1];
      assert (init + [last])[..|init|] == init;
    }
  }

  // ── The tracking invariant ────────────────────────────────────────────────

  /** Every in-scope row that no entry after the cursor mentions is already what the hub holds. */
  ghost predicate Tracks(files: Rows, log: seq<Entry>, backend: string, cursor: nat, scope: string -> bool)
    requires cursor <= |log|
  {
    forall key | scope(key) && FateOf(log[cursor..], Loc(backend, key)).Untouched? ::
      RowOf(files, key) == HubRow(log, backend, key)
  }

  /** At the head nothing is left to mention: the rows are the hub's map in scope. */
  lemma CaughtUp(files: Rows, log: seq<Entry>, backend: string, scope: string -> bool)
    ensures Tracks(files, log, backend, |log|, scope) <==>
            forall key | scope(key) :: RowOf(files, key) == HubRow(log, backend, key)
  {
    assert log[|log|..] == [];
    forall key ensures FateOf(log[|log|..], Loc(backend, key)).Untouched? {
    }
  }

  lemma HubRowSplit(log: seq<Entry>, c: nat, backend: string, key: string)
    requires c <= |log|
    ensures HubRow(log, backend, key) ==
            Resolve(HubRow(log[..c], backend, key), FateOf(log[c..], Loc(backend, key)))
  {
    assert log == log[..c] + log[c..];
    ReplayConcat(map[], log[..c], log[c..]);
    ReplayAt(Replay(map[], log[..c]), log[c..], Loc(backend, key));
  }

  /** Applying a page that was read at any earlier moment moves the cursor without losing track,
      however far the hub and the rows have moved on since. */
  lemma PageKeepsTrack(files: Rows, log: seq<Entry>, backend: string, c: nat, n: nat, scope: string -> bool)
    requires c <= n <= |log| && SaneLog(log)
    requires Tracks(files, log, backend, c, scope)
    ensures Tracks(ApplyRows(files, Matching(log[c..n], Some(backend)), scope), log, backend, n, scope)
  {
    var page := Matching(log[c..n], Some(backend));
    forall key | scope(key) && FateOf(log[n..], Loc(backend, key)).Untouched?
      ensures RowOf(ApplyRows(files, page, scope), key) == HubRow(log, backend, key)
    {
      MatchingFate(log[c..n], backend, key);
      RowsAt(files, page, backend, scope, key);
      assert log[c..] == log[c..n] + log[n..];
      FateConcat(log[c..n], log[n..], Loc(backend, key));
      HubRowSplit(log, c, backend, key);
    }
  }

  /** New hub entries never break the invariant. */
  lemma GrowthKeepsTrack(files: Rows, log: seq<Entry>, more: seq<Entry>, backend: string, c: nat, scope: string -> bool)
    requires c <= |log| && Tracks(files, log, backend, c, scope)
    ensures Tracks(files, log + more, backend, c, scope)
  {
    forall key | scope(key) && FateOf((log + more)[c..], Loc(backend, key)).Untouched?
      ensures RowOf(files, key) == HubRow(log + more, backend, key)
    {
      assert (log + more)[c..] == log[c..] + more;
      FateConcat(log[c..], more, Loc(backend, key));
      HubRowSplit(log + more, |log|, backend, key);
      assert (log + more)[..|log|] == log && (log + more)[|log|..] == more;
    }
  }

  /** The row a response leaves at `key` when the hub answered at position `m`. */
  function Answered(files: Rows, log: seq<Entry>, m: nat, backend: string, key: string): Rows
    requires m <= |log|
  {
    match HubRow(log[..m], backend, key)
    case Some(id) => files[key := id]
    case None => files - {key}
  }

  /** A response (stat, PUT, DELETE) recorded while the cursor is at `c` is harmless exactly when
      its key is out of scope, mentioned again after the cursor, or still what the hub holds. */
  lemma ResponseExact(files: Rows, log: seq<Entry>, backend: string, c: nat, m: nat, key: string, scope: string -> bool)
    requires c <= |log| && m <= |log|
    requires Tracks(files, log, backend, c, scope)
    ensures Tracks(Answered(files, log, m, backend, key), log, backend, c, scope) <==>
            (scope(key) && FateOf(log[c..], Loc(backend, key)).Untouched? ==>
               HubRow(log[..m], backend, key) == HubRow(log, backend, key))
  {
    var after := Answered(files, log, m, backend, key);
    assert RowOf(after, key) == HubRow(log[..m], backend, key);
    assert forall k | k != key :: RowOf(after, k) == RowOf(files, k);
  }

  /** In particular a response no older than the cursor never hurts. */
  lemma TimelyResponse(files: Rows, log: seq<Entry>, backend: string, c: nat, m: nat, key: string, scope: string -> bool)
    requires c <= m <= |log|
    requires Tracks(files, log, backend, c, scope)
    ensures Tracks(Answered(files, log, m, backend, key), log, backend, c, scope)
  {
    ResponseExact(files, log, backend, c, m, key, scope);
    assert log[c..] == log[c..m] + log[m..];
    FateConcat(log[c..m], log[m..], Loc(backend, key));
    HubRowSplit(log, m, backend, key);
  }

  /** A response that was overtaken by a poll is not: the device writes A, another device writes B,
      a poll reads both, and then the first response records A for good. */
  lemma LateResponseGoesStale(backend: string, key: string, a: string, b: string, scope: string -> bool)
    requires a != b && scope(key)
    ensures var log := [Entry(1, 0, Change(Loc(backend, key), Put, a)), Entry(2, 0, Change(Loc(backend, key), Put, b))];
            var files := map[key := b];
            && RowOf(files, key) == HubRow(log, backend, key)
            && Answered(files, log, 1, backend, key) == map[key := a]
            && !Tracks(Answered(files, log, 1, backend, key), log, backend, 2, scope)
  {
    var log := [Entry(1, 0, Change(Loc(backend, key), Put, a)), Entry(2, 0, Change(Loc(backend, key), Put, b))];
    assert log[..1] == [log[0]] && log[2..] == [] && log[..1][..0] == [];
    assert HubRow(log[..1], backend, key) == Some(a);
    assert HubRow(log, backend, key) == Some(b);
  }

  // ── Listings ──────────────────────────────────────────────────────────────

  /** A listing in which each key was read at its own position `at(key)` of the log. */
  ghost predicate ListedAt(files: Rows, log: seq<Entry>, backend: string, at: string -> nat, scope: string -> bool) {
    forall key | scope(key) :: at(key) <= |log| && RowOf(files, key) == HubRow(log[..at(key)], backend, key)
  }

  /** Taking the largest page head as the cursor is right exactly when no key changed between
      the page that listed it and that head, unless a later entry mentions it again. */
  lemma ListingExact(files: Rows, log: seq<Entry>, backend: string, at: string -> nat, c: nat, scope: string -> bool)
    requires c <= |log|
    requires ListedAt(files, log, backend, at, scope)
    ensures Tracks(files, log, backend, c, scope) <==>
            forall key | scope(key) && FateOf(log[c..], Loc(backend, key)).Untouched? ::
              HubRow(log[..at(key)], backend, key) == HubRow(log[..c], backend, key)
  {
    forall key | scope(key) && FateOf(log[c..], Loc(backend, key)).Untouched?
      ensures HubRow(log, backend, key) == HubRow(log[..c], backend, key)
    {
      HubRowSplit(log, c, backend, key);
    }
  }

  /** It can be wrong: a key changes between the first page, which listed it, and
      the last, whose head becomes the cursor. The old content stays for good. */
  lemma ListingCanStartOff(backend: string, key: string, a: string, b: string, scope: string -> bool)
    requires a != b && scope(key)
    ensures var log := [Entry(1, 0, Change(Loc(backend, key), Put, a)), Entry(2, 0, Change(Loc(backend, key), Put, b))];
            var at := (k: string) => if k == key then 1 else 2;
            && ListedAt(map[key := a], log, backend, at, scope)
            && !Tracks(map[key := a], log, backend, 2, scope)
            && HubRow(log, backend, key) == Some(b)
  {
    var log := [Entry(1, 0, Change(Loc(backend, key), Put, a)), Entry(2, 0, Change(Loc(backend, key), Put, b))];
    assert log[..1] == [log[0]] && log[2..] == [] && log[..1][..0] == [] && log[..2] == log;
    assert HubRow(log[..1], backend, key) == Some(a);
    assert HubRow(log, backend, key) == Some(b);
    forall k | k != key ensures HubRow(log, backend, k) == None {
      ReplayAt(map[], log, Loc(backend, k));
      FateUntouched(log, Loc(backend, k));
    }
  }

  /** A listing of a hub that stood still gives a sound starting point, for a new cursor or an older one. */
  lemma QuietListing(files: Rows, log: seq<Entry>, backend: string, n: nat, c: nat, scope: string -> bool)
    requires c <= n <= |log|
    requires forall key | scope(key) :: RowOf(files, key) == HubRow(log[..n], backend, key)
    ensures Tracks(files, log, backend, c, scope)
  {
    forall key | scope(key) && FateOf(log[c..], Loc(backend, key)).Untouched?
      ensures RowOf(files, key) == HubRow(log, backend, key)
    {
      assert log[c..] == log[c..n] + log[n..];
      FateConcat(log[c..n], log[n..], Loc(backend, key));
      HubRowSplit(log, n, backend, key);
    }
  }

  // ── Answers to renames ────────────────────────────────────────────────────

  /** The answer to the client's own rename moves its row, whatever that row holds by then. */
  function RenamedRow(files: Rows, from: string, to: string): Rows {
    if from in files then (files - {from})[to := files[from]] else files - {from}
  }

  predicate MentionedLater(log: seq<Entry>, backend: string, c: nat, key: string)
    requires c <= |log|
  {
    !FateOf(log[c..], Loc(backend, key)).Untouched?
  }

  /** A rename's answer is harmless exactly when its source is out of scope,
      mentioned again, or gone from the hub, and its target is out of scope,
      mentioned again, not touched by it, or what the client held at the source. */
  predicate RenameHarmless(files: Rows, log: seq<Entry>, backend: string, c: nat, from: string, to: string, scope: string -> bool)
    requires c <= |log|
  {
    && (!scope(from) || MentionedLater(log, backend, c, from) || HubRow(log, backend, from).None?)
    && (!scope(to) || MentionedLater(log, backend, c, to) || from !in files || HubRow(log, backend, to) == Some(files[from]))
  }

  lemma RenameAnswerExact(files: Rows, log: seq<Entry>, backend: string, c: nat, from: string, to: string, scope: string -> bool)
    requires c <= |log| && from != to
    requires Tracks(files, log, backend, c, scope)
    ensures Tracks(RenamedRow(files, from, to), log, backend, c, scope) <==>
            RenameHarmless(files, log, backend, c, from, to, scope)
  {
    var after := RenamedRow(files, from, to);
    assert RowOf(after, from).None?;
    assert forall k | k != from && k != to :: RowOf(after, k) == RowOf(files, k);
    assert RowOf(after, to) == if from in files then Some(files[from]) else RowOf(files, to);
  }

  /** While the rename itself is still ahead of the cursor its answer cannot hurt. */
  lemma TimelyRename(log: seq<Entry>, backend: string, c: nat, i: nat, from: string, to: string, id: string)
    requires c <= i < |log| && log[i].change == Change(Loc(backend, to), Rename(from), id)
    ensures MentionedLater(log, backend, c, from) && MentionedLater(log, backend, c, to)
  {
    assert log[c..][i - c] == log[i];
    FateUntouched(log[c..], Loc(backend, from));
    FateUntouched(log[c..], Loc(backend, to));
  }

  /** Overtaken by a poll it can: the device renames a to b, another device writes
      a new a, a poll reads both, and then the answer drops the new file's row. */
  lemma LateRenameDropsRow(backend: string, a: string, b: string, x: string, y: string, scope: string -> bool)
    requires a != b && scope(a)
    ensures var log := [Entry(1, 0, Change(Loc(backend, a), Put, x)), Entry(2, 0, Change(Loc(backend, b), Rename(a), x)),
                        Entry(3, 0, Change(Loc(backend, a), Put, y))];
            var files := map[a := y, b := x];
            && HubRow(log, backend, a) == Some(y) && HubRow(log, backend, b) == Some(x)
            && RenamedRow(files, a, b) == map[b := y]
            && !Tracks(RenamedRow(files, a, b), log, backend, 3, scope)
  {
    var log := [Entry(1, 0, Change(Loc(backend, a), Put, x)), Entry(2, 0, Change(Loc(backend, b), Rename(a), x)),
                Entry(3, 0, Change(Loc(backend, a), Put, y))];
    assert log[3..] == [] && log[..2] == [log[0], log[1]] && log[..2][..1] == [log[0]] && log[..2][..1][..0] == [];
    ReplayAt(map[], log, Loc(backend, a));
    ReplayAt(map[], log, Loc(backend, b));
    assert FateOf(log, Loc(backend, b)) == FateOf(log[..2], Loc(backend, b));
    assert RowOf(RenamedRow(map[a := y, b := x], a, b), a).None?;
  }

  // ── Whole sessions ────────────────────────────────────────────────────────

  datatype Session = Session(log: seq<Entry>, files: Rows, cursor: nat)

  /** Hub activity by anyone, the client included; the client applying a page read
      up to `n`; recording the answer to a stat, write or delete that the hub gave
      at position `m`; recording the answer to a rename; and taking over a
      listing, each key read at its own position, with a cursor. */
  datatype Step =
    | HubChange(c: Change)
    | PollTo(n: nat)
    | Answer(key: string, m: nat)
    | RenameAnswer(from: string, to: string)
    | Relist(listing: Rows, at: string -> nat, mark: nat)

  function Logged(s: Session, c: Change): Session {
    s.(log := s.log + [Entry(|s.log| + 1, 0, c)])
  }

  function Next(s: Session, step: Step, backend: string, scope: string -> bool): Session {
    match step
    case HubChange(c) => Logged(s, c)
    case PollTo(n) =>
      if s.cursor <= n <= |s.log|
      then s.(files := ApplyRows(s.files, Matching(s.log[s.cursor..n], Some(backend)), scope), cursor := n) else s
    case Answer(key, m) => if m <= |s.log| then s.(files := Answered(s.files, s.log, m, backend, key)) else s
    case RenameAnswer(from, to) => s.(files := RenamedRow(s.files, from, to))
    case Relist(listing, _, c) => s.(files := listing, cursor := c)
  }

  /** Hub entries are well formed, answers and listings come from the hub's past. */
  ghost predicate Allowed(s: Session, step: Step, backend: string, scope: string -> bool) {
    match step
    case HubChange(c) => c.WellFormed()
    case Answer(_, m) => m <= |s.log|
    case RenameAnswer(from, to) => from != to
    case Relist(listing, at, c) => c <= |s.log| && ListedAt(listing, s.log, backend, at, scope)
    case PollTo(_) => true
  }

  /** The answer or listing has not been overtaken in a way that a later entry would not put right. */
  ghost predicate Current(s: Session, step: Step, backend: string, scope: string -> bool)
    requires s.cursor <= |s.log| && Allowed(s, step, backend, scope)
  {
    match step
    case Answer(key, m) =>
      scope(key) && !MentionedLater(s.log, backend, s.cursor, key) ==>
        HubRow(s.log[..m], backend, key) == HubRow(s.log, backend, key)
    case RenameAnswer(from, to) => RenameHarmless(s.files, s.log, backend, s.cursor, from, to, scope)
    case Relist(_, at, c) =>
      forall key | scope(key) && !MentionedLater(s.log, backend, c, key) ::
        HubRow(s.log[..at(key)], backend, key) == HubRow(s.log[..c], backend, key)
    case _ => true
  }

  ghost predicate InStep(s: Session, backend: string, scope: string -> bool) {
    s.cursor <= |s.log| && SaneLog(s.log) && Tracks(s.files, s.log, backend, s.cursor, scope)
  }

  /** One step keeps the rows in step with the hub exactly when it is current. */
  lemma StepExact(s: Session, step: Step, backend: string, scope: string -> bool)
    requires InStep(s, backend, scope) && Allowed(s, step, backend, scope)
    ensures InStep(Next(s, step, backend, scope), backend, scope) <==> Current(s, step, backend, scope)
  {
    match step
    case HubChange(c) => GrowthKeepsTrack(s.files, s.log, [Entry(|s.log| + 1, 0, c)], backend, s.cursor, scope);
    case PollTo(n) =>
      if s.cursor <= n <= |s.log| {
        PageKeepsTrack(s.files, s.log, backend, s.cursor, n, scope);
      }
    case Answer(key, m) => ResponseExact(s.files, s.log, backend, s.cursor, m, key, scope);
    case RenameAnswer(from, to) => RenameAnswerExact(s.files, s.log, backend, s.cursor, from, to, scope);
    case Relist(listing, at, c) => ListingExact(listing, s.log, backend, at, c, scope);
  }

  /** An answer given at or after the cursor is current. */
  lemma TimelyAnswerIsCurrent(s: Session, key: string, m: nat, backend: string, scope: string -> bool)
    requires InStep(s, backend, scope) && s.cursor <= m <= |s.log|
    ensures Current(s, Answer(key, m), backend, scope)
  {
    TimelyResponse(s.files, s.log, backend, s.cursor, m, key, scope);
    ResponseExact(s.files, s.log, backend, s.cursor, m, key, scope);
  }

  /** A whole session, given as its states. */
  ghost predicate IsSession(states: seq<Session>, steps: seq<Step>, backend: string, scope: string -> bool) {
    && |states| == |steps| + 1
    && forall i | 0 <= i < |steps| ::
         Allowed(states[i], steps[i], backend, scope) && states[i + 1] == Next(states[i], steps[i], backend, scope)
  }

  /** From a sound start, in every state of every session whose answers and listings
      were current when recorded, however long they were in flight: when the cursor
      stands at the head, the rows are the hub's key → content map restricted to the scope. */
  lemma {:induction false} FollowerCorrect(states: seq<Session>, steps: seq<Step>, backend: string, scope: string -> bool, n: nat)
    requires IsSession(states, steps, backend, scope) && n <= |steps|
    requires InStep(states[0], backend, scope)
    requires forall i | 0 <= i < |steps| && InStep(states[i], backend, scope) :: Current(states[i], steps[i], backend, scope)
    ensures InStep(states[n], backend, scope)
    ensures states[n].cursor == |states[n].log| ==>
              forall key | scope(key) :: RowOf(states[n].files, key) == HubRow(states[n].log, backend, key)
  {
    if n > 0 {
      FollowerCorrect(states, steps, backend, scope, n - 1);
      StepExact(states[n - 1], steps[n - 1], backend, scope);
      assert states[n - 1 + 1] == Next(states[n - 1], steps[n - 1], backend, scope);
    }
    CaughtUp(states[n].files, states[n].log, backend, scope);
  }

  // Conditions a caller can see.

  /** The rename's own entry is still ahead of the cursor. */
  ghost predicate RenameAhead(s: Session, from: string, to: string, backend: string) {
    exists i, id | s.cursor <= i < |s.log| :: s.log[i].change == Change(Loc(backend, to), Rename(from), id)
  }

  /** Nothing of the backend was logged between the start of the listing and the position taken as cursor. */
  ghost predicate QuietUntil(log: seq<Entry>, backend: string, at: string -> nat, mark: nat, start: nat, scope: string -> bool)
    requires mark <= |log|
  {
    && (forall key | scope(key) :: start <= at(key))
    && forall i | start <= i < mark :: log[i].change.loc.backend != backend
  }

  /** An answer the hub gave at or after the cursor; a rename whose entry is still
      to be read; a listing during which the backend stood still until its cursor. */
  ghost predicate Timely(s: Session, step: Step, backend: string, scope: string -> bool) {
    match step
    case Answer(key, m) => s.cursor <= m
    case RenameAnswer(from, to) => RenameAhead(s, from, to, backend)
    case Relist(_, at, mark) => mark <= |s.log| && exists start :: QuietUntil(s.log, backend, at, mark, start, scope)
    case _ => true
  }

  lemma QuietKeyStands(log: seq<Entry>, backend: string, key: string, a: nat, mark: nat, start: nat)
    requires start <= a <= |log| && mark <= |log|
    requires forall i | start <= i < mark :: log[i].change.loc.backend != backend
    requires !MentionedLater(log, backend, mark, key)
    ensures HubRow(log[..a], backend, key) == HubRow(log[..mark], backend, key)
  {
    var l := Loc(backend, key);
    var lo, hi := if a <= mark then a else mark, if a <= mark then mark else a;
    assert log[..hi][..lo] == log[..lo] && log[..hi][lo..] == log[lo..hi];
    FateUntouched(log[lo..hi], l);
    if a > mark {
      assert log[mark..] == log[lo..hi] + log[hi..];
      FateConcat(log[lo..hi], log[hi..], l);
    }
    HubRowSplit(log[..hi], lo, backend, key);
  }

  lemma TimelyIsCurrent(s: Session, step: Step, backend: string, scope: string -> bool)
    requires InStep(s, backend, scope) && Allowed(s, step, backend, scope) && Timely(s, step, backend, scope)
    ensures Current(s, step, backend, scope)
  {
    match step
    case Answer(key, m) => TimelyAnswerIsCurrent(s, key, m, backend, scope);
    case RenameAnswer(from, to) =>
      var i, id :| s.cursor <= i < |s.log| && s.log[i].change == Change(Loc(backend, to), Rename(from), id);
      TimelyRename(s.log, backend, s.cursor, i, from, to, id);
    case Relist(_, at, mark) =>
      var start :| QuietUntil(s.log, backend, at, mark, start, scope);
      forall key | scope(key) && !MentionedLater(s.log, backend, mark, key)
        ensures HubRow(s.log[..at(key)], backend, key) == HubRow(s.log[..mark], backend, key)
      {
        QuietKeyStands(s.log, backend, key, at(key), mark, start);
      }
    case _ =>
  }

  /** A client that records an answer only if it is no older than its cursor, a
      rename only while its entry is ahead, and a listing only from a backend that
      stood still while it was listed, has the hub's rows in scope whenever its
      cursor stands at the head. */
  lemma TimelyFollowerCorrect(states: seq<Session>, steps: seq<Step>, backend: string, scope: string -> bool, n: nat)
    requires IsSession(states, steps, backend, scope) && n <= |steps|
    requires InStep(states[0], backend, scope)
    requires forall i | 0 <= i < |steps| :: Timely(states[i], steps[i], backend, scope)
    ensures states[n].cursor == |states[n].log| ==>
              forall key | scope(key) :: RowOf(states[n].files, key) == HubRow(states[n].log, backend, key)
  {
    forall i | 0 <= i < |steps| && InStep(states[i], backend, scope) ensures Current(states[i], steps[i], backend, scope) {
      TimelyIsCurrent(states[i], steps[i], backend, scope);
    }
    FollowerCorrect(states, steps, backend, scope, n);
  }

  // ── Paging ────────────────────────────────────────────────────────────────

  function Flatten(pages: seq<seq<Entry>>): seq<Entry> {
    if pages == [] then [] else Flatten(pages[..|pages| - 1]) + pages[|pages| - 1]
  }

  /** Page `i` was read from `logs[i]`, an earlier state of the log `end`, and gave the next cursor. */
  ghost predicate Following(logs: seq<seq<Entry>>, cursors: seq<nat>, pages: seq<seq<Entry>>,
                            backend: Option<string>, end: seq<Entry>) {
    && |logs| == |pages| && |cursors| == |pages| + 1
    && cursors[0] <= |end|
    && forall i | 0 <= i < |pages| ::
         && cursors[i] <= cursors[i + 1] <= |logs[i]| && logs[i] <= end
         && pages[i] == Matching(logs[i][cursors[i]..cursors[i + 1]], backend)
  }

  /** Following `cursor` over a log that keeps growing visits every matching entry exactly once, in order. */
  lemma {:induction false} FollowingVisitsOnce(logs: seq<seq<Entry>>, cursors: seq<nat>, pages: seq<seq<Entry>>,
                                               backend: Option<string>, end: seq<Entry>, n: nat)
    requires Following(logs, cursors, pages, backend, end) && n <= |pages|
    ensures cursors[0] <= cursors[n] <= |end|
    ensures Flatten(pages[..n]) == Matching(end[cursors[0]..cursors[n]], backend)
  {
    if n > 0 {
      FollowingVisitsOnce(logs, cursors, pages, backend, end, n - 1);
      var a, b, c := cursors[0], cursors[n - 1], cursors[n];
      assert pages[..n][..n - 1] == pages[..n - 1];
      assert logs[n - 1][b..c] == end[b..c];
      assert end[a..c] == end[a..b] + end[b..c];
      MatchingConcat(end[a..b], end[b..c], backend);
    }
  }

  predicate Ascending(es: seq<Entry>, since: nat) {
    && (forall i | 0 <= i < |es| :: since < es[i].no)
    && (forall i, j | 0 <= i < j < |es| :: es[i].no < es[j].no)
  }

  lemma {:induction false} PageAscends(log: seq<Entry>, start: nat, end: nat, backend: string)
    requires start <= end <= |log|
    requires forall i | 0 <= i < |log| :: log[i].no == i + 1
    ensures Ascending(Matching(log[start..end], Some(backend)), start)
    ensures forall i | 0 <= i < |Matching(log[start..end], Some(backend))| :: Matching(log[start..end], Some(backend))[i].no <= end
    decreases end
  {
    if start < end {
      PageAscends(log, start, end - 1, backend);
      MatchingStep(log, start, end, Some(backend));
    }
  }

  // ── The client itself ─────────────────────────────────────────────────────

  datatype PollResult = Polled(applied: nat) | TooOld | NoCursor

  /** Where a page leaves the cursor: at its last entry, or past everything examined when it was not full. */
  function AfterPage(page: Page, from: nat): nat {
    var last := if page.changes == [] then from else page.changes[|page.changes| - 1].no;
    var least := if page.changes == [] then page.head else if |page.changes| >= CHANGES_PAGE then last else page.cursor;
    if least > last then least else last
  }

  class CanvasClient {
    const backend: string
    const scope: string -> bool
    var files: Rows
    var cursor: Option<nat>
    var head: nat

    constructor (backend: string, scope: string -> bool)
      ensures this.backend == backend && this.scope == scope && files == map[] && cursor == None
    {
      this.backend, this.scope, files, cursor, head := backend, scope, map[], None, 0;
    }

    ghost predicate Tracking(hub: Index)
      reads this, hub
    {
      cursor.Some? && cursor.value <= |hub.log| && Tracks(files, hub.log, backend, cursor.value, scope)
    }

    method ApplyChange(c: Change)
      modifies `files
      ensures files == ApplyRow(old(files), c, scope)
    {
      var key := c.loc.key;
      if c.op.Rename? {
        files := files - {c.op.from};
        if scope(key) { files := files[key := c.id]; }
        return;
      }
      if !scope(key) { return; }
      if c.op.Delete? {
        files := files - {key};
      } else {
        files := files[key := c.id];
      }
    }

    /** Applies one page and moves past its last entry. */
    method ApplyPage(changes: seq<Entry>, since: nat, applied: nat) returns (since': nat, applied': nat)
      requires Ascending(changes, since)
      modifies `files
      ensures files == ApplyRows(old(files), changes, scope)
      ensures since' == (if changes == [] then since else changes[|changes| - 1].no)
      ensures applied' == applied + |changes|
    {
      since', applied' := since, applied;
      ghost var was := files;
      for i := 0 to |changes|
        invariant files == ApplyRows(was, changes[..i], scope)
        invariant since' == (if i == 0 then since else changes[i - 1].no)
        invariant applied' == applied + i
      {
        assert changes[..i + 1][..i] == changes[..i];
        ApplyChange(changes[i].change);
        applied' := applied' + 1;
        if changes[i].no > since' { since' := changes[i].no; }
      }
      assert changes[..|changes|] == changes;
    }

    /** Applies a fetched page; the cursor moves to its last entry, or past it when nothing more is left. */
    method TakePage(page: Page, from: nat) returns (full: bool, applied: nat)
      requires Ascending(page.changes, from)
      modifies `files, `cursor
      ensures files == ApplyRows(old(files), page.changes, scope)
      ensures full <==> |page.changes| >= CHANGES_PAGE
      ensures cursor == Some(AfterPage(page, from))
    {
      var since: nat;
      since, applied := ApplyPage(page.changes, from, 0);
      full := |page.changes| >= CHANGES_PAGE;
      if |page.changes| == 0 {
        if page.head > since { since := page.head; }
      } else if !full {
        if page.cursor > since { since := page.cursor; }
      }
      cursor := Some(since);
    }

    /** Fetches one page at the cursor, applies it and moves the cursor; `full` asks for another. */
    method PollPage(hub: Index) returns (tooOld: bool, full: bool, applied: nat)
      requires hub.Valid() && hub.txDepth == 0 && cursor.Some?
      modifies this
      ensures tooOld <==> old(cursor).value < hub.trimmed
      ensures tooOld ==> cursor == None && files == old(files) && !full
      ensures !tooOld ==> cursor.Some? && old(cursor).value <= cursor.value
      ensures !tooOld && old(cursor).value <= hub.head ==> cursor.value <= hub.head
      ensures !tooOld && !full && old(cursor).value <= hub.head ==> cursor.value == hub.head
      ensures full ==> old(cursor).value < cursor.value <= hub.head
      ensures !tooOld && old(Tracking(hub)) ==> Tracking(hub)
    {
      var since := cursor.value;
      var page := hub.Changes(Some(backend), since, CHANGES_PAGE);
      assert hub.Visible() == hub.log;
      if page.cursorTooOld {
        cursor := None;
        return true, false, 0;
      }
      head := if page.head > head then page.head else head;
      if since < hub.head { PageAscends(hub.log, since, page.cursor, backend); }
      full, applied := TakePage(page, since);
      tooOld := false;
      PageTracked(hub, page, old(cursor.value), old(files));
    }

    /** The page just applied covered everything up to the new cursor. */
    lemma PageTracked(hub: Index, page: Page, since: nat, was: Rows)
      requires hub.Valid() && hub.txDepth == 0 && cursor.Some?
      requires files == ApplyRows(was, page.changes, scope)
      requires since < hub.head ==>
                 since <= page.cursor <= hub.head && cursor.value == page.cursor
                 && page.changes == Matching(hub.log[since..page.cursor], Some(backend))
      requires hub.head <= since ==> page.changes == [] && cursor.value == since
      ensures since <= |hub.log| && Tracks(was, hub.log, backend, since, scope) ==> Tracking(hub)
    {
      if since < |hub.log| && Tracks(was, hub.log, backend, since, scope) {
        PageKeepsTrack(was, hub.log, backend, since, page.cursor, scope);
      }
    }

    /** Polls from the cursor to the hub's head, page by page. */
    method PollOnce(hub: Index) returns (r: PollResult)
      requires hub.Valid() && hub.txDepth == 0
      modifies this
      ensures old(cursor).None? ==> r == NoCursor && files == old(files) && cursor == None
      ensures old(cursor).Some? ==> (r == TooOld <==> old(cursor).value < hub.trimmed) && r != NoCursor
      ensures r == TooOld ==> cursor == None && files == old(files)
      ensures r.Polled? && old(cursor).value <= hub.head ==> cursor == Some(hub.head)
      ensures r.Polled? && old(Tracking(hub)) && hub.LogExplainsIndex() ==>
                forall key | scope(key) :: RowOf(files, key) == Lookup(hub.path, Loc(backend, key))
    {
      if cursor.None? { return NoCursor; }
      var tooOld, full, applied := PollPage(hub);
      if tooOld { return TooOld; }
      var total := applied;
      while full
        invariant cursor.Some? && old(cursor.value) <= cursor.value && hub.trimmed <= cursor.value
        invariant old(cursor.value) <= hub.head ==> cursor.value <= hub.head
        invariant !full && old(cursor.value) <= hub.head ==> cursor.value == hub.head
        invariant old(Tracking(hub)) ==> Tracking(hub)
        invariant full ==> cursor.value <= hub.head
        decreases if full then hub.head - cursor.value + 1 else 0
      {
        tooOld, full, applied := PollPage(hub);
        total := total + applied;
      }
      CaughtUp(files, hub.log, backend, scope);
      return Polled(total);
    }
  }
}
