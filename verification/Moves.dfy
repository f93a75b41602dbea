/** Moving one object to another place: stream, record, then drop the source,
    now or when a remote write has landed, with crashes and outside writers
    between any two steps. */
module Moves {
  import opened Options
  import opened ChangeLog

  /** The content, where it leaves from and where it goes; `remote` when the write is queued. */
  datatype Job = Job(id: string, source: Loc, target: Loc, remote: bool)

  /** How far the running call is. After `SourceOk` the source's bytes are
      retained (`Kept`), or there were none to retain (`Unguarded`), and then taken away. */
  datatype Stage = Idle | Staged | Landed | Finalizing | TargetOk | SourceOk | Kept | Unguarded | Misfit(content: string) | Swapping | Swapped

  /** Bytes by place, the queued upload, the recovery area, the path index, the pending record, the stage. */
  datatype World = World(
    store: PathMap,
    queued: bool,
    synced: bool,
    recovery: set<string>,
    path: PathMap,
    pending: bool,
    stage: Stage)

  datatype Act =
    | Read(content: Option<string>)
    | Land
    | Record
    | Upload
    | Resume
    | CheckTarget
    | CheckSource
    | Keep
    | Take
    | Return
    | Swap
    | Forget
    | Crash
    | Outside(store: PathMap, path: PathMap)

  // ── Steps ─────────────────────────────────────────────────────────────────

  /** Streams the source through a hash; anything but the indexed content aborts. */
  function ReadStep(w: World, j: Job, content: Option<string>): World {
    if w.stage.Idle? && content == Some(j.id) then w.(stage := Staged) else w.(stage := Idle)
  }

  /** A local target gets the bytes now. */
  function LandStep(w: World, j: Job): World {
    if w.stage != Staged then w.(stage := Idle)
    else w.(store := if j.remote then w.store else w.store[j.target := j.id], stage := Landed)
  }

  /** Add-first, with the pending record and the queued write in the same transaction. */
  function RecordStep(w: World, j: Job): World {
    if w.stage != Landed then w.(stage := Idle)
    else if j.remote then
      w.(path := w.path[j.target := j.id], pending := true, queued := true, synced := false, stage := Idle)
    else w.(path := w.path[j.target := j.id], stage := Finalizing)
  }

  function UploadStep(w: World, j: Job): World {
    if w.queued then w.(store := w.store[j.target := j.id], queued := false, synced := true) else w
  }

  function ResumeStep(w: World, j: Job): World {
    if w.stage.Idle? && w.pending && w.synced && Lookup(w.path, j.target) == Some(j.id) then w.(stage := Finalizing)
    else w.(stage := Idle)
  }

  function CheckTargetStep(w: World, j: Job): World {
    if w.stage == Finalizing && Lookup(w.store, j.target) == Some(j.id) then w.(stage := TargetOk) else w.(stage := Idle)
  }

  function CheckSourceStep(w: World, j: Job): World {
    if w.stage != TargetOk then w.(stage := Idle)
    else if j.source !in w.store then w.(stage := Swapping)
    else if w.store[j.source] == j.id then w.(stage := SourceOk)
    else w.(stage := Idle)
  }

  /** The delete is refused unless the index still has this content at the
      source; otherwise a verified copy of the bytes is retained first. */
  function KeepStep(w: World, j: Job): World {
    if w.stage != SourceOk || Lookup(w.path, j.source) != Some(j.id) then w.(stage := Idle)
    else if j.source !in w.store then w.(stage := Unguarded)
    else if w.store[j.source] == j.id then w.(recovery := w.recovery + {j.id}, stage := Kept)
    else w.(stage := Idle)
  }

  /** Takes away whatever is at the source now, into the trash when retention went before. */
  function TakeStep(w: World, j: Job): World {
    if w.stage == Unguarded then w.(store := w.store - {j.source}, stage := Swapping)
    else if w.stage != Kept || j.source !in w.store then w.(stage := Idle)
    else
      var c := w.store[j.source];
      w.(store := w.store - {j.source}, recovery := w.recovery + {c}, stage := if c == j.id then Swapping else Misfit(c))
  }

  /** A writer won the race: its bytes go back if the place is still free, and stay in the trash if not. */
  function ReturnStep(w: World, j: Job): World {
    if !w.stage.Misfit? || j.source in w.store then w.(stage := Idle)
    else w.(store := w.store[j.source := w.stage.content], recovery := w.recovery - {w.stage.content}, stage := Idle)
  }

  /** The index write of a finished move. */
  function SwapStep(w: World, j: Job): World {
    if w.stage != Swapping || j.id !in w.path.Values then w.(stage := Idle)
    else
      var rest := if Lookup(w.path, j.source) == Some(j.id) then w.path - {j.source} else w.path;
      w.(path := rest[j.target := j.id], stage := Swapped)
  }

  /** The pending record goes in a write of its own. */
  function ForgetStep(w: World): World {
    if w.stage != Swapped then w.(stage := Idle) else w.(pending := false, stage := Idle)
  }

  function Next(w: World, j: Job, a: Act): World {
    match a
    case Read(content) => ReadStep(w, j, content)
    case Land => LandStep(w, j)
    case Record => RecordStep(w, j)
    case Upload => UploadStep(w, j)
    case Resume => ResumeStep(w, j)
    case CheckTarget => CheckTargetStep(w, j)
    case CheckSource => CheckSourceStep(w, j)
    case Keep => KeepStep(w, j)
    case Take => TakeStep(w, j)
    case Return => ReturnStep(w, j)
    case Swap => SwapStep(w, j)
    case Forget => ForgetStep(w)
    case Crash => w.(stage := Idle)
    case Outside(store, path) => w.(store := store, path := path)
  }

  predicate IsRun(run: seq<World>, acts: seq<Act>, j: Job) {
    && |run| == |acts| + 1
    && forall i | 0 <= i < |acts| :: run[i + 1] == Next(run[i], j, acts[i])
  }

  // ── The content is never lost ─────────────────────────────────────────────

  predicate Held(w: World, j: Job) {
    Lookup(w.store, j.source) == Some(j.id) || Lookup(w.store, j.target) == Some(j.id)
  }

  /** Has the target been verified in this call? */
  predicate PastTarget(stage: Stage) {
    stage.TargetOk? || stage.SourceOk? || stage.Kept? || stage.Unguarded? || stage.Misfit? || stage.Swapping? || stage.Swapped?
  }

  /** What is asked of other writers: not to destroy the last copy themselves,
      and to leave a verified target alone until the call is over. */
  predicate Considerate(run: seq<World>, acts: seq<Act>, j: Job)
    requires |run| == |acts| + 1
  {
    forall i | 0 <= i < |acts| && acts[i].Outside? ::
      && (Held(run[i], j) ==> Held(run[i + 1], j))
      && (PastTarget(run[i].stage) ==> Lookup(run[i + 1].store, j.target) == Lookup(run[i].store, j.target))
  }

  /** At every point of every run, crashes included, source or target holds the content. */
  lemma {:induction false} ContentSurvives(run: seq<World>, acts: seq<Act>, j: Job, n: nat)
    requires IsRun(run, acts, j) && Considerate(run, acts, j) && j.source != j.target && n <= |acts|
    requires Held(run[0], j) && run[0].stage.Idle?
    ensures Held(run[n], j)
    ensures PastTarget(run[n].stage) ==> Lookup(run[n].store, j.target) == Some(j.id)
  {
    if n > 0 {
      ContentSurvives(run, acts, j, n - 1);
      var w := run[n - 1];
      if !acts[n - 1].Outside? { StepHolds(w, j, acts[n - 1]); }
      assert run[n] == Next(w, j, acts[n - 1]);
    }
  }

  lemma StepHolds(w: World, j: Job, a: Act)
    requires Held(w, j) && j.source != j.target && !a.Outside?
    requires PastTarget(w.stage) ==> Lookup(w.store, j.target) == Some(j.id)
    ensures Held(Next(w, j, a), j)
    ensures PastTarget(Next(w, j, a).stage) ==> Lookup(Next(w, j, a).store, j.target) == Some(j.id)
  {
    match a
    case Take => TakeHolds(w, j);
    case Return => TakeHolds(w, j);
    case _ =>
  }

  lemma TakeHolds(w: World, j: Job)
    requires Held(w, j) && j.source != j.target
    requires PastTarget(w.stage) ==> Lookup(w.store, j.target) == Some(j.id)
    ensures Held(TakeStep(w, j), j) && Held(ReturnStep(w, j), j)
    ensures PastTarget(TakeStep(w, j).stage) ==> Lookup(TakeStep(w, j).store, j.target) == Some(j.id)
  {
  }

  predicate Recoverable(w: World, j: Job) {
    Held(w, j) || j.id in w.recovery
  }

  /** The one unrecoverable step: a delete without retention that takes the last copy. */
  predicate TakesLastCopy(w: World, j: Job, a: Act) {
    a.Take? && w.stage.Unguarded? && Lookup(w.store, j.source) == Some(j.id)
    && Lookup(w.store, j.target) != Some(j.id) && j.id !in w.recovery
  }

  /** Even with the target rewritten after its check, the content stays
      recoverable, unless a delete that found nothing to retain takes the last copy. */
  lemma {:induction false} AlwaysRecoverable(run: seq<World>, acts: seq<Act>, j: Job, n: nat)
    requires IsRun(run, acts, j) && j.source != j.target && Held(run[0], j) && run[0].stage.Idle? && n <= |acts|
    requires forall i | 0 <= i < |acts| && acts[i].Outside? :: Recoverable(run[i], j) ==> Recoverable(run[i + 1], j)
    requires forall i | 0 <= i < |acts| :: !TakesLastCopy(run[i], j, acts[i])
    ensures Recoverable(run[n], j)
    ensures run[n].stage.Kept? ==> j.id in run[n].recovery
    ensures run[n].stage.Misfit? ==> run[n].stage.content != j.id
  {
    if n > 0 {
      AlwaysRecoverable(run, acts, j, n - 1);
      var w := run[n - 1];
      assert run[n] == Next(w, j, acts[n - 1]);
      if !acts[n - 1].Outside? { StepRecovers(w, j, acts[n - 1]); }
    }
  }

  lemma StepRecovers(w: World, j: Job, a: Act)
    requires Recoverable(w, j) && j.source != j.target && !a.Outside?
    requires w.stage.Kept? ==> j.id in w.recovery
    requires w.stage.Misfit? ==> w.stage.content != j.id
    ensures Recoverable(Next(w, j, a), j) <==> !TakesLastCopy(w, j, a)
    ensures Next(w, j, a).stage.Kept? ==> j.id in Next(w, j, a).recovery
    ensures Next(w, j, a).stage.Misfit? ==> Next(w, j, a).stage.content != j.id
  {
    match a
    case Take => TakeRecovers(w, j);
    case Return => TakeRecovers(w, j);
    case Land => assert Next(w, j, a).store == w.store || Held(Next(w, j, a), j);
    case Upload => assert Next(w, j, a).store == w.store || Held(Next(w, j, a), j);
    case Keep =>
    case Swap => IndexKeepsBytes(w, j, a);
    case Forget => IndexKeepsBytes(w, j, a);
    case Record => IndexKeepsBytes(w, j, a);
    case CheckTarget => ChecksKeepBytes(w, j, a);
    case CheckSource => ChecksKeepBytes(w, j, a);
    case _ => StartsKeepBytes(w, j, a);
  }

  /** Neither looking nor index writes move bytes. */
  lemma ChecksKeepBytes(w: World, j: Job, a: Act)
    requires a.CheckTarget? || a.CheckSource?
    ensures Next(w, j, a).store == w.store && Next(w, j, a).recovery == w.recovery
    ensures !Next(w, j, a).stage.Kept? && !Next(w, j, a).stage.Misfit?
  {
  }

  lemma StartsKeepBytes(w: World, j: Job, a: Act)
    requires a.Read? || a.Resume? || a.Crash?
    ensures Next(w, j, a).store == w.store && Next(w, j, a).recovery == w.recovery
    ensures !Next(w, j, a).stage.Kept? && !Next(w, j, a).stage.Misfit?
  {
  }

  lemma IndexKeepsBytes(w: World, j: Job, a: Act)
    requires a.Record? || a.Swap? || a.Forget?
    ensures Next(w, j, a).store == w.store && Next(w, j, a).recovery == w.recovery
    ensures !Next(w, j, a).stage.Kept? && !Next(w, j, a).stage.Misfit?
  {
  }

  lemma TakeRecovers(w: World, j: Job)
    requires Recoverable(w, j) && j.source != j.target
    requires w.stage.Kept? ==> j.id in w.recovery
    requires w.stage.Misfit? ==> w.stage.content != j.id
    ensures Recoverable(TakeStep(w, j), j) <==> !TakesLastCopy(w, j, Take)
    ensures Recoverable(ReturnStep(w, j), j)
    ensures TakeStep(w, j).stage.Misfit? ==> TakeStep(w, j).stage.content != j.id
  {
  }

  /** The one step that can lose content for good: when the source vanished
      before it could be retained, the delete takes whatever came back. */
  lemma TakeKeepsExactly(w: World, j: Job, content: string)
    requires (w.stage.Kept? || w.stage.Unguarded?) && j.source != j.target
    requires Lookup(w.store, j.source) == Some(content)
    ensures var after := TakeStep(w, j);
            (content in after.recovery || content in after.store.Values) <==>
            (w.stage.Kept? || content in w.recovery || exists l :: l != j.source && Lookup(w.store, l) == Some(content))
  {
    var after := TakeStep(w, j);
    if l :| l != j.source && Lookup(w.store, l) == Some(content) {
      assert l in after.store && after.store[l] == content;
    }
    if content in after.store.Values {
      var l :| l in after.store && after.store[l] == content;
      assert l != j.source && Lookup(w.store, l) == Some(content);
    }
  }

  /** It happens: the source vanishes just before it would be retained, somebody
      writes another file there, and the delete takes that file for good. */
  lemma UnguardedDeleteLosesAFile(j: Job, other: string) returns (run: seq<World>, acts: seq<Act>)
    requires j.source != j.target && !j.remote && other != j.id
    ensures IsRun(run, acts, j) && run[0] == World(map[j.source := j.id], false, false, {}, map[j.source := j.id], false, Idle)
    ensures |acts| == 9 && acts == [Read(Some(j.id)), Land, Record, CheckTarget, CheckSource, acts[5], Keep, acts[7], Take]
    ensures acts[5].Outside? && acts[5].store == map[j.target := j.id]
    ensures acts[7].Outside? && acts[7].store == map[j.target := j.id, j.source := other]
    ensures run[9].store == map[j.target := j.id] && other !in run[9].recovery
  {
    var both, one := map[j.source := j.id, j.target := j.id], map[j.target := j.id];
    var foreign := map[j.target := j.id, j.source := other];
    acts := [Read(Some(j.id)), Land, Record, CheckTarget, CheckSource, Outside(one, both), Keep, Outside(foreign, both), Take];
    var w0 := World(map[j.source := j.id], false, false, {}, map[j.source := j.id], false, Idle);
    var w := World(both, false, false, {}, both, false, Finalizing);
    var w7 := w.(store := one, stage := Unguarded);
    run := [w0, w0.(stage := Staged), w0.(store := both, stage := Landed), w, w.(stage := TargetOk), w.(stage := SourceOk),
            w.(store := one, stage := SourceOk), w7, w7.(store := foreign), w7.(stage := Swapping)];
    UnguardedStarts(j, w0, w);
    UnguardedEnds(j, other, w.(store := both));
    forall i | 0 <= i < 9 ensures run[i + 1] == Next(run[i], j, acts[i]) {
      assert i == 0 || i == 1 || i == 2 || i == 3 || i == 4 || i == 5 || i == 6 || i == 7 || i == 8;
    }
  }

  lemma UnguardedStarts(j: Job, w0: World, w: World)
    requires j.source != j.target && !j.remote
    requires w0 == World(map[j.source := j.id], false, false, {}, map[j.source := j.id], false, Idle)
    requires var both := map[j.source := j.id, j.target := j.id]; w == World(both, false, false, {}, both, false, Finalizing)
    ensures Next(w0, j, Read(Some(j.id))) == w0.(stage := Staged)
    ensures Next(w0.(stage := Staged), j, Land) == w0.(store := w.store, stage := Landed)
    ensures Next(w0.(store := w.store, stage := Landed), j, Record) == w
  {
  }

  lemma UnguardedEnds(j: Job, other: string, w: World)
    requires j.source != j.target && other != j.id
    requires var both := map[j.source := j.id, j.target := j.id]; w == World(both, false, false, {}, both, false, Finalizing)
    ensures var one, foreign := map[j.target := j.id], map[j.target := j.id, j.source := other];
            && Next(w, j, CheckTarget) == w.(stage := TargetOk)
            && Next(w.(stage := TargetOk), j, CheckSource) == w.(stage := SourceOk)
            && Next(w.(store := one, stage := SourceOk), j, Keep) == w.(store := one, stage := Unguarded)
            && Next(w.(store := foreign, stage := Unguarded), j, Take) == w.(store := one, stage := Swapping)
  {
    TakesForeign(w.(store := map[j.target := j.id, j.source := other], stage := Unguarded), j, other);
  }

  lemma TakesForeign(w: World, j: Job, other: string)
    requires w.stage.Unguarded? && j.source != j.target && w.store == map[j.target := j.id, j.source := other]
    ensures TakeStep(w, j) == w.(store := map[j.target := j.id], stage := Swapping)
  {
    assert w.store - {j.source} == map[j.target := j.id];
  }

  /** A move whose source does not stream the indexed content writes nothing
      anywhere; neither does one whose target is not found holding it touch the source. */
  lemma WrongBytesMoveNothing(w: World, j: Job, content: Option<string>)
    requires w.stage.Idle?
    ensures content != Some(j.id) ==> RecordStep(LandStep(ReadStep(w, j, content), j), j) == w
    ensures Lookup(w.store, j.target) != Some(j.id) ==>
              Finalize(w.(stage := Finalizing), j) == w
  {
  }

  /** An index that no longer shows the content at the source stops the take, and one
      that has forgotten it altogether is not told about the target. */
  lemma StaleIndexMovesNothing(w: World, j: Job)
    ensures Lookup(w.path, j.source) != Some(j.id) ==> KeepStep(w, j) == w.(stage := Idle)
    ensures j.id !in w.path.Values ==> SwapStep(w, j) == w.(stage := Idle)
  {
  }

  /** A writer who wins the race against the take gets its bytes back: taken and
      returned undisturbed, the file is where it was, and the move has given up. */
  lemma RaceIsUndone(w: World, j: Job, other: string)
    requires w.stage.Kept? && Lookup(w.store, j.source) == Some(other) && other != j.id
    ensures ReturnStep(TakeStep(w, j), j).store == w.store && ReturnStep(TakeStep(w, j), j).stage.Idle?
    ensures ReturnStep(TakeStep(w, j), j).recovery == w.recovery - {other}
    ensures ReturnStep(TakeStep(w, j), j).path == w.path && ReturnStep(TakeStep(w, j), j).pending == w.pending
  {
    assert (w.store - {j.source})[j.source := other] == w.store;
    assert w.recovery + {other} - {other} == w.recovery - {other};
  }

  /** If the place has been written again by then, both stay: that file where it is, the taken one in the trash. */
  lemma TakenFileStaysInTrash(w: World, j: Job, other: string, store: PathMap)
    requires w.stage.Kept? && Lookup(w.store, j.source) == Some(other) && other != j.id && j.source in store
    ensures var r := ReturnStep(Next(TakeStep(w, j), j, Outside(store, w.path)), j);
            r.store == store && other in r.recovery && r.stage.Idle?
  {
  }

  // ── The source goes only after both ends were verified ────────────────────

  /** States `i+1 .. k` belong to one call. */
  predicate OneCall(run: seq<World>, i: nat, k: nat)
    requires k < |run|
  {
    forall n | i < n <= k :: !run[n].stage.Idle?
  }

  /** A step that neither checks, takes nor swaps. */
  predicate Early(a: Act) {
    a.Read? || a.Land? || a.Record? || a.Upload? || a.Resume? || a.Return? || a.Forget? || a.Crash? || a.Outside?
  }

  lemma EarlyStage(w: World, j: Job, a: Act)
    requires Early(a)
    ensures var s := Next(w, j, a).stage;
            if a.Upload? || a.Outside? then s == w.stage else s.Idle? || s.Staged? || s.Landed? || s.Finalizing?
  {
  }

  lemma TargetStage(w: World, j: Job)
    ensures var s := CheckTargetStep(w, j).stage; s.Idle? || (s.TargetOk? && Lookup(w.store, j.target) == Some(j.id))
  {
  }

  lemma SourceStage(w: World, j: Job)
    ensures var s := CheckSourceStep(w, j).stage;
            s.Idle? || (w.stage.TargetOk? && ((s.Swapping? && j.source !in CheckSourceStep(w, j).store)
                                              || (s.SourceOk? && Lookup(w.store, j.source) == Some(j.id))))
  {
  }

  lemma KeepStage(w: World, j: Job)
    ensures var s := KeepStep(w, j).stage; s.Idle? || (w.stage.SourceOk? && (s.Kept? || s.Unguarded?))
  {
  }

  lemma TakeStage(w: World, j: Job)
    ensures var s := TakeStep(w, j).stage;
            s.Idle? || ((w.stage.Kept? || w.stage.Unguarded?) && (s.Swapping? || s.Misfit?) && j.source !in TakeStep(w, j).store)
  {
  }

  lemma SwapStage(w: World, j: Job)
    ensures var s := SwapStep(w, j).stage; s.Idle? || (w.stage.Swapping? && s.Swapped?)
  {
  }

  /** One step back: a stage past the target check was already past it, or the check just succeeded. */
  lemma PastTargetBefore(w: World, j: Job, a: Act)
    requires PastTarget(Next(w, j, a).stage)
    ensures (a.CheckTarget? && Lookup(w.store, j.target) == Some(j.id)) || PastTarget(w.stage)
  {
    match a
    case CheckTarget => TargetStage(w, j);
    case CheckSource => SourceStage(w, j);
    case Keep => KeepStage(w, j);
    case Take => TakeStage(w, j);
    case Swap => SwapStage(w, j);
    case _ => EarlyStage(w, j, a);
  }

  lemma PastSourceBefore(w: World, j: Job, a: Act)
    requires var s := Next(w, j, a).stage; s.SourceOk? || s.Kept? || s.Unguarded?
    ensures (a.CheckSource? && w.stage.TargetOk? && Lookup(w.store, j.source) == Some(j.id))
            || w.stage.SourceOk? || w.stage.Kept? || w.stage.Unguarded?
  {
    match a
    case CheckTarget => TargetStage(w, j);
    case CheckSource => SourceStage(w, j);
    case Keep => KeepStage(w, j);
    case Take => TakeStage(w, j);
    case Swap => SwapStage(w, j);
    case _ => EarlyStage(w, j, a);
  }

  lemma SwappingBefore(w: World, j: Job, a: Act)
    requires Next(w, j, a).stage.Swapping?
    ensures PastTarget(w.stage) && (w.stage.Swapping? || j.source !in Next(w, j, a).store)
  {
    match a
    case CheckTarget => TargetStage(w, j);
    case CheckSource => SourceStage(w, j);
    case Keep => KeepStage(w, j);
    case Take => TakeStage(w, j);
    case Swap => SwapStage(w, j);
    case _ => EarlyStage(w, j, a);
  }

  lemma RemovesFromSource(w: World, j: Job, a: Act)
    requires !a.Outside? && j.source != j.target && j.source in w.store && j.source !in Next(w, j, a).store
    ensures w.stage.Kept? || w.stage.Unguarded?
  {
  }

  lemma ClearsPending(w: World, j: Job, a: Act)
    requires w.pending && !Next(w, j, a).pending
    ensures w.stage.Swapped? && a.Forget?
  {
  }

  lemma SwappedBefore(w: World, j: Job, a: Act)
    requires Next(w, j, a).stage.Swapped? && j.source != j.target
    ensures w.stage.Swapped? ||
            (a.Swap? && w.stage.Swapping? && Lookup(Next(w, j, a).path, j.target) == Some(j.id)
             && Lookup(Next(w, j, a).path, j.source) != Some(j.id))
  {
    if a.Swap? { SwapShows(w, j); } else { SwappedOnlyBySwap(w, j, a); }
  }

  lemma SwappedOnlyBySwap(w: World, j: Job, a: Act)
    requires Next(w, j, a).stage.Swapped? && !a.Swap?
    ensures w.stage.Swapped?
  {
    match a
    case CheckTarget => TargetStage(w, j);
    case CheckSource => SourceStage(w, j);
    case Keep => KeepStage(w, j);
    case Take => TakeStage(w, j);
    case Swap =>
    case _ => EarlyStage(w, j, a);
  }

  lemma SwapShows(w: World, j: Job)
    requires SwapStep(w, j).stage.Swapped? && j.source != j.target
    ensures w.stage.Swapping?
    ensures Lookup(SwapStep(w, j).path, j.target) == Some(j.id) && Lookup(SwapStep(w, j).path, j.source) != Some(j.id)
  {
  }

  /** The stage remembers the target check of the same call. */
  lemma {:induction false} TargetWasChecked(run: seq<World>, acts: seq<Act>, j: Job, k: nat) returns (i: nat)
    requires IsRun(run, acts, j) && k <= |acts| && run[0].stage.Idle? && PastTarget(run[k].stage)
    ensures i < k && acts[i].CheckTarget? && Lookup(run[i].store, j.target) == Some(j.id) && OneCall(run, i, k)
    decreases k
  {
    assert k > 0;
    assert run[k - 1 + 1] == Next(run[k - 1], j, acts[k - 1]);
    PastTargetBefore(run[k - 1], j, acts[k - 1]);
    if acts[k - 1].CheckTarget? && Lookup(run[k - 1].store, j.target) == Some(j.id) {
      i := k - 1;
    } else {
      i := TargetWasChecked(run, acts, j, k - 1);
    }
  }

  lemma {:induction false} SourceWasChecked(run: seq<World>, acts: seq<Act>, j: Job, k: nat) returns (s: nat)
    requires IsRun(run, acts, j) && k <= |acts| && run[0].stage.Idle?
    requires run[k].stage.SourceOk? || run[k].stage.Kept? || run[k].stage.Unguarded?
    ensures s < k && acts[s].CheckSource? && Lookup(run[s].store, j.source) == Some(j.id)
    ensures run[s].stage.TargetOk? && OneCall(run, s, k)
    decreases k
  {
    assert k > 0;
    assert run[k - 1 + 1] == Next(run[k - 1], j, acts[k - 1]);
    PastSourceBefore(run[k - 1], j, acts[k - 1]);
    if run[k - 1].stage.SourceOk? || run[k - 1].stage.Kept? || run[k - 1].stage.Unguarded? {
      s := SourceWasChecked(run, acts, j, k - 1);
    } else {
      s := k - 1;
    }
  }

  /** Whenever a move takes bytes from the source, the same call has found the
      content at the target, and after that at the source. */
  lemma SourceGoesAfterBothChecks(run: seq<World>, acts: seq<Act>, j: Job, k: nat) returns (i: nat, s: nat)
    requires IsRun(run, acts, j) && k < |acts| && run[0].stage.Idle? && !acts[k].Outside? && j.source != j.target
    requires j.source in run[k].store && j.source !in run[k + 1].store
    ensures i < s < k && OneCall(run, i, k)
    ensures acts[i].CheckTarget? && Lookup(run[i].store, j.target) == Some(j.id)
    ensures acts[s].CheckSource? && Lookup(run[s].store, j.source) == Some(j.id)
  {
    RemovesFromSource(run[k], j, acts[k]);
    s := SourceWasChecked(run, acts, j, k);
    i := TargetWasChecked(run, acts, j, s);
  }

  /** A pending record goes only after the same call found the content at the
      target, then saw the source empty or emptied it, and then wrote an index
      that shows the content at the target and not at the source. */
  lemma PendingUntilComplete(run: seq<World>, acts: seq<Act>, j: Job, k: nat) returns (i: nat, e: nat, s: nat)
    requires IsRun(run, acts, j) && k < |acts| && run[0].stage.Idle? && j.source != j.target
    requires run[k].pending && !run[k + 1].pending
    ensures i < e < s < k && OneCall(run, i, k)
    ensures acts[i].CheckTarget? && Lookup(run[i].store, j.target) == Some(j.id)
    ensures j.source !in run[e + 1].store
    ensures acts[s].Swap? && Lookup(run[s + 1].path, j.target) == Some(j.id) && Lookup(run[s + 1].path, j.source) != Some(j.id)
  {
    ClearsPending(run[k], j, acts[k]);
    s := IndexWasSwapped(run, acts, j, k);
    e := SourceWasEmpty(run, acts, j, s);
    i := TargetWasChecked(run, acts, j, e);
  }

  lemma {:induction false} IndexWasSwapped(run: seq<World>, acts: seq<Act>, j: Job, k: nat) returns (s: nat)
    requires IsRun(run, acts, j) && k <= |acts| && run[0].stage.Idle? && run[k].stage.Swapped? && j.source != j.target
    ensures s < k && acts[s].Swap? && run[s].stage.Swapping? && OneCall(run, s, k)
    ensures Lookup(run[s + 1].path, j.target) == Some(j.id) && Lookup(run[s + 1].path, j.source) != Some(j.id)
    decreases k
  {
    assert k > 0;
    assert run[k - 1 + 1] == Next(run[k - 1], j, acts[k - 1]);
    SwappedBefore(run[k - 1], j, acts[k - 1]);
    if run[k - 1].stage.Swapped? {
      s := IndexWasSwapped(run, acts, j, k - 1);
    } else {
      s := k - 1;
    }
  }

  lemma {:induction false} SourceWasEmpty(run: seq<World>, acts: seq<Act>, j: Job, k: nat) returns (e: nat)
    requires IsRun(run, acts, j) && k <= |acts| && run[0].stage.Idle? && run[k].stage.Swapping?
    ensures e < k && j.source !in run[e + 1].store && PastTarget(run[e].stage) && OneCall(run, e, k)
    decreases k
  {
    assert k > 0;
    assert run[k - 1 + 1] == Next(run[k - 1], j, acts[k - 1]);
    SwappingBefore(run[k - 1], j, acts[k - 1]);
    if run[k - 1].stage.Swapping? {
      e := SourceWasEmpty(run, acts, j, k - 1);
    } else {
      e := k - 1;
    }
  }

  // ── A pending move completes, whatever crashes come between ───────────────

  /** The `k`-th step of a resumed call; an empty source needs no taking. */
  function StepNo(w: World, j: Job, k: nat): World {
    if k == 1 then ResumeStep(w, j)
    else if k == 2 then CheckTargetStep(w, j)
    else if k == 3 then CheckSourceStep(w, j)
    else if k == 4 then (if w.stage.Swapping? then w else KeepStep(w, j))
    else if k == 5 then (if w.stage.Swapping? then w else TakeStep(w, j))
    else if k == 6 then SwapStep(w, j)
    else if k == 7 then ForgetStep(w)
    else w
  }

  /** The first `n` steps of a resumed call. */
  function Steps(w: World, j: Job, n: nat): World {
    if n == 0 then w else StepNo(Steps(w, j, n - 1), j, n)
  }

  /** One resumed call, start to finish. */
  function Complete(w: World, j: Job): World {
    Steps(w, j, 7)
  }

  function AfterCrashes(w: World, j: Job, crashes: seq<nat>): World
    decreases |crashes|
  {
    if crashes == [] then w else AfterCrashes(Steps(w, j, crashes[0]).(stage := Idle), j, crashes[1..])
  }

  /** The remote write has landed and nobody disturbs the two places; the source
      still holds the content, or an earlier call already took it, and the index
      may or may not have been swapped by then. */
  predicate Resumable(w: World, j: Job) {
    && w.stage.Idle? && j.source != j.target
    && Lookup(w.store, j.target) == Some(j.id) && Lookup(w.path, j.target) == Some(j.id)
    && ((Lookup(w.store, j.source) == Some(j.id) && Lookup(w.path, j.source) == Some(j.id))
        || (j.source !in w.store && j.id in w.recovery))
  }

  /** What a completed move leaves. */
  function Moved(w: World, j: Job): World {
    w.(store := w.store - {j.source},
       recovery := w.recovery + {j.id},
       path := if Lookup(w.path, j.source) == Some(j.id) then w.path - {j.source} else w.path,
       pending := false)
  }

  /** Resuming after any number of crashes, each at any step, completes the move
      exactly as one undisturbed call would. */
  lemma {:induction false} ResumeCompletes(w: World, j: Job, crashes: seq<nat>)
    requires Resumable(w, j) && w.pending && w.synced
    ensures var after := AfterCrashes(w, j, crashes);
            (if after.pending then Complete(after, j) else after) == Moved(w, j)
    decreases |crashes|
  {
    CallReplays(w, j, if crashes == [] then 7 else crashes[0]);
    if crashes != [] {
      var next := Steps(w, j, crashes[0]).(stage := Idle);
      if next.pending {
        ResumeCompletes(next, j, crashes[1..]);
      } else {
        DoneStaysDone(next, j, crashes[1..]);
      }
    }
  }

  /** Where a call stands after `n` steps. */
  function Standing(w: World, j: Job, n: nat): World {
    if n == 0 then w
    else if n == 1 then w.(stage := Finalizing)
    else if n == 2 then w.(stage := TargetOk)
    else if n >= 7 then Moved(w, j)
    else if n == 6 then Moved(w, j).(pending := w.pending, stage := Swapped)
    else if j.source !in w.store then w.(stage := Swapping)
    else if n == 3 then w.(stage := SourceOk)
    else if n == 4 then w.(recovery := w.recovery + {j.id}, stage := Kept)
    else w.(store := w.store - {j.source}, recovery := w.recovery + {j.id}, stage := Swapping)
  }

  lemma {:induction false} CallStands(w: World, j: Job, n: nat)
    requires Resumable(w, j) && w.pending && w.synced
    ensures Steps(w, j, n) == Standing(w, j, n)
  {
    if n > 0 {
      CallStands(w, j, n - 1);
      NextStands(w, j, n);
    }
  }

  lemma NextStands(w: World, j: Job, n: nat)
    requires Resumable(w, j) && w.pending && w.synced && n > 0
    ensures StepNo(Standing(w, j, n - 1), j, n) == Standing(w, j, n)
  {
    if n == 6 { SwapStands(w, j); }
  }

  lemma SwapStands(w: World, j: Job)
    requires Resumable(w, j) && w.pending && w.synced
    ensures SwapStep(Standing(w, j, 5), j) == Standing(w, j, 6)
  {
    assert w.path[j.target] == j.id && j.id in w.path.Values;
    assert w.path[j.target := j.id] == w.path;
    if Lookup(w.path, j.source) == Some(j.id) {
      assert (w.path - {j.source})[j.target := j.id] == w.path - {j.source};
    }
    if j.source !in w.store { assert w.store - {j.source} == w.store; }
  }

  /** A quiet move, remote or not: afterwards the bytes and the index show the
      content at the target and not at the source, a copy was retained, and every
      other place is as before. */
  function Done(w: World, j: Job): World {
    w.(store := (w.store - {j.source})[j.target := j.id],
       path := (w.path - {j.source})[j.target := j.id],
       recovery := w.recovery + {j.id})
  }

  function Begin(w: World, j: Job): World {
    RecordStep(LandStep(ReadStep(w, j, Lookup(w.store, j.source)), j), j)
  }

  function Finalize(w: World, j: Job): World {
    ForgetStep(SwapStep(TakeStep(KeepStep(CheckSourceStep(CheckTargetStep(w, j), j), j), j), j))
  }

  predicate Movable(w: World, j: Job) {
    && w.stage.Idle? && j.source != j.target
    && Lookup(w.store, j.source) == Some(j.id) && Lookup(w.path, j.source) == Some(j.id)
  }

  lemma LocalMoveCompletes(w: World, j: Job)
    requires Movable(w, j) && !j.remote
    ensures Finalize(Begin(w, j), j) == Done(w, j).(pending := false)
  {
    var b := Begin(w, j);
    assert b == w.(store := w.store[j.target := j.id], path := w.path[j.target := j.id], stage := Finalizing);
    var k := KeepStep(CheckSourceStep(CheckTargetStep(b, j), j), j);
    assert k == b.(recovery := w.recovery + {j.id}, stage := Kept);
    var t := TakeStep(k, j);
    assert t == k.(store := b.store - {j.source}, stage := Swapping);
    assert t.path[j.target] == j.id && j.id in t.path.Values;
    assert b.store - {j.source} == (w.store - {j.source})[j.target := j.id];
    assert (b.path - {j.source})[j.target := j.id] == (w.path - {j.source})[j.target := j.id];
  }

  /** A remote move waits, content still at the source, until the upload has
      landed; then resuming it, crashes and all, gives the same end. */
  lemma RemoteMoveCompletes(w: World, j: Job, crashes: seq<nat>)
    requires Movable(w, j) && j.remote
    ensures var b := Begin(w, j);
            && b.pending && b.store == w.store && b.stage.Idle? && ResumeStep(b, j) == b
            && var after := AfterCrashes(UploadStep(b, j), j, crashes);
               (if after.pending then Complete(after, j) else after)
               == Done(w, j).(pending := false, queued := false, synced := true)
  {
    var b := Begin(w, j);
    assert b == w.(path := w.path[j.target := j.id], pending := true, queued := true, synced := false);
    var u := UploadStep(b, j);
    assert u == b.(store := w.store[j.target := j.id], queued := false, synced := true);
    ResumeCompletes(u, j, crashes);
    assert u.store - {j.source} == (w.store - {j.source})[j.target := j.id];
    assert u.path - {j.source} == (w.path - {j.source})[j.target := j.id];
  }

  /** However far a call gets, it leaves the move resumable with the same outcome, or done. */
  lemma CallReplays(w: World, j: Job, n: nat)
    requires Resumable(w, j) && w.pending && w.synced
    ensures var next := Steps(w, j, n).(stage := Idle);
            if n >= 7 then next == Moved(w, j) && Steps(w, j, n) == next
            else Resumable(next, j) && next.pending && next.synced && Moved(next, j) == Moved(w, j)
  {
    CallStands(w, j, n);
    if n < 7 { StandingResumes(w, j, n); }
  }

  lemma StandingResumes(w: World, j: Job, n: nat)
    requires Resumable(w, j) && w.pending && w.synced && n < 7
    ensures var next := Standing(w, j, n).(stage := Idle);
            Resumable(next, j) && next.pending && next.synced && Moved(next, j) == Moved(w, j)
  {
    StandingHolds(w, j, n);
    StandingMoves(w, j, n);
  }

  lemma StandingHolds(w: World, j: Job, n: nat)
    requires Resumable(w, j) && w.pending && w.synced && n < 7
    ensures var next := Standing(w, j, n).(stage := Idle); Resumable(next, j) && next.pending && next.synced
  {
  }

  lemma StandingMoves(w: World, j: Job, n: nat)
    requires Resumable(w, j) && n < 7
    ensures Moved(Standing(w, j, n).(stage := Idle), j) == Moved(w, j)
  {
    if n == 6 {
      MovedTwice(w, j);
    } else if n >= 4 && j.source in w.store {
      TakenMoves(w, j, w.store);
      TakenMoves(w, j, w.store - {j.source});
    }
  }

  lemma MovedTwice(w: World, j: Job)
    requires w.stage.Idle?
    ensures Moved(Moved(w, j).(pending := w.pending), j) == Moved(w, j)
  {
    var m := Moved(w, j).(pending := w.pending);
    assert m.store - {j.source} == m.store;
    assert m.recovery + {j.id} == m.recovery;
    assert Moved(m, j).path == m.path;
  }

  /** Retaining and taking are part of what the finished move does anyway. */
  lemma TakenMoves(w: World, j: Job, store: PathMap)
    requires store == w.store || store == w.store - {j.source}
    ensures Moved(w.(store := store, recovery := w.recovery + {j.id}), j) == Moved(w, j)
  {
    assert store - {j.source} == w.store - {j.source};
    assert w.recovery + {j.id} + {j.id} == w.recovery + {j.id};
  }

  lemma {:induction false} IdleStays(w: World, j: Job, n: nat)
    requires w.stage.Idle? && !w.pending
    ensures Steps(w, j, n) == w
  {
    if n > 0 { IdleStays(w, j, n - 1); }
  }

  lemma {:induction false} DoneStaysDone(w: World, j: Job, crashes: seq<nat>)
    requires w.stage.Idle? && !w.pending
    ensures AfterCrashes(w, j, crashes) == w
    decreases |crashes|
  {
    if crashes != [] {
      IdleStays(w, j, crashes[0]);
      DoneStaysDone(w, j, crashes[1..]);
    }
  }
}
