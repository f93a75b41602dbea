/** The trash as the object the store mutates: item records rewritten through
    their states, and the pool of retained bytes beside them. */
module BackendTrashStore {
  import opened Options
  import opened ChangeLog
  import opened Trash

  /** A discard from its durable intent to its end, with every recorded copy dropped. */
  function WholeDiscard(w: World, id: nat): World {
    var d := Decide(BeginDiscard(w, id), id);
    if id !in d.dropping || id !in d.items then d
    else
      var sha := d.items[id].sha;
      EndDiscard(d.(copies := Without(d.copies, sha, RecordOf(d, sha).backends)), id)
  }

  function Without(copies: set<Copy>, sha: string, backends: set<string>): set<Copy> {
    copies - (set b | b in backends :: Copy(b, sha))
  }

  /** Dropping every copy is a series of single drops. */
  lemma {:induction false} DropsKeepSafe(w: World, id: nat, backends: set<string>)
    requires Safe(w) && id in w.dropping && id in w.items
    ensures Safe(w.(copies := Without(w.copies, w.items[id].sha, backends)))
    decreases |backends|
  {
    var sha := w.items[id].sha;
    if backends == {} {
      assert Without(w.copies, sha, backends) == w.copies;
      assert w.(copies := Without(w.copies, sha, backends)) == w;
    } else {
      var b :| b in backends;
      StepKeepsSafe(w, Drop(id, b));
      DropsKeepSafe(DropCopy(w, id, b), id, backends - {b});
      assert Without(DropCopy(w, id, b).copies, sha, backends - {b}) == Without(w.copies, sha, backends);
    }
  }

  lemma WholeDiscardIsSafe(w: World, id: nat)
    requires Safe(w) && w.dropping == {} && id in w.items && !w.items[id].state.Restored?
    ensures Safe(WholeDiscard(w, id))
  {
    StepKeepsSafe(w, Discard(id));
    DecidedIsSafe(BeginDiscard(w, id), id);
  }

  lemma DecidedIsSafe(b: World, id: nat)
    requires Safe(b) && id in b.items
    ensures var d := Decide(b, id);
            && Safe(d) && id in d.items
            && (id in d.dropping ==>
                  Safe(EndDiscard(d.(copies := Without(d.copies, d.items[id].sha, RecordOf(d, d.items[id].sha).backends)), id)))
  {
    StepKeepsSafe(b, DecideBytes(id));
    var d := Decide(b, id);
    if id in d.dropping {
      DropsKeepSafe(d, id, RecordOf(d, d.items[id].sha).backends);
      var e := d.(copies := Without(d.copies, d.items[id].sha, RecordOf(d, d.items[id].sha).backends));
      StepKeepsSafe(e, Close(id));
    }
  }

  lemma WholeDiscardTouchesOne(w: World, id: nat)
    requires w.dropping == {} && id in w.items && !w.items[id].state.Restored?
    ensures var d := WholeDiscard(w, id);
            && d.items.Keys == w.items.Keys && d.items[id].state.Discarded?
            && forall x | x != id && x in w.items :: d.items[x] == w.items[x]
  {
  }

  /** Does any other item, or an overwritten version, still need the digest? */
  ghost predicate StillNeeded(w: World, id: nat, sha: string) {
    || (sha in w.records && w.records[sha].versionKeys != {})
    || exists x :: x in w.items && x != id && w.items[x].sha == sha && w.items[x].state != Restored && w.items[x].state != Discarded
  }

  /** The last reference takes the bytes with it, exactly: while anything else
      needs them, no copy goes; otherwise every recorded copy does, and no other bytes ever. */
  lemma WholeDiscardFreesExactly(w: World, id: nat)
    requires Safe(w) && w.dropping == {} && id in w.items && w.items[id].Refers()
    requires w.items[id].pinned || forall at | w.items[id].sha in w.records && at in w.records[w.items[id].sha].keys ::
               at == w.items[id].address || at in w.records[w.items[id].sha].versionKeys
               || HasReference(w, w.items[id].sha, id, Some(at))
    ensures var d, sha := WholeDiscard(w, id), w.items[id].sha;
            && (w.items[id].pinned || StillNeeded(w, id, sha) ==> d.copies == w.copies && (sha in w.records ==> sha in d.records))
            && (!w.items[id].pinned && !StillNeeded(w, id, sha) ==>
                  sha !in d.records && forall b | sha in w.records && b in w.records[sha].backends :: Copy(b, sha) !in d.copies)
            && forall copy: Copy | copy.sha != sha :: copy in d.copies <==> copy in w.copies
  {
    var b := BeginDiscard(w, id);
    StepKeepsSafe(w, Discard(id));
    if !w.items[id].pinned && w.items[id].sha in w.records {
      SameReferences(w, id);
      DecideExact(b, id);
    }
  }

  /** Only what other items say counts as a reference. */
  lemma SameReferences(w: World, id: nat)
    requires id in w.items
    ensures var b := BeginDiscard(w, id);
            forall sha, at :: HasReference(b, sha, id, at) <==> HasReference(w, sha, id, at)
  {
    var b := BeginDiscard(w, id);
    forall sha, at ensures HasReference(b, sha, id, at) <==> HasReference(w, sha, id, at) {
      forall x | x in w.items && x != id ensures b.items[x] == w.items[x] {
      }
    }
  }

  /** A whole discard keeps every other item restorable, and leaves this one gone. */
  lemma DiscardSparesOthers(w: World, id: nat)
    requires Safe(w) && w.dropping == {} && id in w.items && !w.items[id].state.Restored?
    ensures var d := WholeDiscard(w, id);
            && Safe(d) && id in d.items && d.items[id].state.Discarded? && !CanRestore(d, id)
            && forall x | x != id && x in w.items && w.items[x].Live() :: CanRestore(d, x)
  {
    WholeDiscardIsSafe(w, id);
    WholeDiscardTouchesOne(w, id);
    var r := WholeDiscard(w, id);
    forall x | x != id && x in w.items && w.items[x].Live() ensures CanRestore(r, x) {
      LiveItemsRestore(r, x);
    }
  }

  class BackendTrash {
    var items: map<nat, Item>
    var records: map<string, Record>
    var copies: set<Copy>
    /** Ids read as pending by a caller that has not finished yet. */
    ghost var finishing: set<nat>

    ghost function State(): World
      reads this
    {
      World(items, records, copies, finishing, {})
    }

    constructor ()
      ensures State() == World(map[], map[], {}, {}, {}) && Safe(State())
    {
      items, records, copies, finishing := map[], map[], {}, {};
    }

    /** Retains the bytes and publishes the pending deletion. */
    method PrepareDeletion(id: nat, at: Loc, sha: string)
      requires id !in items
      modifies this
      ensures State() == Prepare(old(State()), id, at, sha)
      ensures old(Safe(State())) ==> Safe(State())
      ensures Records(State(), id, at, sha) && CanRestore(State(), id) && OthersKept(old(State()), State(), id)
    {
      ghost var was := State();
      DeletePublishes(was, id, at, sha);
      StoreCopy(at, sha, false);
      items := items[id := Item(at, sha, false, Pending)];
      finishing := finishing + {id};
      if Safe(was) { PrepareKeeps(was, id, at, sha); }
    }

    method RetainVersion(at: Loc, sha: string)
      modifies this
      ensures State() == KeepVersion(old(State()), at, sha)
      ensures old(Safe(State())) ==> Safe(State())
      ensures VersionKept(State(), at, sha) && Readable(State(), sha) && items == old(items) && old(copies) <= copies
    {
      ghost var was := State();
      StoreCopy(at, sha, true);
      if Safe(was) { StepKeepsSafe(was, Overwrite(at, sha)); }
      assert at in records[sha].keys && Copy(at.backend, sha) in copies;
    }

    method StoreCopy(at: Loc, sha: string, version: bool)
      modifies `copies, `records
      ensures State() == Retain(old(State()), at, sha, version)
    {
      copies := copies + {Copy(at.backend, sha)};
      var prev := if sha in records then records[sha] else Record({}, {}, {});
      var versionKeys := if version then prev.versionKeys + {at} else prev.versionKeys;
      records := records[sha := Record(prev.keys + {at}, versionKeys, prev.backends + {at.backend})];
    }

    /** Marks an item active from a copy read earlier, whose state no longer matters. */
    method FinishItem(id: nat)
      requires id in items && id in finishing
      modifies this
      ensures State() == Finish(old(State()), id)
      ensures old(Safe(State()) && items[id].Live()) ==> Safe(State())
    {
      ghost var was := State();
      items := items[id := items[id].(state := Active)];
      finishing := finishing - {id};
      if Safe(was) && was.items[id].Live() { StepKeepsSafe(was, MarkActive(id)); }
    }

    /** Does another item, at this place if one is given, still refer to the digest? */
    method ReferredTo(sha: string, except: nat, at: Option<Loc>) returns (found: bool)
      ensures found <==> HasReference(State(), sha, except, at)
    {
      var left := items.Keys;
      while left != {}
        invariant left <= items.Keys
        invariant forall id | id in items && id !in left ::
                    id == except || items[id].sha != sha || !items[id].Refers()
                    || (at.Some? && items[id].address != at.value)
        decreases |left|
      {
        var id :| id in left;
        left := left - {id};
        if id != except && items[id].sha == sha && items[id].Refers() && (at.None? || items[id].address == at.value) {
          return true;
        }
      }
      return false;
    }

    method RestoreItem(id: nat, free: bool) returns (ok: bool)
      modifies this
      ensures State() == Restore(old(State()), id, free)
      ensures ok <==> old(CanRestore(State(), id)) && free
      ensures old(Safe(State())) ==>
                Safe(State()) && (ok <==> id in old(items) && old(items[id].Live()) && free)
    {
      ghost var was := State();
      if Safe(was) {
        StepKeepsSafe(was, PutBack(id, free));
        if id in items && items[id].Live() { LiveItemsRestore(was, id); }
      }
      if id !in items || !items[id].Live() || !free { return false; }
      if !items[id].pinned {
        var readable := FindCopy(items[id].sha);
        if !readable { return false; }
      }
      items := items[id := items[id].(state := Restored)];
      return true;
    }

    /** Looks for the bytes on the backends the record's places name. */
    method FindCopy(sha: string) returns (found: bool)
      ensures found <==> Readable(State(), sha)
    {
      if sha !in records { return false; }
      var left := records[sha].keys;
      while left != {}
        invariant left <= records[sha].keys
        invariant forall at | at in records[sha].keys && at !in left :: Copy(at.backend, sha) !in copies
        decreases |left|
      {
        var at :| at in left;
        left := left - {at};
        if Copy(at.backend, sha) in copies { return true; }
      }
      return false;
    }

    method KeysLeft(id: nat) returns (keys: set<Loc>)
      requires id in items && items[id].sha in records
      ensures keys == KeysWithout(State(), id)
    {
      var item, r := items[id], records[items[id].sha];
      var shared := ReferredTo(item.sha, id, Some(item.address));
      keys := if shared || item.address in r.versionKeys then r.keys else r.keys - {item.address};
    }

    method DropCopies(sha: string, backends: set<string>)
      modifies `copies
      ensures copies == Without(old(copies), sha, backends)
    {
      var left := backends;
      while left != {}
        invariant left <= backends && copies == Without(old(copies), sha, backends - left)
        decreases |left|
      {
        var b :| b in left;
        left := left - {b};
        copies := copies - {Copy(b, sha)};
      }
    }

    /** Discards one item: intent first, then the bytes if nothing else needs them, then the record. */
    method DiscardItem(id: nat) returns (ok: bool)
      modifies this
      ensures ok <==> id in old(items) && !old(items[id].state.Restored?)
      ensures !ok ==> State() == old(State())
      ensures ok && !old(items[id].state.Discarded?) ==> State() == WholeDiscard(old(State()), id)
      ensures ok ==> id in items && items[id].state.Discarded?
      ensures old(Safe(State())) ==> Safe(State())
    {
      if id !in items || items[id].state.Restored? { return false; }
      if items[id].state.Discarded? { return true; }
      ghost var was := State();
      if Safe(was) { DiscardSparesOthers(was, id); }
      items := items[id := items[id].(state := Discarding)];
      ghost var begun := State();
      var item := items[id];
      if !item.pinned && item.sha in records {
        var keys := KeysLeft(id);
        var shared := ReferredTo(item.sha, id, None);
        if keys != {} || shared {
          records := records[item.sha := records[item.sha].(keys := keys)];
        } else {
          DropCopies(item.sha, records[item.sha].backends);
          records := records - {item.sha};
        }
      }
      items := items[id := item.(state := Discarded)];
      assert begun == BeginDiscard(was, id);
      return true;
    }
  }
}
