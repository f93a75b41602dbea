/** One pass of the executor over the journal: for any mix of failures, backoff,
    retries, supersession, retirement and submissions during the pass, between
    an operation's claim and its start too, an
    operation is applied only when every earlier one of its owner is finished. */
module ReplicaDrain {
  import opened Options
  import opened ReplicaModel
  import opened ReplicaLedger

  /** How an application of an operation ends. An operation that completed may
      still be reopened when releasing its pins fails. */
  datatype Result = Completed | Transient(nextAt: nat) | Permanent | Reopened(transient: bool, nextAt: nat)

  /** Calls other code makes while the pass is under way. */
  datatype Call =
    | SubmitCall(id: OpId, owner: Owner, plan: Plan)
    | RetryCall(id: OpId)
    | SupersedeCall(id: OpId, successor: OpId, plan: Plan, row: OwnerRow)
    | RetireCall(owner: Owner, archive: Owner)

  /** What surrounds one journal row: calls before it, calls that already wait for
      the storage lock when it is claimed and so run before it starts, calls while
      it is applied (those that need the lock must wait), the outcome, the owner
      row it would commit, and whether cleaning up a finished operation fails. */
  datatype Turn = Turn(before: seq<Call>, queued: seq<Call>, during: seq<Call>, result: Result, row: OwnerRow, cleanupFails: bool)
  {
    predicate Undisturbed() { queued == [] && during == [] }
  }

  /** The journal at the moment an operation starts being applied. */
  datatype Applied = Applied(id: OpId, ops: Ops)

  predicate EarlierFinished(a: Applied) {
    && a.id in a.ops
    && forall j | j in a.ops && a.ops[j].owner == a.ops[a.id].owner && a.ops[j].no < a.ops[a.id].no :: a.ops[j].Terminal()
  }

  /** How the journal may change at any moment: operations stay, keep their
      numbers, stay finished, keep their owner unless finished; new ones are newer. */
  predicate Later(a: Ops, b: Ops, head: nat) {
    && (forall id | id in a ::
          && id in b && b[id].no == a[id].no
          && (a[id].Terminal() ==> b[id].Terminal())
          && (b[id].owner == a[id].owner || b[id].Terminal()))
    && (forall id | id in b && id !in a :: b[id].no > head)
  }

  /** Calls that wait for the storage lock aside, nothing finishes and nothing changes hands. */
  predicate SameStanding(a: Ops, b: Ops) {
    forall id | id in a :: id in b && b[id].owner == a[id].owner && (b[id].Terminal() <==> a[id].Terminal())
  }

  lemma SupersededIsLater(a: Ops, id: OpId, successor: OpId, head: nat, plan: Plan)
    requires id in a && successor !in a
    ensures Later(a, a[id := a[id].(state := Cancelled, successor := Some(successor))]
                      [successor := NewOp(a[id].owner, head + 1, plan)], head)
  {
  }

  lemma ArchivedIsLater(a: Ops, owner: Owner, archive: Owner, head: nat)
    requires forall id | id in a && a[id].owner == owner :: a[id].Terminal()
    ensures Later(a, Archived(a, owner, archive), head)
  {
  }

  predicate Busy(ops: Ops, owner: Owner) {
    exists id | id in ops :: ops[id].owner == owner && !ops[id].Terminal()
  }

  /** An owner with unfinished work keeps some, and keeps all its operations. */
  predicate OwnerStays(a: Ops, b: Ops, owner: Owner) {
    Busy(a, owner) ==> Busy(b, owner) && forall id | id in a && a[id].owner == owner :: id in b && b[id].owner == owner
  }

  lemma SupersededOwnerStays(a: Ops, id: OpId, successor: OpId, head: nat, plan: Plan, owner: Owner)
    requires id in a && successor !in a
    ensures OwnerStays(a, a[id := a[id].(state := Cancelled, successor := Some(successor))]
                           [successor := NewOp(a[id].owner, head + 1, plan)], owner)
  {
    var b := a[id := a[id].(state := Cancelled, successor := Some(successor))][successor := NewOp(a[id].owner, head + 1, plan)];
    if Busy(a, owner) {
      var j :| j in a && a[j].owner == owner && !a[j].Terminal();
      assert b[if j == id then successor else j].owner == owner;
    }
  }

  lemma ArchivedOwnerStays(a: Ops, owner: Owner, archive: Owner, other: Owner)
    requires forall id | id in a && a[id].owner == owner :: a[id].Terminal()
    ensures OwnerStays(a, Archived(a, owner, archive), other)
  {
    if Busy(a, other) {
      var j :| j in a && a[j].owner == other && !a[j].Terminal();
      assert Archived(a, owner, archive)[j] == a[j];
    }
  }

  lemma MoreOwnerStays(a: Ops, b: Ops, owner: Owner)
    requires forall id | id in a :: id in b && b[id].owner == a[id].owner && (b[id].Terminal() ==> a[id].Terminal())
    ensures OwnerStays(a, b, owner)
  {
    if Busy(a, owner) {
      var j :| j in a && a[j].owner == owner && !a[j].Terminal();
      assert b[j].owner == owner;
    }
  }

  /** What each call leaves in the journal; those that need the lock do nothing while it is held. */
  predicate CallDone(a: Ops, b: Ops, head: nat, call: Call, locked: bool) {
    match call
    case SubmitCall(id, owner, plan) => if id in a then b == a else b == a[id := NewOp(owner, head + 1, plan)]
    case RetryCall(id) => b == if id in a && !a[id].Terminal() then a[id := a[id].(state := Pending, nextAt := 0)] else a
    case SupersedeCall(id, successor, plan, _) =>
      if locked || id !in a || a[id].Terminal() || successor in a then b == a
      else successor in b && id in b && b[id] == a[id].(state := Cancelled, successor := Some(successor))
           && b[successor] == NewOp(a[id].owner, head + 1, plan)
    case RetireCall(owner, archive) =>
      if locked || exists id | id in a :: a[id].owner == owner && !a[id].Terminal() then b == a
      else b.Keys == a.Keys && forall id | id in a :: b[id] == if a[id].owner == owner then a[id].(owner := archive) else a[id]
  }

  method HandleCall(l: Ledger, call: Call, locked: bool, ghost owner: Owner)
    requires l.Valid()
    modifies l
    ensures l.Valid() && old(l.head) <= l.head
    ensures Later(old(l.ops), l.ops, old(l.head)) && OwnerStays(old(l.ops), l.ops, owner)
    ensures locked ==> SameStanding(old(l.ops), l.ops)
    ensures CallDone(old(l.ops), l.ops, old(l.head), call, locked)
  {
    ghost var start := l.ops;
    match call
    case SubmitCall(id, by', plan) =>
      var _ := l.Submit(id, by', plan, false, false);
      MoreOwnerStays(start, l.ops, owner);
    case RetryCall(id) =>
      if id in l.ops && !l.ops[id].Terminal() {
        l.Save(id, l.ops[id].(state := Pending, nextAt := 0));
      }
      MoreOwnerStays(start, l.ops, owner);
    case SupersedeCall(id, successor, plan, row) =>
      if !locked { SupersedeNow(l, id, successor, plan, row, owner); }
    case RetireCall(former, archive) =>
      if !locked { RetireNow(l, former, archive, owner); }
  }

  method SupersedeNow(l: Ledger, id: OpId, successor: OpId, plan: Plan, row: OwnerRow, ghost owner: Owner)
    requires l.Valid()
    modifies l
    ensures l.Valid() && old(l.head) <= l.head
    ensures Later(old(l.ops), l.ops, old(l.head)) && OwnerStays(old(l.ops), l.ops, owner)
    ensures CallDone(old(l.ops), l.ops, old(l.head), SupersedeCall(id, successor, plan, row), false)
  {
    ghost var was, head := l.ops, l.head;
    var ok := l.Supersede(id, successor, plan, row, false, false);
    if ok {
      SupersededIsLater(was, id, successor, head, plan);
      SupersededOwnerStays(was, id, successor, head, plan, owner);
    }
  }

  method RetireNow(l: Ledger, former: Owner, archive: Owner, ghost owner: Owner)
    requires l.Valid()
    modifies l
    ensures l.Valid() && old(l.head) <= l.head
    ensures Later(old(l.ops), l.ops, old(l.head)) && OwnerStays(old(l.ops), l.ops, owner)
    ensures CallDone(old(l.ops), l.ops, old(l.head), RetireCall(former, archive), false)
  {
    ghost var was, head := l.ops, l.head;
    var ok := l.RetireOwner(former, archive, false, false);
    if ok {
      ArchivedIsLater(was, former, archive, head);
      ArchivedOwnerStays(was, former, archive, owner);
    }
  }

  lemma LaterChains(a: Ops, b: Ops, c: Ops, headA: nat, headB: nat)
    requires Later(a, b, headA) && Later(b, c, headB) && headA <= headB
    ensures Later(a, c, headA)
  {
  }

  method HandleCalls(l: Ledger, calls: seq<Call>, locked: bool, ghost owner: Owner)
    requires l.Valid()
    modifies l
    ensures l.Valid() && old(l.head) <= l.head
    ensures Later(old(l.ops), l.ops, old(l.head)) && OwnerStays(old(l.ops), l.ops, owner)
    ensures locked ==> SameStanding(old(l.ops), l.ops)
    ensures calls == [] ==> l.ops == old(l.ops)
  {
    ghost var ops0, head0 := l.ops, l.head;
    for i := 0 to |calls|
      invariant l.Valid() && head0 <= l.head
      invariant Later(ops0, l.ops, head0) && OwnerStays(ops0, l.ops, owner)
      invariant locked ==> SameStanding(ops0, l.ops)
      invariant calls == [] ==> l.ops == ops0
    {
      ghost var mid, midHead := l.ops, l.head;
      HandleCall(l, calls[i], locked, owner);
      LaterChains(ops0, mid, l.ops, head0, midHead);
    }
  }

  predicate InOrder(ops: Ops, rows: seq<OpId>) {
    && (forall i | 0 <= i < |rows| :: rows[i] in ops)
    && forall i, j | 0 <= i < j < |rows| :: ops[rows[i]].no < ops[rows[j]].no
  }

  predicate AllBefore(ops: Ops, rows: seq<OpId>, left: set<OpId>)
    requires left <= ops.Keys
  {
    forall i, id | 0 <= i < |rows| && id in left :: rows[i] in ops && ops[rows[i]].no < ops[id].no
  }

  lemma OneMoreInOrder(ops: Ops, rows: seq<OpId>, left: set<OpId>, next: OpId, head: nat)
    requires Numbered(ops, head) && left <= ops.Keys && InOrder(ops, rows) && AllBefore(ops, rows, left)
    requires next in left && forall j | j in left :: ops[next].no <= ops[j].no
    ensures InOrder(ops, rows + [next]) && AllBefore(ops, rows + [next], left - {next})
  {
    forall id | id in left - {next} ensures ops[next].no < ops[id].no {
    }
  }

  /** Journal ids in submission order. */
  method SortedRows(ops: Ops, head: nat) returns (rows: seq<OpId>)
    requires Numbered(ops, head)
    ensures forall id :: id in rows <==> id in ops
    ensures forall i, j | 0 <= i < j < |rows| :: ops[rows[i]].no < ops[rows[j]].no
  {
    rows := [];
    var left := ops.Keys;
    while left != {}
      invariant left <= ops.Keys
      invariant forall id :: id in rows <==> id in ops && id !in left
      invariant InOrder(ops, rows) && AllBefore(ops, rows, left)
      decreases |left|
    {
      var next := Oldest(ops, left);
      OneMoreInOrder(ops, rows, left, next, head);
      rows := rows + [next];
      left := left - {next};
    }
  }

  method Oldest(ops: Ops, left: set<OpId>) returns (id: OpId)
    requires left != {} && left <= ops.Keys
    ensures id in left && forall j | j in left :: ops[id].no <= ops[j].no
  {
    id :| id in left;
    var rest := left - {id};
    while rest != {}
      invariant id in left && rest <= left
      invariant forall j | j in left && j !in rest :: ops[id].no <= ops[j].no
      decreases |rest|
    {
      var j :| j in rest;
      rest := rest - {j};
      if ops[j].no < ops[id].no { id := j; }
    }
  }

  /** Every visited operation is finished, or its owner is blocked for this pass. */
  predicate Visited(ops: Ops, rows: seq<OpId>, n: nat, blocked: set<Owner>)
    requires n <= |rows|
  {
    forall k | 0 <= k < n :: rows[k] in ops && (ops[rows[k]].Terminal() || ops[rows[k]].owner in blocked)
  }

  lemma VisitedLater(a: Ops, b: Ops, head: nat, rows: seq<OpId>, n: nat, blocked: set<Owner>)
    requires n <= |rows| && Visited(a, rows, n, blocked) && Later(a, b, head)
    ensures Visited(b, rows, n, blocked)
  {
  }

  /** Under the visiting discipline an operation about to be applied has no unfinished predecessor. */
  lemma VisitedMeansFirst(start: Ops, head: nat, ops: Ops, rows: seq<OpId>, n: nat, blocked: set<Owner>)
    requires n < |rows| && Numbered(start, head) && Later(start, ops, head)
    requires forall id :: id in rows <==> id in start
    requires forall i, j | 0 <= i < j < |rows| :: start[rows[i]].no < start[rows[j]].no
    requires Visited(ops, rows, n, blocked)
    requires ops[rows[n]].owner !in blocked
    ensures EarlierFinished(Applied(rows[n], ops))
  {
    var id := rows[n];
    assert id in start;
    forall j | j in ops && ops[j].owner == ops[id].owner && ops[j].no < ops[id].no ensures ops[j].Terminal() {
      assert j in start;
      assert j in rows;
      var k :| 0 <= k < |rows| && rows[k] == j;
      assert k < n;
    }
  }

  /** Re-saving an unfinished operation under its own number and owner is always allowed. */
  lemma LaterSave(ops: Ops, id: OpId, op: Op, head: nat)
    requires id in ops && op.no == ops[id].no && op.owner == ops[id].owner && !ops[id].Terminal()
    ensures Later(ops, ops[id := op], head)
  {
  }

  /** Nothing but the named operation differs. */
  predicate OnlyChanged(a: Ops, b: Ops, id: OpId) {
    forall j | j in a && j != id :: j in b && b[j] == a[j]
  }

  /** Only the named operation differs; it kept its owner, and is finished or not. */
  predicate Ended(a: Ops, b: Ops, id: OpId, finished: bool) {
    id in a && OnlyChanged(a, b, id) && id in b && b[id].owner == a[id].owner && (finished <==> b[id].Terminal())
  }

  /** Records how an application ended. */
  method Conclude(l: Ledger, id: OpId, turn: Turn) returns (finished: bool)
    requires l.Valid() && id in l.ops && !l.ops[id].Terminal()
    modifies l
    ensures l.Valid() && old(l.head) == l.head
    ensures Later(old(l.ops), l.ops, old(l.head))
    ensures finished <==> turn.result.Completed?
    ensures Ended(old(l.ops), l.ops, id, finished)
    ensures match turn.result
            case Completed => l.ops[id] == old(l.ops[id]).(state := Complete, finished := true)
            case Transient(nextAt) => l.ops[id] == old(l.ops[id]).(state := Pending, nextAt := nextAt)
            case Permanent => l.ops[id] == old(l.ops[id]).(state := Blocked, nextAt := 0)
            case Reopened(true, nextAt) => l.ops[id] == old(l.ops[id]).(finished := true, state := Pending, nextAt := nextAt)
            case Reopened(false, _) => l.ops[id] == old(l.ops[id]).(finished := true, state := Blocked, nextAt := 0)
    ensures turn.result.Completed? || turn.result.Reopened? ==> l.owners == old(l.owners)[old(l.ops[id]).owner := turn.row]
    ensures turn.result.Transient? || turn.result.Permanent? ==> l.owners == old(l.owners)
  {
    match turn.result
    case Completed =>
      CompleteNow(l, id, turn.row);
      finished := true;
    case Transient(nextAt) =>
      Postpone(l, id, Pending, nextAt);
      finished := false;
    case Permanent =>
      Postpone(l, id, Blocked, 0);
      finished := false;
    case Reopened(transient, nextAt) =>
      ReopenNow(l, id, turn.row, if transient then Pending else Blocked, if transient then nextAt else 0);
      finished := false;
  }

  method CompleteNow(l: Ledger, id: OpId, row: OwnerRow)
    requires l.Valid() && id in l.ops && !l.ops[id].Terminal()
    modifies l
    ensures l.Valid() && l.head == old(l.head)
    ensures Ended(old(l.ops), l.ops, id, true)
    ensures l.ops[id] == old(l.ops[id]).(state := Complete, finished := true)
    ensures l.owners == old(l.owners)[old(l.ops[id]).owner := row]
    ensures Later(old(l.ops), l.ops, old(l.head))
  {
    LaterSave(l.ops, id, l.ops[id].(state := Complete, finished := true), l.head);
    l.CompleteOp(id, row, false, false);
  }

  method Postpone(l: Ledger, id: OpId, state: OpState, nextAt: nat)
    requires l.Valid() && id in l.ops && !l.ops[id].Terminal() && (state.Pending? || state.Blocked?)
    modifies l
    ensures l.Valid() && l.head == old(l.head)
    ensures Ended(old(l.ops), l.ops, id, false)
    ensures l.ops[id] == old(l.ops[id]).(state := state, nextAt := nextAt) && l.owners == old(l.owners)
    ensures Later(old(l.ops), l.ops, old(l.head))
  {
    var op := l.ops[id].(state := state, nextAt := nextAt);
    LaterSave(l.ops, id, op, l.head);
    l.Save(id, op);
  }

  /** Completed, and unfinished again in the same breath. */
  method ReopenNow(l: Ledger, id: OpId, row: OwnerRow, state: OpState, nextAt: nat)
    requires l.Valid() && id in l.ops && !l.ops[id].Terminal() && (state.Pending? || state.Blocked?)
    modifies l
    ensures l.Valid() && l.head == old(l.head)
    ensures Ended(old(l.ops), l.ops, id, false)
    ensures l.ops[id] == old(l.ops[id]).(finished := true, state := state, nextAt := nextAt)
    ensures l.owners == old(l.owners)[old(l.ops[id]).owner := row]
    ensures Later(old(l.ops), l.ops, old(l.head))
  {
    var op := l.ops[id].(finished := true, state := state, nextAt := nextAt);
    LaterSave(l.ops, id, op, l.head);
    l.CompleteOp(id, row, false, false);
    l.Save(id, op);
  }

  /** Claims one operation, waits for the storage lock, and starts from the copy
      made at the claim: what a supersession in that window wrote is overwritten. */
  method Start(l: Ledger, id: OpId, queued: seq<Call>) returns (started: Ops)
    requires l.Valid() && id in l.ops && !l.ops[id].Terminal() && EarlierFinished(Applied(id, l.ops))
    modifies l
    ensures l.Valid() && old(l.head) <= l.head && started == l.ops
    ensures Later(old(l.ops), l.ops, old(l.head))
    ensures id in l.ops && l.ops[id] == old(l.ops[id]).(state := Running)
    ensures EarlierFinished(Applied(id, l.ops))
    ensures queued == [] ==> OnlyChanged(old(l.ops), l.ops, id)
  {
    ghost var ops0, head0 := l.ops, l.head;
    var copy := ClaimRow(l, id);
    ghost var ops1 := l.ops;
    RunQueued(l, id, copy, queued);
    LaterChains(ops0, ops1, l.ops, head0, head0);
    started := l.ops;
    StartedFirst(ops0, head0, l.ops, id);
  }

  /** The claim: the row says running, and the copy saved is the one that will be applied. */
  method ClaimRow(l: Ledger, id: OpId) returns (copy: Op)
    requires l.Valid() && id in l.ops && !l.ops[id].Terminal()
    modifies l
    ensures l.Valid() && l.head == old(l.head)
    ensures copy == old(l.ops[id]).(state := Running) && l.ops == old(l.ops)[id := copy]
    ensures Later(old(l.ops), l.ops, old(l.head))
  {
    copy := l.ops[id].(state := Running);
    LaterSave(l.ops, id, copy, l.head);
    l.Save(id, copy);
  }

  /** Waiting for the storage lock: queued calls run, then the claim's copy is written back. */
  method RunQueued(l: Ledger, id: OpId, copy: Op, queued: seq<Call>)
    requires l.Valid() && id in l.ops && l.ops[id] == copy && !copy.Terminal()
    modifies l
    ensures l.Valid() && old(l.head) <= l.head
    ensures Later(old(l.ops), l.ops, old(l.head)) && id in l.ops && l.ops[id] == copy
    ensures queued == [] ==> l.ops == old(l.ops)
  {
    ghost var ops1, head1 := l.ops, l.head;
    assert Busy(ops1, copy.owner);
    HandleCalls(l, queued, false, copy.owner);
    RestoredIsLater(ops1, l.ops, id, head1);
    l.Save(id, copy);
  }

  /** Writing an operation's own copy back hides whatever happened to it meanwhile. */
  lemma RestoredIsLater(a: Ops, b: Ops, id: OpId, head: nat)
    requires id in a && !a[id].Terminal() && Later(a, b, head)
    ensures Later(a, b[id := a[id]], head)
  {
  }

  lemma StartedFirst(a: Ops, head: nat, b: Ops, id: OpId)
    requires Numbered(a, head) && Later(a, b, head) && EarlierFinished(Applied(id, a)) && id in b
    requires b[id].owner == a[id].owner
    ensures EarlierFinished(Applied(id, b))
  {
    forall j | j in b && b[j].owner == b[id].owner && b[j].no < b[id].no ensures b[j].Terminal() {
      assert j in a;
    }
  }

  /** Applies one operation: claim it, let other code run, record the end. */
  method ApplyOne(l: Ledger, id: OpId, turn: Turn) returns (finished: bool, started: Ops)
    requires l.Valid() && id in l.ops && !l.ops[id].Terminal() && EarlierFinished(Applied(id, l.ops))
    modifies l
    ensures l.Valid() && old(l.head) <= l.head
    ensures Later(old(l.ops), l.ops, old(l.head))
    ensures EarlierFinished(Applied(id, started))
    ensures finished <==> turn.result.Completed?
    ensures id in l.ops && l.ops[id].owner == old(l.ops[id].owner) && (finished <==> l.ops[id].Terminal())
    ensures turn.result.Transient? ==> l.ops[id].state == Pending && l.ops[id].nextAt == turn.result.nextAt
    ensures turn.result.Permanent? ==> l.ops[id].state == Blocked
    ensures turn.Undisturbed() ==> OnlyChanged(old(l.ops), l.ops, id)
  {
    ghost var ops0, head0 := l.ops, l.head;
    started := Start(l, id, turn.queued);
    ghost var ops1, head1 := l.ops, l.head;
    HandleCalls(l, turn.during, true, l.ops[id].owner);
    LaterChains(ops0, ops1, l.ops, head0, head1);
    ghost var ops2, head2 := l.ops, l.head;
    assert id in ops1;
    finished := Conclude(l, id, turn);
    LaterChains(ops0, ops2, l.ops, head0, head2);
  }

  function TurnAt(turns: seq<Turn>, i: nat): Turn {
    if i < |turns| then turns[i] else Turn([], [], [], Permanent, OwnerRow("", []), false)
  }

  /** The journal rows as found at the start of the pass, oldest first. */
  ghost predicate Journal(start: Ops, head: nat, rows: seq<OpId>) {
    && Numbered(start, head)
    && (forall id :: id in rows <==> id in start)
    && (forall i, j | 0 <= i < j < |rows| :: start[rows[i]].no < start[rows[j]].no)
  }

  /** Where the pass stands before row `i`. */
  ghost predicate Standing(start: Ops, head: nat, rows: seq<OpId>, i: nat, blocked: set<Owner>, l: Ledger)
    requires i <= |rows|
    reads l
  {
    l.Valid() && head <= l.head && Later(start, l.ops, head) && Visited(l.ops, rows, i, blocked)
  }

  /** Pending, due, and first among its owner's unfinished operations. */
  predicate Ready(ops: Ops, id: OpId, now: nat) {
    && id in ops && !ops[id].Terminal() && ops[id].state != Blocked && ops[id].nextAt <= now
    && EarlierFinished(Applied(id, ops))
  }

  /** With no calls from outside, rows from `i` on are as found, and an owner is
      held back only because of an unfinished operation visited before. */
  ghost predicate Steady(start: Ops, rows: seq<OpId>, i: nat, blocked: set<Owner>, ops: Ops)
    requires i <= |rows|
  {
    && (forall k | i <= k < |rows| :: rows[k] in start && rows[k] in ops && ops[rows[k]] == start[rows[k]])
    && (forall o | o in blocked ::
          exists k | 0 <= k < i :: rows[k] in start && start[rows[k]].owner == o && !start[rows[k]].Terminal())
  }

  lemma ReadyNotBlocked(start: Ops, head: nat, rows: seq<OpId>, i: nat, blocked: set<Owner>, ops: Ops, now: nat)
    requires Journal(start, head, rows) && i < |rows| && Steady(start, rows, i, blocked, ops)
    requires Ready(start, rows[i], now)
    ensures start[rows[i]].owner !in blocked
  {
  }

  lemma SteadyNext(start: Ops, head: nat, rows: seq<OpId>, i: nat, blocked: set<Owner>, blocked': set<Owner>, a: Ops, b: Ops)
    requires Journal(start, head, rows) && i < |rows| && Steady(start, rows, i, blocked, a)
    requires OnlyChanged(a, b, rows[i])
    requires blocked' == blocked || (!a[rows[i]].Terminal() && blocked' == blocked + {a[rows[i]].owner})
    ensures Steady(start, rows, i + 1, blocked', b)
  {
    forall k | i + 1 <= k < |rows| ensures rows[k] in b && b[rows[k]] == start[rows[k]] {
      assert start[rows[i]].no < start[rows[k]].no;
    }
    forall o | o in blocked'
      ensures exists k | 0 <= k < i + 1 :: rows[k] in start && start[rows[k]].owner == o && !start[rows[k]].Terminal()
    {
      if o in blocked {
        var k :| 0 <= k < i && rows[k] in start && start[rows[k]].owner == o && !start[rows[k]].Terminal();
        assert 0 <= k < i + 1;
      } else {
        assert rows[i] in start;
      }
    }
  }

  /** Applies row `i` unless it is finished, its owner is held back, or it is not due. */
  method VisitRow(l: Ledger, now: nat, rows: seq<OpId>, i: nat, blocked: set<Owner>, turn: Turn,
                  ghost start: Ops, ghost startHead: nat)
    returns (applied: Option<Applied>, blocked': set<Owner>, abort: bool)
    requires Journal(start, startHead, rows) && i < |rows|
    requires Standing(start, startHead, rows, i, blocked, l)
    modifies l
    ensures Standing(start, startHead, rows, i + 1, blocked', l)
    ensures applied.Some? ==> EarlierFinished(applied.value) && applied.value.id == rows[i]
    ensures applied.Some? ==> rows[i] in old(l.ops) && !old(l.ops[rows[i]]).Terminal()
                              && old(l.ops[rows[i]]).state != Blocked && old(l.ops[rows[i]]).nextAt <= now
    ensures applied.Some? && turn.result.Transient? ==>
              rows[i] in l.ops && l.ops[rows[i]].state == Pending && l.ops[rows[i]].nextAt == turn.result.nextAt
    ensures applied.None? ==> l.ops == old(l.ops)
    ensures abort <==> rows[i] in old(l.ops) && old(l.ops[rows[i]]).Terminal() && turn.cleanupFails
    ensures turn.Undisturbed() && Steady(start, rows, i, blocked, old(l.ops)) ==>
              && Steady(start, rows, i + 1, blocked', l.ops)
              && (Ready(start, rows[i], now) ==> applied.Some?)
  {
    ghost var ops0 := l.ops;
    var id := rows[i];
    applied, blocked', abort := None, blocked, false;
    assert id in start;
    var op := l.ops[id];
    if op.Terminal() {
      abort := turn.cleanupFails;
    } else if op.owner in blocked {
    } else if op.state == Blocked || op.nextAt > now {
      blocked' := blocked + {op.owner};
    } else {
      VisitedMeansFirst(start, startHead, l.ops, rows, i, blocked);
      ghost var ops1, head1 := l.ops, l.head;
      var finished, started := ApplyOne(l, id, turn);
      applied := Some(Applied(id, started));
      LaterChains(start, ops1, l.ops, startHead, head1);
      VisitedLater(ops1, l.ops, head1, rows, i, blocked);
      if !finished { blocked' := blocked + {op.owner}; }
    }
    if turn.Undisturbed() && Steady(start, rows, i, blocked, ops0) {
      SteadyNext(start, startHead, rows, i, blocked, blocked', ops0, l.ops);
      if Ready(start, id, now) { ReadyNotBlocked(start, startHead, rows, i, blocked, ops0, now); }
    }
  }

  method CallsBetween(l: Ledger, calls: seq<Call>, ghost rows: seq<OpId>, ghost i: nat, ghost blocked: set<Owner>,
                      ghost start: Ops, ghost startHead: nat)
    requires i <= |rows| && Standing(start, startHead, rows, i, blocked, l)
    modifies l
    ensures Standing(start, startHead, rows, i, blocked, l)
    ensures calls == [] ==> l.ops == old(l.ops)
  {
    ghost var ops0, head0 := l.ops, l.head;
    HandleCalls(l, calls, false, "");
    LaterChains(start, ops0, l.ops, startHead, head0);
    VisitedLater(ops0, l.ops, head0, rows, i, blocked);
  }

  predicate AllOrdered(trace: seq<Applied>) {
    forall i | 0 <= i < |trace| :: EarlierFinished(trace[i])
  }

  predicate QuietTurns(turns: seq<Turn>) {
    forall i | 0 <= i < |turns| :: turns[i].before == [] && turns[i].Undisturbed()
  }

  /** Every ready operation visited so far has been applied. */
  predicate NoneMissed(start: Ops, rows: seq<OpId>, n: nat, now: nat, trace: seq<Applied>)
    requires n <= |rows|
  {
    forall k | 0 <= k < n && Ready(start, rows[k], now) :: Traced(trace, rows[k])
  }

  lemma NoneMissedNext(start: Ops, rows: seq<OpId>, i: nat, now: nat, trace: seq<Applied>, applied: Option<Applied>)
    requires i < |rows| && NoneMissed(start, rows, i, now, trace)
    requires applied.Some? ==> applied.value.id == rows[i]
    requires Ready(start, rows[i], now) ==> applied.Some?
    ensures NoneMissed(start, rows, i + 1, now, if applied.Some? then trace + [applied.value] else trace)
  {
    if applied.Some? { TracedMore(trace, applied.value); }
  }

  /** One turn of the pass: outside calls, then the row. */
  method TakeTurn(l: Ledger, now: nat, rows: seq<OpId>, i: nat, blocked: set<Owner>, turn: Turn, trace: seq<Applied>,
                  ghost start: Ops, ghost startHead: nat)
    returns (trace': seq<Applied>, blocked': set<Owner>, abort: bool)
    requires Journal(start, startHead, rows) && i < |rows|
    requires Standing(start, startHead, rows, i, blocked, l) && AllOrdered(trace)
    modifies l
    ensures Standing(start, startHead, rows, i + 1, blocked', l) && AllOrdered(trace')
    ensures turn.before == [] && turn.Undisturbed() && Steady(start, rows, i, blocked, old(l.ops))
            && NoneMissed(start, rows, i, now, trace) ==>
              Steady(start, rows, i + 1, blocked', l.ops) && NoneMissed(start, rows, i + 1, now, trace')
  {
    CallsBetween(l, turn.before, rows, i, blocked, start, startHead);
    ghost var ops0 := l.ops;
    var applied: Option<Applied>;
    applied, blocked', abort := VisitRow(l, now, rows, i, blocked, turn, start, startHead);
    trace' := if applied.Some? then trace + [applied.value] else trace;
    if turn.before == [] && turn.Undisturbed() && Steady(start, rows, i, blocked, ops0) && NoneMissed(start, rows, i, now, trace) {
      NoneMissedNext(start, rows, i, now, trace, applied);
    }
  }

  /** Visits the journal in order. One blocked, failed or backing-off operation
      holds back the later ones of its owner, and nobody else's: in a pass
      without outside calls every ready operation is applied. */
  method Drain(l: Ledger, now: nat, turns: seq<Turn>) returns (trace: seq<Applied>, aborted: bool)
    requires l.Valid()
    modifies l
    ensures l.Valid()
    ensures Later(old(l.ops), l.ops, old(l.head))
    ensures AllOrdered(trace)
    ensures QuietTurns(turns) && !aborted ==> forall id | Ready(old(l.ops), id, now) :: Traced(trace, id)
  {
    trace, aborted := [], false;
    var blocked: set<Owner> := {};
    ghost var start, startHead := l.ops, l.head;
    var rows := SortedRows(l.ops, l.head);
    for i := 0 to |rows|
      invariant Standing(start, startHead, rows, i, blocked, l) && AllOrdered(trace)
      invariant QuietTurns(turns) ==> Steady(start, rows, i, blocked, l.ops) && NoneMissed(start, rows, i, now, trace)
    {
      var abort: bool;
      trace, blocked, abort := TakeTurn(l, now, rows, i, blocked, TurnAt(turns, i), trace, start, startHead);
      if abort { return trace, true; }
    }
    forall id | QuietTurns(turns) && Ready(start, id, now) ensures Traced(trace, id) {
      var k :| 0 <= k < |rows| && rows[k] == id;
    }
  }

  predicate Traced(trace: seq<Applied>, id: OpId) {
    exists k | 0 <= k < |trace| :: trace[k].id == id
  }

  lemma TracedMore(trace: seq<Applied>, a: Applied)
    ensures Traced(trace + [a], a.id)
    ensures forall id | Traced(trace, id) :: Traced(trace + [a], id)
  {
    assert (trace + [a])[|trace|] == a;
    forall id | Traced(trace, id) ensures Traced(trace + [a], id) {
      var k :| 0 <= k < |trace| && trace[k].id == id;
      assert (trace + [a])[k] == trace[k];
    }
  }
}
