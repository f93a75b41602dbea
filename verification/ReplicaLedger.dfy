/** The replica ledgers and their derived lookups: whatever is submitted,
    superseded, retired, adopted, relocated, completed or rolled back, the
    cached `latest` and `ownersAt` answers equal a full scan. */
module ReplicaLedger {
  import opened Options
  import opened ReplicaModel

  datatype Newest = Newest(id: OpId, no: nat)

  type LatestMap = map<Owner, Newest>
  type EndpointMap = map<Endpoint, set<Owner>>

  // ── What a full scan answers ──────────────────────────────────────────────

  ghost predicate IsLatest(ops: Ops, owner: Owner, id: OpId) {
    && id in ops && ops[id].owner == owner
    && forall j | j in ops && ops[j].owner == owner :: ops[j].no <= ops[id].no
  }

  /** The lookup names, for every owner with an operation, its newest one. */
  ghost predicate LatestExact(ops: Ops, m: LatestMap) {
    && (forall o | o in m :: IsLatest(ops, o, m[o].id) && m[o].no == ops[m[o].id].no)
    && (forall id | id in ops :: ops[id].owner in m)
  }

  function HoldersAt(m: EndpointMap, e: Endpoint): set<Owner> {
    if e in m then m[e] else {}
  }

  /** The lookup names exactly the owners whose rows list the endpoint. */
  ghost predicate EndpointsExact(owners: Owners, m: EndpointMap) {
    forall e, o :: o in HoldersAt(m, e) <==> o in owners && Lists(owners[o], e)
  }

  /** Sequence numbers are unique and below the head. */
  predicate Numbered(ops: Ops, head: nat) {
    && (forall id | id in ops :: ops[id].no <= head)
    && (forall i, j | i in ops && j in ops && i != j :: ops[i].no != ops[j].no)
  }

  /** Two ledgers with the same operations in the same order for the same owners. */
  predicate SameOrder(a: Ops, b: Ops) {
    a.Keys == b.Keys && forall id | id in a :: a[id].owner == b[id].owner && a[id].no == b[id].no
  }

  lemma SameOrderSameLatest(a: Ops, b: Ops, m: LatestMap)
    requires SameOrder(a, b)
    ensures LatestExact(a, m) <==> LatestExact(b, m)
  {
  }

  /** The newest operation of an owner is unique, so any two exact lookups agree. */
  lemma LatestUnique(ops: Ops, head: nat, m: LatestMap, n: LatestMap)
    requires Numbered(ops, head) && LatestExact(ops, m) && LatestExact(ops, n)
    ensures m == n
  {
    forall o ensures o in m <==> o in n {
    }
    forall o | o in m ensures m[o] == n[o] {
      assert ops[m[o].id].no == ops[n[o].id].no;
    }
  }

  /** A submission is its owner's newest operation. */
  lemma SubmitIsLatest(ops: Ops, head: nat, id: OpId, op: Op)
    requires Numbered(ops, head) && id !in ops && op.no == head + 1
    ensures Numbered(ops[id := op], head + 1) && IsLatest(ops[id := op], op.owner, id)
  {
  }

  lemma SubmitExtends(ops: Ops, head: nat, id: OpId, op: Op, m: LatestMap)
    requires Numbered(ops, head) && LatestExact(ops, m) && id !in ops && op.no == head + 1
    ensures LatestExact(ops[id := op], m[op.owner := Newest(id, op.no)])
  {
    SubmitIsLatest(ops, head, id, op);
  }

  lemma ListsOneMore(rs: seq<Replica>, r: Replica, e: Endpoint)
    ensures ListsAmong(rs + [r], e) <==> ListsAmong(rs, e) || r.at == e
  {
    if r.at == e { assert (rs + [r])[|rs|].at == e; }
    if ListsAmong(rs, e) {
      var i :| 0 <= i < |rs| && rs[i].at == e;
      assert (rs + [r])[i].at == e;
    }
  }

  /** Repeating the newest operation in an exact lookup changes nothing that matters. */
  lemma SetLatest(ops: Ops, id: OpId, m: LatestMap)
    requires LatestExact(ops, m) && id in ops && IsLatest(ops, ops[id].owner, id)
    ensures LatestExact(ops, m[ops[id].owner := Newest(id, ops[id].no)])
  {
  }

  datatype SubmitResult = Accepted(op: Op) | Receipt(op: Op) | IdempotencyConflict | RolledBack

  function NewOp(owner: Owner, no: nat, plan: Plan): Op {
    Op(owner, no, plan, Pending, 0, None, [], false, None, false, false)
  }

  /** Retiring an owner archives its operations under another name. */
  function Archived(ops: Ops, owner: Owner, archive: Owner): Ops {
    map id | id in ops :: if ops[id].owner == owner then ops[id].(owner := archive) else ops[id]
  }

  lemma ArchivedNumbered(ops: Ops, owner: Owner, archive: Owner, head: nat)
    requires Numbered(ops, head)
    ensures Numbered(Archived(ops, owner, archive), head)
  {
  }

  class Ledger {
    var ops: Ops
    var owners: Owners
    var head: nat
    var latestOperations: Option<LatestMap>
    var ownerEndpoints: Option<EndpointMap>

    ghost predicate CachesExact()
      reads this
    {
      && (latestOperations.Some? ==> LatestExact(ops, latestOperations.value))
      && (ownerEndpoints.Some? ==> EndpointsExact(owners, ownerEndpoints.value))
    }

    ghost predicate Valid()
      reads this
    {
      Numbered(ops, head) && CachesExact()
    }

    constructor ()
      ensures Valid() && ops == map[] && owners == map[] && head == 0
    {
      ops, owners, head, latestOperations, ownerEndpoints := map[], map[], 0, None, None;
    }

    // ── Lookups ─────────────────────────────────────────────────────────────

    /** Scans the operation ledger once. */
    method BuildLatest() returns (m: LatestMap)
      ensures LatestExact(ops, m)
    {
      m := map[];
      var left := ops.Keys;
      while left != {}
        invariant left <= ops.Keys
        invariant forall o | o in m ::
                    && m[o].id in ops && ops[m[o].id].owner == o && m[o].no == ops[m[o].id].no
                    && forall j | j in ops && j !in left && ops[j].owner == o :: ops[j].no <= m[o].no
        invariant forall id | id in ops && id !in left :: ops[id].owner in m
        decreases |left|
      {
        var id :| id in left;
        left := left - {id};
        var op := ops[id];
        if op.owner !in m || m[op.owner].no < op.no {
          m := m[op.owner := Newest(id, op.no)];
        }
      }
    }

    /** Scans the owner ledger once. */
    method BuildEndpoints() returns (m: EndpointMap)
      ensures EndpointsExact(owners, m)
    {
      m := map[];
      var left := owners.Keys;
      assert forall e :: HoldersAt(m, e) == {};
      while left != {}
        invariant left <= owners.Keys
        invariant forall e, o :: o in HoldersAt(m, e) <==> o in owners && o !in left && Lists(owners[o], e)
        decreases |left|
      {
        var owner :| owner in left;
        left := left - {owner};
        m := AddOwner(m, owner, owners[owner].replicas);
      }
    }

    method AddOwner(m0: EndpointMap, owner: Owner, replicas: seq<Replica>) returns (m: EndpointMap)
      ensures forall e, o :: o in HoldersAt(m, e) <==> o in HoldersAt(m0, e) || (o == owner && ListsAmong(replicas, e))
    {
      m := m0;
      for i := 0 to |replicas|
        invariant forall e, o :: o in HoldersAt(m, e) <==>
                    o in HoldersAt(m0, e) || (o == owner && ListsAmong(replicas[..i], e))
      {
        var at := replicas[i].at;
        ghost var was := m;
        m := m[at := HoldersAt(m, at) + {owner}];
        forall e, o ensures o in HoldersAt(m, e) <==>
                      o in HoldersAt(m0, e) || (o == owner && ListsAmong(replicas[..i + 1], e))
        {
          assert replicas[..i + 1] == replicas[..i] + [replicas[i]];
          assert o in HoldersAt(m, e) <==> o in HoldersAt(was, e) || (o == owner && e == at);
          ListsOneMore(replicas[..i], replicas[i], e);
        }
      }
      assert replicas[..|replicas|] == replicas;
    }

    /** The newest operation of an owner, from the lookup. */
    method Latest(owner: Owner) returns (id: Option<OpId>)
      requires Valid()
      modifies `latestOperations
      ensures Valid() && latestOperations.Some?
      ensures id.Some? ==> IsLatest(ops, owner, id.value)
      ensures id.None? ==> forall j | j in ops :: ops[j].owner != owner
    {
      if latestOperations.None? {
        var m := BuildLatest();
        latestOperations := Some(m);
      }
      var m := latestOperations.value;
      return if owner in m then Some(m[owner].id) else None;
    }

    /** The owners whose rows list an endpoint, from the lookup. */
    method OwnersAt(e: Endpoint) returns (r: set<Owner>)
      requires Valid()
      modifies `ownerEndpoints
      ensures Valid() && ownerEndpoints.Some?
      ensures forall o :: o in r <==> o in owners && Lists(owners[o], e)
    {
      if ownerEndpoints.None? {
        var m := BuildEndpoints();
        ownerEndpoints := Some(m);
      }
      return HoldersAt(ownerEndpoints.value, e);
    }

    /** What a callback inside a transaction may do: read both lookups, warming them. */
    method WarmUp()
      requires Numbered(ops, head)
      modifies `latestOperations, `ownerEndpoints
      ensures latestOperations.Some? && (old(latestOperations).None? ==> LatestExact(ops, latestOperations.value))
      ensures old(latestOperations).Some? ==> latestOperations == old(latestOperations)
      ensures ownerEndpoints.Some? && (old(ownerEndpoints).None? ==> EndpointsExact(owners, ownerEndpoints.value))
      ensures old(ownerEndpoints).Some? ==> ownerEndpoints == old(ownerEndpoints)
    {
      if latestOperations.None? {
        var m := BuildLatest();
        latestOperations := Some(m);
      }
      if ownerEndpoints.None? {
        var m := BuildEndpoints();
        ownerEndpoints := Some(m);
      }
    }

    // ── Submissions ─────────────────────────────────────────────────────────

    /** Accepts a plan under an unused id; the same id with the same plan returns its receipt.
        A callback may warm the lookups inside the transaction, which may roll back. */
    method Submit(id: OpId, owner: Owner, plan: Plan, callback: bool, aborts: bool) returns (r: SubmitResult)
      requires Valid()
      modifies this
      ensures Valid() && owners == old(owners)
      ensures id in old(ops) ==>
                ops == old(ops) && head == old(head)
                && r == if ops[id].plan == plan && ops[id].owner == owner then Receipt(ops[id]) else IdempotencyConflict
      ensures id !in old(ops) && aborts ==> r == RolledBack && ops == old(ops) && head == old(head)
      ensures id !in old(ops) && !aborts ==>
                && r == Accepted(NewOp(owner, head, plan)) && head == old(head) + 1
                && r.op.owner == owner && r.op.plan == plan && r.op.no == head && r.op.state == Pending && r.op.nextAt == 0
                && r.op.base == None && r.op.outcomes == [] && r.op.successor == None && !r.op.finished && !r.op.cleaned
                && ops == old(ops)[id := r.op] && IsLatest(ops, owner, id)
                && (latestOperations.Some? ==> owner in latestOperations.value && latestOperations.value[owner].id == id)
      ensures !callback ==> ownerEndpoints == old(ownerEndpoints)
      ensures !callback && !aborts ==> (latestOperations.None? <==> old(latestOperations).None?)
    {
      if id in ops {
        return if ops[id].plan == plan && ops[id].owner == owner then Receipt(ops[id]) else IdempotencyConflict;
      }
      r := Accepted(NewOp(owner, head + 1, plan));
      if aborts {
        RolledBackSubmit(id, r.op, callback);
        return RolledBack;
      }
      AcceptOp(id, r.op, callback);
    }

    /** The transaction of a submission that throws: the tables are restored, the lookup dropped. */
    method RolledBackSubmit(id: OpId, op: Op, callback: bool)
      requires Valid() && id !in ops && op.no == head + 1
      modifies this
      ensures Valid() && ops == old(ops) && owners == old(owners) && head == old(head)
      ensures !callback ==> ownerEndpoints == old(ownerEndpoints)
    {
      var ops0, head0 := ops, head;
      SubmitIsLatest(ops, head, id, op);
      ops, head := ops[id := op], head + 1;
      if callback { WarmUp(); }
      ops, head := ops0, head0;
      latestOperations := None;
    }

    method AcceptOp(id: OpId, op: Op, callback: bool)
      requires Valid() && id !in ops && op.no == head + 1
      modifies this
      ensures Valid() && owners == old(owners) && head == old(head) + 1
      ensures ops == old(ops)[id := op] && IsLatest(ops, op.owner, id)
      ensures latestOperations.Some? ==> op.owner in latestOperations.value && latestOperations.value[op.owner].id == id
      ensures !callback ==> ownerEndpoints == old(ownerEndpoints)
      ensures !callback ==> (latestOperations.None? <==> old(latestOperations).None?)
    {
      ghost var warm := latestOperations;
      SubmitIsLatest(ops, head, id, op);
      if warm.Some? { SubmitExtends(ops, head, id, op, warm.value); }
      ops, head := ops[id := op], head + 1;
      if callback { WarmUp(); }
      if latestOperations.Some? {
        if warm.None? { SetLatest(ops, id, latestOperations.value); }
        latestOperations := Some(latestOperations.value[op.owner := Newest(id, op.no)]);
      }
    }

    /** A submission made inside somebody else's transaction that rolls back afterwards
        (a blob put enqueues its transfer inside the index transaction): the lookup
        stays exact exactly when it was cold. */
    method SubmitInsideAborted(id: OpId, owner: Owner, plan: Plan)
      requires Valid() && id !in ops
      modifies this
      ensures ops == old(ops) && owners == old(owners) && head == old(head)
      ensures CachesExact() <==> old(latestOperations).None?
    {
      var ops0, owners0, head0 := ops, owners, head;
      var _ := Submit(id, owner, plan, false, false);
      ops, owners, head := ops0, owners0, head0;
      assert latestOperations.Some? ==> !IsLatest(ops, owner, latestOperations.value[owner].id);
    }

    // ── Owner transactions ──────────────────────────────────────────────────

    /** Both sides of an owner transaction drop the lookups it may invalidate. */
    method Invalidate(operationsChanged: bool)
      modifies `latestOperations, `ownerEndpoints
      ensures ownerEndpoints == None
      ensures latestOperations == if operationsChanged then None else old(latestOperations)
    {
      ownerEndpoints := None;
      if operationsChanged { latestOperations := None; }
    }

    /** Cancels an unfinished operation in favour of a newer plan of the same owner,
        keeping `row` as what its partial effects really own. */
    method Supersede(id: OpId, successor: OpId, plan: Plan, row: OwnerRow, callback: bool, aborts: bool) returns (ok: bool)
      requires Valid()
      modifies this
      ensures Valid()
      ensures ok <==> (id in old(ops) && !old(ops[id]).Terminal() && successor !in old(ops) && !aborts)
      ensures !ok ==> ops == old(ops) && owners == old(owners) && head == old(head)
      ensures ok ==>
                var was := old(ops[id]);
                && owners == old(owners)[was.owner := row] && head == old(head) + 1
                && ops == old(ops)[id := was.(state := Cancelled, successor := Some(successor))]
                                 [successor := NewOp(was.owner, head, plan)]
                && IsLatest(ops, was.owner, successor)
    {
      if id !in ops || ops[id].Terminal() || successor in ops { return false; }
      Invalidate(true);
      var ops0, owners0, head0 := ops, owners, head;
      var owner := ops[id].owner;
      owners := owners[owner := row];
      ops := ops[id := ops[id].(state := Cancelled, successor := Some(successor))];
      if callback { WarmUp(); }
      var _ := Submit(successor, owner, plan, callback, false);
      if aborts { ops, owners, head := ops0, owners0, head0; }
      Invalidate(true);
      return !aborts;
    }

    /** Archives a finished owner's operations under a fresh name and drops its row. */
    method RetireOwner(owner: Owner, archive: Owner, callback: bool, aborts: bool) returns (ok: bool)
      requires Valid()
      modifies this
      ensures Valid()
      ensures ok <==> (forall id | id in old(ops) && old(ops[id]).owner == owner :: old(ops[id]).Terminal()) && !aborts
      ensures head == old(head)
      ensures !ok ==> ops == old(ops) && owners == old(owners)
      ensures ok ==> owners == old(owners) - {owner} && ops == Archived(old(ops), owner, archive)
    {
      if exists id | id in ops :: ops[id].owner == owner && !ops[id].Terminal() { return false; }
      ok := ArchiveOwner(owner, archive, callback, aborts);
    }

    method ArchiveOwner(owner: Owner, archive: Owner, callback: bool, aborts: bool) returns (ok: bool)
      requires Valid()
      modifies this
      ensures Valid()
      ensures ok == !aborts && head == old(head)
      ensures !ok ==> ops == old(ops) && owners == old(owners)
      ensures ok ==> owners == old(owners) - {owner} && ops == Archived(old(ops), owner, archive)
    {
      Invalidate(true);
      var ops0, owners0 := ops, owners;
      ArchivedNumbered(ops, owner, archive, head);
      ops := Archived(ops, owner, archive);
      owners := owners - {owner};
      if callback { WarmUp(); }
      if aborts { ops, owners := ops0, owners0; }
      Invalidate(true);
      return !aborts;
    }

    /** Writes owner rows (adoption of a replica, a recorded relocation). */
    method WriteOwners(rows: Owners, callback: bool, aborts: bool)
      requires Valid()
      modifies this
      ensures Valid() && ops == old(ops) && head == old(head)
      ensures owners == if aborts then old(owners) else old(owners) + rows
    {
      Invalidate(false);
      var owners0 := owners;
      owners := owners + rows;
      if callback { WarmUp(); }
      if aborts { owners := owners0; }
      Invalidate(false);
    }

    /** Commits an operation's owner row and its completion together. */
    method CompleteOp(id: OpId, row: OwnerRow, callback: bool, aborts: bool)
      requires Valid() && id in ops
      modifies this
      ensures Valid() && head == old(head)
      ensures aborts ==> ops == old(ops) && owners == old(owners)
      ensures !aborts ==> owners == old(owners)[old(ops[id]).owner := row]
      ensures !aborts ==> ops == old(ops)[id := old(ops[id]).(state := Complete, finished := true)]
    {
      Invalidate(false);
      var ops0, owners0 := ops, owners;
      CompletionBody(id, row, callback);
      if aborts { ops, owners := ops0, owners0; }
      Invalidate(false);
    }

    /** The body of that transaction; the operation order it leaves is the one it found. */
    method CompletionBody(id: OpId, row: OwnerRow, callback: bool)
      requires Valid() && id in ops && ownerEndpoints.None?
      modifies `ops, `owners, `latestOperations, `ownerEndpoints
      ensures owners == old(owners)[old(ops[id]).owner := row]
      ensures ops == old(ops)[id := old(ops[id]).(state := Complete, finished := true)] && Numbered(ops, head)
      ensures latestOperations.Some? ==>
                LatestExact(ops, latestOperations.value) && LatestExact(old(ops), latestOperations.value)
    {
      ghost var ops0 := ops;
      owners := owners[ops[id].owner := row];
      Save(id, ops[id].(state := Complete, finished := true));
      if callback { WarmUp(); }
      if latestOperations.Some? { SameOrderSameLatest(ops0, ops, latestOperations.value); }
    }

    /** Receipt updates that keep owner and order (progress, retry, failure). */
    method Save(id: OpId, op: Op)
      requires Numbered(ops, head) && id in ops && op.owner == ops[id].owner && op.no == ops[id].no
      requires latestOperations.Some? ==> LatestExact(ops, latestOperations.value)
      modifies `ops
      ensures ops == old(ops)[id := op] && Numbered(ops, head) && SameOrder(old(ops), ops)
      ensures latestOperations.Some? ==> LatestExact(ops, latestOperations.value)
    {
      if latestOperations.Some? { SameOrderSameLatest(ops, ops[id := op], latestOperations.value); }
      ops := ops[id := op];
    }
  }
}
