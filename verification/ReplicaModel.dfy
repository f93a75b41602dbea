/** Replica plans and the durable rows of their execution. */
module ReplicaModel {
  import opened Options

  type OpId = string
  type Owner = string
  type Endpoint = string
  type Content = string
  type CacheKey = string

  datatype OnConflict = Refuse | Rename | Overwrite

  /** One requested destination of a plan. */
  datatype Target = Target(at: Endpoint, onConflict: OnConflict, mirror: bool, adopt: bool)

  /** One destination an owner holds: `requested` is the name the plan asked for. */
  datatype Replica = Replica(at: Endpoint, requested: Endpoint, content: Content, managed: bool, mirror: bool)

  /** A resolved destination, persisted before any byte moves: `expected` is what
      was there, `ownVersion` the managed version it may replace. */
  datatype Outcome = Outcome(at: Endpoint, requested: Endpoint, managed: bool, mirror: bool,
                             expected: Option<Content>, ownVersion: Option<Content>, verified: bool)

  /** A staging place to let go once everything is placed, and what it must still hold. */
  datatype Staging = Staging(at: Endpoint, content: Content)

  /** `cached` names a captured upload to stage from instead of `source`. */
  datatype Plan = Plan(content: Content, source: Option<Endpoint>, cached: Option<CacheKey>, targets: seq<Target>,
                       preserve: set<Endpoint>, release: seq<Staging>)

  datatype OwnerRow = OwnerRow(content: Content, replicas: seq<Replica>)

  datatype OpState = Pending | Running | Blocked | Complete | Cancelled

  /** `finished` once its effects have been committed, whatever becomes of its state afterwards. */
  datatype Op = Op(owner: Owner, no: nat, plan: Plan, state: OpState, nextAt: nat,
                   base: Option<OwnerRow>, outcomes: seq<Outcome>, staged: bool,
                   successor: Option<OpId>, cleaned: bool, finished: bool)
  {
    predicate Terminal() { state.Complete? || state.Cancelled? }
  }

  type Ops = map<OpId, Op>
  type Owners = map<Owner, OwnerRow>

  predicate ListsAmong(replicas: seq<Replica>, e: Endpoint) {
    exists i | 0 <= i < |replicas| :: replicas[i].at == e
  }

  predicate Lists(row: OwnerRow, e: Endpoint) {
    ListsAmong(row.replicas, e)
  }
}
