/** The durable objective record and the three guarded mutations of the queue, as functions
    on one record. A rejected mutation leaves the record as it was. */
module Records {
  import opened Results
  import opened Candidates
  import opened Objectives
  import Gateway

  datatype PlanItem = PlanItem(number: int, goal: string, criteria: seq<string>)

  type Plan = seq<PlanItem>

  /** The idempotency key: a digest of exactly these fields. */
  datatype OperationId = OperationId(approval: string, batch: int, parent: string, candidate: Binding)

  datatype Intent =
    | Planning
    | Implementation(batch: int, attempt: int)
    | Validation(candidate: Binding)
    | Publish(id: OperationId, receipt: Receipt, parent: string, artifact: Snapshot)
    | Acceptance
    | Merge(head: string)
    | Release(tag: string)

  /** One published batch: the publisher's answer and the evidence it rested on. */
  datatype Commit = Commit(publication: Gateway.Publication, batch: int, receipt: Receipt, artifact: Snapshot)

  datatype Record = Record(
    objectiveId: string,
    approvalDigest: string,
    limits: Limits,
    baseSha: string,
    deadline: int,
    parentSha: string,
    phase: Phase,
    version: nat,
    batch: int,
    repairs: int,
    attempts: int,
    tokens: int,
    cost: int,
    leaseOwner: Option<string>,
    generation: nat,
    leaseUntil: int,
    intent: Option<Intent>,
    commits: seq<Commit>,
    reason: Option<string>,
    plan: Option<Plan>,
    mergeSha: Option<string>,
    released: bool)
  {
    predicate Terminal() {
      phase == Blocked || phase == Failed || phase == Completed
    }
  }

  /** The fields an update may name; `None` leaves a field alone. */
  datatype Changes = Changes(
    phase: Option<Phase>,
    parentSha: Option<string>,
    batch: Option<int>,
    repairs: Option<int>,
    attempts: Option<int>,
    tokens: Option<int>,
    cost: Option<int>,
    intent: Option<Option<Intent>>,
    commits: Option<seq<Commit>>,
    reason: Option<Option<string>>,
    leaseUntil: Option<int>,
    plan: Option<Option<Plan>>,
    mergeSha: Option<Option<string>>,
    released: Option<bool>)

  const UNCHANGED := Changes(None, None, None, None, None, None, None, None, None, None, None, None, None, None)

  function Or<T>(change: Option<T>, current: T): T {
    if change.Some? then change.value else current
  }

  function Merged(r: Record, c: Changes): Record {
    r.(phase := Or(c.phase, r.phase),
       parentSha := Or(c.parentSha, r.parentSha),
       batch := Or(c.batch, r.batch),
       repairs := Or(c.repairs, r.repairs),
       attempts := Or(c.attempts, r.attempts),
       tokens := Or(c.tokens, r.tokens),
       cost := Or(c.cost, r.cost),
       intent := Or(c.intent, r.intent),
       commits := Or(c.commits, r.commits),
       reason := Or(c.reason, r.reason),
       leaseUntil := Or(c.leaseUntil, r.leaseUntil),
       plan := Or(c.plan, r.plan),
       mergeSha := Or(c.mergeSha, r.mergeSha),
       released := Or(c.released, r.released))
  }

  const MAX_HISTORY := 2000

  /** A history of more than 2000 events no longer authenticates. */
  predicate Readable(r: Record) {
    r.version < MAX_HISTORY
  }

  function Min(a: int, b: int): int {
    if a <= b then a else b
  }

  function Initial(a: Approval, now: int): Record {
    Record(a.objectiveId, a.digest, a.limits, a.task.baseSha, Min(a.expiresAt, now + a.limits.maxWallSeconds),
           a.task.baseSha, Pending, 0, 0, 0, 0, 0, 0, None, 0, 0, None, [], None, None, None, false)
  }

  predicate PhaseEdge(from: Phase, to: Phase) {
    match from
    case Admitted => to in {Running, Blocked, Failed}
    case Running => to in {Running, Validating, Blocked, Failed}
    case Validating => to in {Validating, Running, Repairing, Blocked, Failed, Completed}
    case Repairing => to in {Repairing, Validating, Blocked, Failed}
    case _ => false
  }

  function Claim(r: Record, worker: string, now: int, leaseSeconds: int): Result<Record> {
    if !(IsText(worker, 128) && 0 <= now <= MAX_TIME && 1 <= leaseSeconds <= 300) then Rejected
    else if !Readable(r) || r.Terminal() || now >= r.deadline || r.leaseUntil > now then Rejected
    else if r.intent.Some? then
      Ok(r.(phase := Blocked, reason := Some("unresolved publication intent"), version := r.version + 1))
    else
      Ok(r.(leaseOwner := Some(worker),
            generation := r.generation + 1,
            leaseUntil := Min(now + leaseSeconds, r.deadline),
            phase := if r.phase == Pending then Admitted else r.phase,
            version := r.version + 1))
  }

  /** The resource checks of an update, against the limits the owner signed. */
  predicate WithinLimits(r: Record, n: Record) {
    && r.attempts <= n.attempts <= r.limits.maxAttempts
    && r.tokens <= n.tokens <= r.limits.maxTokens
    && r.cost <= n.cost <= r.limits.maxCostMicrousd
    && r.batch <= n.batch <= r.limits.maxBatches
    && 0 <= n.repairs <= r.limits.maxRepairsPerBatch
  }

  predicate HoldsLease(r: Record, worker: Option<string>, generation: nat, version: nat, now: int) {
    r.leaseOwner == worker && r.generation == generation && r.version == version && now < r.leaseUntil
        && now < r.deadline
  }

  function Update(r: Record, worker: Option<string>, generation: nat, version: nat, now: int,
                  c: Changes): Result<Record> {
    var n := Merged(r, c);
    if !Readable(r) || r.Terminal() || !HoldsLease(r, worker, generation, version, now) then Rejected
    else if !WithinLimits(r, n) || !PhaseEdge(r.phase, n.phase) then Rejected
    else if (n.phase == Blocked || n.phase == Failed) && !(n.reason.Some? && IsText(n.reason.value, 1024)) then Rejected
    else if n.leaseUntil > r.deadline then Rejected
    else Ok(n.(version := r.version + 1))
  }

  /** Reserves the worst case before a remote call; never refunded. */
  function Reservation(r: Record, tokens: int, cost: int): Changes {
    UNCHANGED.(attempts := Some(r.attempts + 1), tokens := Some(r.tokens + tokens), cost := Some(r.cost + cost))
  }

  function Expire(r: Record, now: int): Result<Record> {
    if !Readable(r) then Rejected
    else if !r.Terminal() && (now >= r.deadline || (r.intent.Some? && 0 < r.leaseUntil <= now)) then
      Ok(r.(phase := Blocked, reason := Some("objective deadline/lease exceeded"), version := r.version + 1))
    else Ok(r)
  }

  // -------------------------------------------------- what every mutation keeps

  datatype Mutation =
    | ClaimBy(worker: string, now: int, leaseSeconds: int)
    | UpdateBy(holder: Option<string>, generation: nat, version: nat, now: int, changes: Changes)
    | ExpireAt(now: int)

  /** One transaction, by anyone, at any clock reading. */
  function Mutate(r: Record, m: Mutation): Record {
    var result := match m
      case ClaimBy(w, now, s) => Claim(r, w, now, s)
      case UpdateBy(w, g, v, now, c) => Update(r, w, g, v, now, c)
      case ExpireAt(now) => Expire(r, now);
    if result.Ok? then result.value else r
  }

  function MutateAll(r: Record, ms: seq<Mutation>): Record
    decreases |ms|
  {
    if ms == [] then r else MutateAll(Mutate(r, ms[0]), ms[1..])
  }

  predicate InBudget(r: Record) {
    && 0 <= r.attempts <= r.limits.maxAttempts
    && 0 <= r.tokens <= r.limits.maxTokens
    && 0 <= r.cost <= r.limits.maxCostMicrousd
    && 0 <= r.batch <= r.limits.maxBatches
    && 0 <= r.repairs <= r.limits.maxRepairsPerBatch
    && r.leaseUntil <= r.deadline
  }

  /** `later` is a possible future of `r`: nothing irreversible was taken back. */
  predicate Follows(r: Record, later: Record) {
    && later.objectiveId == r.objectiveId && later.approvalDigest == r.approvalDigest
    && later.limits == r.limits && later.baseSha == r.baseSha && later.deadline == r.deadline
    && r.version <= later.version && r.generation <= later.generation
    && r.attempts <= later.attempts && r.tokens <= later.tokens && r.cost <= later.cost && r.batch <= later.batch
    && (later.version == r.version ==> later == r)
    && (r.Terminal() ==> later == r)
  }

  lemma MutateFollows(r: Record, m: Mutation)
    ensures Follows(r, Mutate(r, m))
    ensures InBudget(r) ==> InBudget(Mutate(r, m))
  {
  }

  /** Budgets, lease bound and monotonicity over every run of transactions. */
  lemma {:induction false} AlwaysFollows(r: Record, ms: seq<Mutation>)
    ensures Follows(r, MutateAll(r, ms))
    ensures InBudget(r) ==> InBudget(MutateAll(r, ms))
    decreases |ms|
  {
    if ms != [] {
      MutateFollows(r, ms[0]);
      AlwaysFollows(Mutate(r, ms[0]), ms[1..]);
    }
  }

  lemma InitialInBudget(a: Approval, now: int)
    requires a.approvedAt <= now < a.expiresAt && 0 <= now && 0 < a.limits.maxWallSeconds
    ensures InBudget(Initial(a, now)) && now < Initial(a, now).deadline
  {
  }

  /** From enqueueing on, over every run of transactions by any workers: the signed budget
      is never exceeded and the lease never outlives the objective. */
  lemma BudgetForever(a: Approval, now: int, ms: seq<Mutation>)
    requires a.approvedAt <= now < a.expiresAt && 0 <= now && 0 < a.limits.maxWallSeconds
    ensures var r := MutateAll(Initial(a, now), ms);
      && 0 <= r.attempts <= a.limits.maxAttempts
      && 0 <= r.tokens <= a.limits.maxTokens
      && 0 <= r.cost <= a.limits.maxCostMicrousd
      && 0 <= r.batch <= a.limits.maxBatches
      && 0 <= r.repairs <= a.limits.maxRepairsPerBatch
      && r.leaseUntil <= r.deadline <= a.expiresAt
  {
    InitialInBudget(a, now);
    AlwaysFollows(Initial(a, now), ms);
  }

  /** Fencing: once a claim has issued a generation, no update that presents an older one is
      ever accepted again, whatever happens in between. */
  lemma FencedForever(r: Record, worker: string, now: int, leaseSeconds: int, ms: seq<Mutation>,
                      stale: Option<string>, generation: nat, version: nat, at: int, c: Changes)
    requires Claim(r, worker, now, leaseSeconds).Ok? && r.intent.None?
    requires generation <= r.generation
    ensures Update(MutateAll(Claim(r, worker, now, leaseSeconds).value, ms), stale, generation, version, at,
      c).Rejected?
  {
    AlwaysFollows(Claim(r, worker, now, leaseSeconds).value, ms);
  }

  /** Would the holder of the current lease present this? */
  predicate PresentedByHolder(r: Record, m: Mutation) {
    m.UpdateBy? && m.holder == r.leaseOwner && m.generation == r.generation && m.version == r.version
  }

  function ClockOf(m: Mutation): int {
    match m
    case ClaimBy(_, now, _) => now
    case UpdateBy(_, _, _, now, _) => now
    case ExpireAt(now) => now
  }

  /** While a lease lasts nobody but its holder can touch the record: any number of claims,
      recovery polls and stale updates before its end leave it exactly as it was. */
  lemma {:induction false} LeaseExcludesOthers(r: Record, ms: seq<Mutation>)
    requires r.leaseUntil <= r.deadline
    requires forall m | m in ms :: ClockOf(m) < r.leaseUntil && !PresentedByHolder(r, m)
    ensures MutateAll(r, ms) == r
    decreases |ms|
  {
    if ms != [] {
      assert ms[0] in ms;
      assert forall m | m in ms[1..] :: m in ms;
      LeaseExcludesOthers(r, ms[1..]);
    }
  }

  /** Of all updates presenting one version, at most one ever succeeds. */
  lemma OneWinnerPerVersion(r: Record, w: Option<string>, g: nat, version: nat, now: int, c: Changes, ms: seq<Mutation>,
                            w2: Option<string>, g2: nat, now2: int, c2: Changes)
    requires Update(r, w, g, version, now, c).Ok?
    ensures Update(MutateAll(Update(r, w, g, version, now, c).value, ms), w2, g2, version, now2, c2).Rejected?
  {
    AlwaysFollows(Update(r, w, g, version, now, c).value, ms);
  }

  /** A claim that meets a pending intent issues no lease: it ends the objective, for good. */
  lemma PendingIntentEndsClaims(r: Record, worker: string, now: int, leaseSeconds: int, ms: seq<Mutation>)
    requires r.intent.Some? && Claim(r, worker, now, leaseSeconds).Ok?
    ensures var b := Claim(r, worker, now, leaseSeconds).value;
      b.phase == Blocked && b.generation == r.generation && b.intent == r.intent && MutateAll(b, ms) == b
  {
    AlwaysFollows(Claim(r, worker, now, leaseSeconds).value, ms);
  }

  // ----------------------------------------------------------------- the history limit

  /** The read limit is a trap door: the transaction that writes the 2001st event is accepted
      and nothing is accepted afterwards. */
  lemma HistoryLimitIsFinal(r: Record, m: Mutation, ms: seq<Mutation>)
    requires Readable(r) && !Readable(Mutate(r, m))
    ensures MutateAll(Mutate(r, m), ms) == Mutate(r, m)
  {
    LockedForever(Mutate(r, m), ms);
  }

  lemma {:induction false} LockedForever(r: Record, ms: seq<Mutation>)
    requires !Readable(r)
    ensures MutateAll(r, ms) == r
    decreases |ms|
  {
    if ms != [] {
      LockedForever(r, ms[1..]);
    }
  }

  /** An accepted transaction leaves the objective readable exactly while fewer than 1999 have
      been accepted before it; over any run, the record is readable exactly while fewer than
      2000 have been accepted since it was enqueued. */
  lemma StaysReadableIff(a: Approval, now: int, ms: seq<Mutation>, m: Mutation)
    ensures var r := MutateAll(Initial(a, now), ms);
      && r.version == Accepted(Initial(a, now), ms)
      && (Readable(r) <==> Accepted(Initial(a, now), ms) < MAX_HISTORY)
      && (Mutate(r, m) != r ==> (Readable(Mutate(r, m)) <==> Accepted(Initial(a, now), ms) + 1 < MAX_HISTORY))
  {
    AcceptedCounts(Initial(a, now), ms);
    OneVersionOn(MutateAll(Initial(a, now), ms), m);
  }

  /** How many transactions of a run were accepted and wrote an event. */
  function Accepted(r: Record, ms: seq<Mutation>): nat
    decreases |ms|
  {
    if ms == [] then 0 else (if Mutate(r, ms[0]) != r then 1 else 0) + Accepted(Mutate(r, ms[0]), ms[1..])
  }

  lemma OneVersionOn(r: Record, m: Mutation)
    ensures Mutate(r, m) != r ==> Mutate(r, m).version == r.version + 1
  {
  }

  lemma {:induction false} AcceptedCounts(r: Record, ms: seq<Mutation>)
    ensures MutateAll(r, ms).version == r.version + Accepted(r, ms)
    decreases |ms|
  {
    if ms != [] {
      OneVersionOn(r, ms[0]);
      AcceptedCounts(Mutate(r, ms[0]), ms[1..]);
    }
  }

  /** A worker that claims for a second, dies, and is replaced by the next, `k` times. */
  function Renewals(now: int, k: nat): seq<Mutation> {
    if k == 0 then [] else Renewals(now, k - 1) + [ClaimBy("w", now + k - 1, 1)]
  }

  /** Every version up to and including the limit is reached from enqueueing, by claims alone,
      with the objective open and nothing pending: the limit can really be hit. */
  lemma {:induction false} HistoryLimitReachable(a: Approval, now: int, k: nat)
    requires k <= MAX_HISTORY && 0 <= now && now + MAX_HISTORY <= MAX_TIME
    requires now + MAX_HISTORY < a.expiresAt && MAX_HISTORY < a.limits.maxWallSeconds
    ensures var r := MutateAll(Initial(a, now), Renewals(now, k));
      && r.version == k && !r.Terminal() && r.intent.None?
      && r.leaseUntil <= now + k && r.deadline == Initial(a, now).deadline
    ensures k == MAX_HISTORY ==> !Readable(MutateAll(Initial(a, now), Renewals(now, k)))
  {
    if k > 0 {
      HistoryLimitReachable(a, now, k - 1);
      MutateLast(Initial(a, now), Renewals(now, k - 1), ClaimBy("w", now + k - 1, 1));
      RenewedOnce(MutateAll(Initial(a, now), Renewals(now, k - 1)), now + k - 1);
    }
  }

  lemma RenewedOnce(r: Record, now: int)
    requires Readable(r) && !r.Terminal() && r.intent.None? && r.leaseUntil <= now < r.deadline && 0 <= now <= MAX_TIME
    ensures var n := Mutate(r, ClaimBy("w", now, 1));
      && n.version == r.version + 1 && !n.Terminal() && n.intent.None?
      && n.leaseUntil <= now + 1 && n.deadline == r.deadline
  {
    assert StripLeft("w") == "w" && StripRight("w") == "w";
    assert IsText("w", 128);
  }

  lemma {:induction false} MutateLast(r: Record, ms: seq<Mutation>, m: Mutation)
    ensures MutateAll(r, ms + [m]) == Mutate(MutateAll(r, ms), m)
    decreases |ms|
  {
    if ms != [] {
      assert (ms + [m])[1..] == ms[1..] + [m];
      MutateLast(Mutate(r, ms[0]), ms[1..], m);
    }
  }
}
