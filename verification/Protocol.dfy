/** The publication protocol as a state machine: one durable record, any number of workers that
    claim, update, call out, lose their lease or crash, in any interleaving and at any clock
    readings. The adapters' answers are arbitrary. */
module Protocol {
  import opened Results
  import opened Candidates
  import opened Objectives
  import opened Records
  import Gateway

  datatype Config = Config(
    approval: Approval,
    policy: Policy,
    keys: map<string, TrustKey>,
    base: Snapshot,
    enqueuedAt: int)

  // ----------------------------------------------------------------------- the plan

  predicate ItemAccepted(plan: Plan, approval: Approval, i: nat)
    requires i < |plan|
  {
    && plan[i].number == i + 1
    && IsStrings(plan[i].criteria, 20)
    && Elements(plan[i].criteria) <= approval.task.acceptanceCriteria
    && IsText(plan[i].goal, 4096)
  }

  function Covered(plan: Plan): set<string> {
    set item, c | item in plan && c in item.criteria :: c
  }

  /** A plan is sequential, stays within the approved criteria and covers all of them. */
  predicate PlanAccepted(plan: Plan, approval: Approval) {
    && 0 < |plan| <= approval.limits.maxBatches
    && (forall i | 0 <= i < |plan| :: ItemAccepted(plan, approval, i))
    && Covered(plan) == approval.task.acceptanceCriteria
  }

  // ------------------------------------------------------------------- calls and effects

  datatype ReceiptAnswer = Signed(envelope: Envelope<ReceiptClaim>) | ReportsFailure | NoReceipt

  datatype MergeAnswer = AnswerMerged(sha: string) | AnswerPending | AnswerRefused

  /** What an adapter answers, whichever call it was. */
  datatype Reply = Reply(
    plan: Option<Plan>,
    snapshot: Option<Snapshot>,
    receipt: ReceiptAnswer,
    publication: Option<Gateway.Publication>,
    acceptance: Option<Envelope<AcceptanceClaim>>,
    merge: MergeAnswer,
    released: bool)

  /** An external call that a worker has announced by a durable intent. */
  datatype Call =
    | CallPlan
    | CallImplement(batch: int, attempt: int)
    | CallValidate(batch: int, parent: string, candidate: Binding)
    | CallPublish(batch: int, parent: string, candidate: Binding)
    | CallAccept(candidate: Binding, head: string)
    | CallMerge(head: string)
    | CallRelease(tag: string)

  /** An external call that was really made, with its answer. */
  datatype Effect =
    | Planned(plan: Option<Plan>)
    | Implemented(batch: int, attempt: int, snapshot: Option<Snapshot>)
    | Validated(batch: int, parent: string, candidate: Binding, receipt: ReceiptAnswer)
    | Published(batch: int, parent: string, candidate: Binding, publication: Option<Gateway.Publication>)
    | Accepted(candidate: Binding, head: string, acceptance: Option<Envelope<AcceptanceClaim>>)
    | MergeAttempted(head: string)
    | MergeAcknowledged(head: string, sha: string)
    | ReleaseRequested(tag: string, released: bool)

  function EffectOf(call: Call, reply: Reply): Effect {
    match call
    case CallPlan => Planned(reply.plan)
    case CallImplement(batch, attempt) => Implemented(batch, attempt, reply.snapshot)
    case CallValidate(batch, parent, candidate) => Validated(batch, parent, candidate, reply.receipt)
    case CallPublish(batch, parent, candidate) => Published(batch, parent, candidate, reply.publication)
    case CallAccept(candidate, head) => Accepted(candidate, head, reply.acceptance)
    case CallMerge(head) =>
      if reply.merge.AnswerMerged? then MergeAcknowledged(head, reply.merge.sha) else MergeAttempted(head)
    case CallRelease(tag) => ReleaseRequested(tag, reply.released)
  }

  // -------------------------------------------------------------------- the machine's state

  /** One claim of one worker: the record it was last given, the call it may now make, whether
      it holds an unspent attempt reservation, the answer it has just received, and the
      snapshots it has frozen for the batch it is working on. */
  datatype Session = Session(
    held: Record,
    due: Option<Call>,
    credit: bool,
    answer: Option<Effect>,
    attempts: seq<Snapshot>)

  datatype World = World(record: Record, sessions: map<nat, Session>, effects: seq<Effect>)

  /** The updates the service makes. */
  datatype Deed =
    | Start
    | Resumed(checkedAt: int, reconciled: bool)
    | Reserve(tokens: int, cost: int)
    | IntendPlan
    | FreezePlan(plan: Plan)
    | IntendImplement(attempt: int)
    | FreezeCandidate(attempt: int, candidate: Binding)
    | RequestRepair(repairs: int, checkedAt: int)
    | IntendPublish(receipt: Receipt, artifact: Snapshot, checkedAt: int)
    | RecordBatch(publication: Gateway.Publication)
    | StartAcceptance
    | IntendMerge(acceptance: Envelope<AcceptanceClaim>)
    | WaitForChecks(until: int)
    | RecordMerge(sha: string)
    | IntendRelease
    | RecordRelease
    | Complete
    | Block(reason: string)

  datatype Step =
    | ClaimStep(id: nat, worker: string, now: int, leaseSeconds: int)
    | DoStep(id: nat, now: int, deed: Deed)
    | CallStep(id: nat, reply: Reply)
    | CrashStep(id: nat)
    | ExpireStep(now: int)

  // ------------------------------------------------------------ the service's updates

  function Operation(cfg: Config, batch: int, parent: string, candidate: Binding): OperationId {
    OperationId(cfg.approval.digest, batch, parent, candidate)
  }

  function ChangesOf(cfg: Config, held: Record, deed: Deed): Changes {
    match deed
    case Start => UNCHANGED.(phase := Some(Running))
    case Resumed(_, _) => UNCHANGED.(phase := Some(Running))
    case Reserve(tokens, cost) => Reservation(held, tokens, cost)
    case IntendPlan => UNCHANGED.(intent := Some(Some(Planning)))
    case FreezePlan(plan) => UNCHANGED.(plan := Some(Some(plan)), intent := Some(None))
    case IntendImplement(attempt) => UNCHANGED.(intent := Some(Some(Implementation(held.batch + 1, attempt))))
    case FreezeCandidate(attempt, candidate) =>
      UNCHANGED.(phase := Some(Validating), repairs := Some(attempt), intent := Some(Some(Validation(candidate))))
    case RequestRepair(repairs, _) =>
      UNCHANGED.(phase := Some(Repairing), reason := Some(None), repairs := Some(repairs))
    case IntendPublish(receipt, artifact, _) =>
      var id := Operation(cfg, held.batch + 1, held.parentSha, receipt.candidate);
      UNCHANGED.(intent := Some(Some(Publish(id, receipt, held.parentSha, artifact))))
    case RecordBatch(publication) =>
      if held.intent.Some? && held.intent.value.Publish? then
        var intent := held.intent.value;
        var commit := Commit(publication, held.batch + 1, intent.receipt, intent.artifact);
        UNCHANGED.(phase := Some(Running), intent := Some(None), parentSha := Some(publication.commitSha),
                   batch := Some(held.batch + 1), repairs := Some(0), commits := Some(held.commits + [commit]))
      else UNCHANGED
    case StartAcceptance => UNCHANGED.(phase := Some(Validating), intent := Some(Some(Acceptance)))
    case IntendMerge(_) => UNCHANGED.(intent := Some(Some(Intent.Merge(held.parentSha))))
    case WaitForChecks(until) => UNCHANGED.(leaseUntil := Some(until))
    case RecordMerge(sha) => UNCHANGED.(intent := Some(None), mergeSha := Some(Some(sha)))
    case IntendRelease => UNCHANGED.(intent := Some(Some(Release(cfg.approval.releaseTag))))
    case RecordRelease => UNCHANGED.(intent := Some(None), released := Some(true))
    case Complete => UNCHANGED.(phase := Some(Completed), intent := Some(None))
    case Block(reason) => UNCHANGED.(phase := Some(Blocked), reason := Some(Some(reason)))
  }

  // ------------------------------------------------------------------------- evidence

  /** The digest of the candidate that this snapshot is. */
  function CandidateOf(cfg: Config, snapshot: Snapshot): Binding {
    Binding(cfg.approval.task.id, cfg.approval.task.baseSha, cfg.policy.digest, cfg.base, snapshot)
  }

  predicate InScope(cfg: Config, snapshot: Snapshot) {
    CleanScope(cfg.approval.task, cfg.policy, cfg.base, snapshot)
  }

  /** A candidate as the receipt check sees it once its scope report is clean. */
  function Sealed(cfg: Config, candidate: Binding): Candidate {
    Candidate(cfg.approval.task.id, cfg.approval.task.BranchName(), cfg.approval.task.baseSha, cfg.policy.digest,
              candidate, [], [])
  }

  /** The validator's envelope verifies this candidate on this parent as this batch. */
  predicate Stands(cfg: Config, e: Envelope<ReceiptClaim>, candidate: Binding, parent: string, batch: int, now: int) {
    ReceiptStands(e, cfg.approval, Sealed(cfg, candidate), cfg.policy, cfg.keys, parent, batch, now)
  }

  /** The envelope shows a check of this candidate that was executed and failed. */
  predicate Fails(cfg: Config, e: Envelope<ReceiptClaim>, candidate: Binding, parent: string, batch: int, now: int) {
    FailureStands(e, cfg.approval, Sealed(cfg, candidate), cfg.policy, cfg.keys, parent, batch, now)
  }

  /** The tree the published branch shows. */
  function PublishedTree(cfg: Config, commits: seq<Commit>): Snapshot {
    if commits == [] then cfg.base else commits[|commits| - 1].artifact
  }

  function ParentOf(cfg: Config, commits: seq<Commit>, i: nat): string
    requires i <= |commits|
  {
    if i == 0 then cfg.approval.task.baseSha else commits[i - 1].publication.commitSha
  }

  predicate AllPublished(r: Record) {
    r.plan.Some? && |r.plan.value| == r.batch && r.batch > 0
  }

  predicate Unmerged(r: Record) {
    r.mergeSha.None? && !r.released
  }

  predicate InBatch(i: Intent) {
    i.Implementation? || i.Validation? || i.Publish?
  }

  /** What a worker has to have before it intends to publish. */
  predicate PublishJustified(cfg: Config, s: Session, receipt: Receipt, artifact: Snapshot, checkedAt: int) {
    && s.held.intent == Some(Validation(receipt.candidate))
    && receipt.candidate == CandidateOf(cfg, artifact)
    && InScope(cfg, artifact) && artifact != PublishedTree(cfg, s.held.commits)
    && receipt.parentSha == s.held.parentSha && receipt.batch == s.held.batch + 1
    && Stands(cfg, receipt.envelope, receipt.candidate, s.held.parentSha, s.held.batch + 1, checkedAt)
    && s.answer == Some(Validated(s.held.batch + 1, s.held.parentSha, receipt.candidate, Signed(receipt.envelope)))
  }

  /** Only a candidate out of scope, or a failure the validator reports or proves, permits a repair. */
  predicate RepairJustified(cfg: Config, s: Session, candidate: Binding, checkedAt: int) {
    if s.due.Some? then s.due.value.CallValidate? && !InScope(cfg, candidate.after)
    else
      && s.answer.Some? && s.answer.value.Validated?
      && s.answer.value == Validated(s.held.batch + 1, s.held.parentSha, candidate, s.answer.value.receipt)
      && match s.answer.value.receipt
         case ReportsFailure => true
         case NoReceipt => false
         case Signed(e) => Fails(cfg, e, candidate, s.held.parentSha, s.held.batch + 1, checkedAt)
  }

  /** A snapshot a worker returned, which on repair touches only files of the failing change. */
  predicate AttemptJustified(cfg: Config, s: Session, attempt: int, candidate: Binding) {
    && attempt == |s.attempts|
    && s.held.intent == Some(Implementation(s.held.batch + 1, attempt))
    && s.answer == Some(Implemented(s.held.batch + 1, attempt, Some(candidate.after)))
    && candidate == CandidateOf(cfg, candidate.after)
    && (s.attempts != [] ==>
          var failing := s.attempts[|s.attempts| - 1];
          Diff(failing, candidate.after) <= Diff(PublishedTree(cfg, s.held.commits), failing))
  }

  /** A resumed run has verified the last receipt again and reconciled the remote head. */
  predicate ResumeJustified(cfg: Config, r: Record, checkedAt: int) {
    && r.plan.Some? && r.commits != [] && r.batch == |r.commits|
    && var last := r.commits[|r.commits| - 1];
       Stands(cfg, last.receipt.envelope, last.publication.candidate, ParentOf(cfg, r.commits, |r.commits| - 1),
              r.batch, checkedAt)
  }

  predicate MergeEvidence(cfg: Config, s: Session, e: Envelope<AcceptanceClaim>) {
    && s.held.commits != []
    && var candidate := s.held.commits[|s.held.commits| - 1].publication.candidate;
       && s.answer == Some(Accepted(candidate, s.held.parentSha, Some(e)))
       && AcceptanceStands(e, cfg.approval, cfg.keys, candidate, s.held.parentSha)
  }

  /** Where in its run a worker has to be to make an update. Nothing but the worker's own
      session is consulted: the record itself is protected by the version and the lease. */
  predicate Allowed(cfg: Config, s: Session, deed: Deed) {
    match deed
    case Start => s.due.None? && s.held.intent.None? && Unmerged(s.held) && s.held.commits == []
    case Resumed(checkedAt, reconciled) =>
      && s.due.None? && s.held.intent.None? && Unmerged(s.held)
      && reconciled && ResumeJustified(cfg, s.held, checkedAt)
    case Reserve(tokens, cost) => s.due.None? && tokens >= 1 && cost >= 1
    case IntendPlan => s.due.None? && s.credit && s.held.intent.None? && s.held.commits == [] && Unmerged(s.held)
    case FreezePlan(plan) =>
      && s.due.None? && Unmerged(s.held) && PlanAccepted(plan, cfg.approval)
      && (s.held.intent.None? || (s.held.intent.value.Planning? && s.answer == Some(Planned(Some(plan)))))
      && (s.held.commits == [] || s.held.plan == Some(plan))
    case IntendImplement(attempt) =>
      && s.due.None? && s.credit && Unmerged(s.held)
      && s.held.plan.Some? && s.held.batch < |s.held.plan.value|
      && attempt == s.held.repairs == |s.attempts|
      && (if attempt == 0 then s.held.intent.None?
          else s.held.intent.Some? && s.held.intent.value.Validation? && s.held.phase == Repairing)
    case FreezeCandidate(attempt, candidate) => s.due.None? && AttemptJustified(cfg, s, attempt, candidate)
    case RequestRepair(repairs, checkedAt) =>
      && s.held.intent.Some? && s.held.intent.value.Validation?
      && s.held.phase == Validating && repairs == s.held.repairs + 1
      && RepairJustified(cfg, s, s.held.intent.value.candidate, checkedAt)
    case IntendPublish(receipt, artifact, checkedAt) =>
      s.due.None? && Unmerged(s.held) && PublishJustified(cfg, s, receipt, artifact, checkedAt)
    case RecordBatch(publication) =>
      && s.due.None? && s.held.intent.Some? && s.held.intent.value.Publish?
      && publication.candidate == s.held.intent.value.receipt.candidate
      && publication.branch == cfg.approval.task.BranchName() && IsSha(publication.commitSha, 40)
      && s.answer == Some(Published(s.held.batch + 1, s.held.parentSha, publication.candidate, Some(publication)))
    case StartAcceptance =>
      s.due.None? && s.held.intent.None? && Unmerged(s.held) && AllPublished(s.held) && s.held.commits != []
    case IntendMerge(e) =>
      && s.due.None? && Unmerged(s.held) && s.held.intent == Some(Acceptance) && AllPublished(s.held)
      && MergeEvidence(cfg, s, e)
    case WaitForChecks(_) => s.due.Some? && s.due.value.CallMerge?
    case RecordMerge(sha) =>
      && s.due.None? && Unmerged(s.held) && s.answer == Some(MergeAcknowledged(s.held.parentSha, sha))
      && IsSha(sha, 40) && s.held.intent.Some? && s.held.intent.value.Merge? && AllPublished(s.held)
    case IntendRelease =>
      s.due.None? && s.held.intent.None? && s.held.mergeSha.Some? && cfg.approval.releaseAuthorized && !s.held.released
    case RecordRelease =>
      && s.due.None? && s.held.mergeSha.Some? && s.held.intent.Some? && s.held.intent.value.Release?
      && s.answer == Some(ReleaseRequested(cfg.approval.releaseTag, true))
    case Complete =>
      && s.due.None? && s.held.intent.None? && s.held.mergeSha.Some?
      && (cfg.approval.releaseAuthorized ==> s.held.released)
    case Block(_) => true
  }

  lemma JustifiedMayPublish(cfg: Config, s: Session, receipt: Receipt, artifact: Snapshot, now: int)
    requires s.due.None? && Unmerged(s.held) && PublishJustified(cfg, s, receipt, artifact, now)
    ensures Allowed(cfg, s, IntendPublish(receipt, artifact, now))
  {
  }

  /** The call an update entitles its worker to. */
  function DueAfter(cfg: Config, s: Session, deed: Deed): Option<Call> {
    match deed
    case IntendPlan => Some(CallPlan)
    case IntendImplement(attempt) => Some(CallImplement(s.held.batch + 1, attempt))
    case FreezeCandidate(_, candidate) => Some(CallValidate(s.held.batch + 1, s.held.parentSha, candidate))
    case IntendPublish(receipt, _, _) => Some(CallPublish(s.held.batch + 1, s.held.parentSha, receipt.candidate))
    case StartAcceptance =>
      if s.held.commits == [] then None
      else Some(CallAccept(s.held.commits[|s.held.commits| - 1].publication.candidate, s.held.parentSha))
    case IntendMerge(_) => Some(CallMerge(s.held.parentSha))
    case WaitForChecks(_) => s.due
    case IntendRelease => Some(CallRelease(cfg.approval.releaseTag))
    case _ => None
  }

  /** The snapshots of the current batch after an update. */
  function AttemptsAfter(s: Session, deed: Deed): seq<Snapshot> {
    match deed
    case FreezeCandidate(_, candidate) => s.attempts + [candidate.after]
    case RecordBatch(_) => []
    case _ => s.attempts
  }

  function Advance(cfg: Config, s: Session, deed: Deed): Session {
    Session(
      Merged(s.held, ChangesOf(cfg, s.held, deed)).(version := s.held.version + 1),
      DueAfter(cfg, s, deed),
      deed.Reserve? || (s.credit && !deed.IntendPlan? && !deed.IntendImplement?),
      None,
      AttemptsAfter(s, deed))
  }

  /** A pending merge gate is the only answer after which the same call may be repeated. */
  function AfterCall(s: Session, reply: Reply): Session
    requires s.due.Some?
  {
    s.(answer := Some(EffectOf(s.due.value, reply)),
       due := if s.due.value.CallMerge? && reply.merge.AnswerPending? then s.due else None)
  }

  // --------------------------------------------------------------------- the machine

  function InitialWorld(cfg: Config): World {
    World(Initial(cfg.approval, cfg.enqueuedAt), map[], [])
  }

  function UpdateFor(cfg: Config, w: World, s: Session, now: int, deed: Deed): Result<Record> {
    Update(w.record, s.held.leaseOwner, s.held.generation, s.held.version, now, ChangesOf(cfg, s.held, deed))
  }

  function Apply(cfg: Config, w: World, step: Step): World {
    match step
    case ClaimStep(id, worker, now, leaseSeconds) =>
      var claimed := Claim(w.record, worker, now, leaseSeconds);
      if id in w.sessions || claimed.Rejected? then w
      else if w.record.intent.Some? then w.(record := claimed.value)
      else w.(record := claimed.value, sessions := w.sessions[id := Session(claimed.value, None, false, None, [])])
    case DoStep(id, now, deed) =>
      if !Performs(cfg, w, id, now, deed) then w
      else w.(record := UpdateFor(cfg, w, w.sessions[id], now, deed).value,
              sessions := w.sessions[id := Advance(cfg, w.sessions[id], deed)])
    case CallStep(id, reply) =>
      if !CallsOut(w, id) then w
      else w.(effects := w.effects + [EffectOf(w.sessions[id].due.value, reply)],
              sessions := w.sessions[id := AfterCall(w.sessions[id], reply)])
    case CrashStep(id) => w.(sessions := w.sessions - {id})
    case ExpireStep(now) =>
      var expired := Expire(w.record, now);
      if expired.Ok? then w.(record := expired.value) else w
  }

  predicate Performs(cfg: Config, w: World, id: nat, now: int, deed: Deed) {
    id in w.sessions && Allowed(cfg, w.sessions[id], deed) && UpdateFor(cfg, w, w.sessions[id], now, deed).Ok?
  }

  predicate CallsOut(w: World, id: nat) {
    id in w.sessions && w.sessions[id].due.Some?
  }

  function Reached(cfg: Config, steps: seq<Step>): World
    decreases |steps|
  {
    if steps == [] then InitialWorld(cfg)
    else Apply(cfg, Reached(cfg, steps[..|steps| - 1]), steps[|steps| - 1])
  }

  // ------------------------------------------------------------------ the invariants

  /** A worker that presents the current version holds the current record, and nobody else does. */
  ghost predicate Holders(w: World) {
    && (forall id | id in w.sessions ::
          && w.sessions[id].held.version <= w.record.version
          && (w.sessions[id].held.version == w.record.version ==> w.sessions[id].held == w.record))
    && (forall i, j | i in w.sessions && j in w.sessions
          && w.sessions[i].held.version == w.sessions[j].held.version :: i == j)
  }

  /** The intent that stands in the record announces exactly this call. */
  predicate DueMatches(cfg: Config, call: Call, r: Record) {
    match call
    case CallPlan => r.intent == Some(Planning)
    case CallImplement(batch, attempt) => r.intent == Some(Implementation(batch, attempt)) && batch == r.batch + 1
    case CallValidate(batch, parent, candidate) =>
      r.intent == Some(Validation(candidate)) && batch == r.batch + 1 && parent == r.parentSha
    case CallPublish(batch, parent, candidate) =>
      && r.intent.Some? && r.intent.value.Publish? && batch == r.batch + 1 && parent == r.parentSha
      && r.intent.value.id == Operation(cfg, batch, parent, candidate) && candidate == r.intent.value.receipt.candidate
    case CallAccept(candidate, head) =>
      && r.intent == Some(Acceptance) && head == r.parentSha
      && r.commits != [] && candidate == r.commits[|r.commits| - 1].publication.candidate
    case CallMerge(head) => r.intent == Some(Intent.Merge(head)) && head == r.parentSha && r.mergeSha.None?
    case CallRelease(tag) => r.intent == Some(Release(tag)) && tag == cfg.approval.releaseTag && !r.released
  }

  /** The record was closed by someone who holds no session on it. */
  ghost predicate Orphaned(w: World) {
    w.record.Terminal() && forall id | id in w.sessions :: w.sessions[id].held.version < w.record.version
  }

  /** While a call is announced but not yet made, its intent stands in the record, and the
      record is either still the announcing worker's own or closed for good. */
  ghost predicate Announced(cfg: Config, w: World) {
    && (forall id | id in w.sessions && w.sessions[id].due.Some? ::
          && DueMatches(cfg, w.sessions[id].due.value, w.record)
          && (w.sessions[id].held.version == w.record.version || Orphaned(w)))
    && (forall i, j | CallsOut(w, i) && CallsOut(w, j) :: i == j)
  }

  /** The evidence a publication rests on: an artifact in scope, and a receipt that verified
      exactly this artifact on this parent as this batch. */
  ghost predicate Evidence(cfg: Config, receipt: Receipt, artifact: Snapshot, parent: string, batch: int) {
    && receipt.candidate == CandidateOf(cfg, artifact) && receipt.parentSha == parent && receipt.batch == batch
    && InScope(cfg, artifact)
    && exists now :: Stands(cfg, receipt.envelope, receipt.candidate, parent, batch, now)
  }

  ghost predicate CommitSound(cfg: Config, commits: seq<Commit>, i: nat)
    requires i < |commits|
  {
    && commits[i].batch == i + 1
    && commits[i].publication.branch == cfg.approval.task.BranchName() && IsSha(commits[i].publication.commitSha, 40)
    && commits[i].publication.candidate == commits[i].receipt.candidate
    && Evidence(cfg, commits[i].receipt, commits[i].artifact, ParentOf(cfg, commits, i), i + 1)
  }

  ghost predicate HistorySound(cfg: Config, r: Record) {
    && r.batch == |r.commits|
    && r.parentSha == ParentOf(cfg, r.commits, |r.commits|)
    && forall i | 0 <= i < |r.commits| :: CommitSound(cfg, r.commits, i)
  }

  ghost predicate PublishSound(cfg: Config, r: Record) {
    r.intent.Some? && r.intent.value.Publish? ==>
      && Unmerged(r)
      && Evidence(cfg, r.intent.value.receipt, r.intent.value.artifact, r.parentSha, r.batch + 1)
  }

  predicate IntentSound(r: Record) {
    && (r.intent.Some? && r.intent.value.Implementation? ==>
          r.intent.value.batch == r.batch + 1 && r.intent.value.attempt == r.repairs)
    && (!(r.intent.Some? && InBatch(r.intent.value)) ==> r.repairs == 0)
  }

  predicate PlanSound(cfg: Config, r: Record) {
    && (r.plan.Some? ==> PlanAccepted(r.plan.value, cfg.approval))
    && (r.commits != [] ==> r.plan.Some? && r.batch <= |r.plan.value|)
    && (r.intent.Some? && InBatch(r.intent.value) ==> r.plan.Some? && r.batch < |r.plan.value|)
    && (r.mergeSha.Some? ==> AllPublished(r))
  }

  predicate HeadSound(cfg: Config, r: Record) {
    && (r.intent.Some? && r.intent.value.Merge? ==> r.intent.value.head == r.parentSha && AllPublished(r))
    && (r.intent.Some? && r.intent.value.Release? ==> r.mergeSha.Some? && cfg.approval.releaseAuthorized)
  }

  predicate EndSound(cfg: Config, r: Record) {
    && (r.released ==> r.mergeSha.Some? && cfg.approval.releaseAuthorized)
    && (r.phase == Completed ==>
          r.intent.None? && r.mergeSha.Some? && (cfg.approval.releaseAuthorized ==> r.released))
  }

  ghost predicate RecordSound(cfg: Config, r: Record) {
    HistorySound(cfg, r) && PublishSound(cfg, r) && IntentSound(r) && PlanSound(cfg, r) && HeadSound(cfg, r)
        && EndSound(cfg, r)
  }

  predicate Publishes(e: Effect, batch: int) {
    e.Published? && e.batch == batch
  }

  /** No batch number is published twice; the next one at most while its intent stands. */
  ghost predicate PublishedOnce(w: World) {
    && (forall i | 0 <= i < |w.effects| && w.effects[i].Published? :: w.effects[i].batch <= w.record.batch + 1)
    && (forall i, j | 0 <= i < j < |w.effects| && w.effects[i].Published? && w.effects[j].Published? ::
          w.effects[i].batch != w.effects[j].batch)
    && ((exists i | 0 <= i < |w.effects| :: Publishes(w.effects[i], w.record.batch + 1)) ==>
          && w.record.intent.Some? && w.record.intent.value.Publish?
          && forall id | CallsOut(w, id) :: !w.sessions[id].due.value.CallPublish?)
  }

  ghost predicate MergedOnce(w: World) {
    && (forall i, j | 0 <= i < j < |w.effects| && w.effects[i].MergeAcknowledged? :: !w.effects[j].MergeAcknowledged?)
    && ((exists i | 0 <= i < |w.effects| :: w.effects[i].MergeAcknowledged?) ==>
          || w.record.mergeSha.Some?
          || (&& w.record.intent.Some? && w.record.intent.value.Merge?
              && forall id | CallsOut(w, id) :: !w.sessions[id].due.value.CallMerge?))
  }

  predicate IsWork(c: Call) {
    c.CallPlan? || c.CallImplement?
  }

  predicate WorkEffect(e: Effect) {
    e.Planned? || e.Implemented?
  }

  function WorkDone(effects: seq<Effect>): nat
    decreases |effects|
  {
    if effects == [] then 0
    else WorkDone(effects[..|effects| - 1]) + (if WorkEffect(effects[|effects| - 1]) then 1 else 0)
  }

  /** A session that can still turn an attempt into a call. */
  predicate Owes(w: World, id: nat) {
    && id in w.sessions
    && ((w.sessions[id].due.Some? && IsWork(w.sessions[id].due.value))
        || (w.sessions[id].credit && w.sessions[id].held.version == w.record.version))
  }

  ghost predicate WorkReserved(w: World) {
    && WorkDone(w.effects) <= w.record.attempts
    && ((exists id :: Owes(w, id)) ==> WorkDone(w.effects) + 1 <= w.record.attempts)
    && (forall id | CallsOut(w, id) && IsWork(w.sessions[id].due.value) :: !w.sessions[id].credit)
  }

  /** What a worker was answered has really happened. */
  ghost predicate Answered(w: World) {
    forall id | id in w.sessions && w.sessions[id].answer.Some? :: w.sessions[id].answer.value in w.effects
  }

  ghost predicate Inv(cfg: Config, w: World) {
    && Holders(w)
    && Announced(cfg, w)
    && Answered(w)
    && RecordSound(cfg, w.record)
    && PublishedOnce(w)
    && MergedOnce(w)
    && WorkReserved(w)
  }

  // -------------------------------------------------------------- every step keeps them

  lemma InitialInv(cfg: Config)
    ensures Inv(cfg, InitialWorld(cfg))
  {
  }

  /** What closing the record from outside leaves alone. */
  predicate ClosedFrom(r: Record, n: Record) {
    && n == r.(phase := Blocked, reason := n.reason, version := r.version + 1)
  }

  lemma ClosingKeepsRecord(cfg: Config, r: Record, n: Record)
    requires RecordSound(cfg, r) && ClosedFrom(r, n)
    ensures RecordSound(cfg, n)
  {
  }

  lemma ClosingKeeps(cfg: Config, w: World, n: Record)
    requires Inv(cfg, w) && ClosedFrom(w.record, n)
    ensures Inv(cfg, w.(record := n))
  {
    ClosingKeepsRecord(cfg, w.record, n);
    ClosingKeepsSessions(cfg, w, n);
    ClosingKeepsEffects(w, n);
  }

  lemma ClosingKeepsSessions(cfg: Config, w: World, n: Record)
    requires Holders(w) && Announced(cfg, w) && Answered(w) && ClosedFrom(w.record, n)
    ensures Holders(w.(record := n)) && Announced(cfg, w.(record := n)) && Answered(w.(record := n))
  {
    var v := w.(record := n);
    assert Orphaned(v);
    assert forall id :: CallsOut(v, id) <==> CallsOut(w, id);
  }

  lemma ClosingKeepsEffects(w: World, n: Record)
    requires PublishedOnce(w) && MergedOnce(w) && WorkReserved(w) && ClosedFrom(w.record, n) && Holders(w)
    ensures PublishedOnce(w.(record := n)) && MergedOnce(w.(record := n)) && WorkReserved(w.(record := n))
  {
    var v := w.(record := n);
    assert forall id :: CallsOut(v, id) <==> CallsOut(w, id);
    assert forall id :: Owes(v, id) ==> Owes(w, id);
  }

  lemma ExpireKeeps(cfg: Config, w: World, now: int)
    requires Inv(cfg, w)
    ensures Inv(cfg, Apply(cfg, w, ExpireStep(now)))
  {
    var v := Apply(cfg, w, ExpireStep(now));
    ExpireCloses(cfg, w, now);
    if v != w {
      ClosingKeeps(cfg, w, v.record);
    }
  }

  lemma ExpireCloses(cfg: Config, w: World, now: int)
    ensures var v := Apply(cfg, w, ExpireStep(now));
      v == w || (ClosedFrom(w.record, v.record) && v == w.(record := v.record))
  {
  }

  lemma ClaimKeeps(cfg: Config, w: World, id: nat, worker: string, now: int, leaseSeconds: int)
    requires Inv(cfg, w)
    ensures Inv(cfg, Apply(cfg, w, ClaimStep(id, worker, now, leaseSeconds)))
  {
    var claimed := Claim(w.record, worker, now, leaseSeconds);
    if id !in w.sessions && claimed.Ok? {
      if w.record.intent.Some? {
        ClosingKeeps(cfg, w, claimed.value);
      } else {
        ClaimGrantsKeeps(cfg, w, id, claimed.value);
      }
    }
  }

  /** What a granted claim changes in the record. */
  predicate ClaimedFrom(r: Record, n: Record) {
    && n == r.(leaseOwner := n.leaseOwner, generation := n.generation, leaseUntil := n.leaseUntil,
               phase := n.phase, version := r.version + 1)
    && n.phase != Completed
  }

  /** A granted claim finds no announced call anywhere. */
  lemma ClaimGrantsKeeps(cfg: Config, w: World, id: nat, n: Record)
    requires Inv(cfg, w) && id !in w.sessions && w.record.intent.None? && ClaimedFrom(w.record, n)
    ensures Inv(cfg, World(n, w.sessions[id := Session(n, None, false, None, [])], w.effects))
  {
    var v := World(n, w.sessions[id := Session(n, None, false, None, [])], w.effects);
    ClaimedKeepsRecord(cfg, w.record, n);
    forall other: nat
      ensures !CallsOut(v, other)
    {
      NoIntentNoCall(cfg, w, other);
    }
    ClaimKeepsEffects(w, v, id);
  }

  lemma NoIntentNoCall(cfg: Config, w: World, id: nat)
    requires Announced(cfg, w) && w.record.intent.None?
    ensures !CallsOut(w, id)
  {
    assert CallsOut(w, id) ==> DueMatches(cfg, w.sessions[id].due.value, w.record);
  }

  /** Nothing that counts effects is touched by a claim that finds no call announced. */
  lemma ClaimKeepsEffects(w: World, v: World, id: nat)
    requires PublishedOnce(w) && MergedOnce(w) && WorkReserved(w)
    requires id !in w.sessions && w.record.intent.None? && ClaimedFrom(w.record, v.record)
    requires v.effects == w.effects && v.sessions == w.sessions[id := Session(v.record, None, false, None, [])]
    requires forall other | other in w.sessions :: w.sessions[other].held.version <= w.record.version
    requires forall other :: !CallsOut(v, other)
    ensures PublishedOnce(v) && MergedOnce(v) && WorkReserved(v)
  {
    assert forall other :: Owes(v, other) ==> Owes(w, other);
  }

  lemma ClaimedKeepsRecord(cfg: Config, r: Record, n: Record)
    requires RecordSound(cfg, r) && ClaimedFrom(r, n)
    ensures RecordSound(cfg, n)
  {
  }

  lemma CrashKeeps(cfg: Config, w: World, id: nat)
    requires Inv(cfg, w)
    ensures Inv(cfg, Apply(cfg, w, CrashStep(id)))
  {
    CrashKeepsSessions(cfg, w, id);
    CrashKeepsEffects(w, id);
  }

  lemma CrashKeepsSessions(cfg: Config, w: World, id: nat)
    requires Holders(w) && Announced(cfg, w) && Answered(w)
    ensures var v := w.(sessions := w.sessions - {id}); Holders(v) && Announced(cfg, v) && Answered(v)
  {
    var v := w.(sessions := w.sessions - {id});
    assert Orphaned(w) ==> Orphaned(v);
    assert forall other :: CallsOut(v, other) ==> CallsOut(w, other);
  }

  lemma CrashKeepsEffects(w: World, id: nat)
    requires PublishedOnce(w) && MergedOnce(w) && WorkReserved(w)
    ensures var v := w.(sessions := w.sessions - {id}); PublishedOnce(v) && MergedOnce(v) && WorkReserved(v)
  {
    var v := w.(sessions := w.sessions - {id});
    assert forall other :: CallsOut(v, other) ==> CallsOut(w, other);
    assert forall other :: Owes(v, other) ==> Owes(w, other);
  }

  // An external call.

  lemma AppendedEffects(effects: seq<Effect>, e: Effect)
    ensures WorkDone(effects + [e]) == WorkDone(effects) + (if WorkEffect(e) then 1 else 0)
  {
    assert (effects + [e])[..|effects|] == effects;
  }

  /** A call changes no one's record, and at most uses up the caller's own entitlement. */
  predicate AfterCalling(w: World, v: World, id: nat, e: Effect) {
    && CallsOut(w, id)
    && v.record == w.record && v.effects == w.effects + [e]
    && v.sessions.Keys == w.sessions.Keys
    && (forall other | other in w.sessions && other != id :: v.sessions[other] == w.sessions[other])
    && v.sessions[id] == w.sessions[id].(due := v.sessions[id].due, answer := Some(e))
    && (v.sessions[id].due == w.sessions[id].due || v.sessions[id].due.None?)
  }

  lemma CallStepShape(cfg: Config, w: World, id: nat, reply: Reply)
    requires CallsOut(w, id)
    ensures var v := Apply(cfg, w, CallStep(id, reply));
      && AfterCalling(w, v, id, EffectOf(w.sessions[id].due.value, reply))
      && (!w.sessions[id].due.value.CallMerge? || reply.merge.AnswerMerged? ==> v.sessions[id].due.None?)
  {
  }

  lemma CallKeepsSessions(cfg: Config, w: World, v: World, id: nat, e: Effect)
    requires Holders(w) && Announced(cfg, w) && Answered(w) && AfterCalling(w, v, id, e)
    ensures Holders(v) && Announced(cfg, v) && Answered(v)
  {
    CallKeepsHolders(w, v, id, e);
    CallKeepsAnnounced(cfg, w, v, id, e);
    CallIsAnswered(w, v, id, e);
  }

  lemma CallKeepsHolders(w: World, v: World, id: nat, e: Effect)
    requires Holders(w) && AfterCalling(w, v, id, e)
    ensures Holders(v)
  {
  }

  lemma CallKeepsAnnounced(cfg: Config, w: World, v: World, id: nat, e: Effect)
    requires Announced(cfg, w) && AfterCalling(w, v, id, e)
    ensures Announced(cfg, v)
  {
    assert Orphaned(w) ==> Orphaned(v);
    assert forall other :: CallsOut(v, other) ==> CallsOut(w, other);
  }

  lemma CallIsAnswered(w: World, v: World, id: nat, e: Effect)
    requires Answered(w) && AfterCalling(w, v, id, e)
    ensures Answered(v)
  {
    assert v.effects[|w.effects|] == e;
    assert forall f | f in w.effects :: f in v.effects;
  }

  /** ... and what it leaves behind is what the standing intent announced. */
  predicate CallMatches(w: World, v: World, id: nat, e: Effect) {
    && AfterCalling(w, v, id, e)
    && (WorkEffect(e) <==> IsWork(w.sessions[id].due.value))
    && (e.Published? <==> w.sessions[id].due.value.CallPublish?)
    && (e.Published? ==> e.batch == w.record.batch + 1)
    && (e.MergeAcknowledged? ==> w.sessions[id].due.value.CallMerge?)
    && (e.MergeAcknowledged? || !w.sessions[id].due.value.CallMerge? ==> v.sessions[id].due.None?)
  }

  lemma CallKeepsPublished(cfg: Config, w: World, v: World, id: nat, e: Effect)
    requires Announced(cfg, w) && PublishedOnce(w) && CallMatches(w, v, id, e)
    ensures PublishedOnce(v)
  {
    assert forall other :: CallsOut(v, other) ==> CallsOut(w, other);
    assert DueMatches(cfg, w.sessions[id].due.value, w.record);
    assert forall i | 0 <= i < |w.effects| :: !Publishes(w.effects[i], w.record.batch + 1);
  }

  lemma CallKeepsMerged(cfg: Config, w: World, v: World, id: nat, e: Effect)
    requires Announced(cfg, w) && MergedOnce(w) && CallMatches(w, v, id, e)
    ensures MergedOnce(v)
  {
    assert forall other :: CallsOut(v, other) ==> CallsOut(w, other);
    assert DueMatches(cfg, w.sessions[id].due.value, w.record);
    assert e.MergeAcknowledged? ==> forall i | 0 <= i < |w.effects| :: !w.effects[i].MergeAcknowledged?;
  }

  /** Only one worker can be owed anything once a call is announced. */
  lemma OnlyCallerOwes(cfg: Config, w: World, id: nat, other: nat)
    requires Holders(w) && Announced(cfg, w) && CallsOut(w, id)
    requires Owes(w, other)
    ensures other == id
  {
    assert CallsOut(w, id);
    if w.sessions[other].due.Some? {
      assert CallsOut(w, other);
    }
  }

  lemma CallKeepsWork(cfg: Config, w: World, v: World, id: nat, e: Effect)
    requires Holders(w) && Announced(cfg, w) && WorkReserved(w) && CallMatches(w, v, id, e)
    ensures WorkReserved(v)
  {
    AppendedEffects(w.effects, e);
    assert forall other :: CallsOut(v, other) ==> CallsOut(w, other);
    if WorkEffect(e) {
      assert Owes(w, id);
      assert !Owes(v, id);
      forall other: nat | other != id
        ensures !Owes(v, other)
      {
        if Owes(w, other) {
          OnlyCallerOwes(cfg, w, id, other);
        }
      }
    } else {
      assert forall other :: Owes(v, other) ==> Owes(w, other);
    }
  }

  lemma MadeCallMatches(cfg: Config, w: World, id: nat, reply: Reply)
    requires Announced(cfg, w) && CallsOut(w, id)
    ensures CallMatches(w, Apply(cfg, w, CallStep(id, reply)), id, EffectOf(w.sessions[id].due.value, reply))
  {
    CallStepShape(cfg, w, id, reply);
    assert DueMatches(cfg, w.sessions[id].due.value, w.record);
  }

  lemma CallKeeps(cfg: Config, w: World, id: nat, reply: Reply)
    requires Inv(cfg, w) && CallsOut(w, id)
    ensures Inv(cfg, Apply(cfg, w, CallStep(id, reply)))
  {
    MadeCallMatches(cfg, w, id, reply);
    MatchedCallKeeps(cfg, w, Apply(cfg, w, CallStep(id, reply)), id, EffectOf(w.sessions[id].due.value, reply));
  }

  lemma MatchedCallKeeps(cfg: Config, w: World, v: World, id: nat, e: Effect)
    requires Inv(cfg, w) && CallMatches(w, v, id, e)
    ensures Inv(cfg, v)
  {
    CallKeepsSessions(cfg, w, v, id, e);
    CallKeepsPublished(cfg, w, v, id, e);
    CallKeepsMerged(cfg, w, v, id, e);
    CallKeepsWork(cfg, w, v, id, e);
  }

  // An update.

  /** An accepted update comes from the one worker that holds the current record. */
  lemma PerformerHolds(cfg: Config, w: World, id: nat, now: int, deed: Deed)
    requires Holders(w) && Announced(cfg, w) && Performs(cfg, w, id, now, deed)
    ensures w.sessions[id].held == w.record && !w.record.Terminal()
    ensures UpdateFor(cfg, w, w.sessions[id], now, deed).value == Advance(cfg, w.sessions[id], deed).held
    ensures forall other | other in w.sessions && other != id ::
      w.sessions[other].due.None? && w.sessions[other].held.version < w.record.version
    ensures w.sessions[id].due.Some? ==> DueMatches(cfg, w.sessions[id].due.value, w.record)
  {
    assert w.sessions[id].held == w.record;
    OthersAreIdle(cfg, w, id);
  }

  /** While the record is open, nobody but the holder of its current version is due a call. */
  lemma OthersAreIdle(cfg: Config, w: World, id: nat)
    requires Holders(w) && Announced(cfg, w) && !w.record.Terminal()
    requires id in w.sessions && w.sessions[id].held == w.record
    ensures forall other | other in w.sessions && other != id ::
      w.sessions[other].due.None? && w.sessions[other].held.version < w.record.version
    ensures w.sessions[id].due.Some? ==> DueMatches(cfg, w.sessions[id].due.value, w.record)
  {
  }

  /** What an update does to the world, once the updating worker is known to hold the record. */
  predicate AfterDeed(cfg: Config, w: World, v: World, id: nat, deed: Deed) {
    && id in w.sessions && Allowed(cfg, w.sessions[id], deed)
    && w.sessions[id].held == w.record && !w.record.Terminal()
    && (w.sessions[id].due.Some? ==> DueMatches(cfg, w.sessions[id].due.value, w.record))
    && v == World(Advance(cfg, w.sessions[id], deed).held, w.sessions[id := Advance(cfg, w.sessions[id], deed)],
                  w.effects)
    && (forall other | other in w.sessions && other != id ::
          w.sessions[other].due.None? && w.sessions[other].held.version < w.record.version)
  }

  lemma DeedShape(cfg: Config, w: World, id: nat, now: int, deed: Deed)
    requires Holders(w) && Announced(cfg, w) && Performs(cfg, w, id, now, deed)
    ensures AfterDeed(cfg, w, Apply(cfg, w, DoStep(id, now, deed)), id, deed)
  {
    PerformerHolds(cfg, w, id, now, deed);
  }

  lemma DoKeepsSessions(cfg: Config, w: World, v: World, id: nat, deed: Deed)
    requires Holders(w) && Announced(cfg, w) && Answered(w) && AfterDeed(cfg, w, v, id, deed)
    ensures Holders(v) && Announced(cfg, v) && Answered(v)
  {
    DoKeepsHolders(cfg, w, v, id, deed);
    AdvancedDue(cfg, w.sessions[id], deed);
    DoKeepsAnnounced(cfg, w, v, id, deed);
  }

  lemma DoKeepsHolders(cfg: Config, w: World, v: World, id: nat, deed: Deed)
    requires Holders(w) && AfterDeed(cfg, w, v, id, deed)
    ensures Holders(v)
  {
    HolderAdvances(w, v, id);
  }

  lemma HolderAdvances(w: World, v: World, id: nat)
    requires Holders(w) && id in w.sessions && id in v.sessions && v.sessions == w.sessions[id := v.sessions[id]]
    requires v.sessions[id].held == v.record && v.record.version == w.record.version + 1
    ensures Holders(v)
  {
  }

  lemma DoKeepsAnnounced(cfg: Config, w: World, v: World, id: nat, deed: Deed)
    requires AfterDeed(cfg, w, v, id, deed)
    requires v.sessions[id].due.Some? ==> DueMatches(cfg, v.sessions[id].due.value, v.record)
    ensures Announced(cfg, v)
  {
    SoleCaller(cfg, v, id);
  }

  /** If only the holder of the current record can be due a call, announcing it is enough. */
  lemma SoleCaller(cfg: Config, v: World, id: nat)
    requires id in v.sessions && v.sessions[id].held.version == v.record.version
    requires forall other | other in v.sessions && other != id :: v.sessions[other].due.None?
    requires v.sessions[id].due.Some? ==> DueMatches(cfg, v.sessions[id].due.value, v.record)
    ensures Announced(cfg, v)
  {
    assert forall other :: CallsOut(v, other) ==> other == id;
  }

  /** The entitlement an update gives is announced by the record it writes. */
  lemma AdvancedDue(cfg: Config, s: Session, deed: Deed)
    requires Allowed(cfg, s, deed)
    requires s.due.Some? ==> DueMatches(cfg, s.due.value, s.held)
    ensures var n := Advance(cfg, s, deed); n.due.Some? ==> DueMatches(cfg, n.due.value, n.held)
  {
    if deed.IntendPlan? || deed.IntendImplement? || deed.FreezeCandidate? || deed.IntendPublish? {
      BatchCallDue(cfg, s, deed);
    } else {
      EndCallDue(cfg, s, deed);
    }
  }

  lemma BatchCallDue(cfg: Config, s: Session, deed: Deed)
    requires Allowed(cfg, s, deed)
    requires deed.IntendPlan? || deed.IntendImplement? || deed.FreezeCandidate? || deed.IntendPublish?
    ensures var n := Advance(cfg, s, deed); n.due.Some? && DueMatches(cfg, n.due.value, n.held)
  {
  }

  lemma EndCallDue(cfg: Config, s: Session, deed: Deed)
    requires Allowed(cfg, s, deed)
    requires s.due.Some? ==> DueMatches(cfg, s.due.value, s.held)
    requires !(deed.IntendPlan? || deed.IntendImplement? || deed.FreezeCandidate? || deed.IntendPublish?)
    ensures var n := Advance(cfg, s, deed); n.due.Some? ==> DueMatches(cfg, n.due.value, n.held)
  {
  }

  lemma DoKeepsWork(cfg: Config, w: World, v: World, id: nat, deed: Deed)
    requires WorkReserved(w) && AfterDeed(cfg, w, v, id, deed)
    ensures WorkReserved(v)
  {
    assert forall other :: Owes(v, other) ==> other == id;
    CreditSpent(cfg, w.sessions[id], deed);
    if !deed.Reserve? {
      assert Owes(v, id) ==> Owes(w, id);
    }
    if CallsOut(w, id) {
      assert IsWork(w.sessions[id].due.value) ==> !w.sessions[id].credit;
    }
  }

  /** Credit comes from a reservation, and work is due only against credit. */
  lemma CreditSpent(cfg: Config, s: Session, deed: Deed)
    requires Allowed(cfg, s, deed)
    ensures var n := Advance(cfg, s, deed);
      && n.held.attempts == s.held.attempts + (if deed.Reserve? then 1 else 0)
      && (n.credit && !deed.Reserve? ==> s.credit)
      && (n.due.Some? && IsWork(n.due.value) ==> !n.credit && s.credit && !deed.Reserve?)
  {
  }

  lemma DoKeepsPublished(cfg: Config, w: World, v: World, id: nat, deed: Deed)
    requires PublishedOnce(w) && AfterDeed(cfg, w, v, id, deed)
    ensures PublishedOnce(v)
  {
    assert forall other :: CallsOut(v, other) ==> other == id;
    BatchMoves(cfg, w.sessions[id], deed);
    if deed.RecordBatch? {
      assert forall i | 0 <= i < |w.effects| :: !Publishes(w.effects[i], v.record.batch + 1);
    } else if i :| 0 <= i < |w.effects| && Publishes(w.effects[i], w.record.batch + 1) {
      PublishedStands(cfg, w, v, id, deed, i);
    }
  }

  lemma PublishedStands(cfg: Config, w: World, v: World, id: nat, deed: Deed, i: nat)
    requires PublishedOnce(w) && AfterDeed(cfg, w, v, id, deed) && !deed.RecordBatch?
    requires i < |w.effects| && Publishes(w.effects[i], w.record.batch + 1)
    ensures v.record.intent.Some? && v.record.intent.value.Publish?
    ensures !(v.sessions[id].due.Some? && v.sessions[id].due.value.CallPublish?)
  {
    assert w.sessions[id].due.Some? ==> CallsOut(w, id);
    StandingPublish(cfg, w.sessions[id], deed);
  }

  lemma BatchMoves(cfg: Config, s: Session, deed: Deed)
    requires Allowed(cfg, s, deed)
    ensures Advance(cfg, s, deed).held.batch == s.held.batch + (if deed.RecordBatch? then 1 else 0)
  {
  }

  /** While a publication intent stands only the batch record or a block can follow. */
  lemma StandingPublish(cfg: Config, s: Session, deed: Deed)
    requires Allowed(cfg, s, deed) && !deed.RecordBatch?
    requires s.held.intent.Some? && s.held.intent.value.Publish? && !(s.due.Some? && s.due.value.CallPublish?)
    requires s.due.Some? ==> DueMatches(cfg, s.due.value, s.held)
    ensures var n := Advance(cfg, s, deed);
      n.held.intent == s.held.intent && !(n.due.Some? && n.due.value.CallPublish?)
  {
  }

  lemma DoKeepsMerged(cfg: Config, w: World, v: World, id: nat, deed: Deed)
    requires MergedOnce(w) && AfterDeed(cfg, w, v, id, deed)
    ensures MergedOnce(v)
  {
    var s := w.sessions[id];
    assert forall other :: CallsOut(v, other) ==> other == id;
    assert s.due.Some? ==> CallsOut(w, id);
    if w.record.mergeSha.None? && w.record.intent.Some? && w.record.intent.value.Merge? {
      StandingMerge(cfg, s, deed);
    } else if w.record.mergeSha.Some? {
      MergeKept(cfg, s, deed);
    }
  }

  lemma StandingMerge(cfg: Config, s: Session, deed: Deed)
    requires Allowed(cfg, s, deed)
    requires s.held.mergeSha.None? && s.held.intent.Some? && s.held.intent.value.Merge?
    requires s.due.Some? ==> DueMatches(cfg, s.due.value, s.held)
    ensures var n := Advance(cfg, s, deed);
      || n.held.mergeSha.Some?
      || (&& n.held.intent == s.held.intent
          && (n.due.Some? && n.due.value.CallMerge? ==> s.due.Some? && s.due.value.CallMerge?))
  {
  }

  lemma MergeKept(cfg: Config, s: Session, deed: Deed)
    requires Allowed(cfg, s, deed) && s.held.mergeSha.Some?
    ensures Advance(cfg, s, deed).held.mergeSha == s.held.mergeSha
  {
  }

  lemma DoKeepsHistory(cfg: Config, s: Session, deed: Deed)
    requires RecordSound(cfg, s.held) && Allowed(cfg, s, deed)
    ensures HistorySound(cfg, Advance(cfg, s, deed).held)
  {
    if deed.RecordBatch? {
      BatchRecorded(cfg, s, deed.publication);
      RecordedHistory(cfg, s.held.commits, NewCommit(s.held, deed.publication));
    } else {
      CommitsKept(cfg, s, deed);
    }
  }

  /** The commit a publication intent turns into. */
  function NewCommit(r: Record, publication: Gateway.Publication): Commit
    requires r.intent.Some? && r.intent.value.Publish?
  {
    Commit(publication, r.batch + 1, r.intent.value.receipt, r.intent.value.artifact)
  }

  lemma BatchRecorded(cfg: Config, s: Session, publication: Gateway.Publication)
    requires Allowed(cfg, s, RecordBatch(publication))
    ensures var n := Advance(cfg, s, RecordBatch(publication)).held;
      && n.commits == s.held.commits + [NewCommit(s.held, publication)]
      && n.batch == s.held.batch + 1 && n.parentSha == publication.commitSha
      && n.intent.None? && n.repairs == 0 && n.plan == s.held.plan
  {
  }

  /** One more commit, on the evidence its intent stood for, continues a sound history. */
  lemma RecordedHistory(cfg: Config, commits: seq<Commit>, c: Commit)
    requires forall i | 0 <= i < |commits| :: CommitSound(cfg, commits, i)
    requires c.batch == |commits| + 1 && c.publication.branch == cfg.approval.task.BranchName()
    requires IsSha(c.publication.commitSha, 40)
    requires c.publication.candidate == c.receipt.candidate
    requires Evidence(cfg, c.receipt, c.artifact, ParentOf(cfg, commits, |commits|), |commits| + 1)
    ensures forall i | 0 <= i <= |commits| :: CommitSound(cfg, commits + [c], i)
  {
    forall i | 0 <= i <= |commits|
      ensures CommitSound(cfg, commits + [c], i)
    {
      if i < |commits| {
        OldCommitSound(cfg, commits, c, i);
      } else {
        NewCommitSound(cfg, commits, c);
      }
    }
  }

  lemma OldCommitSound(cfg: Config, commits: seq<Commit>, c: Commit, i: nat)
    requires i < |commits| && CommitSound(cfg, commits, i)
    ensures CommitSound(cfg, commits + [c], i)
  {
    assert (commits + [c])[i] == commits[i];
    assert ParentOf(cfg, commits + [c], i) == ParentOf(cfg, commits, i);
  }

  lemma NewCommitSound(cfg: Config, commits: seq<Commit>, c: Commit)
    requires c.batch == |commits| + 1 && c.publication.branch == cfg.approval.task.BranchName()
    requires IsSha(c.publication.commitSha, 40)
    requires c.publication.candidate == c.receipt.candidate
    requires Evidence(cfg, c.receipt, c.artifact, ParentOf(cfg, commits, |commits|), |commits| + 1)
    ensures CommitSound(cfg, commits + [c], |commits|)
  {
    assert (commits + [c])[|commits|] == c;
    assert ParentOf(cfg, commits + [c], |commits|) == ParentOf(cfg, commits, |commits|);
  }

  lemma CommitsKept(cfg: Config, s: Session, deed: Deed)
    requires Allowed(cfg, s, deed) && !deed.RecordBatch?
    ensures var n := Advance(cfg, s, deed).held;
      n.commits == s.held.commits && n.batch == s.held.batch && n.parentSha == s.held.parentSha
  {
  }

  lemma DoKeepsPublish(cfg: Config, s: Session, deed: Deed)
    requires PublishSound(cfg, s.held) && Allowed(cfg, s, deed)
    ensures PublishSound(cfg, Advance(cfg, s, deed).held)
  {
    if deed.IntendPublish? {
      PublishIntended(cfg, s, deed.receipt, deed.artifact, deed.checkedAt);
      IntendingIsSound(cfg, s, Advance(cfg, s, deed).held, deed.receipt, deed.artifact, deed.checkedAt);
    } else {
      StandingIsSound(cfg, s, deed);
    }
  }

  lemma IntendingIsSound(cfg: Config, s: Session, n: Record, receipt: Receipt, artifact: Snapshot, checkedAt: int)
    requires PublishJustified(cfg, s, receipt, artifact, checkedAt) && Intending(s.held, n, receipt, artifact)
    ensures PublishSound(cfg, n)
  {
    EvidenceGathered(cfg, s, receipt, artifact, checkedAt);
    GatheredIsSound(cfg, s.held, n, receipt, artifact);
  }

  lemma StandingIsSound(cfg: Config, s: Session, deed: Deed)
    requires PublishSound(cfg, s.held) && Allowed(cfg, s, deed) && !deed.IntendPublish?
    ensures PublishSound(cfg, Advance(cfg, s, deed).held)
  {
    PublishIntentKept(cfg, s, deed);
    SamePublish(cfg, s.held, Advance(cfg, s, deed).held);
  }

  /** The record after a publication was intended on this evidence. */
  predicate Intending(r: Record, n: Record, receipt: Receipt, artifact: Snapshot) {
    && n.intent.Some? && n.intent.value.Publish? && Unmerged(n)
    && n.intent.value.receipt == receipt && n.intent.value.artifact == artifact
    && n.parentSha == r.parentSha && n.batch == r.batch
  }

  lemma GatheredIsSound(cfg: Config, r: Record, n: Record, receipt: Receipt, artifact: Snapshot)
    requires Evidence(cfg, receipt, artifact, r.parentSha, r.batch + 1) && Intending(r, n, receipt, artifact)
    ensures PublishSound(cfg, n)
  {
  }

  lemma SamePublish(cfg: Config, r: Record, n: Record)
    requires PublishSound(cfg, r)
    requires n.intent.Some? && n.intent.value.Publish? ==>
      n.intent == r.intent && n.parentSha == r.parentSha && n.batch == r.batch && Unmerged(n)
    ensures PublishSound(cfg, n)
  {
  }

  lemma EvidenceGathered(cfg: Config, s: Session, receipt: Receipt, artifact: Snapshot, checkedAt: int)
    requires PublishJustified(cfg, s, receipt, artifact, checkedAt)
    ensures Evidence(cfg, receipt, artifact, s.held.parentSha, s.held.batch + 1)
  {
  }

  lemma PublishIntended(cfg: Config, s: Session, receipt: Receipt, artifact: Snapshot, checkedAt: int)
    requires Allowed(cfg, s, IntendPublish(receipt, artifact, checkedAt))
    ensures Intending(s.held, Advance(cfg, s, IntendPublish(receipt, artifact, checkedAt)).held, receipt, artifact)
  {
  }

  /** Only `IntendPublish` creates a publication intent. */
  lemma PublishIntentKept(cfg: Config, s: Session, deed: Deed)
    requires Allowed(cfg, s, deed) && !deed.IntendPublish?
    requires s.held.intent.Some? && s.held.intent.value.Publish? ==> Unmerged(s.held)
    ensures var n := Advance(cfg, s, deed).held;
      n.intent.Some? && n.intent.value.Publish? ==>
        && n.intent == s.held.intent && n.parentSha == s.held.parentSha && n.batch == s.held.batch && Unmerged(n)
  {
  }

  lemma DoKeepsIntent(cfg: Config, s: Session, deed: Deed)
    requires IntentSound(s.held) && Allowed(cfg, s, deed)
    ensures IntentSound(Advance(cfg, s, deed).held)
  {
  }

  lemma DoKeepsHead(cfg: Config, s: Session, deed: Deed)
    requires HeadSound(cfg, s.held) && Allowed(cfg, s, deed)
    ensures HeadSound(cfg, Advance(cfg, s, deed).held)
  {
  }

  lemma DoKeepsPlan(cfg: Config, s: Session, deed: Deed)
    requires PlanSound(cfg, s.held) && Allowed(cfg, s, deed)
    requires deed.RecordBatch? ==> s.held.mergeSha.None?
    ensures PlanSound(cfg, Advance(cfg, s, deed).held)
  {
    if deed.RecordBatch? {
      BatchRecorded(cfg, s, deed.publication);
    } else {
      PlanFollows(cfg, s, deed);
    }
  }

  lemma PlanFollows(cfg: Config, s: Session, deed: Deed)
    requires PlanSound(cfg, s.held) && Allowed(cfg, s, deed) && !deed.RecordBatch?
    ensures PlanSound(cfg, Advance(cfg, s, deed).held)
  {
    CommitsKept(cfg, s, deed);
  }

  lemma DoKeepsEnd(cfg: Config, s: Session, deed: Deed)
    requires RecordSound(cfg, s.held) && Allowed(cfg, s, deed) && !s.held.Terminal()
    ensures EndSound(cfg, Advance(cfg, s, deed).held)
  {
  }

  lemma DoKeepsRecord(cfg: Config, s: Session, deed: Deed)
    requires RecordSound(cfg, s.held) && Allowed(cfg, s, deed) && !s.held.Terminal()
    ensures RecordSound(cfg, Advance(cfg, s, deed).held)
  {
    DoKeepsHistory(cfg, s, deed);
    DoKeepsPublish(cfg, s, deed);
    DoKeepsIntent(cfg, s, deed);
    DoKeepsHead(cfg, s, deed);
    DoKeepsPlan(cfg, s, deed);
    DoKeepsEnd(cfg, s, deed);
  }

  lemma DoKeeps(cfg: Config, w: World, id: nat, now: int, deed: Deed)
    requires Inv(cfg, w)
    ensures Inv(cfg, Apply(cfg, w, DoStep(id, now, deed)))
  {
    if Performs(cfg, w, id, now, deed) {
      var v := Apply(cfg, w, DoStep(id, now, deed));
      DeedShape(cfg, w, id, now, deed);
      DoKeepsSessions(cfg, w, v, id, deed);
      DoKeepsRecord(cfg, w.sessions[id], deed);
      DoKeepsPublished(cfg, w, v, id, deed);
      DoKeepsMerged(cfg, w, v, id, deed);
      DoKeepsWork(cfg, w, v, id, deed);
    }
  }

  lemma StepKeeps(cfg: Config, w: World, step: Step)
    requires Inv(cfg, w)
    ensures Inv(cfg, Apply(cfg, w, step))
  {
    match step
    case ClaimStep(id, worker, now, leaseSeconds) => ClaimKeeps(cfg, w, id, worker, now, leaseSeconds);
    case DoStep(id, now, deed) => DoKeeps(cfg, w, id, now, deed);
    case CallStep(id, reply) =>
      if CallsOut(w, id) {
        CallKeeps(cfg, w, id, reply);
      }
    case CrashStep(id) => CrashKeeps(cfg, w, id);
    case ExpireStep(now) => ExpireKeeps(cfg, w, now);
  }

  /** The invariants hold in every world any interleaving can reach. */
  lemma {:induction false} ReachedInv(cfg: Config, steps: seq<Step>)
    ensures Inv(cfg, Reached(cfg, steps))
    decreases |steps|
  {
    if steps == [] {
      InitialInv(cfg);
    } else {
      ReachedInv(cfg, steps[..|steps| - 1]);
      StepKeeps(cfg, Reached(cfg, steps[..|steps| - 1]), steps[|steps| - 1]);
    }
  }

  lemma ReachedSessions(cfg: Config, steps: seq<Step>)
    ensures Holders(Reached(cfg, steps)) && Announced(cfg, Reached(cfg, steps)) && Answered(Reached(cfg, steps))
  {
    ReachedInv(cfg, steps);
  }
}
