/** One run of the objective service. Every adapter answer, every clock reading, every crash and
    everything the other workers do in between comes from an arbitrary oracle; each update and
    each external call is shown to be a step of the publication protocol, so that every theorem
    about reachable worlds holds at every moment of every run. */
module Service {
  import opened Results
  import opened Candidates
  import opened Objectives
  import opened Records
  import opened Protocol
  import Repairs
  import Guarantees
  import Gateway

  // ----------------------------------------------------------------------- the plan

  method ValidatePlan(plan: Plan, approval: Approval) returns (ok: bool)
    ensures ok <==> PlanAccepted(plan, approval)
  {
    if !(0 < |plan| <= approval.limits.maxBatches) {
      return false;
    }
    var covered: set<string> := {};
    for i := 0 to |plan|
      invariant forall j | 0 <= j < i :: ItemAccepted(plan, approval, j)
      invariant covered == Covered(plan[..i])
    {
      var item := plan[i];
      if item.number != i + 1 || !IsStrings(item.criteria, 20)
         || !(Elements(item.criteria) <= approval.task.acceptanceCriteria) || !IsText(item.goal, 4096) {
        assert !ItemAccepted(plan, approval, i);
        return false;
      }
      CoveredOneMore(plan, i);
      covered := covered + Elements(item.criteria);
    }
    assert plan[..|plan|] == plan;
    return covered == approval.task.acceptanceCriteria;
  }

  lemma CoveredOneMore(plan: Plan, i: nat)
    requires i < |plan|
    ensures Covered(plan[..i + 1]) == Covered(plan[..i]) + Elements(plan[i].criteria)
  {
    assert plan[..i + 1] == plan[..i] + [plan[i]];
  }

  // ------------------------------------------------------------------ the surroundings

  /** Everything outside the run's control between one operation and the next. */
  datatype Answers = Answers(
    others: seq<Step>,
    crashBefore: bool,
    crashAfter: bool,
    now: int,
    approved: bool,
    ready: bool,
    reconciled: bool,
    reason: string,
    reply: Reply)

  /** `Stopped` is an exception caught by the run, which then blocks the objective; `Crashed` is
      the end of the process. */
  datatype Signal = Going | Stopped | Crashed

  function Actor(step: Step): Option<nat> {
    match step
    case ClaimStep(id, _, _, _) => Some(id)
    case DoStep(id, _, _) => Some(id)
    case CallStep(id, _) => Some(id)
    case CrashStep(id) => Some(id)
    case ExpireStep(_) => None
  }

  lemma OthersLeaveSession(cfg: Config, w: World, step: Step, id: nat)
    requires Actor(step) != Some(id)
    ensures id in Apply(cfg, w, step).sessions <==> id in w.sessions
    ensures id in w.sessions ==> Apply(cfg, w, step).sessions[id] == w.sessions[id]
  {
  }

  // ------------------------------------------------------------- where a run can be

  /** At the start of a run. */
  ghost predicate Opening(cfg: Config, s: Session) {
    s.due.None? && s.held.intent.None? && s.attempts == [] && RecordSound(cfg, s.held)
  }

  /** On the way to publishing batch `batch + 1` of this plan. */
  predicate Underway(s: Session, plan: Plan, batch: int) {
    Unmerged(s.held) && s.held.plan == Some(plan) && s.held.batch == batch
  }

  /** Between two batches of a frozen plan. */
  predicate Between(s: Session, plan: Plan, batch: int) {
    && Underway(s, plan, batch)
    && s.due.None? && s.held.intent.None? && s.held.repairs == 0 && s.attempts == []
  }

  /** With a failed candidate of the next batch in hand, and a repair requested. */
  predicate InRepair(s: Session, plan: Plan, batch: int, attempt: nat, current: Snapshot) {
    && Underway(s, plan, batch)
    && s.due.None? && s.held.intent.Some? && s.held.intent.value.Validation? && s.held.phase == Repairing
    && s.held.repairs == attempt == |s.attempts| && attempt > 0 && s.attempts[attempt - 1] == current
  }

  predicate AttemptReady(s: Session, plan: Plan, batch: int, attempt: nat, current: Snapshot) {
    if attempt == 0 then Between(s, plan, batch) else InRepair(s, plan, batch, attempt, current)
  }

  /** With an implementation announced or just answered. */
  predicate Implementing(s: Session, plan: Plan, batch: int, attempt: nat, current: Snapshot) {
    && Underway(s, plan, batch)
    && s.held.intent == Some(Implementation(batch + 1, attempt))
    && s.held.repairs == attempt == |s.attempts| && (attempt > 0 ==> s.attempts[attempt - 1] == current)
  }

  /** With a candidate of the next batch frozen. */
  predicate Frozen(s: Session, plan: Plan, batch: int, attempt: nat, candidate: Binding) {
    && Underway(s, plan, batch)
    && s.held.intent == Some(Validation(candidate)) && s.held.phase == Validating
    && s.held.repairs == attempt && |s.attempts| == attempt + 1 && s.attempts[attempt] == candidate.after
  }

  /** With a publication intent of the next batch standing. */
  predicate Publishing(s: Session, plan: Plan, batch: int, receipt: Receipt, artifact: Snapshot) {
    && Underway(s, plan, batch)
    && s.held.intent.Some? && s.held.intent.value.Publish?
    && s.held.intent.value.receipt == receipt && s.held.intent.value.artifact == artifact
  }

  predicate Plannable(s: Session) {
    && Unmerged(s.held) && s.held.repairs == 0 && s.attempts == [] && s.due.None?
    && (s.held.intent.None? || s.held.intent.value.Planning?)
  }

  predicate MergeReady(s: Session) {
    && s.due == Some(CallMerge(s.held.parentSha)) && Unmerged(s.held) && AllPublished(s.held)
    && s.held.intent.Some? && s.held.intent.value.Merge?
  }

  predicate MergeDone(s: Session) {
    s.due.None? && s.held.intent.None? && s.held.mergeSha.Some? && AllPublished(s.held)
  }

  /** What a completed objective has to show. */
  predicate Finished(r: Record, cfg: Config) {
    && r.phase == Completed && r.mergeSha.Some? && AllPublished(r)
    && (cfg.approval.releaseAuthorized ==> r.released)
  }

  /** The record's last commit is this publication of this snapshot. */
  predicate Latest(r: Record, publication: Gateway.Publication, snapshot: Snapshot) {
    && r.commits != []
    && r.commits[|r.commits| - 1].publication == publication
    && r.commits[|r.commits| - 1].artifact == snapshot
    && r.parentSha == publication.commitSha
  }

  /** A resumed run holds what the record held. */
  predicate ResumedFrom(s: Session, n: Session) {
    && Plannable(n) && n.held.intent.None? && SameBatch(s, n)
    && n.held.plan == s.held.plan && n.held.batch == s.held.batch
  }

  /** A resumed run stands where its last commit left it. */
  predicate Continued(s: Session, n: Session, plan: Plan, restored: Snapshot, candidate: Binding,
                      publication: Gateway.Publication)
  {
    && ResumedFrom(s, n) && n.held.plan == Some(plan)
    && Latest(n.held, publication, restored) && publication.candidate == candidate
  }

  lemma ResumedStands(cfg: Config, s: Session, n: Session)
    requires Opening(cfg, s) && s.held.commits != [] && s.held.plan.Some? && ResumedFrom(s, n)
    ensures ContinuedLast(s, n)
  {
    OpeningBatch(cfg, s);
  }

  predicate ContinuedLast(s: Session, n: Session)
    requires s.held.commits != [] && s.held.plan.Some?
  {
    var last := s.held.commits[|s.held.commits| - 1];
    Continued(s, n, s.held.plan.value, last.artifact, last.publication.candidate, last.publication)
  }

  /** A batch is kept while its attempts come and go. */
  predicate SameBatch(s: Session, t: Session) {
    t.held.commits == s.held.commits && t.held.parentSha == s.held.parentSha
  }

  function NoCandidate(cfg: Config): Candidate {
    Candidate(cfg.approval.task.id, cfg.approval.task.BranchName(), "", "",
              Binding(cfg.approval.task.id, "", "", map[], map[]), [], [])
  }

  const MAX_POLLS := 60

  // ------------------------------------------------------------ from one place to the next

  lemma ReservedStays(cfg: Config, s: Session, plan: Plan, batch: int, attempt: nat, current: Snapshot, tokens: int,
                      cost: int)
    requires AttemptReady(s, plan, batch, attempt, current)
    ensures var n := Advance(cfg, s, Reserve(tokens, cost));
      && AttemptReady(n, plan, batch, attempt, current) && SameBatch(s, n) && n.credit
      && n.held.attempts == s.held.attempts + 1
  {
  }

  lemma ImplementIntended(cfg: Config, s: Session, plan: Plan, batch: int, attempt: nat, current: Snapshot)
    requires AttemptReady(s, plan, batch, attempt, current) && s.credit && batch < |plan|
    ensures Allowed(cfg, s, IntendImplement(attempt))
    ensures var n := Advance(cfg, s, IntendImplement(attempt));
      && Implementing(n, plan, batch, attempt, current) && SameBatch(s, n)
      && n.due == Some(CallImplement(batch + 1, attempt)) && n.held.attempts == s.held.attempts
  {
  }

  lemma CandidateFrozen(cfg: Config, s: Session, plan: Plan, batch: int, attempt: nat, current: Snapshot,
                        candidate: Binding)
    requires Implementing(s, plan, batch, attempt, current) && s.due.None?
    requires s.answer == Some(Implemented(batch + 1, attempt, Some(candidate.after)))
    requires candidate == CandidateOf(cfg, candidate.after)
    requires attempt > 0 ==> Diff(current, candidate.after) <= Diff(PublishedTree(cfg, s.held.commits), current)
    ensures Allowed(cfg, s, FreezeCandidate(attempt, candidate))
    ensures var n := Advance(cfg, s, FreezeCandidate(attempt, candidate));
      && Frozen(n, plan, batch, attempt, candidate) && SameBatch(s, n)
      && n.due == Some(CallValidate(batch + 1, n.held.parentSha, candidate)) && n.held.attempts == s.held.attempts
  {
  }

  lemma UnscopedRepair(cfg: Config, s: Session, plan: Plan, batch: int, attempt: nat, candidate: Binding, now: int)
    requires Frozen(s, plan, batch, attempt, candidate) && s.due.Some? && s.due.value.CallValidate?
    requires !InScope(cfg, candidate.after)
    ensures Allowed(cfg, s, RequestRepair(attempt + 1, now))
  {
  }

  lemma ReportedRepair(cfg: Config, s: Session, plan: Plan, batch: int, attempt: nat, candidate: Binding, now: int)
    requires Frozen(s, plan, batch, attempt, candidate) && s.due.None?
    requires s.answer == Some(Validated(batch + 1, s.held.parentSha, candidate, ReportsFailure))
    ensures Allowed(cfg, s, RequestRepair(attempt + 1, now))
  {
  }

  lemma FailurePermits(cfg: Config, s: Session, plan: Plan, batch: int, attempt: nat, candidate: Binding,
                       e: Envelope<ReceiptClaim>, now: int)
    requires Frozen(s, plan, batch, attempt, candidate) && s.due.None?
    requires s.answer == Some(Validated(batch + 1, s.held.parentSha, candidate, Signed(e)))
    requires Fails(cfg, e, candidate, s.held.parentSha, batch + 1, now)
    ensures Allowed(cfg, s, RequestRepair(attempt + 1, now))
  {
  }

  lemma ReceiptPermits(cfg: Config, s: Session, plan: Plan, batch: int, attempt: nat, receipt: Receipt,
                       artifact: Snapshot, now: int)
    requires Frozen(s, plan, batch, attempt, receipt.candidate) && s.due.None?
    requires s.answer == Some(Validated(batch + 1, s.held.parentSha, receipt.candidate, Signed(receipt.envelope)))
    requires receipt.candidate == CandidateOf(cfg, artifact) && InScope(cfg, artifact)
    requires artifact != PublishedTree(cfg, s.held.commits)
    requires receipt.parentSha == s.held.parentSha && receipt.batch == batch + 1
    requires Stands(cfg, receipt.envelope, receipt.candidate, s.held.parentSha, batch + 1, now)
    ensures Allowed(cfg, s, IntendPublish(receipt, artifact, now))
  {
    ReceiptJustifies(cfg, s, receipt, artifact, now);
    JustifiedMayPublish(cfg, s, receipt, artifact, now);
  }

  lemma ReceiptJustifies(cfg: Config, s: Session, receipt: Receipt, artifact: Snapshot, now: int)
    requires s.held.intent == Some(Validation(receipt.candidate))
    requires s.answer == Some(Validated(s.held.batch + 1, s.held.parentSha, receipt.candidate,
                                        Signed(receipt.envelope)))
    requires receipt.candidate == CandidateOf(cfg, artifact) && InScope(cfg, artifact)
    requires artifact != PublishedTree(cfg, s.held.commits)
    requires receipt.parentSha == s.held.parentSha && receipt.batch == s.held.batch + 1
    requires Stands(cfg, receipt.envelope, receipt.candidate, s.held.parentSha, s.held.batch + 1, now)
    ensures PublishJustified(cfg, s, receipt, artifact, now)
  {
  }

  lemma RepairRequested(cfg: Config, s: Session, plan: Plan, batch: int, attempt: nat, candidate: Binding,
                        checkedAt: int)
    requires Frozen(s, plan, batch, attempt, candidate)
    ensures var n := Advance(cfg, s, RequestRepair(attempt + 1, checkedAt));
      InRepair(n, plan, batch, attempt + 1, candidate.after) && SameBatch(s, n)
  {
  }

  lemma IntentAnnounced(cfg: Config, s: Session, plan: Plan, batch: int, attempt: nat, receipt: Receipt,
                        artifact: Snapshot, checkedAt: int)
    requires Frozen(s, plan, batch, attempt, receipt.candidate)
    ensures var n := Advance(cfg, s, IntendPublish(receipt, artifact, checkedAt));
      && Publishing(n, plan, batch, receipt, artifact) && SameBatch(s, n)
      && n.due == Some(CallPublish(batch + 1, s.held.parentSha, receipt.candidate))
  {
  }

  lemma PublisherAnswered(s: Session, plan: Plan, batch: int, receipt: Receipt, artifact: Snapshot, reply: Reply)
    requires Publishing(s, plan, batch, receipt, artifact)
    requires s.due == Some(CallPublish(batch + 1, s.held.parentSha, receipt.candidate))
    ensures var n := AfterCall(s, reply);
      && Publishing(n, plan, batch, receipt, artifact) && n.due.None? && n.held == s.held
      && n.answer == Some(Published(batch + 1, n.held.parentSha, receipt.candidate, reply.publication))
  {
  }

  lemma ImplementerAnswered(s: Session, plan: Plan, batch: int, attempt: nat, current: Snapshot, reply: Reply)
    requires Implementing(s, plan, batch, attempt, current) && s.due == Some(CallImplement(batch + 1, attempt))
    ensures var n := AfterCall(s, reply);
      && Implementing(n, plan, batch, attempt, current) && n.due.None? && n.held == s.held
      && n.answer == Some(Implemented(batch + 1, attempt, reply.snapshot))
  {
  }

  lemma PublicationRecorded(cfg: Config, s: Session, plan: Plan, batch: int, receipt: Receipt, artifact: Snapshot,
                            publication: Gateway.Publication)
    requires Publishing(s, plan, batch, receipt, artifact) && s.due.None?
    requires publication.candidate == receipt.candidate && publication.branch == cfg.approval.task.BranchName()
    requires IsSha(publication.commitSha, 40)
    requires s.answer == Some(Published(batch + 1, s.held.parentSha, receipt.candidate, Some(publication)))
    ensures Allowed(cfg, s, RecordBatch(publication))
    ensures var n := Advance(cfg, s, RecordBatch(publication));
      && Between(n, plan, batch + 1)
      && n.held.commits == s.held.commits + [Commit(publication, batch + 1, receipt, artifact)]
      && n.held.parentSha == publication.commitSha
  {
  }

  lemma AcceptanceAnnounced(cfg: Config, s: Session, plan: Plan, candidate: Binding)
    requires Between(s, plan, |plan|) && |s.held.commits| == |plan| > 0
    requires candidate == s.held.commits[|plan| - 1].publication.candidate
    ensures Allowed(cfg, s, StartAcceptance)
    ensures var n := Advance(cfg, s, StartAcceptance);
      && SameBatch(s, n) && AllPublished(n.held) && Unmerged(n.held)
      && n.held.intent == Some(Acceptance) && n.due == Some(CallAccept(candidate, s.held.parentSha))
  {
  }

  lemma MergeAnnounced(cfg: Config, s: Session, candidate: Binding, e: Envelope<AcceptanceClaim>)
    requires s.due.None? && AllPublished(s.held) && Unmerged(s.held) && s.held.intent == Some(Acceptance)
    requires s.held.commits != [] && candidate == s.held.commits[|s.held.commits| - 1].publication.candidate
    requires s.answer == Some(Accepted(candidate, s.held.parentSha, Some(e)))
    requires AcceptanceStands(e, cfg.approval, cfg.keys, candidate, s.held.parentSha)
    ensures Allowed(cfg, s, IntendMerge(e))
    ensures var n := Advance(cfg, s, IntendMerge(e)); MergeReady(n) && SameBatch(s, n)
  {
  }

  /** With a release announced or just answered. */
  predicate Releasing(cfg: Config, s: Session) {
    && s.held.intent == Some(Release(cfg.approval.releaseTag)) && s.held.mergeSha.Some? && AllPublished(s.held)
  }

  lemma ReleaseAnnounced(cfg: Config, s: Session)
    requires MergeDone(s) && cfg.approval.releaseAuthorized && !s.held.released
    ensures Allowed(cfg, s, IntendRelease)
    ensures var n := Advance(cfg, s, IntendRelease);
      Releasing(cfg, n) && SameBatch(s, n) && n.due == Some(CallRelease(cfg.approval.releaseTag))
  {
  }

  lemma ReleaseRecorded(cfg: Config, s: Session)
    requires Releasing(cfg, s) && s.due.None? && s.answer == Some(ReleaseRequested(cfg.approval.releaseTag, true))
    ensures Allowed(cfg, s, RecordRelease)
    ensures var n := Advance(cfg, s, RecordRelease); MergeDone(n) && SameBatch(s, n) && n.held.released
  {
  }

  /** Right after a claim the worker holds the current record, with nothing pending in it. */
  lemma FreshClaim(cfg: Config, w: World, trace: seq<Step>, id: nat, worker: string, now: int, leaseSeconds: int)
    requires w == Reached(cfg, trace) && id !in w.sessions
    ensures var v := Apply(cfg, w, ClaimStep(id, worker, now, leaseSeconds));
      id in v.sessions ==> Opening(cfg, v.sessions[id])
  {
    var v := Apply(cfg, w, ClaimStep(id, worker, now, leaseSeconds));
    ReachedInv(cfg, trace);
    StepKeeps(cfg, w, ClaimStep(id, worker, now, leaseSeconds));
    if id in v.sessions {
      ClaimOpens(cfg, w, id, worker, now, leaseSeconds);
    }
  }

  lemma ClaimOpens(cfg: Config, w: World, id: nat, worker: string, now: int, leaseSeconds: int)
    requires id !in w.sessions && id in Apply(cfg, w, ClaimStep(id, worker, now, leaseSeconds)).sessions
    ensures var v := Apply(cfg, w, ClaimStep(id, worker, now, leaseSeconds));
      v.sessions[id] == Session(v.record, None, false, None, []) && v.record.intent.None?
  {
  }

  class ObjectiveService {
    const cfg: Config
    const oracle: nat -> Answers
    const attemptTokens: int
    const attemptCost: int
    var tick: nat
    var world: World
    ghost var trace: seq<Step>

    constructor (cfg: Config, oracle: nat -> Answers, attemptTokens: int, attemptCost: int)
      ensures Valid() && this.cfg == cfg && world == InitialWorld(cfg)
    {
      this.cfg, this.oracle := cfg, oracle;
      this.attemptTokens, this.attemptCost := attemptTokens, attemptCost;
      tick, world, trace := 0, InitialWorld(cfg), [];
    }

    /** The shared state is one some interleaving of protocol steps has reached. */
    ghost predicate Valid()
      reads this
    {
      world == Reached(cfg, trace)
    }

    ghost predicate Mine(id: nat, s: Session)
      reads this
    {
      id in world.sessions && world.sessions[id] == s
    }

    method Take(step: Step)
      requires Valid()
      modifies this`world, this`trace
      ensures Valid() && world == Apply(cfg, old(world), step)
    {
      assert (trace + [step])[..|trace|] == trace;
      trace := trace + [step];
      world := Apply(cfg, world, step);
    }

    /** The other workers' turn: any steps at all, except on this session. */
    method Interfere(id: nat) returns (a: Answers)
      requires Valid()
      modifies this`world, this`trace, this`tick
      ensures Valid() && a == oracle(old(tick)) && tick == old(tick) + 1
      ensures id in world.sessions <==> id in old(world.sessions)
      ensures id in world.sessions ==> world.sessions[id] == old(world.sessions)[id]
    {
      a := oracle(tick);
      tick := tick + 1;
      TakeOthers(id, a.others);
    }

    method TakeOthers(id: nat, steps: seq<Step>)
      requires Valid()
      modifies this`world, this`trace
      ensures Valid()
      ensures id in world.sessions <==> id in old(world.sessions)
      ensures id in world.sessions ==> world.sessions[id] == old(world.sessions)[id]
    {
      for i := 0 to |steps|
        invariant Valid()
        invariant id in world.sessions <==> id in old(world.sessions)
        invariant id in world.sessions ==> world.sessions[id] == old(world.sessions)[id]
      {
        if Actor(steps[i]) != Some(id) {
          OthersLeaveSession(cfg, world, steps[i], id);
          Take(steps[i]);
        }
      }
    }

    /** `_update`: one guarded queue transaction, or an exception that changes nothing. */
    method Perform(id: nat, deed: Deed) returns (signal: Signal)
      requires Valid() && id in world.sessions && Allowed(cfg, world.sessions[id], deed)
      modifies this`world, this`trace, this`tick
      ensures Valid() && tick > old(tick)
      ensures signal == Going ==>
        Mine(id, Advance(cfg, old(world.sessions)[id], deed)) && world.record == world.sessions[id].held
      ensures signal == Stopped ==> Mine(id, old(world.sessions)[id])
    {
      var a := Interfere(id);
      if a.crashBefore {
        Take(CrashStep(id));
        return Crashed;
      }
      signal := Land(id, a.now, deed);
    }

    /** The queue transaction itself. */
    method Land(id: nat, now: int, deed: Deed) returns (signal: Signal)
      requires Valid() && id in world.sessions && Allowed(cfg, world.sessions[id], deed)
      modifies this`world, this`trace
      ensures Valid() && signal != Crashed && world == Apply(cfg, old(world), DoStep(id, now, deed))
      ensures signal == Going <==> Performs(cfg, old(world), id, now, deed)
      ensures signal == Going ==>
        Mine(id, Advance(cfg, old(world.sessions)[id], deed)) && world.record == world.sessions[id].held
      ensures signal == Stopped ==> Mine(id, old(world.sessions)[id])
    {
      var accepted := UpdateFor(cfg, world, world.sessions[id], now, deed).Ok?;
      DoStepShape(cfg, world, trace, id, now, deed);
      Take(DoStep(id, now, deed));
      signal := if accepted then Going else Stopped;
    }

    /** An external call that was announced; its answer is the oracle's. */
    method CallOut(id: nat) returns (signal: Signal, a: Answers)
      requires Valid() && id in world.sessions && world.sessions[id].due.Some?
      modifies this`world, this`trace, this`tick
      ensures Valid() && signal != Stopped && tick > old(tick) && a == oracle(old(tick))
      ensures signal == Going ==> Mine(id, AfterCall(old(world.sessions)[id], a.reply))
    {
      a := Interfere(id);
      if a.crashBefore {
        Take(CrashStep(id));
        return Crashed, a;
      }
      Take(CallStep(id, a.reply));
      if a.crashAfter {
        Take(CrashStep(id));
        return Crashed, a;
      }
      signal := Going;
    }

    /** `_approval`: the stored approval must still verify. */
    method ApprovalHolds(id: nat) returns (signal: Signal)
      requires Valid() && id in world.sessions
      modifies this`world, this`trace, this`tick
      ensures Valid() && signal != Crashed && Mine(id, old(world.sessions)[id]) && tick > old(tick)
    {
      var a := Interfere(id);
      signal := if a.approved then Going else Stopped;
    }

    method ReserveAttempt(id: nat) returns (signal: Signal)
      requires Valid() && id in world.sessions && world.sessions[id].due.None?
      modifies this`world, this`trace, this`tick
      ensures Valid() && tick >= old(tick)
      ensures signal == Going ==> Mine(id, Advance(cfg, old(world.sessions)[id], Reserve(attemptTokens, attemptCost)))
      ensures signal == Stopped ==> Mine(id, old(world.sessions)[id])
    {
      if !(1 <= attemptTokens <= cfg.approval.limits.maxTokens
           && 1 <= attemptCost <= cfg.approval.limits.maxCostMicrousd) {
        return Stopped;
      }
      signal := Perform(id, Reserve(attemptTokens, attemptCost));
    }

    // ------------------------------------------------------------------- one attempt

    /** One attempt is paid for, announced and made. */
    method CallWorker(id: nat, plan: Plan, batch: int, attempt: nat, current: Snapshot)
      returns (signal: Signal, reply: Option<Snapshot>)
      requires Valid() && id in world.sessions && AttemptReady(world.sessions[id], plan, batch, attempt, current)
      requires batch < |plan|
      modifies this`world, this`trace, this`tick
      ensures Valid()
      ensures signal == Stopped ==> id in world.sessions
      ensures signal == Going ==>
        && id in world.sessions && world.sessions[id].due.None?
        && Implementing(world.sessions[id], plan, batch, attempt, current)
        && SameBatch(old(world.sessions)[id], world.sessions[id])
        && world.sessions[id].held.attempts == old(world.sessions)[id].held.attempts + 1
        && world.sessions[id].answer == Some(Implemented(batch + 1, attempt, reply))
    {
      reply := None;
      signal := ApprovalHolds(id);
      if signal != Going { return; }
      ReservedStays(cfg, world.sessions[id], plan, batch, attempt, current, attemptTokens, attemptCost);
      signal := ReserveAttempt(id);
      if signal != Going { return; }
      signal, reply := CallImplementer(id, plan, batch, attempt, current);
    }

    method CallImplementer(id: nat, plan: Plan, batch: int, attempt: nat, current: Snapshot)
      returns (signal: Signal, reply: Option<Snapshot>)
      requires Valid() && id in world.sessions && AttemptReady(world.sessions[id], plan, batch, attempt, current)
      requires world.sessions[id].credit && batch < |plan|
      modifies this`world, this`trace, this`tick
      ensures Valid()
      ensures signal == Stopped ==> id in world.sessions
      ensures signal == Going ==>
        && id in world.sessions && world.sessions[id].due.None?
        && Implementing(world.sessions[id], plan, batch, attempt, current)
        && SameBatch(old(world.sessions)[id], world.sessions[id])
        && world.sessions[id].held.attempts == old(world.sessions)[id].held.attempts
        && world.sessions[id].answer == Some(Implemented(batch + 1, attempt, reply))
    {
      reply := None;
      ImplementIntended(cfg, world.sessions[id], plan, batch, attempt, current);
      signal := Perform(id, IntendImplement(attempt));
      if signal != Going { return; }
      ghost var s := world.sessions[id];
      var a;
      signal, a := CallOut(id);
      reply := a.reply.snapshot;
      ImplementerAnswered(s, plan, batch, attempt, current, a.reply);
    }

    /** Implementation of one attempt, up to the frozen candidate. The attempt was reserved and
        announced, the snapshot is what the worker returned, and a repair stays within the
        files of the change it repairs. */
    method Implement(id: nat, plan: Plan, batch: int, attempt: nat, published: Snapshot, current: Snapshot)
      returns (signal: Signal, snapshot: Snapshot, candidate: Candidate)
      requires Valid() && id in world.sessions && AttemptReady(world.sessions[id], plan, batch, attempt, current)
      requires published == PublishedTree(cfg, world.sessions[id].held.commits) && batch < |plan|
      modifies this`world, this`trace, this`tick
      ensures Valid()
      ensures signal == Stopped ==> id in world.sessions
      ensures signal == Going ==>
        && id in world.sessions && Frozen(world.sessions[id], plan, batch, attempt, candidate.digest)
        && world.sessions[id].due == Some(CallValidate(batch + 1, world.sessions[id].held.parentSha, candidate.digest))
        && SameBatch(old(world.sessions)[id], world.sessions[id])
        && world.sessions[id].held.attempts == old(world.sessions)[id].held.attempts + 1
        && Describes(candidate, cfg.approval.task, cfg.policy, cfg.base, snapshot)
        && Implemented(batch + 1, attempt, Some(snapshot)) in world.effects
        && (attempt > 0 ==> Diff(current, snapshot) <= Diff(published, current))
    {
      snapshot, candidate := current, NoCandidate(cfg);
      var reply;
      signal, reply := CallWorker(id, plan, batch, attempt, current);
      if signal != Going { return; }
      if reply.None? || (attempt > 0 && !(Diff(current, reply.value) <= Diff(published, current))) {
        signal := Stopped;
        return;
      }
      snapshot := reply.value;
      var inspected := InspectCandidate(cfg.approval.task, cfg.policy, cfg.base, snapshot);
      if inspected.Rejected? {
        signal := Stopped;
        return;
      }
      candidate := inspected.value;
      signal := FreezeInspected(id, plan, batch, attempt, current, candidate.digest);
    }

    method FreezeInspected(id: nat, plan: Plan, batch: int, attempt: nat, current: Snapshot, candidate: Binding)
      returns (signal: Signal)
      requires Valid() && id in world.sessions && world.sessions[id].due.None?
      requires Implementing(world.sessions[id], plan, batch, attempt, current)
      requires world.sessions[id].answer == Some(Implemented(batch + 1, attempt, Some(candidate.after)))
      requires candidate == CandidateOf(cfg, candidate.after)
      requires attempt > 0 ==>
        Diff(current, candidate.after) <= Diff(PublishedTree(cfg, world.sessions[id].held.commits), current)
      modifies this`world, this`trace, this`tick
      ensures Valid()
      ensures signal == Stopped ==> id in world.sessions
      ensures signal == Going ==>
        && id in world.sessions && Frozen(world.sessions[id], plan, batch, attempt, candidate)
        && world.sessions[id].due == Some(CallValidate(batch + 1, world.sessions[id].held.parentSha, candidate))
        && SameBatch(old(world.sessions)[id], world.sessions[id])
        && world.sessions[id].held.attempts == old(world.sessions)[id].held.attempts
        && Implemented(batch + 1, attempt, Some(candidate.after)) in world.effects
    {
      signal := FreezeAttempt(id, plan, batch, attempt, current, candidate);
      if signal == Going {
        Repairs.FrozenWasImplemented(cfg, trace, id, attempt);
      }
    }

    method FreezeAttempt(id: nat, plan: Plan, batch: int, attempt: nat, current: Snapshot, candidate: Binding)
      returns (signal: Signal)
      requires Valid() && id in world.sessions && world.sessions[id].due.None?
      requires Implementing(world.sessions[id], plan, batch, attempt, current)
      requires world.sessions[id].answer == Some(Implemented(batch + 1, attempt, Some(candidate.after)))
      requires candidate == CandidateOf(cfg, candidate.after)
      requires attempt > 0 ==>
        Diff(current, candidate.after) <= Diff(PublishedTree(cfg, world.sessions[id].held.commits), current)
      modifies this`world, this`trace, this`tick
      ensures Valid()
      ensures signal == Stopped ==> id in world.sessions
      ensures signal == Going ==>
        && id in world.sessions && Frozen(world.sessions[id], plan, batch, attempt, candidate)
        && world.sessions[id].due == Some(CallValidate(batch + 1, world.sessions[id].held.parentSha, candidate))
        && SameBatch(old(world.sessions)[id], world.sessions[id])
        && world.sessions[id].held.attempts == old(world.sessions)[id].held.attempts
    {
      CandidateFrozen(cfg, world.sessions[id], plan, batch, attempt, current, candidate);
      signal := Perform(id, FreezeCandidate(attempt, candidate));
    }

    /** Independent validation of the frozen candidate. Only an executed failure, or a candidate
        out of scope, permits a repair; everything else stops the run. */
    method Validate(id: nat, plan: Plan, batch: int, attempt: nat, published: Snapshot, snapshot: Snapshot,
                    candidate: Candidate)
      returns (signal: Signal, verdict: Verdict, checkedAt: int)
      requires Valid() && id in world.sessions && Frozen(world.sessions[id], plan, batch, attempt, candidate.digest)
      requires world.sessions[id].due
        == Some(CallValidate(batch + 1, world.sessions[id].held.parentSha, candidate.digest))
      requires published == PublishedTree(cfg, world.sessions[id].held.commits)
      requires Describes(candidate, cfg.approval.task, cfg.policy, cfg.base, snapshot)
      modifies this`world, this`trace, this`tick
      ensures Valid()
      ensures signal == Stopped ==> id in world.sessions
      ensures signal == Going ==>
        && id in world.sessions && Frozen(world.sessions[id], plan, batch, attempt, candidate.digest)
        && SameBatch(old(world.sessions)[id], world.sessions[id])
        && (verdict.Verified? || verdict.ExecutedFailure?)
      ensures signal == Going && verdict.Verified? ==>
        && candidate.ScopeValid() && verdict.receipt.candidate == candidate.digest && snapshot != published
        && Allowed(cfg, world.sessions[id], IntendPublish(verdict.receipt, snapshot, checkedAt))
      ensures signal == Going && verdict.ExecutedFailure? ==>
        Allowed(cfg, world.sessions[id], RequestRepair(attempt + 1, checkedAt))
    {
      verdict, checkedAt := Refused, 0;
      ScopeValidIff(candidate, cfg.approval.task, cfg.policy, cfg.base, snapshot);
      if !candidate.ScopeValid() {
        UnscopedRepair(cfg, world.sessions[id], plan, batch, attempt, candidate.digest, checkedAt);
        return Going, ExecutedFailure, checkedAt;
      }
      if snapshot == published {
        return Stopped, Refused, checkedAt;
      }
      signal, verdict, checkedAt := AskValidator(id, plan, batch, attempt, snapshot, candidate);
    }

    /** The validator's answer for a candidate in scope, and what it permits. */
    method AskValidator(id: nat, plan: Plan, batch: int, attempt: nat, snapshot: Snapshot, candidate: Candidate)
      returns (signal: Signal, verdict: Verdict, checkedAt: int)
      requires Valid() && id in world.sessions && Frozen(world.sessions[id], plan, batch, attempt, candidate.digest)
      requires world.sessions[id].due
        == Some(CallValidate(batch + 1, world.sessions[id].held.parentSha, candidate.digest))
      requires candidate.ScopeValid() && candidate.taskId == cfg.approval.task.id
      requires candidate.digest == CandidateOf(cfg, snapshot) && InScope(cfg, snapshot)
      requires snapshot != PublishedTree(cfg, world.sessions[id].held.commits)
      modifies this`world, this`trace, this`tick
      ensures Valid()
      ensures signal == Stopped ==> id in world.sessions
      ensures signal == Going ==>
        && id in world.sessions && Frozen(world.sessions[id], plan, batch, attempt, candidate.digest)
        && SameBatch(old(world.sessions)[id], world.sessions[id])
        && (verdict.Verified? || verdict.ExecutedFailure?)
      ensures signal == Going && verdict.Verified? ==>
        && verdict.receipt.candidate == candidate.digest
        && Allowed(cfg, world.sessions[id], IntendPublish(verdict.receipt, snapshot, checkedAt))
      ensures signal == Going && verdict.ExecutedFailure? ==>
        Allowed(cfg, world.sessions[id], RequestRepair(attempt + 1, checkedAt))
    {
      verdict, checkedAt := Refused, 0;
      var a;
      signal, a := CallOut(id);
      if signal != Going { return; }
      checkedAt := a.now;
      signal, verdict := Judge(world.sessions[id], plan, batch, attempt, snapshot, candidate, a.reply.receipt,
          checkedAt);
    }

    /** What the validator's answer amounts to. */
    method Judge(s: Session, plan: Plan, batch: int, attempt: nat, snapshot: Snapshot, candidate: Candidate,
                 receipt: ReceiptAnswer, now: int)
      returns (signal: Signal, verdict: Verdict)
      requires Frozen(s, plan, batch, attempt, candidate.digest) && s.due.None?
      requires s.answer == Some(Validated(batch + 1, s.held.parentSha, candidate.digest, receipt))
      requires candidate.ScopeValid() && candidate.taskId == cfg.approval.task.id
      requires candidate.digest == CandidateOf(cfg, snapshot) && InScope(cfg, snapshot)
      requires snapshot != PublishedTree(cfg, s.held.commits)
      ensures signal == Going || signal == Stopped
      ensures signal == Going ==> verdict.Verified? || verdict.ExecutedFailure?
      ensures signal == Going && verdict.Verified? ==>
        verdict.receipt.candidate == candidate.digest && Allowed(cfg, s, IntendPublish(verdict.receipt, snapshot, now))
      ensures signal == Going && verdict.ExecutedFailure? ==> Allowed(cfg, s, RequestRepair(attempt + 1, now))
      ensures signal == Stopped <==>
        || receipt.NoReceipt?
        || (&& receipt.Signed? && !Stands(cfg, receipt.envelope, candidate.digest, s.held.parentSha, batch + 1, now)
            && !Fails(cfg, receipt.envelope, candidate.digest, s.held.parentSha, batch + 1, now))
    {
      match receipt
      case NoReceipt =>
        return Stopped, Refused;
      case ReportsFailure =>
        ReportedRepair(cfg, s, plan, batch, attempt, candidate.digest, now);
        return Going, ExecutedFailure;
      case Signed(e) =>
        verdict := JudgeSigned(s, plan, batch, attempt, snapshot, candidate, e, now);
        signal := if verdict.Refused? then Stopped else Going;
    }

    method JudgeSigned(s: Session, plan: Plan, batch: int, attempt: nat, snapshot: Snapshot, candidate: Candidate,
                       e: Envelope<ReceiptClaim>, now: int)
      returns (verdict: Verdict)
      requires Frozen(s, plan, batch, attempt, candidate.digest) && s.due.None?
      requires s.answer == Some(Validated(batch + 1, s.held.parentSha, candidate.digest, Signed(e)))
      requires candidate.ScopeValid() && candidate.taskId == cfg.approval.task.id
      requires candidate.digest == CandidateOf(cfg, snapshot) && InScope(cfg, snapshot)
      requires snapshot != PublishedTree(cfg, s.held.commits)
      ensures verdict.Verified? ==>
        verdict.receipt.candidate == candidate.digest && Allowed(cfg, s, IntendPublish(verdict.receipt, snapshot, now))
      ensures verdict.ExecutedFailure? ==> Allowed(cfg, s, RequestRepair(attempt + 1, now))
      ensures verdict.Refused? <==>
        && !Stands(cfg, e, candidate.digest, s.held.parentSha, batch + 1, now)
        && !Fails(cfg, e, candidate.digest, s.held.parentSha, batch + 1, now)
    {
      verdict := Weigh(e, candidate, s.held.parentSha, batch + 1, now);
      if verdict.Verified? {
        ReceiptPermits(cfg, s, plan, batch, attempt, verdict.receipt, snapshot, now);
      } else if verdict.ExecutedFailure? {
        FailurePermits(cfg, s, plan, batch, attempt, candidate.digest, e, now);
      }
    }

    /** Verifies a signed receipt for a candidate in scope. */
    method Weigh(e: Envelope<ReceiptClaim>, candidate: Candidate, parent: string, batch: int, now: int)
      returns (verdict: Verdict)
      requires candidate.ScopeValid() && candidate.taskId == cfg.approval.task.id
      ensures verdict.Verified? <==> Stands(cfg, e, candidate.digest, parent, batch, now)
      ensures verdict.ExecutedFailure? <==> Fails(cfg, e, candidate.digest, parent, batch, now)
      ensures verdict.Verified? ==>
        && verdict.receipt.candidate == candidate.digest && verdict.receipt.parentSha == parent
        && verdict.receipt.batch == batch && verdict.receipt.envelope == e
    {
      verdict := VerifyReceipt(e, cfg.approval, candidate, cfg.policy, cfg.keys, parent, batch, now);
      DigestDecides(e, cfg.approval, candidate, Sealed(cfg, candidate.digest), cfg.policy, cfg.keys, parent, batch,
          now);
    }

    /** Write-ahead intent, then the one publication call. */
    method CallPublisher(id: nat, plan: Plan, batch: int, attempt: nat, receipt: Receipt, snapshot: Snapshot,
                         checkedAt: int)
      returns (signal: Signal, reply: Option<Gateway.Publication>)
      requires Valid() && id in world.sessions && Frozen(world.sessions[id], plan, batch, attempt, receipt.candidate)
      requires Allowed(cfg, world.sessions[id], IntendPublish(receipt, snapshot, checkedAt))
      modifies this`world, this`trace, this`tick
      ensures Valid()
      ensures signal == Stopped ==> id in world.sessions
      ensures signal == Going ==>
        && id in world.sessions && world.sessions[id].due.None?
        && Publishing(world.sessions[id], plan, batch, receipt, snapshot)
        && SameBatch(old(world.sessions)[id], world.sessions[id])
        && world.sessions[id].answer ==
             Some(Published(batch + 1, world.sessions[id].held.parentSha, receipt.candidate, reply))
    {
      reply := None;
      signal := AnnouncePublication(id, plan, batch, attempt, receipt, snapshot, checkedAt);
      if signal != Going { return; }
      ghost var s := world.sessions[id];
      var a;
      signal, a := CallOut(id);
      reply := a.reply.publication;
      PublisherAnswered(s, plan, batch, receipt, snapshot, a.reply);
    }

    method AnnouncePublication(id: nat, plan: Plan, batch: int, attempt: nat, receipt: Receipt, snapshot: Snapshot,
                               checkedAt: int)
      returns (signal: Signal)
      requires Valid() && id in world.sessions && Frozen(world.sessions[id], plan, batch, attempt, receipt.candidate)
      requires Allowed(cfg, world.sessions[id], IntendPublish(receipt, snapshot, checkedAt))
      modifies this`world, this`trace, this`tick
      ensures Valid()
      ensures signal == Stopped ==> id in world.sessions
      ensures signal == Going ==>
        && id in world.sessions && Publishing(world.sessions[id], plan, batch, receipt, snapshot)
        && SameBatch(old(world.sessions)[id], world.sessions[id])
        && world.sessions[id].due == Some(CallPublish(batch + 1, world.sessions[id].held.parentSha, receipt.candidate))
    {
      ghost var s := world.sessions[id];
      IntentAnnounced(cfg, s, plan, batch, attempt, receipt, snapshot, checkedAt);
      signal := ApprovalHolds(id);
      if signal != Going { return; }
      assert world.sessions[id] == s;
      signal := Perform(id, IntendPublish(receipt, snapshot, checkedAt));
    }

    /** The publication call and the record of its outcome. */
    method PublishBatch(id: nat, plan: Plan, batch: int, attempt: nat, receipt: Receipt, snapshot: Snapshot,
                        checkedAt: int)
      returns (signal: Signal, publication: Gateway.Publication)
      requires Valid() && id in world.sessions && Frozen(world.sessions[id], plan, batch, attempt, receipt.candidate)
      requires Allowed(cfg, world.sessions[id], IntendPublish(receipt, snapshot, checkedAt))
      modifies this`world, this`trace, this`tick
      ensures Valid()
      ensures signal == Stopped ==> id in world.sessions
      ensures signal == Going ==>
        && id in world.sessions && Between(world.sessions[id], plan, batch + 1)
        && world.record == world.sessions[id].held
        && world.sessions[id].held.commits ==
             old(world.sessions)[id].held.commits + [Commit(publication, batch + 1, receipt, snapshot)]
        && world.sessions[id].held.parentSha == publication.commitSha && IsSha(publication.commitSha, 40)
        && publication.branch == cfg.approval.task.BranchName() && publication.candidate == receipt.candidate
    {
      publication := Gateway.Publication(cfg.approval.task.BranchName(), "", receipt.candidate, 0);
      var reply;
      signal, reply := CallPublisher(id, plan, batch, attempt, receipt, snapshot, checkedAt);
      if signal != Going { return; }
      if reply.None? || !IsSha(reply.value.commitSha, 40) || reply.value.branch != cfg.approval.task.BranchName()
         || reply.value.candidate != receipt.candidate {
        signal := Stopped;
        return;
      }
      publication := reply.value;
      PublicationRecorded(cfg, world.sessions[id], plan, batch, receipt, snapshot, publication);
      signal := Perform(id, RecordBatch(publication));
    }

    /** A batch has just been published and recorded. */
    ghost predicate BatchDone(id: nat, plan: Plan, batch: nat, snapshot: Snapshot, candidate: Binding,
                              publication: Gateway.Publication)
      reads this
    {
      && id in world.sessions && Between(world.sessions[id], plan, batch + 1)
      && |world.sessions[id].held.commits| == batch + 1
      && Latest(world.sessions[id].held, publication, snapshot) && publication.candidate == candidate
    }

    /** One batch: attempts and bounded repairs until a candidate validates, then publication.
        The published change stays within the files of the first implementation. */
    method RunBatch(id: nat, plan: Plan, batch: nat, published: Snapshot)
      returns (signal: Signal, snapshot: Snapshot, candidate: Candidate, publication: Gateway.Publication)
      requires Valid() && id in world.sessions && Between(world.sessions[id], plan, batch) && batch < |plan|
      requires published == PublishedTree(cfg, world.sessions[id].held.commits)
      requires |world.sessions[id].held.commits| == batch
      modifies this`world, this`trace, this`tick
      ensures Valid()
      ensures signal == Stopped ==> id in world.sessions
      ensures signal == Going ==>
        && BatchDone(id, plan, batch, snapshot, candidate.digest, publication)
        && Describes(candidate, cfg.approval.task, cfg.policy, cfg.base, snapshot)
        && candidate.ScopeValid() && snapshot != published
      ensures signal == Going ==> LocalTo(batch, published, snapshot)
    {
      var attempt := 0;
      var current := published;
      ghost var commits := world.sessions[id].held.commits;
      publication := Gateway.Publication(cfg.approval.task.BranchName(), "", NoCandidate(cfg).digest, 0);
      while true
        invariant Valid() && id in world.sessions
        invariant 0 <= attempt <= cfg.approval.limits.maxRepairsPerBatch
        invariant AttemptReady(world.sessions[id], plan, batch, attempt, current)
        invariant world.sessions[id].held.commits == commits
        decreases cfg.approval.limits.maxRepairsPerBatch - attempt
      {
        var done;
        signal, done, snapshot, candidate, publication := Round(id, plan, batch, attempt, published, current);
        if signal != Going || done { return; }
        current := snapshot;
        attempt := attempt + 1;
      }
    }

    /** One attempt, and either its publication or the request to repair it. */
    method Round(id: nat, plan: Plan, batch: nat, attempt: nat, published: Snapshot, current: Snapshot)
      returns (signal: Signal, done: bool, snapshot: Snapshot, candidate: Candidate, publication: Gateway.Publication)
      requires Valid() && id in world.sessions && AttemptReady(world.sessions[id], plan, batch, attempt, current)
      requires published == PublishedTree(cfg, world.sessions[id].held.commits) && batch < |plan|
      requires |world.sessions[id].held.commits| == batch
      modifies this`world, this`trace, this`tick
      ensures Valid()
      ensures signal == Stopped ==> id in world.sessions
      ensures signal == Going && done ==>
        && BatchDone(id, plan, batch, snapshot, candidate.digest, publication)
        && Describes(candidate, cfg.approval.task, cfg.policy, cfg.base, snapshot)
        && candidate.ScopeValid() && snapshot != published
      ensures signal == Going && done ==> LocalTo(batch, published, snapshot)
      ensures signal == Going && !done ==>
        && id in world.sessions && AttemptReady(world.sessions[id], plan, batch, attempt + 1, snapshot)
        && world.sessions[id].held.commits == old(world.sessions)[id].held.commits
        && attempt < cfg.approval.limits.maxRepairsPerBatch
    {
      publication := Gateway.Publication(cfg.approval.task.BranchName(), "", NoCandidate(cfg).digest, 0);
      var verdict, checkedAt;
      signal, snapshot, candidate, verdict, checkedAt := Attempt(id, plan, batch, attempt, published, current);
      done := verdict.Verified?;
      if signal != Going { return; }
      if done {
        signal, publication := PublishVerified(id, plan, batch, attempt, verdict.receipt, published, snapshot,
            checkedAt);
      } else if attempt >= cfg.approval.limits.maxRepairsPerBatch {
        signal := Stopped;
      } else {
        signal := AskRepair(id, plan, batch, attempt, candidate.digest, checkedAt);
      }
    }

    method AskRepair(id: nat, plan: Plan, batch: int, attempt: nat, candidate: Binding, checkedAt: int)
      returns (signal: Signal)
      requires Valid() && id in world.sessions && Frozen(world.sessions[id], plan, batch, attempt, candidate)
      requires Allowed(cfg, world.sessions[id], RequestRepair(attempt + 1, checkedAt))
      modifies this`world, this`trace, this`tick
      ensures Valid()
      ensures signal == Stopped ==> id in world.sessions
      ensures signal == Going ==>
        && id in world.sessions && InRepair(world.sessions[id], plan, batch, attempt + 1, candidate.after)
        && SameBatch(old(world.sessions)[id], world.sessions[id])
    {
      RepairRequested(cfg, world.sessions[id], plan, batch, attempt, candidate, checkedAt);
      signal := Perform(id, RequestRepair(attempt + 1, checkedAt));
    }

    /** Publication of a verified candidate, which stays within the batch's first implementation. */
    method PublishVerified(id: nat, plan: Plan, batch: nat, attempt: nat, receipt: Receipt, published: Snapshot,
                           snapshot: Snapshot, checkedAt: int)
      returns (signal: Signal, publication: Gateway.Publication)
      requires Valid() && id in world.sessions && Frozen(world.sessions[id], plan, batch, attempt, receipt.candidate)
      requires Allowed(cfg, world.sessions[id], IntendPublish(receipt, snapshot, checkedAt))
      requires published == PublishedTree(cfg, world.sessions[id].held.commits)
      requires |world.sessions[id].held.commits| == batch
      modifies this`world, this`trace, this`tick
      ensures Valid()
      ensures signal == Stopped ==> id in world.sessions
      ensures signal == Going ==> BatchDone(id, plan, batch, snapshot, receipt.candidate, publication)
      ensures signal == Going ==> LocalTo(batch, published, snapshot)
    {
      signal, publication := PublishBatch(id, plan, batch, attempt, receipt, snapshot, checkedAt);
      if signal == Going {
        assert world.record.commits[..batch] == old(world.sessions)[id].held.commits;
        BatchStaysLocal(cfg, trace, batch, published);
      }
    }

    /** The first implementation of this batch returned a snapshot whose change covers this one. */
    ghost predicate LocalTo(batch: nat, published: Snapshot, snapshot: Snapshot)
      reads this
    {
      exists first :: Implemented(batch + 1, 0, Some(first)) in world.effects
                      && Diff(published, snapshot) <= Diff(published, first)
    }

    /** Implementation and validation of one attempt. */
    method Attempt(id: nat, plan: Plan, batch: int, attempt: nat, published: Snapshot, current: Snapshot)
      returns (signal: Signal, snapshot: Snapshot, candidate: Candidate, verdict: Verdict, checkedAt: int)
      requires Valid() && id in world.sessions && AttemptReady(world.sessions[id], plan, batch, attempt, current)
      requires published == PublishedTree(cfg, world.sessions[id].held.commits) && batch < |plan|
      modifies this`world, this`trace, this`tick
      ensures Valid()
      ensures signal == Stopped ==> id in world.sessions
      ensures signal == Going ==>
        && id in world.sessions && Frozen(world.sessions[id], plan, batch, attempt, candidate.digest)
        && world.sessions[id].held.commits == old(world.sessions)[id].held.commits
        && Describes(candidate, cfg.approval.task, cfg.policy, cfg.base, snapshot)
        && (verdict.Verified? || verdict.ExecutedFailure?)
      ensures signal == Going && verdict.Verified? ==>
        && candidate.ScopeValid() && verdict.receipt.candidate == candidate.digest && snapshot != published
        && Allowed(cfg, world.sessions[id], IntendPublish(verdict.receipt, snapshot, checkedAt))
      ensures signal == Going && verdict.ExecutedFailure? ==>
        Allowed(cfg, world.sessions[id], RequestRepair(attempt + 1, checkedAt))
    {
      verdict, checkedAt := Refused, 0;
      signal, snapshot, candidate := Implement(id, plan, batch, attempt, published, current);
      if signal != Going { return; }
      signal, verdict, checkedAt := Validate(id, plan, batch, attempt, published, snapshot, candidate);
    }

    /** Between batches, with the last publication and the tree it shows in hand. */
    ghost predicate Standing(id: nat, plan: Plan, batch: nat, published: Snapshot, candidate: Binding,
                             publication: Gateway.Publication)
      reads this
    {
      && id in world.sessions && Between(world.sessions[id], plan, batch)
      && |world.sessions[id].held.commits| == batch
      && published == PublishedTree(cfg, world.sessions[id].held.commits)
      && (batch > 0 ==> Latest(world.sessions[id].held, publication, published) && publication.candidate == candidate)
    }

    /** All remaining batches of the frozen plan. */
    method RunBatches(id: nat, plan: Plan, batch: nat, restored: Snapshot, lastCandidate: Candidate,
                      lastPublication: Gateway.Publication)
      returns (signal: Signal, published: Snapshot, candidate: Candidate, publication: Gateway.Publication)
      requires Valid() && Standing(id, plan, batch, restored, lastCandidate.digest, lastPublication) && batch <= |plan|
      modifies this`world, this`trace, this`tick
      ensures Valid()
      ensures signal == Stopped ==> id in world.sessions
      ensures signal == Going ==> Standing(id, plan, |plan|, published, candidate.digest, publication)
    {
      published, candidate, publication := restored, lastCandidate, lastPublication;
      var next := batch;
      signal := Going;
      while next < |plan|
        invariant batch <= next <= |plan|
        invariant Valid() && signal == Going
        invariant Standing(id, plan, next, published, candidate.digest, publication)
      {
        signal, published, candidate, publication := RunBatch(id, plan, next, published);
        if signal != Going { return; }
        next := next + 1;
      }
    }

    // ------------------------------------------------------------ start and resumption

    /** The last commit's frozen bytes, inspected again. */
    method Restore(r: Record) returns (c: Result<Candidate>)
      requires r.commits != []
      ensures c.Ok? ==>
        && r.plan.Some? && r.batch == |r.commits|
        && c.value.digest == r.commits[|r.commits| - 1].publication.candidate
        && Describes(c.value, cfg.approval.task, cfg.policy, cfg.base, r.commits[|r.commits| - 1].artifact)
    {
      var previous := r.commits[|r.commits| - 1];
      if r.plan.None? || r.batch != |r.commits| {
        return Rejected;
      }
      c := InspectCandidate(cfg.approval.task, cfg.policy, cfg.base, previous.artifact);
      if c.Ok? && c.value.digest != previous.publication.candidate {
        c := Rejected;
      }
    }

    /** Between published batches a run continues from the frozen bytes of the last commit,
        after inspecting them again, verifying their receipt again and reconciling the remote. */
    method Resume(id: nat, given: Option<Plan>)
      returns (signal: Signal, plan: Plan, restored: Snapshot, candidate: Candidate, publication: Gateway.Publication)
      requires Valid() && id in world.sessions && Opening(cfg, world.sessions[id]) && Unmerged(world.sessions[id].held)
      requires world.sessions[id].held.commits != []
      modifies this`world, this`trace, this`tick
      ensures Valid()
      ensures signal == Stopped ==> id in world.sessions
      ensures signal == Going ==>
        && (given.Some? ==> given.value == plan)
        && Describes(candidate, cfg.approval.task, cfg.policy, cfg.base, restored)
        && id in world.sessions
        && Continued(old(world.sessions)[id], world.sessions[id], plan, restored, candidate.digest, publication)
      ensures signal == Going ==>
        oracle(old(tick)).reconciled && ResumeJustified(cfg, old(world.sessions)[id].held, oracle(old(tick)).now)
    {
      var record := world.sessions[id].held;
      var previous := record.commits[|record.commits| - 1];
      plan, restored, publication, candidate := [], previous.artifact, previous.publication, NoCandidate(cfg);
      var inspected := Restore(record);
      if inspected.Rejected? {
        signal := Stopped;
        return;
      }
      plan, candidate := record.plan.value, inspected.value;
      signal := ContinueFrom(id, candidate, given);
    }

    /** From the last commit, once it is reconciled. */
    method ContinueFrom(id: nat, candidate: Candidate, given: Option<Plan>) returns (signal: Signal)
      requires Valid() && id in world.sessions && Opening(cfg, world.sessions[id]) && Unmerged(world.sessions[id].held)
      requires world.sessions[id].held.plan.Some? && world.sessions[id].held.commits != []
      requires candidate.digest
        == world.sessions[id].held.commits[|world.sessions[id].held.commits| - 1].publication.candidate
      requires candidate.taskId == cfg.approval.task.id
      modifies this`world, this`trace, this`tick
      ensures Valid()
      ensures signal == Stopped ==> id in world.sessions
      ensures signal == Going ==>
        && (given.Some? ==> given == old(world.sessions)[id].held.plan)
        && id in world.sessions && ContinuedLast(old(world.sessions)[id], world.sessions[id])
      ensures signal == Going ==>
        oracle(old(tick)).reconciled && ResumeJustified(cfg, old(world.sessions)[id].held, oracle(old(tick)).now)
    {
      ghost var s := world.sessions[id];
      signal := Reconcile(id, candidate, given);
      if signal == Going {
        ResumedStands(cfg, s, world.sessions[id]);
      }
    }

    /** The last receipt verified again, and the remote head and tree reconciled. */
    method Reconcile(id: nat, candidate: Candidate, given: Option<Plan>) returns (signal: Signal)
      requires Valid() && id in world.sessions && Opening(cfg, world.sessions[id]) && Unmerged(world.sessions[id].held)
      requires world.sessions[id].held.plan.Some? && world.sessions[id].held.commits != []
      requires candidate.digest
        == world.sessions[id].held.commits[|world.sessions[id].held.commits| - 1].publication.candidate
      requires candidate.taskId == cfg.approval.task.id
      modifies this`world, this`trace, this`tick
      ensures Valid() && tick > old(tick)
      ensures signal == Stopped ==> id in world.sessions
      ensures signal == Going ==>
        && oracle(old(tick)).reconciled && ResumeJustified(cfg, old(world.sessions)[id].held, oracle(old(tick)).now)
        && (given.Some? ==> given == old(world.sessions)[id].held.plan)
        && id in world.sessions && ResumedFrom(old(world.sessions)[id], world.sessions[id])
    {
      OpeningBatch(cfg, world.sessions[id]);
      var record := world.sessions[id].held;
      var a := Interfere(id);
      var verified := ReverifyLast(record, candidate, a.now);
      if !verified || !a.reconciled || (given.Some? && given != record.plan) {
        return Stopped;
      }
      signal := RecordResumption(id, a.now);
    }

    method RecordResumption(id: nat, checkedAt: int) returns (signal: Signal)
      requires Valid() && id in world.sessions && Opening(cfg, world.sessions[id]) && Unmerged(world.sessions[id].held)
      requires ResumeJustified(cfg, world.sessions[id].held, checkedAt)
      modifies this`world, this`trace, this`tick
      ensures Valid() && tick > old(tick)
      ensures signal == Stopped ==> id in world.sessions
      ensures signal == Going ==> id in world.sessions && ResumedFrom(old(world.sessions)[id], world.sessions[id])
    {
      ResumedContinues(cfg, world.sessions[id], checkedAt);
      signal := Perform(id, Resumed(checkedAt, true));
    }

    /** The last commit's receipt, verified on top of the commit before it. */
    method ReverifyLast(r: Record, candidate: Candidate, now: int) returns (ok: bool)
      requires r.commits != [] && r.plan.Some? && r.batch == |r.commits|
      requires candidate.digest == r.commits[|r.commits| - 1].publication.candidate
      requires candidate.taskId == cfg.approval.task.id
      ensures ok <==> candidate.ScopeValid() && ResumeJustified(cfg, r, now)
    {
      var last := r.commits[|r.commits| - 1];
      var parent := ParentOf(cfg, r.commits, |r.commits| - 1);
      if !candidate.ScopeValid() {
        return false;
      }
      var verdict := Weigh(last.receipt.envelope, candidate, parent, r.batch, now);
      ok := verdict.Verified?;
    }

    /** A plan the worker proposes, under its own reserved attempt. */
    method ObtainPlan(id: nat) returns (signal: Signal, plan: Plan)
      requires Valid() && id in world.sessions && Plannable(world.sessions[id]) && world.sessions[id].held.intent.None?
      requires world.sessions[id].held.commits == []
      modifies this`world, this`trace, this`tick
      ensures Valid()
      ensures signal == Stopped ==> id in world.sessions
      ensures signal == Going ==>
        && id in world.sessions && Plannable(world.sessions[id]) && world.sessions[id].held.commits == []
        && world.sessions[id].held.batch == old(world.sessions)[id].held.batch
        && world.sessions[id].held.intent == Some(Planning) && world.sessions[id].answer == Some(Planned(Some(plan)))
    {
      plan := [];
      signal := ReserveAttempt(id);
      if signal != Going { return; }
      signal := Perform(id, IntendPlan);
      if signal != Going { return; }
      var a;
      signal, a := CallOut(id);
      if signal != Going { return; }
      if a.reply.plan.None? {
        signal := Stopped;
        return;
      }
      plan := a.reply.plan.value;
    }

    /** A first run starts from the base, with the plan it was given or one it obtains. */
    method Begin(id: nat, given: Option<Plan>) returns (signal: Signal, plan: Plan)
      requires Valid() && id in world.sessions && Opening(cfg, world.sessions[id]) && Unmerged(world.sessions[id].held)
      requires world.sessions[id].held.commits == []
      modifies this`world, this`trace, this`tick
      ensures Valid()
      ensures signal == Stopped ==> id in world.sessions
      ensures signal == Going ==>
        && id in world.sessions && Plannable(world.sessions[id]) && world.sessions[id].held.commits == []
        && world.sessions[id].held.batch == 0
        && (world.sessions[id].held.intent.Some? ==> world.sessions[id].answer == Some(Planned(Some(plan))))
    {
      plan := [];
      signal := Perform(id, Start);
      if signal != Going { return; }
      if given.Some? {
        plan := given.value;
      } else {
        signal, plan := ObtainPlan(id);
      }
    }

    /** Validates and freezes the plan. */
    method Freeze(id: nat, plan: Plan) returns (signal: Signal)
      requires Valid() && id in world.sessions && Plannable(world.sessions[id])
      requires world.sessions[id].held.intent.Some? ==> world.sessions[id].answer == Some(Planned(Some(plan)))
      requires world.sessions[id].held.commits == [] || world.sessions[id].held.plan == Some(plan)
      modifies this`world, this`trace, this`tick
      ensures Valid()
      ensures signal == Stopped ==> id in world.sessions
      ensures signal == Going ==>
        && id in world.sessions && Between(world.sessions[id], plan, old(world.sessions)[id].held.batch)
        && PlanAccepted(plan, cfg.approval)
        && SameBatch(old(world.sessions)[id], world.sessions[id])
    {
      var accepted := ValidatePlan(plan, cfg.approval);
      if !accepted {
        return Stopped;
      }
      signal := Perform(id, FreezePlan(plan));
    }

    /** Everything before the first batch of this run. */
    method Prepare(id: nat, given: Option<Plan>)
      returns (signal: Signal, plan: Plan, restored: Snapshot, candidate: Candidate, publication: Gateway.Publication)
      requires Valid() && id in world.sessions && Opening(cfg, world.sessions[id])
      modifies this`world, this`trace, this`tick
      ensures Valid()
      ensures signal == Stopped ==> id in world.sessions
      ensures signal == Going ==>
        && id in world.sessions && |world.sessions[id].held.commits| <= |plan| && PlanAccepted(plan, cfg.approval)
        && Standing(id, plan, |world.sessions[id].held.commits|, restored, candidate.digest, publication)
    {
      plan, restored, candidate := [], cfg.base, NoCandidate(cfg);
      publication := Gateway.Publication(cfg.approval.task.BranchName(), "", candidate.digest, 0);
      var a := Interfere(id);
      if !a.ready || !Unmerged(world.sessions[id].held) {
        signal := Stopped;
        return;
      }
      if world.sessions[id].held.commits != [] {
        signal, plan, restored, candidate, publication := PrepareResumed(id, given);
      } else {
        signal, plan := PrepareFirst(id, given);
      }
    }

    method PrepareFirst(id: nat, given: Option<Plan>) returns (signal: Signal, plan: Plan)
      requires Valid() && id in world.sessions && Opening(cfg, world.sessions[id]) && Unmerged(world.sessions[id].held)
      requires world.sessions[id].held.commits == []
      modifies this`world, this`trace, this`tick
      ensures Valid()
      ensures signal == Stopped ==> id in world.sessions
      ensures signal == Going ==>
        && id in world.sessions && Between(world.sessions[id], plan, 0) && world.sessions[id].held.commits == []
        && PlanAccepted(plan, cfg.approval)
    {
      signal, plan := Begin(id, given);
      if signal != Going { return; }
      signal := Freeze(id, plan);
    }

    method PrepareResumed(id: nat, given: Option<Plan>)
      returns (signal: Signal, plan: Plan, restored: Snapshot, candidate: Candidate, publication: Gateway.Publication)
      requires Valid() && id in world.sessions && Opening(cfg, world.sessions[id]) && Unmerged(world.sessions[id].held)
      requires world.sessions[id].held.commits != []
      modifies this`world, this`trace, this`tick
      ensures Valid()
      ensures signal == Stopped ==> id in world.sessions
      ensures signal == Going ==>
        && id in world.sessions && Between(world.sessions[id], plan, |world.sessions[id].held.commits|)
        && PlanAccepted(plan, cfg.approval) && |world.sessions[id].held.commits| <= |plan|
        && Latest(world.sessions[id].held, publication, restored) && publication.candidate == candidate.digest
    {
      OpeningBatch(cfg, world.sessions[id]);
      signal, plan, restored, candidate, publication := Resume(id, given);
      if signal != Going { return; }
      signal := FreezeResumed(id, plan, restored, publication);
    }

    method FreezeResumed(id: nat, plan: Plan, restored: Snapshot, publication: Gateway.Publication)
      returns (signal: Signal)
      requires Valid() && id in world.sessions && Plannable(world.sessions[id]) && world.sessions[id].held.intent.None?
      requires world.sessions[id].held.plan == Some(plan) && Latest(world.sessions[id].held, publication, restored)
      requires world.sessions[id].held.batch == |world.sessions[id].held.commits| <= |plan|
      modifies this`world, this`trace, this`tick
      ensures Valid()
      ensures signal == Stopped ==> id in world.sessions
      ensures signal == Going ==>
        && id in world.sessions && Between(world.sessions[id], plan, |world.sessions[id].held.commits|)
        && PlanAccepted(plan, cfg.approval) && |world.sessions[id].held.commits| <= |plan|
        && Latest(world.sessions[id].held, publication, restored)
    {
      signal := Freeze(id, plan);
    }

    // --------------------------------------------------- acceptance, merge and release

    /** Signed acceptance of the whole objective at the published head, before any merge. */
    method Accept(id: nat, plan: Plan, candidate: Candidate) returns (signal: Signal)
      requires Valid() && id in world.sessions && Between(world.sessions[id], plan, |plan|) && |plan| > 0
      requires |world.sessions[id].held.commits| == |plan|
      requires candidate.digest == world.sessions[id].held.commits[|plan| - 1].publication.candidate
      modifies this`world, this`trace, this`tick
      ensures Valid()
      ensures signal == Stopped ==> id in world.sessions
      ensures signal == Going ==>
        && id in world.sessions && MergeReady(world.sessions[id])
        && SameBatch(old(world.sessions)[id], world.sessions[id])
      ensures signal == Going ==>
        exists t | old(tick) <= t < tick ::
          Accepts(oracle(t).reply.acceptance, candidate.digest, old(world.sessions)[id].held.parentSha)
    {
      var answer;
      signal, answer := CallAcceptance(id, plan, candidate.digest);
      if signal != Going { return; }
      var head := world.sessions[id].held.parentSha;
      if !Accepts(answer, candidate.digest, head) {
        signal := Stopped;
        return;
      }
      MergeAnnounced(cfg, world.sessions[id], candidate.digest, answer.value);
      signal := AnnounceMerge(id, answer.value);
    }

    predicate Accepts(answer: Option<Envelope<AcceptanceClaim>>, candidate: Binding, head: string) {
      answer.Some? && AcceptanceStands(answer.value, cfg.approval, cfg.keys, candidate, head)
    }

    /** With the acceptance of this candidate asked for and answered. */
    predicate Answering(s: Session, candidate: Binding, answer: Option<Envelope<AcceptanceClaim>>) {
      && s.due.None? && AllPublished(s.held) && Unmerged(s.held) && s.held.intent == Some(Acceptance)
      && s.answer == Some(Accepted(candidate, s.held.parentSha, answer))
    }

    method CallAcceptance(id: nat, plan: Plan, candidate: Binding)
      returns (signal: Signal, answer: Option<Envelope<AcceptanceClaim>>)
      requires Valid() && id in world.sessions && Between(world.sessions[id], plan, |plan|) && |plan| > 0
      requires |world.sessions[id].held.commits| == |plan|
      requires candidate == world.sessions[id].held.commits[|plan| - 1].publication.candidate
      modifies this`world, this`trace, this`tick
      ensures Valid()
      ensures signal == Stopped ==> id in world.sessions
      ensures signal == Going ==>
        && id in world.sessions && Answering(world.sessions[id], candidate, answer)
        && SameBatch(old(world.sessions)[id], world.sessions[id])
        && exists t | old(tick) <= t < tick :: oracle(t).reply.acceptance == answer
    {
      answer := None;
      AcceptanceAnnounced(cfg, world.sessions[id], plan, candidate);
      signal := Perform(id, StartAcceptance);
      if signal != Going { return; }
      ghost var asked := tick;
      var a;
      signal, a := CallOut(id);
      answer := a.reply.acceptance;
      assert oracle(asked).reply.acceptance == answer;
    }

    method AnnounceMerge(id: nat, acceptance: Envelope<AcceptanceClaim>) returns (signal: Signal)
      requires Valid() && id in world.sessions && Allowed(cfg, world.sessions[id], IntendMerge(acceptance))
      modifies this`world, this`trace, this`tick
      ensures Valid() && tick > old(tick)
      ensures signal == Stopped ==> id in world.sessions
      ensures signal == Going ==> Mine(id, Advance(cfg, old(world.sessions)[id], IntendMerge(acceptance)))
    {
      signal := ApprovalHolds(id);
      if signal != Going { return; }
      signal := Perform(id, IntendMerge(acceptance));
    }

    /** At most sixty merge calls, all but the last answered by a pending gate. */
    method MergeHead(id: nat) returns (signal: Signal)
      requires Valid() && id in world.sessions && MergeReady(world.sessions[id])
      modifies this`world, this`trace, this`tick
      ensures Valid()
      ensures signal == Stopped ==> id in world.sessions
      ensures signal == Going ==>
        && id in world.sessions && MergeDone(world.sessions[id]) && !world.sessions[id].held.released
        && SameBatch(old(world.sessions)[id], world.sessions[id])
    {
      var polls := 0;
      while polls < MAX_POLLS
        invariant 0 <= polls <= MAX_POLLS
        invariant Valid() && id in world.sessions && MergeReady(world.sessions[id])
        invariant SameBatch(old(world.sessions)[id], world.sessions[id])
      {
        var merged;
        signal, merged := PollMerge(id);
        if signal != Going || merged { return; }
        polls := polls + 1;
      }
      signal := Stopped;
    }

    /** One merge call: a pending gate leaves it to be made again. */
    method PollMerge(id: nat) returns (signal: Signal, merged: bool)
      requires Valid() && id in world.sessions && MergeReady(world.sessions[id])
      modifies this`world, this`trace, this`tick
      ensures Valid()
      ensures signal == Stopped ==> id in world.sessions
      ensures signal == Going ==>
        && id in world.sessions && SameBatch(old(world.sessions)[id], world.sessions[id])
        && (if merged then MergeDone(world.sessions[id]) && !world.sessions[id].held.released
            else MergeReady(world.sessions[id]))
    {
      merged := false;
      signal := ApprovalHolds(id);
      if signal != Going { return; }
      var a;
      signal, a := CallOut(id);
      if signal != Going { return; }
      match a.reply.merge
      case AnswerMerged(sha) =>
        if !IsSha(sha, 40) {
          return Stopped, false;
        }
        merged := true;
        signal := Perform(id, RecordMerge(sha));
      case AnswerRefused =>
        signal := Stopped;
      case AnswerPending =>
        signal := Perform(id, WaitForChecks(Min(a.now + 300, world.sessions[id].held.deadline)));
    }

    method ReleaseHead(id: nat) returns (signal: Signal)
      requires Valid() && id in world.sessions && MergeDone(world.sessions[id]) && !world.sessions[id].held.released
      modifies this`world, this`trace, this`tick
      ensures Valid()
      ensures signal == Stopped ==> id in world.sessions
      ensures signal == Going ==>
        && id in world.sessions && MergeDone(world.sessions[id])
        && SameBatch(old(world.sessions)[id], world.sessions[id])
        && world.sessions[id].held.released == cfg.approval.releaseAuthorized
    {
      signal := Going;
      if cfg.approval.releaseAuthorized {
        signal := ApprovalHolds(id);
        if signal != Going { return; }
        signal := RequestRelease(id);
      }
    }

    method RequestRelease(id: nat) returns (signal: Signal)
      requires Valid() && id in world.sessions && MergeDone(world.sessions[id]) && !world.sessions[id].held.released
      requires cfg.approval.releaseAuthorized
      modifies this`world, this`trace, this`tick
      ensures Valid()
      ensures signal == Stopped ==> id in world.sessions
      ensures signal == Going ==>
        && id in world.sessions && MergeDone(world.sessions[id])
        && SameBatch(old(world.sessions)[id], world.sessions[id]) && world.sessions[id].held.released
    {
      ReleaseAnnounced(cfg, world.sessions[id]);
      signal := Perform(id, IntendRelease);
      if signal != Going { return; }
      var a;
      signal, a := CallOut(id);
      if signal != Going { return; }
      if !a.reply.released {
        return Stopped;
      }
      ReleaseRecorded(cfg, world.sessions[id]);
      signal := Perform(id, RecordRelease);
    }

    /** The guarded part of `run`. */
    method Execute(id: nat, given: Option<Plan>) returns (signal: Signal)
      requires Valid() && id in world.sessions && Opening(cfg, world.sessions[id])
      modifies this`world, this`trace, this`tick
      ensures Valid()
      ensures signal == Stopped ==> id in world.sessions
      ensures signal == Going ==> id in world.sessions && Finished(world.sessions[id].held, cfg)
    {
      var plan, restored, candidate, publication;
      signal, plan, restored, candidate, publication := Prepare(id, given);
      if signal != Going { return; }
      var done := |world.sessions[id].held.commits|;
      signal, restored, candidate, publication := RunBatches(id, plan, done, restored, candidate, publication);
      if signal != Going { return; }
      signal := Finish(id, plan, candidate);
    }

    /** Acceptance, merge, release and completion. */
    method Finish(id: nat, plan: Plan, candidate: Candidate) returns (signal: Signal)
      requires Valid() && id in world.sessions && Between(world.sessions[id], plan, |plan|) && |plan| > 0
      requires |world.sessions[id].held.commits| == |plan|
      requires candidate.digest == world.sessions[id].held.commits[|plan| - 1].publication.candidate
      modifies this`world, this`trace, this`tick
      ensures Valid()
      ensures signal == Stopped ==> id in world.sessions
      ensures signal == Going ==> id in world.sessions && Finished(world.sessions[id].held, cfg)
    {
      signal := Accept(id, plan, candidate);
      if signal != Going { return; }
      signal := MergeHead(id);
      if signal != Going { return; }
      signal := ReleaseHead(id);
      if signal != Going { return; }
      signal := Perform(id, Complete);
    }

    /** `_blocked`: a pending intent is kept, and a refused update falls back to the recovery poll.
        The update lands in the world `met` by this worker at `now`, or is refused there. */
    method BlockObjective(id: nat) returns (signal: Signal, ghost met: World, ghost now: int, reason: string)
      requires Valid() && id in world.sessions
      modifies this`world, this`trace, this`tick
      ensures Valid() && reason == Guarantees.Clipped(oracle(old(tick)).reason)
      ensures signal != Crashed ==>
        && id in met.sessions && met.sessions[id] == old(world.sessions)[id]
        && (signal == Going <==> Performs(cfg, met, id, now, Block(reason)))
        && (exists steps :: met == Reached(cfg, steps))
      ensures signal == Going ==>
        && world == Apply(cfg, met, DoStep(id, now, Block(reason)))
        && world.record.phase == Blocked && world.record.reason == Some(reason)
      ensures signal == Stopped ==> !Guarantees.TimedOut(world.record, oracle(old(tick) + 1).now)
    {
      var a := Interfere(id);
      reason, now, met := Guarantees.Clipped(a.reason), a.now, world;
      if a.crashBefore {
        Take(CrashStep(id));
        return Crashed, met, now, reason;
      }
      signal := Land(id, a.now, Block(reason));
      if signal == Stopped {
        RecoveryPoll(id);
      }
    }

    /** `expire`: afterwards the record is closed, or not timed out at that moment. */
    method RecoveryPoll(id: nat)
      requires Valid()
      modifies this`world, this`trace, this`tick
      ensures Valid() && !Guarantees.TimedOut(world.record, oracle(old(tick)).now)
    {
      var a := Interfere(id);
      Take(ExpireStep(a.now));
    }

    /** `run`. Whatever the adapters answer, wherever the process dies and whatever other
        workers do meanwhile, the shared state afterwards is a reachable one; and a run that
        reports completion has published every planned batch and merged the last head. */
    method Run(id: nat, worker: string, given: Option<Plan>) returns (completed: bool)
      requires Valid() && id !in world.sessions
      modifies this`world, this`trace, this`tick
      ensures Valid()
      ensures completed ==> id in world.sessions && Finished(world.sessions[id].held, cfg)
    {
      completed := false;
      var a := Interfere(id);
      Take(ExpireStep(a.now));
      if world.record.phase == Blocked {
        return;
      }
      a := Interfere(id);
      FreshClaim(cfg, world, trace, id, worker, a.now, 300);
      Take(ClaimStep(id, worker, a.now, 300));
      if id !in world.sessions {
        return;
      }
      var signal := ApprovalHolds(id);
      if signal != Going {
        Take(CrashStep(id));
        return;
      }
      signal := Execute(id, given);
      if signal == Stopped {
        var _, _, _, _ := BlockObjective(id);
      }
      completed := signal == Going;
    }
  }

  /** What the queue makes of an update, accepted or not. */
  predicate Landed(cfg: Config, w: World, v: World, id: nat, now: int, deed: Deed)
    requires id in w.sessions
  {
    if UpdateFor(cfg, w, w.sessions[id], now, deed).Ok?
    then id in v.sessions && v.sessions[id] == Advance(cfg, w.sessions[id], deed) && v.record == v.sessions[id].held
    else v == w
  }

  lemma DoStepShape(cfg: Config, w: World, trace: seq<Step>, id: nat, now: int, deed: Deed)
    requires w == Reached(cfg, trace) && id in w.sessions && Allowed(cfg, w.sessions[id], deed)
    ensures Landed(cfg, w, Apply(cfg, w, DoStep(id, now, deed)), id, now, deed)
  {
    if UpdateFor(cfg, w, w.sessions[id], now, deed).Ok? {
      ReachedSessions(cfg, trace);
      AcceptedStep(cfg, w, id, now, deed);
    }
  }

  /** An accepted update gives its worker the advanced session, and the record that goes with it. */
  lemma AcceptedStep(cfg: Config, w: World, id: nat, now: int, deed: Deed)
    requires Holders(w) && Announced(cfg, w) && Performs(cfg, w, id, now, deed)
    ensures var v := Apply(cfg, w, DoStep(id, now, deed)); var n := Advance(cfg, w.sessions[id], deed);
      id in v.sessions && v.sessions[id] == n && v.record == n.held
  {
    DeedShape(cfg, w, id, now, deed);
  }

  lemma BatchStaysLocal(cfg: Config, trace: seq<Step>, batch: nat, published: Snapshot)
    requires batch < |Reached(cfg, trace).record.commits|
    requires published == PublishedTree(cfg, Reached(cfg, trace).record.commits[..batch])
    ensures var w := Reached(cfg, trace);
      exists first :: Implemented(batch + 1, 0, Some(first)) in w.effects
                      && Diff(published, w.record.commits[batch].artifact) <= Diff(published, first)
  {
    Repairs.CommitsStayLocal(cfg, trace, batch);
    var w := Reached(cfg, trace);
    var j :| 0 <= j < |w.effects| && Repairs.WithinFirst(cfg, w.record.commits, batch, w.effects[j]);
    assert w.effects[j] == Implemented(batch + 1, 0, Some(w.effects[j].snapshot.value));
  }

  lemma ResumedContinues(cfg: Config, s: Session, now: int)
    requires Opening(cfg, s) && Unmerged(s.held)
    ensures ResumedFrom(s, Advance(cfg, s, Resumed(now, true)))
  {
  }

  lemma OpeningBatch(cfg: Config, s: Session)
    requires Opening(cfg, s)
    ensures s.held.batch == |s.held.commits| && s.held.repairs == 0
    ensures s.held.commits != [] ==> s.held.parentSha == s.held.commits[|s.held.commits| - 1].publication.commitSha
    ensures s.held.commits != [] ==> s.held.plan.Some? && |s.held.commits| <= |s.held.plan.value|
  {
  }
}
