/** That an objective can be completed at all: from enqueueing, one worker publishes any chain of
    commits whose receipts stand, merges its head and completes the objective. */
module Completion {
  import opened Results
  import opened Candidates
  import opened Objectives
  import opened Records
  import opened Protocol
  import opened Guarantees

  // ------------------------------------------------------------------ what is granted

  /** The publisher's answer names this candidate, the branch and a commit. */
  predicate Answers(cfg: Config, c: Commit, i: nat) {
    && c.batch == i + 1 && c.publication.candidate == c.receipt.candidate
    && c.publication.branch == cfg.approval.task.BranchName() && IsSha(c.publication.commitSha, 40)
  }

  /** A commit that may come next: a change in scope whose receipt stands on the one before. */
  predicate Publishable(cfg: Config, goal: seq<Commit>, i: nat, now: int)
    requires i < |goal|
  {
    var c := goal[i];
    && Answers(cfg, c, i)
    && c.receipt.candidate == CandidateOf(cfg, c.artifact) && InScope(cfg, c.artifact)
    && c.artifact != PublishedTree(cfg, goal[..i])
    && c.receipt.parentSha == ParentOf(cfg, goal, i) && c.receipt.batch == i + 1
    && Stands(cfg, c.receipt.envelope, c.receipt.candidate, c.receipt.parentSha, i + 1, now)
  }

  /** The signed limits leave room for one attempt a batch, and the history for every update. */
  predicate Affordable(cfg: Config, batches: nat) {
    && 0 < batches <= cfg.approval.limits.maxBatches
    && batches <= cfg.approval.limits.maxAttempts && batches <= cfg.approval.limits.maxTokens
    && batches <= cfg.approval.limits.maxCostMicrousd && 5 * batches + 9 <= MAX_HISTORY
  }

  predicate AllPublishable(cfg: Config, goal: seq<Commit>, now: int) {
    forall i | 0 <= i < |goal| :: Publishable(cfg, goal, i, now)
  }

  /** This plan, these commits and this acceptance are all an objective needs. */
  predicate Completable(cfg: Config, plan: Plan, goal: seq<Commit>, e: Envelope<AcceptanceClaim>, now: int) {
    && PlanAccepted(plan, cfg.approval) && |goal| == |plan| && Affordable(cfg, |plan|)
    && AllPublishable(cfg, goal, now)
    && AcceptanceStands(e, cfg.approval, cfg.keys, goal[|goal| - 1].publication.candidate, ParentOf(cfg, goal, |goal|))
  }

  /** It is read while the objective is open. */
  predicate Open(cfg: Config, now: int) {
    cfg.enqueuedAt <= now <= MAX_TIME && now < Initial(cfg.approval, cfg.enqueuedAt).deadline
  }

  // ----------------------------------------------------------------- one worker alone

  /** This worker holds the record as it stands. */
  predicate Sole(w: World, id: nat, s: Session) {
    id in w.sessions && w.sessions[id] == s && w.record == s.held
  }

  predicate Accepts(s: Session, now: int, c: Changes) {
    Update(s.held, s.held.leaseOwner, s.held.generation, s.held.version, now, c).Ok?
  }

  lemma Does(cfg: Config, steps: seq<Step>, id: nat, now: int, s: Session, deed: Deed) returns (longer: seq<Step>)
    requires Sole(Reached(cfg, steps), id, s) && Allowed(cfg, s, deed) && Accepts(s, now, ChangesOf(cfg, s.held, deed))
    ensures Sole(Reached(cfg, longer), id, Advance(cfg, s, deed))
  {
    longer := steps + [DoStep(id, now, deed)];
    assert longer[..|steps|] == steps;
    DoesAlone(cfg, Reached(cfg, steps), id, now, s, deed);
  }

  lemma DoesAlone(cfg: Config, w: World, id: nat, now: int, s: Session, deed: Deed)
    requires Sole(w, id, s) && Allowed(cfg, s, deed) && Accepts(s, now, ChangesOf(cfg, s.held, deed))
    ensures Sole(Apply(cfg, w, DoStep(id, now, deed)), id, Advance(cfg, s, deed))
  {
  }

  lemma Asks(cfg: Config, steps: seq<Step>, id: nat, s: Session, reply: Reply) returns (longer: seq<Step>)
    requires Sole(Reached(cfg, steps), id, s) && s.due.Some?
    ensures Sole(Reached(cfg, longer), id, AfterCall(s, reply))
  {
    longer := steps + [CallStep(id, reply)];
    assert longer[..|steps|] == steps;
  }

  const SILENT := Reply(None, None, NoReceipt, None, None, AnswerRefused, false)

  // ------------------------------------------------------------------- from batch to batch

  /** The record with `i` batches published and `used` attempts spent. */
  predicate Holding(cfg: Config, r: Record, now: int, plan: Plan, goal: seq<Commit>, i: nat, used: nat, version: nat)
    requires i <= |goal|
  {
    && r.limits == cfg.approval.limits && now < r.leaseUntil <= r.deadline && now < r.deadline
    && r.plan == Some(plan) && r.commits == goal[..i] && r.batch == i && r.parentSha == ParentOf(cfg, goal, i)
    && Unmerged(r) && r.repairs == 0 && r.attempts == r.tokens == r.cost == used && r.version == version
  }

  /** Between two batches. */
  predicate Poised(cfg: Config, s: Session, now: int, plan: Plan, goal: seq<Commit>, i: nat)
    requires i <= |goal|
  {
    && Holding(cfg, s.held, now, plan, goal, i, i, 3 + 5 * i)
    && s.held.phase == Running && s.held.intent.None? && s.due.None? && s.attempts == []
  }

  /** An attempt has been paid for. */
  predicate Paid(cfg: Config, s: Session, now: int, plan: Plan, goal: seq<Commit>, i: nat)
    requires i < |goal|
  {
    && Holding(cfg, s.held, now, plan, goal, i, i + 1, 4 + 5 * i) && s.credit
    && s.held.phase == Running && s.held.intent.None? && s.due.None? && s.attempts == []
  }

  /** The implementation has been announced and answered. */
  predicate Built(cfg: Config, s: Session, now: int, plan: Plan, goal: seq<Commit>, i: nat)
    requires i < |goal|
  {
    && Holding(cfg, s.held, now, plan, goal, i, i + 1, 5 + 5 * i)
    && s.held.phase == Running && s.held.intent == Some(Implementation(i + 1, 0)) && s.due.None? && s.attempts == []
    && s.answer == Some(Implemented(i + 1, 0, Some(goal[i].artifact)))
  }

  /** The candidate has been frozen and the validator's receipt is in. */
  predicate Checked(cfg: Config, s: Session, now: int, plan: Plan, goal: seq<Commit>, i: nat)
    requires i < |goal|
  {
    var c := goal[i];
    && Holding(cfg, s.held, now, plan, goal, i, i + 1, 6 + 5 * i)
    && s.held.phase == Validating && s.held.intent == Some(Validation(c.receipt.candidate)) && s.due.None?
    && s.answer == Some(Validated(i + 1, s.held.parentSha, c.receipt.candidate, Signed(c.receipt.envelope)))
  }

  /** The publication has been announced and acknowledged. */
  predicate Pushed(cfg: Config, s: Session, now: int, plan: Plan, goal: seq<Commit>, i: nat)
    requires i < |goal|
  {
    var c := goal[i];
    && Holding(cfg, s.held, now, plan, goal, i, i + 1, 7 + 5 * i)
    && s.held.phase == Validating && s.held.intent.Some? && s.held.intent.value.Publish? && s.due.None?
    && s.held.intent.value.receipt == c.receipt && s.held.intent.value.artifact == c.artifact
    && s.answer == Some(Published(i + 1, s.held.parentSha, c.receipt.candidate, Some(c.publication)))
  }

  lemma Builds(cfg: Config, steps: seq<Step>, id: nat, now: int, s: Session, plan: Plan, goal: seq<Commit>, i: nat)
    returns (longer: seq<Step>, t: Session)
    requires i < |goal| == |plan| && Affordable(cfg, |plan|)
    requires Sole(Reached(cfg, steps), id, s) && Poised(cfg, s, now, plan, goal, i)
    ensures Sole(Reached(cfg, longer), id, t) && Built(cfg, t, now, plan, goal, i)
  {
    longer, t := Pays(cfg, steps, id, now, s, plan, goal, i);
    BuildAnnounced(cfg, t, now, plan, goal, i);
    longer := Does(cfg, longer, id, now, t, IntendImplement(0));
    t := Advance(cfg, t, IntendImplement(0));
    longer := Asks(cfg, longer, id, t, SILENT.(snapshot := Some(goal[i].artifact)));
    t := AfterCall(t, SILENT.(snapshot := Some(goal[i].artifact)));
  }

  lemma BuildAnnounced(cfg: Config, s: Session, now: int, plan: Plan, goal: seq<Commit>, i: nat)
    requires i < |goal| == |plan| && Affordable(cfg, |plan|) && Paid(cfg, s, now, plan, goal, i)
    ensures Allowed(cfg, s, IntendImplement(0)) && Accepts(s, now, ChangesOf(cfg, s.held, IntendImplement(0)))
    ensures var t := Advance(cfg, s, IntendImplement(0));
      && t.due == Some(CallImplement(i + 1, 0))
      && Built(cfg, AfterCall(t, SILENT.(snapshot := Some(goal[i].artifact))), now, plan, goal, i)
  {
  }

  lemma Pays(cfg: Config, steps: seq<Step>, id: nat, now: int, s: Session, plan: Plan, goal: seq<Commit>, i: nat)
    returns (longer: seq<Step>, t: Session)
    requires i < |goal| == |plan| && Affordable(cfg, |plan|)
    requires Sole(Reached(cfg, steps), id, s) && Poised(cfg, s, now, plan, goal, i)
    ensures Sole(Reached(cfg, longer), id, t) && Paid(cfg, t, now, plan, goal, i)
  {
    longer := Does(cfg, steps, id, now, s, Reserve(1, 1));
    t := Advance(cfg, s, Reserve(1, 1));
  }

  lemma Checks(cfg: Config, steps: seq<Step>, id: nat, now: int, s: Session, plan: Plan, goal: seq<Commit>, i: nat)
    returns (longer: seq<Step>, t: Session)
    requires i < |goal| == |plan| && Affordable(cfg, |plan|)
    requires Sole(Reached(cfg, steps), id, s) && Built(cfg, s, now, plan, goal, i)
    requires goal[i].receipt.candidate == CandidateOf(cfg, goal[i].artifact)
    ensures Sole(Reached(cfg, longer), id, t) && Checked(cfg, t, now, plan, goal, i)
  {
    var receipt := goal[i].receipt;
    longer := Does(cfg, steps, id, now, s, FreezeCandidate(0, receipt.candidate));
    t := Advance(cfg, s, FreezeCandidate(0, receipt.candidate));
    longer := Asks(cfg, longer, id, t, SILENT.(receipt := Signed(receipt.envelope)));
    t := AfterCall(t, SILENT.(receipt := Signed(receipt.envelope)));
  }

  lemma Pushes(cfg: Config, steps: seq<Step>, id: nat, now: int, s: Session, plan: Plan, goal: seq<Commit>, i: nat)
    returns (longer: seq<Step>, t: Session)
    requires i < |goal| == |plan| && Affordable(cfg, |plan|)
    requires Sole(Reached(cfg, steps), id, s) && Checked(cfg, s, now, plan, goal, i)
    requires Publishable(cfg, goal, i, now)
    ensures Sole(Reached(cfg, longer), id, t) && Pushed(cfg, t, now, plan, goal, i)
  {
    var c := goal[i];
    PushPermitted(cfg, s, now, plan, goal, i);
    PushAnnounced(cfg, s, now, plan, goal, i);
    longer := Does(cfg, steps, id, now, s, IntendPublish(c.receipt, c.artifact, now));
    t := Advance(cfg, s, IntendPublish(c.receipt, c.artifact, now));
    longer := Asks(cfg, longer, id, t, SILENT.(publication := Some(c.publication)));
    t := AfterCall(t, SILENT.(publication := Some(c.publication)));
  }

  lemma PushPermitted(cfg: Config, s: Session, now: int, plan: Plan, goal: seq<Commit>, i: nat)
    requires i < |goal| && Checked(cfg, s, now, plan, goal, i) && Publishable(cfg, goal, i, now)
    ensures Allowed(cfg, s, IntendPublish(goal[i].receipt, goal[i].artifact, now))
  {
    PushJustified(cfg, s, now, plan, goal, i);
    JustifiedMayPublish(cfg, s, goal[i].receipt, goal[i].artifact, now);
  }

  lemma PushJustified(cfg: Config, s: Session, now: int, plan: Plan, goal: seq<Commit>, i: nat)
    requires i < |goal| && Checked(cfg, s, now, plan, goal, i) && Publishable(cfg, goal, i, now)
    ensures PublishJustified(cfg, s, goal[i].receipt, goal[i].artifact, now)
  {
  }

  lemma PushAnnounced(cfg: Config, s: Session, now: int, plan: Plan, goal: seq<Commit>, i: nat)
    requires i < |goal| == |plan| && Affordable(cfg, |plan|)
    requires Checked(cfg, s, now, plan, goal, i)
    ensures Accepts(s, now, ChangesOf(cfg, s.held, IntendPublish(goal[i].receipt, goal[i].artifact, now)))
    ensures var t := Advance(cfg, s, IntendPublish(goal[i].receipt, goal[i].artifact, now));
      t.due == Some(CallPublish(i + 1, s.held.parentSha, goal[i].receipt.candidate))
      && Pushed(cfg, AfterCall(t, SILENT.(publication := Some(goal[i].publication))), now, plan, goal, i)
  {
  }

  lemma Lands(cfg: Config, steps: seq<Step>, id: nat, now: int, s: Session, plan: Plan, goal: seq<Commit>, i: nat)
    returns (longer: seq<Step>, t: Session)
    requires i < |goal| == |plan| && Affordable(cfg, |plan|)
    requires Sole(Reached(cfg, steps), id, s) && Pushed(cfg, s, now, plan, goal, i) && Answers(cfg, goal[i], i)
    ensures Sole(Reached(cfg, longer), id, t) && Poised(cfg, t, now, plan, goal, i + 1)
  {
    LandPermitted(cfg, s, now, plan, goal, i);
    LandRecorded(cfg, s, now, plan, goal, i);
    longer := Does(cfg, steps, id, now, s, RecordBatch(goal[i].publication));
    t := Advance(cfg, s, RecordBatch(goal[i].publication));
  }

  lemma LandPermitted(cfg: Config, s: Session, now: int, plan: Plan, goal: seq<Commit>, i: nat)
    requires i < |goal| && Pushed(cfg, s, now, plan, goal, i) && Answers(cfg, goal[i], i)
    ensures Allowed(cfg, s, RecordBatch(goal[i].publication))
  {
  }

  lemma LandRecorded(cfg: Config, s: Session, now: int, plan: Plan, goal: seq<Commit>, i: nat)
    requires i < |goal| == |plan| && Affordable(cfg, |plan|)
    requires Pushed(cfg, s, now, plan, goal, i) && Answers(cfg, goal[i], i)
    ensures Accepts(s, now, ChangesOf(cfg, s.held, RecordBatch(goal[i].publication)))
    ensures Poised(cfg, Advance(cfg, s, RecordBatch(goal[i].publication)), now, plan, goal, i + 1)
  {
    assert goal[i] == Commit(goal[i].publication, i + 1, goal[i].receipt, goal[i].artifact);
    assert goal[..i + 1] == goal[..i] + [goal[i]];
  }

  lemma ReceiptNames(cfg: Config, goal: seq<Commit>, i: nat, now: int)
    requires i < |goal| && Publishable(cfg, goal, i, now)
    ensures goal[i].receipt.candidate == CandidateOf(cfg, goal[i].artifact) && Answers(cfg, goal[i], i)
  {
  }

  /** Some interleaving leaves this worker between two batches, with `i` commits published. */
  ghost predicate Arrives(cfg: Config, id: nat, now: int, plan: Plan, goal: seq<Commit>, i: nat) {
    i <= |goal| && exists steps, s :: Sole(Reached(cfg, steps), id, s) && Poised(cfg, s, now, plan, goal, i)
  }

  /** One batch, from one commit to the next. */
  lemma PublishesNext(cfg: Config, id: nat, now: int, plan: Plan, goal: seq<Commit>, i: nat)
    requires i < |goal| == |plan| && Affordable(cfg, |plan|) && AllPublishable(cfg, goal, now)
    requires Arrives(cfg, id, now, plan, goal, i)
    ensures Arrives(cfg, id, now, plan, goal, i + 1)
  {
    var steps, s :| Sole(Reached(cfg, steps), id, s) && Poised(cfg, s, now, plan, goal, i);
    ReceiptNames(cfg, goal, i, now);
    steps, s := Builds(cfg, steps, id, now, s, plan, goal, i);
    steps, s := Checks(cfg, steps, id, now, s, plan, goal, i);
    steps, s := Pushes(cfg, steps, id, now, s, plan, goal, i);
    steps, s := Lands(cfg, steps, id, now, s, plan, goal, i);
  }

  lemma {:induction false} Climbs(holds: nat -> bool, n: nat)
    requires holds(0) && forall i | 0 <= i < n && holds(i) :: holds(i + 1)
    ensures holds(n)
  {
    if n > 0 {
      Climbs(holds, n - 1);
    }
  }

  lemma PublishesAll(cfg: Config, id: nat, now: int, plan: Plan, goal: seq<Commit>)
    requires |goal| == |plan| && Affordable(cfg, |plan|) && AllPublishable(cfg, goal, now)
    requires Arrives(cfg, id, now, plan, goal, 0)
    ensures Arrives(cfg, id, now, plan, goal, |goal|)
  {
    var holds := (i: nat) => Arrives(cfg, id, now, plan, goal, i);
    forall i | 0 <= i < |goal| && holds(i)
      ensures holds(i + 1)
    {
      PublishesNext(cfg, id, now, plan, goal, i);
    }
    Climbs(holds, |goal|);
  }

  // ------------------------------------------------------------------- beginning and end

  /** A worker claims the objective and freezes the plan. */
  lemma Begins(cfg: Config, id: nat, now: int, plan: Plan, goal: seq<Commit>) returns (steps: seq<Step>, t: Session)
    requires Enqueued(cfg) && Open(cfg, now) && PlanAccepted(plan, cfg.approval)
    ensures Sole(Reached(cfg, steps), id, t) && Poised(cfg, t, now, plan, goal, 0)
  {
    steps, t := Claims(cfg, id, now);
    steps := Does(cfg, steps, id, now, t, Start);
    t := Advance(cfg, t, Start);
    steps := Does(cfg, steps, id, now, t, FreezePlan(plan));
    t := Advance(cfg, t, FreezePlan(plan));
  }

  /** The session the first claim gives. */
  function Claimed(cfg: Config, now: int): Session {
    var r := Initial(cfg.approval, cfg.enqueuedAt);
    Session(r.(leaseOwner := Some("w"), generation := 1, leaseUntil := now + 1, phase := Admitted, version := 1),
            None, false, None, [])
  }

  lemma Claims(cfg: Config, id: nat, now: int) returns (steps: seq<Step>, t: Session)
    requires Enqueued(cfg) && Open(cfg, now)
    ensures Sole(Reached(cfg, steps), id, t) && t == Claimed(cfg, now)
  {
    steps := [ClaimStep(id, "w", now, 1)];
    t := Claimed(cfg, now);
    assert StripLeft("w") == "w" && StripRight("w") == "w";
    assert IsText("w", 128);
    assert steps[..0] == [] && Reached(cfg, []) == InitialWorld(cfg);
  }

  /** Merged, with the release still to come if the owner authorised one. */
  predicate HeadMerged(cfg: Config, s: Session, now: int, plan: Plan, goal: seq<Commit>, sha: string, version: nat) {
    var r := s.held;
    && r.limits == cfg.approval.limits && now < r.leaseUntil <= r.deadline && InBudget(r)
    && r.plan == Some(plan) && r.commits == goal && r.phase == Validating && r.intent.None?
    && r.mergeSha == Some(sha) && r.version == version && s.due.None?
  }

  lemma Endorses(cfg: Config, steps: seq<Step>, id: nat, now: int, s: Session, plan: Plan, goal: seq<Commit>,
                 e: Envelope<AcceptanceClaim>)
    returns (longer: seq<Step>, t: Session)
    requires Completable(cfg, plan, goal, e, now)
    requires Sole(Reached(cfg, steps), id, s) && Poised(cfg, s, now, plan, goal, |goal|)
    ensures Sole(Reached(cfg, longer), id, t) && Holding(cfg, t.held, now, plan, goal, |goal|, |goal|, 5 + 5 * |goal|)
    ensures t.held.phase == Validating && t.held.intent == Some(Intent.Merge(t.held.parentSha))
    ensures t.due == Some(CallMerge(t.held.parentSha))
  {
    longer, t := Submits(cfg, steps, id, now, s, plan, goal, e);
    AcceptancePermits(cfg, t, now, plan, goal, e);
    longer := Does(cfg, longer, id, now, t, IntendMerge(e));
    t := Advance(cfg, t, IntendMerge(e));
  }

  /** The validator has answered with this acceptance. */
  predicate Submitted(cfg: Config, s: Session, now: int, plan: Plan, goal: seq<Commit>, e: Envelope<AcceptanceClaim>) {
    && goal != [] && Holding(cfg, s.held, now, plan, goal, |goal|, |goal|, 4 + 5 * |goal|)
    && s.held.phase == Validating && s.held.intent == Some(Acceptance) && s.due.None?
    && s.answer == Some(Effect.Accepted(goal[|goal| - 1].publication.candidate, s.held.parentSha, Some(e)))
  }

  lemma Submits(cfg: Config, steps: seq<Step>, id: nat, now: int, s: Session, plan: Plan, goal: seq<Commit>,
                e: Envelope<AcceptanceClaim>)
    returns (longer: seq<Step>, t: Session)
    requires |goal| == |plan| && Affordable(cfg, |plan|)
    requires Sole(Reached(cfg, steps), id, s) && Poised(cfg, s, now, plan, goal, |goal|)
    ensures Sole(Reached(cfg, longer), id, t) && Submitted(cfg, t, now, plan, goal, e)
  {
    SubmitPermitted(cfg, s, now, plan, goal);
    longer := Does(cfg, steps, id, now, s, StartAcceptance);
    t := Advance(cfg, s, StartAcceptance);
    longer := Asks(cfg, longer, id, t, SILENT.(acceptance := Some(e)));
    t := AfterCall(t, SILENT.(acceptance := Some(e)));
  }

  lemma SubmitPermitted(cfg: Config, s: Session, now: int, plan: Plan, goal: seq<Commit>)
    requires |goal| == |plan| && Affordable(cfg, |plan|) && Poised(cfg, s, now, plan, goal, |goal|)
    ensures Allowed(cfg, s, StartAcceptance) && Accepts(s, now, ChangesOf(cfg, s.held, StartAcceptance))
    ensures var t := Advance(cfg, s, StartAcceptance);
      && Holding(cfg, t.held, now, plan, goal, |goal|, |goal|, 4 + 5 * |goal|)
      && t.held.phase == Validating && t.held.intent == Some(Acceptance)
      && t.due == Some(CallAccept(goal[|goal| - 1].publication.candidate, t.held.parentSha))
  {
    assert goal[..|goal|] == goal;
  }

  lemma AcceptancePermits(cfg: Config, s: Session, now: int, plan: Plan, goal: seq<Commit>,
                          e: Envelope<AcceptanceClaim>)
    requires Completable(cfg, plan, goal, e, now) && Submitted(cfg, s, now, plan, goal, e)
    ensures Allowed(cfg, s, IntendMerge(e))
  {
    assert goal[..|goal|] == goal;
    assert MergeEvidence(cfg, s, e);
  }

  lemma Merges(cfg: Config, steps: seq<Step>, id: nat, now: int, s: Session, plan: Plan, goal: seq<Commit>,
               sha: string)
    returns (longer: seq<Step>, t: Session)
    requires |goal| == |plan| && Affordable(cfg, |plan|) && IsSha(sha, 40)
    requires Sole(Reached(cfg, steps), id, s) && Holding(cfg, s.held, now, plan, goal, |goal|, |goal|, 5 + 5 * |goal|)
    requires s.held.phase == Validating && s.held.intent == Some(Intent.Merge(s.held.parentSha))
    requires s.due == Some(CallMerge(s.held.parentSha))
    ensures Sole(Reached(cfg, longer), id, t) && HeadMerged(cfg, t, now, plan, goal, sha, 6 + 5 * |goal|)
    ensures !t.held.released
  {
    assert goal[..|goal|] == goal;
    longer := Asks(cfg, steps, id, s, SILENT.(merge := AnswerMerged(sha)));
    t := AfterCall(s, SILENT.(merge := AnswerMerged(sha)));
    longer := Does(cfg, longer, id, now, t, RecordMerge(sha));
    t := Advance(cfg, t, RecordMerge(sha));
  }

  lemma Releases(cfg: Config, steps: seq<Step>, id: nat, now: int, s: Session, plan: Plan, goal: seq<Commit>,
                 sha: string)
    returns (longer: seq<Step>, t: Session)
    requires Affordable(cfg, |goal|) && cfg.approval.releaseAuthorized && !s.held.released
    requires Sole(Reached(cfg, steps), id, s) && HeadMerged(cfg, s, now, plan, goal, sha, 6 + 5 * |goal|)
    ensures Sole(Reached(cfg, longer), id, t) && HeadMerged(cfg, t, now, plan, goal, sha, 8 + 5 * |goal|)
    ensures t.held.released
  {
    longer, t := AsksRelease(cfg, steps, id, now, s, plan, goal, sha);
    longer := Does(cfg, longer, id, now, t, RecordRelease);
    t := Advance(cfg, t, RecordRelease);
  }

  lemma AsksRelease(cfg: Config, steps: seq<Step>, id: nat, now: int, s: Session, plan: Plan, goal: seq<Commit>,
                    sha: string)
    returns (longer: seq<Step>, t: Session)
    requires Affordable(cfg, |goal|) && cfg.approval.releaseAuthorized && !s.held.released
    requires Sole(Reached(cfg, steps), id, s) && HeadMerged(cfg, s, now, plan, goal, sha, 6 + 5 * |goal|)
    ensures Sole(Reached(cfg, longer), id, t) && t.held.intent == Some(Release(cfg.approval.releaseTag))
    ensures HeadMerged(cfg, t.(held := t.held.(intent := None)), now, plan, goal, sha, 7 + 5 * |goal|)
    ensures t.answer == Some(ReleaseRequested(cfg.approval.releaseTag, true))
  {
    longer := Does(cfg, steps, id, now, s, IntendRelease);
    t := Advance(cfg, s, IntendRelease);
    longer := Asks(cfg, longer, id, t, SILENT.(released := true));
    t := AfterCall(t, SILENT.(released := true));
  }

  lemma Completes(cfg: Config, steps: seq<Step>, id: nat, now: int, s: Session, plan: Plan, goal: seq<Commit>,
                  sha: string)
    returns (longer: seq<Step>)
    requires Affordable(cfg, |goal|) && !s.held.released
    requires Sole(Reached(cfg, steps), id, s) && HeadMerged(cfg, s, now, plan, goal, sha, 6 + 5 * |goal|)
    ensures CompletedWith(Reached(cfg, longer).record, plan, goal, sha, cfg.approval.releaseAuthorized)
  {
    longer := steps;
    var t := s;
    if cfg.approval.releaseAuthorized {
      longer, t := Releases(cfg, steps, id, now, s, plan, goal, sha);
    }
    longer := Does(cfg, longer, id, now, t, Complete);
  }

  predicate CompletedWith(r: Record, plan: Plan, goal: seq<Commit>, sha: string, released: bool) {
    r.phase == Completed && r.plan == Some(plan) && r.commits == goal && r.mergeSha == Some(sha)
        && r.released == released
  }

  /** The converse of `CompletedMeansMerged`: whatever accepted plan, chain of verified commits and
      acceptance there is, some interleaving completes the objective with exactly these. */
  lemma CanComplete(cfg: Config, plan: Plan, goal: seq<Commit>, e: Envelope<AcceptanceClaim>, sha: string, now: int)
    requires Enqueued(cfg) && Open(cfg, now) && Completable(cfg, plan, goal, e, now) && IsSha(sha, 40)
    ensures exists steps ::
      CompletedWith(Reached(cfg, steps).record, plan, goal, sha, cfg.approval.releaseAuthorized)
  {
    var steps, s := Begins(cfg, 0, now, plan, goal);
    PublishesAll(cfg, 0, now, plan, goal);
    steps, s :| Sole(Reached(cfg, steps), 0, s) && Poised(cfg, s, now, plan, goal, |goal|);
    steps, s := Endorses(cfg, steps, 0, now, s, plan, goal, e);
    steps, s := Merges(cfg, steps, 0, now, s, plan, goal, sha);
    steps := Completes(cfg, steps, 0, now, s, plan, goal, sha);
  }
}
