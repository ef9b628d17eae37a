/** What every interleaving of workers, crashes and adapters guarantees about an objective. */
module Guarantees {
  import opened Results
  import opened Candidates
  import opened Objectives
  import opened Records
  import opened Protocol
  import opened Provenance

  // --------------------------------------------------------------------- publication

  /** At most once: over every interleaving no batch number is ever published twice, and the
      only number that can be ahead of the record is the next one. */
  lemma AtMostOncePerBatch(cfg: Config, steps: seq<Step>, i: nat, j: nat)
    requires i < |Reached(cfg, steps).effects| && Reached(cfg, steps).effects[i].Published?
    requires j < |Reached(cfg, steps).effects| && Reached(cfg, steps).effects[j].Published?
    requires Reached(cfg, steps).effects[i].batch == Reached(cfg, steps).effects[j].batch
    ensures i == j
    ensures Reached(cfg, steps).effects[i].batch <= Reached(cfg, steps).record.batch + 1
  {
    ReachedInv(cfg, steps);
  }

  /** The record's counters describe the chain of commits at every moment. */
  lemma BatchCountsCommits(cfg: Config, steps: seq<Step>)
    ensures var r := Reached(cfg, steps).record;
      r.batch == |r.commits| && r.parentSha == ParentOf(cfg, r.commits, |r.commits|)
  {
    ReachedInv(cfg, steps);
  }

  /** None of the seven announced calls is ever made without exactly its own intent standing in
      the record. */
  lemma IntentPrecedesCall(cfg: Config, steps: seq<Step>, id: nat)
    requires CallsOut(Reached(cfg, steps), id)
    ensures DueMatches(cfg, Reached(cfg, steps).sessions[id].due.value, Reached(cfg, steps).record)
  {
    ReachedInv(cfg, steps);
  }

  /** Crash safety in one line: once a publication was requested and not yet recorded, no
      later claim ever obtains a session again. */
  lemma UncertainPublicationBlocks(cfg: Config, steps: seq<Step>, i: nat, id: nat, worker: string, now: int, lease: int)
    requires i < |Reached(cfg, steps).effects|
    requires Publishes(Reached(cfg, steps).effects[i], Reached(cfg, steps).record.batch + 1)
    ensures Apply(cfg, Reached(cfg, steps), ClaimStep(id, worker, now, lease)).sessions == Reached(cfg, steps).sessions
  {
    ReachedInv(cfg, steps);
    PublishStands(Reached(cfg, steps), i);
    PendingGivesNoSession(cfg, Reached(cfg, steps), id, worker, now, lease);
  }

  lemma PendingGivesNoSession(cfg: Config, w: World, id: nat, worker: string, now: int, lease: int)
    requires w.record.intent.Some?
    ensures Apply(cfg, w, ClaimStep(id, worker, now, lease)).sessions == w.sessions
  {
  }

  lemma PublishStands(w: World, i: nat)
    requires PublishedOnce(w) && i < |w.effects| && Publishes(w.effects[i], w.record.batch + 1)
    ensures w.record.intent.Some?
  {
  }

  // -------------------------------------------------------------------------- budgets

  lemma ApplyFollows(cfg: Config, w: World, step: Step)
    ensures Follows(w.record, Apply(cfg, w, step).record)
    ensures InBudget(w.record) ==> InBudget(Apply(cfg, w, step).record)
  {
    match step
    case ClaimStep(id, worker, now, leaseSeconds) => MutateFollows(w.record, ClaimBy(worker, now, leaseSeconds));
    case DoStep(id, now, deed) => DoFollows(cfg, w, id, now, deed);
    case CallStep(_, _) =>
    case CrashStep(_) =>
    case ExpireStep(now) => MutateFollows(w.record, ExpireAt(now));
  }

  lemma DoFollows(cfg: Config, w: World, id: nat, now: int, deed: Deed)
    ensures Follows(w.record, Apply(cfg, w, DoStep(id, now, deed)).record)
    ensures InBudget(w.record) ==> InBudget(Apply(cfg, w, DoStep(id, now, deed)).record)
  {
    if id in w.sessions {
      var h := w.sessions[id].held;
      MutateFollows(w.record, UpdateBy(h.leaseOwner, h.generation, h.version, now, ChangesOf(cfg, h, deed)));
    }
  }

  /** The owner's approval was active when it was enqueued. */
  predicate Enqueued(cfg: Config) {
    && cfg.approval.approvedAt <= cfg.enqueuedAt < cfg.approval.expiresAt && 0 <= cfg.enqueuedAt
    && 0 < cfg.approval.limits.maxWallSeconds
  }

  lemma {:induction false} ReachedInBudget(cfg: Config, steps: seq<Step>)
    requires Enqueued(cfg)
    ensures InBudget(Reached(cfg, steps).record)
    ensures Reached(cfg, steps).record.limits == cfg.approval.limits
    decreases |steps|
  {
    if steps == [] {
      InitialInBudget(cfg.approval, cfg.enqueuedAt);
    } else {
      ReachedInBudget(cfg, steps[..|steps| - 1]);
      ApplyFollows(cfg, Reached(cfg, steps[..|steps| - 1]), steps[|steps| - 1]);
    }
  }

  /** Signed budgets bound real work: over the whole life of an objective, across crashes and
      resumptions, planning and implementation calls never outnumber the signed attempts. */
  lemma WorkWithinBudget(cfg: Config, steps: seq<Step>)
    requires Enqueued(cfg)
    ensures WorkDone(Reached(cfg, steps).effects) <= Reached(cfg, steps).record.attempts
      <= cfg.approval.limits.maxAttempts
  {
    ReachedInv(cfg, steps);
    ReachedInBudget(cfg, steps);
  }

  predicate AttemptInRange(cfg: Config, e: Effect) {
    e.Implemented? ==> 0 <= e.attempt <= cfg.approval.limits.maxRepairsPerBatch
  }

  /** No batch is ever given more repairs than the owner signed for: attempts are numbered from
      zero to that limit, and by `EachAttemptOnce` no number is used twice. */
  lemma {:induction false} AttemptsWithinLimit(cfg: Config, steps: seq<Step>)
    requires Enqueued(cfg)
    ensures forall i | 0 <= i < |Reached(cfg, steps).effects| :: AttemptInRange(cfg, Reached(cfg, steps).effects[i])
    decreases |steps|
  {
    if steps != [] {
      var before := steps[..|steps| - 1];
      var w := Reached(cfg, before);
      AttemptsWithinLimit(cfg, before);
      ReachedInv(cfg, before);
      ReachedInBudget(cfg, before);
      var step := steps[|steps| - 1];
      if step.CallStep? && CallsOut(w, step.id) {
        NewAttemptInRange(cfg, w, step.id, step.reply);
        CallStepShape(cfg, w, step.id, step.reply);
      } else {
        assert Apply(cfg, w, step).effects == w.effects;
      }
    }
  }

  lemma NewAttemptInRange(cfg: Config, w: World, id: nat, reply: Reply)
    requires Announced(cfg, w) && IntentSound(w.record) && InBudget(w.record) && CallsOut(w, id)
    requires w.record.limits == cfg.approval.limits
    ensures AttemptInRange(cfg, EffectOf(w.sessions[id].due.value, reply))
  {
    assert DueMatches(cfg, w.sessions[id].due.value, w.record);
  }

  // ------------------------------------------------------- finality of what was published

  /** What was published stays as recorded: commits are only ever appended, and once there is
      one, the plan is fixed. */
  predicate Continues(r: Record, later: Record) {
    && r.commits <= later.commits
    && (r.commits != [] ==> later.plan == r.plan)
    && (r.mergeSha.Some? ==> later.mergeSha == r.mergeSha)
  }

  lemma DeedContinues(cfg: Config, s: Session, deed: Deed)
    requires Allowed(cfg, s, deed)
    ensures Continues(s.held, Advance(cfg, s, deed).held)
  {
  }

  lemma ApplyContinues(cfg: Config, w: World, step: Step)
    requires Holders(w) && Announced(cfg, w)
    ensures Continues(w.record, Apply(cfg, w, step).record)
  {
    if step.DoStep? {
      DoContinues(cfg, w, step.id, step.now, step.deed);
    } else if !step.CallStep? {
      OthersContinue(cfg, w, step);
    }
  }

  lemma DoContinues(cfg: Config, w: World, id: nat, now: int, deed: Deed)
    requires Holders(w) && Announced(cfg, w)
    ensures Continues(w.record, Apply(cfg, w, DoStep(id, now, deed)).record)
  {
    if Performs(cfg, w, id, now, deed) {
      PerformerHolds(cfg, w, id, now, deed);
      DeedContinues(cfg, w.sessions[id], deed);
    }
  }

  lemma OthersContinue(cfg: Config, w: World, step: Step)
    requires !step.DoStep? && !step.CallStep?
    ensures Continues(w.record, Apply(cfg, w, step).record)
  {
  }

  lemma {:induction false} PublishedHistoryIsFinal(cfg: Config, steps: seq<Step>, more: seq<Step>)
    ensures Continues(Reached(cfg, steps).record, Reached(cfg, steps + more).record)
    decreases |more|
  {
    if more == [] {
      assert steps + more == steps;
    } else {
      var before := steps + more[..|more| - 1];
      assert (steps + more)[..|steps + more| - 1] == before;
      PublishedHistoryIsFinal(cfg, steps, more[..|more| - 1]);
      ReachedInv(cfg, before);
      ApplyContinues(cfg, Reached(cfg, before), more[|more| - 1]);
    }
  }

  // ------------------------------------------------------------- when a plan may change

  /** The worker holds the current record, alive and between two batches. */
  predicate ReadyToPlan(cfg: Config, w: World, id: nat, now: int) {
    && id in w.sessions && w.sessions[id].held == w.record && w.sessions[id].due.None?
    && Readable(w.record) && w.record.phase == Running && w.record.intent.None? && Unmerged(w.record)
    && now < w.record.leaseUntil <= w.record.deadline
    && InBudget(w.record)
  }

  /** A worker that is ready to freeze an acceptable plan may do so exactly while nothing is
      published yet, or if it is the plan already recorded. */
  lemma PlanFreezesIff(cfg: Config, w: World, id: nat, now: int, plan: Plan)
    requires ReadyToPlan(cfg, w, id, now)
    ensures Performs(cfg, w, id, now, FreezePlan(plan)) <==>
      PlanAccepted(plan, cfg.approval) && (w.record.commits == [] || w.record.plan == Some(plan))
    ensures Performs(cfg, w, id, now, FreezePlan(plan)) ==>
      Apply(cfg, w, DoStep(id, now, FreezePlan(plan))).record.plan == Some(plan)
  {
  }

  /** One worker claims, starts and freezes a plan, and is gone. */
  function FreezeOnce(id: nat, now: int, plan: Plan): seq<Step> {
    [ClaimStep(id, "w", now, 1), DoStep(id, now, Start), DoStep(id, now, FreezePlan(plan)), CrashStep(id)]
  }

  /** Nothing is published, and nobody holds a lease at this moment. */
  predicate Idle(cfg: Config, w: World, id: nat, now: int) {
    && id !in w.sessions && w.record.phase in {Pending, Running}
    && w.record.intent.None? && w.record.commits == [] && Unmerged(w.record)
    && w.record.leaseUntil <= now < now + 1 <= w.record.deadline && 0 <= now <= MAX_TIME
    && w.record.version + 3 < MAX_HISTORY && InBudget(w.record)
  }

  lemma ClaimStarts(cfg: Config, w: World, id: nat, now: int)
    requires Idle(cfg, w, id, now)
    ensures var v := Apply(cfg, w, ClaimStep(id, "w", now, 1));
      && v.sessions.Keys == w.sessions.Keys + {id} && v.sessions[id] == Session(v.record, None, false, None, [])
      && v.record == w.record.(leaseOwner := Some("w"), generation := w.record.generation + 1, leaseUntil := now + 1,
                               phase := if w.record.phase == Pending then Admitted else Running,
                               version := w.record.version + 1)
  {
    assert StripLeft("w") == "w" && StripRight("w") == "w";
    assert IsText("w", 128);
  }

  lemma StartRuns(cfg: Config, w: World, id: nat, now: int)
    requires id in w.sessions && w.sessions[id] == Session(w.record, None, false, None, [])
    requires w.record.phase in {Admitted, Running} && w.record.intent.None? && Unmerged(w.record)
      && w.record.commits == []
    requires now < w.record.leaseUntil <= w.record.deadline && w.record.version + 1 < MAX_HISTORY && InBudget(w.record)
    ensures var v := Apply(cfg, w, DoStep(id, now, Start));
      && v.record == w.record.(phase := Running, version := w.record.version + 1)
      && v.sessions.Keys == w.sessions.Keys && v.sessions[id] == Session(v.record, None, false, None, [])
  {
  }

  lemma FreezeOnceFreezes(cfg: Config, w: World, id: nat, now: int, plan: Plan)
    requires Idle(cfg, w, id, now) && PlanAccepted(plan, cfg.approval)
    ensures var v := ApplyAll(cfg, w, FreezeOnce(id, now, plan));
      && v.record.plan == Some(plan) && id !in v.sessions
      && v.record.phase == Running && v.record.intent.None? && v.record.commits == [] && Unmerged(v.record)
      && v.record.leaseUntil == now + 1 && v.record.deadline == w.record.deadline
      && v.record.version == w.record.version + 3 && InBudget(v.record)
      && v.sessions.Keys == w.sessions.Keys
  {
    var a := Apply(cfg, w, ClaimStep(id, "w", now, 1));
    ClaimStarts(cfg, w, id, now);
    var b := Apply(cfg, a, DoStep(id, now, Start));
    StartRuns(cfg, a, id, now);
    FreezeOnceUnfolds(cfg, w, id, now, plan);
    FreezeRecords(cfg, b, id, now, plan);
  }

  lemma FreezeRecords(cfg: Config, w: World, id: nat, now: int, plan: Plan)
    requires ReadyToPlan(cfg, w, id, now) && w.record.commits == [] && PlanAccepted(plan, cfg.approval)
    ensures var v := Apply(cfg, w, DoStep(id, now, FreezePlan(plan)));
      && v.record == w.record.(plan := Some(plan), version := w.record.version + 1)
      && v.sessions.Keys == w.sessions.Keys
  {
    PlanFreezesIff(cfg, w, id, now, plan);
  }

  function ApplyAll(cfg: Config, w: World, steps: seq<Step>): World
    decreases |steps|
  {
    if steps == [] then w else ApplyAll(cfg, Apply(cfg, w, steps[0]), steps[1..])
  }

  lemma FreezeOnceUnfolds(cfg: Config, w: World, id: nat, now: int, plan: Plan)
    ensures ApplyAll(cfg, w, FreezeOnce(id, now, plan)) ==
      Apply(cfg, Apply(cfg, Apply(cfg, Apply(cfg, w, ClaimStep(id, "w", now, 1)), DoStep(id, now, Start)),
                       DoStep(id, now, FreezePlan(plan))), CrashStep(id))
  {
    var a, b, c, d := ClaimStep(id, "w", now, 1), DoStep(id, now, Start), DoStep(id, now, FreezePlan(plan)),
        CrashStep(id);
    var w1 := Apply(cfg, w, a);
    var w2 := Apply(cfg, w1, b);
    assert FreezeOnce(id, now, plan) == [a] + ([b] + ([c] + ([d] + [])));
    ApplyFirst(cfg, w, a, [b] + ([c] + ([d] + [])));
    ApplyFirst(cfg, w1, b, [c] + ([d] + []));
    ApplyFirst(cfg, w2, c, [d] + []);
    ApplyFirst(cfg, Apply(cfg, w2, c), d, []);
  }

  lemma ApplyFirst(cfg: Config, w: World, step: Step, rest: seq<Step>)
    ensures ApplyAll(cfg, w, [step] + rest) == ApplyAll(cfg, Apply(cfg, w, step), rest)
  {
    assert ([step] + rest)[1..] == rest;
  }

  lemma {:induction false} ReachedOnwards(cfg: Config, steps: seq<Step>, more: seq<Step>)
    ensures Reached(cfg, steps + more) == ApplyAll(cfg, Reached(cfg, steps), more)
    decreases |more|
  {
    if more == [] {
      assert steps + more == steps;
    } else {
      assert steps + more == (steps + [more[0]]) + more[1..];
      assert (steps + [more[0]])[..|steps|] == steps;
      ReachedOnwards(cfg, steps + [more[0]], more[1..]);
    }
  }

  /** A frozen plan can be replaced before the first commit: one worker freezes `p` and dies,
      the next freezes `q`, for any two acceptable plans. */
  lemma PlanCanBeReplaced(cfg: Config, p: Plan, q: Plan)
    requires PlanAccepted(p, cfg.approval) && PlanAccepted(q, cfg.approval) && Enqueued(cfg)
    requires cfg.enqueuedAt + 2 <= cfg.approval.expiresAt && cfg.enqueuedAt < MAX_TIME
    requires 2 <= cfg.approval.limits.maxWallSeconds
    ensures var first := FreezeOnce(0, cfg.enqueuedAt, p); var second := FreezeOnce(1, cfg.enqueuedAt + 1, q);
      Reached(cfg, first).record.plan == Some(p) && Reached(cfg, first + second).record.plan == Some(q)
  {
    var first := FreezeOnce(0, cfg.enqueuedAt, p);
    var second := FreezeOnce(1, cfg.enqueuedAt + 1, q);
    assert [] + first == first;
    ReachedOnwards(cfg, [], first);
    ReachedOnwards(cfg, first, second);
    StartsIdle(cfg, 0);
    FreezeOnceFreezes(cfg, InitialWorld(cfg), 0, cfg.enqueuedAt, p);
    FreezeOnceFreezes(cfg, Reached(cfg, first), 1, cfg.enqueuedAt + 1, q);
  }

  lemma StartsIdle(cfg: Config, id: nat)
    requires Enqueued(cfg) && cfg.enqueuedAt + 2 <= cfg.approval.expiresAt && cfg.enqueuedAt < MAX_TIME
    requires 2 <= cfg.approval.limits.maxWallSeconds
    ensures Idle(cfg, InitialWorld(cfg), id, cfg.enqueuedAt)
    ensures cfg.enqueuedAt + 2 <= InitialWorld(cfg).record.deadline
  {
    InitialInBudget(cfg.approval, cfg.enqueuedAt);
  }

  // ------------------------------------------------------------- merge, release, completion

  /** At most one merge is ever acknowledged. */
  lemma AtMostOneMerge(cfg: Config, steps: seq<Step>, i: nat, j: nat)
    requires i < |Reached(cfg, steps).effects| && Reached(cfg, steps).effects[i].MergeAcknowledged?
    requires j < |Reached(cfg, steps).effects| && Reached(cfg, steps).effects[j].MergeAcknowledged?
    ensures i == j
  {
    ReachedInv(cfg, steps);
  }

  /** Whenever a merge may be requested, every planned batch has been published, the head to be
      merged is the last verified commit, and the validator has accepted the objective there. */
  lemma MergeOnlyWhenComplete(cfg: Config, steps: seq<Step>, id: nat)
    requires CallsOut(Reached(cfg, steps), id) && Reached(cfg, steps).sessions[id].due.value.CallMerge?
    ensures var w := Reached(cfg, steps); var r := w.record;
      && r.plan.Some? && PlanAccepted(r.plan.value, cfg.approval) && |r.commits| == |r.plan.value|
      && w.sessions[id].due == Some(CallMerge(r.commits[|r.commits| - 1].publication.commitSha))
      && r.intent == Some(Intent.Merge(r.commits[|r.commits| - 1].publication.commitSha))
      && AcceptedBefore(cfg, w.effects, LastCandidate(r), r.parentSha)
  {
    ReachedInv(cfg, steps);
    ReachedTraced(cfg, steps);
    var w := Reached(cfg, steps);
    assert DueMatches(cfg, w.sessions[id].due.value, w.record);
  }

  predicate IsRelease(e: Effect) {
    e.ReleaseRequested?
  }

  ghost predicate ReleasedOnce(cfg: Config, w: World) {
    && (forall i, j | 0 <= i < j < |w.effects| && IsRelease(w.effects[i]) :: !IsRelease(w.effects[j]))
    && ((exists i | 0 <= i < |w.effects| :: IsRelease(w.effects[i])) ==>
          && cfg.approval.releaseAuthorized
          && (|| w.record.released
              || (&& w.record.intent.Some? && w.record.intent.value.Release?
                  && forall id | CallsOut(w, id) :: !w.sessions[id].due.value.CallRelease?)))
  }

  lemma CallKeepsReleased(cfg: Config, w: World, v: World, id: nat, e: Effect)
    requires Announced(cfg, w) && HeadSound(cfg, w.record) && ReleasedOnce(cfg, w) && AfterCalling(w, v, id, e)
    requires IsRelease(e) <==> w.sessions[id].due.value.CallRelease?
    requires IsRelease(e) ==> v.sessions[id].due.None?
    ensures ReleasedOnce(cfg, v)
  {
    assert forall other :: CallsOut(v, other) ==> CallsOut(w, other);
    assert DueMatches(cfg, w.sessions[id].due.value, w.record);
    assert IsRelease(e) ==> forall i | 0 <= i < |w.effects| :: !IsRelease(w.effects[i]);
  }

  lemma DoKeepsReleased(cfg: Config, w: World, v: World, id: nat, deed: Deed)
    requires ReleasedOnce(cfg, w) && AfterDeed(cfg, w, v, id, deed)
    ensures ReleasedOnce(cfg, v)
  {
    assert forall other :: CallsOut(v, other) ==> other == id;
    assert w.sessions[id].due.Some? ==> CallsOut(w, id);
    ReleaseStands(cfg, w.sessions[id], deed);
  }

  lemma ReleaseStands(cfg: Config, s: Session, deed: Deed)
    requires Allowed(cfg, s, deed)
    requires s.due.Some? ==> DueMatches(cfg, s.due.value, s.held)
    ensures var n := Advance(cfg, s, deed);
      && (s.held.released ==> n.held.released)
      && (s.held.intent.Some? && s.held.intent.value.Release? && !n.held.released ==>
            && n.held.intent == s.held.intent
            && (n.due.Some? && n.due.value.CallRelease? ==> s.due.Some? && s.due.value.CallRelease?))
  {
  }

  lemma StepKeepsReleased(cfg: Config, w: World, step: Step)
    requires Holders(w) && Announced(cfg, w) && HeadSound(cfg, w.record) && ReleasedOnce(cfg, w)
    ensures ReleasedOnce(cfg, Apply(cfg, w, step))
  {
    if step.DoStep? {
      if Performs(cfg, w, step.id, step.now, step.deed) {
        DeedShape(cfg, w, step.id, step.now, step.deed);
        DoKeepsReleased(cfg, w, Apply(cfg, w, step), step.id, step.deed);
      }
    } else if step.CallStep? {
      if CallsOut(w, step.id) {
        MadeCallKeepsReleased(cfg, w, step.id, step.reply);
      }
    } else {
      OthersKeepReleased(cfg, w, step);
    }
  }

  lemma MadeCallKeepsReleased(cfg: Config, w: World, id: nat, reply: Reply)
    requires Announced(cfg, w) && HeadSound(cfg, w.record) && ReleasedOnce(cfg, w) && CallsOut(w, id)
    ensures ReleasedOnce(cfg, Apply(cfg, w, CallStep(id, reply)))
  {
    CallStepShape(cfg, w, id, reply);
    CallKeepsReleased(cfg, w, Apply(cfg, w, CallStep(id, reply)), id, EffectOf(w.sessions[id].due.value, reply));
  }

  lemma OthersKeepReleased(cfg: Config, w: World, step: Step)
    requires ReleasedOnce(cfg, w) && !step.DoStep? && !step.CallStep?
    ensures ReleasedOnce(cfg, Apply(cfg, w, step))
  {
    var v := Apply(cfg, w, step);
    OthersKeepContent(cfg, w, step);
    assert w.record.intent.Some? ==> forall id :: CallsOut(v, id) ==>
      CallsOut(w, id) && v.sessions[id] == w.sessions[id];
  }

  lemma {:induction false} ReachedReleased(cfg: Config, steps: seq<Step>)
    ensures ReleasedOnce(cfg, Reached(cfg, steps))
    decreases |steps|
  {
    if steps != [] {
      var before := steps[..|steps| - 1];
      ReachedReleased(cfg, before);
      ReachedInv(cfg, before);
      StepKeepsReleased(cfg, Reached(cfg, before), steps[|steps| - 1]);
    }
  }

  /** At most one release is ever requested, and only if the owner authorised it. */
  lemma AtMostOneRelease(cfg: Config, steps: seq<Step>, i: nat, j: nat)
    requires i < |Reached(cfg, steps).effects| && Reached(cfg, steps).effects[i].ReleaseRequested?
    requires j < |Reached(cfg, steps).effects| && Reached(cfg, steps).effects[j].ReleaseRequested?
    ensures i == j && cfg.approval.releaseAuthorized
  {
    ReachedReleased(cfg, steps);
    var effects := Reached(cfg, steps).effects;
    assert IsRelease(effects[i]) && IsRelease(effects[j]);
  }

  /** A completed objective has published its whole plan, which covers every approved criterion;
      it was accepted and merged exactly once at its last commit, and released where authorised. */
  lemma CompletedMeansMerged(cfg: Config, steps: seq<Step>)
    requires Reached(cfg, steps).record.phase == Completed
    ensures var w := Reached(cfg, steps); var r := w.record;
      && r.plan.Some? && PlanAccepted(r.plan.value, cfg.approval) && |r.commits| == |r.plan.value|
      && r.mergeSha.Some? && AcceptedBefore(cfg, w.effects, LastCandidate(r), r.parentSha)
      && (forall head, sha :: MergeAcknowledged(head, sha) in w.effects <==>
            head == r.parentSha && r.mergeSha == Some(sha))
      && (cfg.approval.releaseAuthorized ==> ReleaseRequested(cfg.approval.releaseTag, true) in w.effects)
  {
    ReachedInv(cfg, steps);
    ReachedTraced(cfg, steps);
    MergeUnique(Reached(cfg, steps));
  }

  lemma MergeUnique(w: World)
    requires MergedOnce(w) && w.record.mergeSha.Some?
    requires MergeAcknowledged(w.record.parentSha, w.record.mergeSha.value) in w.effects
    ensures forall head, sha :: MergeAcknowledged(head, sha) in w.effects <==>
      head == w.record.parentSha && w.record.mergeSha == Some(sha)
  {
    var i :| 0 <= i < |w.effects| && w.effects[i] == MergeAcknowledged(w.record.parentSha, w.record.mergeSha.value);
    forall head, sha | MergeAcknowledged(head, sha) in w.effects
      ensures head == w.record.parentSha && w.record.mergeSha == Some(sha)
    {
      var j :| 0 <= j < |w.effects| && w.effects[j] == MergeAcknowledged(head, sha);
      assert i == j;
    }
  }

  // ------------------------------------------------------------- when a stopped run blocks

  /** Whoever has a session has claimed the objective. */
  ghost predicate NobodyPending(w: World) {
    forall id | id in w.sessions :: w.sessions[id].held.phase != Pending
  }

  lemma StepKeepsAdmitted(cfg: Config, w: World, step: Step)
    requires NobodyPending(w)
    ensures NobodyPending(Apply(cfg, w, step))
  {
    if step.DoStep? {
      if Performs(cfg, w, step.id, step.now, step.deed) {
        AdvanceAdmitted(cfg, w.sessions[step.id], step.deed);
      }
    }
  }

  lemma AdvanceAdmitted(cfg: Config, s: Session, deed: Deed)
    requires s.held.phase != Pending
    ensures Advance(cfg, s, deed).held.phase != Pending
  {
  }

  lemma {:induction false} ReachedAdmitted(cfg: Config, steps: seq<Step>)
    ensures NobodyPending(Reached(cfg, steps))
    decreases |steps|
  {
    if steps != [] {
      ReachedAdmitted(cfg, steps[..|steps| - 1]);
      StepKeepsAdmitted(cfg, Reached(cfg, steps[..|steps| - 1]), steps[|steps| - 1]);
    }
  }

  /** The first 1024 characters of what stopped the run. */
  function Clipped(reason: string): string {
    if |reason| <= 1024 then reason else reason[..1024]
  }

  /** The worker still holds the open record under a lease that has not run out. */
  predicate LeaseLive(w: World, id: nat, now: int) {
    && id in w.sessions && w.sessions[id].held.version == w.record.version
    && Readable(w.record) && !w.record.Terminal() && now < w.record.leaseUntil
  }

  /** The recovery poll closes a record past its deadline, or one whose lease ran out over an intent. */
  predicate TimedOut(r: Record, now: int) {
    Readable(r) && !r.Terminal() && (now >= r.deadline || (r.intent.Some? && 0 < r.leaseUntil <= now))
  }

  /** A stopped run blocks the record exactly if its lease is live and the reason is text. */
  lemma BlockLandsIff(cfg: Config, steps: seq<Step>, id: nat, now: int, reason: string)
    requires Enqueued(cfg)
    ensures var w := Reached(cfg, steps); var deed := Block(Clipped(reason));
      && (Performs(cfg, w, id, now, deed) <==> LeaseLive(w, id, now) && IsText(Clipped(reason), 1024))
      && (Performs(cfg, w, id, now, deed) ==>
            Apply(cfg, w, DoStep(id, now, deed)).record ==
              w.record.(phase := Blocked, reason := Some(Clipped(reason)), version := w.record.version + 1))
  {
    var w := Reached(cfg, steps);
    ReachedSessions(cfg, steps);
    ReachedAdmitted(cfg, steps);
    ReachedInBudget(cfg, steps);
    if id in w.sessions && w.sessions[id].held.version == w.record.version {
      BlockAcceptedIff(cfg, w, id, now, Clipped(reason));
    }
  }

  lemma BlockAcceptedIff(cfg: Config, w: World, id: nat, now: int, reason: string)
    requires id in w.sessions && w.sessions[id].held == w.record && w.record.phase != Pending && InBudget(w.record)
    ensures Performs(cfg, w, id, now, Block(reason)) <==> LeaseLive(w, id, now) && IsText(reason, 1024)
    ensures Performs(cfg, w, id, now, Block(reason)) ==>
      Apply(cfg, w, DoStep(id, now, Block(reason))).record ==
        w.record.(phase := Blocked, reason := Some(reason), version := w.record.version + 1)
  {
  }

  /** `_blocked`: the update, and the recovery poll if it is refused. */
  function AfterStop(cfg: Config, w: World, id: nat, now: int, reason: string, later: int): World {
    if Performs(cfg, w, id, now, Block(Clipped(reason))) then Apply(cfg, w, DoStep(id, now, Block(Clipped(reason))))
    else Apply(cfg, w, ExpireStep(later))
  }

  /** The record is blocked afterwards exactly if it was before, the update landed, or the poll
      found it timed out. The report says `blocked` in every case. */
  lemma StoppedIsBlockedIff(cfg: Config, steps: seq<Step>, id: nat, now: int, reason: string, later: int)
    requires Enqueued(cfg)
    ensures var w := Reached(cfg, steps);
      AfterStop(cfg, w, id, now, reason, later).record.phase == Blocked <==>
        || w.record.phase == Blocked
        || (LeaseLive(w, id, now) && IsText(Clipped(reason), 1024))
        || TimedOut(w.record, later)
  {
    BlockLandsIff(cfg, steps, id, now, reason);
  }

  /** An exception with nothing to say blocks nothing: while the lease lasts, neither the update
      nor the poll changes the record, although the report says it is blocked. */
  lemma BlankReasonStaysOpen(cfg: Config, steps: seq<Step>, id: nat, now: int, reason: string, later: int)
    requires Enqueued(cfg) && LeaseLive(Reached(cfg, steps), id, now) && later < Reached(cfg, steps).record.leaseUntil
    requires !IsText(Clipped(reason), 1024)
    ensures AfterStop(cfg, Reached(cfg, steps), id, now, reason, later) == Reached(cfg, steps)
    ensures Reached(cfg, steps).record.phase != Blocked
    ensures !IsText(Clipped(""), 1024)
  {
    BlockLandsIff(cfg, steps, id, now, reason);
    ReachedInBudget(cfg, steps);
  }
}
