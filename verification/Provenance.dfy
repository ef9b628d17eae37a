/** Where everything in a reachable record came from: each publication rests on an answer of the
    validator, each merge on a signed acceptance, and each commit on an answer of the publisher. */
module Provenance {
  import opened Results
  import opened Candidates
  import opened Objectives
  import opened Records
  import opened Protocol
  import Gateway

  // ------------------------------------------------------------------ traces in the effects

  /** The validator returned an envelope that verifies this candidate. */
  ghost predicate VerifiedBefore(cfg: Config, effects: seq<Effect>, batch: int, parent: string, candidate: Binding) {
    exists i, now | 0 <= i < |effects| :: VerifiedBy(cfg, effects[i], batch, parent, candidate, now)
  }

  /** This is the candidate of a snapshot whose change is in scope. */
  predicate ScopedCandidate(cfg: Config, candidate: Binding) {
    candidate == CandidateOf(cfg, candidate.after) && InScope(cfg, candidate.after)
  }

  predicate VerifiedBy(cfg: Config, e: Effect, batch: int, parent: string, candidate: Binding, now: int) {
    && e.Validated? && e.receipt.Signed?
    && e.batch == batch && e.parent == parent && e.candidate == candidate
    && Stands(cfg, e.receipt.envelope, candidate, parent, batch, now)
  }

  /** The validator returned a signed acceptance of the objective at this head. */
  ghost predicate AcceptedBefore(cfg: Config, effects: seq<Effect>, candidate: Binding, head: string) {
    exists i | 0 <= i < |effects| :: AcceptedBy(cfg, effects[i], candidate, head)
  }

  predicate AcceptedBy(cfg: Config, e: Effect, candidate: Binding, head: string) {
    && e.Accepted? && e.acceptance.Some? && e.candidate == candidate && e.head == head
    && AcceptanceStands(e.acceptance.value, cfg.approval, cfg.keys, candidate, head)
  }

  /** The last publication made this head, as the publisher answered. */
  predicate LastPublishedAs(effects: seq<Effect>, j: nat, head: string)
    requires j < |effects|
  {
    && effects[j].Published? && effects[j].publication.Some?
    && effects[j].publication.value.commitSha == head
    && effects[j].publication.value.candidate == effects[j].candidate
    && forall k | 0 <= k < |effects| && effects[k].Published? :: effects[k].batch <= effects[j].batch
  }

  /** The validator accepted exactly the candidate that was published last, at the head it made. */
  ghost predicate HeadAccepted(cfg: Config, effects: seq<Effect>, head: string) {
    exists j | 0 <= j < |effects| ::
      LastPublishedAs(effects, j, head) && AcceptedBefore(cfg, effects, effects[j].candidate, head)
  }

  function PublicationOf(cfg: Config, commits: seq<Commit>, i: nat): Effect
    requires i < |commits|
  {
    Published(i + 1, ParentOf(cfg, commits, i), commits[i].publication.candidate, Some(commits[i].publication))
  }

  function LastCandidate(r: Record): Binding
    requires r.commits != []
  {
    r.commits[|r.commits| - 1].publication.candidate
  }

  ghost predicate CommitsTraced(cfg: Config, r: Record, effects: seq<Effect>) {
    forall i | 0 <= i < |r.commits| :: PublicationOf(cfg, r.commits, i) in effects
  }

  ghost predicate PublishTraced(cfg: Config, r: Record, effects: seq<Effect>) {
    r.intent.Some? && r.intent.value.Publish? ==>
      VerifiedBefore(cfg, effects, r.batch + 1, r.parentSha, r.intent.value.receipt.candidate)
  }

  predicate Merging(r: Record) {
    r.mergeSha.Some? || (r.intent.Some? && r.intent.value.Merge?)
  }

  ghost predicate MergeTraced(cfg: Config, r: Record, effects: seq<Effect>) {
    && (Merging(r) ==> r.commits != [] && AcceptedBefore(cfg, effects, LastCandidate(r), r.parentSha))
    && (r.mergeSha.Some? ==> MergeAcknowledged(r.parentSha, r.mergeSha.value) in effects)
    && (r.released ==> ReleaseRequested(cfg.approval.releaseTag, true) in effects)
  }

  ghost predicate RecordTraced(cfg: Config, r: Record, effects: seq<Effect>) {
    CommitsTraced(cfg, r, effects) && PublishTraced(cfg, r, effects) && MergeTraced(cfg, r, effects)
  }

  /** Whatever made a publication or a merge call legitimate happened before it. */
  ghost predicate CallTraced(cfg: Config, effects: seq<Effect>, i: nat)
    requires i < |effects|
  {
    match effects[i]
    case Published(batch, parent, candidate, _) =>
      VerifiedBefore(cfg, effects[..i], batch, parent, candidate) && ScopedCandidate(cfg, candidate)
    case MergeAttempted(head) => HeadAccepted(cfg, effects[..i], head)
    case MergeAcknowledged(head, _) => HeadAccepted(cfg, effects[..i], head)
    case _ => true
  }

  ghost predicate Traced(cfg: Config, w: World) {
    && RecordTraced(cfg, w.record, w.effects)
    && CallsTraced(cfg, w.effects)
  }

  ghost predicate CallsTraced(cfg: Config, effects: seq<Effect>) {
    forall i | 0 <= i < |effects| :: CallTraced(cfg, effects, i)
  }

  // ---------------------------------------------------------------------- calls keep them

  lemma MoreEffects(cfg: Config, r: Record, effects: seq<Effect>, e: Effect)
    requires RecordTraced(cfg, r, effects)
    ensures RecordTraced(cfg, r, effects + [e])
  {
    assert forall f | f in effects :: f in effects + [e];
    if r.intent.Some? && r.intent.value.Publish? {
      StillVerified(cfg, effects, e, r.batch + 1, r.parentSha, r.intent.value.receipt.candidate);
    }
    if Merging(r) {
      StillAccepted(cfg, effects, e, LastCandidate(r), r.parentSha);
    }
  }

  lemma StillVerified(cfg: Config, effects: seq<Effect>, e: Effect, batch: int, parent: string, candidate: Binding)
    requires VerifiedBefore(cfg, effects, batch, parent, candidate)
    ensures VerifiedBefore(cfg, effects + [e], batch, parent, candidate)
  {
    var i, now :| 0 <= i < |effects| && VerifiedBy(cfg, effects[i], batch, parent, candidate, now);
    assert VerifiedBy(cfg, (effects + [e])[i], batch, parent, candidate, now);
  }

  lemma StillAccepted(cfg: Config, effects: seq<Effect>, e: Effect, candidate: Binding, head: string)
    requires AcceptedBefore(cfg, effects, candidate, head)
    ensures AcceptedBefore(cfg, effects + [e], candidate, head)
  {
    var i :| 0 <= i < |effects| && AcceptedBy(cfg, effects[i], candidate, head);
    assert AcceptedBy(cfg, (effects + [e])[i], candidate, head);
  }

  /** While a merge stands, the record's last commit is the last publication there was. */
  lemma MergingHeadAccepted(cfg: Config, w: World)
    requires PublishedOnce(w) && HistorySound(cfg, w.record)
    requires CommitsTraced(cfg, w.record, w.effects) && MergeTraced(cfg, w.record, w.effects)
    requires w.record.intent.Some? && w.record.intent.value.Merge?
    ensures HeadAccepted(cfg, w.effects, w.record.parentSha)
  {
    var r := w.record;
    NothingPublishedSince(w);
    var j := LastCommitPublished(cfg, r, w.effects);
    assert LastPublishedAs(w.effects, j, r.parentSha);
  }

  lemma NothingPublishedSince(w: World)
    requires PublishedOnce(w) && w.record.intent.Some? && w.record.intent.value.Merge?
    ensures forall k | 0 <= k < |w.effects| && w.effects[k].Published? :: w.effects[k].batch <= w.record.batch
  {
    forall k | 0 <= k < |w.effects| && w.effects[k].Published?
      ensures w.effects[k].batch <= w.record.batch
    {
      assert !Publishes(w.effects[k], w.record.batch + 1);
    }
  }

  lemma LastCommitPublished(cfg: Config, r: Record, effects: seq<Effect>) returns (j: nat)
    requires HistorySound(cfg, r) && CommitsTraced(cfg, r, effects) && r.commits != []
    ensures j < |effects|
    ensures effects[j].Published? && effects[j].batch == r.batch && effects[j].candidate == LastCandidate(r)
    ensures effects[j].publication.Some? && effects[j].publication.value.commitSha == r.parentSha
    ensures effects[j].publication.value.candidate == LastCandidate(r)
  {
    var n := |r.commits| - 1;
    assert PublicationOf(cfg, r.commits, n) in effects;
    j :| 0 <= j < |effects| && effects[j] == PublicationOf(cfg, r.commits, n);
  }

  lemma NewCallTraced(cfg: Config, w: World, id: nat, reply: Reply)
    requires Announced(cfg, w) && CallsOut(w, id)
    requires PublishedOnce(w) && HistorySound(cfg, w.record) && PublishSound(cfg, w.record)
    requires RecordTraced(cfg, w.record, w.effects)
    ensures CallTraced(cfg, w.effects + [EffectOf(w.sessions[id].due.value, reply)], |w.effects|)
  {
    var call := w.sessions[id].due.value;
    var e := EffectOf(call, reply);
    assert (w.effects + [e])[..|w.effects|] == w.effects;
    assert DueMatches(cfg, call, w.record);
    if call.CallMerge? {
      MergingHeadAccepted(cfg, w);
    } else if call.CallPublish? {
      NewPublicationTraced(cfg, w, call);
    }
  }

  lemma NewPublicationTraced(cfg: Config, w: World, call: Call)
    requires call.CallPublish? && DueMatches(cfg, call, w.record)
    requires PublishSound(cfg, w.record) && PublishTraced(cfg, w.record, w.effects)
    ensures VerifiedBefore(cfg, w.effects, call.batch, call.parent, call.candidate)
    ensures ScopedCandidate(cfg, call.candidate)
  {
    IntendedIsScoped(cfg, w.record);
  }

  lemma IntendedIsScoped(cfg: Config, r: Record)
    requires PublishSound(cfg, r) && r.intent.Some? && r.intent.value.Publish?
    ensures ScopedCandidate(cfg, r.intent.value.receipt.candidate)
  {
  }

  lemma OldCallTraced(cfg: Config, effects: seq<Effect>, e: Effect, i: nat)
    requires i < |effects| && CallTraced(cfg, effects, i)
    ensures CallTraced(cfg, effects + [e], i)
  {
    assert (effects + [e])[..i] == effects[..i];
    assert (effects + [e])[i] == effects[i];
  }

  lemma CallKeepsTraced(cfg: Config, w: World, id: nat, reply: Reply)
    requires Announced(cfg, w) && PublishedOnce(w) && HistorySound(cfg, w.record) && PublishSound(cfg, w.record)
    requires Traced(cfg, w) && CallsOut(w, id)
    ensures Traced(cfg, Apply(cfg, w, CallStep(id, reply)))
  {
    var e := EffectOf(w.sessions[id].due.value, reply);
    CallStepShape(cfg, w, id, reply);
    MoreEffects(cfg, w.record, w.effects, e);
    NewCallTraced(cfg, w, id, reply);
    MoreCallsTraced(cfg, w.effects, e);
  }

  lemma MoreCallsTraced(cfg: Config, effects: seq<Effect>, e: Effect)
    requires CallsTraced(cfg, effects) && CallTraced(cfg, effects + [e], |effects|)
    ensures CallsTraced(cfg, effects + [e])
  {
    forall i | 0 <= i < |effects + [e]|
      ensures CallTraced(cfg, effects + [e], i)
    {
      if i < |effects| {
        OldCallTraced(cfg, effects, e, i);
      }
    }
  }

  // -------------------------------------------------------------------- updates keep them

  lemma DeedKeepsCommits(cfg: Config, s: Session, deed: Deed, effects: seq<Effect>)
    requires CommitsTraced(cfg, s.held, effects) && HistorySound(cfg, s.held) && Allowed(cfg, s, deed)
    requires s.answer.Some? ==> s.answer.value in effects
    ensures CommitsTraced(cfg, Advance(cfg, s, deed).held, effects)
  {
    if deed.RecordBatch? {
      BatchRecorded(cfg, s, deed.publication);
      CommitAppended(cfg, s.held.commits, NewCommit(s.held, deed.publication), effects);
    } else {
      CommitsKept(cfg, s, deed);
    }
  }

  lemma CommitAppended(cfg: Config, commits: seq<Commit>, c: Commit, effects: seq<Effect>)
    requires forall i | 0 <= i < |commits| :: PublicationOf(cfg, commits, i) in effects
    requires Published(|commits| + 1, ParentOf(cfg, commits, |commits|), c.publication.candidate,
                       Some(c.publication)) in effects
    ensures forall i | 0 <= i <= |commits| :: PublicationOf(cfg, commits + [c], i) in effects
  {
    forall i | 0 <= i <= |commits|
      ensures PublicationOf(cfg, commits + [c], i) in effects
    {
      assert ParentOf(cfg, commits + [c], i) == ParentOf(cfg, commits, i);
      if i < |commits| {
        assert PublicationOf(cfg, commits + [c], i) == PublicationOf(cfg, commits, i);
      }
    }
  }

  lemma DeedKeepsPublish(cfg: Config, s: Session, deed: Deed, effects: seq<Effect>)
    requires PublishTraced(cfg, s.held, effects) && PublishSound(cfg, s.held) && Allowed(cfg, s, deed)
    requires s.answer.Some? ==> s.answer.value in effects
    ensures PublishTraced(cfg, Advance(cfg, s, deed).held, effects)
  {
    if deed.IntendPublish? {
      PublishIntended(cfg, s, deed.receipt, deed.artifact, deed.checkedAt);
      AnswerVerifies(cfg, s, deed.receipt, deed.artifact, deed.checkedAt);
      AnsweredIsTraced(cfg, s.answer.value, s.held, Advance(cfg, s, deed).held, deed.receipt, deed.artifact,
                       deed.checkedAt, effects);
    } else {
      PublishIntentKept(cfg, s, deed);
      SamePublishTraced(cfg, s.held, Advance(cfg, s, deed).held, effects);
    }
  }

  lemma AnsweredIsTraced(cfg: Config, e: Effect, r: Record, n: Record, receipt: Receipt, artifact: Snapshot, now: int,
                         effects: seq<Effect>)
    requires e in effects && VerifiedBy(cfg, e, r.batch + 1, r.parentSha, receipt.candidate, now)
    requires Intending(r, n, receipt, artifact)
    ensures PublishTraced(cfg, n, effects)
  {
    var i :| 0 <= i < |effects| && effects[i] == e;
    assert VerifiedBy(cfg, effects[i], n.batch + 1, n.parentSha, n.intent.value.receipt.candidate, now);
  }

  lemma AnswerVerifies(cfg: Config, s: Session, receipt: Receipt, artifact: Snapshot, checkedAt: int)
    requires PublishJustified(cfg, s, receipt, artifact, checkedAt)
    ensures VerifiedBy(cfg, s.answer.value, s.held.batch + 1, s.held.parentSha, receipt.candidate, checkedAt)
  {
  }

  lemma SamePublishTraced(cfg: Config, r: Record, n: Record, effects: seq<Effect>)
    requires PublishTraced(cfg, r, effects)
    requires n.intent.Some? && n.intent.value.Publish? ==>
      n.intent == r.intent && n.parentSha == r.parentSha && n.batch == r.batch
    ensures PublishTraced(cfg, n, effects)
  {
  }

  /** What a record says about merging and releasing only changes by the deeds that say so. */
  lemma MergeFieldsMove(cfg: Config, s: Session, deed: Deed)
    requires Allowed(cfg, s, deed)
    ensures var n := Advance(cfg, s, deed).held;
      && (n.mergeSha != s.held.mergeSha ==> deed.RecordMerge?)
      && (n.released != s.held.released ==> deed.RecordRelease?)
      && (Merging(n) ==> Merging(s.held) || deed.IntendMerge?)
      && (deed.RecordBatch? ==> !Merging(n) || s.held.mergeSha.Some?)
  {
  }

  lemma DeedKeepsMerge(cfg: Config, s: Session, deed: Deed, effects: seq<Effect>)
    requires MergeTraced(cfg, s.held, effects) && PublishSound(cfg, s.held) && Allowed(cfg, s, deed)
    requires s.answer.Some? ==> s.answer.value in effects
    ensures MergeTraced(cfg, Advance(cfg, s, deed).held, effects)
  {
    MergeFieldsMove(cfg, s, deed);
    if deed.RecordBatch? {
      BatchRecorded(cfg, s, deed.publication);
    } else {
      CommitsKept(cfg, s, deed);
    }
    if deed.IntendMerge? {
      AcceptanceTraced(cfg, s, deed.acceptance, effects);
    }
  }

  lemma AcceptanceTraced(cfg: Config, s: Session, e: Envelope<AcceptanceClaim>, effects: seq<Effect>)
    requires MergeEvidence(cfg, s, e) && s.answer.value in effects
    ensures AcceptedBefore(cfg, effects, LastCandidate(s.held), s.held.parentSha)
  {
    var i :| 0 <= i < |effects| && effects[i] == s.answer.value;
    assert AcceptedBy(cfg, effects[i], LastCandidate(s.held), s.held.parentSha);
  }

  lemma DeedKeepsTraced(cfg: Config, w: World, id: nat, now: int, deed: Deed)
    requires Inv(cfg, w) && Traced(cfg, w) && Performs(cfg, w, id, now, deed)
    ensures Traced(cfg, Apply(cfg, w, DoStep(id, now, deed)))
  {
    PerformerHolds(cfg, w, id, now, deed);
    var s := w.sessions[id];
    DeedKeepsCommits(cfg, s, deed, w.effects);
    DeedKeepsPublish(cfg, s, deed, w.effects);
    DeedKeepsMerge(cfg, s, deed, w.effects);
  }

  /** What the trace of a record depends on. */
  predicate SameContent(r: Record, n: Record) {
    && n.commits == r.commits && n.batch == r.batch && n.parentSha == r.parentSha
    && n.intent == r.intent && n.mergeSha == r.mergeSha && n.released == r.released
  }

  lemma OthersKeepContent(cfg: Config, w: World, step: Step)
    requires !step.DoStep? && !step.CallStep?
    ensures SameContent(w.record, Apply(cfg, w, step).record) && Apply(cfg, w, step).effects == w.effects
  {
  }

  lemma SameContentTraced(cfg: Config, r: Record, n: Record, effects: seq<Effect>)
    requires RecordTraced(cfg, r, effects) && SameContent(r, n)
    ensures RecordTraced(cfg, n, effects)
  {
    assert CommitsTraced(cfg, n, effects) by {
      assert forall i | 0 <= i < |r.commits| :: PublicationOf(cfg, r.commits, i) in effects;
    }
    SamePublishTraced(cfg, r, n, effects);
  }

  lemma StepKeepsTraced(cfg: Config, w: World, step: Step)
    requires Inv(cfg, w) && Traced(cfg, w)
    ensures Traced(cfg, Apply(cfg, w, step))
  {
    if step.DoStep? {
      if Performs(cfg, w, step.id, step.now, step.deed) {
        DeedKeepsTraced(cfg, w, step.id, step.now, step.deed);
      }
    } else if step.CallStep? {
      if CallsOut(w, step.id) {
        CallKeepsTraced(cfg, w, step.id, step.reply);
      }
    } else {
      OthersKeepContent(cfg, w, step);
      SameContentTraced(cfg, w.record, Apply(cfg, w, step).record, w.effects);
    }
  }

  lemma {:induction false} ReachedTraced(cfg: Config, steps: seq<Step>)
    ensures Traced(cfg, Reached(cfg, steps))
    decreases |steps|
  {
    if steps != [] {
      var before := steps[..|steps| - 1];
      ReachedTraced(cfg, before);
      ReachedInv(cfg, before);
      StepKeepsTraced(cfg, Reached(cfg, before), steps[|steps| - 1]);
    }
  }

  // ----------------------------------------------------------------------- theorems

  /** Every publication call ever made, recorded or not, was preceded by an answer of the
      validator that verifies exactly this candidate on this parent as this batch, and its
      change was in scope. */
  lemma EveryPublicationVerified(cfg: Config, steps: seq<Step>, i: nat)
    requires i < |Reached(cfg, steps).effects| && Reached(cfg, steps).effects[i].Published?
    ensures var effects := Reached(cfg, steps).effects;
      && VerifiedBefore(cfg, effects[..i], effects[i].batch, effects[i].parent, effects[i].candidate)
      && ScopedCandidate(cfg, effects[i].candidate)
  {
    ReachedTraced(cfg, steps);
    assert CallTraced(cfg, Reached(cfg, steps).effects, i);
  }

  predicate IsMergeOf(e: Effect, head: string) {
    (e.MergeAttempted? || e.MergeAcknowledged?) && e.head == head
  }

  /** Every merge call ever made, granted or not, was preceded by an answer of the validator that
      accepts exactly the candidate published last, at exactly the head to be merged. */
  lemma EveryMergeAccepted(cfg: Config, steps: seq<Step>, i: nat, head: string)
    requires i < |Reached(cfg, steps).effects| && IsMergeOf(Reached(cfg, steps).effects[i], head)
    ensures HeadAccepted(cfg, Reached(cfg, steps).effects[..i], head)
  {
    ReachedTraced(cfg, steps);
    assert CallTraced(cfg, Reached(cfg, steps).effects, i);
  }

  /** Every recorded commit was really published, as the publisher answered; the validator had
      verified its own candidate on top of the previous commit. */
  lemma CommitsFormVerifiedChain(cfg: Config, steps: seq<Step>, i: nat)
    requires i < |Reached(cfg, steps).record.commits|
    ensures var w := Reached(cfg, steps); var c := w.record.commits[i];
      && c.batch == i + 1
      && c.publication.candidate == c.receipt.candidate == CandidateOf(cfg, c.artifact)
      && IsSha(c.publication.commitSha, 40)
      && c.receipt.parentSha == ParentOf(cfg, w.record.commits, i) && c.receipt.batch == i + 1
      && (exists now :: Stands(cfg, c.receipt.envelope, c.receipt.candidate, c.receipt.parentSha, c.batch, now))
      && PublicationOf(cfg, w.record.commits, i) in w.effects
  {
    ReachedInv(cfg, steps);
    ReachedTraced(cfg, steps);
    var w := Reached(cfg, steps);
    assert CommitSound(cfg, w.record.commits, i);
    assert PublicationOf(cfg, w.record.commits, i) in w.effects;
  }

  /** Every recorded commit differs from the base only where the task and the policy allow it,
      and the tree delta of its change is a faithful rendering of its artifact. */
  lemma EveryCommitInScope(cfg: Config, steps: seq<Step>, i: nat)
    requires i < |Reached(cfg, steps).record.commits|
    ensures var after := Reached(cfg, steps).record.commits[i].artifact;
      && after != cfg.base
      && |Diff(cfg.base, after)| <= cfg.policy.maxChangedFiles
      && Volume(cfg.base, after) <= cfg.policy.maxChangedBytes
      && (forall p | p in Diff(cfg.base, after) :: PathClean(cfg.approval.task, cfg.policy, cfg.base, after, p))
    ensures PolicyAccepted(cfg.policy) ==> DeltaRenders(cfg, Reached(cfg, steps).record.commits[i].artifact)
  {
    ReachedInv(cfg, steps);
    var after := Reached(cfg, steps).record.commits[i].artifact;
    assert CommitSound(cfg, Reached(cfg, steps).record.commits, i);
    assert InScope(cfg, after);
    if PolicyAccepted(cfg.policy) {
      forall changes: seq<Change>
        ensures Lists(cfg, changes, after) ==> RendersArtifact(cfg, changes, after)
      {
        if Lists(cfg, changes, after) {
          CleanChangeRenders(cfg, changes, after);
        }
      }
    }
  }

  ghost predicate Lists(cfg: Config, changes: seq<Change>, after: Snapshot) {
    ListsChanges(changes, cfg.base, after, Diff(cfg.base, after))
  }

  /** However the change to this artifact is listed, its tree delta renders it. */
  ghost predicate DeltaRenders(cfg: Config, after: Snapshot) {
    forall changes :: Lists(cfg, changes, after) ==> RendersArtifact(cfg, changes, after)
  }

  /** Applied to the base tree, the delta of these changes gives the artifact's tree. */
  ghost predicate RendersArtifact(cfg: Config, changes: seq<Change>, after: Snapshot) {
    && Gateway.Publishable(changes, after)
    && Gateway.ApplyDelta(Gateway.TreeOf(cfg.base), Gateway.DeltaFor(changes, after)) == Gateway.TreeOf(after)
  }

  lemma CleanChangeRenders(cfg: Config, changes: seq<Change>, after: Snapshot)
    requires PolicyAccepted(cfg.policy) && InScope(cfg, after)
    requires Lists(cfg, changes, after)
    ensures RendersArtifact(cfg, changes, after)
  {
    Gateway.CleanScopeRebuilds(changes, cfg.approval.task, cfg.policy, cfg.base, after);
  }
}
