/** Repairs over the whole life of an objective: each attempt is made once, there are no more of
    them than the owner signed for, and they stay within the files the first one touched. */
module Repairs {
  import opened Results
  import opened Candidates
  import opened Objectives
  import opened Records
  import opened Protocol

  // ------------------------------------------------------------------ repair chains

  /** The successive snapshots of one batch: each repair touches only files in which the
      snapshot it repairs differs from the published tree. */
  predicate RepairChain(published: Snapshot, attempts: seq<Snapshot>) {
    forall i | 0 < i < |attempts| :: Diff(attempts[i - 1], attempts[i]) <= Diff(published, attempts[i - 1])
  }

  /** However many repairs follow, the result differs from the published tree only where the
      first attempt did. */
  lemma {:induction false} RepairsStayLocal(published: Snapshot, attempts: seq<Snapshot>, i: nat)
    requires RepairChain(published, attempts) && i < |attempts|
    ensures Diff(published, attempts[i]) <= Diff(published, attempts[0])
  {
    if i > 0 {
      RepairsStayLocal(published, attempts, i - 1);
      DiffTriangle(published, attempts[i - 1], attempts[i]);
    }
  }

  lemma DiffTriangle(a: Snapshot, b: Snapshot, c: Snapshot)
    ensures Diff(a, c) <= Diff(a, b) + Diff(b, c)
  {
  }

  lemma RepairChainExtends(published: Snapshot, attempts: seq<Snapshot>, next: Snapshot)
    requires RepairChain(published, attempts)
    requires attempts != [] ==> Diff(attempts[|attempts| - 1], next) <= Diff(published, attempts[|attempts| - 1])
    ensures RepairChain(published, attempts + [next])
  {
  }

  // ------------------------------------------------------ what a worker holds of its batch

  /** A worker's frozen snapshots are what implementations of this batch really returned, in
      order, and the last of them is what it validates and publishes. */
  ghost predicate BatchTraced(cfg: Config, s: Session, effects: seq<Effect>) {
    && RepairChain(PublishedTree(cfg, s.held.commits), s.attempts)
    && (forall k | 0 <= k < |s.attempts| :: Implemented(s.held.batch + 1, k, Some(s.attempts[k])) in effects)
    && LastIsHeld(s)
  }

  predicate LastIsHeld(s: Session) {
    match s.held.intent
    case Some(Validation(candidate)) => s.attempts != [] && candidate.after == s.attempts[|s.attempts| - 1]
    case Some(Publish(_, receipt, _, artifact)) => s.attempts != [] && artifact == s.attempts[|s.attempts| - 1]
    case Some(Implementation(_, _)) => true
    case _ => s.attempts == []
  }

  /** The tree a commit was published on. */
  function TreeBefore(cfg: Config, commits: seq<Commit>, i: nat): Snapshot
    requires i <= |commits|
  {
    if i == 0 then cfg.base else commits[i - 1].artifact
  }

  /** The first implementation of commit `i`'s batch returned `first`, and the commit stays within it. */
  predicate WithinFirst(cfg: Config, commits: seq<Commit>, i: nat, e: Effect)
    requires i < |commits|
  {
    && e.Implemented? && e.batch == i + 1 && e.attempt == 0 && e.snapshot.Some?
    && Diff(TreeBefore(cfg, commits, i), commits[i].artifact) <= Diff(TreeBefore(cfg, commits, i), e.snapshot.value)
  }

  ghost predicate CommitLocal(cfg: Config, commits: seq<Commit>, i: nat, effects: seq<Effect>)
    requires i < |commits|
  {
    exists j | 0 <= j < |effects| :: WithinFirst(cfg, commits, i, effects[j])
  }

  ghost predicate CommitsLocal(cfg: Config, commits: seq<Commit>, effects: seq<Effect>) {
    forall i | 0 <= i < |commits| :: CommitLocal(cfg, commits, i, effects)
  }

  ghost predicate Local(cfg: Config, w: World) {
    && CommitsLocal(cfg, w.record.commits, w.effects)
    && forall id | id in w.sessions :: BatchTraced(cfg, w.sessions[id], w.effects)
  }

  // ----------------------------------------------------------------- every step keeps them

  lemma MoreEffectsLocal(cfg: Config, commits: seq<Commit>, effects: seq<Effect>, e: Effect)
    requires CommitsLocal(cfg, commits, effects)
    ensures CommitsLocal(cfg, commits, effects + [e])
  {
    forall i | 0 <= i < |commits|
      ensures CommitLocal(cfg, commits, i, effects + [e])
    {
      assert CommitLocal(cfg, commits, i, effects);
      var j :| 0 <= j < |effects| && WithinFirst(cfg, commits, i, effects[j]);
      assert WithinFirst(cfg, commits, i, (effects + [e])[j]);
    }
  }

  lemma MoreEffectsTraced(cfg: Config, s: Session, t: Session, effects: seq<Effect>, e: Effect)
    requires BatchTraced(cfg, s, effects) && t.held == s.held && t.attempts == s.attempts
    ensures BatchTraced(cfg, t, effects + [e])
  {
    assert forall f | f in effects :: f in effects + [e];
  }

  lemma CallKeepsLocal(cfg: Config, w: World, v: World, id: nat, e: Effect)
    requires Local(cfg, w) && AfterCalling(w, v, id, e)
    ensures Local(cfg, v)
  {
    MoreEffectsLocal(cfg, w.record.commits, w.effects, e);
    forall other | other in v.sessions
      ensures BatchTraced(cfg, v.sessions[other], v.effects)
    {
      MoreEffectsTraced(cfg, w.sessions[other], v.sessions[other], w.effects, e);
    }
  }

  /** The one update that lengthens the chain. */
  lemma FreezeKeepsTraced(cfg: Config, s: Session, attempt: int, candidate: Binding, effects: seq<Effect>)
    requires BatchTraced(cfg, s, effects) && Allowed(cfg, s, FreezeCandidate(attempt, candidate))
    requires s.answer.value in effects
    ensures BatchTraced(cfg, Advance(cfg, s, FreezeCandidate(attempt, candidate)), effects)
  {
    var n := Advance(cfg, s, FreezeCandidate(attempt, candidate));
    CommitsKept(cfg, s, FreezeCandidate(attempt, candidate));
    RepairChainExtends(PublishedTree(cfg, s.held.commits), s.attempts, candidate.after);
    assert n.attempts == s.attempts + [candidate.after];
  }

  /** No other update touches the chain while its batch lasts. */
  lemma DeedKeepsTraced(cfg: Config, s: Session, deed: Deed, effects: seq<Effect>)
    requires BatchTraced(cfg, s, effects) && Allowed(cfg, s, deed)
    requires s.answer.Some? ==> s.answer.value in effects
    ensures BatchTraced(cfg, Advance(cfg, s, deed), effects)
  {
    if deed.FreezeCandidate? {
      FreezeKeepsTraced(cfg, s, deed.attempt, deed.candidate, effects);
    } else if deed.RecordBatch? {
      BatchRecorded(cfg, s, deed.publication);
    } else {
      CommitsKept(cfg, s, deed);
      HeldMoves(cfg, s, deed);
    }
  }

  lemma HeldMoves(cfg: Config, s: Session, deed: Deed)
    requires LastIsHeld(s) && Allowed(cfg, s, deed) && !deed.FreezeCandidate? && !deed.RecordBatch?
    ensures LastIsHeld(Advance(cfg, s, deed)) && Advance(cfg, s, deed).attempts == s.attempts
  {
  }

  lemma DeedKeepsCommits(cfg: Config, s: Session, deed: Deed, effects: seq<Effect>)
    requires BatchTraced(cfg, s, effects) && CommitsLocal(cfg, s.held.commits, effects) && Allowed(cfg, s, deed)
    requires s.held.batch == |s.held.commits|
    ensures CommitsLocal(cfg, Advance(cfg, s, deed).held.commits, effects)
  {
    if deed.RecordBatch? {
      BatchRecorded(cfg, s, deed.publication);
      CommitStaysLocal(cfg, s, NewCommit(s.held, deed.publication), effects);
    } else {
      CommitsKept(cfg, s, deed);
    }
  }

  lemma CommitStaysLocal(cfg: Config, s: Session, c: Commit, effects: seq<Effect>)
    requires BatchTraced(cfg, s, effects) && CommitsLocal(cfg, s.held.commits, effects)
    requires s.held.intent.Some? && s.held.intent.value.Publish? && c.artifact == s.held.intent.value.artifact
    requires s.held.batch == |s.held.commits|
    ensures CommitsLocal(cfg, s.held.commits + [c], effects)
  {
    var commits := s.held.commits;
    RepairsStayLocal(PublishedTree(cfg, commits), s.attempts, |s.attempts| - 1);
    forall i | 0 <= i <= |commits|
      ensures CommitLocal(cfg, commits + [c], i, effects)
    {
      if i < |commits| {
        OldCommitLocal(cfg, commits, c, i, effects);
      } else {
        var j :| 0 <= j < |effects| && effects[j] == Implemented(|commits| + 1, 0, Some(s.attempts[0]));
        assert WithinFirst(cfg, commits + [c], i, effects[j]);
      }
    }
  }

  lemma OldCommitLocal(cfg: Config, commits: seq<Commit>, c: Commit, i: nat, effects: seq<Effect>)
    requires i < |commits| && CommitLocal(cfg, commits, i, effects)
    ensures CommitLocal(cfg, commits + [c], i, effects)
  {
    var j :| 0 <= j < |effects| && WithinFirst(cfg, commits, i, effects[j]);
    assert TreeBefore(cfg, commits + [c], i) == TreeBefore(cfg, commits, i);
    assert WithinFirst(cfg, commits + [c], i, effects[j]);
  }

  lemma DoKeepsLocal(cfg: Config, w: World, v: World, id: nat, deed: Deed)
    requires Local(cfg, w) && AfterDeed(cfg, w, v, id, deed)
    requires w.sessions[id].answer.Some? ==> w.sessions[id].answer.value in w.effects
    requires w.record.batch == |w.record.commits|
    ensures Local(cfg, v)
  {
    DeedKeepsCommits(cfg, w.sessions[id], deed, w.effects);
    DeedKeepsTraced(cfg, w.sessions[id], deed, w.effects);
  }

  lemma OthersKeepLocal(cfg: Config, w: World, step: Step)
    requires Local(cfg, w) && !step.DoStep? && !step.CallStep?
    ensures Local(cfg, Apply(cfg, w, step))
  {
    OthersShape(cfg, w, step);
  }

  /** No such step changes a session or makes a call; at most a fresh session appears. */
  lemma OthersShape(cfg: Config, w: World, step: Step)
    requires !step.DoStep? && !step.CallStep?
    ensures var v := Apply(cfg, w, step);
      && v.record.commits == w.record.commits && v.effects == w.effects
      && forall id | id in v.sessions ::
           if id in w.sessions then v.sessions[id] == w.sessions[id]
           else v.sessions[id].attempts == [] && v.sessions[id].held.intent.None?
  {
  }

  lemma StepKeepsLocal(cfg: Config, w: World, step: Step)
    requires Inv(cfg, w) && Local(cfg, w)
    ensures Local(cfg, Apply(cfg, w, step))
  {
    if step.DoStep? {
      if Performs(cfg, w, step.id, step.now, step.deed) {
        DeedShape(cfg, w, step.id, step.now, step.deed);
        DoKeepsLocal(cfg, w, Apply(cfg, w, step), step.id, step.deed);
      }
    } else if step.CallStep? {
      if CallsOut(w, step.id) {
        CallStepShape(cfg, w, step.id, step.reply);
        CallKeepsLocal(cfg, w, Apply(cfg, w, step), step.id, EffectOf(w.sessions[step.id].due.value, step.reply));
      }
    } else {
      OthersKeepLocal(cfg, w, step);
    }
  }

  lemma {:induction false} ReachedLocal(cfg: Config, steps: seq<Step>)
    ensures Local(cfg, Reached(cfg, steps))
    decreases |steps|
  {
    if steps != [] {
      var before := steps[..|steps| - 1];
      ReachedLocal(cfg, before);
      ReachedInv(cfg, before);
      StepKeepsLocal(cfg, Reached(cfg, before), steps[|steps| - 1]);
    }
  }

  // -------------------------------------------------------------- each attempt at most once

  /** An attempt of the current batch that has been called. */
  ghost predicate Begun(w: World, attempt: int) {
    && w.record.intent.Some? && InBatch(w.record.intent.value) && attempt <= w.record.repairs
    && (w.record.intent.value.Implementation? && attempt == w.record.repairs ==>
          forall id | CallsOut(w, id) :: !w.sessions[id].due.value.CallImplement?)
    && (w.record.intent.value.Validation? && w.record.phase == Repairing ==> attempt < w.record.repairs)
  }

  ghost predicate BegunSound(w: World, e: Effect) {
    e.Implemented? ==> e.batch <= w.record.batch + 1 && (e.batch == w.record.batch + 1 ==> Begun(w, e.attempt))
  }

  predicate SameAttempt(e: Effect, f: Effect) {
    e.Implemented? && f.Implemented? && e.batch == f.batch && e.attempt == f.attempt
  }

  ghost predicate AttemptedOnce(w: World) {
    && (forall i | 0 <= i < |w.effects| :: BegunSound(w, w.effects[i]))
    && (forall i, j | 0 <= i < j < |w.effects| :: !SameAttempt(w.effects[i], w.effects[j]))
  }

  lemma CallKeepsOnce(cfg: Config, w: World, v: World, id: nat, e: Effect)
    requires Announced(cfg, w) && IntentSound(w.record) && AttemptedOnce(w) && AfterCalling(w, v, id, e)
    requires e.Implemented? <==> w.sessions[id].due.value.CallImplement?
    requires e.Implemented? ==>
      w.sessions[id].due == Some(CallImplement(e.batch, e.attempt)) && v.sessions[id].due.None?
    ensures AttemptedOnce(v)
  {
    assert forall other :: CallsOut(v, other) ==> CallsOut(w, other);
    assert DueMatches(cfg, w.sessions[id].due.value, w.record);
    forall i | 0 <= i < |w.effects|
      ensures BegunSound(v, w.effects[i]) && !SameAttempt(w.effects[i], e)
    {
      assert BegunSound(w, w.effects[i]);
    }
    assert BegunSound(v, e);
  }

  lemma MadeCallNamed(cfg: Config, w: World, id: nat, reply: Reply)
    requires CallsOut(w, id)
    ensures var e := EffectOf(w.sessions[id].due.value, reply);
      && (e.Implemented? <==> w.sessions[id].due.value.CallImplement?)
      && (e.Implemented? ==> w.sessions[id].due == Some(CallImplement(e.batch, e.attempt))
                             && Apply(cfg, w, CallStep(id, reply)).sessions[id].due.None?)
  {
  }

  /** How an update moves the attempt counter along. */
  lemma AttemptMoves(cfg: Config, s: Session, deed: Deed, attempt: int)
    requires IntentSound(s.held) && Allowed(cfg, s, deed) && !deed.RecordBatch?
    requires s.due.Some? ==> DueMatches(cfg, s.due.value, s.held)
    requires s.held.intent.Some? && InBatch(s.held.intent.value) && attempt <= s.held.repairs
    requires s.held.intent.value.Implementation? && attempt == s.held.repairs ==>
      !(s.due.Some? && s.due.value.CallImplement?)
    requires s.held.intent.value.Validation? && s.held.phase == Repairing ==> attempt < s.held.repairs
    ensures var n := Advance(cfg, s, deed);
      && n.held.intent.Some? && InBatch(n.held.intent.value) && attempt <= n.held.repairs
      && (n.held.intent.value.Implementation? && attempt == n.held.repairs ==>
            !(n.due.Some? && n.due.value.CallImplement?))
      && (n.held.intent.value.Validation? && n.held.phase == Repairing ==> attempt < n.held.repairs)
  {
  }

  lemma DoKeepsOnce(cfg: Config, w: World, v: World, id: nat, deed: Deed)
    requires IntentSound(w.record) && AttemptedOnce(w) && AfterDeed(cfg, w, v, id, deed)
    ensures AttemptedOnce(v)
  {
    BatchMoves(cfg, w.sessions[id], deed);
    forall i | 0 <= i < |v.effects|
      ensures BegunSound(v, v.effects[i])
    {
      DoKeepsBegun(cfg, w, v, id, deed, w.effects[i]);
    }
  }

  lemma DoKeepsBegun(cfg: Config, w: World, v: World, id: nat, deed: Deed, e: Effect)
    requires IntentSound(w.record) && BegunSound(w, e) && AfterDeed(cfg, w, v, id, deed)
    ensures BegunSound(v, e)
  {
    BatchMoves(cfg, w.sessions[id], deed);
    assert forall other :: CallsOut(v, other) ==> other == id;
    if e.Implemented? && e.batch == w.record.batch + 1 && !deed.RecordBatch? {
      assert w.sessions[id].due.Some? ==> CallsOut(w, id);
      AttemptMoves(cfg, w.sessions[id], deed, e.attempt);
    }
  }

  lemma OthersKeepOnce(cfg: Config, w: World, step: Step)
    requires AttemptedOnce(w) && !step.DoStep? && !step.CallStep?
    ensures AttemptedOnce(Apply(cfg, w, step))
  {
    var v := Apply(cfg, w, step);
    assert v.effects == w.effects;
    forall i | 0 <= i < |v.effects|
      ensures BegunSound(v, v.effects[i])
    {
      assert BegunSound(w, w.effects[i]);
      OthersKeepBegun(cfg, w, step, w.effects[i]);
    }
  }

  lemma OthersKeepBegun(cfg: Config, w: World, step: Step, e: Effect)
    requires BegunSound(w, e) && !step.DoStep? && !step.CallStep?
    ensures BegunSound(Apply(cfg, w, step), e)
  {
    var v := Apply(cfg, w, step);
    assert v.record.batch == w.record.batch && v.record.repairs == w.record.repairs
      && v.record.intent == w.record.intent;
    assert w.record.intent.Some? ==> v.record.phase == w.record.phase || v.record.phase == Blocked;
    assert w.record.intent.Some? ==> forall other :: CallsOut(v, other) ==>
      CallsOut(w, other) && v.sessions[other] == w.sessions[other];
  }

  lemma StepKeepsOnce(cfg: Config, w: World, step: Step)
    requires Inv(cfg, w) && AttemptedOnce(w)
    ensures AttemptedOnce(Apply(cfg, w, step))
  {
    if step.DoStep? {
      if Performs(cfg, w, step.id, step.now, step.deed) {
        DeedShape(cfg, w, step.id, step.now, step.deed);
        DoKeepsOnce(cfg, w, Apply(cfg, w, step), step.id, step.deed);
      }
    } else if step.CallStep? {
      if CallsOut(w, step.id) {
        CallStepShape(cfg, w, step.id, step.reply);
        MadeCallNamed(cfg, w, step.id, step.reply);
        CallKeepsOnce(cfg, w, Apply(cfg, w, step), step.id, EffectOf(w.sessions[step.id].due.value, step.reply));
      }
    } else {
      OthersKeepOnce(cfg, w, step);
    }
  }

  /** Over the whole life of an objective no attempt of any batch is ever implemented twice. */
  lemma {:induction false} ReachedOnce(cfg: Config, steps: seq<Step>)
    ensures AttemptedOnce(Reached(cfg, steps))
    decreases |steps|
  {
    if steps != [] {
      var before := steps[..|steps| - 1];
      ReachedOnce(cfg, before);
      ReachedInv(cfg, before);
      StepKeepsOnce(cfg, Reached(cfg, before), steps[|steps| - 1]);
    }
  }

  // ----------------------------------------------------------------------- theorems

  /** Over the whole life of an objective, however often it is resumed, no attempt of any batch
      is implemented twice. */
  lemma EachAttemptOnce(cfg: Config, steps: seq<Step>, i: nat, j: nat)
    requires i < |Reached(cfg, steps).effects| && j < |Reached(cfg, steps).effects|
    requires SameAttempt(Reached(cfg, steps).effects[i], Reached(cfg, steps).effects[j])
    ensures i == j
  {
    ReachedOnce(cfg, steps);
    var effects := Reached(cfg, steps).effects;
    assert SameAttempt(effects[j], effects[i]);
  }

  /** What a worker has frozen for its batch, its implementations really returned. */
  lemma FrozenWasImplemented(cfg: Config, steps: seq<Step>, id: nat, k: nat)
    requires id in Reached(cfg, steps).sessions && k < |Reached(cfg, steps).sessions[id].attempts|
    ensures var w := Reached(cfg, steps); var s := w.sessions[id];
      Implemented(s.held.batch + 1, k, Some(s.attempts[k])) in w.effects
  {
    ReachedLocal(cfg, steps);
    LocalAttempt(cfg, Reached(cfg, steps), id, k);
  }

  lemma LocalAttempt(cfg: Config, w: World, id: nat, k: nat)
    requires Local(cfg, w) && id in w.sessions && k < |w.sessions[id].attempts|
    ensures Implemented(w.sessions[id].held.batch + 1, k, Some(w.sessions[id].attempts[k])) in w.effects
  {
    TracedAttempt(cfg, w.sessions[id], w.effects, k);
  }

  lemma TracedAttempt(cfg: Config, s: Session, effects: seq<Effect>, k: nat)
    requires BatchTraced(cfg, s, effects) && k < |s.attempts|
    ensures Implemented(s.held.batch + 1, k, Some(s.attempts[k])) in effects
  {
  }

  /** Repair locality, over every run: each recorded commit differs from the tree it was
      published on only in files in which the one first implementation of its batch did. */
  lemma CommitsStayLocal(cfg: Config, steps: seq<Step>, i: nat)
    requires i < |Reached(cfg, steps).record.commits|
    ensures var w := Reached(cfg, steps); var commits := w.record.commits;
      && (exists j | 0 <= j < |w.effects| :: WithinFirst(cfg, commits, i, w.effects[j]))
      && (forall j | 0 <= j < |w.effects| && w.effects[j].Implemented?
                     && w.effects[j].batch == i + 1 && w.effects[j].attempt == 0 ::
            WithinFirst(cfg, commits, i, w.effects[j]))
  {
    ReachedLocal(cfg, steps);
    var w := Reached(cfg, steps);
    assert CommitLocal(cfg, w.record.commits, i, w.effects);
    var k :| 0 <= k < |w.effects| && WithinFirst(cfg, w.record.commits, i, w.effects[k]);
    forall j | 0 <= j < |w.effects| && w.effects[j].Implemented? && w.effects[j].batch == i + 1
        && w.effects[j].attempt == 0
      ensures WithinFirst(cfg, w.record.commits, i, w.effects[j])
    {
      assert SameAttempt(w.effects[j], w.effects[k]);
      EachAttemptOnce(cfg, steps, j, k);
    }
  }
}
