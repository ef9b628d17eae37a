/** The offline evaluation run of one task, its serialised record and the record's validator. */
module RunRecord {
  import opened Results
  import opened Paths
  import opened Candidates
  import opened Objectives
  import opened Sums

  datatype Run = Run(
    taskId: TaskId,
    branch: Branch,
    baseSha: string,
    policyDigest: string,
    state: Phase,
    repairs: int,
    candidate: Option<Candidate>,
    checks: seq<Check>,
    reason: Option<string>)
  {
    predicate Terminal() {
      state == Blocked || state == Failed || state == Completed
    }
  }

  function PendingRun(task: Task): Run {
    Run(task.id, task.BranchName(), task.baseSha, task.policyDigest, Pending, 0, None, [], None)
  }

  // --------------------------------------------------------------------- transitions

  predicate StateEdge(from: Phase, to: Phase) {
    match from
    case Pending => to in {Admitted, Blocked, Failed}
    case Admitted => to in {Running, Blocked, Failed}
    case Running => to in {Validating, Blocked, Failed}
    case Validating => to in {Repairing, Completed, Blocked, Failed}
    case Repairing => to in {Validating, Blocked, Failed}
    case _ => false
  }

  predicate Bound(c: Candidate, run: Run) {
    c.taskId == run.taskId && c.branch == run.branch && c.baseSha == run.baseSha && c.policyDigest == run.policyDigest
  }

  predicate ChecksObserved(checks: seq<Check>, candidate: Binding, policy: Policy) {
    (forall c | c in checks :: Observed(c, candidate, policy)) && DistinctNames(checks)
  }

  predicate Passing(checks: seq<Check>, policy: Policy) {
    && policy.requiredChecks <= Names(checks)
    && (forall c | c in checks :: c.status == StatusPassed)
    && (forall c | c in checks && c.name in COUNTED_CHECKS :: c.testsRun.Some?)
  }

  predicate SomeFailed(checks: seq<Check>) {
    exists c | c in checks :: c.status == StatusFailed
  }

  /** `transition`. */
  function Transition(run: Run, target: Phase, policy: Policy, candidate: Option<Candidate>, checks: seq<Check>,
                      reason: Option<string>): Result<Run> {
    if run.policyDigest != policy.digest || run.baseSha != policy.baseSha then Rejected
    else if !StateEdge(run.state, target) || target == Admitted then Rejected
    else if !(0 <= run.repairs <= policy.maxRepairAttempts) then Rejected
    else if target == Blocked || target == Failed then
      if reason.Some? && IsText(reason.value, 1024) && candidate.None? && checks == []
      then Ok(run.(state := target, reason := reason)) else Rejected
    else if reason.Some? then Rejected
    else if target == Validating then
      if candidate.Some? && checks == [] && Bound(candidate.value, run)
      then Ok(run.(state := target, candidate := candidate, checks := [])) else Rejected
    else if target == Completed || target == Repairing then
      if candidate.Some? || run.candidate.None? || !ChecksObserved(checks, run.candidate.value.digest, policy)
      then Rejected
      else if target == Completed then
        if run.candidate.value.ScopeValid() && Passing(checks, policy)
        then Ok(run.(state := target, checks := checks)) else Rejected
      else if (!run.candidate.value.ScopeValid() || SomeFailed(checks)) && run.repairs < policy.maxRepairAttempts
      then Ok(run.(state := target, checks := checks, repairs := run.repairs + 1)) else Rejected
    else if candidate.Some? || checks != [] then Rejected
    else Ok(run.(state := target))
  }

  /** Admission needs out-of-band identity evidence, given here as one verdict. */
  datatype Command =
    | Admit(identityVerified: bool)
    | Move(target: Phase, candidate: Option<Candidate>, checks: seq<Check>, reason: Option<string>)

  function Obey(run: Run, policy: Policy, c: Command): Result<Run> {
    match c
    case Admit(verified) =>
      if run.state == Pending && verified && run.policyDigest == policy.digest && run.baseSha == policy.baseSha
      then Ok(run.(state := Admitted)) else Rejected
    case Move(target, candidate, checks, reason) => Transition(run, target, policy, candidate, checks, reason)
  }

  /** A run of commands each of which is accepted. */
  function ObeyAll(run: Run, policy: Policy, cs: seq<Command>): Result<Run>
    decreases |cs|
  {
    if cs == [] then Ok(run)
    else
      var before :- ObeyAll(run, policy, cs[..|cs| - 1]);
      Obey(before, policy, cs[|cs| - 1])
  }

  // --------------------------------------------------------------------- termination

  /** How many accepted commands a run can still take. */
  function Remaining(run: Run, policy: Policy): int {
    var repairsLeft := 2 * (policy.maxRepairAttempts - run.repairs);
    match run.state
    case Pending => 4 + repairsLeft
    case Admitted => 3 + repairsLeft
    case Running => 2 + repairsLeft
    case Validating => 1 + repairsLeft
    case Repairing => 2 + repairsLeft
    case _ => 0
  }

  predicate RepairsInRange(run: Run, policy: Policy) {
    0 <= run.repairs <= policy.maxRepairAttempts
  }

  lemma ObeyUsesOne(run: Run, policy: Policy, c: Command)
    requires RepairsInRange(run, policy) && Obey(run, policy, c).Ok?
    ensures RepairsInRange(Obey(run, policy, c).value, policy)
    ensures 0 <= Remaining(Obey(run, policy, c).value, policy) < Remaining(run, policy)
  {
  }

  /** Every run ends: no run accepts more than four commands plus two for each repair the
      policy allows, and a run that has used them all is in a terminal state. */
  lemma {:induction false} RunsTerminate(task: Task, policy: Policy, cs: seq<Command>)
    requires ObeyAll(PendingRun(task), policy, cs).Ok?
    ensures |cs| <= 4 + 2 * policy.maxRepairAttempts
    ensures var run := ObeyAll(PendingRun(task), policy, cs).value;
      RepairsInRange(run, policy) && 0 <= Remaining(run, policy) <= 4 + 2 * policy.maxRepairAttempts - |cs|
    ensures |cs| == 4 + 2 * policy.maxRepairAttempts ==> ObeyAll(PendingRun(task), policy, cs).value.Terminal()
    decreases |cs|
  {
    if cs != [] {
      RunsTerminate(task, policy, cs[..|cs| - 1]);
      ObeyUsesOne(ObeyAll(PendingRun(task), policy, cs[..|cs| - 1]).value, policy, cs[|cs| - 1]);
    }
  }

  /** ... and no run is stuck before: any run of this policy can still be blocked. */
  lemma NeverStuck(run: Run, policy: Policy)
    requires RepairsInRange(run, policy) && run.policyDigest == policy.digest && run.baseSha == policy.baseSha
    ensures !run.Terminal() <==> Obey(run, policy, Move(Blocked, None, [], Some("stopped"))).Ok?
  {
    assert StripLeft("stopped") == "stopped" && StripRight("stopped") == "stopped";
    assert IsText("stopped", 1024);
  }

  // ------------------------------------------------------------------ the serialised record

  datatype Serialised = Serialised(
    taskId: TaskId,
    branch: Branch,
    baseSha: string,
    policyDigest: string,
    state: Phase,
    repairs: int,
    candidate: Option<Binding>,
    changes: seq<Change>,
    violations: seq<Violation>,
    tests: seq<Check>,
    reason: Option<string>,
    publishable: bool)

  /** `Run.to_dict`. */
  function ToRecord(run: Run): Serialised {
    Serialised(run.taskId, run.branch, run.baseSha, run.policyDigest, run.state, run.repairs,
               if run.candidate.Some? then Some(run.candidate.value.digest) else None,
               if run.candidate.Some? then run.candidate.value.changes else [],
               if run.candidate.Some? then run.candidate.value.violations else [],
               run.checks, run.reason, false)
  }

  const MAX_RECORD_BYTES := 1048576
  const MAX_CHANGES := 20000
  const MAX_VIOLATIONS := 100000
  const MAX_TESTS := 128

  predicate NamesPath(v: Violation) {
    !(v.EmptyCandidate? || v.ChangedFileLimit? || v.ChangedByteLimit?)
  }

  function Label(v: Violation): string {
    match v
    case OperationNotPermitted(_) => "operation_not_permitted:"
    case OutsidePolicy(_) => "outside_policy:"
    case OutsideTask(_) => "outside_task:"
    case ProtectedPath(_) => "protected_path:"
    case UnsafeMode(_) => "unsafe_mode:"
    case ModeChange(_) => "mode_change:"
    case EmptyCandidate => "empty_candidate"
    case ChangedFileLimit => "changed_file_limit"
    case ChangedByteLimit => "changed_byte_limit"
  }

  function ViolationText(v: Violation): string {
    Label(v) + if NamesPath(v) then v.path else ""
  }

  predicate TaskIdWellFormed(id: TaskId) {
    1 <= id.issue < 0x8000_0000 && 1 <= id.revision <= 999999 && |id.digest| == 64
  }

  predicate KnownMode(mode: Option<string>) {
    mode.Some? ==> mode.value in GIT_MODES
  }

  predicate ChangeWellFormed(c: Change) {
    && PathName(c.path, false)
    && KnownMode(c.oldMode) && KnownMode(c.newMode)
    && (match c.operation
        case Add => c.oldMode.None? && c.newMode.Some?
        case Delete => c.oldMode.Some? && c.newMode.None?
        case Modify => c.oldMode.Some? && c.newMode.Some?)
  }

  /** No two changed paths differ only in letter case. */
  predicate NoCaseCollision(changes: seq<Change>) {
    forall i, j | 0 <= i < j < |changes| :: Fold(changes[i].path) != Fold(changes[j].path)
  }

  predicate ChangesAccepted(changes: seq<Change>) {
    && |changes| <= MAX_CHANGES
    && (forall c | c in changes :: ChangeWellFormed(c))
    && NoCaseCollision(changes)
  }

  predicate ViolationsAccepted(violations: seq<Violation>) {
    |violations| <= MAX_VIOLATIONS && forall v | v in violations :: IsText(ViolationText(v), 4096)
  }

  predicate TestsAccepted(r: Serialised, policy: Policy) {
    && |r.tests| <= MAX_TESTS
    && (r.candidate.None? ==> r.changes == [] && r.violations == [] && r.tests == [])
    && (r.candidate.Some? ==> ChecksObserved(r.tests, r.candidate.value, policy))
  }

  predicate SafeChange(c: Change, policy: Policy) {
    && !ModeOutside(policy.allowedModes, c.oldMode) && !ModeOutside(policy.allowedModes, c.newMode)
    && CoveredBySome(policy.permittedPaths, c.path) && !CoveredBySome(policy.protectedPaths, c.path)
  }

  predicate StateAccepted(r: Serialised, policy: Policy) {
    && (if r.state == Blocked || r.state == Failed
        then r.reason.Some? && IsText(r.reason.value, 1024) else r.reason.None?)
    && (r.state in {Pending, Admitted, Running} ==> r.candidate.None?)
    && (r.state in {Validating, Repairing, Completed} ==> r.candidate.Some?)
    && (r.state == Validating ==> r.tests == [])
    && (r.state == Repairing ==> r.repairs > 0 && (r.violations != [] || SomeFailed(r.tests)))
    && (r.state == Completed ==>
          && r.changes != [] && r.violations == [] && |r.changes| <= policy.maxChangedFiles
          && Passing(r.tests, policy)
          && forall c | c in r.changes :: SafeChange(c, policy))
  }

  predicate HeaderAccepted(r: Serialised, policy: Policy) {
    && r.policyDigest == policy.digest && r.baseSha == policy.baseSha
    && TaskIdWellFormed(r.taskId) && r.branch == BranchOf(r.taskId)
    && 0 <= r.repairs <= policy.maxRepairAttempts && !r.publishable
  }

  /** Everything `validate_result` demands; `size` is the length of the encoded record. */
  predicate RecordAccepted(r: Serialised, policy: Policy, size: nat) {
    && size <= MAX_RECORD_BYTES
    && HeaderAccepted(r, policy)
    && ChangesAccepted(r.changes)
    && ViolationsAccepted(r.violations)
    && TestsAccepted(r, policy)
    && StateAccepted(r, policy)
  }

  method CheckChanges(changes: seq<Change>) returns (ok: bool)
    ensures ok <==> ChangesAccepted(changes)
  {
    if |changes| > MAX_CHANGES {
      return false;
    }
    var paths: set<string> := {};
    for i := 0 to |changes|
      invariant forall j | 0 <= j < i :: ChangeWellFormed(changes[j]) && Fold(changes[j].path) in paths
      invariant forall f | f in paths :: exists j | 0 <= j < i :: Fold(changes[j].path) == f
      invariant NoCaseCollision(changes[..i])
    {
      var c := changes[i];
      assert c in changes;
      if !ChangeWellFormed(c) || Fold(c.path) in paths {
        return false;
      }
      assert changes[..i + 1] == changes[..i] + [c];
      paths := paths + {Fold(c.path)};
    }
    assert changes[..|changes|] == changes;
    return true;
  }

  method CheckTests(tests: seq<Check>, candidate: Binding, policy: Policy) returns (ok: bool)
    ensures ok <==> ChecksObserved(tests, candidate, policy)
  {
    var names: set<string> := {};
    for i := 0 to |tests|
      invariant forall j | 0 <= j < i :: Observed(tests[j], candidate, policy) && tests[j].name in names
      invariant forall n | n in names :: exists j | 0 <= j < i :: tests[j].name == n
      invariant DistinctNames(tests[..i])
    {
      var c := tests[i];
      assert c in tests;
      if !Observed(c, candidate, policy) || c.name in names {
        return false;
      }
      assert tests[..i + 1] == tests[..i] + [c];
      names := names + {c.name};
    }
    assert tests[..|tests|] == tests;
    return true;
  }

  /** `validate_result`. */
  method ValidateResult(r: Serialised, policy: Policy, size: nat) returns (ok: bool)
    ensures ok <==> RecordAccepted(r, policy, size)
  {
    if size > MAX_RECORD_BYTES || r.policyDigest != policy.digest || r.baseSha != policy.baseSha
       || !TaskIdWellFormed(r.taskId) || r.branch != BranchOf(r.taskId)
       || !(0 <= r.repairs <= policy.maxRepairAttempts) || r.publishable {
      return false;
    }
    var changesOk := CheckChanges(r.changes);
    if !changesOk || !ViolationsAccepted(r.violations) {
      return false;
    }
    if r.candidate.None? {
      if r.changes != [] || r.violations != [] || r.tests != [] {
        return false;
      }
    } else {
      var testsOk := CheckTests(r.tests, r.candidate.value, policy);
      if !testsOk {
        return false;
      }
    }
    return |r.tests| <= MAX_TESTS && StateAccepted(r, policy);
  }

  // ------------------------------------------------------------- reachable runs are accepted

  /** The candidate came from an inspection of two valid inventories for this task. */
  ghost predicate Inspected(c: Candidate, task: Task, policy: Policy) {
    exists base, after :: ValidSnapshot(base) && ValidSnapshot(after) && Describes(c, task, policy, base, after)
  }

  ghost predicate CandidatesInspected(cs: seq<Command>, task: Task, policy: Policy) {
    forall c | c in cs && c.Move? && c.candidate.Some? :: Inspected(c.candidate.value, task, policy)
  }

  ghost predicate EvidenceSound(run: Run, task: Task, policy: Policy) {
    && (run.candidate.Some? ==> Inspected(run.candidate.value, task, policy))
    && (run.candidate.None? ==> run.checks == [])
    && (run.candidate.Some? ==> ChecksObserved(run.checks, run.candidate.value.digest, policy))
  }

  predicate StateSound(run: Run, policy: Policy) {
    match run.state
    case Pending => run.candidate.None? && run.reason.None?
    case Admitted => run.candidate.None? && run.reason.None?
    case Running => run.candidate.None? && run.reason.None?
    case Validating => run.candidate.Some? && run.checks == [] && run.reason.None?
    case Repairing =>
      run.candidate.Some? && run.reason.None? && run.repairs > 0
          && (!run.candidate.value.ScopeValid() || SomeFailed(run.checks))
    case Completed =>
      run.candidate.Some? && run.reason.None? && run.candidate.value.ScopeValid() && Passing(run.checks, policy)
    case _ => run.reason.Some? && IsText(run.reason.value, 1024)
  }

  ghost predicate RunSound(run: Run, task: Task, policy: Policy) {
    && run.taskId == task.id && run.branch == task.BranchName()
    && run.baseSha == policy.baseSha && run.policyDigest == policy.digest
    && RepairsInRange(run, policy)
    && EvidenceSound(run, task, policy)
    && StateSound(run, policy)
  }

  lemma ObeyKeepsHeader(run: Run, policy: Policy, c: Command)
    requires Obey(run, policy, c).Ok? && RepairsInRange(run, policy)
    ensures var next := Obey(run, policy, c).value;
      && RepairsInRange(next, policy)
      && (next.taskId, next.branch, next.baseSha, next.policyDigest)
            == (run.taskId, run.branch, run.baseSha, run.policyDigest)
  {
  }

  /** A command leaves the evidence alone, replaces it by a fresh candidate, or attaches checks
      observed for the frozen one. */
  predicate EvidenceStep(run: Run, next: Run, policy: Policy, c: Command) {
    || (next.candidate == run.candidate && next.checks == run.checks)
    || (c.Move? && c.candidate.Some? && next.candidate == c.candidate && next.checks == [])
    || (run.candidate.Some? && next.candidate == run.candidate
          && ChecksObserved(next.checks, run.candidate.value.digest, policy))
  }

  lemma ObeyStepsEvidence(run: Run, policy: Policy, c: Command)
    requires Obey(run, policy, c).Ok?
    ensures EvidenceStep(run, Obey(run, policy, c).value, policy, c)
  {
  }

  lemma NoChecksObserved(candidate: Binding, policy: Policy)
    ensures ChecksObserved([], candidate, policy)
  {
  }

  lemma StepKeepsEvidence(run: Run, next: Run, task: Task, policy: Policy, c: Command)
    requires EvidenceSound(run, task, policy) && EvidenceStep(run, next, policy, c)
    requires c.Move? && c.candidate.Some? ==> Inspected(c.candidate.value, task, policy)
    ensures EvidenceSound(next, task, policy)
  {
    if next.candidate.Some? {
      NoChecksObserved(next.candidate.value.digest, policy);
    }
  }

  lemma ObeyKeepsEvidence(run: Run, task: Task, policy: Policy, c: Command)
    requires EvidenceSound(run, task, policy) && Obey(run, policy, c).Ok?
    requires c.Move? && c.candidate.Some? ==> Inspected(c.candidate.value, task, policy)
    ensures EvidenceSound(Obey(run, policy, c).value, task, policy)
  {
    ObeyStepsEvidence(run, policy, c);
    StepKeepsEvidence(run, Obey(run, policy, c).value, task, policy, c);
  }

  lemma ObeyKeepsState(run: Run, policy: Policy, c: Command)
    requires StateSound(run, policy) && Obey(run, policy, c).Ok? && RepairsInRange(run, policy)
    ensures StateSound(Obey(run, policy, c).value, policy)
  {
  }

  lemma ObeyKeepsSound(run: Run, task: Task, policy: Policy, c: Command)
    requires RunSound(run, task, policy) && Obey(run, policy, c).Ok?
    requires c.Move? && c.candidate.Some? ==> Inspected(c.candidate.value, task, policy)
    ensures RunSound(Obey(run, policy, c).value, task, policy)
  {
    ObeyKeepsHeader(run, policy, c);
    ObeyKeepsEvidence(run, task, policy, c);
    ObeyKeepsState(run, policy, c);
  }

  lemma {:induction false} ReachableIsSound(task: Task, policy: Policy, cs: seq<Command>)
    requires TaskAccepted(task, policy) && CandidatesInspected(cs, task, policy)
    requires ObeyAll(PendingRun(task), policy, cs).Ok?
    ensures RunSound(ObeyAll(PendingRun(task), policy, cs).value, task, policy)
    decreases |cs|
  {
    if cs != [] {
      var before := cs[..|cs| - 1];
      assert forall c | c in before :: c in cs;
      assert cs[|cs| - 1] in cs;
      ReachableIsSound(task, policy, before);
      ObeyKeepsSound(ObeyAll(PendingRun(task), policy, before).value, task, policy, cs[|cs| - 1]);
    }
  }

  lemma ListedChangeWellFormed(base: Snapshot, after: Snapshot, path: string)
    requires ValidSnapshot(base) && ValidSnapshot(after) && path in Diff(base, after)
    ensures ChangeWellFormed(ChangeOf(base, after, path))
  {
    assert path in base ==> EntryWellFormed(base, path);
    assert path in after ==> EntryWellFormed(after, path);
    ChangedEntryWellFormed(base, after, path);
  }

  predicate EntryWellFormed(entries: Snapshot, path: string) {
    path in entries && PathName(path, false) && entries[path].mode in GIT_MODES
  }

  lemma ChangedEntryWellFormed(base: Snapshot, after: Snapshot, path: string)
    requires path in Diff(base, after)
    requires path in base ==> EntryWellFormed(base, path)
    requires path in after ==> EntryWellFormed(after, path)
    ensures ChangeWellFormed(ChangeOf(base, after, path))
  {
  }

  lemma InspectedChangesWellFormed(c: Candidate, task: Task, policy: Policy)
    requires Inspected(c, task, policy)
    ensures forall change | change in c.changes :: ChangeWellFormed(change)
  {
    var base, after :| ValidSnapshot(base) && ValidSnapshot(after) && Describes(c, task, policy, base, after);
    forall change | change in c.changes
      ensures ChangeWellFormed(change)
    {
      ListedChangeWellFormed(base, after, change.path);
    }
  }

  lemma {:induction false} StripRightKeepsFirst(s: string)
    requires s != [] && !IsSpace(s[0])
    ensures 0 < |StripRight(s)| <= |s|
    decreases |s|
  {
    if IsSpace(s[|s| - 1]) {
      StripRightKeepsFirst(s[..|s| - 1]);
    }
  }

  lemma PrintableIsText(s: string)
    requires 0 < |s| <= 4096 && forall c | c in s :: c > ' '
    ensures IsText(s, 4096)
  {
    assert s[0] in s;
    StripRightKeepsFirst(s);
  }

  predicate Printable(s: string) {
    forall c | c in s :: c > ' '
  }

  lemma PartIsPrintable(part: string)
    requires PathPart(part)
    ensures Printable(part)
  {
    assert forall c | c in part :: PathChar(c);
  }

  lemma {:induction false} SplitPrintable(s: string)
    requires forall part | part in Split(s, '/') :: Printable(part)
    ensures Printable(s)
    decreases |s|
  {
    if s != [] {
      var rest := Split(s[1..], '/');
      if s[0] == '/' {
        assert forall part | part in rest :: part in Split(s, '/');
      } else {
        assert Split(s, '/') == [[s[0]] + rest[0]] + rest[1..];
        assert [s[0]] + rest[0] in Split(s, '/');
        assert s[0] in [s[0]] + rest[0];
        forall part | part in rest
          ensures Printable(part)
        {
          if part == rest[0] {
            assert forall c | c in part :: c in [s[0]] + rest[0];
          } else {
            assert part in rest[1..];
            assert part in Split(s, '/');
          }
        }
      }
      SplitPrintable(s[1..]);
      assert s == [s[0]] + s[1..];
    }
  }

  lemma PathIsPrintable(path: string)
    requires PathName(path, false)
    ensures Printable(path)
  {
    forall part | part in Split(path, '/')
      ensures Printable(part)
    {
      PartIsPrintable(part);
    }
    SplitPrintable(path);
  }

  lemma LabelIsPrintable(v: Violation)
    ensures 0 < |Label(v)| <= 30 && Printable(Label(v))
  {
    if v.OperationNotPermitted? || v.OutsidePolicy? || v.OutsideTask? {
      ScopeLabelIsPrintable(v);
    } else if v.ProtectedPath? || v.UnsafeMode? || v.ModeChange? {
      ModeLabelIsPrintable(v);
    } else {
      OverallLabelIsPrintable(v);
    }
  }

  lemma ScopeLabelIsPrintable(v: Violation)
    requires v.OperationNotPermitted? || v.OutsidePolicy? || v.OutsideTask?
    ensures 0 < |Label(v)| <= 30 && Printable(Label(v))
  {
  }

  lemma ModeLabelIsPrintable(v: Violation)
    requires v.ProtectedPath? || v.UnsafeMode? || v.ModeChange?
    ensures 0 < |Label(v)| <= 30 && Printable(Label(v))
  {
  }

  lemma OverallLabelIsPrintable(v: Violation)
    requires v.EmptyCandidate? || v.ChangedFileLimit? || v.ChangedByteLimit?
    ensures 0 < |Label(v)| <= 30 && Printable(Label(v))
  {
  }

  lemma ViolationIsText(v: Violation)
    requires NamesPath(v) ==> PathName(v.path, false)
    ensures IsText(ViolationText(v), 4096)
  {
    LabelIsPrintable(v);
    if NamesPath(v) {
      PathIsPrintable(v.path);
    }
    PrintableIsText(ViolationText(v));
  }

  lemma InspectedViolationsAreText(c: Candidate, task: Task, policy: Policy)
    requires Inspected(c, task, policy)
    ensures forall v | v in c.violations :: IsText(ViolationText(v), 4096)
  {
    var base, after :| ValidSnapshot(base) && ValidSnapshot(after) && Describes(c, task, policy, base, after);
    forall v | v in c.violations
      ensures IsText(ViolationText(v), 4096)
    {
      assert ViolationDue(task, policy, base, after, v);
      if NamesPath(v) {
        assert v.path in Diff(base, after);
        assert v.path in base.Keys || v.path in after.Keys;
        assert PathName(v.path, false);
      }
      ViolationIsText(v);
    }
  }

  lemma CleanChangesAreSafe(c: Candidate, task: Task, policy: Policy)
    requires Inspected(c, task, policy) && c.ScopeValid()
    ensures 0 < |c.changes| <= policy.maxChangedFiles
    ensures forall change | change in c.changes :: SafeChange(change, policy)
  {
    var base, after :| ValidSnapshot(base) && ValidSnapshot(after) && Describes(c, task, policy, base, after);
    ScopeValidMeaning(c, task, policy, base, after);
    forall change | change in c.changes
      ensures SafeChange(change, policy)
    {
      assert change.path in Diff(base, after) && change == ChangeOf(base, after, change.path);
    }
  }

  // ---------------------------------------------------------------- the main result

  /** The limits of the validator that no earlier step enforces. */
  predicate WithinRecordLimits(run: Run, size: nat) {
    && size <= MAX_RECORD_BYTES
    && |run.checks| <= MAX_TESTS
    && (run.candidate.Some? ==> WithinCandidateLimits(run.candidate.value))
  }

  predicate WithinCandidateLimits(c: Candidate) {
    && |c.changes| <= MAX_CHANGES
    && |c.violations| <= MAX_VIOLATIONS
    && NoCaseCollision(c.changes)
  }

  lemma SoundEvidenceAccepted(run: Run, task: Task, policy: Policy)
    requires EvidenceSound(run, task, policy)
    ensures ChangesAccepted(ToRecord(run).changes) && ViolationsAccepted(ToRecord(run).violations)
      <==> (run.candidate.Some? ==> WithinCandidateLimits(run.candidate.value))
    ensures |run.checks| <= MAX_TESTS <==> TestsAccepted(ToRecord(run), policy)
  {
    if run.candidate.Some? {
      InspectedChangesWellFormed(run.candidate.value, task, policy);
      InspectedViolationsAreText(run.candidate.value, task, policy);
    }
  }

  lemma SoundStateAccepted(run: Run, task: Task, policy: Policy)
    requires EvidenceSound(run, task, policy) && StateSound(run, policy)
    ensures StateAccepted(ToRecord(run), policy)
  {
    if run.state == Completed {
      CleanChangesAreSafe(run.candidate.value, task, policy);
    }
  }

  lemma SoundHeaderAccepted(run: Run, task: Task, policy: Policy)
    requires TaskAccepted(task, policy) && RunSound(run, task, policy)
    ensures HeaderAccepted(ToRecord(run), policy)
  {
  }

  lemma SoundRecordAcceptedIff(run: Run, task: Task, policy: Policy, size: nat)
    requires TaskAccepted(task, policy) && RunSound(run, task, policy)
    ensures RecordAccepted(ToRecord(run), policy, size) <==> WithinRecordLimits(run, size)
  {
    SoundHeaderAccepted(run, task, policy);
    SoundEvidenceAccepted(run, task, policy);
    SoundStateAccepted(run, task, policy);
  }

  /** A reachable run's record is accepted exactly when it is within limits no earlier step
      enforces: the sizes, and no two changed paths that differ only in letter case. */
  lemma ReachableRecordAcceptedIff(task: Task, policy: Policy, cs: seq<Command>, size: nat)
    requires TaskAccepted(task, policy) && CandidatesInspected(cs, task, policy)
    requires ObeyAll(PendingRun(task), policy, cs).Ok?
    ensures var run := ObeyAll(PendingRun(task), policy, cs).value;
      RecordAccepted(ToRecord(run), policy, size) <==> WithinRecordLimits(run, size)
  {
    ReachableIsSound(task, policy, cs);
    SoundRecordAcceptedIff(ObeyAll(PendingRun(task), policy, cs).value, task, policy, size);
  }

  // ------------------------------------------------- the collision is a case-only rename

  /** `p` disappears and `q`, which differs from it only in letter case, appears. */
  predicate CaseRename(base: Snapshot, after: Snapshot, p: string, q: string) {
    p in base && p !in after && q in after && q !in base && Fold(p) == Fold(q)
  }

  lemma CollisionIsCaseRename(base: Snapshot, after: Snapshot, p: string, q: string)
    requires ValidSnapshot(base) && ValidSnapshot(after)
    requires p in Diff(base, after) && q in Diff(base, after) && p != q && Fold(p) == Fold(q)
    ensures CaseRename(base, after, p, q) || CaseRename(base, after, q, p)
  {
    assert FoldDistinct(base.Keys) && FoldDistinct(after.Keys);
  }

  lemma CaseRenameCollides(changes: seq<Change>, base: Snapshot, after: Snapshot, p: string, q: string)
    requires ListsChanges(changes, base, after, Diff(base, after)) && CaseRename(base, after, p, q)
    ensures !NoCaseCollision(changes)
  {
    assert ChangeOf(base, after, p) in changes && ChangeOf(base, after, q) in changes;
    var i :| 0 <= i < |changes| && changes[i] == ChangeOf(base, after, p);
    var j :| 0 <= j < |changes| && changes[j] == ChangeOf(base, after, q);
    assert i != j;
  }

  /** Inspection of valid inventories yields colliding changes exactly when some file is
      renamed to a name that differs only in letter case. */
  lemma CollidesIffCaseRename(c: Candidate, task: Task, policy: Policy, base: Snapshot, after: Snapshot)
    requires ValidSnapshot(base) && ValidSnapshot(after) && Describes(c, task, policy, base, after)
    ensures !NoCaseCollision(c.changes) <==> exists p, q :: CaseRename(base, after, p, q)
  {
    if !NoCaseCollision(c.changes) {
      var i, j :| 0 <= i < j < |c.changes| && Fold(c.changes[i].path) == Fold(c.changes[j].path);
      CollisionIsCaseRename(base, after, c.changes[i].path, c.changes[j].path);
    }
    if p, q :| CaseRename(base, after, p, q) {
      CaseRenameCollides(c.changes, base, after, p, q);
    }
  }

  /** The scope report does not catch it: renaming `A` to `a` is a clean candidate. */
  lemma CaseRenameIsScopeValid(task: Task, policy: Policy, base: Snapshot, after: Snapshot)
    requires TaskAccepted(task, policy) && PolicyAccepted(policy)
    requires policy.maxChangedFiles >= 2 && task.permittedPaths == {"A"}
    requires {Add, Delete} <= task.permittedOperations
    requires base == map["A" := FileEntry(REGULAR_MODE, [])] && after == map["a" := FileEntry(REGULAR_MODE, [])]
    ensures ValidSnapshot(base) && ValidSnapshot(after)
    ensures CaseRename(base, after, "A", "a")
    ensures forall v :: !ViolationDue(task, policy, base, after, v)
  {
    LoneFileIsValid("A");
    LoneFileIsValid("a");
    RenameDiffers(base, after);
    RenameIsClean(task, policy, base, after);
    forall v: Violation
      ensures !ViolationDue(task, policy, base, after, v)
    {
      CleanIsNothingDue(task, policy, base, after, v);
    }
  }

  lemma RenameDiffers(base: Snapshot, after: Snapshot)
    requires base == map["A" := FileEntry(REGULAR_MODE, [])] && after == map["a" := FileEntry(REGULAR_MODE, [])]
    ensures CaseRename(base, after, "A", "a") && Diff(base, after) == {"A", "a"}
  {
    assert Fold("A") == Fold("a");
    assert "A" in base && "A" !in after && "a" in after && "a" !in base;
  }

  lemma RenameIsClean(task: Task, policy: Policy, base: Snapshot, after: Snapshot)
    requires TaskAccepted(task, policy) && PolicyAccepted(policy)
    requires policy.maxChangedFiles >= 2 && task.permittedPaths == {"A"}
    requires {Add, Delete} <= task.permittedOperations
    requires base == map["A" := FileEntry(REGULAR_MODE, [])] && after == map["a" := FileEntry(REGULAR_MODE, [])]
    ensures CleanScope(task, policy, base, after)
  {
    RenameDiffers(base, after);
    RenamedPathIsClean(task, policy, base, after, "A");
    RenamedPathIsClean(task, policy, base, after, "a");
    EmptyFilesHaveNoVolume(base, after);
  }

  lemma EmptyFilesHaveNoVolume(base: Snapshot, after: Snapshot)
    requires forall p | p in Diff(base, after) :: BytesTouched(base, after)(p) == 0
    ensures Volume(base, after) == 0
  {
    assert (set p, i | p in Diff(base, after) && 0 <= i < BytesTouched(base, after)(p) :: (p, i)) == {};
  }

  lemma LoneCharIsPath(path: string)
    requires path == "A" || path == "a"
    ensures PathName(path, false)
  {
    SplitLone(path, '/');
    SplitLone(path, '.');
    assert Fold(path) == "a";
    assert PathPart(path);
    forall part | part in Split(path, '/')
      ensures PathPart(part)
    {
      assert part == path;
    }
  }

  lemma LoneFileIsValid(path: string)
    requires path == "A" || path == "a"
    ensures ValidSnapshot(map[path := FileEntry(REGULAR_MODE, [])])
  {
    var entries := map[path := FileEntry(REGULAR_MODE, [])];
    assert entries.Keys == {path};
    LoneCharIsPath(path);
    SumRemove({path}, SizeIn(entries), path);
    assert {path} - {path} == {};
  }

  lemma RenamedPathIsClean(task: Task, policy: Policy, base: Snapshot, after: Snapshot, path: string)
    requires TaskAccepted(task, policy) && PolicyAccepted(policy)
    requires task.permittedPaths == {"A"} && {Add, Delete} <= task.permittedOperations
    requires base == map["A" := FileEntry(REGULAR_MODE, [])] && after == map["a" := FileEntry(REGULAR_MODE, [])]
    requires path == "A" || path == "a"
    ensures PathClean(task, policy, base, after, path)
  {
    RenameDiffers(base, after);
    assert Covers("A", path);
    assert CoveredBySome(task.permittedPaths, path);
    AcceptedScopeIsContained(policy.permittedPaths, policy.protectedPaths, task.permittedPaths, path);
  }
}
