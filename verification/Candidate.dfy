/** Complete file inventories and the cumulative diff that decides what may be published.

    A SHA-256 digest is represented by the value it was computed from, so digests are
    injective by construction. */
module Candidates {
  import opened Results
  import opened Paths
  import opened Sums
  import opened Octets

  datatype FileEntry = FileEntry(mode: string, content: Bytes)
  type Snapshot = map<string, FileEntry>

  const REGULAR_MODE := "100644"
  const GIT_MODES: set<string> := {"100644", "100755", "120000", "160000"}
  const MAX_ENTRIES := 20000
  const MAX_SNAPSHOT_BYTES := 67108864

  /** The states of an evaluation run and of an objective record. */
  datatype Phase = Pending | Admitted | Running | Validating | Repairing | Blocked | Failed | Completed

  datatype Operation = Add | Modify | Delete

  datatype Policy = Policy(
    digest: string,
    baseSha: string,
    permittedPaths: set<string>,
    protectedPaths: set<string>,
    permittedOperations: set<Operation>,
    allowedModes: set<string>,
    maxChangedFiles: nat,
    maxChangedBytes: nat,
    maxRepairAttempts: nat,
    requiredChecks: set<string>,
    allowedSkipIds: set<string>)

  datatype TaskId = TaskId(issue: nat, revision: nat, digest: string)

  /** The branch name carries the issue, the revision and twelve digits of the task digest. */
  datatype Branch = Branch(issue: nat, revision: nat, shortDigest: string)

  datatype Task = Task(
    id: TaskId,
    baseSha: string,
    acceptanceCriteria: set<string>,
    permittedPaths: set<string>,
    permittedOperations: set<Operation>,
    policyDigest: string)
  {
    function BranchName(): Branch {
      BranchOf(id)
    }
  }

  function BranchOf(id: TaskId): Branch {
    Branch(id.issue, id.revision, if |id.digest| >= 12 then id.digest[..12] else id.digest)
  }

  const REQUIRED_CHECKS: set<string> := {
    "python-suite", "controller-tests", "python-syntax", "dependency-check",
    "red-launcher-smoke", "red-package-boundary"
  }

  const MANDATORY_PROTECTION: set<string> := {
    ".github/", "tools/", "AGENTS.md", "tests/test_task_automation.py",
    "tests/test_objective_controller.py", "tests/test_objective_inventory.py",
    "docs/AUTONOMOUS_DEVELOPMENT.md"
  }

  /** The parts of `load_policy` that later steps rely on. */
  predicate PolicyAccepted(p: Policy) {
    && p.allowedModes == {REGULAR_MODE}
    && MANDATORY_PROTECTION <= p.protectedPaths
    && REQUIRED_CHECKS <= p.requiredChecks
    && 1 <= p.maxChangedFiles <= 100
    && 1 <= p.maxChangedBytes <= 1048576
    && p.maxRepairAttempts <= 2
  }

  /** The parts of `parse_task` that later steps rely on. */
  predicate TaskAccepted(task: Task, policy: Policy) {
    && task.policyDigest == policy.digest
    && task.baseSha == policy.baseSha
    && 1 <= task.id.issue < 0x8000_0000
    && 1 <= task.id.revision <= 999999
    && |task.id.digest| == 64
    && task.permittedOperations <= policy.permittedOperations
    && forall s | s in task.permittedPaths :: ScopeAccepted(policy.permittedPaths, policy.protectedPaths, s)
  }

  // ------------------------------------------------------------------ snapshots

  function SizeIn(entries: Snapshot): string -> nat {
    path => if path in entries then |entries[path].content| else 0
  }

  predicate AllNamed(paths: set<string>) {
    forall p | p in paths :: PathName(p, false)
  }

  /** No two paths differ only in letter case. */
  predicate FoldDistinct(paths: set<string>) {
    forall p, q | p in paths && q in paths && Fold(p) == Fold(q) :: p == q
  }

  predicate SupportedModes(entries: Snapshot, paths: set<string>)
    requires paths <= entries.Keys
  {
    forall p | p in paths :: entries[p].mode in GIT_MODES
  }

  predicate Under(directory: string, path: string) {
    directory + "/" <= path
  }

  /** No listed file is also an ancestor directory of a listed file. */
  predicate NoFileAncestors(paths: set<string>) {
    forall p, q | p in paths && q in paths :: !Under(Fold(q), Fold(p))
  }

  ghost predicate ValidSnapshot(entries: Snapshot) {
    && |entries| <= MAX_ENTRIES
    && AllNamed(entries.Keys)
    && FoldDistinct(entries.Keys)
    && SupportedModes(entries, entries.Keys)
    && SumOver(entries.Keys, SizeIn(entries)) <= MAX_SNAPSHOT_BYTES
    && NoFileAncestors(entries.Keys)
  }

  method CheckNames(paths: set<string>) returns (ok: bool)
    ensures ok <==> AllNamed(paths)
  {
    var todo := paths;
    while todo != {}
      invariant todo <= paths && AllNamed(paths - todo)
    {
      var path :| path in todo;
      if !PathName(path, false) {
        return false;
      }
      todo := todo - {path};
    }
    return true;
  }

  function FoldAll(paths: set<string>): (r: set<string>)
    ensures forall p | p in paths :: Fold(p) in r
  {
    set p | p in paths :: Fold(p)
  }

  /** The accumulating pass: case collisions, modes and the running byte total. */
  method CheckEntries(entries: Snapshot) returns (ok: bool, seen: set<string>)
    ensures ok <==>
      && FoldDistinct(entries.Keys)
      && SupportedModes(entries, entries.Keys)
      && SumOver(entries.Keys, SizeIn(entries)) <= MAX_SNAPSHOT_BYTES
    ensures ok ==> seen == FoldAll(entries.Keys)
  {
    seen := {};
    var total := 0;
    var todo := entries.Keys;
    ghost var size := SizeIn(entries);
    while todo != {}
      invariant todo <= entries.Keys
      invariant seen == FoldAll(entries.Keys - todo)
      invariant FoldDistinct(entries.Keys - todo)
      invariant SupportedModes(entries, entries.Keys - todo)
      invariant total + SumOver(todo, size) == SumOver(entries.Keys, size)
      invariant total <= MAX_SNAPSHOT_BYTES
    {
      var path :| path in todo;
      if Fold(path) in seen {
        return false, seen;
      }
      if entries[path].mode !in GIT_MODES {
        return false, seen;
      }
      SumRemove(todo, size, path);
      total := total + |entries[path].content|;
      if total > MAX_SNAPSHOT_BYTES {
        return false, seen;
      }
      assert entries.Keys - (todo - {path}) == (entries.Keys - todo) + {path};
      seen := seen + {Fold(path)};
      todo := todo - {path};
    }
    assert entries.Keys - todo == entries.Keys;
    return true, seen;
  }

  /** Some proper ancestor directory of `path` is itself listed as a file. */
  predicate AncestorIn(path: string, seen: set<string>) {
    exists i | 0 <= i < |path| :: path[i] == '/' && path[..i] in seen
  }

  lemma AncestorsAreListed(path: string, seen: set<string>)
    ensures AncestorIn(path, seen) <==> exists q | q in seen :: Under(q, path)
  {
    if AncestorIn(path, seen) {
      var i :| 0 <= i < |path| && path[i] == '/' && path[..i] in seen;
      assert path[..i] + "/" == path[..i + 1];
      assert Under(path[..i], path);
    }
    if exists q | q in seen :: Under(q, path) {
      var q :| q in seen && Under(q, path);
      assert path[|q|] == (q + "/")[|q|] == '/';
      assert path[..|q|] == q;
    }
  }

  method CheckAncestors(paths: set<string>, seen: set<string>) returns (ok: bool)
    requires seen == FoldAll(paths)
    ensures ok <==> NoFileAncestors(paths)
  {
    var todo := seen;
    while todo != {}
      invariant todo <= seen
      invariant forall f | f in seen - todo :: !AncestorIn(f, seen)
    {
      var path :| path in todo;
      AncestorsAreListed(path, seen);
      if AncestorIn(path, seen) {
        return false;
      }
      todo := todo - {path};
    }
    forall f | f in seen
      ensures forall q | q in seen :: !Under(q, f)
    {
      AncestorsAreListed(f, seen);
    }
    return true;
  }

  /** `_snapshot` accepts exactly the valid inventories, whatever order it visits them in. */
  method CheckSnapshot(entries: Snapshot) returns (ok: bool)
    ensures ok <==> ValidSnapshot(entries)
  {
    if |entries| > MAX_ENTRIES {
      return false;
    }
    var named := CheckNames(entries.Keys);
    if !named {
      return false;
    }
    var clean, seen := CheckEntries(entries);
    if !clean {
      return false;
    }
    ok := CheckAncestors(entries.Keys, seen);
  }

  // ----------------------------------------------------------------------- diff

  datatype Change = Change(path: string, operation: Operation, oldMode: Option<string>, newMode: Option<string>)

  datatype Violation =
    | OperationNotPermitted(path: string)
    | OutsidePolicy(path: string)
    | OutsideTask(path: string)
    | ProtectedPath(path: string)
    | UnsafeMode(path: string)
    | ModeChange(path: string)
    | EmptyCandidate
    | ChangedFileLimit
    | ChangedByteLimit

  /** What the candidate digest commits to. */
  datatype Binding = Binding(taskId: TaskId, baseSha: string, policy: string, before: Snapshot, after: Snapshot)

  datatype Candidate = Candidate(
    taskId: TaskId,
    branch: Branch,
    baseSha: string,
    policyDigest: string,
    digest: Binding,
    changes: seq<Change>,
    violations: seq<Violation>)
  {
    predicate ScopeValid() {
      violations == []
    }
  }

  function Lookup(m: Snapshot, path: string): Option<FileEntry> {
    if path in m then Some(m[path]) else None
  }

  function Diff(base: Snapshot, after: Snapshot): set<string> {
    set p | p in base.Keys + after.Keys && Lookup(base, p) != Lookup(after, p)
  }

  function ModeOf(entry: Option<FileEntry>): Option<string> {
    if entry.Some? then Some(entry.value.mode) else None
  }

  function OperationOf(base: Snapshot, after: Snapshot, path: string): Operation {
    if path !in base then Add else if path !in after then Delete else Modify
  }

  function ChangeOf(base: Snapshot, after: Snapshot, path: string): Change {
    Change(path, OperationOf(base, after, path), ModeOf(Lookup(base, path)), ModeOf(Lookup(after, path)))
  }

  function SizeOf(entry: Option<FileEntry>): nat {
    if entry.Some? then |entry.value.content| else 0
  }

  function BytesTouched(base: Snapshot, after: Snapshot): string -> nat {
    path => SizeOf(Lookup(base, path)) + SizeOf(Lookup(after, path))
  }

  predicate ModeOutside(allowed: set<string>, mode: Option<string>) {
    mode.Some? && mode.value !in allowed
  }

  /** When a violation that names a path is due. */
  predicate PathViolationDue(task: Task, policy: Policy, base: Snapshot, after: Snapshot, v: Violation) {
    match v
    case OperationNotPermitted(p) => p in Diff(base, after) && OperationOf(base, after, p) !in task.permittedOperations
    case OutsidePolicy(p) => p in Diff(base, after) && !CoveredBySome(policy.permittedPaths, p)
    case OutsideTask(p) => p in Diff(base, after) && !CoveredBySome(task.permittedPaths, p)
    case ProtectedPath(p) => p in Diff(base, after) && CoveredBySome(policy.protectedPaths, p)
    case UnsafeMode(p) =>
      && p in Diff(base, after)
      && (ModeOutside(policy.allowedModes, ModeOf(Lookup(base, p)))
            || ModeOutside(policy.allowedModes, ModeOf(Lookup(after, p))))
    case ModeChange(p) => p in Diff(base, after) && p in base && p in after && base[p].mode != after[p].mode
    case _ => false
  }

  ghost predicate ViolationDue(task: Task, policy: Policy, base: Snapshot, after: Snapshot, v: Violation) {
    match v
    case EmptyCandidate => base == after
    case ChangedFileLimit => |Diff(base, after)| > policy.maxChangedFiles
    case ChangedByteLimit => SumOver(Diff(base, after), BytesTouched(base, after)) > policy.maxChangedBytes
    case _ => PathViolationDue(task, policy, base, after, v)
  }

  /** One change per differing path, and no others. */
  ghost predicate ListsChanges(changes: seq<Change>, base: Snapshot, after: Snapshot, paths: set<string>) {
    && (forall i | 0 <= i < |changes| :: changes[i].path in paths
          && changes[i] == ChangeOf(base, after, changes[i].path))
    && (forall i, j | 0 <= i < j < |changes| :: changes[i].path != changes[j].path)
    && (forall p | p in paths :: ChangeOf(base, after, p) in changes)
  }

  /** The meaning of a candidate: exactly the differing paths, exactly the violations that
      are due, and a digest over both complete inventories. */
  ghost predicate Describes(c: Candidate, task: Task, policy: Policy, base: Snapshot, after: Snapshot) {
    && c.taskId == task.id && c.branch == task.BranchName() && c.baseSha == task.baseSha
          && c.policyDigest == policy.digest
    && c.digest == Binding(task.id, task.baseSha, policy.digest, base, after)
    && ListsChanges(c.changes, base, after, Diff(base, after))
    && |c.changes| == |Diff(base, after)|
    && forall v :: v in c.violations <==> ViolationDue(task, policy, base, after, v)
  }

  ghost predicate ListsViolations(found: seq<Violation>, task: Task, policy: Policy, base: Snapshot, after: Snapshot,
                                  paths: set<string>) {
    forall v :: v in found <==> PathViolationDue(task, policy, base, after, v) && v.path in paths
  }

  lemma ListsOneMore(changes: seq<Change>, base: Snapshot, after: Snapshot, paths: set<string>, path: string)
    requires ListsChanges(changes, base, after, paths) && path !in paths
    ensures ListsChanges(changes + [ChangeOf(base, after, path)], base, after, paths + {path})
  {
    var longer := changes + [ChangeOf(base, after, path)];
    assert longer[|changes|] == ChangeOf(base, after, path);
    forall p | p in paths + {path}
      ensures ChangeOf(base, after, p) in longer
    {
      if p in paths {
        assert ChangeOf(base, after, p) in changes;
      }
    }
  }

  /** The violations one differing path contributes, in the order the checks run. */
  method PathViolations(task: Task, policy: Policy, base: Snapshot, after: Snapshot, path: string)
    returns (found: seq<Violation>)
    requires path in Diff(base, after)
    ensures ListsViolations(found, task, policy, base, after, {path})
  {
    found := ScopeViolations(task, policy, base, after, path);
    var modes := ModeViolations(task, policy, base, after, path);
    found := found + modes;
  }

  predicate AboutModes(v: Violation) {
    v.UnsafeMode? || v.ModeChange?
  }

  method ScopeViolations(task: Task, policy: Policy, base: Snapshot, after: Snapshot, path: string)
    returns (found: seq<Violation>)
    requires path in Diff(base, after)
    ensures forall v :: v in found <==>
      PathViolationDue(task, policy, base, after, v) && v.path == path && !AboutModes(v)
  {
    found := [];
    if OperationOf(base, after, path) !in task.permittedOperations {
      found := found + [OperationNotPermitted(path)];
    }
    if !CoveredBySome(policy.permittedPaths, path) {
      found := found + [OutsidePolicy(path)];
    }
    if !CoveredBySome(task.permittedPaths, path) {
      found := found + [OutsideTask(path)];
    }
    if CoveredBySome(policy.protectedPaths, path) {
      found := found + [ProtectedPath(path)];
    }
  }

  method ModeViolations(task: Task, policy: Policy, base: Snapshot, after: Snapshot, path: string)
    returns (found: seq<Violation>)
    requires path in Diff(base, after)
    ensures forall v :: v in found <==>
      PathViolationDue(task, policy, base, after, v) && v.path == path && AboutModes(v)
  {
    found := [];
    if ModeOutside(policy.allowedModes, ModeOf(Lookup(base, path)))
       || ModeOutside(policy.allowedModes, ModeOf(Lookup(after, path))) {
      found := found + [UnsafeMode(path)];
    }
    if path in base && path in after && base[path].mode != after[path].mode {
      found := found + [ModeChange(path)];
    }
  }

  /** What the comparison has established once it has visited the differing paths `done`. */
  ghost predicate Compared(changes: seq<Change>, violations: seq<Violation>, changedBytes: nat,
                           task: Task, policy: Policy, base: Snapshot, after: Snapshot, done: set<string>) {
    && ListsChanges(changes, base, after, done)
    && |changes| == |done|
    && changedBytes == SumOver(done, BytesTouched(base, after))
    && ListsViolations(violations, task, policy, base, after, done)
  }

  lemma ComparedOneMore(changes: seq<Change>, violations: seq<Violation>, changedBytes: nat,
                        task: Task, policy: Policy, base: Snapshot, after: Snapshot, done: set<string>,
                        path: string, found: seq<Violation>)
    requires Compared(changes, violations, changedBytes, task, policy, base, after, done)
    requires path !in done
    requires ListsViolations(found, task, policy, base, after, {path})
    ensures Compared(changes + [ChangeOf(base, after, path)], violations + found,
                     changedBytes + BytesTouched(base, after)(path), task, policy, base, after, done + {path})
  {
    ListsOneMore(changes, base, after, done, path);
    SumAdd(done, BytesTouched(base, after), path);
  }

  /** The pass over the union of both inventories. */
  method CompareInventories(task: Task, policy: Policy, base: Snapshot, after: Snapshot)
    returns (changes: seq<Change>, violations: seq<Violation>, changedBytes: nat)
    ensures Compared(changes, violations, changedBytes, task, policy, base, after, Diff(base, after))
  {
    changes, violations, changedBytes := [], [], 0;
    var todo := base.Keys + after.Keys;
    ghost var done: set<string> := {};
    while todo != {}
      invariant forall p | p in Diff(base, after) :: p in done || p in todo
      invariant forall p | p in done :: p in Diff(base, after) && p !in todo
      invariant Compared(changes, violations, changedBytes, task, policy, base, after, done)
    {
      var path :| path in todo;
      if Lookup(base, path) != Lookup(after, path) {
        var found := PathViolations(task, policy, base, after, path);
        ComparedOneMore(changes, violations, changedBytes, task, policy, base, after, done, path, found);
        changes := changes + [ChangeOf(base, after, path)];
        changedBytes := changedBytes + (SizeOf(Lookup(base, path)) + SizeOf(Lookup(after, path)));
        violations := violations + found;
        done := done + {path};
      }
      todo := todo - {path};
    }
    assert done == Diff(base, after);
  }

  /** `inspect_candidate`: compares complete inventories; a rename is a delete plus an add. */
  method InspectCandidate(task: Task, policy: Policy, base: Snapshot, after: Snapshot) returns (r: Result<Candidate>)
    ensures r.Ok? <==> task.policyDigest == policy.digest && ValidSnapshot(base) && ValidSnapshot(after)
    ensures r.Ok? ==> Describes(r.value, task, policy, base, after)
  {
    if task.policyDigest != policy.digest {
      return Rejected;
    }
    var baseOk := CheckSnapshot(base);
    if !baseOk {
      return Rejected;
    }
    var afterOk := CheckSnapshot(after);
    if !afterOk {
      return Rejected;
    }
    var changes, violations, changedBytes := CompareInventories(task, policy, base, after);
    var overall := OverallViolations(policy, |changes|, changedBytes);
    AllViolations(violations, overall, task, policy, base, after);
    return Ok(Candidate(task.id, task.BranchName(), task.baseSha, policy.digest,
                        Binding(task.id, task.baseSha, policy.digest, base, after), changes, violations + overall));
  }

  function OverallViolations(policy: Policy, changedFiles: nat, changedBytes: nat): seq<Violation> {
    (if changedFiles == 0 then [EmptyCandidate] else [])
    + (if changedFiles > policy.maxChangedFiles then [ChangedFileLimit] else [])
    + (if changedBytes > policy.maxChangedBytes then [ChangedByteLimit] else [])
  }

  lemma AllViolations(perPath: seq<Violation>, overall: seq<Violation>, task: Task, policy: Policy, base: Snapshot,
                      after: Snapshot)
    requires ListsViolations(perPath, task, policy, base, after, Diff(base, after))
    requires overall
      == OverallViolations(policy, |Diff(base, after)|, SumOver(Diff(base, after), BytesTouched(base, after)))
    ensures forall v :: v in perPath + overall <==> ViolationDue(task, policy, base, after, v)
  {
    EmptyDiff(base, after);
    forall v: Violation
      ensures v in perPath + overall <==> ViolationDue(task, policy, base, after, v)
    {
      if v == EmptyCandidate || v == ChangedFileLimit || v == ChangedByteLimit {
        assert v !in perPath;
      } else {
        assert v !in overall;
        assert PathViolationDue(task, policy, base, after, v) ==> v.path in Diff(base, after);
      }
    }
  }

  lemma EmptyDiff(base: Snapshot, after: Snapshot)
    ensures Diff(base, after) == {} <==> base == after
    ensures |Diff(base, after)| == 0 <==> base == after
  {
    if Diff(base, after) == {} {
      forall p | p in base.Keys + after.Keys
        ensures p in base && p in after && base[p] == after[p]
      {
        assert p !in Diff(base, after);
        assert Lookup(base, p) == Lookup(after, p);
      }
      assert base.Keys == after.Keys;
    }
  }

  // ------------------------------------------------------------------- theorems

  /** For an accepted task the policy and protection checks are redundant: neither fires
      for a path without the task check firing for the same path. */
  lemma TaskScopeSubsumesPolicy(c: Candidate, task: Task, policy: Policy, base: Snapshot, after: Snapshot, path: string)
    requires TaskAccepted(task, policy) && Describes(c, task, policy, base, after)
    requires OutsidePolicy(path) in c.violations || ProtectedPath(path) in c.violations
    ensures OutsideTask(path) in c.violations
  {
    assert ViolationDue(task, policy, base, after, OutsidePolicy(path))
      || ViolationDue(task, policy, base, after, ProtectedPath(path));
    if CoveredBySome(task.permittedPaths, path) {
      AcceptedScopeIsContained(policy.permittedPaths, policy.protectedPaths, task.permittedPaths, path);
    }
    assert ViolationDue(task, policy, base, after, OutsideTask(path));
  }

  // ------------------------------------------------------------ a clean scope, decidably

  /** Nothing is wrong with the change at one path. */
  predicate PathClean(task: Task, policy: Policy, base: Snapshot, after: Snapshot, p: string) {
    && OperationOf(base, after, p) in task.permittedOperations
    && CoveredBySome(task.permittedPaths, p)
    && CoveredBySome(policy.permittedPaths, p)
    && !CoveredBySome(policy.protectedPaths, p)
    && !ModeOutside(policy.allowedModes, ModeOf(Lookup(base, p)))
    && !ModeOutside(policy.allowedModes, ModeOf(Lookup(after, p)))
    && (p in base && p in after ==> base[p].mode == after[p].mode)
  }

  /** The bytes of both versions of every changed file, counted one by one. */
  function Volume(base: Snapshot, after: Snapshot): nat {
    |set p, i | p in Diff(base, after) && 0 <= i < BytesTouched(base, after)(p) :: (p, i)|
  }

  /** The whole change is in scope. */
  predicate CleanScope(task: Task, policy: Policy, base: Snapshot, after: Snapshot) {
    && base != after
    && |Diff(base, after)| <= policy.maxChangedFiles
    && Volume(base, after) <= policy.maxChangedBytes
    && forall p | p in Diff(base, after) :: PathClean(task, policy, base, after, p)
  }

  lemma {:induction false} CountIsSum(s: set<string>, f: string -> nat)
    ensures |set p, i | p in s && 0 <= i < f(p) :: (p, i)| == SumOver(s, f)
  {
    var all := set p, i | p in s && 0 <= i < f(p) :: (p, i);
    if s == {} {
      assert all == {};
    } else {
      var x :| x in s;
      var rest := set p, i | p in s - {x} && 0 <= i < f(p) :: (p, i);
      var mine := set i | 0 <= i < f(x) :: (x, i);
      CountIsSum(s - {x}, f);
      SumRemove(s, f, x);
      CountPairs(x, f(x));
      assert all == rest + mine && rest !! mine;
    }
  }

  lemma {:induction false} CountPairs(x: string, n: nat)
    ensures |set i | 0 <= i < n :: (x, i)| == n
  {
    var pairs := set i | 0 <= i < n :: (x, i);
    if n == 0 {
      assert pairs == {};
    } else {
      var fewer := set i | 0 <= i < n - 1 :: (x, i);
      CountPairs(x, n - 1);
      assert pairs == fewer + {(x, n - 1)};
    }
  }

  lemma PathCleanMeaning(task: Task, policy: Policy, base: Snapshot, after: Snapshot, p: string)
    requires p in Diff(base, after)
    ensures PathClean(task, policy, base, after, p) <==>
      && !PathViolationDue(task, policy, base, after, OperationNotPermitted(p))
      && !PathViolationDue(task, policy, base, after, OutsidePolicy(p))
      && !PathViolationDue(task, policy, base, after, OutsideTask(p))
      && !PathViolationDue(task, policy, base, after, ProtectedPath(p))
      && !PathViolationDue(task, policy, base, after, UnsafeMode(p))
      && !PathViolationDue(task, policy, base, after, ModeChange(p))
  {
  }

  lemma NothingDueAt(task: Task, policy: Policy, base: Snapshot, after: Snapshot, p: string)
    requires forall v :: !ViolationDue(task, policy, base, after, v)
    requires p in Diff(base, after)
    ensures PathClean(task, policy, base, after, p)
  {
    PathCleanMeaning(task, policy, base, after, p);
    assert !ViolationDue(task, policy, base, after, OperationNotPermitted(p));
    assert !ViolationDue(task, policy, base, after, OutsidePolicy(p));
    assert !ViolationDue(task, policy, base, after, OutsideTask(p));
    assert !ViolationDue(task, policy, base, after, ProtectedPath(p));
    assert !ViolationDue(task, policy, base, after, UnsafeMode(p));
    assert !ViolationDue(task, policy, base, after, ModeChange(p));
  }

  lemma NothingOverallDue(task: Task, policy: Policy, base: Snapshot, after: Snapshot)
    requires forall v :: !ViolationDue(task, policy, base, after, v)
    ensures base != after && |Diff(base, after)| <= policy.maxChangedFiles
    ensures Volume(base, after) <= policy.maxChangedBytes
  {
    CountIsSum(Diff(base, after), BytesTouched(base, after));
    assert !ViolationDue(task, policy, base, after, EmptyCandidate);
    assert !ViolationDue(task, policy, base, after, ChangedFileLimit);
    assert !ViolationDue(task, policy, base, after, ChangedByteLimit);
  }

  lemma NothingDueIsClean(task: Task, policy: Policy, base: Snapshot, after: Snapshot)
    requires forall v :: !ViolationDue(task, policy, base, after, v)
    ensures CleanScope(task, policy, base, after)
  {
    NothingOverallDue(task, policy, base, after);
    forall p | p in Diff(base, after)
      ensures PathClean(task, policy, base, after, p)
    {
      NothingDueAt(task, policy, base, after, p);
    }
  }

  lemma CleanIsNothingDue(task: Task, policy: Policy, base: Snapshot, after: Snapshot, v: Violation)
    requires CleanScope(task, policy, base, after)
    ensures !ViolationDue(task, policy, base, after, v)
  {
    CountIsSum(Diff(base, after), BytesTouched(base, after));
    if !(v.EmptyCandidate? || v.ChangedFileLimit? || v.ChangedByteLimit?) && v.path in Diff(base, after) {
      PathCleanMeaning(task, policy, base, after, v.path);
    }
  }

  /** A candidate reports nothing exactly when the change between its inventories is in scope. */
  lemma ScopeValidIff(c: Candidate, task: Task, policy: Policy, base: Snapshot, after: Snapshot)
    requires Describes(c, task, policy, base, after)
    ensures c.ScopeValid() <==> CleanScope(task, policy, base, after)
  {
    if c.ScopeValid() {
      assert forall v :: v !in c.violations;
      NothingDueIsClean(task, policy, base, after);
    }
    if CleanScope(task, policy, base, after) && c.violations != [] {
      assert c.violations[0] in c.violations;
      CleanIsNothingDue(task, policy, base, after, c.violations[0]);
    }
  }

  /** What a clean scope report lets the publisher rely on. */
  lemma ScopeValidMeaning(c: Candidate, task: Task, policy: Policy, base: Snapshot, after: Snapshot)
    requires Describes(c, task, policy, base, after)
    requires c.ScopeValid()
    ensures base != after
    ensures 0 < |c.changes| <= policy.maxChangedFiles
    ensures SumOver(Diff(base, after), BytesTouched(base, after)) <= policy.maxChangedBytes
    ensures forall p | p in Diff(base, after) :: PathClean(task, policy, base, after, p)
  {
    ScopeValidIff(c, task, policy, base, after);
    CountIsSum(Diff(base, after), BytesTouched(base, after));
    EmptyDiff(base, after);
  }
}
