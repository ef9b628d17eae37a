/** The credential broker: turning a validated candidate into a Git tree delta, moving one
    branch, and the protected-merge gate. Every remote reply is an arbitrary value, and any
    request may be the one that is lost. */
module Gateway {
  import opened Results
  import opened Candidates
  import opened Objectives
  import opened Octets

  // ----------------------------------------------------------------------- trees

  /** A Git object id is injective in the object it names. */
  datatype Oid = Blob(content: Bytes) | Link(content: Bytes)

  datatype Leaf = Leaf(mode: string, oid: Oid)

  type Tree = map<string, Leaf>

  function LeafOf(entry: FileEntry): Leaf {
    Leaf(entry.mode, if entry.mode == "160000" then Link(entry.content) else Blob(entry.content))
  }

  function TreeOf(s: Snapshot): Tree {
    map p | p in s :: LeafOf(s[p])
  }

  /** One item of a tree request; no object id removes the path. */
  datatype TreeEntry = TreeEntry(path: string, mode: string, oid: Option<Oid>)

  function ApplyEntry(tree: Tree, e: TreeEntry): Tree {
    if e.oid.None? then tree - {e.path} else tree[e.path := Leaf(e.mode, e.oid.value)]
  }

  /** What the remote does with a base tree and a list of entries. */
  function ApplyDelta(tree: Tree, delta: seq<TreeEntry>): Tree
    decreases |delta|
  {
    if delta == [] then tree else ApplyDelta(ApplyEntry(tree, delta[0]), delta[1..])
  }

  predicate Publishable(changes: seq<Change>, snapshot: Snapshot) {
    forall c | c in changes :: c.operation != Delete ==> c.path in snapshot
  }

  /** The entry sent for one change: the mode is fixed, whatever the file's own mode. */
  function EntryFor(c: Change, snapshot: Snapshot): TreeEntry
    requires c.operation != Delete ==> c.path in snapshot
  {
    TreeEntry(c.path, REGULAR_MODE, if c.operation == Delete then None else Some(Blob(snapshot[c.path].content)))
  }

  function DeltaFor(changes: seq<Change>, snapshot: Snapshot): (delta: seq<TreeEntry>)
    requires Publishable(changes, snapshot)
    ensures |delta| == |changes|
    ensures forall i | 0 <= i < |changes| :: delta[i] == EntryFor(changes[i], snapshot)
  {
    seq(|changes|, i requires 0 <= i < |changes| => assert changes[i] in changes; EntryFor(changes[i], snapshot))
  }

  predicate DistinctPaths(delta: seq<TreeEntry>) {
    forall i, j | 0 <= i < j < |delta| :: delta[i].path != delta[j].path
  }

  lemma {:induction false} ApplyElsewhere(tree: Tree, delta: seq<TreeEntry>, path: string)
    requires forall e | e in delta :: e.path != path
    ensures path in ApplyDelta(tree, delta) <==> path in tree
    ensures path in tree ==> ApplyDelta(tree, delta)[path] == tree[path]
    decreases |delta|
  {
    if delta != [] {
      assert delta[0] in delta;
      assert forall e | e in delta[1..] :: e in delta;
      ApplyElsewhere(ApplyEntry(tree, delta[0]), delta[1..], path);
    }
  }

  lemma {:induction false} ApplyHere(tree: Tree, delta: seq<TreeEntry>, i: nat)
    requires DistinctPaths(delta) && i < |delta|
    ensures delta[i].path in ApplyDelta(tree, delta) <==> delta[i].oid.Some?
    ensures delta[i].oid.Some? ==> ApplyDelta(tree, delta)[delta[i].path] == Leaf(delta[i].mode, delta[i].oid.value)
    decreases |delta|
  {
    var next := ApplyEntry(tree, delta[0]);
    if i > 0 {
      assert delta[1..][i - 1] == delta[i];
      ApplyHere(next, delta[1..], i - 1);
    } else {
      forall e | e in delta[1..]
        ensures e.path != delta[0].path
      {
        var j :| 0 <= j < |delta[1..]| && delta[1..][j] == e;
        assert delta[j + 1] == e;
      }
      ApplyElsewhere(next, delta[1..], delta[0].path);
    }
  }

  // ------------------------------------------------- the delta rebuilds the snapshot

  lemma ChangesPublishable(changes: seq<Change>, base: Snapshot, after: Snapshot)
    requires ListsChanges(changes, base, after, Diff(base, after))
    ensures Publishable(changes, after)
  {
    forall c | c in changes
      ensures c.operation != Delete ==> c.path in after
    {
      var i :| 0 <= i < |changes| && changes[i] == c;
    }
  }

  /** The rebuilt tree at one path. */
  lemma RebuiltAt(changes: seq<Change>, base: Snapshot, after: Snapshot, path: string)
    requires ListsChanges(changes, base, after, Diff(base, after))
    requires Publishable(changes, after)
    ensures path in ApplyDelta(TreeOf(base), DeltaFor(changes, after)) <==> path in after
    ensures path in after && path !in Diff(base, after) ==>
      ApplyDelta(TreeOf(base), DeltaFor(changes, after))[path] == LeafOf(after[path])
    ensures path in after && path in Diff(base, after) ==>
      ApplyDelta(TreeOf(base), DeltaFor(changes, after))[path] == Leaf(REGULAR_MODE, Blob(after[path].content))
  {
    var delta := DeltaFor(changes, after);
    if path in Diff(base, after) {
      var i :| 0 <= i < |changes| && changes[i] == ChangeOf(base, after, path);
      assert DistinctPaths(delta);
      ApplyHere(TreeOf(base), delta, i);
    } else {
      forall e | e in delta
        ensures e.path != path
      {
        var i :| 0 <= i < |delta| && delta[i] == e;
        assert changes[i].path in Diff(base, after);
      }
      ApplyElsewhere(TreeOf(base), delta, path);
      assert Lookup(base, path) == Lookup(after, path);
    }
  }

  /** Every changed file that remains is a regular one. */
  predicate OnlyRegular(base: Snapshot, after: Snapshot) {
    forall p | p in Diff(base, after) && p in after :: after[p].mode == REGULAR_MODE
  }

  /** The tree the delta leads to, path by path. */
  ghost predicate RebuiltFrom(rebuilt: Tree, base: Snapshot, after: Snapshot) {
    && rebuilt.Keys == after.Keys
    && (forall p | p in after && p !in Diff(base, after) :: rebuilt[p] == LeafOf(after[p]))
    && (forall p | p in after && p in Diff(base, after) :: rebuilt[p] == Leaf(REGULAR_MODE, Blob(after[p].content)))
  }

  lemma RebuiltEverywhere(changes: seq<Change>, base: Snapshot, after: Snapshot)
    requires ListsChanges(changes, base, after, Diff(base, after)) && Publishable(changes, after)
    ensures RebuiltFrom(ApplyDelta(TreeOf(base), DeltaFor(changes, after)), base, after)
  {
    var rebuilt := ApplyDelta(TreeOf(base), DeltaFor(changes, after));
    forall p: string
      ensures p in rebuilt <==> p in after
      ensures p in after && p !in Diff(base, after) ==> rebuilt[p] == LeafOf(after[p])
      ensures p in after && p in Diff(base, after) ==> rebuilt[p] == Leaf(REGULAR_MODE, Blob(after[p].content))
    {
      RebuiltAt(changes, base, after, p);
    }
  }

  lemma RebuiltIsWhole(rebuilt: Tree, base: Snapshot, after: Snapshot)
    requires RebuiltFrom(rebuilt, base, after)
    ensures rebuilt == TreeOf(after) <==> OnlyRegular(base, after)
  {
    if rebuilt == TreeOf(after) {
      forall p | p in Diff(base, after) && p in after
        ensures after[p].mode == REGULAR_MODE
      {
        assert rebuilt[p] == LeafOf(after[p]);
      }
    }
  }

  /** Applying the published delta to the base tree gives exactly the inspected snapshot,
      if and only if every added or modified file has the one mode the broker writes. */
  lemma DeltaRebuildsSnapshot(changes: seq<Change>, base: Snapshot, after: Snapshot)
    requires ListsChanges(changes, base, after, Diff(base, after))
    ensures Publishable(changes, after)
    ensures ApplyDelta(TreeOf(base), DeltaFor(changes, after)) == TreeOf(after) <==> OnlyRegular(base, after)
  {
    ChangesPublishable(changes, base, after);
    RebuiltEverywhere(changes, base, after);
    RebuiltIsWhole(ApplyDelta(TreeOf(base), DeltaFor(changes, after)), base, after);
  }

  /** A scope-valid candidate under an accepted policy is therefore always published whole. */
  lemma ScopeValidRebuilds(c: Candidate, task: Task, policy: Policy, base: Snapshot, after: Snapshot)
    requires PolicyAccepted(policy)
    requires Describes(c, task, policy, base, after)
    requires c.ScopeValid()
    ensures Publishable(c.changes, after)
    ensures ApplyDelta(TreeOf(base), DeltaFor(c.changes, after)) == TreeOf(after)
  {
    ScopeValidIff(c, task, policy, base, after);
    CleanScopeRebuilds(c.changes, task, policy, base, after);
  }

  /** However a clean change is listed, its delta rebuilds the snapshot. */
  lemma CleanScopeRebuilds(changes: seq<Change>, task: Task, policy: Policy, base: Snapshot, after: Snapshot)
    requires PolicyAccepted(policy) && CleanScope(task, policy, base, after)
    requires ListsChanges(changes, base, after, Diff(base, after))
    ensures Publishable(changes, after)
    ensures ApplyDelta(TreeOf(base), DeltaFor(changes, after)) == TreeOf(after)
  {
    CleanIsRegular(task, policy, base, after);
    DeltaRebuildsSnapshot(changes, base, after);
  }

  lemma CleanIsRegular(task: Task, policy: Policy, base: Snapshot, after: Snapshot)
    requires PolicyAccepted(policy) && CleanScope(task, policy, base, after)
    ensures OnlyRegular(base, after)
  {
    forall p | p in Diff(base, after) && p in after
      ensures after[p].mode == REGULAR_MODE
    {
      assert PathClean(task, policy, base, after, p);
    }
  }

  /** The broker's loop over the recomputed changes. */
  method BuildDelta(changes: seq<Change>, snapshot: Snapshot) returns (delta: seq<TreeEntry>)
    requires Publishable(changes, snapshot)
    ensures delta == DeltaFor(changes, snapshot)
  {
    delta := [];
    for i := 0 to |changes|
      invariant |delta| == i
      invariant forall j | 0 <= j < i :: delta[j] == DeltaFor(changes, snapshot)[j]
    {
      var change := changes[i];
      assert change in changes;
      if change.operation == Delete {
        delta := delta + [TreeEntry(change.path, REGULAR_MODE, None)];
      } else {
        delta := delta + [TreeEntry(change.path, REGULAR_MODE, Some(Blob(snapshot[change.path].content)))];
      }
    }
  }

  // ------------------------------------------------------------------ publication

  datatype Request =
    | PostTree(entries: seq<TreeEntry>)
    | PostCommit(parent: string)
    | CreateRef(branch: Branch, sha: string)
    | MoveRef(branch: Branch, sha: string)
    | OpenPull(branch: Branch)

  datatype Readback = Readback(truncated: bool, leaves: Tree)

  datatype Pull = Pull(number: int, head: Branch)

  /** Everything the remote side answers during one publication, in whatever way it likes. */
  datatype Replies = Replies(
    pushCapability: bool,
    now: int,
    head: Option<string>,
    baseTree: Readback,
    createdTree: Readback,
    commitSha: string,
    headBefore: Option<string>,
    headAfter: Option<string>,
    pulls: seq<Pull>,
    openedPull: Pull,
    lost: nat)

  datatype Publication = Publication(branch: Branch, commitSha: string, candidate: Binding, pull: int)

  const RESERVED_PULL := 160

  predicate TreeMatches(remote: Readback, snapshot: Snapshot) {
    !remote.truncated && remote.leaves == TreeOf(snapshot)
  }

  predicate HeadExpected(head: Option<string>, batch: int, parentSha: string, baseSha: string) {
    match head
    case None => batch == 1 && parentSha == baseSha
    case Some(sha) => batch > 1 && sha == parentSha
  }

  predicate PullUsable(pulls: seq<Pull>, created: Pull, branch: Branch) {
    if pulls == [] then created.number != RESERVED_PULL
    else |pulls| == 1 && pulls[0].head == branch && pulls[0].number != RESERVED_PULL
  }

  /** The independent re-verification at the credential boundary. */
  ghost predicate Reverified(approval: Approval, candidate: Candidate, snapshot: Snapshot, receipt: Receipt,
                             parentSha: string,
                             batch: int, base: Snapshot, policy: Policy, keys: map<string, TrustKey>, now: int) {
    exists inspected: Candidate ::
      && Describes(inspected, approval.task, policy, base, snapshot)
      && ValidSnapshot(base) && ValidSnapshot(snapshot)
      && inspected.ScopeValid() && inspected.digest == candidate.digest
      && ReceiptStands(receipt.envelope, approval, inspected, policy, keys, parentSha, batch, now)
  }

  /** What has to hold before any branch may move. */
  ghost predicate MayMoveBranch(approval: Approval, candidate: Candidate, snapshot: Snapshot, receipt: Receipt,
                                parentSha: string,
                                batch: int, base: Snapshot, policy: Policy, keys: map<string, TrustKey>,
                                    replies: Replies) {
    && replies.pushCapability && replies.now < approval.expiresAt
    && approval.task.policyDigest == policy.digest
    && Reverified(approval, candidate, snapshot, receipt, parentSha, batch, base, policy, keys, replies.now)
    && HeadExpected(replies.head, batch, parentSha, approval.task.baseSha)
    && TreeMatches(replies.baseTree, base)
    && TreeMatches(replies.createdTree, snapshot)
    && replies.headBefore == replies.head
  }

  predicate NoBranchMoved(sent: seq<Request>) {
    forall q | q in sent :: !q.CreateRef? && !q.MoveRef?
  }

  /** The mutating requests of a publication that gets as far as moving the branch. */
  predicate SentInOrder(sent: seq<Request>, approval: Approval, delta: seq<TreeEntry>, parentSha: string,
                        replies: Replies) {
    && 3 <= |sent| <= 4
    && sent[0] == PostTree(delta)
    && sent[1] == PostCommit(parentSha)
    && sent[2] == BranchRequest(approval, replies)
    && (|sent| == 4 ==> sent[3] == OpenPull(approval.task.BranchName()))
  }

  /** ... and the tree they ask for is the base plus a delta that rebuilds the snapshot. */
  ghost predicate PublishesInOrder(sent: seq<Request>, approval: Approval, parentSha: string, replies: Replies,
                                   base: Snapshot, snapshot: Snapshot) {
    exists delta ::
      && SentInOrder(sent, approval, delta, parentSha, replies)
      && ApplyDelta(TreeOf(base), delta) == TreeOf(snapshot)
  }

  function BranchRequest(approval: Approval, replies: Replies): Request {
    if replies.head.None? then CreateRef(approval.task.BranchName(), replies.commitSha)
    else MoveRef(approval.task.BranchName(), replies.commitSha)
  }

  predicate Acknowledged(approval: Approval, replies: Replies) {
    && replies.headAfter == Some(replies.commitSha)
    && PullUsable(replies.pulls, replies.openedPull, approval.task.BranchName())
  }

  /** Two inspections of the same inventories agree on everything a receipt looks at. */
  lemma InspectionsAgree(a: Candidate, b: Candidate, task: Task, policy: Policy, base: Snapshot, after: Snapshot)
    requires Describes(a, task, policy, base, after) && Describes(b, task, policy, base, after)
    ensures a.ScopeValid() == b.ScopeValid() && a.digest == b.digest && a.taskId == b.taskId
  {
    assert forall v :: v in a.violations <==> v in b.violations;
    SameMembers(a.violations, b.violations);
  }

  lemma SameMembers(xs: seq<Violation>, ys: seq<Violation>)
    requires forall v :: v in xs <==> v in ys
    ensures xs == [] <==> ys == []
  {
    assert xs != [] ==> xs[0] in ys;
    assert ys != [] ==> ys[0] in xs;
  }

  lemma ReverifiedByAny(inspected: Candidate, approval: Approval, candidate: Candidate, snapshot: Snapshot,
                        receipt: Receipt, parentSha: string, batch: int, base: Snapshot, policy: Policy,
                        keys: map<string, TrustKey>, now: int)
    requires Describes(inspected, approval.task, policy, base, snapshot)
    requires Reverified(approval, candidate, snapshot, receipt, parentSha, batch, base, policy, keys, now)
    ensures inspected.ScopeValid() && inspected.digest == candidate.digest
    ensures ReceiptStands(receipt.envelope, approval, inspected, policy, keys, parentSha, batch, now)
  {
    var other: Candidate :|
      && Describes(other, approval.task, policy, base, snapshot)
      && ValidSnapshot(base) && ValidSnapshot(snapshot)
      && other.ScopeValid() && other.digest == candidate.digest
      && ReceiptStands(receipt.envelope, approval, other, policy, keys, parentSha, batch, now);
    InspectionsAgree(inspected, other, approval.task, policy, base, snapshot);
    StandsForEither(inspected, other, approval, receipt, parentSha, batch, policy, keys, now);
  }

  lemma StandsForEither(a: Candidate, b: Candidate, approval: Approval, receipt: Receipt, parentSha: string, batch: int,
                        policy: Policy, keys: map<string, TrustKey>, now: int)
    requires a.ScopeValid() == b.ScopeValid() && a.digest == b.digest && a.taskId == b.taskId
    requires ReceiptStands(receipt.envelope, approval, b, policy, keys, parentSha, batch, now)
    ensures ReceiptStands(receipt.envelope, approval, a, policy, keys, parentSha, batch, now)
  {
    DigestDecides(receipt.envelope, approval, a, b, policy, keys, parentSha, batch, now);
  }

  /** The re-verification itself, and the delta it licenses. */
  method Recheck(approval: Approval, candidate: Candidate, snapshot: Snapshot, receipt: Receipt, parentSha: string,
                 batch: int, base: Snapshot, policy: Policy, keys: map<string, TrustKey>, now: int)
    returns (delta: Result<seq<TreeEntry>>)
    requires PolicyAccepted(policy)
    ensures delta.Ok? <==>
      && approval.task.policyDigest == policy.digest
      && Reverified(approval, candidate, snapshot, receipt, parentSha, batch, base, policy, keys, now)
    ensures delta.Ok? ==> ApplyDelta(TreeOf(base), delta.value) == TreeOf(snapshot)
  {
    var inspected := InspectCandidate(approval.task, policy, base, snapshot);
    if inspected.Rejected? {
      return Rejected;
    }
    var found := inspected.value;
    if Reverified(approval, candidate, snapshot, receipt, parentSha, batch, base, policy, keys, now) {
      ReverifiedByAny(found, approval, candidate, snapshot, receipt, parentSha, batch, base, policy, keys, now);
    }
    if !found.ScopeValid() || found.digest != candidate.digest {
      return Rejected;
    }
    var verdict := VerifyReceipt(receipt.envelope, approval, found, policy, keys, parentSha, batch, now);
    if !verdict.Verified? {
      return Rejected;
    }
    ScopeValidRebuilds(found, approval.task, policy, base, snapshot);
    var entries := BuildDelta(found.changes, snapshot);
    return Ok(entries);
  }

  /** The mutating half of a publication. The branch request is the third one sent, and it
      is sent only once the created tree has been read back and the head re-read. */
  method Transmit(approval: Approval, digest: Binding, delta: seq<TreeEntry>, snapshot: Snapshot, parentSha: string,
                  replies: Replies)
    returns (r: Result<Publication>, sent: seq<Request>)
    ensures |sent| < 3 ==> NoBranchMoved(sent)
    ensures |sent| >= 3 ==> SentInOrder(sent, approval, delta, parentSha, replies)
    ensures |sent| >= 3 ==> TreeMatches(replies.createdTree, snapshot) && replies.headBefore == replies.head
    ensures r.Ok? ==>
      && |sent| >= 3 && Acknowledged(approval, replies)
      && r.value.branch == approval.task.BranchName() && r.value.commitSha == replies.commitSha
      && r.value.candidate == digest && r.value.pull != RESERVED_PULL
    ensures r.Rejected? ==>
      || !TreeMatches(replies.createdTree, snapshot) || replies.headBefore != replies.head
      || !Acknowledged(approval, replies) || replies.lost < 5
  {
    sent := [PostTree(delta)];
    if replies.lost <= 1 || !TreeMatches(replies.createdTree, snapshot) {
      return Rejected, sent;
    }
    sent := sent + [PostCommit(parentSha)];
    if replies.lost == 2 || replies.headBefore != replies.head {
      return Rejected, sent;
    }
    var branch := approval.task.BranchName();
    sent := sent + [BranchRequest(approval, replies)];
    if replies.lost == 3 || replies.headAfter != Some(replies.commitSha) {
      return Rejected, sent;
    }
    var pull := replies.openedPull;
    if replies.pulls != [] {
      if |replies.pulls| != 1 || replies.pulls[0].head != branch {
        return Rejected, sent;
      }
      pull := replies.pulls[0];
    } else {
      sent := sent + [OpenPull(branch)];
      if replies.lost == 4 {
        return Rejected, sent;
      }
    }
    if pull.number == RESERVED_PULL {
      return Rejected, sent;
    }
    return Ok(Publication(branch, replies.commitSha, digest, pull.number)), sent;
  }

  /** `commit_push`. Whatever the remote answers and whichever request is lost, no branch
      moves unless the whole publication was independently re-verified and the tree read
      back from the remote is the validated snapshot; and then exactly one branch moves,
      to one commit whose only parent is the one the receipt names. */
  method CommitPush(approval: Approval, candidate: Candidate, snapshot: Snapshot, receipt: Receipt, parentSha: string,
                    batch: int, base: Snapshot, policy: Policy, keys: map<string, TrustKey>, replies: Replies)
    returns (r: Result<Publication>, sent: seq<Request>)
    requires PolicyAccepted(policy)
    ensures NoBranchMoved(sent) || PublishesInOrder(sent, approval, parentSha, replies, base, snapshot)
    ensures NoBranchMoved(sent)
      || MayMoveBranch(approval, candidate, snapshot, receipt, parentSha, batch, base, policy, keys, replies)
    ensures r.Ok? ==>
      && PublishesInOrder(sent, approval, parentSha, replies, base, snapshot)
      && Acknowledged(approval, replies)
      && r.value.branch == approval.task.BranchName() && r.value.commitSha == replies.commitSha
      && r.value.candidate == candidate.digest && r.value.pull != RESERVED_PULL
    ensures r.Rejected? ==>
      || !MayMoveBranch(approval, candidate, snapshot, receipt, parentSha, batch, base, policy, keys, replies)
      || !Acknowledged(approval, replies)
      || replies.lost < 5
  {
    sent := [];
    if !replies.pushCapability || replies.now >= approval.expiresAt {
      return Rejected, sent;
    }
    var delta := Recheck(approval, candidate, snapshot, receipt, parentSha, batch, base, policy, keys, replies.now);
    if delta.Rejected? || !HeadExpected(replies.head, batch, parentSha, approval.task.baseSha)
       || !TreeMatches(replies.baseTree, base) || replies.lost == 0 {
      return Rejected, sent;
    }
    r, sent := Transmit(approval, candidate.digest, delta.value, snapshot, parentSha, replies);
  }

  // ------------------------------------------------------------ the merge gate

  datatype CheckRun = CheckRun(name: string, status: string, headSha: string, conclusion: string, appId: int)

  datatype RunPage = RunPage(total: int, runs: seq<CheckRun>)

  datatype Rule = Rule(kind: string, contexts: set<string>)

  datatype PullState = PullState(head: Branch, baseRef: string, headSha: string, draft: bool, isOpen: bool)

  const MAX_RUN_PAGES := 20

  function PagedRuns(pages: seq<RunPage>): seq<CheckRun> {
    if pages == [] then [] else PagedRuns(pages[..|pages| - 1]) + pages[|pages| - 1].runs
  }

  /** The listing is complete once as many runs were read as the last page announced. */
  method CollectRuns(pages: seq<RunPage>) returns (r: Result<seq<CheckRun>>)
    requires |pages| == MAX_RUN_PAGES
    ensures r.Ok? ==> exists n | 1 <= n <= MAX_RUN_PAGES ::
      r.value == PagedRuns(pages[..n]) && |r.value| >= pages[n - 1].total
    ensures r.Rejected? ==> forall n | 1 <= n <= MAX_RUN_PAGES :: |PagedRuns(pages[..n])| < pages[n - 1].total
  {
    var runs: seq<CheckRun> := [];
    for page := 0 to MAX_RUN_PAGES
      invariant runs == PagedRuns(pages[..page])
      invariant forall n | 1 <= n <= page :: |PagedRuns(pages[..n])| < pages[n - 1].total
    {
      assert pages[..page + 1][..page] == pages[..page];
      runs := runs + pages[page].runs;
      if |runs| >= pages[page].total {
        return Ok(runs);
      }
    }
    return Rejected;
  }

  predicate OnePerContext(runs: seq<CheckRun>, required: set<string>) {
    forall i, j | 0 <= i < j < |runs| && runs[i].name == runs[j].name :: runs[i].name !in required
  }

  predicate IndexesRuns(byName: map<string, CheckRun>, runs: seq<CheckRun>, required: set<string>) {
    && (forall name | name in byName :: name in required && byName[name] in runs && byName[name].name == name)
    && (forall run | run in runs && run.name in required :: run.name in byName && byName[run.name] == run)
  }

  method IndexRuns(runs: seq<CheckRun>, required: set<string>) returns (r: Result<map<string, CheckRun>>)
    ensures r.Ok? <==> OnePerContext(runs, required)
    ensures r.Ok? ==> IndexesRuns(r.value, runs, required)
  {
    var byName: map<string, CheckRun> := map[];
    for i := 0 to |runs|
      invariant IndexesRuns(byName, runs[..i], required)
      invariant OnePerContext(runs[..i], required)
    {
      var run := runs[i];
      assert runs[..i + 1] == runs[..i] + [run];
      if run.name in required {
        if run.name in byName {
          DuplicateContext(byName, runs, required, i);
          return Rejected;
        }
        byName := byName[run.name := run];
      }
      assert forall k | 0 <= k < i :: runs[k] in runs[..i];
    }
    assert runs[..|runs|] == runs;
    return Ok(byName);
  }

  lemma DuplicateContext(byName: map<string, CheckRun>, runs: seq<CheckRun>, required: set<string>, i: nat)
    requires i < |runs| && runs[i].name in required && runs[i].name in byName
    requires IndexesRuns(byName, runs[..i], required)
    ensures !OnePerContext(runs, required)
  {
    var k :| 0 <= k < i && runs[..i][k] == byName[runs[i].name];
    assert runs[k].name == runs[i].name;
  }

  datatype Gate = Clear | Waiting | Refusing

  predicate IsWaiting(byName: map<string, CheckRun>, name: string) {
    name !in byName || byName[name].status in {"queued", "in_progress", "waiting", "pending"}
  }

  predicate Succeeded(byName: map<string, CheckRun>, name: string, headSha: string, appId: int) {
    && name in byName
    && byName[name].headSha == headSha
    && byName[name].status == "completed"
    && byName[name].conclusion == "success"
    && byName[name].appId == appId
  }

  /** The gate opens exactly when every required context succeeded on this very head; it
      asks for patience only when one is outstanding and refuses only when one went wrong. */
  method EvaluateContexts(byName: map<string, CheckRun>, required: set<string>, headSha: string, appId: int)
    returns (gate: Gate)
    ensures gate.Clear? <==> forall name | name in required :: Succeeded(byName, name, headSha, appId)
    ensures gate.Waiting? ==> exists name | name in required :: IsWaiting(byName, name)
    ensures gate.Refusing? ==> exists name | name in required ::
      !IsWaiting(byName, name) && !Succeeded(byName, name, headSha, appId)
  {
    var todo := required;
    while todo != {}
      invariant todo <= required
      invariant forall name | name in required && name !in todo :: Succeeded(byName, name, headSha, appId)
    {
      var name :| name in todo;
      if IsWaiting(byName, name) {
        return Waiting;
      }
      if !Succeeded(byName, name, headSha, appId) {
        return Refusing;
      }
      todo := todo - {name};
    }
    return Clear;
  }

  function RequiredContexts(configured: set<string>, rules: seq<Rule>): set<string> {
    configured + set r, c | r in rules && r.kind == "required_status_checks" && c in r.contexts :: c
  }

  predicate RulesVisible(rules: seq<Rule>) {
    (exists r | r in rules :: r.kind == "required_status_checks") && (exists r | r in rules :: r.kind == "pull_request")
  }

  datatype MergeReplies = MergeReplies(
    capability: bool,
    pull: PullState,
    rules: seq<Rule>,
    pages: seq<RunPage>,
    capabilityAgain: bool,
    now: int,
    nowAgain: int,
    merged: bool,
    mergeSha: string)

  datatype MergeOutcome = Merged(sha: string) | GatePending | GateBlocked

  predicate PullGate(approval: Approval, publication: Publication, m: MergeReplies) {
    && m.capability && m.now < approval.expiresAt
    && publication.pull > 0 && publication.pull != RESERVED_PULL
    && m.pull.head == approval.task.BranchName() && m.pull.baseRef == "master"
    && m.pull.headSha == publication.commitSha && !m.pull.draft && m.pull.isOpen
    && RulesVisible(m.rules)
  }

  /** Everything that has to be in place before the merge request leaves. */
  ghost predicate MergeJustified(approval: Approval, publication: Publication, configured: set<string>, appId: int,
                                 m: MergeReplies) {
    && PullGate(approval, publication, m)
    && m.capabilityAgain && m.nowAgain < approval.expiresAt
    && exists n | 1 <= n <= MAX_RUN_PAGES && n <= |m.pages| ::
         var runs := PagedRuns(m.pages[..n]);
         var required := RequiredContexts(configured, m.rules);
         && |runs| >= m.pages[n - 1].total
         && OnePerContext(runs, required)
         && forall name | name in required :: exists run | run in runs ::
              && run.name == name && run.headSha == publication.commitSha
              && run.status == "completed" && run.conclusion == "success" && run.appId == appId
  }

  /** `merge`. A merge is requested only when justified, and reported only when requested
      and acknowledged. */
  method Merge(approval: Approval, publication: Publication, configured: set<string>, appId: int, m: MergeReplies)
    returns (outcome: MergeOutcome, requested: bool)
    requires |m.pages| == MAX_RUN_PAGES
    ensures requested ==> MergeJustified(approval, publication, configured, appId, m)
    ensures outcome.Merged? <==> requested && m.merged && IsSha(m.mergeSha, 40)
    ensures outcome.Merged? ==> outcome.sha == m.mergeSha
    ensures outcome.GatePending? ==> !requested
  {
    if !PullGate(approval, publication, m) {
      return GateBlocked, false;
    }
    var required := RequiredContexts(configured, m.rules);
    var listed := CollectRuns(m.pages);
    if listed.Rejected? {
      return GateBlocked, false;
    }
    var indexed := IndexRuns(listed.value, required);
    if indexed.Rejected? {
      return GateBlocked, false;
    }
    var gate := EvaluateContexts(indexed.value, required, publication.commitSha, appId);
    if gate == Waiting {
      return GatePending, false;
    }
    if gate == Refusing || !m.capabilityAgain || m.nowAgain >= approval.expiresAt {
      return GateBlocked, false;
    }
    forall name | name in required
      ensures exists run | run in listed.value ::
        && run.name == name && run.headSha == publication.commitSha
        && run.status == "completed" && run.conclusion == "success" && run.appId == appId
    {
      assert Succeeded(indexed.value, name, publication.commitSha, appId);
    }
    if !m.merged || !IsSha(m.mergeSha, 40) {
      return GateBlocked, true;
    }
    return Merged(m.mergeSha), true;
  }
}
