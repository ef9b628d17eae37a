/** Bounded breadth-first enumeration of the simple paths from start nodes to critical assets,
    under one global budget, and what its truncation report means. */
module Atlas {
  import opened Results
  import Paths
  import Objectives

  datatype Kind = Identity | Group | Asset | Service | CriticalAsset | OtherKind(name: string)

  datatype Node = Node(id: string, kind: Kind)

  datatype Edge = Edge(id: string, source: string, target: string, relationship: string, observed: bool)

  datatype Graph = Graph(nodes: seq<Node>, edges: seq<Edge>)

  datatype Limits = Limits(maxStarts: nat, maxTargets: nat, maxDepth: nat, maxPaths: nat, maxExpansions: nat)

  /** The part of graph validation the enumeration relies on. */
  predicate ValidGraph(g: Graph) {
    && (forall i, j | 0 <= i < j < |g.nodes| :: g.nodes[i].id != g.nodes[j].id)
    && (forall i, j | 0 <= i < j < |g.edges| :: g.edges[i].id != g.edges[j].id)
    && forall e | e in g.edges :: HasNode(g, e.source) && HasNode(g, e.target)
  }

  predicate HasNode(g: Graph, id: string) {
    exists n | n in g.nodes :: n.id == id
  }

  predicate ValidLimits(l: Limits) {
    l.maxStarts > 0 && l.maxTargets > 0 && l.maxDepth > 0 && l.maxPaths > 0 && l.maxExpansions > 0
  }

  /** `outgoing_edges`: in graph order. */
  function Outgoing(edges: seq<Edge>, id: string): (out: seq<Edge>)
    ensures forall e :: e in out <==> e in edges && e.source == id
    decreases |edges|
  {
    if edges == [] then []
    else
      var rest := Outgoing(edges[..|edges| - 1], id);
      var last := edges[|edges| - 1];
      if last.source == id then rest + [last] else rest
  }

  // --------------------------------------------------------- walks, independently of the search

  /** What one enumeration is asked about. */
  datatype Query = Query(graph: Graph, allowed: set<string>, targets: set<string>)

  predicate Permitted(q: Query, e: Edge) {
    e in q.graph.edges && (q.allowed == {} || e.relationship in q.allowed)
  }

  /** The node a walk has reached after its first `i` edges. */
  function At(start: string, edges: seq<Edge>, i: nat): string
    requires i <= |edges|
  {
    if i == 0 then start else edges[i - 1].target
  }

  function End(start: string, edges: seq<Edge>): string {
    At(start, edges, |edges|)
  }

  /** A directed walk over permitted edges that never visits a node twice. */
  ghost predicate SimpleWalk(q: Query, start: string, edges: seq<Edge>) {
    && (forall i | 0 <= i < |edges| :: Permitted(q, edges[i]) && edges[i].source == At(start, edges, i))
    && (forall i, j | 0 <= i < j <= |edges| :: At(start, edges, i) != At(start, edges, j))
  }

  /** No node before the last one is a target. */
  ghost predicate OpenBefore(q: Query, start: string, edges: seq<Edge>) {
    forall i | 0 <= i < |edges| :: At(start, edges, i) !in q.targets
  }

  /** What the atlas is asked to list: a simple walk of at least one hop that ends at a target
      and meets none before. */
  ghost predicate AttackPath(q: Query, start: string, edges: seq<Edge>) {
    edges != [] && SimpleWalk(q, start, edges) && OpenBefore(q, start, edges) && End(start, edges) in q.targets
  }

  lemma WalkPrefix(q: Query, start: string, edges: seq<Edge>, n: nat)
    requires n <= |edges| && SimpleWalk(q, start, edges) && OpenBefore(q, start, edges)
    ensures SimpleWalk(q, start, edges[..n]) && OpenBefore(q, start, edges[..n])
    ensures n < |edges| ==> End(start, edges[..n]) !in q.targets
  {
    assert forall i | 0 <= i <= n :: At(start, edges[..n], i) == At(start, edges, i);
  }

  lemma WalkExtends(q: Query, start: string, edges: seq<Edge>, e: Edge)
    requires SimpleWalk(q, start, edges) && OpenBefore(q, start, edges) && End(start, edges) !in q.targets
    requires Permitted(q, e) && e.source == End(start, edges)
    requires forall i | 0 <= i <= |edges| :: At(start, edges, i) != e.target
    ensures SimpleWalk(q, start, edges + [e]) && OpenBefore(q, start, edges + [e])
    ensures End(start, edges + [e]) == e.target
  {
    var longer := edges + [e];
    assert forall i | 0 <= i <= |edges| :: At(start, longer, i) == At(start, edges, i);
  }

  /** What comes next on a longer walk is a permitted edge to a fresh node. */
  lemma NextEdge(q: Query, start: string, edges: seq<Edge>, n: nat)
    requires n < |edges| && SimpleWalk(q, start, edges)
    ensures Permitted(q, edges[n]) && edges[n].source == End(start, edges[..n])
    ensures forall i | 0 <= i <= n :: At(start, edges[..n], i) != edges[n].target
  {
    assert forall i | 0 <= i <= n :: At(start, edges[..n], i) == At(start, edges, i);
    assert At(start, edges, n + 1) == edges[n].target;
  }

  // --------------------------------------------------------------------------- the search

  /** A queued partial path: its nodes, one more than its edges, and its edges. */
  datatype Walk = Walk(nodes: seq<string>, edges: seq<Edge>)

  datatype Found = Found(start: string, edges: seq<Edge>)

  /** Which ceilings the report names. */
  datatype Ceilings = Ceilings(starts: bool, targets: bool, depth: bool, paths: bool, expansions: bool)

  ghost predicate WalkMatches(start: string, w: Walk) {
    |w.nodes| == |w.edges| + 1 && forall i | 0 <= i < |w.nodes| :: w.nodes[i] == At(start, w.edges, i)
  }

  /** A queued walk is simple, within the depth ceiling and has met no target. */
  ghost predicate Queued(q: Query, start: string, depth: nat, w: Walk) {
    && WalkMatches(start, w)
    && SimpleWalk(q, start, w.edges) && OpenBefore(q, start, w.edges)
    && End(start, w.edges) !in q.targets
    && |w.edges| <= depth
  }

  ghost predicate AllQueued(q: Query, start: string, depth: nat, queue: seq<Walk>) {
    forall w | w in queue :: Queued(q, start, depth, w)
  }

  /** Some queued walk is still to be extended into this one. */
  ghost predicate Waiting(queue: seq<Walk>, edges: seq<Edge>) {
    exists w | w in queue :: StrictPrefix(w.edges, edges)
  }

  predicate StrictPrefix(a: seq<Edge>, b: seq<Edge>) {
    |a| < |b| && b[..|a|] == a
  }

  /** The walks the search has to account for: one hop beyond the ceiling included. */
  ghost predicate Accountable(q: Query, start: string, depth: nat, edges: seq<Edge>) {
    edges != [] && |edges| <= depth + 1 && SimpleWalk(q, start, edges) && OpenBefore(q, start, edges)
  }

  /** Accounted for: reported as beyond the ceiling, or listed if it ends at a target. */
  ghost predicate Settled(q: Query, start: string, depth: nat, found: seq<Found>, deep: bool, edges: seq<Edge>) {
    if |edges| == depth + 1 then deep
    else End(start, edges) in q.targets ==> Found(start, edges) in found
  }

  /** Nothing is lost: each accountable walk is settled or still waiting. */
  ghost predicate NothingLost(q: Query, start: string, depth: nat, found: seq<Found>, deep: bool, queue: seq<Walk>) {
    forall edges | Accountable(q, start, depth, edges) ::
      Settled(q, start, depth, found, deep, edges) || Waiting(queue, edges)
  }

  /** Everything listed is an attack path within the ceiling, and nothing is listed twice. */
  ghost predicate Sound(q: Query, starts: set<string>, depth: nat, found: seq<Found>) {
    && (forall f | f in found :: f.start in starts && AttackPath(q, f.start, f.edges) && |f.edges| <= depth)
    && forall i, j | 0 <= i < j < |found| :: found[i].edges != found[j].edges
  }

  /** Completeness for one start. */
  ghost predicate Complete(q: Query, start: string, depth: nat, found: seq<Found>, deep: bool) {
    && (forall edges | AttackPath(q, start, edges) && |edges| <= depth :: Found(start, edges) in found)
    && (q.targets != {} ==> forall edges | Accountable(q, start, depth, edges) && |edges| == depth + 1 :: deep)
  }

  lemma DrainedIsSettled(q: Query, start: string, depth: nat, found: seq<Found>, deep: bool, edges: seq<Edge>)
    requires NothingLost(q, start, depth, found, deep, [])
    requires Accountable(q, start, depth, edges)
    ensures Settled(q, start, depth, found, deep, edges)
  {
    assert !Waiting([], edges);
  }

  /** Once the queue is empty nothing within the ceiling is missing, and if no walk was cut
      short the ceiling was never in the way. */
  lemma DrainedIsComplete(q: Query, start: string, depth: nat, found: seq<Found>, deep: bool)
    requires NothingLost(q, start, depth, found, deep, [])
    ensures Complete(q, start, depth, found, deep)
  {
    forall edges | AttackPath(q, start, edges) && |edges| <= depth
      ensures Found(start, edges) in found
    {
      DrainedIsSettled(q, start, depth, found, deep, edges);
    }
    forall edges | Accountable(q, start, depth, edges) && |edges| == depth + 1
      ensures deep
    {
      DrainedIsSettled(q, start, depth, found, deep, edges);
    }
  }

  /** A path beyond the ceiling has a prefix one hop beyond it. */
  lemma LongPathIsDeep(q: Query, start: string, depth: nat, found: seq<Found>, deep: bool, edges: seq<Edge>)
    requires Complete(q, start, depth, found, deep)
    requires AttackPath(q, start, edges) && |edges| > depth
    ensures deep
  {
    WalkPrefix(q, start, edges, depth + 1);
    assert Accountable(q, start, depth, edges[..depth + 1]);
  }

  // ------------------------------------------------------------------ one edge at a time

  /** The state the search loops update. */
  datatype Search = Search(queue: seq<Walk>, found: seq<Found>, seen: set<seq<string>>, expansions: nat,
                           ceilings: Ceilings)
  {
    predicate Cut() {
      ceilings.paths || ceilings.expansions
    }
  }

  function Ids(edges: seq<Edge>): (r: seq<string>)
    ensures |r| == |edges| && forall i | 0 <= i < |edges| :: r[i] == edges[i].id
  {
    seq(|edges|, i requires 0 <= i < |edges| => edges[i].id)
  }

  /** Edge identifiers are unique, so an identifier sequence names one edge sequence. */
  lemma IdsNameEdges(g: Graph, a: seq<Edge>, b: seq<Edge>)
    requires ValidGraph(g)
    requires forall e | e in a :: e in g.edges
    requires forall e | e in b :: e in g.edges
    ensures Ids(a) == Ids(b) <==> a == b
  {
    if Ids(a) == Ids(b) {
      forall i | 0 <= i < |a|
        ensures a[i] == b[i]
      {
        assert Ids(a)[i] == Ids(b)[i];
        assert a[i] in g.edges && b[i] in g.edges;
      }
    }
  }

  ghost predicate SeenIs(seen: set<seq<string>>, found: seq<Found>) {
    && (forall f | f in found :: Ids(f.edges) in seen)
    && (forall ids | ids in seen :: exists f | f in found :: Ids(f.edges) == ids)
  }

  ghost predicate SearchSound(q: Query, starts: set<string>, l: Limits, s: Search) {
    && Sound(q, starts, l.maxDepth, s.found)
    && |s.found| <= l.maxPaths
    && s.expansions <= l.maxExpansions
    && (!s.ceilings.paths ==> SeenIs(s.seen, s.found))
    && Honest(q, starts, l.maxDepth, s.found, s.ceilings)
  }

  /** A named ceiling was really in the way: a walk was cut short, or a path left out. */
  ghost predicate Honest(q: Query, starts: set<string>, depth: nat, found: seq<Found>, c: Ceilings) {
    && (c.depth ==> exists start, edges ::
          start in starts && |edges| == depth + 1 && Accountable(q, start, depth, edges))
    && (c.paths ==> exists start, edges ::
          start in starts && AttackPath(q, start, edges) && |edges| <= depth && Found(start, edges) !in found)
  }

  /** The search only ever adds. */
  predicate Grown(s: Search, t: Search) {
    && (forall f | f in s.found :: f in t.found)
    && (s.ceilings.depth ==> t.ceilings.depth)
    && (s.ceilings.paths ==> t.ceilings.paths)
    && (s.ceilings.expansions ==> t.ceilings.expansions)
    && s.ceilings.starts == t.ceilings.starts && s.ceilings.targets == t.ceilings.targets
  }

  predicate QueueGrown(s: Search, t: Search) {
    (forall w | w in s.queue :: w in t.queue) && t.expansions == s.expansions
  }

  predicate Through(p: Walk, e: Edge, edges: seq<Edge>) {
    StrictPrefix(p.edges, edges) && edges[|p.edges|] == e
  }

  /** Every accountable walk that continues `p` over `e` is accounted for. */
  ghost predicate EdgeHandled(q: Query, start: string, depth: nat, p: Walk, e: Edge, t: Search) {
    forall edges | Accountable(q, start, depth, edges) && Through(p, e, edges) ::
      Settled(q, start, depth, t.found, t.ceilings.depth, edges) || Waiting(t.queue, edges)
  }

  lemma UnusableEdge(q: Query, start: string, depth: nat, p: Walk, e: Edge, t: Search)
    requires Queued(q, start, depth, p)
    requires !Permitted(q, e) || e.target in p.nodes
    ensures EdgeHandled(q, start, depth, p, e, t)
  {
    forall edges | Accountable(q, start, depth, edges) && Through(p, e, edges)
      ensures false
    {
      NextEdge(q, start, edges, |p.edges|);
    }
  }

  lemma TooDeep(q: Query, start: string, depth: nat, p: Walk, e: Edge, t: Search)
    requires |p.edges| >= depth && t.ceilings.depth
    ensures EdgeHandled(q, start, depth, p, e, t)
  {
  }

  /** A walk that meets a target stops there. */
  lemma StopsAtTarget(q: Query, start: string, p: Walk, e: Edge, edges: seq<Edge>)
    requires OpenBefore(q, start, edges) && Through(p, e, edges) && e.target in q.targets
    ensures edges == p.edges + [e]
  {
    assert At(start, edges, |p.edges| + 1) == e.target;
    assert edges == edges[..|p.edges|] + [edges[|p.edges|]];
  }

  lemma TargetReached(q: Query, start: string, depth: nat, p: Walk, e: Edge, t: Search)
    requires |p.edges| < depth && e.target in q.targets
    requires Found(start, p.edges + [e]) in t.found
    ensures EdgeHandled(q, start, depth, p, e, t)
  {
    forall edges | Accountable(q, start, depth, edges) && Through(p, e, edges)
      ensures Settled(q, start, depth, t.found, t.ceilings.depth, edges)
    {
      StopsAtTarget(q, start, p, e, edges);
    }
  }

  lemma PassesThroughQueue(q: Query, start: string, depth: nat, p: Walk, e: Edge, t: Search, w: Walk, edges: seq<Edge>)
    requires |p.edges| < depth && e.target !in q.targets
    requires w.edges == p.edges + [e] && w in t.queue
    requires Through(p, e, edges)
    ensures Settled(q, start, depth, t.found, t.ceilings.depth, edges) || Waiting(t.queue, edges)
  {
    if |edges| == |p.edges| + 1 {
      assert End(start, edges) == e.target;
    } else {
      assert edges[..|p.edges| + 1] == edges[..|p.edges|] + [e];
      assert StrictPrefix(w.edges, edges);
    }
  }

  lemma Enqueued(q: Query, start: string, depth: nat, p: Walk, e: Edge, t: Search, w: Walk)
    requires |p.edges| < depth && e.target !in q.targets
    requires w.edges == p.edges + [e] && w in t.queue
    ensures EdgeHandled(q, start, depth, p, e, t)
  {
    forall edges | Accountable(q, start, depth, edges) && Through(p, e, edges)
      ensures Settled(q, start, depth, t.found, t.ceilings.depth, edges) || Waiting(t.queue, edges)
    {
      PassesThroughQueue(q, start, depth, p, e, t, w, edges);
    }
  }

  /** A fresh permitted edge extends a queued walk into an accountable one. */
  lemma FreshExtends(q: Query, start: string, depth: nat, p: Walk, e: Edge)
    requires Queued(q, start, depth, p) && Permitted(q, e)
    requires e.source == End(start, p.edges) && e.target !in p.nodes
    ensures Accountable(q, start, depth, p.edges + [e]) && End(start, p.edges + [e]) == e.target
    ensures WalkMatches(start, Walk(p.nodes + [e.target], p.edges + [e]))
  {
    forall i | 0 <= i <= |p.edges|
      ensures At(start, p.edges, i) != e.target
    {
      assert p.nodes[i] in p.nodes;
    }
    WalkExtends(q, start, p.edges, e);
    var longer := p.edges + [e];
    assert forall i | 0 <= i <= |p.edges| :: At(start, longer, i) == At(start, p.edges, i);
  }

  // ----------------------------------------------------------------- the expansion budget

  /** A walk the search may queue. */
  datatype Opened = Opened(start: string, edges: seq<Edge>)

  ghost predicate OpenWalk(q: Query, starts: set<string>, depth: nat, o: Opened) {
    && o.start in starts && |o.edges| <= depth
    && SimpleWalk(q, o.start, o.edges) && OpenBefore(q, o.start, o.edges) && End(o.start, o.edges) !in q.targets
  }

  /** Open walks, each once. */
  ghost predicate OpenLog(q: Query, starts: set<string>, depth: nat, log: seq<Opened>) {
    && (forall o | o in log :: OpenWalk(q, starts, depth, o))
    && forall i, j | 0 <= i < j < |log| :: log[i] != log[j]
  }

  /** There are more than `n` open walks from these starts within the depth ceiling. */
  ghost predicate ManyOpen(q: Query, starts: set<string>, depth: nat, n: nat) {
    exists log :: OpenLog(q, starts, depth, log) && |log| > n
  }

  function Parent(o: Opened): Opened
    requires o.edges != []
  {
    Opened(o.start, o.edges[..|o.edges| - 1])
  }

  /** Every walk was queued while its parent was being expanded. */
  ghost predicate Parented(log: seq<Opened>, done: nat)
    requires done <= |log|
  {
    forall o | o in log && o.edges != [] :: Parent(o) in log[..done]
  }

  /** The log of everything ever queued: first what was expanded, then what still waits. */
  ghost predicate Logged(q: Query, starts: set<string>, depth: nat, start: string, s: Search, log: seq<Opened>) {
    && OpenLog(q, starts, depth, log)
    && |log| == s.expansions + |s.queue|
    && (forall i | 0 <= i < |s.queue| :: log[s.expansions + i] == Opened(start, s.queue[i].edges))
    && Parented(log, s.expansions)
  }

  /** The logged children of the walk being expanded came from edges already followed. */
  ghost predicate ChildrenKnown(start: string, p: Walk, out: seq<Edge>, j: nat, log: seq<Opened>)
    requires j <= |out|
  {
    forall o | o in log && o.edges != [] && Parent(o) == Opened(start, p.edges) ::
      exists k | 0 <= k < j :: o.edges == p.edges + [out[k]]
  }

  /** The state of the budget while `p` is being expanded and `j` of its edges have been followed. */
  ghost predicate Budgeted(q: Query, starts: set<string>, depth: nat, start: string, p: Walk, out: seq<Edge>, j: nat,
                           s: Search, log: seq<Opened>)
    requires j <= |out|
  {
    && Logged(q, starts, depth, start, s, log)
    && ChildrenKnown(start, p, out, j, log)
    && Opened(start, p.edges) in log[..s.expansions]
  }

  lemma {:induction false} OutgoingDistinct(edges: seq<Edge>, id: string)
    requires forall i, j | 0 <= i < j < |edges| :: edges[i].id != edges[j].id
    ensures Objectives.Distinct(Outgoing(edges, id))
    decreases |edges|
  {
    if edges != [] {
      var rest := edges[..|edges| - 1];
      var last := edges[|edges| - 1];
      OutgoingDistinct(rest, id);
      assert last !in rest;
      DistinctAppend(Outgoing(rest, id), last);
    }
  }

  lemma DistinctAppend(out: seq<Edge>, e: Edge)
    requires Objectives.Distinct(out) && e !in out
    ensures Objectives.Distinct(out + [e])
  {
    forall i | 0 <= i < |out|
      ensures out[i] != e
    {
      assert out[i] in out;
    }
  }

  lemma HeadLogged(q: Query, starts: set<string>, depth: nat, start: string, s: Search, t: Search, out: seq<Edge>,
                   log: seq<Opened>)
    requires Logged(q, starts, depth, start, s, log) && s.queue != []
    requires t == s.(queue := s.queue[1..], expansions := s.expansions + 1)
    ensures Budgeted(q, starts, depth, start, s.queue[0], out, 0, t, log)
  {
    assert log[s.expansions + 0] == Opened(start, s.queue[0].edges);
    RestLogged(start, s, t, log);
    HeadParents(start, s.queue[0], out, s.expansions, log);
  }

  lemma RestLogged(start: string, s: Search, t: Search, log: seq<Opened>)
    requires |log| == s.expansions + |s.queue| && s.queue != []
    requires forall i | 0 <= i < |s.queue| :: log[s.expansions + i] == Opened(start, s.queue[i].edges)
    requires t == s.(queue := s.queue[1..], expansions := s.expansions + 1)
    ensures forall i | 0 <= i < |t.queue| :: log[t.expansions + i] == Opened(start, t.queue[i].edges)
  {
    forall i | 0 <= i < |t.queue|
      ensures log[t.expansions + i] == Opened(start, t.queue[i].edges)
    {
      assert log[s.expansions + (i + 1)] == Opened(start, s.queue[i + 1].edges);
    }
  }

  /** The head of the queue has no logged children yet. */
  lemma HeadParents(start: string, p: Walk, out: seq<Edge>, done: nat, log: seq<Opened>)
    requires done < |log| && Parented(log, done) && log[done] == Opened(start, p.edges)
    requires forall i, j | 0 <= i < j < |log| :: log[i] != log[j]
    ensures Parented(log, done + 1) && ChildrenKnown(start, p, out, 0, log)
    ensures Opened(start, p.edges) in log[..done + 1]
  {
    assert log[..done + 1] == log[..done] + [log[done]];
    forall o | o in log && o.edges != []
      ensures Parent(o) in log[..done + 1] && Parent(o) != log[done]
    {
      HeadIsNoParent(log, done, o);
    }
  }

  lemma HeadIsNoParent(log: seq<Opened>, done: nat, o: Opened)
    requires done < |log| && Parented(log, done) && o in log && o.edges != []
    requires forall i, j | 0 <= i < j < |log| :: log[i] != log[j]
    ensures Parent(o) in log[..done] && Parent(o) != log[done]
  {
    var k :| 0 <= k < done && log[..done][k] == Parent(o);
    assert log[k] != log[done];
  }

  lemma BudgetSame(q: Query, starts: set<string>, depth: nat, start: string, p: Walk, out: seq<Edge>, j: nat,
                   s: Search, t: Search, log: seq<Opened>)
    requires j < |out| && Budgeted(q, starts, depth, start, p, out, j, s, log)
    requires t.queue == s.queue && t.expansions == s.expansions
    ensures Budgeted(q, starts, depth, start, p, out, j + 1, t, log)
  {
    SameLogged(q, starts, depth, start, s, t, log);
    MoreChildrenKnown(start, p, out, j, log);
  }

  lemma SameLogged(q: Query, starts: set<string>, depth: nat, start: string, s: Search, t: Search, log: seq<Opened>)
    requires Logged(q, starts, depth, start, s, log) && t.queue == s.queue && t.expansions == s.expansions
    ensures Logged(q, starts, depth, start, t, log)
  {
  }

  lemma MoreChildrenKnown(start: string, p: Walk, out: seq<Edge>, j: nat, log: seq<Opened>)
    requires j < |out| && ChildrenKnown(start, p, out, j, log)
    ensures ChildrenKnown(start, p, out, j + 1, log)
  {
  }

  /** A walk over an edge not followed before is not in the log. */
  lemma NotLoggedYet(start: string, p: Walk, out: seq<Edge>, j: nat, log: seq<Opened>, o: Opened)
    requires j < |out| && ChildrenKnown(start, p, out, j, log) && Objectives.Distinct(out) && o in log
    ensures o != Opened(start, p.edges + [out[j]])
  {
    if o.edges != [] && Parent(o) == Opened(start, p.edges) {
      var k :| 0 <= k < j && o.edges == p.edges + [out[k]];
      assert o.edges[|p.edges|] == out[k] && out[k] != out[j];
      assert (p.edges + [out[j]])[|p.edges|] == out[j];
    } else {
      assert Parent(Opened(start, p.edges + [out[j]])) == Opened(start, p.edges);
    }
  }

  lemma ChildIsNew(q: Query, starts: set<string>, depth: nat, start: string, p: Walk, out: seq<Edge>, j: nat,
                   s: Search, log: seq<Opened>)
    requires j < |out| && Budgeted(q, starts, depth, start, p, out, j, s, log) && Objectives.Distinct(out)
    requires OpenWalk(q, starts, depth, Opened(start, p.edges + [out[j]]))
    ensures OpenLog(q, starts, depth, log + [Opened(start, p.edges + [out[j]])])
  {
    var child := Opened(start, p.edges + [out[j]]);
    forall i | 0 <= i < |log|
      ensures log[i] != child
    {
      assert log[i] in log;
      NotLoggedYet(start, p, out, j, log, log[i]);
    }
    OpenLogAppend(q, starts, depth, log, child);
  }

  lemma OpenLogAppend(q: Query, starts: set<string>, depth: nat, log: seq<Opened>, o: Opened)
    requires OpenLog(q, starts, depth, log) && OpenWalk(q, starts, depth, o)
    requires forall i | 0 <= i < |log| :: log[i] != o
    ensures OpenLog(q, starts, depth, log + [o])
  {
  }

  lemma ChildLogged(q: Query, starts: set<string>, depth: nat, start: string, p: Walk, out: seq<Edge>, j: nat,
                    s: Search, t: Search, next: Walk, log: seq<Opened>)
    requires j < |out| && Budgeted(q, starts, depth, start, p, out, j, s, log)
    requires next.edges == p.edges + [out[j]] && t == s.(queue := s.queue + [next])
    requires OpenLog(q, starts, depth, log + [Opened(start, next.edges)])
    ensures Budgeted(q, starts, depth, start, p, out, j + 1, t, log + [Opened(start, next.edges)])
  {
    LoggedAppend(q, starts, depth, start, p, s, t, next, log);
    ChildrenKnownAppend(start, p, out, j, log, Opened(start, next.edges));
    assert (log + [Opened(start, next.edges)])[..t.expansions] == log[..s.expansions];
  }

  lemma LoggedAppend(q: Query, starts: set<string>, depth: nat, start: string, p: Walk, s: Search, t: Search,
                     next: Walk,
                     log: seq<Opened>)
    requires Logged(q, starts, depth, start, s, log) && t == s.(queue := s.queue + [next])
    requires Opened(start, p.edges) in log[..s.expansions]
    requires next.edges != [] && next.edges[..|next.edges| - 1] == p.edges
    requires OpenLog(q, starts, depth, log + [Opened(start, next.edges)])
    ensures Logged(q, starts, depth, start, t, log + [Opened(start, next.edges)])
  {
    var child := Opened(start, next.edges);
    assert Parent(child) == Opened(start, p.edges);
    QueuedLogged(start, s, t, next, log);
    ParentedAppend(log, s.expansions, child);
  }

  lemma QueuedLogged(start: string, s: Search, t: Search, next: Walk, log: seq<Opened>)
    requires |log| == s.expansions + |s.queue| && t == s.(queue := s.queue + [next])
    requires forall i | 0 <= i < |s.queue| :: log[s.expansions + i] == Opened(start, s.queue[i].edges)
    ensures var longer := log + [Opened(start, next.edges)];
      forall i | 0 <= i < |t.queue| :: longer[t.expansions + i] == Opened(start, t.queue[i].edges)
  {
    var longer := log + [Opened(start, next.edges)];
    forall i | 0 <= i < |t.queue|
      ensures longer[t.expansions + i] == Opened(start, t.queue[i].edges)
    {
      if i < |s.queue| {
        assert log[s.expansions + i] == Opened(start, s.queue[i].edges);
      }
    }
  }

  lemma ParentedAppend(log: seq<Opened>, done: nat, o: Opened)
    requires done <= |log| && Parented(log, done)
    requires o.edges != [] ==> Parent(o) in log[..done]
    ensures Parented(log + [o], done)
  {
    assert (log + [o])[..done] == log[..done];
    assert forall x | x in log + [o] :: x in log || x == o;
  }

  lemma ChildrenKnownAppend(start: string, p: Walk, out: seq<Edge>, j: nat, log: seq<Opened>, child: Opened)
    requires j < |out| && ChildrenKnown(start, p, out, j, log) && child.edges == p.edges + [out[j]]
    ensures ChildrenKnown(start, p, out, j + 1, log + [child])
  {
    MoreChildrenKnown(start, p, out, j, log);
    assert forall x | x in log + [child] :: x in log || x == child;
  }

  /** Every open child of a walk expanded before `done` was queued. */
  ghost predicate Covered(q: Query, starts: set<string>, depth: nat, log: seq<Opened>, done: nat)
    requires done <= |log|
  {
    forall o | OpenWalk(q, starts, depth, o) && o.edges != [] && Parent(o) in log[..done] :: o in log
  }

  /** This walk continues `p` over an edge still to be followed. */
  predicate StillAhead(start: string, p: Walk, out: seq<Edge>, j: nat, o: Opened) {
    o.start == start && exists k | j <= k < |out| :: o.edges == p.edges + [out[k]]
  }

  /** The same while `p` is being expanded: only children over edges still ahead may be missing. */
  ghost predicate CoveredBut(q: Query, starts: set<string>, depth: nat, start: string, p: Walk, out: seq<Edge>, j: nat,
                             log: seq<Opened>, done: nat)
    requires done <= |log|
  {
    forall o | OpenWalk(q, starts, depth, o) && o.edges != [] && Parent(o) in log[..done] ::
      o in log || StillAhead(start, p, out, j, o)
  }

  lemma HeadCovered(q: Query, starts: set<string>, depth: nat, start: string, s: Search, out: seq<Edge>,
                    log: seq<Opened>)
    requires Logged(q, starts, depth, start, s, log) && s.queue != []
    requires Covered(q, starts, depth, log, s.expansions)
    requires out == Outgoing(q.graph.edges, End(start, s.queue[0].edges))
    ensures CoveredBut(q, starts, depth, start, s.queue[0], out, 0, log, s.expansions + 1)
  {
    var p := s.queue[0];
    assert log[s.expansions + 0] == Opened(start, p.edges);
    assert log[..s.expansions + 1] == log[..s.expansions] + [Opened(start, p.edges)];
    forall o | OpenWalk(q, starts, depth, o) && o.edges != [] && Parent(o) == Opened(start, p.edges)
      ensures StillAhead(start, p, out, 0, o)
    {
      ChildIsAhead(q, starts, depth, start, p, out, o);
    }
  }

  lemma ChildIsAhead(q: Query, starts: set<string>, depth: nat, start: string, p: Walk, out: seq<Edge>, o: Opened)
    requires OpenWalk(q, starts, depth, o) && o.edges != [] && Parent(o) == Opened(start, p.edges)
    requires forall e | e in q.graph.edges && e.source == End(start, p.edges) :: e in out
    ensures StillAhead(start, p, out, 0, o)
  {
    LastStep(q, o.start, o.edges);
    AheadOver(start, p, out, o.edges[|o.edges| - 1], o);
  }

  lemma LastStep(q: Query, start: string, edges: seq<Edge>)
    requires SimpleWalk(q, start, edges) && edges != []
    ensures var m := |edges| - 1; edges[m] in q.graph.edges && edges[m].source == End(start, edges[..m])
  {
    NextEdge(q, start, edges, |edges| - 1);
  }

  lemma AheadOver(start: string, p: Walk, out: seq<Edge>, e: Edge, o: Opened)
    requires e in out && o.edges != [] && Parent(o) == Opened(start, p.edges) && o.edges[|o.edges| - 1] == e
    ensures StillAhead(start, p, out, 0, o)
  {
    var k :| 0 <= k < |out| && out[k] == e;
    assert o.edges == p.edges + [out[k]];
  }

  /** Following one edge either queues the walk over it or finds that there is none. */
  lemma EdgeCovered(q: Query, starts: set<string>, depth: nat, start: string, p: Walk, out: seq<Edge>, j: nat,
                    log: seq<Opened>, grown: seq<Opened>, done: nat)
    requires j < |out| && done <= |log| && CoveredBut(q, starts, depth, start, p, out, j, log, done)
    requires log <= grown
    requires OpenWalk(q, starts, depth, Opened(start, p.edges + [out[j]])) ==>
      Opened(start, p.edges + [out[j]]) in grown
    ensures CoveredBut(q, starts, depth, start, p, out, j + 1, grown, done)
  {
    assert grown[..done] == log[..done];
    forall o | OpenWalk(q, starts, depth, o) && o.edges != [] && Parent(o) in grown[..done]
      ensures o in grown || StillAhead(start, p, out, j + 1, o)
    {
      if StillAhead(start, p, out, j, o) {
        var k :| j <= k < |out| && o.edges == p.edges + [out[k]];
        assert k == j ==> o == Opened(start, p.edges + [out[j]]);
      }
    }
  }

  lemma AllFollowedCovers(q: Query, starts: set<string>, depth: nat, start: string, p: Walk, out: seq<Edge>,
                          log: seq<Opened>, done: nat)
    requires done <= |log| && CoveredBut(q, starts, depth, start, p, out, |out|, log, done)
    ensures Covered(q, starts, depth, log, done)
  {
    assert forall o :: !StillAhead(start, p, out, |out|, o);
  }

  lemma {:induction false} PrefixLogged(log: seq<Opened>, start: string, edges: seq<Edge>, n: nat)
    requires n <= |edges| && Opened(start, []) in log
    requires forall k | 0 < k <= |edges| && Opened(start, edges[..k - 1]) in log :: Opened(start, edges[..k]) in log
    ensures Opened(start, edges[..n]) in log
  {
    if n > 0 {
      PrefixLogged(log, start, edges, n - 1);
    }
  }

  /** A search that drained its queue without dropping a walk has logged every open walk. */
  lemma EveryWalkLogged(q: Query, starts: set<string>, depth: nat, log: seq<Opened>, o: Opened)
    requires Covered(q, starts, depth, log, |log|) && Opened(o.start, []) in log
    requires OpenWalk(q, starts, depth, o)
    ensures o in log
  {
    forall k | 0 < k <= |o.edges| && Opened(o.start, o.edges[..k - 1]) in log
      ensures Opened(o.start, o.edges[..k]) in log
    {
      PrefixIsOpen(q, starts, depth, o, k);
      PrefixParent(o, k);
      ChildLoggedToo(q, starts, depth, log, Opened(o.start, o.edges[..k]));
    }
    PrefixLogged(log, o.start, o.edges, |o.edges|);
    assert o.edges[..|o.edges|] == o.edges;
  }

  lemma PrefixParent(o: Opened, k: nat)
    requires 0 < k <= |o.edges|
    ensures Parent(Opened(o.start, o.edges[..k])) == Opened(o.start, o.edges[..k - 1])
  {
    assert o.edges[..k][..k - 1] == o.edges[..k - 1];
  }

  lemma PrefixIsOpen(q: Query, starts: set<string>, depth: nat, o: Opened, k: nat)
    requires k <= |o.edges| && OpenWalk(q, starts, depth, o)
    ensures OpenWalk(q, starts, depth, Opened(o.start, o.edges[..k]))
  {
    WalkPrefix(q, o.start, o.edges, k);
    assert o.edges[..|o.edges|] == o.edges;
  }

  lemma ChildLoggedToo(q: Query, starts: set<string>, depth: nat, log: seq<Opened>, o: Opened)
    requires Covered(q, starts, depth, log, |log|) && OpenWalk(q, starts, depth, o)
    requires o.edges != [] && Parent(o) in log
    ensures o in log
  {
    assert log[..|log|] == log;
  }

  /** So a drained log bounds the number of open walks. */
  lemma LogBounds(q: Query, starts: set<string>, depth: nat, log: seq<Opened>)
    requires Covered(q, starts, depth, log, |log|)
    requires forall start | start in starts :: Opened(start, []) in log
    ensures !ManyOpen(q, starts, depth, |log|)
  {
    forall other | OpenLog(q, starts, depth, other)
      ensures |other| <= |log|
    {
      forall o | o in other
        ensures o in log
      {
        EveryWalkLogged(q, starts, depth, log, o);
      }
      DistinctWithin(other, log);
    }
  }

  lemma StillWithin(log: seq<Opened>, i: nat, o: Opened)
    requires i < |log| && o in log && o != log[i]
    ensures o in log[..i] + log[i + 1..]
  {
    var h :| 0 <= h < |log| && log[h] == o;
    assert o == if h < i then log[..i][h] else log[i + 1..][h - i - 1];
  }

  lemma {:induction false} DistinctWithin(items: seq<Opened>, log: seq<Opened>)
    requires Objectives.Distinct(items) && forall o | o in items :: o in log
    ensures |items| <= |log|
    decreases |items|
  {
    if items != [] {
      var m := |items| - 1;
      assert items[m] in items;
      var i :| 0 <= i < |log| && log[i] == items[m];
      forall k | 0 <= k < m
        ensures items[k] in log[..i] + log[i + 1..]
      {
        assert items[k] in items;
        StillWithin(log, i, items[k]);
      }
      DistinctWithin(items[..m], log[..i] + log[i + 1..]);
    }
  }

  // ------------------------------------------------------------------------ the loops

  lemma NotYetListed(q: Query, starts: set<string>, l: Limits, s: Search, edges: seq<Edge>)
    requires ValidGraph(q.graph) && SearchSound(q, starts, l, s) && !s.ceilings.paths
    requires forall e | e in edges :: e in q.graph.edges
    ensures Ids(edges) in s.seen <==> exists f | f in s.found :: f.edges == edges
  {
    forall f | f in s.found
      ensures Ids(f.edges) == Ids(edges) <==> f.edges == edges
    {
      assert AttackPath(q, f.start, f.edges);
      assert forall e | e in f.edges :: e in q.graph.edges;
      IdsNameEdges(q.graph, f.edges, edges);
    }
  }

  /** Edges determine where they start. */
  lemma SameEdgesSameStart(q: Query, a: string, b: string, edges: seq<Edge>)
    requires edges != [] && SimpleWalk(q, a, edges) && SimpleWalk(q, b, edges)
    ensures a == b
  {
    assert edges[0].source == At(a, edges, 0) && edges[0].source == At(b, edges, 0);
  }

  lemma SoundOneMore(q: Query, starts: set<string>, depth: nat, found: seq<Found>, start: string, edges: seq<Edge>)
    requires Sound(q, starts, depth, found)
    requires start in starts && AttackPath(q, start, edges) && |edges| <= depth
    requires forall f | f in found :: f.edges != edges
    ensures Sound(q, starts, depth, found + [Found(start, edges)])
  {
    assert forall i | 0 <= i < |found| :: found[i] in found;
  }

  lemma SeenOneMore(seen: set<seq<string>>, found: seq<Found>, f: Found)
    requires SeenIs(seen, found)
    ensures SeenIs(seen + {Ids(f.edges)}, found + [f])
  {
    var more := found + [f];
    assert more[|found|] == f;
    forall ids | ids in seen
      ensures exists g | g in more :: Ids(g.edges) == ids
    {
      var g :| g in found && Ids(g.edges) == ids;
      assert g in more;
    }
  }

  lemma ListedOneMore(q: Query, starts: set<string>, l: Limits, s: Search, start: string, edges: seq<Edge>)
    requires SearchSound(q, starts, l, s) && !s.ceilings.paths
    requires start in starts && AttackPath(q, start, edges) && |edges| <= l.maxDepth
    requires forall f | f in s.found :: f.edges != edges
    requires |s.found| < l.maxPaths
    ensures SearchSound(q, starts, l, s.(found := s.found + [Found(start, edges)], seen := s.seen + {Ids(edges)}))
  {
    SoundOneMore(q, starts, l.maxDepth, s.found, start, edges);
    SeenOneMore(s.seen, s.found, Found(start, edges));
  }

  /** A target was reached: list the path, unless it is listed already or the list is full. */
  method ReachTarget(q: Query, l: Limits, ghost starts: set<string>, start: string, edges: seq<Edge>, s: Search)
    returns (t: Search)
    requires ValidGraph(q.graph) && SearchSound(q, starts, l, s) && !s.ceilings.paths
    requires start in starts && AttackPath(q, start, edges) && |edges| <= l.maxDepth
    ensures SearchSound(q, starts, l, t) && Grown(s, t)
    ensures t.queue == s.queue && t.expansions == s.expansions && t.ceilings.expansions == s.ceilings.expansions
    ensures !t.ceilings.paths ==> Found(start, edges) in t.found
  {
    NotYetListed(q, starts, l, s, edges);
    if Ids(edges) in s.seen {
      AlreadyListed(q, starts, l, s, start, edges);
      return s;
    }
    if |s.found| >= l.maxPaths {
      return s.(seen := s.seen + {Ids(edges)}, ceilings := s.ceilings.(paths := true));
    }
    ListedOneMore(q, starts, l, s, start, edges);
    t := s.(found := s.found + [Found(start, edges)], seen := s.seen + {Ids(edges)});
    assert t.found[|s.found|] == Found(start, edges);
  }

  lemma AlreadyListed(q: Query, starts: set<string>, l: Limits, s: Search, start: string, edges: seq<Edge>)
    requires SearchSound(q, starts, l, s) && AttackPath(q, start, edges)
    requires exists f | f in s.found :: f.edges == edges
    ensures Found(start, edges) in s.found
  {
    var f :| f in s.found && f.edges == edges;
    SameEdgesSameStart(q, f.start, start, edges);
  }

  /** Over an edge that is not permitted, closes a circle, goes too deep or ends at a target there
      is no open walk. */
  lemma NoWalkOver(q: Query, starts: set<string>, depth: nat, start: string, p: Walk, e: Edge)
    requires Queued(q, start, depth, p) && e.source == End(start, p.edges)
    ensures !Permitted(q, e) || e.target in p.nodes || |p.edges| >= depth || e.target in q.targets ==>
      !OpenWalk(q, starts, depth, Opened(start, p.edges + [e]))
  {
    var longer := p.edges + [e];
    if OpenWalk(q, starts, depth, Opened(start, longer)) {
      NextEdge(q, start, longer, |p.edges|);
      assert longer[..|p.edges|] == p.edges;
      assert End(start, longer) == e.target;
      assert forall i | 0 <= i < |p.nodes| :: p.nodes[i] == At(start, p.edges, i);
    }
  }

  /** What following one edge comes to: nothing to queue, a walk queued, or one dropped. */
  datatype Following = Settles | Queues | Drops

  /** Only a dropped walk names the expansion ceiling, and only when the budget is spoken for. */
  ghost predicate FollowedBy(q: Query, starts: set<string>, l: Limits, start: string, p: Walk, e: Edge, s: Search,
                             t: Search,
                             outcome: Following)
  {
    && t.expansions == s.expansions
    && (outcome.Settles? ==> t.queue == s.queue && t.ceilings.expansions == s.ceilings.expansions)
    && (!outcome.Settles? <==> OpenWalk(q, starts, l.maxDepth, Opened(start, p.edges + [e])))
    && (outcome.Drops? ==> t.ceilings.expansions)
    && (outcome.Drops? ==> t.queue == s.queue && s.expansions + |s.queue| >= l.maxExpansions)
    && (outcome.Queues? ==>
          t == s.(queue := s.queue + [Walk(p.nodes + [e.target], p.edges + [e])]))
  }

  /** The body of the inner loop. */
  method FollowEdge(q: Query, l: Limits, ghost starts: set<string>, start: string, p: Walk, e: Edge, s: Search)
    returns (t: Search, outcome: Following)
    requires ValidGraph(q.graph) && SearchSound(q, starts, l, s) && !s.ceilings.paths
    requires start in starts && Queued(q, start, l.maxDepth, p) && AllQueued(q, start, l.maxDepth, s.queue)
    requires e in q.graph.edges && e.source == End(start, p.edges)
    ensures SearchSound(q, starts, l, t) && Grown(s, t) && QueueGrown(s, t)
    ensures AllQueued(q, start, l.maxDepth, t.queue)
    ensures !t.Cut() ==> EdgeHandled(q, start, l.maxDepth, p, e, t)
    ensures FollowedBy(q, starts, l, start, p, e, s, t, outcome)
  {
    outcome := Settles;
    t := s;
    NoWalkOver(q, starts, l.maxDepth, start, p, e);
    if q.allowed != {} && e.relationship !in q.allowed {
      UnusableEdge(q, start, l.maxDepth, p, e, t);
      return;
    }
    if e.target in p.nodes {
      UnusableEdge(q, start, l.maxDepth, p, e, t);
      return;
    }
    FreshExtends(q, start, l.maxDepth, p, e);
    var nextEdges := p.edges + [e];
    if |p.edges| >= l.maxDepth {
      t := s.(ceilings := s.ceilings.(depth := true));
      TooDeep(q, start, l.maxDepth, p, e, t);
      return;
    }
    if e.target in q.targets {
      t := ReachTarget(q, l, starts, start, nextEdges, s);
      if !t.ceilings.paths {
        TargetReached(q, start, l.maxDepth, p, e, t);
      }
      return;
    }
    if s.expansions + |s.queue| >= l.maxExpansions {
      outcome := Drops;
      t := s.(ceilings := s.ceilings.(expansions := true));
      return;
    }
    outcome := Queues;
    var next := Walk(p.nodes + [e.target], nextEdges);
    t := s.(queue := s.queue + [next]);
    assert t.queue[|s.queue|] == next;
    Enqueued(q, start, l.maxDepth, p, e, t, next);
  }

  /** `edges` continues `p` over one of the outgoing edges still to be followed. */
  ghost predicate Ahead(p: Walk, out: seq<Edge>, j: nat, edges: seq<Edge>) {
    exists k | j <= k < |out| :: Through(p, out[k], edges)
  }

  /** Nothing is lost while `p` is being expanded and `j` of its edges have been followed. */
  ghost predicate NothingLostAt(q: Query, start: string, depth: nat, s: Search, p: Walk, out: seq<Edge>, j: nat) {
    forall edges | Accountable(q, start, depth, edges) ::
      Settled(q, start, depth, s.found, s.ceilings.depth, edges) || Waiting(s.queue, edges) || Ahead(p, out, j, edges)
  }

  lemma WaitingGrows(s: Search, t: Search, edges: seq<Edge>)
    requires QueueGrown(s, t) && Waiting(s.queue, edges)
    ensures Waiting(t.queue, edges)
  {
  }

  lemma EdgeFollowed(q: Query, start: string, depth: nat, s: Search, t: Search, p: Walk, out: seq<Edge>, j: nat,
                     edges: seq<Edge>)
    requires NothingLostAt(q, start, depth, s, p, out, j) && j < |out|
    requires Grown(s, t) && QueueGrown(s, t) && EdgeHandled(q, start, depth, p, out[j], t)
    requires Accountable(q, start, depth, edges)
    ensures Settled(q, start, depth, t.found, t.ceilings.depth, edges) || Waiting(t.queue, edges)
      || Ahead(p, out, j + 1, edges)
  {
    if Waiting(s.queue, edges) {
      WaitingGrows(s, t, edges);
    } else if !Settled(q, start, depth, s.found, s.ceilings.depth, edges) {
      AheadOrNext(p, out, j, edges);
    }
  }

  lemma AheadOrNext(p: Walk, out: seq<Edge>, j: nat, edges: seq<Edge>)
    requires j < |out| && Ahead(p, out, j, edges)
    ensures Through(p, out[j], edges) || Ahead(p, out, j + 1, edges)
  {
    var k :| j <= k < |out| && Through(p, out[k], edges);
  }

  lemma EdgesFollowed(q: Query, start: string, depth: nat, s: Search, t: Search, p: Walk, out: seq<Edge>, j: nat)
    requires NothingLostAt(q, start, depth, s, p, out, j) && j < |out|
    requires Grown(s, t) && QueueGrown(s, t) && EdgeHandled(q, start, depth, p, out[j], t)
    ensures NothingLostAt(q, start, depth, t, p, out, j + 1)
  {
    forall edges | Accountable(q, start, depth, edges)
      ensures Settled(q, start, depth, t.found, t.ceilings.depth, edges) || Waiting(t.queue, edges)
        || Ahead(p, out, j + 1, edges)
    {
      EdgeFollowed(q, start, depth, s, t, p, out, j, edges);
    }
  }

  /** Taking the head off the queue moves its continuations to the edges ahead. */
  lemma HeadTaken(q: Query, start: string, depth: nat, s: Search, t: Search, out: seq<Edge>, edges: seq<Edge>)
    requires NothingLost(q, start, depth, s.found, s.ceilings.depth, s.queue) && s.queue != []
    requires t == s.(queue := s.queue[1..], expansions := s.expansions + 1)
    requires out == Outgoing(q.graph.edges, End(start, s.queue[0].edges))
    requires Accountable(q, start, depth, edges)
    ensures Settled(q, start, depth, t.found, t.ceilings.depth, edges) || Waiting(t.queue, edges)
      || Ahead(s.queue[0], out, 0, edges)
  {
    if Waiting(s.queue, edges) && !Waiting(t.queue, edges) {
      var p := s.queue[0];
      assert forall w | w in s.queue :: w == p || w in s.queue[1..];
      assert StrictPrefix(p.edges, edges);
      NextEdge(q, start, edges, |p.edges|);
      assert edges[|p.edges|] in out;
      var k :| 0 <= k < |out| && out[k] == edges[|p.edges|];
      assert Through(p, out[k], edges);
    }
  }

  lemma HeadsTaken(q: Query, start: string, depth: nat, s: Search, t: Search, out: seq<Edge>)
    requires NothingLost(q, start, depth, s.found, s.ceilings.depth, s.queue) && s.queue != []
    requires t == s.(queue := s.queue[1..], expansions := s.expansions + 1)
    requires out == Outgoing(q.graph.edges, End(start, s.queue[0].edges))
    ensures NothingLostAt(q, start, depth, t, s.queue[0], out, 0)
  {
    forall edges | Accountable(q, start, depth, edges)
      ensures Settled(q, start, depth, t.found, t.ceilings.depth, edges) || Waiting(t.queue, edges)
        || Ahead(s.queue[0], out, 0, edges)
    {
      HeadTaken(q, start, depth, s, t, out, edges);
    }
  }

  /** A named expansion ceiling means that there were more open walks than it allows. */
  ghost predicate HonestBudget(q: Query, starts: set<string>, l: Limits, s: Search) {
    s.ceilings.expansions ==> ManyOpen(q, starts, l.maxDepth, l.maxExpansions)
  }

  /** The log only grows, and everything added to it starts here. */
  ghost predicate OnlyFrom(start: string, log: seq<Opened>, grown: seq<Opened>) {
    log <= grown && forall o | o in grown :: o in log || o.start == start
  }

  /** The log after one more edge. */
  lemma BudgetFollows(q: Query, starts: set<string>, l: Limits, start: string, p: Walk, out: seq<Edge>, j: nat,
                      s: Search, t: Search, outcome: Following, log: seq<Opened>)
    returns (grown: seq<Opened>)
    requires j < |out| && Budgeted(q, starts, l.maxDepth, start, p, out, j, s, log)
    requires Objectives.Distinct(out)
    requires FollowedBy(q, starts, l, start, p, out[j], s, t, outcome) && HonestBudget(q, starts, l, s)
    ensures Budgeted(q, starts, l.maxDepth, start, p, out, j + 1, t, grown) && HonestBudget(q, starts, l, t)
    ensures OnlyFrom(start, log, grown)
    ensures t.ceilings.expansions || outcome.Settles? || Opened(start, p.edges + [out[j]]) in grown
  {
    grown := log;
    if outcome.Settles? {
      BudgetSame(q, starts, l.maxDepth, start, p, out, j, s, t, log);
    } else {
      var child := Opened(start, p.edges + [out[j]]);
      ChildIsNew(q, starts, l.maxDepth, start, p, out, j, s, log);
      if outcome.Drops? {
        assert |log + [child]| > l.maxExpansions;
        BudgetSame(q, starts, l.maxDepth, start, p, out, j, s, t, log);
      } else {
        grown := log + [child];
        ChildLogged(q, starts, l.maxDepth, start, p, out, j, s, t, t.queue[|s.queue|], log);
      }
    }
  }

  /** The state of the search while `p` is being expanded and `j` of its edges have been followed. */
  ghost predicate Expanding(q: Query, starts: set<string>, l: Limits, start: string, p: Walk, out: seq<Edge>, j: nat,
                            t: Search, log: seq<Opened>)
    requires j <= |out|
  {
    && SearchSound(q, starts, l, t) && AllQueued(q, start, l.maxDepth, t.queue)
    && (!t.Cut() ==> NothingLostAt(q, start, l.maxDepth, t, p, out, j))
    && Budgeted(q, starts, l.maxDepth, start, p, out, j, t, log) && HonestBudget(q, starts, l, t)
    && (!t.Cut() ==> CoveredBut(q, starts, l.maxDepth, start, p, out, j, log, t.expansions))
  }

  /** One edge of the walk being expanded. */
  method FollowNext(q: Query, l: Limits, ghost starts: set<string>, start: string, p: Walk, out: seq<Edge>, j: nat,
                    s: Search, ghost log: seq<Opened>)
    returns (t: Search, ghost grown: seq<Opened>)
    requires j < |out| && Expanding(q, starts, l, start, p, out, j, s, log) && !s.ceilings.paths
    requires ValidGraph(q.graph) && start in starts && Queued(q, start, l.maxDepth, p)
    requires Objectives.Distinct(out) && out[j] in q.graph.edges && out[j].source == End(start, p.edges)
    ensures Expanding(q, starts, l, start, p, out, j + 1, t, grown)
    ensures Grown(s, t) && t.expansions == s.expansions && OnlyFrom(start, log, grown)
  {
    var outcome;
    t, outcome := FollowEdge(q, l, starts, start, p, out[j], s);
    grown := BudgetFollows(q, starts, l, start, p, out, j, s, t, outcome, log);
    if !t.Cut() {
      EdgesFollowed(q, start, l.maxDepth, s, t, p, out, j);
      EdgeCovered(q, starts, l.maxDepth, start, p, out, j, log, grown, s.expansions);
    }
  }

  /** One expansion: the head of the queue is taken and each of its edges followed. */
  method Expand(q: Query, l: Limits, ghost starts: set<string>, start: string, s: Search, ghost log: seq<Opened>)
    returns (t: Search, ghost grown: seq<Opened>)
    requires ValidGraph(q.graph) && SearchSound(q, starts, l, s) && !s.ceilings.paths
    requires start in starts && AllQueued(q, start, l.maxDepth, s.queue)
    requires s.queue != [] && s.expansions < l.maxExpansions
    requires !s.Cut() ==> NothingLost(q, start, l.maxDepth, s.found, s.ceilings.depth, s.queue)
    requires Logged(q, starts, l.maxDepth, start, s, log) && HonestBudget(q, starts, l, s)
    requires !s.Cut() ==> Covered(q, starts, l.maxDepth, log, s.expansions)
    ensures SearchSound(q, starts, l, t) && Grown(s, t)
    ensures AllQueued(q, start, l.maxDepth, t.queue)
    ensures t.expansions == s.expansions + 1
    ensures !t.Cut() ==> NothingLost(q, start, l.maxDepth, t.found, t.ceilings.depth, t.queue)
    ensures Logged(q, starts, l.maxDepth, start, t, grown) && HonestBudget(q, starts, l, t)
      && OnlyFrom(start, log, grown)
    ensures !t.Cut() ==> Covered(q, starts, l.maxDepth, grown, t.expansions)
  {
    var p := s.queue[0];
    assert p in s.queue;
    var out := Outgoing(q.graph.edges, p.nodes[|p.nodes| - 1]);
    OutgoingDistinct(q.graph.edges, p.nodes[|p.nodes| - 1]);
    t, grown := s.(queue := s.queue[1..], expansions := s.expansions + 1), log;
    ExpansionBegins(q, starts, l, start, s, t, out, log);
    var j := 0;
    while j < |out| && !t.ceilings.paths
      invariant 0 <= j <= |out|
      invariant Expanding(q, starts, l, start, p, out, j, t, grown)
      invariant Grown(s, t) && t.expansions == s.expansions + 1 && OnlyFrom(start, log, grown)
    {
      assert out[j] in out;
      t, grown := FollowNext(q, l, starts, start, p, out, j, t, grown);
      j := j + 1;
    }
    ExpansionEnds(q, starts, l, start, p, out, j, t, grown);
  }

  lemma ExpansionBegins(q: Query, starts: set<string>, l: Limits, start: string, s: Search, t: Search, out: seq<Edge>,
                        log: seq<Opened>)
    requires SearchSound(q, starts, l, s) && AllQueued(q, start, l.maxDepth, s.queue)
    requires s.queue != [] && s.expansions < l.maxExpansions
    requires !s.Cut() ==> NothingLost(q, start, l.maxDepth, s.found, s.ceilings.depth, s.queue)
    requires Logged(q, starts, l.maxDepth, start, s, log) && HonestBudget(q, starts, l, s)
    requires !s.Cut() ==> Covered(q, starts, l.maxDepth, log, s.expansions)
    requires t == s.(queue := s.queue[1..], expansions := s.expansions + 1)
    requires out == Outgoing(q.graph.edges, End(start, s.queue[0].edges))
    ensures Expanding(q, starts, l, start, s.queue[0], out, 0, t, log)
  {
    if !s.Cut() {
      HeadsTaken(q, start, l.maxDepth, s, t, out);
      HeadCovered(q, starts, l.maxDepth, start, s, out, log);
    }
    HeadLogged(q, starts, l.maxDepth, start, s, t, out, log);
  }

  lemma ExpansionEnds(q: Query, starts: set<string>, l: Limits, start: string, p: Walk, out: seq<Edge>, j: nat,
                      t: Search, log: seq<Opened>)
    requires j <= |out| && Expanding(q, starts, l, start, p, out, j, t, log) && (j == |out| || t.ceilings.paths)
    ensures !t.Cut() ==> NothingLost(q, start, l.maxDepth, t.found, t.ceilings.depth, t.queue)
    ensures !t.Cut() ==> Covered(q, starts, l.maxDepth, log, t.expansions)
  {
    if !t.Cut() {
      AllFollowedCovers(q, starts, l.maxDepth, start, p, out, log, t.expansions);
      forall edges | Accountable(q, start, l.maxDepth, edges)
        ensures Settled(q, start, l.maxDepth, t.found, t.ceilings.depth, edges) || Waiting(t.queue, edges)
      {
        assert !Ahead(p, out, j, edges);
      }
    }
  }

  /** The state between two expansions from this start. */
  ghost predicate Searching(q: Query, starts: set<string>, l: Limits, start: string, s: Search, log: seq<Opened>,
                            t: Search, grown: seq<Opened>)
  {
    && SearchSound(q, starts, l, t) && Grown(s, t) && AllQueued(q, start, l.maxDepth, t.queue)
    && (!t.Cut() ==> NothingLost(q, start, l.maxDepth, t.found, t.ceilings.depth, t.queue))
    && BudgetKept(q, starts, l, start, log, t, grown)
  }

  /** What the search from one start comes to. */
  ghost predicate Searched(q: Query, starts: set<string>, l: Limits, start: string, s: Search, log: seq<Opened>,
                           t: Search, hardStop: bool, grown: seq<Opened>)
  {
    && SearchSound(q, starts, l, t) && Grown(s, t) && HonestBudget(q, starts, l, t)
    && OnlyFrom(start, log, grown) && Opened(start, []) in grown
    && (!hardStop ==> Drained(q, starts, l, t, grown))
    && (!t.Cut() ==> Covered(q, starts, l.maxDepth, grown, |grown|))
    && (t.ceilings.paths ==> hardStop)
    && (hardStop ==> t.Cut())
    && (!t.Cut() ==> Complete(q, start, l.maxDepth, t.found, t.ceilings.depth))
  }

  /** One more expansion from this start. */
  method ExpandNext(q: Query, l: Limits, ghost starts: set<string>, start: string, ghost s: Search,
                    ghost log: seq<Opened>, t: Search, ghost before: seq<Opened>)
    returns (u: Search, ghost grown: seq<Opened>)
    requires ValidGraph(q.graph) && start in starts
    requires Searching(q, starts, l, start, s, log, t, before) && !t.ceilings.paths
    requires t.queue != [] && t.expansions < l.maxExpansions
    ensures Searching(q, starts, l, start, s, log, u, grown) && u.expansions == t.expansions + 1
  {
    u, grown := Expand(q, l, starts, start, t, before);
    LogExtends(start, log, before, grown);
  }

  lemma SearchBegins(q: Query, starts: set<string>, l: Limits, start: string, s: Search, t: Search, log: seq<Opened>)
    requires SearchSound(q, starts, l, s) && start in starts && start !in q.targets
    requires Drained(q, starts, l, s, log) && HonestBudget(q, starts, l, s) && forall o | o in log :: o.start != start
    requires !s.Cut() ==> Covered(q, starts, l.maxDepth, log, |log|)
    requires t == s.(queue := [Walk([start], [])])
    ensures Searching(q, starts, l, start, s, log, t, log + [Opened(start, [])])
  {
    FirstWalk(q, start, l.maxDepth, t);
    StartBudget(q, starts, l, start, s, t, log);
  }

  lemma SearchExhausted(q: Query, starts: set<string>, l: Limits, start: string, s: Search, log: seq<Opened>,
                        t: Search, grown: seq<Opened>)
    requires Searching(q, starts, l, start, s, log, t, grown) && t.queue != [] && t.expansions >= l.maxExpansions
    ensures Searched(q, starts, l, start, s, log, t.(ceilings := t.ceilings.(expansions := true)), true, grown)
  {
    assert |grown| > l.maxExpansions;
  }

  lemma SearchEnds(q: Query, starts: set<string>, l: Limits, start: string, s: Search, log: seq<Opened>,
                   t: Search, grown: seq<Opened>)
    requires Searching(q, starts, l, start, s, log, t, grown) && (t.queue == [] || t.ceilings.paths)
    ensures Searched(q, starts, l, start, s, log, t, t.ceilings.paths, grown)
  {
    if !t.Cut() {
      DrainedIsComplete(q, start, l.maxDepth, t.found, t.ceilings.depth);
    }
  }

  /** The search from one start: until the queue is empty, or a hard stop for all starts. */
  method SearchFrom(q: Query, l: Limits, ghost starts: set<string>, start: string, s: Search, ghost log: seq<Opened>)
    returns (t: Search, hardStop: bool, ghost grown: seq<Opened>)
    requires ValidGraph(q.graph) && SearchSound(q, starts, l, s) && !s.ceilings.paths
    requires start in starts && start !in q.targets
    requires Drained(q, starts, l, s, log) && HonestBudget(q, starts, l, s) && forall o | o in log :: o.start != start
    requires !s.Cut() ==> Covered(q, starts, l.maxDepth, log, |log|)
    ensures Searched(q, starts, l, start, s, log, t, hardStop, grown)
  {
    hardStop := false;
    t := s.(queue := [Walk([start], [])]);
    grown := log + [Opened(start, [])];
    SearchBegins(q, starts, l, start, s, t, log);
    while t.queue != [] && !hardStop
      invariant Searching(q, starts, l, start, s, log, t, grown) && hardStop == t.ceilings.paths
      decreases l.maxExpansions - t.expansions
    {
      if t.expansions >= l.maxExpansions {
        SearchExhausted(q, starts, l, start, s, log, t, grown);
        t := t.(ceilings := t.ceilings.(expansions := true));
        return t, true, grown;
      }
      t, grown := ExpandNext(q, l, starts, start, s, log, t, grown);
      hardStop := t.ceilings.paths;
    }
    SearchEnds(q, starts, l, start, s, log, t, grown);
  }

  /** The state of the budget between two expansions from this start. */
  ghost predicate BudgetKept(q: Query, starts: set<string>, l: Limits, start: string, log: seq<Opened>, t: Search,
                             grown: seq<Opened>)
  {
    && Logged(q, starts, l.maxDepth, start, t, grown) && HonestBudget(q, starts, l, t)
    && OnlyFrom(start, log, grown) && Opened(start, []) in grown
    && (!t.Cut() ==> Covered(q, starts, l.maxDepth, grown, t.expansions))
  }

  lemma LogExtends(start: string, log: seq<Opened>, before: seq<Opened>, grown: seq<Opened>)
    requires OnlyFrom(start, log, before) && OnlyFrom(start, before, grown) && Opened(start, []) in before
    ensures OnlyFrom(start, log, grown) && Opened(start, []) in grown
  {
  }

  lemma StartBudget(q: Query, starts: set<string>, l: Limits, start: string, s: Search, t: Search, log: seq<Opened>)
    requires Drained(q, starts, l, s, log) && start in starts && start !in q.targets && HonestBudget(q, starts, l, s)
    requires forall o | o in log :: o.start != start
    requires !s.Cut() ==> Covered(q, starts, l.maxDepth, log, |log|)
    requires t == s.(queue := [Walk([start], [])])
    ensures BudgetKept(q, starts, l, start, log, t, log + [Opened(start, [])])
  {
    StartLogged(q, starts, l, start, s, t, log);
  }

  /** Everything ever queued has been expanded. */
  ghost predicate Drained(q: Query, starts: set<string>, l: Limits, s: Search, log: seq<Opened>) {
    OpenLog(q, starts, l.maxDepth, log) && |log| == s.expansions && Parented(log, |log|)
  }

  lemma StartLogged(q: Query, starts: set<string>, l: Limits, start: string, s: Search, t: Search, log: seq<Opened>)
    requires Drained(q, starts, l, s, log) && start in starts && start !in q.targets
    requires forall o | o in log :: o.start != start
    requires t == s.(queue := [Walk([start], [])])
    ensures Logged(q, starts, l.maxDepth, start, t, log + [Opened(start, [])])
    ensures Covered(q, starts, l.maxDepth, log, |log|) ==>
      Covered(q, starts, l.maxDepth, log + [Opened(start, [])], t.expansions)
  {
    var first := Opened(start, []);
    var longer := log + [first];
    assert OpenWalk(q, starts, l.maxDepth, first);
    assert longer[..t.expansions] == log[..|log|] == log;
    forall i | 0 <= i < |log|
      ensures log[i] != first
    {
      assert log[i] in log;
    }
  }

  lemma FirstWalk(q: Query, start: string, depth: nat, t: Search)
    requires t.queue == [Walk([start], [])] && start !in q.targets
    ensures AllQueued(q, start, depth, t.queue)
    ensures NothingLost(q, start, depth, t.found, t.ceilings.depth, t.queue)
  {
    forall edges | Accountable(q, start, depth, edges)
      ensures Waiting(t.queue, edges)
    {
      assert t.queue[0] in t.queue && StrictPrefix(t.queue[0].edges, edges);
    }
  }

  // ------------------------------------------------------------------------- the atlas

  datatype Report = Report(starts: seq<string>, targets: seq<string>, paths: seq<Found>, expansions: nat,
                           ceilings: Ceilings)
  {
    predicate Truncated() {
      ceilings != Ceilings(false, false, false, false, false)
    }
  }

  /** The ids of the nodes of these kinds, in the order the graph lists its nodes. */
  function Select(nodes: seq<Node>, kinds: seq<Kind>): (ids: seq<string>)
    ensures forall id :: id in ids <==> exists n | n in nodes :: n.kind in kinds && n.id == id
    decreases |nodes|
  {
    if nodes == [] then []
    else
      var rest := Select(nodes[..|nodes| - 1], kinds);
      var last := nodes[|nodes| - 1];
      if last.kind in kinds then rest + [last.id] else rest
  }

  lemma {:induction false} SelectDistinct(nodes: seq<Node>, kinds: seq<Kind>)
    requires forall i, j | 0 <= i < j < |nodes| :: nodes[i].id != nodes[j].id
    ensures Objectives.Distinct(Select(nodes, kinds))
    decreases |nodes|
  {
    if nodes != [] {
      var before := nodes[..|nodes| - 1];
      SelectDistinct(before, kinds);
      assert forall n | n in before :: n.id != nodes[|nodes| - 1].id;
      assert nodes[|nodes| - 1].id !in Select(before, kinds);
    }
  }

  function Take<T>(items: seq<T>, n: nat): (r: seq<T>)
    ensures forall x | x in r :: x in items
    ensures |items| <= n ==> r == items
  {
    if |items| <= n then items else items[..n]
  }

  function Lowered(items: seq<string>): (r: seq<string>)
    ensures |r| == |items|
  {
    seq(|items|, i requires 0 <= i < |items| => Paths.Fold(items[i]))
  }

  predicate ArgumentsAccepted(g: Graph, kinds: seq<Kind>, relationships: seq<string>, l: Limits) {
    && ValidGraph(g) && ValidLimits(l)
    && kinds != [] && Objectives.Distinct(kinds) && CriticalAsset !in kinds
    && (forall r | r in relationships :: r != "" && Objectives.StripRight(Objectives.StripLeft(r)) == r)
    && Objectives.Distinct(Lowered(relationships))
  }

  function AllowedRelationships(relationships: seq<string>): set<string> {
    Objectives.Elements(Lowered(relationships))
  }

  /** Start kinds exclude critical assets and identifiers are unique, so no start is a target. */
  lemma StartsAreNotTargets(g: Graph, kinds: seq<Kind>, id: string)
    requires ValidGraph(g) && CriticalAsset !in kinds && id in Select(g.nodes, kinds)
    ensures id !in Select(g.nodes, [CriticalAsset])
  {
    var m :| m in g.nodes && m.kind in kinds && m.id == id;
    forall n | n in g.nodes && n.id == id
      ensures n == m
    {
      UniqueNode(g, m, n);
    }
  }

  lemma UniqueNode(g: Graph, m: Node, n: Node)
    requires ValidGraph(g) && m in g.nodes && n in g.nodes && m.id == n.id
    ensures m == n
  {
    var i :| 0 <= i < |g.nodes| && g.nodes[i] == m;
    var j :| 0 <= j < |g.nodes| && g.nodes[j] == n;
    assert i == j;
  }

  ghost predicate AllComplete(q: Query, starts: seq<string>, depth: nat, s: Search) {
    forall i | 0 <= i < |starts| :: Complete(q, starts[i], depth, s.found, s.ceilings.depth)
  }

  lemma CompleteGrows(q: Query, start: string, depth: nat, s: Search, t: Search)
    requires Complete(q, start, depth, s.found, s.ceilings.depth) && Grown(s, t)
    ensures Complete(q, start, depth, t.found, t.ceilings.depth)
  {
  }

  lemma AllCompleteGrows(q: Query, starts: seq<string>, depth: nat, s: Search, t: Search)
    requires AllComplete(q, starts, depth, s) && Grown(s, t)
    ensures AllComplete(q, starts, depth, t)
  {
    forall i | 0 <= i < |starts|
      ensures Complete(q, starts[i], depth, t.found, t.ceilings.depth)
    {
      CompleteGrows(q, starts[i], depth, s, t);
    }
  }

  lemma NoTargetsNoPaths(q: Query, starts: seq<string>, depth: nat, s: Search)
    requires q.targets == {}
    ensures AllComplete(q, starts, depth, s)
  {
  }

  /** The loop over the selected starts. */
  method SearchAll(q: Query, l: Limits, starts: seq<string>, named: Ceilings) returns (s: Search)
    requires ValidGraph(q.graph) && ValidLimits(l)
    requires forall i | 0 <= i < |starts| :: starts[i] !in q.targets
    requires Objectives.Distinct(starts)
    requires !named.depth && !named.paths && !named.expansions
    ensures SearchSound(q, Objectives.Elements(starts), l, s)
    ensures HonestBudget(q, Objectives.Elements(starts), l, s)
    ensures !s.Cut() && q.targets != {} ==> !ManyOpen(q, Objectives.Elements(starts), l.maxDepth, l.maxExpansions)
    ensures s.ceilings.starts == named.starts && s.ceilings.targets == named.targets
    ensures !s.Cut() ==> AllComplete(q, starts, l.maxDepth, s)
  {
    s := Search([], [], {}, 0, named);
    ghost var log: seq<Opened> := [];
    NothingSearched(q, starts, l, named);
    if q.targets == {} {
      NoTargetsNoPaths(q, starts, l.maxDepth, s);
      return;
    }
    var i := 0;
    var hardStop := false;
    while i < |starts| && !hardStop
      invariant 0 <= i <= |starts|
      invariant s.ceilings.starts == named.starts && s.ceilings.targets == named.targets
      invariant Between(q, starts, i, l, s, hardStop, log)
    {
      s, hardStop, log := SearchNext(q, l, starts, i, s, log);
      i := i + 1;
    }
    StartsSearched(q, starts, i, l, s, hardStop, log);
  }

  lemma StartsSearched(q: Query, starts: seq<string>, i: nat, l: Limits, s: Search, hardStop: bool, log: seq<Opened>)
    requires i <= |starts| && Between(q, starts, i, l, s, hardStop, log) && (i == |starts| || hardStop)
    ensures SearchSound(q, Objectives.Elements(starts), l, s) && HonestBudget(q, Objectives.Elements(starts), l, s)
    ensures !s.Cut() ==> !ManyOpen(q, Objectives.Elements(starts), l.maxDepth, l.maxExpansions)
    ensures !s.Cut() ==> AllComplete(q, starts, l.maxDepth, s)
  {
    if !s.Cut() {
      assert starts[..i] == starts;
      AllStarted(q, starts, l, s, log);
    }
  }

  /** The state between two starts. */
  ghost predicate Between(q: Query, starts: seq<string>, i: nat, l: Limits, s: Search, hardStop: bool,
                          log: seq<Opened>)
    requires i <= |starts|
  {
    var all := Objectives.Elements(starts);
    && SearchSound(q, all, l, s) && HonestBudget(q, all, l, s)
    && (s.ceilings.paths ==> hardStop)
    && (hardStop ==> s.Cut())
    && (!s.Cut() ==> AllComplete(q, starts[..i], l.maxDepth, s))
    && (!hardStop ==> Drained(q, all, l, s, log))
    && Started(starts, i, log)
    && (!s.Cut() ==> Covered(q, all, l.maxDepth, log, |log|))
  }

  /** The search from the next start. */
  method SearchNext(q: Query, l: Limits, starts: seq<string>, i: nat, s: Search, ghost log: seq<Opened>)
    returns (t: Search, hardStop: bool, ghost grown: seq<Opened>)
    requires ValidGraph(q.graph) && i < |starts| && starts[i] !in q.targets && Objectives.Distinct(starts)
    requires Between(q, starts, i, l, s, false, log)
    ensures Between(q, starts, i + 1, l, t, hardStop, grown)
    ensures t.ceilings.starts == s.ceilings.starts && t.ceilings.targets == s.ceilings.targets
  {
    ghost var all := Objectives.Elements(starts);
    assert starts[i] in all;
    NotStartedYet(starts, i, log);
    t, hardStop, grown := SearchFrom(q, l, all, starts[i], s, log);
    NextStarted(starts, i, log, grown);
    OneMoreSearched(q, starts, i, l, s, log, t, hardStop, grown);
  }

  lemma OneMoreSearched(q: Query, starts: seq<string>, i: nat, l: Limits, s: Search, log: seq<Opened>, t: Search,
                        hardStop: bool, grown: seq<Opened>)
    requires i < |starts| && (!s.Cut() ==> AllComplete(q, starts[..i], l.maxDepth, s))
    requires Searched(q, Objectives.Elements(starts), l, starts[i], s, log, t, hardStop, grown)
    requires Started(starts, i + 1, grown)
    ensures Between(q, starts, i + 1, l, t, hardStop, grown)
  {
    if !t.Cut() {
      OneMoreStart(q, starts, i, l.maxDepth, s, t);
    }
  }

  lemma AllStarted(q: Query, starts: seq<string>, l: Limits, s: Search, log: seq<Opened>)
    requires Started(starts, |starts|, log) && Covered(q, Objectives.Elements(starts), l.maxDepth, log, |log|)
    requires |log| <= l.maxExpansions
    ensures !ManyOpen(q, Objectives.Elements(starts), l.maxDepth, l.maxExpansions)
  {
    var all := Objectives.Elements(starts);
    LogBounds(q, all, l.maxDepth, log);
    FewerThan(q, all, l.maxDepth, |log|, l.maxExpansions);
  }

  lemma FewerThan(q: Query, starts: set<string>, depth: nat, n: nat, m: nat)
    requires !ManyOpen(q, starts, depth, n) && n <= m
    ensures !ManyOpen(q, starts, depth, m)
  {
  }

  /** The log covers exactly the starts searched so far. */
  ghost predicate Started(starts: seq<string>, i: nat, log: seq<Opened>)
    requires i <= |starts|
  {
    && (forall o | o in log :: o.start in starts[..i])
    && (forall k | 0 <= k < i :: Opened(starts[k], []) in log)
  }

  lemma NotStartedYet(starts: seq<string>, i: nat, log: seq<Opened>)
    requires i < |starts| && Objectives.Distinct(starts) && Started(starts, i, log)
    ensures forall o | o in log :: o.start != starts[i]
  {
    forall o | o in log
      ensures o.start != starts[i]
    {
      var k :| 0 <= k < i && starts[..i][k] == o.start;
      assert starts[k] != starts[i];
    }
  }

  lemma NextStarted(starts: seq<string>, i: nat, log: seq<Opened>, grown: seq<Opened>)
    requires i < |starts| && OnlyFrom(starts[i], log, grown) && Started(starts, i, log)
    requires Opened(starts[i], []) in grown
    ensures Started(starts, i + 1, grown)
  {
    assert starts[..i + 1] == starts[..i] + [starts[i]];
    assert forall o | o in log :: o in grown;
  }

  lemma NothingSearched(q: Query, starts: seq<string>, l: Limits, named: Ceilings)
    requires ValidLimits(l) && !named.depth && !named.paths && !named.expansions
    ensures Between(q, starts, 0, l, Search([], [], {}, 0, named), false, [])
  {
  }

  lemma OneMoreStart(q: Query, starts: seq<string>, i: nat, depth: nat, s: Search, t: Search)
    requires i < |starts| && AllComplete(q, starts[..i], depth, s) && Grown(s, t)
    ensures Complete(q, starts[i], depth, t.found, t.ceilings.depth) ==> AllComplete(q, starts[..i + 1], depth, t)
  {
    AllCompleteGrows(q, starts[..i], depth, s, t);
    assert starts[..i + 1] == starts[..i] + [starts[i]];
  }

  function QueryOf(g: Graph, relationships: seq<string>, targets: seq<string>): Query {
    Query(g, AllowedRelationships(relationships), Objectives.Elements(targets))
  }

  /** What the report means for the starts and targets it names. */
  ghost predicate ReportExact(g: Graph, relationships: seq<string>, l: Limits, r: Report) {
    var q := QueryOf(g, relationships, r.targets);
    && Sound(q, Objectives.Elements(r.starts), l.maxDepth, r.paths)
    && Honest(q, Objectives.Elements(r.starts), l.maxDepth, r.paths, r.ceilings)
    && (r.ceilings.expansions ==> ManyOpen(q, Objectives.Elements(r.starts), l.maxDepth, l.maxExpansions))
    && (!r.ceilings.paths && !r.ceilings.expansions && r.targets != [] ==>
          !ManyOpen(q, Objectives.Elements(r.starts), l.maxDepth, l.maxExpansions))
    && (!r.ceilings.paths && !r.ceilings.expansions ==>
          forall start | start in r.starts :: Complete(q, start, l.maxDepth, r.paths, r.ceilings.depth))
  }

  method BuildAtlas(g: Graph, kinds: seq<Kind>, relationships: seq<string>, l: Limits) returns (r: Result<Report>)
    ensures r.Ok? <==> ArgumentsAccepted(g, kinds, relationships, l)
    ensures r.Ok? ==>
      && ReportExact(g, relationships, l, r.value)
      && r.value.starts == Take(Select(g.nodes, kinds), l.maxStarts)
      && r.value.targets == Take(Select(g.nodes, [CriticalAsset]), l.maxTargets)
      && (r.value.ceilings.starts <==> |Select(g.nodes, kinds)| > l.maxStarts)
      && (r.value.ceilings.targets <==> |Select(g.nodes, [CriticalAsset])| > l.maxTargets)
      && |r.value.paths| <= l.maxPaths && r.value.expansions <= l.maxExpansions
  {
    if !ArgumentsAccepted(g, kinds, relationships, l) {
      return Rejected;
    }
    var allStarts := Select(g.nodes, kinds);
    var allTargets := Select(g.nodes, [CriticalAsset]);
    var starts := Take(allStarts, l.maxStarts);
    var targets := Take(allTargets, l.maxTargets);
    var named := Ceilings(|allStarts| > l.maxStarts, |allTargets| > l.maxTargets, false, false, false);
    var q := QueryOf(g, relationships, targets);
    forall i | 0 <= i < |starts|
      ensures starts[i] !in q.targets
    {
      assert starts[i] in starts;
      StartsAreNotTargets(g, kinds, starts[i]);
    }
    SelectDistinct(g.nodes, kinds);
    assert targets != [] ==> targets[0] in q.targets;
    var s := SearchAll(q, l, starts, named);
    return Ok(Report(starts, targets, s.found, s.expansions, s.ceilings));
  }

  // -------------------------------------------------------------------------- exactness

  /** An attack path of the whole graph: from a node of a start kind, over the relationships
      asked for, to a critical asset, with no critical asset on the way. */
  ghost predicate GraphAttackPath(g: Graph, kinds: seq<Kind>, relationships: seq<string>, f: Found) {
    && f.start in Select(g.nodes, kinds)
    && AttackPath(QueryOf(g, relationships, Select(g.nodes, [CriticalAsset])), f.start, f.edges)
  }

  /** What `BuildAtlas` guarantees of the report it returns. */
  ghost predicate ReportOf(g: Graph, kinds: seq<Kind>, relationships: seq<string>, l: Limits, r: Report) {
    && ReportExact(g, relationships, l, r)
    && r.starts == Take(Select(g.nodes, kinds), l.maxStarts)
    && r.targets == Take(Select(g.nodes, [CriticalAsset]), l.maxTargets)
    && (r.ceilings.starts <==> |Select(g.nodes, kinds)| > l.maxStarts)
    && (r.ceilings.targets <==> |Select(g.nodes, [CriticalAsset])| > l.maxTargets)
  }

  /** Exactness. A report that names no truncation lists all attack paths of the graph and
      only those; one that names the depth ceiling alone lists exactly those within it. */
  lemma UntruncatedIsExact(g: Graph, kinds: seq<Kind>, relationships: seq<string>, l: Limits, r: Report, f: Found)
    requires ReportOf(g, kinds, relationships, l, r)
    requires !r.ceilings.starts && !r.ceilings.targets && !r.ceilings.paths && !r.ceilings.expansions
    ensures f in r.paths <==> GraphAttackPath(g, kinds, relationships, f) && |f.edges| <= l.maxDepth
    ensures !r.Truncated() ==> (f in r.paths <==> GraphAttackPath(g, kinds, relationships, f))
  {
    var q := QueryOf(g, relationships, r.targets);
    assert Objectives.Elements(r.starts) == Objectives.Elements(Select(g.nodes, kinds));
    if GraphAttackPath(g, kinds, relationships, f) {
      assert Complete(q, f.start, l.maxDepth, r.paths, r.ceilings.depth);
      if |f.edges| > l.maxDepth {
        LongPathIsDeep(q, f.start, l.maxDepth, r.paths, r.ceilings.depth, f.edges);
      }
    }
  }

  /** The depth report is exact too: it is made if and only if some open simple walk from a
      start goes one hop beyond the ceiling. */
  lemma DepthReportIsExact(g: Graph, kinds: seq<Kind>, relationships: seq<string>, l: Limits, r: Report)
    requires ReportOf(g, kinds, relationships, l, r)
    requires !r.ceilings.paths && !r.ceilings.expansions && r.targets != []
    ensures r.ceilings.depth <==> BeyondDepth(QueryOf(g, relationships, r.targets), r.starts, l.maxDepth)
  {
    var q := QueryOf(g, relationships, r.targets);
    assert r.targets[0] in q.targets;
    if BeyondDepth(q, r.starts, l.maxDepth) {
      var start, edges :| start in r.starts && |edges| == l.maxDepth + 1 && Accountable(q, start, l.maxDepth, edges);
      assert Complete(q, start, l.maxDepth, r.paths, r.ceilings.depth);
    }
    if r.ceilings.depth {
      var start, edges :| start in Objectives.Elements(r.starts) && |edges| == l.maxDepth + 1
          && Accountable(q, start, l.maxDepth, edges);
      assert start in r.starts;
    }
  }

  /** So is the expansion report: with targets to look for and no path left out, it is made if and
      only if there are more open walks within the depth ceiling than it allows to expand. */
  lemma ExpansionReportIsExact(g: Graph, kinds: seq<Kind>, relationships: seq<string>, l: Limits, r: Report)
    requires ReportOf(g, kinds, relationships, l, r) && !r.ceilings.paths && r.targets != []
    ensures r.ceilings.expansions <==>
      ManyOpen(QueryOf(g, relationships, r.targets), Objectives.Elements(r.starts), l.maxDepth, l.maxExpansions)
  {
  }

  ghost predicate BeyondDepth(q: Query, starts: seq<string>, depth: nat) {
    exists start, edges :: start in starts && |edges| == depth + 1 && Accountable(q, start, depth, edges)
  }
}
