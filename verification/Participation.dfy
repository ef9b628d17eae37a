/** How often nodes and edges take part in the listed attack paths, and why those counts add
    up to the hops of the paths. */
module Participation {
  import opened Sums
  import opened Atlas
  import Objectives

  type Members = map<string, set<string>>

  /** Interior nodes only: endpoints are excluded. */
  function Interior(f: Found): (r: seq<string>)
    ensures |r| == if f.edges == [] then 0 else |f.edges| - 1
    ensures forall i | 0 <= i < |r| :: r[i] == At(f.start, f.edges, i + 1)
  {
    if f.edges == [] then []
    else seq(|f.edges| - 1, i requires 0 <= i < |f.edges| - 1 => At(f.start, f.edges, i + 1))
  }

  function Subjects(f: Found, byNode: bool): seq<string> {
    if byNode then Interior(f) else Ids(f.edges)
  }

  /** A path identifier is a digest of the edge identifiers. */
  function PathIdOf(pathId: seq<string> -> string, f: Found): string {
    pathId(Ids(f.edges))
  }

  predicate DistinctPathIds(pathId: seq<string> -> string, paths: seq<Found>) {
    forall i, j | 0 <= i < j < |paths| :: PathIdOf(pathId, paths[i]) != PathIdOf(pathId, paths[j])
  }

  /** Membership is exactly participation. */
  ghost predicate CountsPaths(m: Members, pathId: seq<string> -> string, paths: seq<Found>, byNode: bool) {
    && (forall s, id | s in m && id in m[s] ::
          exists f | f in paths :: s in Subjects(f, byNode) && PathIdOf(pathId, f) == id)
    && (forall f, s | f in paths && s in Subjects(f, byNode) :: s in m && PathIdOf(pathId, f) in m[s])
  }

  function CountIn(m: Members): string -> nat {
    s => if s in m then |m[s]| else 0
  }

  /** The sum of all participation counts. */
  ghost function Total(m: Members): nat {
    SumOver(m.Keys, CountIn(m))
  }

  function Join(m: Members, s: string, id: string): Members {
    m[s := (if s in m then m[s] else {}) + {id}]
  }

  lemma JoinAddsOne(m: Members, s: string, id: string)
    requires s in m ==> id !in m[s]
    ensures Total(Join(m, s, id)) == Total(m) + 1
  {
    var n := Join(m, s, id);
    var rest := m.Keys - {s};
    assert n.Keys - {s} == rest;
    SumRemove(n.Keys, CountIn(n), s);
    SumAgrees(rest, CountIn(n), CountIn(m));
    if s in m {
      SumRemove(m.Keys, CountIn(m), s);
      assert |m[s] + {id}| == |m[s]| + 1;
    } else {
      assert m.Keys == rest;
      assert |n[s]| == 1;
    }
  }

  /** The number of subjects of all paths together. */
  function SubjectCount(paths: seq<Found>, byNode: bool): nat
    decreases |paths|
  {
    if paths == [] then 0
    else SubjectCount(paths[..|paths| - 1], byNode) + |Subjects(paths[|paths| - 1], byNode)|
  }

  /** The state of the counting loops: paths before `f` done, and `k` subjects of `f`. */
  ghost predicate Counting(m: Members, pathId: seq<string> -> string, done: seq<Found>, f: Found, k: nat, byNode: bool)
    requires k <= |Subjects(f, byNode)|
  {
    && (forall s, id | s in m && id in m[s] ::
          || (exists g | g in done :: s in Subjects(g, byNode) && PathIdOf(pathId, g) == id)
          || (id == PathIdOf(pathId, f) && s in Subjects(f, byNode)[..k]))
    && (forall g, s | g in done && s in Subjects(g, byNode) :: s in m && PathIdOf(pathId, g) in m[s])
    && (forall s | s in Subjects(f, byNode)[..k] :: s in m && PathIdOf(pathId, f) in m[s])
  }

  lemma CountOneMore(m: Members, pathId: seq<string> -> string, done: seq<Found>, f: Found, k: nat, byNode: bool)
    requires k < |Subjects(f, byNode)| && Objectives.Distinct(Subjects(f, byNode))
    requires Counting(m, pathId, done, f, k, byNode)
    requires forall g | g in done :: PathIdOf(pathId, g) != PathIdOf(pathId, f)
    ensures var s := Subjects(f, byNode)[k]; s in m ==> PathIdOf(pathId, f) !in m[s]
    ensures Counting(Join(m, Subjects(f, byNode)[k], PathIdOf(pathId, f)), pathId, done, f, k + 1, byNode)
  {
    var subjects := Subjects(f, byNode);
    assert subjects[..k + 1] == subjects[..k] + [subjects[k]];
    assert subjects[k] !in subjects[..k];
  }

  lemma CountDone(m: Members, pathId: seq<string> -> string, paths: seq<Found>, i: nat, byNode: bool)
    requires i < |paths|
    requires Counting(m, pathId, paths[..i], paths[i], |Subjects(paths[i], byNode)|, byNode)
    ensures CountsPaths(m, pathId, paths[..i + 1], byNode)
  {
    var subjects := Subjects(paths[i], byNode);
    assert subjects[..|subjects|] == subjects;
    assert paths[..i + 1] == paths[..i] + [paths[i]];
    assert forall g | g in paths[..i] :: g in paths[..i + 1];
    assert paths[i] in paths[..i + 1];
  }

  /** One path's subjects join the table. */
  method CountPath(m: Members, pathId: seq<string> -> string, paths: seq<Found>, i: nat, byNode: bool)
    returns (n: Members)
    requires i < |paths| && Objectives.Distinct(Subjects(paths[i], byNode)) && DistinctPathIds(pathId, paths)
    requires CountsPaths(m, pathId, paths[..i], byNode)
    ensures CountsPaths(n, pathId, paths[..i + 1], byNode)
    ensures Total(n) == Total(m) + |Subjects(paths[i], byNode)|
  {
    n := m;
    var f := paths[i];
    var subjects := Subjects(f, byNode);
    forall g | g in paths[..i]
      ensures PathIdOf(pathId, g) != PathIdOf(pathId, f)
    {
      var j :| 0 <= j < i && paths[..i][j] == g;
      assert paths[j] == g;
    }
    for k := 0 to |subjects|
      invariant Counting(n, pathId, paths[..i], f, k, byNode)
      invariant Total(n) == Total(m) + k
    {
      CountOneMore(n, pathId, paths[..i], f, k, byNode);
      JoinAddsOne(n, subjects[k], PathIdOf(pathId, f));
      n := Join(n, subjects[k], PathIdOf(pathId, f));
    }
    CountDone(n, pathId, paths, i, byNode);
  }

  /** `_participation`: the table is exact, and its counts add up to the subjects of the paths. */
  method CountParticipation(paths: seq<Found>, pathId: seq<string> -> string, byNode: bool) returns (m: Members)
    requires forall f | f in paths :: Objectives.Distinct(Subjects(f, byNode))
    requires DistinctPathIds(pathId, paths)
    ensures CountsPaths(m, pathId, paths, byNode)
    ensures Total(m) == SubjectCount(paths, byNode)
  {
    m := map[];
    for i := 0 to |paths|
      invariant CountsPaths(m, pathId, paths[..i], byNode)
      invariant Total(m) == SubjectCount(paths[..i], byNode)
    {
      assert paths[i] in paths;
      assert paths[..i + 1][..i] == paths[..i];
      m := CountPath(m, pathId, paths, i, byNode);
    }
    assert paths[..|paths|] == paths;
  }

  // ------------------------------------------------------------- for the atlas's own paths

  function TotalHops(paths: seq<Found>): nat
    decreases |paths|
  {
    if paths == [] then 0 else TotalHops(paths[..|paths| - 1]) + |paths[|paths| - 1].edges|
  }

  lemma {:induction false} SubjectsAddUp(paths: seq<Found>)
    requires forall f | f in paths :: f.edges != []
    ensures SubjectCount(paths, false) == TotalHops(paths)
    ensures SubjectCount(paths, true) + |paths| == TotalHops(paths)
    decreases |paths|
  {
    if paths != [] {
      assert paths[|paths| - 1] in paths;
      assert forall f | f in paths[..|paths| - 1] :: f in paths;
      SubjectsAddUp(paths[..|paths| - 1]);
    }
  }

  /** Simple walks repeat neither a node nor, hence, an edge. */
  lemma SimplePathsDoNotRepeat(q: Query, f: Found)
    requires ValidGraph(q.graph) && AttackPath(q, f.start, f.edges)
    ensures Objectives.Distinct(Subjects(f, true)) && Objectives.Distinct(Subjects(f, false))
  {
    forall i, j | 0 <= i < j < |f.edges|
      ensures f.edges[i].id != f.edges[j].id
    {
      assert At(f.start, f.edges, i + 1) != At(f.start, f.edges, j + 1);
      assert f.edges[i] != f.edges[j];
      SameIdSameEdge(q.graph, f.edges[i], f.edges[j]);
    }
  }

  lemma SameIdSameEdge(g: Graph, a: Edge, b: Edge)
    requires ValidGraph(g) && a in g.edges && b in g.edges
    ensures a.id == b.id ==> a == b
  {
    var i :| 0 <= i < |g.edges| && g.edges[i] == a;
    var j :| 0 <= j < |g.edges| && g.edges[j] == b;
    assert i != j ==> g.edges[i].id != g.edges[j].id;
  }

  lemma ListedPathsAreTellable(q: Query, starts: set<string>, depth: nat, paths: seq<Found>,
                               pathId: seq<string> -> string)
    requires ValidGraph(q.graph) && Sound(q, starts, depth, paths)
    requires forall a, b :: pathId(a) == pathId(b) ==> a == b
    ensures DistinctPathIds(pathId, paths)
  {
    forall i, j | 0 <= i < j < |paths|
      ensures PathIdOf(pathId, paths[i]) != PathIdOf(pathId, paths[j])
    {
      assert paths[i] in paths && paths[j] in paths;
      assert forall e | e in paths[i].edges :: e in q.graph.edges;
      assert forall e | e in paths[j].edges :: e in q.graph.edges;
      IdsNameEdges(q.graph, paths[i].edges, paths[j].edges);
    }
  }

  /** Double counting over the paths of an atlas: edge participation adds up to all hops, node
      participation to all hops less one per path. */
  method AtlasParticipation(q: Query, starts: set<string>, depth: nat, paths: seq<Found>, pathId: seq<string> -> string)
    returns (nodes: Members, edges: Members)
    requires ValidGraph(q.graph) && Sound(q, starts, depth, paths)
    requires forall a, b :: pathId(a) == pathId(b) ==> a == b
    ensures CountsPaths(nodes, pathId, paths, true) && CountsPaths(edges, pathId, paths, false)
    ensures Total(edges) == TotalHops(paths)
    ensures Total(nodes) + |paths| == TotalHops(paths)
  {
    ListedPathsAreTellable(q, starts, depth, paths, pathId);
    forall f | f in paths
      ensures Objectives.Distinct(Subjects(f, true)) && Objectives.Distinct(Subjects(f, false)) && f.edges != []
    {
      SimplePathsDoNotRepeat(q, f);
    }
    SubjectsAddUp(paths);
    nodes := CountParticipation(paths, pathId, true);
    edges := CountParticipation(paths, pathId, false);
  }
}
