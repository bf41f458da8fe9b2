/** The directed graph of role memberships and its depth-first order and transitive closure:
    class Graph of backend/app/app/use_case/privilege_graph/privilege_graph_privilege.py,
    over role oids, and its twin class Graph of frontend/src/utils/reachable-nodes.ts, over
    object keys. Both keep an adjacency list per vertex in insertion order. */
module Digraphs {
  import opened Outcomes
  import opened Collections

  // ------------------------------------------------------------------- paths

  /** Every child is itself a vertex. */
  ghost predicate Closed<T>(adj: map<T, seq<T>>) {
    forall u, c :: u in adj && c in adj[u] ==> c in adj
  }

  ghost predicate IsPath<T>(adj: map<T, seq<T>>, p: seq<T>) {
    forall i :: 0 <= i < |p| - 1 ==> p[i] in adj && p[i + 1] in adj[p[i]]
  }

  /** w can be reached from u along one edge or more. */
  ghost predicate Reaches<T(!new)>(adj: map<T, seq<T>>, u: T, w: T) {
    exists p: seq<T> :: |p| >= 2 && p[0] == u && p[|p| - 1] == w && IsPath(adj, p)
  }

  ghost predicate Acyclic<T(!new)>(adj: map<T, seq<T>>) {
    forall v :: v in adj ==> !Reaches(adj, v, v)
  }

  lemma ReachesEdge<T(!new)>(adj: map<T, seq<T>>, u: T, w: T)
    requires u in adj && w in adj[u]
    ensures Reaches(adj, u, w)
  {
    var p := [u, w];
    assert IsPath(adj, p);
  }

  lemma ReachesTrans<T(!new)>(adj: map<T, seq<T>>, u: T, v: T, w: T)
    requires Reaches(adj, u, v) && Reaches(adj, v, w)
    ensures Reaches(adj, u, w)
  {
    var p :| |p| >= 2 && p[0] == u && p[|p| - 1] == v && IsPath(adj, p);
    var q :| |q| >= 2 && q[0] == v && q[|q| - 1] == w && IsPath(adj, q);
    var pq := p + q[1..];
    forall i | 0 <= i < |pq| - 1
      ensures pq[i] in adj && pq[i + 1] in adj[pq[i]]
    {
      if i < |p| - 1 {
        assert pq[i] == p[i] && pq[i + 1] == p[i + 1];
      } else {
        var k := i - |p| + 1;
        assert pq[i] == q[k] && pq[i + 1] == q[k + 1];
      }
    }
    assert IsPath(adj, pq);
  }

  /** A path leaves u through one of its children. */
  lemma ReachesStep<T(!new)>(adj: map<T, seq<T>>, u: T, w: T)
    requires Reaches(adj, u, w)
    ensures u in adj && exists c :: c in adj[u] && (c == w || Reaches(adj, c, w))
  {
    var p :| |p| >= 2 && p[0] == u && p[|p| - 1] == w && IsPath(adj, p);
    var c := p[1];
    assert c in adj[u];
    if |p| > 2 {
      var q := p[1..];
      forall i | 0 <= i < |q| - 1
        ensures q[i] in adj && q[i + 1] in adj[q[i]]
      {
        assert q[i] == p[i + 1] && q[i + 1] == p[i + 2];
      }
      assert IsPath(adj, q);
      assert Reaches(adj, c, w);
    }
  }

  /** The closure of u, as a set: w is in it when a walk leads from u to w. */
  lemma ReachesClosure<T(!new)>(adj: map<T, seq<T>>, u: T, w: T)
    requires u in adj
    ensures Reaches(adj, u, w) <==> exists c :: c in adj[u] && (c == w || Reaches(adj, c, w))
  {
    if Reaches(adj, u, w) {
      ReachesStep(adj, u, w);
    }
    if exists c :: c in adj[u] && (c == w || Reaches(adj, c, w)) {
      var c :| c in adj[u] && (c == w || Reaches(adj, c, w));
      ReachesEdge(adj, u, c);
      if c != w {
        ReachesTrans(adj, u, c, w);
      }
    }
  }

  // ------------------------------------------------------------ orders

  /** From index lo on, each vertex's children were finished before it, unless they lead
      back to it (which only a cycle allows). */
  ghost predicate FinishedFrom<T(!new)>(adj: map<T, seq<T>>, s: seq<T>, lo: nat) {
    forall i, c :: lo <= i < |s| && s[i] in adj && c in adj[s[i]] ==> c in s[..i] || Reaches(adj, c, s[i])
  }

  /** The depth-first post-order the topological sort promises. */
  ghost predicate PostOrder<T(!new)>(adj: map<T, seq<T>>, s: seq<T>) {
    FinishedFrom(adj, s, 0)
  }

  lemma FinishedExtend<T(!new)>(adj: map<T, seq<T>>, s: seq<T>, t: seq<T>, lo: nat)
    requires FinishedFrom(adj, s, lo) && |s| <= |t| && t[..|s|] == s && FinishedFrom(adj, t, |s|)
    ensures FinishedFrom(adj, t, lo)
  {
    forall i, c | lo <= i < |t| && t[i] in adj && c in adj[t[i]]
      ensures c in t[..i] || Reaches(adj, c, t[i])
    {
      if i < |s| {
        assert t[i] == s[i] && t[..i] == s[..i];
      }
    }
  }

  /** Without cycles, the post-order lists every child before its parent. */
  lemma AcyclicChildrenFirst<T(!new)>(adj: map<T, seq<T>>, s: seq<T>)
    requires Acyclic(adj) && PostOrder(adj, s)
    ensures forall i, c :: 0 <= i < |s| && s[i] in adj && c in adj[s[i]] ==> c in s[..i]
  {
    forall i, c | 0 <= i < |s| && s[i] in adj && c in adj[s[i]]
      ensures c in s[..i]
    {
      if Reaches(adj, c, s[i]) {
        ReachesEdge(adj, s[i], c);
        ReachesTrans(adj, s[i], c, s[i]);
      }
    }
  }

  /** Without cycles, the post-order lists everything a vertex reaches before the vertex. */
  lemma {:induction false} AcyclicReachableFirst<T(!new)>(adj: map<T, seq<T>>, s: seq<T>, i: nat, w: T)
    requires Acyclic(adj) && PostOrder(adj, s)
    requires i < |s| && Reaches(adj, s[i], w)
    ensures w in s[..i]
    decreases i
  {
    ReachesStep(adj, s[i], w);
    var c :| c in adj[s[i]] && (c == w || Reaches(adj, c, w));
    AcyclicChildrenFirst(adj, s);
    assert c in s[..i];
    if c != w {
      var j :| 0 <= j < i && s[..i][j] == c;
      assert s[j] == c;
      AcyclicReachableFirst(adj, s, j, w);
      var k :| 0 <= k < j && s[..j][k] == w;
      assert s[..i][k] == w;
    }
  }

  /** An appended edge keeps every child a vertex. */
  lemma ClosedAppend<T>(adj: map<T, seq<T>>, u: T, v: T)
    requires Closed(adj) && u in adj && v in adj
    ensures Closed(adj[u := adj[u] + [v]])
  {
  }

  lemma ToSetSplit<T>(s: seq<T>, k: nat)
    requires k <= |s|
    ensures ToSet(s) == ToSet(s[..k]) + ToSet(s[k..])
  {
    assert s == s[..k] + s[k..];
    ToSetAppend(s[..k], s[k..]);
  }

  /** Before visiting child n of v, every gray vertex leads to n. */
  lemma GrayReachesChild<T(!new)>(adj: map<T, seq<T>>, visited: set<T>, stack: seq<T>, v: T, n: T,
                                  vis: set<T>, st: seq<T>)
    requires v in adj && n in adj[v]
    requires forall g :: g in visited && g !in stack ==> Reaches(adj, g, v)
    requires |stack| <= |st| && st[..|stack|] == stack
    requires vis - (visited + {v}) == ToSet(st[|stack|..])
    ensures forall g :: g in vis && g !in st ==> Reaches(adj, g, n)
  {
    ToSetSplit(st, |stack|);
    forall g | g in vis && g !in st
      ensures Reaches(adj, g, n)
    {
      ReachesEdge(adj, v, n);
      if g != v {
        assert g !in ToSet(st);
        ReachesTrans(adj, g, v, n);
      }
    }
  }

  /** After visiting a child: what was marked is what was appended. */
  lemma AfterChild<T>(stack: seq<T>, before: seq<T>, after: seq<T>, marked: set<T>,
                      vis: set<T>, vis': set<T>)
    requires |stack| <= |before| <= |after| && before[..|stack|] == stack && after[..|before|] == before
    requires marked <= vis <= vis'
    requires vis - marked == ToSet(before[|stack|..])
    requires vis' - vis == ToSet(after[|before|..])
    ensures after[..|stack|] == stack
    ensures vis' - marked == ToSet(after[|stack|..])
  {
    var mid := after[|stack|..];
    assert mid == before[|stack|..] + after[|before|..];
    ToSetAppend(before[|stack|..], after[|before|..]);
  }

  /** Appending v once its children are all marked. */
  lemma FinishVertex<T(!new)>(adj: map<T, seq<T>>, visited: set<T>, stack: seq<T>, v: T,
                              vis: set<T>, before: seq<T>)
    requires v in adj && v !in visited && ToSet(stack) <= visited
    requires forall g :: g in visited && g !in stack ==> Reaches(adj, g, v)
    requires |stack| <= |before| && before[..|stack|] == stack && NoDup(before)
    requires vis - (visited + {v}) == ToSet(before[|stack|..])
    requires forall c :: c in adj[v] ==> c in vis
    requires v in vis
    requires FinishedFrom(adj, before, |stack|)
    ensures NoDup(before + [v])
    ensures vis - visited == ToSet((before + [v])[|stack|..])
    ensures FinishedFrom(adj, before + [v], |stack|)
  {
    var after := before + [v];
    ToSetSplit(before, |stack|);
    assert v !in ToSet(before);
    assert after[|stack|..] == before[|stack|..] + [v];
    ToSetAppend(before[|stack|..], [v]);
    assert ToSet([v]) == {v};
    forall c | c in adj[v]
      ensures c in after[..|before|] || Reaches(adj, c, v)
    {
      assert after[..|before|] == before;
      if c !in before {
        if c == v {
          ReachesEdge(adj, v, v);
        } else {
          assert c !in ToSet(before);
          assert c in visited;
        }
      }
    }
    forall i, c | |stack| <= i < |after| && after[i] in adj && c in adj[after[i]]
      ensures c in after[..i] || Reaches(adj, c, after[i])
    {
      if i < |before| {
        assert after[i] == before[i] && after[..i] == before[..i];
      }
    }
  }

  /** Recording the closure of one more vertex keeps the closures table sound and, when
      the new entry is complete, complete. */
  lemma ExtendDeps<T(!new)>(adj: map<T, seq<T>>, deps: map<T, seq<T>>, v: T, cur: seq<T>, complete: bool,
                            next: map<T, seq<T>>)
    requires next == deps[v := cur]
    requires forall u :: u in deps ==> NoDup(deps[u])
    requires forall u, w :: u in deps && w in deps[u] ==> Reaches(adj, u, w)
    requires complete ==> forall u, w :: u in deps && Reaches(adj, u, w) ==> w in deps[u]
    requires NoDup(cur) && forall w :: w in cur ==> Reaches(adj, v, w)
    requires complete ==> forall w :: Reaches(adj, v, w) ==> w in cur
    ensures forall u :: u in next ==> NoDup(next[u])
    ensures forall u, w :: u in next && w in next[u] ==> Reaches(adj, u, w)
    ensures complete ==> forall u, w :: u in next && Reaches(adj, u, w) ==> w in next[u]
  {
  }

  /** In a post-order of an acyclic graph, the children of the i-th vertex come before it. */
  lemma ChildrenDone<T(!new)>(adj: map<T, seq<T>>, order: seq<T>, i: nat, deps: map<T, seq<T>>)
    requires i < |order| && order[i] in adj && deps.Keys == ToSet(order[..i])
    requires forall j, c :: 0 <= j < |order| && order[j] in adj && c in adj[order[j]] ==> c in order[..j]
    ensures forall c :: c in adj[order[i]] ==> c in deps
  {
    forall c | c in adj[order[i]]
      ensures c in deps
    {
      assert c in order[..i];
      assert c in ToSet(order[..i]);
    }
  }

  /** One more vertex of the order is done. */
  lemma DoneStep<T(!new)>(order: seq<T>, i: nat, deps: map<T, seq<T>>, cur: seq<T>)
    requires i < |order| && deps.Keys == ToSet(order[..i])
    ensures deps[order[i] := cur].Keys == ToSet(order[..i + 1])
  {
    assert order[..i + 1] == order[..i] + [order[i]];
    ToSetAppend(order[..i], [order[i]]);
    assert ToSet([order[i]]) == {order[i]};
  }

  /** What the closure of v built so far holds once the children in done were handled:
      each of them, and the closure of each of them other than v. */
  ghost predicate Covers<T>(v: T, deps: map<T, seq<T>>, done: seq<T>, cur: seq<T>) {
    (forall c :: c in done ==> c in cur) &&
    (forall c :: c in done && c != v ==> c in deps) &&
    (forall c, w :: c in done && c != v && c in deps && w in deps[c] ==> w in cur)
  }

  lemma CoversStep<T>(v: T, deps: map<T, seq<T>>, done: seq<T>, n: T, cur: seq<T>, cur': seq<T>)
    requires Covers(v, deps, done, cur)
    requires ToSet(cur) <= ToSet(cur') && n in cur'
    requires n != v ==> n in deps && ToSet(deps[n]) <= ToSet(cur')
    ensures Covers(v, deps, done + [n], cur')
  {
    forall w | w in cur
      ensures w in cur'
    {
      assert w in ToSet(cur);
    }
    if n != v {
      forall w | w in deps[n]
        ensures w in cur'
      {
        assert w in ToSet(deps[n]);
      }
    }
  }

  /** Without cycles, a vertex's list is complete once it holds every child and every
      child's complete list. */
  lemma ClosureComplete<T(!new)>(adj: map<T, seq<T>>, v: T, deps: map<T, seq<T>>, cur: seq<T>)
    requires Acyclic(adj) && v in adj
    requires forall c :: c in adj[v] ==> c in deps && c in cur
    requires forall c, w :: c in adj[v] && c != v && w in deps[c] ==> w in cur
    requires forall u, w :: u in deps && Reaches(adj, u, w) ==> w in deps[u]
    ensures forall w :: Reaches(adj, v, w) ==> w in cur
  {
    forall w | Reaches(adj, v, w)
      ensures w in cur
    {
      ReachesStep(adj, v, w);
      var c :| c in adj[v] && (c == w || Reaches(adj, c, w));
      if c == v {
        ReachesEdge(adj, v, v);
        assert false;
      }
    }
  }

  /** What all_reachable_nodes promises: one duplicate-free list per vertex, holding only
      vertices reachable from it, and, on a graph without cycles, all of them. */
  ghost predicate ReachTable<T(!new)>(adj: map<T, seq<T>>, deps: map<T, seq<T>>) {
    && deps.Keys == adj.Keys
    && (forall v :: v in deps ==> NoDup(deps[v]))
    && (forall v, w :: v in deps && w in deps[v] ==> Reaches(adj, v, w))
    && (Acyclic(adj) ==> forall v, w :: v in deps && Reaches(adj, v, w) ==> w in deps[v])
  }

  // ------------------------------------------------------- building a graph

  /** The lists after add_edge(u, v): both ends are vertices, v is appended to u's list
      (again, if the edge is already there) and every other list is kept. */
  function WithEdge<T>(adj: map<T, seq<T>>, u: T, v: T): (r: map<T, seq<T>>)
    ensures r.Keys == adj.Keys + {u, v}
    ensures r[u] == (if u in adj then adj[u] else []) + [v]
    ensures forall w :: w in r && w != u ==> r[w] == (if w in adj then adj[w] else [])
  {
    var a := if u in adj then adj else adj[u := []];
    var b := if v in a then a else a[v := []];
    b[u := b[u] + [v]]
  }

  /** The graph add_edge builds from a list of edges, one call per edge. */
  function EdgeListGraph<T>(edges: seq<(T, T)>): (r: map<T, seq<T>>)
  {
    if edges == [] then map[]
    else
      var n := |edges| - 1;
      WithEdge(EdgeListGraph(edges[..n]), edges[n].0, edges[n].1)
  }

  /** The heads of the edges leaving u, in list order, repeated edges included. */
  function Targets<T(==)>(edges: seq<(T, T)>, u: T): seq<T> {
    if edges == [] then []
    else
      var n := |edges| - 1;
      Targets(edges[..n], u) + (if edges[n].0 == u then [edges[n].1] else [])
  }

  /** w is an end of one of the edges. */
  ghost predicate Endpoint<T>(edges: seq<(T, T)>, w: T) {
    exists i :: 0 <= i < |edges| && (edges[i].0 == w || edges[i].1 == w)
  }

  lemma EndpointSnoc<T>(edges: seq<(T, T)>, w: T)
    requires edges != []
    ensures Endpoint(edges, w) <==>
      Endpoint(edges[..|edges| - 1], w) || w == edges[|edges| - 1].0 || w == edges[|edges| - 1].1
  {
    var n := |edges| - 1;
    var pre := edges[..n];
    if Endpoint(edges, w) {
      var i :| 0 <= i < |edges| && (edges[i].0 == w || edges[i].1 == w);
      if i < n {
        assert pre[i] == edges[i];
      }
    }
    if Endpoint(pre, w) {
      var i :| 0 <= i < |pre| && (pre[i].0 == w || pre[i].1 == w);
      assert edges[i] == pre[i];
    }
  }

  /** The vertices are exactly the ends of the edges. */
  lemma {:induction false} EdgeListVertices<T>(edges: seq<(T, T)>)
    ensures forall w :: w in EdgeListGraph(edges) <==> Endpoint(edges, w)
  {
    if edges != [] {
      EdgeListVertices(edges[..|edges| - 1]);
      forall w
        ensures w in EdgeListGraph(edges) <==> Endpoint(edges, w)
      {
        EndpointSnoc(edges, w);
      }
    }
  }

  /** Each list holds the edges leaving its vertex, in order, repeated edges included. */
  lemma {:induction false} EdgeListTargets<T>(edges: seq<(T, T)>)
    ensures forall w :: w in EdgeListGraph(edges) ==> EdgeListGraph(edges)[w] == Targets(edges, w)
  {
    if edges != [] {
      var pre := edges[..|edges| - 1];
      EdgeListTargets(pre);
      EdgeListVertices(pre);
      forall w | w !in EdgeListGraph(pre)
        ensures Targets(pre, w) == []
      {
        NoEdgesNoTargets(pre, w);
      }
    }
  }

  /** The head of every edge is among the targets of its tail. */
  lemma {:induction false} TargetsHaveEdge<T>(edges: seq<(T, T)>, i: nat)
    requires i < |edges|
    ensures edges[i].1 in Targets(edges, edges[i].0)
  {
    var n := |edges| - 1;
    if i < n {
      assert edges[..n][i] == edges[i];
      TargetsHaveEdge(edges[..n], i);
    }
  }

  lemma {:induction false} NoEdgesNoTargets<T>(edges: seq<(T, T)>, w: T)
    requires !Endpoint(edges, w)
    ensures Targets(edges, w) == []
  {
    if edges != [] {
      EndpointSnoc(edges, w);
      NoEdgesNoTargets(edges[..|edges| - 1], w);
    }
  }

  // ------------------------------------------------------------- the class

  class Graph<T(==, !new)> {
    /** The adjacency lists (`_graph`, `adjacencyList`). */
    var adj: map<T, seq<T>>
    /** The order in which vertices were added: the dictionary's key order. */
    var vertices: seq<T>

    ghost predicate Valid()
      reads this
    {
      NoDup(vertices) && ToSet(vertices) == adj.Keys && Closed(adj)
    }

    constructor ()
      ensures Valid() && adj == map[] && vertices == []
    {
      adj := map[];
      vertices := [];
    }

    /** add_vertex / addVertex: a new vertex gets an empty list; a known one is left alone. */
    method AddVertex(v: T)
      requires Valid()
      modifies this
      ensures Valid()
      ensures v in old(adj) ==> adj == old(adj) && vertices == old(vertices)
      ensures v !in old(adj) ==> adj == old(adj)[v := []] && vertices == old(vertices) + [v]
    {
      if v !in adj {
        ToSetAppend(vertices, [v]);
        assert ToSet([v]) == {v};
        adj := adj[v := []];
        vertices := vertices + [v];
      }
    }

    /** add_edge / addEdge: both ends become vertices and v goes last in u's list. */
    method AddEdge(u: T, v: T)
      requires Valid()
      modifies this
      ensures Valid()
      ensures adj == WithEdge(old(adj), u, v)
      ensures vertices == old(vertices) + (if u in old(adj) then [] else [u])
                                        + (if v in old(adj) || v == u then [] else [v])
    {
      AddVertex(u);
      AddVertex(v);
      ClosedAppend(adj, u, v);
      adj := adj[u := adj[u] + [v]];
    }

    /** childs_list / childsList: the adjacency lists themselves, one per vertex, every
        listed child being a vertex too. */
    function ChildsList(): (r: map<T, seq<T>>)
      requires Valid()
      reads this
      ensures r.Keys == ToSet(vertices)
      ensures forall u, c :: u in r && c in r[u] ==> c in r
    {
      adj
    }

    /** topological_sort_util / dfsTopSortHelper: marks v, visits its unvisited children in
        list order, then appends v. The vertices marked but not yet appended (the gray ones,
        on the recursion stack) all lead to v. */
    method DfsVisit(v: T, visited: set<T>, stack: seq<T>) returns (visited': set<T>, stack': seq<T>)
      requires Valid()
      requires v in adj && v !in visited && visited <= adj.Keys
      requires ToSet(stack) <= visited && NoDup(stack)
      requires forall g :: g in visited && g !in stack ==> Reaches(adj, g, v)
      ensures visited + {v} <= visited' <= adj.Keys
      ensures |stack| < |stack'| && stack'[..|stack|] == stack && stack'[|stack'| - 1] == v
      ensures NoDup(stack')
      ensures visited' - visited == ToSet(stack'[|stack|..])
      ensures FinishedFrom(adj, stack', |stack|)
      decreases adj.Keys - visited
    {
      visited' := visited + {v};
      stack' := stack;
      var children := adj[v];
      for j := 0 to |children|
        invariant visited + {v} <= visited' <= adj.Keys
        invariant |stack| <= |stack'| && stack'[..|stack|] == stack && NoDup(stack')
        invariant visited' - (visited + {v}) == ToSet(stack'[|stack|..])
        invariant FinishedFrom(adj, stack', |stack|)
        invariant forall k :: 0 <= k < j ==> children[k] in visited'
      {
        var n := children[j];
        if n !in visited' {
          GrayReachesChild(adj, visited, stack, v, n, visited', stack');
          ToSetSplit(stack', |stack|);
          ghost var before := stack';
          ghost var marked := visited';
          visited', stack' := DfsVisit(n, visited', stack');
          FinishedExtend(adj, before, stack', |stack|);
          AfterChild(stack, before, stack', visited + {v}, marked, visited');
        }
      }
      FinishVertex(adj, visited, stack, v, visited', stack');
      stack' := stack' + [v];
    }

    /** topological_sort / dfsTopSort: a depth-first search from every vertex in insertion
        order, giving every vertex once, in post-order. */
    method TopologicalSort() returns (order: seq<T>)
      requires Valid()
      ensures NoDup(order) && ToSet(order) == adj.Keys
      ensures PostOrder(adj, order)
      ensures Acyclic(adj) ==> forall i, w :: 0 <= i < |order| && Reaches(adj, order[i], w) ==> w in order[..i]
    {
      var visited: set<T> := {};
      order := [];
      for i := 0 to |vertices|
        invariant visited == ToSet(order) && visited <= adj.Keys && NoDup(order)
        invariant forall k :: 0 <= k < i ==> vertices[k] in visited
        invariant PostOrder(adj, order)
      {
        var v := vertices[i];
        if v !in visited {
          assert v in ToSet(vertices);
          ghost var before := order;
          visited, order := DfsVisit(v, visited, order);
          FinishedExtend(adj, before, order, 0);
          assert order == before + order[|before|..];
          ToSetAppend(before, order[|before|..]);
        }
      }
      assert forall x :: x in adj.Keys ==> x in ToSet(vertices);
      if Acyclic(adj) {
        forall i, w | 0 <= i < |order| && Reaches(adj, order[i], w)
          ensures w in order[..i]
        {
          AcyclicReachableFirst(adj, order, i, w);
        }
      }
    }

    /** The body of all_reachable_nodes / allReachableNodes for one vertex v: v's children in
        list order, each followed by its own closure looked up in deps (a child equal to v adds
        nothing more, since a set updated with itself does not change). A child missing from
        deps raises KeyError. */
    method ClosureOf(v: T, deps: map<T, seq<T>>) returns (r: Result<seq<T>>)
      requires Valid() && v in adj
      requires forall u, w :: u in deps && w in deps[u] ==> Reaches(adj, u, w)
      ensures r.Err? <==> exists c :: c in adj[v] && c != v && c !in deps
      ensures r.Err? ==> r.error == KeyError
      ensures r.Ok? ==> NoDup(r.value)
      ensures r.Ok? ==> forall w :: w in r.value ==> Reaches(adj, v, w)
      ensures r.Ok? ==> forall c :: c in adj[v] ==> c in r.value
      ensures r.Ok? ==> forall c, w :: c in adj[v] && c != v && c in deps && w in deps[c] ==> w in r.value
    {
      var children := adj[v];
      var cur: seq<T> := [];
      for j := 0 to |children|
        invariant NoDup(cur)
        invariant forall w :: w in cur ==> Reaches(adj, v, w)
        invariant Covers(v, deps, children[..j], cur)
      {
        var n := children[j];
        assert children[..j + 1] == children[..j] + [n];
        ghost var old_cur := cur;
        ReachesEdge(adj, v, n);
        cur := AddOnce(cur, n);
        assert forall w :: w in cur ==> w in ToSet(old_cur) + {n};
        if n != v {
          if n !in deps {
            return Err(KeyError);
          }
          forall w | w in deps[n]
            ensures Reaches(adj, v, w)
          {
            ReachesTrans(adj, v, n, w);
          }
          ghost var mid := cur;
          cur := AddAll(cur, deps[n]);
          assert forall w :: w in cur ==> w in ToSet(mid) + ToSet(deps[n]);
        }
        assert n in ToSet(cur);
        CoversStep(v, deps, children[..j], n, old_cur, cur);
      }
      assert children[..|children|] == children;
      r := Ok(cur);
    }

    /** all_reachable_nodes / allReachableNodes: walks the post-order, giving each vertex its
        children and their already computed closures. A child not yet computed (only a cycle
        makes that happen) raises KeyError. */
    method AllReachableNodes() returns (r: Result<map<T, seq<T>>>)
      requires Valid()
      ensures r.Err? ==> r.error == KeyError
      ensures r.Ok? ==> r.value.Keys == adj.Keys
      ensures r.Ok? ==> forall v :: v in r.value ==> NoDup(r.value[v])
      ensures r.Ok? ==> forall v, w :: v in r.value && w in r.value[v] ==> Reaches(adj, v, w)
      ensures Acyclic(adj) ==> r.Ok?
      ensures Acyclic(adj) && r.Ok? ==> forall v, w :: v in r.value && Reaches(adj, v, w) ==> w in r.value[v]
    {
      var order := TopologicalSort();
      ghost var childrenFirst := Acyclic(adj);
      if childrenFirst {
        AcyclicChildrenFirst(adj, order);
      }
      var deps: map<T, seq<T>> := map[];
      for i := 0 to |order|
        invariant deps.Keys == ToSet(order[..i])
        invariant forall u :: u in deps ==> NoDup(deps[u])
        invariant forall u, w :: u in deps && w in deps[u] ==> Reaches(adj, u, w)
        invariant childrenFirst ==> forall u, w :: u in deps && Reaches(adj, u, w) ==> w in deps[u]
      {
        var v := order[i];
        assert v in ToSet(order);
        var cur := ClosureOf(v, deps);
        if cur.Err? {
          assert !childrenFirst;
          return cur.PropagateFailure();
        }
        if childrenFirst {
          ChildrenDone(adj, order, i, deps);
          ClosureComplete(adj, v, deps, cur.value);
        }
        ExtendDeps(adj, deps, v, cur.value, childrenFirst, deps[v := cur.value]);
        DoneStep(order, i, deps, cur.value);
        deps := deps[v := cur.value];
      }
      assert order[..|order|] == order;
      r := Ok(deps);
    }
  }
}
