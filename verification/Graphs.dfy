/** Dependency graphs by index: cycles, topological orders, and the worklist that decides between them. */
module Graphs {
  import opened Basics

  /** `g[i]` lists the nodes that node `i` depends on, repetitions and self-dependencies included. */
  type Graph = seq<seq<nat>>

  predicate WellFormed(g: Graph) {
    forall i, t :: 0 <= i < |g| && 0 <= t < |g[i]| ==> g[i][t] < |g|
  }

  predicate Step(g: Graph, path: seq<nat>, k: nat) {
    k + 1 < |path| && path[k] < |g| && path[k + 1] in g[path[k]]
  }

  /** Each node of the walk depends on the next one. */
  predicate Walk(g: Graph, path: seq<nat>) {
    && (forall k :: 0 <= k < |path| ==> path[k] < |g|)
    && (forall k :: 0 <= k < |path| - 1 ==> Step(g, path, k))
  }

  predicate IsCycle(g: Graph, path: seq<nat>) {
    |path| >= 2 && Walk(g, path) && path[0] == path[|path| - 1]
  }

  ghost predicate Acyclic(g: Graph) {
    forall path: seq<nat> :: !IsCycle(g, path)
  }

  /** No node occurs twice and each node comes after everything it depends on. */
  ghost predicate Topological(g: Graph, order: seq<nat>) {
    && (forall k :: 0 <= k < |order| ==> order[k] < |g|)
    && (forall j, k :: 0 <= j < k < |order| ==> order[j] != order[k])
    && (forall k, d :: 0 <= k < |order| && d in g[order[k]] ==> d in order[..k])
  }

  ghost predicate Covers(g: Graph, order: seq<nat>) {
    forall v: nat :: v < |g| ==> v in order
  }

  // ---- A set in which every node depends on a member contains a cycle ----

  ghost predicate Waits(g: Graph, s: set<nat>, v: nat) {
    v < |g| && exists d :: d in g[v] && d in s
  }

  ghost predicate Stuck(g: Graph, s: set<nat>) {
    forall v {:trigger Waits(g, s, v)} :: v in s ==> Waits(g, s, v)
  }

  lemma {:induction false} LongWalk(g: Graph, s: set<nat>, v: nat, length: nat) returns (path: seq<nat>)
    requires Stuck(g, s) && v in s && length >= 1
    ensures |path| == length && Walk(g, path) && path[0] == v && forall x :: x in path ==> x in s
    decreases length
  {
    assert Waits(g, s, v);
    if length == 1 {
      return [v];
    }
    var d :| d in g[v] && d in s;
    var rest := LongWalk(g, s, d, length - 1);
    path := [v] + rest;
    forall k | 0 <= k < |path| - 1
      ensures Step(g, path, k)
    {
      assert k > 0 ==> Step(g, rest, k - 1);
    }
  }

  /** A sequence longer than its range of values repeats one of them. */
  lemma {:induction false} Pigeonhole(path: seq<nat>, n: nat) returns (i: nat, j: nat)
    requires |path| > n && forall k :: 0 <= k < |path| ==> path[k] < n
    ensures i < j < |path| && path[i] == path[j]
    decreases n
  {
    var last := |path| - 1;
    assert path[last] < n;
    if k :| 0 <= k < last && path[k] == path[last] {
      return k, last;
    }
    if k :| 0 <= k < last && path[k] == n - 1 {
      // Rename the top value to the unused one; positions of repeats stay.
      var renamed := seq(last, t requires 0 <= t < last => if path[t] == n - 1 then path[last] else path[t]);
      i, j := Pigeonhole(renamed, n - 1);
    } else {
      i, j := Pigeonhole(path[..last], n - 1);
    }
  }

  lemma StuckHasCycle(g: Graph, s: set<nat>)
    requires Stuck(g, s) && s != {}
    ensures !Acyclic(g)
  {
    var v :| v in s;
    var path := LongWalk(g, s, v, |g| + 1);
    var i, j := Pigeonhole(path, |g|);
    var cycle := path[i..j + 1];
    forall k | 0 <= k < |cycle| - 1
      ensures Step(g, cycle, k)
    {
      assert Step(g, path, i + k);
    }
    assert IsCycle(g, cycle);
  }

  // ---- A topological order of all nodes excludes cycles ----

  lemma {:induction false} WalkDescends(g: Graph, order: seq<nat>, path: seq<nat>, k: nat) returns (p: nat, q: nat)
    requires Topological(g, order) && Walk(g, path) && 1 <= k < |path|
    requires Covers(g, order)
    ensures q < p < |order| && order[p] == path[0] && order[q] == path[k]
    decreases k
  {
    assert Step(g, path, k - 1);
    var m: nat;
    if k == 1 {
      assert path[0] in order;
      p :| 0 <= p < |order| && order[p] == path[0];
      m := p;
    } else {
      p, m := WalkDescends(g, order, path, k - 1);
    }
    assert path[k] in g[order[m]] && path[k] in order[..m];
    q :| 0 <= q < m && order[..m][q] == path[k];
  }

  lemma TopologicalIsAcyclic(g: Graph, order: seq<nat>)
    requires Topological(g, order) && Covers(g, order)
    ensures Acyclic(g)
  {
    forall path
      ensures !IsCycle(g, path)
    {
      if IsCycle(g, path) {
        var p, q := WalkDescends(g, order, path, |path| - 1);
        assert false;
      }
    }
  }

  // ---- Counting unfinished dependencies ----

  function Open(s: seq<nat>, done: set<nat>): (r: nat) {
    if s == [] then 0
    else Open(s[..|s| - 1], done) + if s[|s| - 1] in done then 0 else 1
  }

  lemma {:induction false} OpenFinish(s: seq<nat>, done: set<nat>, u: nat)
    requires u !in done
    ensures Open(s, done) == Open(s, done + {u}) + multiset(s)[u]
  {
    if s != [] {
      OpenFinish(s[..|s| - 1], done, u);
      assert s == s[..|s| - 1] + [s[|s| - 1]];
    }
  }

  lemma {:induction false} OpenNone(s: seq<nat>, done: set<nat>)
    ensures Open(s, done) == 0 <==> forall d :: d in s ==> d in done
  {
    if s != [] {
      OpenNone(s[..|s| - 1], done);
      assert s == s[..|s| - 1] + [s[|s| - 1]];
    }
  }

  lemma {:induction false} OpenAll(s: seq<nat>)
    ensures Open(s, {}) == |s|
  {
    if s != [] {
      OpenAll(s[..|s| - 1]);
    }
  }

  // ---- Kahn's algorithm ----

  /** The part of node `v`'s dependencies read so far when the build loop stands at entry `t` of node `i`. */
  function ReadSoFar(g: Graph, i: nat, t: nat, v: nat): (r: seq<nat>)
    requires v < |g| && i <= |g| && (i < |g| ==> t <= |g[i]|)
  {
    if v < i then g[v] else if v == i then g[v][..t] else []
  }

  ghost predicate Reversed(g: Graph, adj: seq<seq<nat>>) {
    && |adj| == |g|
    && (forall u, k :: 0 <= u < |g| && 0 <= k < |adj[u]| ==> adj[u][k] < |g|)
    && (forall u, v :: 0 <= u < |g| && 0 <= v < |g| ==> multiset(adj[u])[v] == multiset(g[v])[u])
  }

  ghost predicate CountsBuilt(g: Graph, i: nat, t: nat, indeg: seq<nat>) {
    && i <= |g| == |indeg| && (i < |g| ==> t <= |g[i]|)
    && forall v :: 0 <= v < |g| ==> indeg[v] == |ReadSoFar(g, i, t, v)|
  }

  ghost predicate EdgesBuilt(g: Graph, i: nat, t: nat, adj: seq<seq<nat>>) {
    && i <= |g| == |adj| && (i < |g| ==> t <= |g[i]|)
    && forall u, v :: 0 <= u < |g| && 0 <= v < |g| ==> multiset(adj[u])[v] == multiset(ReadSoFar(g, i, t, v))[u]
  }

  ghost predicate InRange(adj: seq<seq<nat>>, n: nat) {
    forall u, k :: 0 <= u < |adj| && 0 <= k < |adj[u]| ==> adj[u][k] < n
  }

  ghost predicate Built(g: Graph, i: nat, t: nat, indeg: seq<nat>, adj: seq<seq<nat>>) {
    CountsBuilt(g, i, t, indeg) && EdgesBuilt(g, i, t, adj) && InRange(adj, |g|)
  }

  lemma BuildCount(g: Graph, i: nat, t: nat, indeg: seq<nat>)
    requires CountsBuilt(g, i, t, indeg) && i < |g| && t < |g[i]|
    ensures CountsBuilt(g, i, t + 1, indeg[i := indeg[i] + 1])
  {
    var indeg' := indeg[i := indeg[i] + 1];
    forall v | 0 <= v < |g|
      ensures indeg'[v] == |ReadSoFar(g, i, t + 1, v)|
    {
      assert indeg[v] == |ReadSoFar(g, i, t, v)|;
    }
  }

  lemma BuildEdge(g: Graph, i: nat, t: nat, adj: seq<seq<nat>>)
    requires WellFormed(g) && EdgesBuilt(g, i, t, adj) && i < |g| && t < |g[i]|
    ensures EdgesBuilt(g, i, t + 1, adj[g[i][t] := adj[g[i][t]] + [i]])
  {
    var j := g[i][t];
    var adj' := adj[j := adj[j] + [i]];
    assert g[i][..t + 1] == g[i][..t] + [j];
    forall u, v | 0 <= u < |g| && 0 <= v < |g|
      ensures multiset(adj'[u])[v] == multiset(ReadSoFar(g, i, t + 1, v))[u]
    {
      assert multiset(adj[u])[v] == multiset(ReadSoFar(g, i, t, v))[u];
    }
  }

  lemma BuildStep(g: Graph, i: nat, t: nat, indeg: seq<nat>, adj: seq<seq<nat>>)
    requires WellFormed(g) && Built(g, i, t, indeg, adj) && i < |g| && t < |g[i]|
    ensures |indeg| == |adj| == |g|
    ensures var j := g[i][t];
            j < |g| && Built(g, i, t + 1, indeg[i := indeg[i] + 1], adj[j := adj[j] + [i]])
  {
    BuildCount(g, i, t, indeg);
    BuildEdge(g, i, t, adj);
    hide ReadSoFar;
  }

  lemma BuildRow(g: Graph, i: nat, indeg: seq<nat>, adj: seq<seq<nat>>)
    requires i < |g| && Built(g, i, |g[i]|, indeg, adj)
    ensures Built(g, i + 1, 0, indeg, adj)
  {
    assert g[i][..|g[i]|] == g[i];
    forall v | 0 <= v < |g|
      ensures ReadSoFar(g, i, |g[i]|, v) == ReadSoFar(g, i + 1, 0, v)
    {
    }
    forall u, v | 0 <= u < |g| && 0 <= v < |g|
      ensures multiset(adj[u])[v] == multiset(ReadSoFar(g, i + 1, 0, v))[u]
    {
      assert multiset(adj[u])[v] == multiset(ReadSoFar(g, i, |g[i]|, v))[u];
    }
  }

  /** Reverse the edges and count each node's dependencies. */
  method Reverse(g: Graph) returns (indeg: seq<nat>, adj: seq<seq<nat>>)
    requires WellFormed(g)
    ensures |indeg| == |g| && forall v :: 0 <= v < |g| ==> indeg[v] == |g[v]|
    ensures Reversed(g, adj)
  {
    indeg, adj := seq(|g|, _ => 0), seq(|g|, _ => []);
    var i := 0;
    while i < |g|
      invariant i <= |g| && Built(g, i, 0, indeg, adj)
    {
      var t := 0;
      while t < |g[i]|
        invariant t <= |g[i]| && Built(g, i, t, indeg, adj)
      {
        hide ReadSoFar, CountsBuilt, EdgesBuilt, InRange, Built;
        BuildStep(g, i, t, indeg, adj);
        var j := g[i][t];
        adj := adj[j := adj[j] + [i]];
        indeg := indeg[i := indeg[i] + 1];
        t := t + 1;
      }
      BuildRow(g, i, indeg, adj);
      i := i + 1;
    }
  }

  /** The worklist state: `done` is the order of popped nodes, `pushed` the released edges of the node
      being finished. */
  ghost predicate Counts(g: Graph, indeg: seq<nat>, finished: set<nat>, owed: seq<nat>) {
    && |indeg| == |g|
    && (forall v :: 0 <= v < |g| ==> indeg[v] == Open(g[v], finished) + multiset(owed)[v])
  }

  ghost predicate Queued(g: Graph, indeg: seq<nat>, finished: set<nat>, q: seq<nat>) {
    && |indeg| == |g|
    && (forall j, k :: 0 <= j < k < |q| ==> q[j] != q[k])
    && (forall v :: v in q <==> 0 <= v < |g| && indeg[v] == 0 && v !in finished)
  }

  function Elements(s: seq<nat>): (r: set<nat>) {
    set x | x in s
  }

  lemma DistinctCount(s: seq<nat>)
    requires forall j, k :: 0 <= j < k < |s| ==> s[j] != s[k]
    ensures |Elements(s)| == |s|
  {
    if s != [] {
      var init, last := s[..|s| - 1], s[|s| - 1];
      DistinctCount(init);
      assert Elements(s) == Elements(init) + {last};
    }
  }

  function Below(n: nat): (s: set<nat>)
    ensures |s| == n && forall x: nat :: x in s <==> x < n
  {
    if n == 0 then {}
    else
      var rest := Below(n - 1);
      assert n - 1 !in rest;
      rest + {n - 1}
  }

  /** A finished order has at most as many nodes as the graph, and as many only if it has them all. */
  lemma OrderCount(g: Graph, order: seq<nat>)
    requires Topological(g, order)
    ensures |order| <= |g|
    ensures |order| == |g| <==> Covers(g, order)
  {
    DistinctCount(order);
    assert Elements(order) <= Below(|g|);
    SubsetSize(Elements(order), Below(|g|));
    if |order| == |g| {
      forall v: nat | v < |g|
        ensures v in order
      {
        assert v in Below(|g|);
      }
    }
    if Covers(g, order) {
      assert Elements(order) == Below(|g|);
    }
  }

  /** The nodes nobody has to wait for. */
  method Roots(g: Graph, indeg: seq<nat>) returns (q: seq<nat>)
    requires |indeg| == |g|
    ensures Queued(g, indeg, {}, q)
  {
    q := [];
    var i := 0;
    while i < |g|
      invariant i <= |g|
      invariant forall j, k :: 0 <= j < k < |q| ==> q[j] != q[k]
      invariant forall v :: v in q <==> 0 <= v < i && indeg[v] == 0
    {
      if indeg[i] == 0 {
        q := q + [i];
      }
      i := i + 1;
    }
  }

  /** What holds between two pops: `order` is what has been popped so far. */
  ghost predicate Between(g: Graph, indeg: seq<nat>, order: seq<nat>, q: seq<nat>) {
    && Topological(g, order)
    && Counts(g, indeg, Elements(order), [])
    && Queued(g, indeg, Elements(order), q)
  }

  /** A queued node may be popped: everything it depends on has been popped before. */
  lemma PopIsTopological(g: Graph, indeg: seq<nat>, order: seq<nat>, q: seq<nat>)
    requires WellFormed(g) && Between(g, indeg, order, q) && q != []
    ensures Topological(g, order + [q[|q| - 1]])
  {
    var u := q[|q| - 1];
    assert u in q;
    OpenNone(g[u], Elements(order));
    assert indeg[u] == Open(g[u], Elements(order)) + multiset([])[u];
    var all := order + [u];
    forall k, d | 0 <= k < |all| && d in g[all[k]]
      ensures d in all[..k]
    {
      if k < |order| {
        assert all[..k] == order[..k];
      } else {
        assert all[..k] == order;
      }
    }
  }

  /** Popping `u` turns its edges from unfinished dependencies into counts still to be given back. */
  lemma Pop(g: Graph, adj: seq<seq<nat>>, indeg: seq<nat>, order: seq<nat>, q: seq<nat>)
    requires WellFormed(g) && Between(g, indeg, order, q) && q != [] && Reversed(g, adj)
    ensures var u := q[|q| - 1];
            var finished := Elements(order + [u]);
            && u < |adj| == |g|
            && Topological(g, order + [u])
            && Counts(g, indeg, finished, adj[u])
            && Queued(g, indeg, finished, q[..|q| - 1])
  {
    var u := q[|q| - 1];
    assert u in q;
    PopIsTopological(g, indeg, order, q);
    assert Elements(order + [u]) == Elements(order) + {u};
    forall v | 0 <= v < |g|
      ensures indeg[v] == Open(g[v], Elements(order) + {u}) + multiset(adj[u])[v]
    {
      OpenFinish(g[v], Elements(order), u);
      assert multiset([])[v] == 0;
    }
    assert q == q[..|q| - 1] + [u];
    var rest := q[..|q| - 1];
    forall v
      ensures v in rest <==> 0 <= v < |g| && indeg[v] == 0 && v !in Elements(order + [u])
    {
      if v in q && v != u {
        var k :| 0 <= k < |q| && q[k] == v;
        assert q[..|q| - 1][k] == v;
      }
    }
  }

  /** A node still owed a count has not been popped. */
  lemma OwedIsOpen(g: Graph, order: seq<nat>, adj: seq<seq<nat>>, u: nat, v: nat)
    requires Topological(g, order) && order != [] && order[|order| - 1] == u && Reversed(g, adj)
    requires u < |adj| && v in adj[u]
    ensures v < |g| && v !in Elements(order)
  {
    assert multiset(adj[u])[v] > 0 && multiset(g[v])[u] > 0;
    assert u in g[v] && u !in order[..|order| - 1];
  }

  /** Give back one count of `v`; queue it when that was its last. */
  lemma ReleaseOne(g: Graph, indeg: seq<nat>, finished: set<nat>, q: seq<nat>, v: nat, owed: seq<nat>)
    requires Counts(g, indeg, finished, [v] + owed) && Queued(g, indeg, finished, q) && v < |g| && v !in finished
    ensures |indeg| == |g| && indeg[v] > 0
    ensures var after := indeg[v := indeg[v] - 1];
            && Counts(g, after, finished, owed)
            && Queued(g, after, finished, if after[v] == 0 then q + [v] else q)
  {
    var after := indeg[v := indeg[v] - 1];
    forall x | 0 <= x < |g|
      ensures after[x] == Open(g[x], finished) + multiset(owed)[x]
    {
      assert multiset([v] + owed)[x] == multiset(owed)[x] + if x == v then 1 else 0;
    }
    assert v !in q;
  }

  /** Nodes never popped wait on one another. */
  lemma LeftoversAreStuck(g: Graph, indeg: seq<nat>, order: seq<nat>)
    requires WellFormed(g) && Between(g, indeg, order, [])
    ensures Covers(g, order) <==> Acyclic(g)
  {
    if Covers(g, order) {
      TopologicalIsAcyclic(g, order);
    } else {
      var s := Below(|g|) - Elements(order);
      forall v | v in s
        ensures Waits(g, s, v)
      {
        assert v !in [] && indeg[v] > 0;
        OpenNone(g[v], Elements(order));
        var d :| d in g[v] && d !in Elements(order);
        var t :| 0 <= t < |g[v]| && g[v][t] == d;
        assert d in s;
      }
      var w: nat :| w < |g| && w !in order;
      assert w in s;
      StuckHasCycle(g, s);
    }
  }

  /** Kahn's algorithm: pop a free node, release the nodes waiting on it, and compare the number of
      popped nodes with the number of all nodes. */
  method AssertAcyclic(g: Graph) returns (ok: bool)
    requires WellFormed(g)
    ensures ok <==> Acyclic(g)
  {
    hide Counts, Queued, Topological, Reversed, Open, Elements, Acyclic, Covers;
    var indeg, adj := Reverse(g);
    var q := Roots(g, indeg);
    var seen := 0;
    ghost var order: seq<nat> := [];
    Start(g, indeg, q);
    while q != []
      invariant Between(g, indeg, order, q) && seen == |order| && Reversed(g, adj)
      decreases |g| - |order|
    {
      var u := q[|q| - 1];
      Pop(g, adj, indeg, order, q);
      q, seen, order := q[..|q| - 1], seen + 1, order + [u];
      OrderCount(g, order);
      var t := 0;
      assert adj[u][0..] == adj[u];
      while t < |adj[u]|
        invariant t <= |adj[u]|
        invariant Counts(g, indeg, Elements(order), adj[u][t..]) && Queued(g, indeg, Elements(order), q)
      {
        var v := adj[u][t];
        OwedIsOpen(g, order, adj, u, v);
        assert adj[u][t..] == [v] + adj[u][t + 1..];
        ReleaseOne(g, indeg, Elements(order), q, v, adj[u][t + 1..]);
        indeg := indeg[v := indeg[v] - 1];
        if indeg[v] == 0 {
          q := q + [v];
        }
        t := t + 1;
      }
      assert adj[u][t..] == [];
    }
    LeftoversAreStuck(g, indeg, order);
    OrderCount(g, order);
    ok := seen == |g|;
  }

  lemma Start(g: Graph, indeg: seq<nat>, q: seq<nat>)
    requires |indeg| == |g| && (forall v :: 0 <= v < |g| ==> indeg[v] == |g[v]|) && Queued(g, indeg, {}, q)
    ensures Between(g, indeg, [], q)
  {
    assert Elements([]) == {};
    forall v | 0 <= v < |g|
      ensures indeg[v] == Open(g[v], {}) + multiset([])[v]
    {
      OpenAll(g[v]);
      assert v !in multiset([]);
    }
  }
}
