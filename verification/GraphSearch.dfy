/** Breadth-first search with path counting, as an in-place algorithm: each step
    keeps an invariant over the labels, the counts, the parents and the queue. */
module GraphSearch {
  import opened Sums
  import opened GraphPaths

  datatype Bfs = Bfs(d: seq<int>, sigma: seq<real>, parents: seq<seq<nat>>, queue: seq<nat>)

  ghost predicate Distinct(s: seq<nat>) {
    forall i, j :: 0 <= i < j < |s| ==> s[i] != s[j]
  }

  ghost predicate Below(s: seq<nat>, n: nat) {
    forall i :: 0 <= i < |s| ==> s[i] < n
  }

  /** The sum of the counts of some vertices. */
  function Addends(ps: seq<nat>, sigma: seq<real>): nat -> real {
    (u: nat) => if u in ps && u < |sigma| then sigma[u] else 0.0
  }

  function Total(ps: seq<nat>, sigma: seq<real>): real {
    Sum(|sigma|, Addends(ps, sigma))
  }

  lemma {:induction false} TotalFrame(ps: seq<nat>, sigma: seq<real>, w: nat, x: real)
    requires w < |sigma| && w !in ps
    ensures Total(ps, sigma[w := x]) == Total(ps, sigma)
  {
    SumSame(|sigma|, Addends(ps, sigma), Addends(ps, sigma[w := x]));
  }

  lemma {:induction false} TotalSnoc(ps: seq<nat>, sigma: seq<real>, v: nat)
    requires v < |sigma| && v !in ps
    ensures Total(ps + [v], sigma) == Total(ps, sigma) + sigma[v]
  {
    SumChange(|sigma|, Addends(ps, sigma), Addends(ps + [v], sigma), v);
  }

  lemma {:induction false} TotalNone(sigma: seq<real>)
    ensures Total([], sigma) == 0.0
  {
    SumZero(|sigma|, Addends([], sigma));
  }

  // ---------- The invariant ----------

  /** The queue holds exactly the labelled vertices, each once, the source first. */
  ghost predicate QueueOk(n: nat, s: nat, d: seq<int>, queue: seq<nat>) {
    && |d| == n && s < n && queue != [] && queue[0] == s && d[s] == 0 && Distinct(queue)
    && Below(queue, n)
    && (forall t :: 0 <= t < n ==> d[t] >= -1 && (d[t] >= 0 <==> t in queue) && (d[t] == 0 ==> t == s))
  }

  /** Labels never decrease along the queue and grow by at most one beyond its head. */
  ghost predicate Frontier(d: seq<int>, queue: seq<nat>, head: nat) {
    && Below(queue, |d|)
    && (forall i, j :: 0 <= i < j < |queue| ==> d[queue[i]] <= d[queue[j]])
    && (head < |queue| ==> forall i :: 0 <= i < |queue| ==> d[queue[i]] <= d[queue[head]] + 1)
  }

  /** The edges looked at so far: all from finished vertices, the first j from v. */
  predicate Examined(g: Graph, done: seq<nat>, v: nat, j: nat, u: nat, t: nat) {
    g.Edge(u, t) && (u in done || (u == v && j <= |g.adj[u]| && t in g.adj[u][..j]))
  }

  predicate EdgeOk(d: seq<int>, u: nat, t: nat) {
    u < |d| && t < |d| && 0 <= d[u] && 0 <= d[t] <= d[u] + 1
  }

  /** An edge looked at that leads one step farther. */
  predicate IsParent(g: Graph, d: seq<int>, done: seq<nat>, v: nat, j: nat, u: nat, t: nat) {
    u < |d| && t < |d| && Examined(g, done, v, j, u, t) && d[t] == d[u] + 1
  }

  ghost predicate EdgesOk(g: Graph, d: seq<int>, done: seq<nat>, v: nat, j: nat) {
    && |d| == g.Order()
    && forall u: nat, t: nat :: Examined(g, done, v, j, u, t) ==> EdgeOk(d, u, t)
  }

  ghost predicate ParentsOk(g: Graph, s: nat, d: seq<int>, parents: seq<seq<nat>>, done: seq<nat>, v: nat, j: nat) {
    && |d| == |parents| == g.Order()
    && (forall t :: 0 <= t < |parents| ==> Distinct(parents[t]))
    && (forall t: nat, u: nat :: t < |parents| ==>
          (u in parents[t] <==> IsParent(g, d, done, v, j, u, t)))
    && (forall t :: 0 <= t < |parents| && d[t] > 0 ==> parents[t] != [])
  }

  ghost predicate CountsOk(s: nat, sigma: seq<real>, parents: seq<seq<nat>>) {
    && |sigma| == |parents| && s < |sigma| && sigma[s] == 1.0
    && forall t :: 0 <= t < |sigma| && t != s ==> sigma[t] == Total(parents[t], sigma)
  }

  ghost predicate Inv(g: Graph, s: nat, b: Bfs, head: nat, v: nat, j: nat) {
    && head <= |b.queue| && v < g.Order() && (head < |b.queue| ==> v == b.queue[head])
    && QueueOk(g.Order(), s, b.d, b.queue)
    && Frontier(b.d, b.queue, head)
    && EdgesOk(g, b.d, b.queue[..head], v, j)
    && ParentsOk(g, s, b.d, b.parents, b.queue[..head], v, j)
    && CountsOk(s, b.sigma, b.parents)
  }

  // ---------- Steps ----------

  function Discover(b: Bfs, v: nat, w: nat): Bfs
    requires v < |b.d| && w < |b.d|
  {
    if b.d[w] < 0 then b.(d := b.d[w := b.d[v] + 1], queue := b.queue + [w]) else b
  }

  function Link(b: Bfs, v: nat, w: nat): Bfs
    requires v < |b.d| == |b.sigma| == |b.parents| && w < |b.d|
  {
    if b.d[w] == b.d[v] + 1 then
      b.(sigma := b.sigma[w := b.sigma[w] + b.sigma[v]], parents := b.parents[w := b.parents[w] + [v]])
    else b
  }

  lemma {:induction false} QueueDiscover(n: nat, s: nat, d: seq<int>, queue: seq<nat>, v: nat, w: nat)
    requires QueueOk(n, s, d, queue) && v < n && d[v] >= 0 && w < n && d[w] < 0
    ensures QueueOk(n, s, d[w := d[v] + 1], queue + [w])
  {
  }

  lemma {:induction false} FrontierDiscover(d: seq<int>, queue: seq<nat>, head: nat, w: nat)
    requires Frontier(d, queue, head) && head < |queue| && w < |d| && w !in queue
    ensures Frontier(d[w := d[queue[head]] + 1], queue + [w], head)
  {
    var d', q := d[w := d[queue[head]] + 1], queue + [w];
    assert forall i :: 0 <= i < |queue| ==> d'[queue[i]] == d[queue[i]];
  }

  lemma {:induction false} EdgesDiscover(g: Graph, d: seq<int>, done: seq<nat>, v: nat, j: nat, w: nat, x: int)
    requires EdgesOk(g, d, done, v, j) && w < |d| && d[w] < 0
    ensures EdgesOk(g, d[w := x], done, v, j)
  {
    hide Examined;
    assert forall u: nat, t: nat :: Examined(g, done, v, j, u, t) ==> u != w && t != w;
  }

  /** Everything but the parents of w, which are still to be linked. */
  ghost predicate ParentsBut(g: Graph, d: seq<int>, parents: seq<seq<nat>>, done: seq<nat>, v: nat, j: nat, w: nat) {
    && |d| == |parents| == g.Order()
    && (forall t :: 0 <= t < |parents| ==> Distinct(parents[t]))
    && (forall t: nat, u: nat :: t < |parents| ==>
          (u in parents[t] <==> IsParent(g, d, done, v, j, u, t)))
    && (forall t :: 0 <= t < |parents| && d[t] > 0 && t != w ==> parents[t] != [])
  }

  lemma {:induction false} ParentsDiscover(g: Graph, s: nat, d: seq<int>, parents: seq<seq<nat>>, done: seq<nat>, v: nat, j: nat, w: nat, x: int)
    requires ParentsOk(g, s, d, parents, done, v, j) && EdgesOk(g, d, done, v, j) && w < |d| && d[w] < 0
    ensures ParentsBut(g, d[w := x], parents, done, v, j, w)
  {
    hide Distinct;
    forall t: nat, u: nat | t < |parents|
      ensures u in parents[t] <==> IsParent(g, d[w := x], done, v, j, u, t)
    {
      assert u in parents[t] <==> IsParent(g, d, done, v, j, u, t);
      assert u < |d| && Examined(g, done, v, j, u, t) ==> u != w && t != w;
    }
  }

  /** Looking at the next edge of v. */
  lemma {:induction false} NextEdge(g: Graph, done: seq<nat>, v: nat, j: nat)
    requires g.Ok() && v < g.Order() && j < |g.adj[v]| && v !in done
    ensures var w := g.adj[v][j]; w < g.Order() && g.Edge(v, w) && !Examined(g, done, v, j, v, w)
  {
  }

  lemma {:induction false} NextEdgeAt(g: Graph, done: seq<nat>, v: nat, j: nat, u: nat, t: nat)
    requires g.Ok() && v < g.Order() && j < |g.adj[v]|
    ensures Examined(g, done, v, j + 1, u, t) <==> Examined(g, done, v, j, u, t) || (u == v && t == g.adj[v][j])
  {
    assert g.adj[v][..j + 1] == g.adj[v][..j] + [g.adj[v][j]];
    assert g.adj[v][j] in g.adj[v] && g.adj[v][j] < g.Order();
  }

  lemma {:induction false} EdgesLink(g: Graph, d: seq<int>, done: seq<nat>, v: nat, j: nat, w: nat)
    requires g.Ok() && v < g.Order() && j < |g.adj[v]| && w == g.adj[v][j]
    requires EdgesOk(g, d, done, v, j) && w < |d| && 0 <= d[v] && 0 <= d[w] <= d[v] + 1
    ensures EdgesOk(g, d, done, v, j + 1)
  {
    hide Examined, Graph.Ok;
    forall u: nat, t: nat | Examined(g, done, v, j + 1, u, t)
      ensures EdgeOk(d, u, t)
    {
      NextEdgeAt(g, done, v, j, u, t);
      assert Examined(g, done, v, j, u, t) ==> EdgeOk(d, u, t);
    }
  }

  lemma {:induction false} ParentsLink(g: Graph, s: nat, d: seq<int>, parents: seq<seq<nat>>, done: seq<nat>, v: nat, j: nat, w: nat)
    requires g.Ok() && v < g.Order() && j < |g.adj[v]| && w == g.adj[v][j]
    requires v < |d| && w < |d| && !Examined(g, done, v, j, v, w) && ParentsBut(g, d, parents, done, v, j, w)
    requires d[w] != d[v] + 1 ==> ParentsOk(g, s, d, parents, done, v, j)
    ensures ParentsOk(g, s, d, if d[w] == d[v] + 1 then parents[w := parents[w] + [v]] else parents, done, v, j + 1)
  {
    hide Examined, Graph.Ok;
    var linked := if d[w] == d[v] + 1 then parents[w := parents[w] + [v]] else parents;
    assert v !in parents[w] by { assert IsParent(g, d, done, v, j, v, w) <==> v in parents[w]; }
    forall t: nat, u: nat | t < |parents|
      ensures u in linked[t] <==> IsParent(g, d, done, v, j + 1, u, t)
    {
      NextEdgeAt(g, done, v, j, u, t);
      assert u in parents[t] <==> IsParent(g, d, done, v, j, u, t);
    }
  }

  lemma {:induction false} CountsLink(g: Graph, s: nat, d: seq<int>, sigma: seq<real>, parents: seq<seq<nat>>, v: nat, w: nat)
    requires CountsOk(s, sigma, parents) && v < |sigma| && w < |sigma| && w != s && w != v
    requires v !in parents[w] && w !in parents[w]
    requires forall t :: 0 <= t < |parents| ==> w !in parents[t]
    ensures CountsOk(s, sigma[w := sigma[w] + sigma[v]], parents[w := parents[w] + [v]])
  {
    hide Total;
    var x := sigma[w] + sigma[v];
    forall t | 0 <= t < |sigma|
      ensures Total(parents[t], sigma[w := x]) == Total(parents[t], sigma)
    {
      TotalFrame(parents[t], sigma, w, x);
    }
    TotalSnoc(parents[w], sigma, v);
    TotalFrame(parents[w] + [v], sigma, w, x);
  }

  /** No vertex with a label beyond that of v is a parent yet. */
  lemma {:induction false} NotParent(g: Graph, s: nat, b: Bfs, head: nat, v: nat, j: nat, w: nat)
    requires head < |b.queue| && v == b.queue[head] && |b.d| == |b.parents| == g.Order() && w < |b.d| && v < |b.d|
    requires Frontier(b.d, b.queue, head) && ParentsBut(g, b.d, b.parents, b.queue[..head], v, j, w)
    requires b.d[w] > b.d[v]
    ensures forall t :: 0 <= t < |b.parents| ==> w !in b.parents[t]
  {
    hide Distinct;
    forall t | 0 <= t < |b.parents|
      ensures w !in b.parents[t]
    {
      assert forall i :: 0 <= i < head ==> b.d[b.queue[i]] <= b.d[v];
      assert w !in b.queue[..head] && w != v;
    }
  }

  lemma {:induction false} NotDone(queue: seq<nat>, head: nat)
    requires Distinct(queue) && head < |queue|
    ensures queue[head] !in queue[..head]
  {
  }

  lemma {:induction false} DoneSame(queue: seq<nat>, head: nat, w: nat)
    requires head <= |queue|
    ensures (queue + [w])[..head] == queue[..head]
  {
  }

  /** What holds between discovering w and linking it to v. */
  ghost predicate Mid(g: Graph, s: nat, c: Bfs, head: nat, v: nat, j: nat, w: nat) {
    && head < |c.queue| && v == c.queue[head] && v < g.Order() && w < g.Order() && v !in c.queue[..head]
    && QueueOk(g.Order(), s, c.d, c.queue) && Frontier(c.d, c.queue, head) && EdgesOk(g, c.d, c.queue[..head], v, j)
    && ParentsBut(g, c.d, c.parents, c.queue[..head], v, j, w) && 0 <= c.d[v] && 0 <= c.d[w] <= c.d[v] + 1
    && (c.d[w] != c.d[v] + 1 ==> ParentsOk(g, s, c.d, c.parents, c.queue[..head], v, j))
    && CountsOk(s, c.sigma, c.parents)
  }

  lemma {:induction false} HeadFacts(g: Graph, s: nat, b: Bfs, head: nat, v: nat, j: nat)
    requires Inv(g, s, b, head, v, j) && head < |b.queue|
    ensures v < |b.d| == g.Order() && 0 <= b.d[v] && v !in b.queue[..head]
    ensures forall w :: 0 <= w < |b.d| ==> b.d[w] <= b.d[v] + 1 && (b.d[w] < 0 ==> w !in b.queue && b.d[w] != b.d[v] + 1)
  {
    hide EdgesOk, ParentsOk, CountsOk;
    NotDone(b.queue, head);
    hide Distinct;
    assert b.queue[head] in b.queue;
  }

  lemma {:induction false} ParentsAreParents(g: Graph, s: nat, d: seq<int>, parents: seq<seq<nat>>, done: seq<nat>, v: nat, j: nat, w: nat)
    requires ParentsOk(g, s, d, parents, done, v, j)
    ensures ParentsBut(g, d, parents, done, v, j, w)
  {
    hide Examined, Distinct;
  }

  lemma {:induction false} KeepDiscover(g: Graph, s: nat, b: Bfs, head: nat, v: nat, j: nat, w: nat)
    requires Inv(g, s, b, head, v, j) && head < |b.queue| && w < |b.d| == g.Order()
    ensures Mid(g, s, Discover(b, v, w), head, v, j, w)
  {
    hide QueueOk, Frontier, EdgesOk, ParentsOk, ParentsBut, CountsOk;
    HeadFacts(g, s, b, head, v, j);
    if b.d[w] < 0 {
      DoneSame(b.queue, head, w);
      QueueDiscover(g.Order(), s, b.d, b.queue, v, w);
      FrontierDiscover(b.d, b.queue, head, w);
      EdgesDiscover(g, b.d, b.queue[..head], v, j, w, b.d[v] + 1);
      ParentsDiscover(g, s, b.d, b.parents, b.queue[..head], v, j, w, b.d[v] + 1);
    } else {
      ParentsAreParents(g, s, b.d, b.parents, b.queue[..head], v, j, w);
    }
  }

  lemma {:induction false} KeepCounts(g: Graph, s: nat, c: Bfs, head: nat, v: nat, j: nat, w: nat)
    requires Mid(g, s, c, head, v, j, w) && !Examined(g, c.queue[..head], v, j, v, w) && c.d[w] == c.d[v] + 1
    ensures |c.sigma| == |c.parents| == |c.d|
    ensures CountsOk(s, c.sigma[w := c.sigma[w] + c.sigma[v]], c.parents[w := c.parents[w] + [v]])
  {
    hide Examined, Distinct, Total, Frontier;
    NotParent(g, s, c, head, v, j, w);
    CountsLink(g, s, c.d, c.sigma, c.parents, v, w);
  }

  lemma {:induction false} MidSizes(g: Graph, s: nat, c: Bfs, head: nat, v: nat, j: nat, w: nat)
    requires Mid(g, s, c, head, v, j, w)
    ensures |c.d| == |c.sigma| == |c.parents| == g.Order() && v < |c.d| && w < |c.d|
  {
    hide Examined, Distinct, Total, Frontier, EdgesOk, ParentsOk;
  }

  lemma {:induction false} KeepLink(g: Graph, s: nat, c: Bfs, head: nat, v: nat, j: nat, w: nat)
    requires g.Ok() && v < g.Order() && j < |g.adj[v]| && w == g.adj[v][j] && Mid(g, s, c, head, v, j, w)
    ensures |c.d| == |c.sigma| == |c.parents| == g.Order() && w < |c.d| && Inv(g, s, Link(c, v, w), head, v, j + 1)
  {
    hide QueueOk, Frontier, EdgesOk, ParentsOk, ParentsBut, CountsOk, Examined, Graph.Ok;
    MidSizes(g, s, c, head, v, j, w);
    NextEdge(g, c.queue[..head], v, j);
    EdgesLink(g, c.d, c.queue[..head], v, j, w);
    ParentsLink(g, s, c.d, c.parents, c.queue[..head], v, j, w);
    if c.d[w] == c.d[v] + 1 {
      KeepCounts(g, s, c, head, v, j, w);
    }
  }

  /** Looking at one edge keeps the invariant. */
  lemma {:induction false} KeepRelax(g: Graph, s: nat, b: Bfs, head: nat, v: nat, j: nat)
    requires g.Ok() && Inv(g, s, b, head, v, j) && head < |b.queue| && v < g.Order() && j < |g.adj[v]|
    ensures var w := g.adj[v][j];
      && |b.d| == |b.sigma| == |b.parents| == g.Order() && w < |b.d|
      && Inv(g, s, Link(Discover(b, v, w), v, w), head, v, j + 1)
  {
    assert |b.d| == g.Order();
    hide Inv, Mid;
    KeepDiscover(g, s, b, head, v, j, g.adj[v][j]);
    KeepLink(g, s, Discover(b, v, g.adj[v][j]), head, v, j, g.adj[v][j]);
  }

  lemma {:induction false} ExaminedNext(g: Graph, queue: seq<nat>, head: nat, v: nat)
    requires head < |queue| && queue[head] < g.Order()
    ensures var x := queue[head];
            forall u: nat, t: nat :: Examined(g, queue[..head + 1], v, 0, u, t) <==> Examined(g, queue[..head], x, |g.adj[x]|, u, t)
  {
    var x := queue[head];
    assert queue[..head + 1] == queue[..head] + [x];
    assert g.adj[x][..|g.adj[x]|] == g.adj[x];
  }

  /** Moving on to the next vertex of the queue keeps the invariant. */
  lemma {:induction false} KeepNext(g: Graph, s: nat, b: Bfs, head: nat, v: nat, next: nat)
    requires v < g.Order() && Inv(g, s, b, head, v, |g.adj[v]|) && head < |b.queue|
    requires next < g.Order() && (head + 1 < |b.queue| ==> next == b.queue[head + 1])
    ensures Inv(g, s, b, head + 1, next, 0)
  {
    ExaminedNext(g, b.queue, head, next);
    hide Examined, CountsOk;
    FrontierNext(b.d, b.queue, head);
    hide Frontier, QueueOk;
  }

  lemma {:induction false} FrontierNext(d: seq<int>, queue: seq<nat>, head: nat)
    requires Frontier(d, queue, head) && head < |queue|
    ensures Frontier(d, queue, head + 1)
  {
    if head + 1 < |queue| {
      assert d[queue[head]] <= d[queue[head + 1]];
    }
  }

  function Start(n: nat, s: nat): Bfs
    requires s < n
  {
    Bfs(seq(n, i => if i == s then 0 else -1), seq(n, i => if i == s then 1.0 else 0.0), seq(n, i => []), [s])
  }

  lemma {:induction false} KeepStart(g: Graph, s: nat)
    requires g.Ok() && s < g.Order()
    ensures Inv(g, s, Start(g.Order(), s), 0, s, 0)
  {
    var b := Start(g.Order(), s);
    TotalNone(b.sigma);
    hide Total;
    assert b.queue[..0] == [];
    assert forall u: nat, t: nat :: !Examined(g, [], s, 0, u, t);
  }

  // ---------- The result ----------

  /** What the search establishes: distances, numbers of shortest paths, all parents,
      and the reachable vertices in order of distance. */
  ghost predicate Searched(g: Graph, s: nat, b: Bfs) {
    && Labels(g, s, b.d)
    && |b.sigma| == |b.parents| == g.Order()
    && (forall t :: 0 <= t < |b.sigma| ==> b.sigma[t] == Paths(g, s, t) as real)
    && (forall t :: 0 <= t < |b.parents| ==> Distinct(b.parents[t]))
    && (forall t: nat, u: nat :: t < |b.parents| ==> (u in b.parents[t] <==> Parent(g, b.d, u, t)))
    && Distinct(b.queue)
    && (forall t: nat :: t in b.queue <==> t < |b.d| && b.d[t] >= 0)
    && (forall i, j :: 0 <= i < j < |b.queue| ==> b.queue[i] < |b.d| && b.queue[j] < |b.d| && b.d[b.queue[i]] <= b.d[b.queue[j]])
  }

  lemma {:induction false} AllExamined(g: Graph, d: seq<int>, queue: seq<nat>, v: nat, n: nat, s: nat)
    requires QueueOk(n, s, d, queue) && n == g.Order()
    ensures queue[..|queue|] == queue
    ensures forall u: nat, t: nat :: Examined(g, queue, v, 0, u, t) <==> g.Edge(u, t) && d[u] >= 0
  {
    hide Distinct;
    assert queue[..|queue|] == queue;
  }

  lemma {:induction false} FinalLabels(g: Graph, s: nat, b: Bfs, v: nat)
    requires Inv(g, s, b, |b.queue|, v, 0)
    ensures Labels(g, s, b.d)
    ensures forall t: nat, u: nat :: t < |b.parents| ==> (u in b.parents[t] <==> Parent(g, b.d, u, t))
  {
    AllExamined(g, b.d, b.queue, v, g.Order(), s);
    hide Examined, Distinct, CountsOk;
    assert forall t: nat, u: nat :: t < |b.parents| ==> (u in b.parents[t] <==> Parent(g, b.d, u, t));
    forall t | 0 <= t < |b.d| && b.d[t] > 0
      ensures HasParent(g, b.d, t)
    {
      assert Parent(g, b.d, b.parents[t][0], t);
    }
  }

  lemma {:induction false} FinalCounts(g: Graph, s: nat, b: Bfs, t: nat)
    requires Labels(g, s, b.d) && CountsOk(s, b.sigma, b.parents) && |b.parents| == |b.d| && t < |b.d|
    requires forall t: nat, u: nat :: t < |b.parents| ==> (u in b.parents[t] <==> Parent(g, b.d, u, t))
    ensures b.sigma[t] == Paths(g, s, t) as real
    decreases b.d[t] + 1
  {
    hide PathsThrough, Paths;
    if t == s {
      PathsToStart(g, s, b.d);
    } else if b.d[t] < 0 {
      SomePath(g, s, b.d, t);
      assert b.parents[t] == [] by { assert forall u: nat :: u !in b.parents[t]; NoElements(b.parents[t]); }
      TotalNone(b.sigma);
    } else {
      forall u: nat | u < |b.d|
        ensures Addends(b.parents[t], b.sigma)(u) == ParentCounts(g, s, b.d, s, t)(u)
      {
        if Parent(g, b.d, u, t) {
          FinalCounts(g, s, b, u);
          AllVisitEnds(g, s, u);
        }
      }
      SumSame(|b.d|, Addends(b.parents[t], b.sigma), ParentCounts(g, s, b.d, s, t));
      CountByParents(g, s, b.d, s, t);
      AllVisitEnds(g, s, t);
    }
  }

  lemma {:induction false} HeadIn(s: seq<nat>)
    ensures s != [] ==> s[0] in s
  {
  }

  lemma {:induction false} HeadBelow(s: seq<nat>, n: nat)
    requires Below(s, n)
    ensures s != [] ==> s[0] < n
  {
  }

  lemma {:induction false} NoElements(s: seq<nat>)
    requires forall u: nat :: u !in s
    ensures s == []
  {
    HeadIn(s);
  }

  lemma {:induction false} SearchDone(g: Graph, s: nat, b: Bfs, v: nat)
    requires Inv(g, s, b, |b.queue|, v, 0)
    ensures Searched(g, s, b)
  {
    hide Examined, Paths, Total;
    FinalLabels(g, s, b, v);
    forall t | 0 <= t < |b.sigma|
      ensures b.sigma[t] == Paths(g, s, t) as real
    {
      FinalCounts(g, s, b, t);
    }
  }

  ghost function State(d: array<int>, sigma: array<real>, parents: array<seq<nat>>, queue: seq<nat>): Bfs
    reads d, sigma, parents
  {
    Bfs(d[..], sigma[..], parents[..], queue)
  }

  /** Look at every edge of the vertex at the head of the queue. */
  method Scan(g: Graph, s: nat, d: array<int>, sigma: array<real>, parents: array<seq<nat>>, known: seq<nat>, head: nat)
    returns (queue: seq<nat>)
    requires g.Ok() && d.Length == sigma.Length == parents.Length == g.Order() && head < |known|
    requires Inv(g, s, State(d, sigma, parents, known), head, known[head], 0)
    modifies d, sigma, parents
    ensures head < |queue| && queue[head] == known[head] < g.Order()
    ensures Inv(g, s, State(d, sigma, parents, queue), head, queue[head], |g.adj[queue[head]]|)
  {
    hide Inv, Graph.Ok;
    queue := known;
    var v := queue[head];
    InBounds(g, s, State(d, sigma, parents, queue), head, v, 0);
    for j := 0 to |g.adj[v]|
      invariant head < |queue| && v == queue[head]
      invariant Inv(g, s, State(d, sigma, parents, queue), head, v, j)
    {
      var w := g.adj[v][j];
      ghost var b := State(d, sigma, parents, queue);
      KeepRelax(g, s, b, head, v, j);
      if d[w] < 0 {
        d[w] := d[v] + 1;
        queue := queue + [w];
      }
      assert State(d, sigma, parents, queue) == Discover(b, v, w);
      if d[w] == d[v] + 1 {
        sigma[w] := sigma[w] + sigma[v];
        parents[w] := parents[w] + [v];
      }
      assert State(d, sigma, parents, queue) == Link(Discover(b, v, w), v, w);
    }
  }

  method Search(g: Graph, s: nat) returns (d: array<int>, sigma: array<real>, parents: array<seq<nat>>, queue: seq<nat>)
    requires g.Ok() && s < g.Order()
    ensures fresh(d) && fresh(sigma) && fresh(parents)
    ensures Searched(g, s, State(d, sigma, parents, queue))
  {
    hide Inv, Searched, Graph.Ok;
    var n := |g.adj|;
    d := new int[n](i => if i == s then 0 else -1);
    sigma := new real[n](i => if i == s then 1.0 else 0.0);
    parents := new seq<nat>[n](i => []);
    queue := [s];
    assert State(d, sigma, parents, queue) == Start(n, s);
    KeepStart(g, s);
    var head := 0;
    ghost var next := s;
    while head < |queue|
      invariant d.Length == sigma.Length == parents.Length == n
      invariant head <= |queue| && (head < |queue| ==> next == queue[head])
      invariant Inv(g, s, State(d, sigma, parents, queue), head, next, 0)
      decreases n - head
    {
      queue := Scan(g, s, d, sigma, parents, queue, head);
      ghost var v := queue[head];
      NextInBounds(g, s, State(d, sigma, parents, queue), head, v, |g.adj[v]|);
      next := if head + 1 < |queue| then queue[head + 1] else 0;
      KeepNext(g, s, State(d, sigma, parents, queue), head, v, next);
      head := head + 1;
    }
    SearchDone(g, s, State(d, sigma, parents, queue), next);
  }

  lemma {:induction false} NextInBounds(g: Graph, s: nat, b: Bfs, head: nat, v: nat, j: nat)
    requires Inv(g, s, b, head, v, j)
    ensures Below(b.queue, g.Order()) && |b.queue| <= g.Order()
  {
    DistinctBounded(b.queue, g.Order());
  }

  lemma {:induction false} InBounds(g: Graph, s: nat, b: Bfs, head: nat, v: nat, j: nat)
    requires g.Ok() && Inv(g, s, b, head, v, j) && head < |b.queue|
    ensures v < g.Order() && |b.d| == |b.sigma| == |b.parents| == g.Order()
    ensures j < |g.adj[v]| ==> g.adj[v][j] < g.Order()
  {
  }

  lemma {:induction false} DistinctBounded(s: seq<nat>, n: nat)
    requires Distinct(s) && Below(s, n)
    ensures |s| <= n
  {
    if n == 0 {
      HeadBelow(s, n);
    } else if n - 1 in s {
      var i :| 0 <= i < |s| && s[i] == n - 1;
      var rest := s[..i] + s[i + 1..];
      assert forall k :: 0 <= k < |rest| ==> rest[k] == s[if k < i then k else k + 1];
      DistinctBounded(rest, n - 1);
    } else {
      DistinctBounded(s, n - 1);
    }
  }
}
