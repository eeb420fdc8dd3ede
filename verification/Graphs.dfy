/** Dependency graphs: each slug with the slugs of its parents, in order. */
module Graphs {

  type Graph = map<string, seq<string>>

  predicate Edge(g: Graph, a: string, b: string) {
    a in g && b in g[a]
  }

  /** Consecutive elements are child and parent. */
  ghost predicate Chain(g: Graph, w: seq<string>) {
    forall i | 0 <= i < |w| - 1 :: Edge(g, w[i], w[i + 1])
  }

  ghost predicate IsCycle(g: Graph, w: seq<string>) {
    |w| >= 2 && Chain(g, w) && w[0] == w[|w| - 1]
  }

  ghost predicate Cyclic(g: Graph) {
    exists w :: IsCycle(g, w)
  }

  /** A topological rank: every parent ranks below its children. */
  ghost predicate Ranked(g: Graph, rank: map<string, nat>) {
    forall a, b | Edge(g, a, b) :: a in rank && b in rank && rank[b] < rank[a]
  }

  ghost predicate Acyclic(g: Graph) {
    exists rank :: Ranked(g, rank)
  }

  /** Some topological rank, the termination measure of every walk upwards. */
  ghost function RankOf(g: Graph): (rank: map<string, nat>)
    requires Acyclic(g)
    ensures Ranked(g, rank)
  {
    var rank :| Ranked(g, rank);
    rank
  }

  ghost function Rank(g: Graph, a: string): nat
    requires Acyclic(g)
  {
    if a in RankOf(g) then RankOf(g)[a] else 0
  }

  lemma {:induction false} RankFallsAlongChain(g: Graph, rank: map<string, nat>, w: seq<string>)
    requires Ranked(g, rank) && Chain(g, w) && |w| >= 2
    ensures w[0] in rank && w[|w| - 1] in rank && rank[w[|w| - 1]] < rank[w[0]]
  {
    assert Edge(g, w[0], w[1]);
    if |w| > 2 {
      ChainTail(g, w);
      RankFallsAlongChain(g, rank, w[1..]);
    }
  }

  lemma ChainTail(g: Graph, w: seq<string>)
    requires Chain(g, w) && w != []
    ensures Chain(g, w[1..])
  {
    forall i | 0 <= i < |w[1..]| - 1
      ensures Edge(g, w[1..][i], w[1..][i + 1])
    {
      assert Edge(g, w[i + 1], w[i + 2]);
    }
  }

  lemma RankedHasNoCycle(g: Graph)
    requires Acyclic(g)
    ensures !Cyclic(g)
  {
    var rank :| Ranked(g, rank);
    forall w | IsCycle(g, w)
      ensures false
    {
      RankFallsAlongChain(g, rank, w);
    }
  }

  lemma ExtendChain(g: Graph, w: seq<string>, b: string)
    requires Chain(g, w) && (w != [] ==> Edge(g, w[|w| - 1], b))
    ensures Chain(g, w + [b])
  {
  }

  /** A reported path: a dependency chain whose last slug occurs before. */
  ghost predicate IsCycleReport(g: Graph, path: seq<string>) {
    |path| >= 2 && Chain(g, path) && path[|path| - 1] in path[..|path| - 1]
  }

  /** From the repeated slug onward the reported path is a cycle. */
  lemma ReportHoldsCycle(g: Graph, path: seq<string>)
    requires IsCycleReport(g, path)
    ensures exists k | 0 <= k < |path| - 1 :: path[k] == path[|path| - 1] && IsCycle(g, path[k..])
  {
    var k :| 0 <= k < |path| - 1 && path[..|path| - 1][k] == path[|path| - 1];
    var w := path[k..];
    forall i | 0 <= i < |w| - 1
      ensures Edge(g, w[i], w[i + 1])
    {
      assert w[i] == path[k + i] && w[i + 1] == path[k + i + 1];
    }
    assert IsCycle(g, w);
  }

  // ------------------------------------------------------- depth-first search

  const GREY := 1
  const BLACK := 2

  /** What the depth-first search keeps: the black nodes are numbered by
      `finish` below `clock`, each above all its parents. */
  ghost predicate WalkState(g: Graph, colour: map<string, int>, finish: map<string, nat>, clock: nat,
                            grey: set<string>) {
    && (forall s | s in colour :: colour[s] == if s in grey then GREY else BLACK)
    && (forall s | s in grey :: s in colour && s !in finish)
    && (forall s :: s in finish <==> s in colour && s !in grey)
    && Numbered(g, finish, clock)
  }

  ghost predicate Numbered(g: Graph, finish: map<string, nat>, clock: nat) {
    && (forall s | s in finish :: finish[s] < clock)
    && (forall a, b | a in finish && Edge(g, a, b) :: b in finish && finish[b] < finish[a])
  }

  lemma EnterGrey(g: Graph, colour: map<string, int>, finish: map<string, nat>, clock: nat, grey: set<string>,
                  s: string)
    requires WalkState(g, colour, finish, clock, grey) && s !in colour
    ensures WalkState(g, colour[s := GREY], finish, clock, grey + {s})
  {
  }

  lemma LeaveBlack(g: Graph, colour: map<string, int>, finish: map<string, nat>, clock: nat, grey: set<string>,
                   s: string)
    requires WalkState(g, colour, finish, clock, grey) && s in grey
    requires forall b | Edge(g, s, b) :: b in finish
    ensures WalkState(g, colour[s := BLACK], finish[s := clock], clock + 1, grey - {s})
  {
  }
}
