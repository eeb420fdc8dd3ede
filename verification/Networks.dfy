/** The enabled monitors, their parents and what the source derives from both:
    ancestors (watchpost/scheduler.py) and the blocking parent and effective
    state (watchpost/rollup.py). */
module Networks {
  import opened Wrappers
  import opened Graphs
  import opened MonitorStates

  /** `order` holds the slugs of the enabled monitors in configuration order
      (by_slug); `parents` is the resolved depends_on graph, in which disabled
      monitors occur too. */
  datatype Network = Network(order: seq<string>, parents: Graph, names: map<string, string>) {
    ghost predicate Valid() {
      && Acyclic(parents)
      && (forall s | s in order :: s in parents && s in names)
      && (forall i, j | 0 <= i < j < |order| :: order[i] != order[j])
    }
  }

  type States = map<string, Status>

  ghost predicate Covers(net: Network, st: States) {
    forall s | s in net.order :: s in st
  }

  // ------------------------------------------------------------ blocking parent

  /** The name of the root cause `s` is unreachable behind, if there is one. */
  function BlockingParent(net: Network, st: States, s: string): Option<string>
    requires net.Valid() && Covers(net, st) && s in net.order
    decreases Rank(net.parents, s), 1, 0
  {
    FirstBlocking(net, st, s, net.parents[s])
  }

  /** The loop of blocking_parent over the enabled parents. */
  function FirstBlocking(net: Network, st: States, s: string, ps: seq<string>): Option<string>
    requires net.Valid() && Covers(net, st)
    requires forall p | p in ps :: Edge(net.parents, s, p)
    decreases Rank(net.parents, s), 0, |ps|
  {
    if ps == [] then None
    else if ps[0] !in net.order then FirstBlocking(net, st, s, ps[1..])
    else
      assert Edge(net.parents, s, ps[0]);
      var upstream := BlockingParent(net, st, ps[0]);
      if st[ps[0]].state == Down then
        if upstream.Some? then upstream else Some(net.names[ps[0]])
      else if upstream.Some? && st[ps[0]].state != Up then upstream
      else FirstBlocking(net, st, s, ps[1..])
  }

  datatype Effective = Own(state: State) | Unreachable(via: string)

  function EffectiveState(net: Network, st: States, s: string): Effective
    requires net.Valid() && Covers(net, st) && s in net.order
  {
    var own := st[s].state;
    var blocker := if IsProblem(own) then BlockingParent(net, st, s) else None;
    if blocker.Some? then Unreachable(blocker.value) else Own(own)
  }

  /** A chain of enabled parents from `s` upwards that are all not up, the last
      of them down. */
  ghost predicate BlockChain(net: Network, st: States, s: string, c: seq<string>)
    requires Covers(net, st)
  {
    && c != [] && Edge(net.parents, s, c[0]) && Chain(net.parents, c)
    && (forall p | p in c :: p in net.order && st[p].state != Up)
    && st[c[|c| - 1]].state == Down
  }

  ghost predicate Blocked(net: Network, st: States, s: string)
    requires net.Valid() && Covers(net, st) && s in net.order
  {
    BlockingParent(net, st, s).Some?
  }

  lemma {:induction false} FirstBlockingStep(net: Network, st: States, s: string, ps: seq<string>)
    requires net.Valid() && Covers(net, st)
    requires forall p | p in ps :: Edge(net.parents, s, p)
    ensures FirstBlocking(net, st, s, ps).Some? <==>
            exists p | p in ps && p in net.order ::
              st[p].state == Down || (st[p].state != Up && Blocked(net, st, p))
  {
    if ps != [] {
      FirstBlockingStep(net, st, s, ps[1..]);
      assert forall p :: p in ps <==> p == ps[0] || p in ps[1..];
    }
  }

  /** One step of the characterisation: some parent is down, or is neither up
      nor down and itself blocked. */
  lemma BlockedStep(net: Network, st: States, s: string)
    requires net.Valid() && Covers(net, st) && s in net.order
    ensures Blocked(net, st, s) <==>
            exists p | Edge(net.parents, s, p) && p in net.order ::
              st[p].state == Down || (st[p].state != Up && Blocked(net, st, p))
  {
    FirstBlockingStep(net, st, s, net.parents[s]);
  }

  /** The named monitor ends a chain, is down, and is not blocked itself. */
  ghost predicate RootCause(net: Network, st: States, s: string, c: seq<string>, name: string)
    requires net.Valid() && Covers(net, st)
  {
    && BlockChain(net, st, s, c)
    && net.names[c[|c| - 1]] == name
    && !Blocked(net, st, c[|c| - 1])
  }

  lemma {:induction false} FirstBlockingRoot(net: Network, st: States, s: string, ps: seq<string>)
    returns (c: seq<string>)
    requires net.Valid() && Covers(net, st)
    requires forall p | p in ps :: Edge(net.parents, s, p)
    requires FirstBlocking(net, st, s, ps).Some?
    ensures RootCause(net, st, s, c, FirstBlocking(net, st, s, ps).value)
    decreases Rank(net.parents, s), |ps|
  {
    var p := ps[0];
    assert Edge(net.parents, s, p);
    if p !in net.order {
      c := FirstBlockingRoot(net, st, s, ps[1..]);
    } else if Blocked(net, st, p) && st[p].state != Up {
      var d := FirstBlockingRoot(net, st, p, net.parents[p]);
      c := [p] + d;
    } else if st[p].state == Down {
      c := [p];
    } else {
      c := FirstBlockingRoot(net, st, s, ps[1..]);
    }
  }

  lemma {:induction false} ChainBlocks(net: Network, st: States, s: string, c: seq<string>)
    requires net.Valid() && Covers(net, st) && s in net.order
    requires BlockChain(net, st, s, c)
    ensures Blocked(net, st, s)
    decreases |c|
  {
    BlockedStep(net, st, s);
    var p := c[0];
    if |c| > 1 {
      assert Edge(net.parents, c[0], c[1]);
      ChainTail(net.parents, c);
      ChainBlocks(net, st, p, c[1..]);
    }
    assert Edge(net.parents, s, p) && p in net.order;
  }

  /** There is a blocking parent exactly when a chain of parents that are not
      up leads to one that is down. */
  lemma BlockingExact(net: Network, st: States, s: string)
    requires net.Valid() && Covers(net, st) && s in net.order
    ensures BlockingParent(net, st, s).Some? <==> exists c :: BlockChain(net, st, s, c)
  {
    if Blocked(net, st, s) {
      var c := FirstBlockingRoot(net, st, s, net.parents[s]);
    }
    if c :| BlockChain(net, st, s, c) {
      ChainBlocks(net, st, s, c);
    }
  }

  /** "unreachable via r" names a monitor that is effectively down itself. */
  lemma UnreachableViaDown(net: Network, st: States, s: string)
    requires net.Valid() && Covers(net, st) && s in net.order
    requires EffectiveState(net, st, s).Unreachable?
    ensures exists c :: RootCause(net, st, s, c, EffectiveState(net, st, s).via)
                        && EffectiveState(net, st, c[|c| - 1]) == Own(Down)
  {
    var c := FirstBlockingRoot(net, st, s, net.parents[s]);
    assert EffectiveState(net, st, c[|c| - 1]) == Own(Down);
  }

  // ------------------------------------------------ which root cause is named

  ghost predicate HasChain(net: Network, st: States, s: string)
    requires Covers(net, st)
  {
    exists c :: BlockChain(net, st, s, c)
  }

  /** s is unreachable through its parent p: p is down, or neither up nor reachable. */
  ghost predicate Stops(net: Network, st: States, p: string)
    requires Covers(net, st)
  {
    p in net.order && (st[p].state == Down || (st[p].state != Up && HasChain(net, st, p)))
  }

  /** p is the first parent of s, in the order of depends_on, that stops it. */
  ghost predicate FirstStop(net: Network, st: States, s: string, p: string)
    requires Covers(net, st)
  {
    s in net.parents &&
    exists i | 0 <= i < |net.parents[s]| ::
      && net.parents[s][i] == p && Stops(net, st, p)
      && forall j | 0 <= j < i :: !Stops(net, st, net.parents[s][j])
  }

  /** From s always on to the first parent that stops, up to one that is down and that nothing stops. */
  ghost predicate FirstChain(net: Network, st: States, s: string, c: seq<string>)
    requires Covers(net, st)
    decreases |c|
  {
    && c != [] && FirstStop(net, st, s, c[0])
    && if |c| == 1 then st[c[0]].state == Down && !HasChain(net, st, c[0])
       else HasChain(net, st, c[0]) && FirstChain(net, st, c[0], c[1..])
  }

  lemma StopsIsBlocking(net: Network, st: States, p: string)
    requires net.Valid() && Covers(net, st) && p in net.order
    ensures Stops(net, st, p) <==> st[p].state == Down || (st[p].state != Up && Blocked(net, st, p))
    ensures HasChain(net, st, p) <==> Blocked(net, st, p)
  {
    BlockingExact(net, st, p);
  }

  /** Parents that do not stop are passed over; the first that does decides. */
  lemma {:induction false} FirstStopDecides(net: Network, st: States, s: string, ps: seq<string>, i: nat)
    requires net.Valid() && Covers(net, st) && forall p | p in ps :: Edge(net.parents, s, p)
    requires i < |ps| && Stops(net, st, ps[i]) && forall j | 0 <= j < i :: !Stops(net, st, ps[j])
    ensures FirstBlocking(net, st, s, ps)
         == if HasChain(net, st, ps[i]) then BlockingParent(net, st, ps[i]) else Some(net.names[ps[i]])
    decreases |ps|
  {
    if ps[0] in net.order {
      StopsIsBlocking(net, st, ps[0]);
    }
    if i > 0 {
      FirstStopDecides(net, st, s, ps[1..], i - 1);
    }
  }

  /** The name is that of the last monitor of such a chain. */
  lemma {:induction false} FirstChainNames(net: Network, st: States, s: string, c: seq<string>)
    requires net.Valid() && Covers(net, st) && s in net.order && FirstChain(net, st, s, c)
    ensures c[|c| - 1] in net.names && BlockingParent(net, st, s) == Some(net.names[c[|c| - 1]])
    decreases |c|
  {
    var ps := net.parents[s];
    var i :| 0 <= i < |ps| && ps[i] == c[0] && Stops(net, st, c[0]) && forall j | 0 <= j < i :: !Stops(net, st, ps[j]);
    FirstStopDecides(net, st, s, ps, i);
    if |c| > 1 {
      FirstChainNames(net, st, c[0], c[1..]);
    }
  }

  lemma {:induction false} FirstOf(net: Network, st: States, ps: seq<string>, k: nat) returns (i: nat)
    requires Covers(net, st) && k < |ps| && Stops(net, st, ps[k])
    ensures i < |ps| && Stops(net, st, ps[i]) && forall j | 0 <= j < i :: !Stops(net, st, ps[j])
    decreases k
  {
    if j :| 0 <= j < k && Stops(net, st, ps[j]) {
      i := FirstOf(net, st, ps, j);
    } else {
      i := k;
    }
  }

  /** A monitor with a blocking chain has such a first chain. */
  lemma {:induction false} FirstChainExists(net: Network, st: States, s: string) returns (c: seq<string>)
    requires net.Valid() && Covers(net, st) && s in net.order && HasChain(net, st, s)
    ensures FirstChain(net, st, s, c)
    decreases Rank(net.parents, s)
  {
    var ps := net.parents[s];
    BlockingExact(net, st, s);
    BlockedStep(net, st, s);
    var p :| Edge(net.parents, s, p) && p in net.order
             && (st[p].state == Down || (st[p].state != Up && Blocked(net, st, p)));
    StopsIsBlocking(net, st, p);
    var k :| 0 <= k < |ps| && ps[k] == p;
    var i := FirstOf(net, st, ps, k);
    assert Edge(net.parents, s, ps[i]);
    assert FirstStop(net, st, s, ps[i]);
    if HasChain(net, st, ps[i]) {
      var d := FirstChainExists(net, st, ps[i]);
      c := [ps[i]] + d;
      assert c[1..] == d;
    } else {
      c := [ps[i]];
    }
  }

  /** name is that of the monitor the first blocking chain of s ends with. */
  ghost predicate NamesCause(net: Network, st: States, s: string, name: string)
    requires Covers(net, st)
  {
    exists c :: FirstChain(net, st, s, c) && c[|c| - 1] in net.names && net.names[c[|c| - 1]] == name
  }

  /** The named root cause is that of the first blocking chain, and no other. */
  lemma RootCauseIsFirst(net: Network, st: States, s: string, name: string)
    requires net.Valid() && Covers(net, st) && s in net.order
    ensures BlockingParent(net, st, s) == Some(name) <==> NamesCause(net, st, s, name)
  {
    BlockingExact(net, st, s);
    if HasChain(net, st, s) {
      var c := FirstChainExists(net, st, s);
      FirstChainNames(net, st, s, c);
    }
    if c :| FirstChain(net, st, s, c) && c[|c| - 1] in net.names && net.names[c[|c| - 1]] == name {
      FirstChainNames(net, st, s, c);
    }
  }

  // ------------------------------------------------------------------ ancestors

  /** `c` leads from `s` upwards through enabled parents. */
  ghost predicate AncestorChain(net: Network, s: string, c: seq<string>) {
    c != [] && Edge(net.parents, s, c[0]) && Chain(net.parents, c) && forall p | p in c :: p in net.order
  }

  ghost predicate IsAncestor(net: Network, a: string, s: string) {
    exists c :: AncestorChain(net, s, c) && c[|c| - 1] == a
  }

  lemma ParentIsAncestor(net: Network, p: string, s: string)
    requires Edge(net.parents, s, p) && p in net.order
    ensures IsAncestor(net, p, s)
  {
    assert AncestorChain(net, s, [p]);
  }

  lemma AncestorStep(net: Network, a: string, s: string, p: string)
    requires IsAncestor(net, a, s) && Edge(net.parents, a, p) && p in net.order
    ensures IsAncestor(net, p, s)
  {
    var c :| AncestorChain(net, s, c) && c[|c| - 1] == a;
    ExtendChain(net.parents, c, p);
    assert AncestorChain(net, s, c + [p]);
  }

  /** Nothing above s is s. */
  lemma RankFallsAbove(net: Network, s: string, c: seq<string>)
    requires net.Valid() && c != [] && Edge(net.parents, s, c[0]) && Chain(net.parents, c)
    ensures c[|c| - 1] != s
  {
    var rank := RankOf(net.parents);
    var d := [s] + c;
    forall i | 0 <= i < |d| - 1
      ensures Edge(net.parents, d[i], d[i + 1])
    {
      assert i > 0 ==> Edge(net.parents, c[i - 1], c[i]);
    }
    RankFallsAlongChain(net.parents, rank, d);
  }

  /** No monitor is above itself. */
  lemma NotOwnAncestor(net: Network, s: string)
    requires net.Valid()
    ensures !IsAncestor(net, s, s)
  {
    if c :| AncestorChain(net, s, c) && c[|c| - 1] == s {
      RankFallsAbove(net, s, c);
    }
  }

  /** A set closed under enabled parents that holds those of `s` holds every ancestor. */
  lemma {:induction false} ClosedHoldsAncestors(net: Network, s: string, seen: set<string>, c: seq<string>)
    requires AncestorChain(net, s, c)
    requires forall p | Edge(net.parents, s, p) && p in net.order :: p in seen
    requires forall a, p | a in seen && Edge(net.parents, a, p) && p in net.order :: p in seen
    ensures c[|c| - 1] in seen
    decreases |c|
  {
    if |c| > 1 {
      assert Edge(net.parents, c[0], c[1]);
      ChainTail(net.parents, c);
      ClosedHoldsAncestors(net, c[0], seen, c[1..]);
    }
  }

  /** Every monitor on a chain that blocks `s` is an ancestor of `s`. */
  lemma BlockChainIsAncestral(net: Network, st: States, s: string, c: seq<string>, k: nat)
    requires Covers(net, st) && BlockChain(net, st, s, c) && k < |c|
    ensures IsAncestor(net, c[k], s)
  {
    var d := c[..k + 1];
    assert Chain(net.parents, d);
    assert AncestorChain(net, s, d);
  }
}
