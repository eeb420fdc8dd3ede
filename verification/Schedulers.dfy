/** The scheduler with its mutable state (watchpost/scheduler.py), each poll run
    to completion and proved to do what `Engine` says. */
module Schedulers {
  import opened Wrappers
  import opened Graphs
  import opened MonitorStates
  import opened Networks
  import opened Engine

  /** The search upwards from `slug`: what is on the stack or seen is an ancestor, or
      not enabled, and the parents of what is seen are seen or on the stack. */
  ghost predicate Searching(net: Network, slug: string, seen: set<string>, stack: seq<string>) {
    && (forall a | a in seen :: IsAncestor(net, a, slug) && a in net.order)
    && (forall a | a in stack && a in net.order :: IsAncestor(net, a, slug))
    && (forall p | Edge(net.parents, slug, p) && p in net.order :: p in seen || p in stack)
    && (forall a, p | a in seen && Edge(net.parents, a, p) && p in net.order :: p in seen || p in stack)
  }

  lemma StartSearch(net: Network, slug: string, stack: seq<string>)
    requires slug in net.parents && stack == net.parents[slug]
    ensures Searching(net, slug, {}, stack)
  {
    forall p | p in stack && p in net.order
      ensures IsAncestor(net, p, slug)
    {
      ParentIsAncestor(net, p, slug);
    }
  }

  lemma SkipSeen(net: Network, slug: string, seen: set<string>, stack: seq<string>, s: string)
    requires Searching(net, slug, seen, stack) && stack != [] && s == stack[|stack| - 1]
    requires s in seen || s !in net.order
    ensures Searching(net, slug, seen, stack[..|stack| - 1])
  {
    assert stack == stack[..|stack| - 1] + [s];
  }

  lemma ExpandSearch(net: Network, slug: string, seen: set<string>, stack: seq<string>, s: string)
    requires Searching(net, slug, seen, stack) && stack != [] && s == stack[|stack| - 1]
    requires s in net.order && s in net.parents
    ensures Searching(net, slug, seen + {s}, stack[..|stack| - 1] + net.parents[s])
  {
    assert stack == stack[..|stack| - 1] + [s];
    forall p | p in net.parents[s] && p in net.order
      ensures IsAncestor(net, p, slug)
    {
      AncestorStep(net, s, slug, p);
    }
  }

  lemma EndSearch(net: Network, slug: string, seen: set<string>)
    requires Searching(net, slug, seen, [])
    ensures forall a :: a in seen <==> IsAncestor(net, a, slug)
  {
    forall a | IsAncestor(net, a, slug)
      ensures a in seen
    {
      var c :| AncestorChain(net, slug, c) && c[|c| - 1] == a;
      ClosedHoldsAncestors(net, slug, seen, c);
    }
  }

  class Scheduler {
    const site: Site
    const states: map<string, MonitorState>
    var rows: seq<Row>
    var sent: seq<Notice>
    var events: seq<Notice>
    ghost var world: World  // all of the state above as one value

    ghost predicate Valid()
      reads this, states.Values
    {
      && site.Valid() && Fits(site, world)
      && world.rows == rows && world.sent == sent && world.events == events
      && world.states.Keys == states.Keys
      && (forall s | s in states :: states[s].View() == world.states[s])
      && (forall s, t | s in states && t in states && s != t :: states[s] != states[t])
    }

    /** What the rollup reads. */
    function States(): (r: States)
      requires Valid()
      reads this, states.Values
      ensures r == world.states
    {
      map s | s in states :: states[s].View()
    }

    constructor (site: Site, states: map<string, MonitorState>)
      requires site.Valid() && states.Keys == set s | s in site.net.order
      requires forall s, t | s in states && t in states && s != t :: states[s] != states[t]
      requires forall s | s in states :: states[s].View() == Fresh(site.failures[s], site.recoveries[s])
      ensures Valid() && this.site == site && this.states == states
      ensures world == Start(site)
    {
      this.site, this.states := site, states;
      rows, sent, events := [], [], [];
      world := Start(site);
    }

    /** The state objects are made one per enabled monitor. */
    static method Create(site: Site) returns (s: Scheduler)
      requires site.Valid()
      ensures fresh(s) && fresh(s.states.Values)
      ensures s.Valid() && s.site == site && s.world == Start(site)
    {
      var states: map<string, MonitorState> := map[];
      for i := 0 to |site.net.order|
        invariant states.Keys == set s | s in site.net.order[..i]
        invariant forall s | s in states :: fresh(states[s])
        invariant forall s, t | s in states && t in states && s != t :: states[s] != states[t]
        invariant forall s | s in states :: states[s].View() == Fresh(site.failures[s], site.recoveries[s])
      {
        var m := site.net.order[i];
        var st := new MonitorState(site.failures[m], site.recoveries[m]);
        states := states[m := st];
      }
      assert site.net.order[..|site.net.order|] == site.net.order;
      s := new Scheduler(site, states);
    }

    method ObserveResult(m: string, v: Verdict) returns (tr: Option<Transition>)
      requires Valid() && m in site.net.order
      modifies this, states.Values
      ensures Valid() && world == Observe(old(world), m, v)
      ensures tr == Change(old(world).states[m], v)
    {
      rows := rows + [Row(m, v)];
      tr := states[m].Observe(v);
      world := Observe(world, m, v);
    }

    method Notify(m: string, open: bool, n: Notice)
      requires Valid() && m in site.net.order
      modifies this, states.Values
      ensures Valid() && world == Alert(old(world), m, open, n)
    {
      states[m].alertOpen := open;
      sent := sent + [n];
      world := Alert(world, m, open, n);
    }

    method RecordEvent(n: Notice)
      requires Valid()
      modifies this
      ensures Valid() && world == Log(old(world), n)
    {
      events := events + [n];
      world := Log(world, n);
    }

    method Ancestors(slug: string) returns (seen: set<string>)
      requires site.Valid() && slug in site.net.order
      ensures forall a :: a in seen <==> IsAncestor(site.net, a, slug)
    {
      var net := site.net;
      seen := {};
      var stack := net.parents[slug];
      StartSearch(net, slug, stack);
      ghost var unseen := set s | s in net.order;
      while stack != []
        invariant Searching(net, slug, seen, stack)
        invariant forall s | s in net.order :: s in seen || s in unseen
        decreases unseen, |stack|
      {
        var s := stack[|stack| - 1];
        if s in seen || s !in net.order {
          SkipSeen(net, slug, seen, stack, s);
          stack := stack[..|stack| - 1];
        } else {
          ExpandSearch(net, slug, seen, stack, s);
          seen, unseen := seen + {s}, unseen - {s};
          stack := stack[..|stack| - 1] + net.parents[s];
        }
      }
      EndSearch(net, slug, seen);
    }

    method PollOnce(m: string) returns (v: Verdict)
      requires Valid() && m in site.net.order
      modifies this, states.Values
      decreases Troubled(site, world) + {m}, Rank(site.net.parents, m), 3, 0
      ensures Valid() && (world, v) == Poll(site, old(world), m)
    {
      ObserveTrouble(site, world, m, site.check(m, |rows|));
      v := site.check(m, |rows|);
      var tr := ObserveResult(m, v);
      if tr.Some? {
        OnTransition(m, tr.value);
      }
    }

    method OnTransition(m: string, tr: Transition)
      requires Valid() && m in site.net.order
      requires IsProblem(tr.current) || (tr.current == Up && m !in Troubled(site, world))
      modifies this, states.Values
      decreases Troubled(site, world) + {m}, Rank(site.net.parents, m), 2, 0
      ensures Valid() && world == Engine.OnTransition(site, old(world), m, tr)
    {
      if IsProblem(tr.current) {
        var blocker := BlockingParent(site.net, States(), m);
        if blocker.None? && site.net.parents[m] != [] {
          ConfirmParents(m);
          blocker := BlockingParent(site.net, States(), m);
        }
        if blocker.Some? {
          RecordEvent(Notice(m, tr, SuppressedBy(blocker.value)));
        } else {
          Notify(m, true, Notice(m, tr, Plain));
          RecordEvent(Notice(m, tr, Plain));
        }
      } else {
        if states[m].alertOpen {
          Notify(m, false, Notice(m, tr, Plain));
        }
        RecordEvent(Notice(m, tr, Plain));
        ReleaseChildren(m);
      }
    }

    method ConfirmParents(m: string)
      requires Valid() && m in site.net.order
      modifies this, states.Values
      decreases Troubled(site, world) + {m}, Rank(site.net.parents, m), 1, 1
      ensures Valid() && world == Engine.ConfirmParents(site, old(world), m, site.net.parents[m])
    {
      var ps := site.net.parents[m];
      ghost var was := world;
      for i := 0 to |ps|
        invariant Valid() && Troubled(site, world) <= Troubled(site, was)
        invariant Engine.ConfirmParents(site, world, m, ps[i..]) == Engine.ConfirmParents(site, was, m, ps)
      {
        var p := ps[i];
        assert ps[i..][0] == p && ps[i..][1..] == ps[i + 1..] && Edge(site.net.parents, m, p);
        if p in site.net.order {
          ConfirmParent(m, p);
        }
      }
    }

    /** The while loop of _confirm_parents. */
    method ConfirmParent(m: string, p: string)
      requires Valid() && m in site.net.order && p in site.net.order && Edge(site.net.parents, m, p)
      modifies this, states.Values
      decreases Troubled(site, world) + {m}, Rank(site.net.parents, m), 1, 0
      ensures Valid() && world == Settle(site, old(world), m, p, 0)
    {
      ghost var was := world;
      ghost var goal := Settle(site, was, m, p, 0);
      var st := states[p];
      var attempts := 0;
      while Unsettled(st.View()) && attempts < st.failuresToDown
        invariant Valid() && Troubled(site, world) <= Troubled(site, was)
        invariant Settle(site, world, m, p, attempts) == goal
        decreases st.failuresToDown - attempts
      {
        TurnTroubles(site, world, p);
        SettleStep(site, world, m, p, attempts);
        attempts := attempts + 1;
        var _ := PollOnce(p);
      }
    }

    method ReleaseChildren(m: string)
      requires Valid() && m in site.net.order && m !in Troubled(site, world)
      modifies this, states.Values
      decreases Troubled(site, world) + {m}, Rank(site.net.parents, m), 1, 1
      ensures Valid() && world == Engine.ReleaseChildren(site, old(world), m, 0)
    {
      ghost var was := world;
      ghost var goal := Engine.ReleaseChildren(site, was, m, 0);
      for i := 0 to |site.net.order|
        invariant Valid() && Troubled(site, world) <= Troubled(site, was)
        invariant Engine.ReleaseChildren(site, world, m, i) == goal
      {
        ReleaseChild(site.net.order[i], m);
      }
    }

    /** The body of the loop of _release_children. */
    method ReleaseChild(c: string, m: string)
      requires Valid() && m in site.net.order && c in site.net.order && m !in Troubled(site, world)
      modifies this, states.Values
      decreases Troubled(site, world) + {m}, Rank(site.net.parents, m), 1, 0
      ensures Valid() && world == Engine.ReleaseChild(site, old(world), c, m)
    {
      var ancestors := Ancestors(c);
      if m !in ancestors {
        return;
      }
      var cst := states[c];
      if !IsProblem(cst.state) || cst.alertOpen {
        return;
      }
      var v := PollOnce(c);
      if v == Ok || !IsProblem(cst.state) || cst.alertOpen {
        return;
      }
      if BlockingParent(site.net, States(), c).Some? {
        return;
      }
      var n := Notice(c, Transition(cst.state, cst.state), StillAfter(m));
      Notify(c, true, n);
      RecordEvent(n);
    }
  }
}
