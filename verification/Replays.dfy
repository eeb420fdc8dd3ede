/** Every run to completion is a behaviour of the scheduler's loops, and what the
    machine reaches is reached by one. */
module Replays {
  import opened Wrappers
  import opened MonitorStates
  import opened Networks
  import opened Engine
  import opened AlertConditions
  import opened Interleavings
  import opened Discipline
  import opened Behaviours
  import opened SequentialRuns

  ghost predicate AnswersKind(kinds: map<string, set<Verdict>>, s: Machine, a: Action) {
    a.Answer? && Active(s, a.task) ==>
      var m := Top(s.stacks[a.task]).monitor;
      m in kinds && a.verdict in kinds[m]
  }

  /** Every check answers with one of its kinds. */
  ghost predicate Answering(kinds: map<string, set<Verdict>>, acts: seq<Action>, trace: seq<Machine>)
    requires |trace| == |acts| + 1
  {
    forall i | 0 <= i < |acts| :: AnswersKind(kinds, trace[i], acts[i])
  }

  /** A behaviour of the scheduler: one loop for each enabled monitor, and checks that answer with their kinds. */
  ghost predicate Polling(e: Site, max: int, kinds: map<string, set<Verdict>>, acts: seq<Action>, trace: seq<Machine>) {
    && Behaviour(e, max, Loops(e.net), acts, trace)
    && Answering(kinds, acts, trace)
    && forall i | 0 <= i < |acts| :: OwnLoop(e.net, acts[i])
  }

  ghost predicate Joined(rel: (Machine, Action, Machine) -> bool, s: Machine, u: Machine) {
    exists a :: rel(s, a, u)
  }

  /** The actions between the states of a path. */
  lemma {:induction false} Labels(trace: seq<Machine>, rel: (Machine, Action, Machine) -> bool)
    returns (acts: seq<Action>)
    requires trace != [] && forall i | 0 <= i < |trace| - 1 :: Joined(rel, trace[i], trace[i + 1])
    ensures |trace| == |acts| + 1 && forall i | 0 <= i < |acts| :: rel(trace[i], acts[i], trace[i + 1])
  {
    if |trace| == 1 {
      acts := [];
    } else {
      var n := |trace| - 1;
      acts := Labels(trace[..n], rel);
      var i := n - 1;
      assert Joined(rel, trace[i], trace[i + 1]);
      var a :| rel(trace[i], a, trace[i + 1]);
      acts := acts + [a];
    }
  }

  lemma ActsOf(e: Site, max: int, trace: seq<Machine>) returns (acts: seq<Action>)
    requires Path(e, max, trace)
    ensures |trace| == |acts| + 1
    ensures forall i | 0 <= i < |acts| :: Step(e, max, trace[i], acts[i], trace[i + 1]) && Heeds(e, trace[i], acts[i])
  {
    var rel := (s: Machine, a: Action, u: Machine) => Step(e, max, s, a, u) && Heeds(e, s, a);
    forall i | 0 <= i < |trace| - 1
      ensures Joined(rel, trace[i], trace[i + 1])
    {
      PathStep(e, max, trace, i);
      var a :| Step(e, max, trace[i], a, trace[i + 1]) && Heeds(e, trace[i], a);
      assert rel(trace[i], a, trace[i + 1]);
    }
    acts := Labels(trace, rel);
    forall i | 0 <= i < |acts|
      ensures Step(e, max, trace[i], acts[i], trace[i + 1]) && Heeds(e, trace[i], acts[i])
    {
      assert rel(trace[i], acts[i], trace[i + 1]);
    }
  }

  lemma HeedsKinds(e: Site, kinds: map<string, set<Verdict>>, s: Machine, a: Action)
    requires Shaped(e, s) && Kinds(e.net, kinds) && Answers(e.net, kinds, e.check) && Heeds(e, s, a)
    ensures AnswersKind(kinds, s, a)
  {
    if a.Answer? && Active(s, a.task) {
      assert s.stacks[a.task][|s.stacks[a.task]| - 1].monitor in e.net.order;
    }
  }

  lemma InitWith(e: Site, max: int, w: World)
    requires e.Valid() && Fits(e, w) && max >= 0
    ensures Disciplined(e, max, Asleep(e, w))
  {
  }

  /** All loops sleep and the world is w. */
  function Asleep(e: Site, w: World): Machine {
    Machine(w, map t | t in Loops(e.net) :: [], map[], {}, None)
  }

  lemma LoopFor(net: Network, m: string) returns (t: Task)
    requires m in net.order
    ensures LoopOf(net, t, m) && t in Loops(net)
  {
    t :| 0 <= t < |net.order| && net.order[t] == m;
  }

  lemma PollReached(e: Site, max: int, w: World, m: string)
    requires e.Valid() && max >= 1 && Fits(e, w) && m in e.net.order
    ensures Reaches(e, max, Asleep(e, w), Asleep(e, Poll(e, w, m).0))
  {
    var t := LoopFor(e.net, m);
    InitWith(e, max, w);
    MachineRunsPoll(e, max, Asleep(e, w), t, m);
    assert Asleep(e, w).(world := Poll(e, w, m).0) == Asleep(e, Poll(e, w, m).0);
  }

  lemma {:induction false} RunReached(e: Site, max: int, polls: seq<string>)
    requires e.Valid() && max >= 1 && forall m | m in polls :: m in e.net.order
    ensures Reaches(e, max, Init(e, Loops(e.net)), Asleep(e, Run(e, Start(e), polls)))
  {
    if polls == [] {
      assert Init(e, Loops(e.net)) == Asleep(e, Start(e));
      ReachesHere(e, max, Init(e, Loops(e.net)));
    } else {
      var n := |polls| - 1;
      var w := Run(e, Start(e), polls[..n]);
      RunReached(e, max, polls[..n]);
      PollReached(e, max, w, polls[n]);
      ReachesFurther(e, max, Init(e, Loops(e.net)), Asleep(e, w), Asleep(e, Poll(e, w, polls[n]).0));
    }
  }

  /** What the machine reaches with the answers of the site, a behaviour of the scheduler's loops reaches. */
  lemma ReachedIsBehaviour(e: Site, max: int, kinds: map<string, set<Verdict>>, u: Machine)
    returns (acts: seq<Action>, trace: seq<Machine>)
    requires e.Valid() && Reaches(e, max, Init(e, Loops(e.net)), u)
    requires Kinds(e.net, kinds) && Answers(e.net, kinds, e.check)
    ensures Polling(e, max, kinds, acts, trace) && trace[|trace| - 1] == u
  {
    trace :| Path(e, max, trace) && trace[0] == Init(e, Loops(e.net)) && trace[|trace| - 1] == u;
    acts := ActsOf(e, max, trace);
    forall i | 0 <= i < |acts|
      ensures AnswersKind(kinds, trace[i], acts[i]) && OwnLoop(e.net, acts[i])
    {
      assert Step(e, max, trace[i], acts[i], trace[i + 1]);
      HeedsKinds(e, kinds, trace[i], acts[i]);
    }
  }
}
