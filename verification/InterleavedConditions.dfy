/** Exactly when no alert is lost over every interleaving: when none is lost
    run to completion. */
module InterleavedConditions {
  import opened MonitorStates
  import opened Networks
  import opened Engine
  import opened NoLostAlerts
  import opened AlertConditions
  import opened Interleavings
  import opened Behaviours
  import opened Guarantees
  import opened Replays
  import opened Debts
  import opened InterleavedAlerts

  /** No task is inside a poll. */
  predicate Idle(s: Machine) {
    forall t | t in s.stacks :: s.stacks[t] == []
  }

  // ----- Every interleaving keeps the account -----

  lemma InitAccounted(e: Site, tasks: set<Task>)
    requires Prompt(e)
    ensures Accounted(e, Init(e, tasks))
  {
  }

  lemma KindsPermit(e: Site, kinds: map<string, set<Verdict>>, s: Machine, a: Action)
    requires Shaped(e, s) && Kinds(e.net, kinds) && PlainParents(e.net, kinds) && AnswersKind(kinds, s, a)
    ensures Permitted(e, s, a)
  {
    if a.Answer? && Active(s, a.task) {
      assert s.stacks[a.task][|s.stacks[a.task]| - 1].monitor in e.net.order;
    }
  }

  /** In every state of every behaviour, every unblocked outage is alerted or owed by a task in flight. */
  lemma {:induction false} AlwaysAccounted(e: Site, max: int, kinds: map<string, set<Verdict>>, tasks: set<Task>,
                                           acts: seq<Action>, trace: seq<Machine>, i: nat)
    requires Behaviour(e, max, tasks, acts, trace) && max >= 0 && i < |trace|
    requires Kinds(e.net, kinds) && Answering(kinds, acts, trace)
    requires PromptDependents(e.net, e.recoveries) && PlainParents(e.net, kinds)
    ensures Accounted(e, trace[i])
  {
    if i == 0 {
      InitAccounted(e, tasks);
    } else {
      var j := i - 1;
      AlwaysAccounted(e, max, kinds, tasks, acts, trace, j);
      AlwaysGood(e, max, tasks, acts, trace, j);
      assert Step(e, max, trace[j], acts[j], trace[j + 1]) && AnswersKind(kinds, trace[j], acts[j]);
      KindsPermit(e, kinds, trace[j], acts[j]);
      AccountedKept(e, max, trace[j], acts[j]);
    }
  }

  lemma IdleIsAlerted(e: Site, s: Machine)
    requires Accounted(e, s) && Idle(s)
    ensures Alerted(e, s.world, {})
  {
    assert OwedIn(e, s.stacks) == {};
  }

  // ----- The theorem -----

  /** Whatever the checks answer and however the loops interleave, whenever all loops sleep every unblocked
      outage is alerted. */
  ghost predicate NeverLosesInterleaved(net: Network, failures: map<string, int>, recoveries: map<string, int>,
                                        kinds: map<string, set<Verdict>>, max: int)
    requires ValidSite(net, failures, recoveries) && Kinds(net, kinds)
  {
    forall check: (string, nat) -> Verdict, acts: seq<Action>, trace: seq<Machine>, i: nat
      | Polling(Site(net, failures, recoveries, check), max, kinds, acts, trace) && i < |trace| && Idle(trace[i])
      :: Fits(Site(net, failures, recoveries, check), trace[i].world)
         && Alerted(Site(net, failures, recoveries, check), trace[i].world, {})
  }

  lemma PlainPromptIsSafeInterleaved(net: Network, failures: map<string, int>, recoveries: map<string, int>,
                                     kinds: map<string, set<Verdict>>, max: int)
    requires ValidSite(net, failures, recoveries) && Kinds(net, kinds) && max >= 1
    requires PromptDependents(net, recoveries) && PlainParents(net, kinds)
    ensures NeverLosesInterleaved(net, failures, recoveries, kinds, max)
  {
    forall check: (string, nat) -> Verdict, acts: seq<Action>, trace: seq<Machine>, i: nat
      | Polling(Site(net, failures, recoveries, check), max, kinds, acts, trace) && i < |trace| && Idle(trace[i])
      ensures Fits(Site(net, failures, recoveries, check), trace[i].world)
      ensures Alerted(Site(net, failures, recoveries, check), trace[i].world, {})
    {
      var e := Site(net, failures, recoveries, check);
      AlwaysAccounted(e, max, kinds, Loops(net), acts, trace, i);
      IdleIsAlerted(e, trace[i]);
    }
  }

  lemma InterleavedIsSequential(net: Network, failures: map<string, int>, recoveries: map<string, int>,
                                kinds: map<string, set<Verdict>>, max: int)
    requires ValidSite(net, failures, recoveries) && Kinds(net, kinds) && max >= 1
    requires NeverLosesInterleaved(net, failures, recoveries, kinds, max)
    ensures NeverLoses(net, failures, recoveries, kinds)
  {
    forall check: (string, nat) -> Verdict, w: World
      | Answers(net, kinds, check) && Reachable(Site(net, failures, recoveries, check), w)
      ensures Fits(Site(net, failures, recoveries, check), w)
      ensures Alerted(Site(net, failures, recoveries, check), w, {})
    {
      var e := Site(net, failures, recoveries, check);
      var polls :| IsRun(e, polls, w);
      RunReached(e, max, polls);
      var acts, trace := ReachedIsBehaviour(e, max, kinds, Asleep(e, w));
      assert Idle(trace[|trace| - 1]);
    }
  }

  /**
   * However the loops interleave, no alert is lost exactly under the condition under
   * which none is lost run to completion.
   */
  lemma NoLostAlertInterleaved(net: Network, failures: map<string, int>, recoveries: map<string, int>,
                               kinds: map<string, set<Verdict>>, max: int)
    requires ValidSite(net, failures, recoveries) && Kinds(net, kinds) && max >= 1
    ensures NeverLosesInterleaved(net, failures, recoveries, kinds, max)
            <==> PromptDependents(net, recoveries) && PlainParents(net, kinds)
  {
    if PromptDependents(net, recoveries) && PlainParents(net, kinds) {
      PlainPromptIsSafeInterleaved(net, failures, recoveries, kinds, max);
    } else {
      NoLostAlertExactly(net, failures, recoveries, kinds);
      if NeverLosesInterleaved(net, failures, recoveries, kinds, max) {
        InterleavedIsSequential(net, failures, recoveries, kinds, max);
      }
    }
  }
}
