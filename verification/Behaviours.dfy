/** Properties of every reachable state of the interleaved scheduler. */
module Behaviours {
  import opened Wrappers
  import opened MonitorStates
  import opened Networks
  import opened Engine
  import opened Logbooks
  import opened Interleavings
  import opened Discipline

  function Init(e: Site, tasks: set<Task>): Machine
    requires e.Valid()
  {
    Machine(Start(e), map t | t in tasks :: [], map[], {}, None)
  }

  ghost predicate Step(e: Site, max: int, s: Machine, a: Action, s': Machine) {
    Shaped(e, s) && Enabled(e, max, s, a) && s' == Apply(e, max, s, a)
  }

  ghost predicate Behaviour(e: Site, max: int, tasks: set<Task>, acts: seq<Action>, trace: seq<Machine>) {
    && e.Valid() && |trace| == |acts| + 1
    && trace[0] == Init(e, tasks)
    && forall i | 0 <= i < |acts| :: Step(e, max, trace[i], acts[i], trace[i + 1])
  }

  /** The scheduler starts one loop for each enabled monitor: task t polls the t-th. */
  predicate LoopOf(net: Network, t: Task, m: string) {
    t < |net.order| && net.order[t] == m
  }

  function Loops(net: Network): set<Task> {
    set t | 0 <= t < |net.order| && LoopOf(net, t, net.order[t])
  }

  predicate OwnLoop(net: Network, a: Action) {
    a.Wake? ==> LoopOf(net, a.task, a.monitor)
  }

  // ---------------------------------------------------- rows and lock discipline

  /** The result that is recorded for `m` but not observed yet. */
  function Unobserved(stacks: map<Task, Stack>, held: map<string, Task>, m: string): Option<Verdict> {
    if m in held && held[m] in stacks && stacks[held[m]] != [] && Top(stacks[held[m]]).stage.Written?
    then Some(Top(stacks[held[m]]).stage.verdict) else None
  }

  function CaughtUp(s: Status, v: Option<Verdict>): Status {
    var c := s.(alertOpen := false);
    if v.Some? then After(c, v.value) else c
  }

  ghost predicate Faithful(e: Site, s: Machine)
    requires Shaped(e, s)
  {
    forall m | m in e.net.order ::
      Recorded(e, s.world.rows, m) == CaughtUp(s.world.states[m], Unobserved(s.stacks, s.held, m))
  }

  /** No row is written, no counter changes, nothing is observed. */
  lemma FaithfulSame(e: Site, s: Machine, s': Machine)
    requires Shaped(e, s) && Shaped(e, s') && Faithful(e, s)
    requires s'.world.rows == s.world.rows
    requires forall m | m in e.net.order ::
               s'.world.states[m].(alertOpen := false) == s.world.states[m].(alertOpen := false)
    requires forall m | m in e.net.order ::
               Unobserved(s'.stacks, s'.held, m) == Unobserved(s.stacks, s.held, m)
    ensures Faithful(e, s')
  {
  }

  lemma UnobservedSame(stacks: map<Task, Stack>, held: map<string, Task>, held': map<string, Task>,
                       t: Task, k: Stack, m: string)
    requires t in stacks && Locked(stacks, held)
    requires stacks[t] == [] || !Top(stacks[t]).stage.Written?
    requires k == [] || !Top(k).stage.Written?
    requires held' == held || exists n | n !in held :: held' == held[n := t]
    ensures Unobserved(stacks[t := k], held', m) == Unobserved(stacks, held, m)
  {
  }

  /** Counters and rows stay, and nothing becomes or stops being written. */
  ghost predicate Gentle(s: Machine, s': Machine, t: Task) {
    && SameCounters(s.world, s'.world)
    && t in s.stacks && t in s'.stacks && s'.stacks == s.stacks[t := s'.stacks[t]]
    && NotWritten(s.stacks[t]) && NotWritten(s'.stacks[t])
  }

  ghost predicate SameCounters(w: World, w': World) {
    && w'.rows == w.rows && w'.states.Keys == w.states.Keys
    && forall m | m in w.states :: w'.states[m].(alertOpen := false) == w.states[m].(alertOpen := false)
  }

  predicate NotWritten(k: Stack) {
    k == [] || !Top(k).stage.Written?
  }

  lemma AlertCounters(w: World, m: string, open: bool, n: Notice)
    requires m in w.states
    ensures SameCounters(w, Alert(w, m, open, n))
  {
  }

  lemma TopOfSetTop(k: Stack, g: Stage)
    requires k != []
    ensures SetTop(k, g) != [] && Top(SetTop(k, g)).stage == g
  {
  }

  lemma GotoGentle(s: Machine, s': Machine, t: Task, g: Stage)
    requires Active(s, t) && NotWritten(s.stacks[t]) && !g.Written? && SameCounters(s.world, s'.world)
    requires s'.stacks == s.stacks[t := SetTop(s.stacks[t], g)]
    ensures Gentle(s, s', t)
  {
    TopOfSetTop(s.stacks[t], g);
  }

  lemma CallGentle(s: Machine, t: Task, g: Stage, p: string)
    requires Active(s, t) && NotWritten(s.stacks[t])
    ensures Gentle(s, Call(s, t, SetTop(s.stacks[t], g), p), t)
  {
  }

  lemma SettledGentle(s: Machine, t: Task, m: string, tr: Transition, v: Verdict, blocker: Option<string>)
    requires Active(s, t) && m in s.world.states && NotWritten(s.stacks[t])
    ensures Gentle(s, Settled(s, t, m, tr, v, blocker), t)
    ensures Settled(s, t, m, tr, v, blocker).held == s.held
  {
    AlertCounters(s.world, m, true, Notice(m, tr, Plain));
    GotoGentle(s, Settled(s, t, m, tr, v, blocker), t,
               Logging(tr, v, if blocker.Some? then SuppressedBy(blocker.value) else Plain));
  }

  lemma DecidingGentle(e: Site, s: Machine, t: Task)
    requires Shaped(e, s) && Active(s, t) && Top(s.stacks[t]).stage.Deciding?
    ensures Gentle(s, ApplyContinue(e, s, t), t) && ApplyContinue(e, s, t).held == s.held
  {
    var m, tr, v := Top(s.stacks[t]).monitor, Top(s.stacks[t]).stage.change, Top(s.stacks[t]).stage.verdict;
    var s' := ApplyContinue(e, s, t);
    if IsProblem(tr.current) {
      var blocker := BlockingParent(e.net, s.world.states, m);
      if blocker.None? && e.net.parents[m] != [] {
        GotoGentle(s, s', t, Confirming(tr, v, e.net.parents[m], 0));
      } else {
        SettledGentle(s, t, m, tr, v, blocker);
      }
    } else {
      AlertCounters(s.world, m, false, Notice(m, tr, Plain));
      GotoGentle(s, s', t, Logging(tr, v, Plain));
    }
  }

  lemma ConfirmingGentle(e: Site, s: Machine, t: Task)
    requires Shaped(e, s) && Active(s, t) && Top(s.stacks[t]).stage.Confirming?
    ensures Gentle(s, ApplyContinue(e, s, t), t) && ApplyContinue(e, s, t).held == s.held
  {
    var m, g := Top(s.stacks[t]).monitor, Top(s.stacks[t]).stage;
    var s' := ApplyContinue(e, s, t);
    if g.todo == [] {
      SettledGentle(s, t, m, g.change, g.verdict, BlockingParent(e.net, s.world.states, m));
    } else if g.todo[0] in e.net.order && Unsettled(s.world.states[g.todo[0]]) && g.attempts < e.failures[g.todo[0]] {
      CallGentle(s, t, Confirming(g.change, g.verdict, g.todo, g.attempts + 1), g.todo[0]);
    } else {
      GotoGentle(s, s', t, Confirming(g.change, g.verdict, g.todo[1..], 0));
    }
  }

  lemma ReleasingGentle(e: Site, s: Machine, t: Task)
    requires Shaped(e, s) && Active(s, t) && Top(s.stacks[t]).stage.Releasing?
    ensures Gentle(s, ApplyContinue(e, s, t), t) && ApplyContinue(e, s, t).held == s.held
  {
    var m, g := Top(s.stacks[t]).monitor, Top(s.stacks[t]).stage;
    assert TodoOk(e, m, g);
    var s' := ApplyContinue(e, s, t);
    if g.todo == [] {
      GotoGentle(s, s', t, Returning(g.verdict));
    } else if Releasable(e, s.world, g.todo[0], m) {
      CallGentle(s, t, AwaitChild(g.verdict, g.todo), g.todo[0]);
    } else {
      GotoGentle(s, s', t, Releasing(g.verdict, g.todo[1..]));
    }
  }

  lemma CheckingGentle(e: Site, s: Machine, t: Task)
    requires Shaped(e, s) && Active(s, t) && Top(s.stacks[t]).stage.Checking?
    ensures Gentle(s, ApplyContinue(e, s, t), t) && ApplyContinue(e, s, t).held == s.held
  {
    var m, g := Top(s.stacks[t]).monitor, Top(s.stacks[t]).stage;
    assert TodoOk(e, m, g);
    var s', c := ApplyContinue(e, s, t), g.todo[0];
    if StillAlone(e, s.world, c, g.child) {
      var n := Notice(c, Transition(s.world.states[c].state, s.world.states[c].state), StillAfter(m));
      AlertCounters(s.world, c, true, n);
      GotoGentle(s, s', t, LoggingStill(g.verdict, g.todo, n));
    } else {
      GotoGentle(s, s', t, Releasing(g.verdict, g.todo[1..]));
    }
  }

  lemma ReturnGentle(e: Site, s: Machine, t: Task)
    requires Shaped(e, s) && Active(s, t) && Top(s.stacks[t]).stage.Returning?
    ensures Gentle(s, ApplyContinue(e, s, t), t) && ApplyContinue(e, s, t).held == s.held
  {
    PopOk(e, s.stacks[t], Top(s.stacks[t]).stage.verdict);
  }

  lemma SuspendedGentle(e: Site, max: int, s: Machine, a: Action)
    requires Shaped(e, s) && Enabled(e, max, s, a) && (a.Wake? || a.TakeLock? || a.TakeSem? || a.Answer? || a.Logged?)
    ensures Gentle(s, Apply(e, max, s, a), a.task)
    ensures Apply(e, max, s, a).held == s.held ||
            exists n | n !in s.held :: Apply(e, max, s, a).held == s.held[n := a.task]
  {
    if !a.Wake? {
      assert TodoOk(e, Top(s.stacks[a.task]).monitor, Top(s.stacks[a.task]).stage);
      forall h
        ensures Top(SetTop(s.stacks[a.task], h)).stage == h
      {
        TopOfSetTop(s.stacks[a.task], h);
      }
    }
  }

  lemma GentleStep(e: Site, max: int, s: Machine, a: Action)
    requires Shaped(e, s) && Enabled(e, max, s, a) && !a.WriteRow? && !a.Resume?
    ensures Gentle(s, Apply(e, max, s, a), a.task)
    ensures Apply(e, max, s, a).held == s.held ||
            exists n | n !in s.held :: Apply(e, max, s, a).held == s.held[n := a.task]
  {
    match a {
      case Continue(t) =>
        match Top(s.stacks[t]).stage {
          case Deciding(_, _) => DecidingGentle(e, s, t);
          case Confirming(_, _, _, _) => ConfirmingGentle(e, s, t);
          case Releasing(_, _) => ReleasingGentle(e, s, t);
          case Checking(_, _, _) => CheckingGentle(e, s, t);
          case Returning(_) => ReturnGentle(e, s, t);
        }
      case _ => SuspendedGentle(e, max, s, a);
    }
  }

  lemma FaithfulGentle(e: Site, s: Machine, s': Machine, t: Task)
    requires Shaped(e, s) && Shaped(e, s') && Locked(s.stacks, s.held) && Faithful(e, s)
    requires Gentle(s, s', t)
    requires s'.held == s.held || exists n | n !in s.held :: s'.held == s.held[n := t]
    ensures Faithful(e, s')
  {
    forall m | m in e.net.order
      ensures Unobserved(s'.stacks, s'.held, m) == Unobserved(s.stacks, s.held, m)
    {
      UnobservedSame(s.stacks, s.held, s'.held, t, s'.stacks[t], m);
    }
    FaithfulSame(e, s, s');
  }

  lemma FaithfulRow(e: Site, s: Machine, s': Machine, t: Task, m: string, v: Verdict)
    requires Shaped(e, s) && Shaped(e, s') && Locked(s.stacks, s.held) && Faithful(e, s)
    requires Active(s, t) && Top(s.stacks[t]) == Activation(m, Writing(v))
    requires s'.stacks == s.stacks[t := SetTop(s.stacks[t], Written(v))] && s'.held == s.held
    requires s'.world == s.world.(rows := s.world.rows + [Row(m, v)])
    ensures Faithful(e, s')
  {
    assert Holding(s.stacks[t]) == Some(m);
    TopOfSetTop(s.stacks[t], Written(v));
    forall n | n in e.net.order
      ensures Recorded(e, s'.world.rows, n) == CaughtUp(s'.world.states[n], Unobserved(s'.stacks, s'.held, n))
    {
      RecordedStep(e, s.world.rows, Row(m, v), n);
      if n != m {
        UnobservedOther(s.stacks, s.held, t, s'.stacks[t], m, n);
      }
    }
  }

  lemma UnobservedOther(stacks: map<Task, Stack>, held: map<string, Task>, t: Task, k: Stack, m: string, n: string)
    requires t in stacks && Locked(stacks, held) && Holding(stacks[t]) == Some(m) && n != m
    ensures Unobserved(stacks[t := k], held, n) == Unobserved(stacks, held, n)
    ensures Unobserved(stacks[t := k], held - {m}, n) == Unobserved(stacks, held, n)
  {
  }

  lemma AfterIgnoresAlert(s: Status, v: Verdict)
    ensures After(s, v).(alertOpen := false) == After(s.(alertOpen := false), v)
  {
  }

  lemma FaithfulObserve(e: Site, s: Machine, s': Machine, t: Task, m: string, v: Verdict)
    requires Shaped(e, s) && Shaped(e, s') && Locked(s.stacks, s.held) && Faithful(e, s)
    requires Active(s, t) && Top(s.stacks[t]) == Activation(m, Written(v)) && m in s.world.states
    requires t in s'.stacks && s'.stacks == s.stacks[t := s'.stacks[t]]
    requires s'.held == s.held - {m}
    requires s'.world == s.world.(states := s.world.states[m := After(s.world.states[m], v)])
    ensures Faithful(e, s')
  {
    assert Holding(s.stacks[t]) == Some(m);
    AfterIgnoresAlert(s.world.states[m], v);
    forall n | n in e.net.order
      ensures Recorded(e, s'.world.rows, n) == CaughtUp(s'.world.states[n], Unobserved(s'.stacks, s'.held, n))
    {
      if n != m {
        UnobservedOther(s.stacks, s.held, t, s'.stacks[t], m, n);
      }
    }
  }

  lemma FaithfulKept(e: Site, max: int, s: Machine, a: Action)
    requires Disciplined(e, max, s) && Enabled(e, max, s, a) && Faithful(e, s)
    ensures Shaped(e, Apply(e, max, s, a)) && Faithful(e, Apply(e, max, s, a))
  {
    var s' := Apply(e, max, s, a);
    StepKeeps(e, max, s, a);
    if a.WriteRow? {
      FaithfulRow(e, s, s', a.task, Top(s.stacks[a.task]).monitor, Top(s.stacks[a.task]).stage.verdict);
    } else if a.Resume? {
      FaithfulObserve(e, s, s', a.task, Top(s.stacks[a.task]).monitor, Top(s.stacks[a.task]).stage.verdict);
    } else {
      GentleStep(e, max, s, a);
      FaithfulGentle(e, s, s', a.task);
    }
  }
}
