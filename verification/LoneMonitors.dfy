/** Without dependencies, one outage is alerted once over every interleaving: a
    decision is made in the same breath as the observation it follows from. */
module LoneMonitors {
  import opened Wrappers
  import opened Graphs
  import opened MonitorStates
  import opened Networks
  import opened Engine
  import opened AlertConditions
  import opened Logbooks
  import opened Interleavings
  import opened Discipline
  import opened Behaviours
  import opened Notifications
  import opened Guarantees

  lemma LoneUnblocked(net: Network, st: States, m: string)
    requires net.Valid() && Covers(net, st) && m in net.order && NoDependents(net)
    ensures !Blocked(net, st, m)
  {
    BlockedStep(net, st, m);
  }

  lemma LoneHasNoChain(net: Network, c: string, d: seq<string>)
    requires c in net.order && NoDependents(net)
    ensures !AncestorChain(net, c, d)
  {
    if d != [] {
      assert d[0] in d;
    }
  }

  lemma LoneIsNoAncestor(net: Network, m: string, c: string)
    requires c in net.order && NoDependents(net)
    ensures !IsAncestor(net, m, c)
  {
    forall d
      ensures !AncestorChain(net, c, d)
    {
      LoneHasNoChain(net, c, d);
    }
  }

  /** A task polls one monitor and calls nobody. */
  ghost predicate Lone(k: Stack) {
    k != [] ==>
      var g := Top(k).stage;
      && |k| == 1 && !g.AwaitChild? && !g.Checking? && !g.LoggingStill?
      && (g.Writing? || g.Written? ==> g.verdict != Warn)
  }

  /** The stage at which the running task has m, if it is about m. */
  function StageOf(s: Machine, m: string): Option<Stage> {
    if s.running.Some? && Active(s, s.running.value) && Top(s.stacks[s.running.value]).monitor == m
    then Some(Top(s.stacks[s.running.value]).stage) else None
  }

  /** An alert is open only while its monitor is down, up to a decision being made right now. */
  ghost predicate OnceAt(st: Status, g: Option<Stage>) {
    && st.bad == st.warnish >= 0 && st.good >= 0 && st.state != Warning
    && match g
       case Some(Deciding(tr, _)) =>
         st.state == tr.current && tr.current in {Down, Up} && (tr.current == Down ==> !st.alertOpen)
       case Some(Confirming(tr, _, _, _)) => st.state == tr.current == Down && !st.alertOpen
       case _ => st.alertOpen ==> st.state == Down
  }

  ghost predicate OnceEverywhere(e: Site, s: Machine) {
    forall m | m in e.net.order ::
      m in s.world.states && OnceAt(s.world.states[m], StageOf(s, m)) && NoRepeat(SentTo(s.world.sent, m))
  }

  ghost predicate Separate(e: Site, s: Machine) {
    OnceEverywhere(e, s) && forall t | t in s.stacks :: Lone(s.stacks[t])
  }

  // ----- One task moves -----

  /** Whose decision it is does not matter once it is made. */
  predicate Undecided(g: Stage) {
    !g.Deciding? && !g.Confirming?
  }

  lemma OnceObserved(st: Status, v: Verdict)
    requires OnceAt(st, None) && v != Warn
    ensures var g := match Change(st, v) case None => Returning(v) case Some(tr) => Deciding(tr, v);
            OnceAt(After(st, v), Some(g))
  {
  }

  ghost predicate MovesTo(s: Machine, s': Machine, t: Task, k: Stack) {
    t in s.stacks && s'.stacks == s.stacks[t := k] && Lone(k)
  }

  lemma LoneKept(s: Machine, s': Machine, t: Task, k: Stack)
    requires MovesTo(s, s', t, k) && forall u | u in s.stacks :: Lone(s.stacks[u])
    ensures forall u | u in s'.stacks :: Lone(s'.stacks[u])
  {
  }

  /** Only the status and the log of m change, and only t may be about m. */
  ghost predicate OnlyAbout(e: Site, s: Machine, s': Machine, t: Task, m: string) {
    && (s.running.None? || s.running == Some(t)) && (s'.running.None? || s'.running == Some(t))
    && (Active(s, t) ==> Top(s.stacks[t]).monitor == m) && (Active(s', t) ==> Top(s'.stacks[t]).monitor == m)
    && (forall x | x in e.net.order && x != m ::
          && x in s.world.states && x in s'.world.states && s'.world.states[x] == s.world.states[x]
          && SentTo(s'.world.sent, x) == SentTo(s.world.sent, x))
  }

  lemma OwnMove(e: Site, s: Machine, s': Machine, t: Task, k: Stack, m: string)
    requires Separate(e, s) && MovesTo(s, s', t, k) && OnlyAbout(e, s, s', t, m) && m in s'.world.states
    requires OnceAt(s'.world.states[m], StageOf(s', m)) && NoRepeat(SentTo(s'.world.sent, m))
    ensures Separate(e, s')
  {
    LoneKept(s, s', t, k);
    forall x | x in e.net.order && x != m
      ensures OnceAt(s'.world.states[x], StageOf(s', x))
    {
      assert OnceAt(s.world.states[x], StageOf(s, x));
    }
  }

  /** Another stage of the same poll, with the same statuses and logs. */
  lemma GotoOnce(e: Site, s: Machine, s': Machine, t: Task, m: string, g: Stage)
    requires Separate(e, s) && Active(s, t) && Top(s.stacks[t]).monitor == m && m in e.net.order
    requires s.running.None? || s.running == Some(t)
    requires s'.stacks == s.stacks[t := SetTop(s.stacks[t], g)] && (s'.running.None? || s'.running == Some(t))
    requires s'.world.states == s.world.states && s'.world.sent == s.world.sent
    requires Undecided(g) && !g.AwaitChild? && !g.Checking? && !g.LoggingStill?
    requires g.Writing? || g.Written? ==> g.verdict != Warn
    requires OnceAt(s.world.states[m], None)
    ensures Separate(e, s')
  {
    assert Lone(s.stacks[t]);
    TopOfSetTop(s.stacks[t], g);
    assert OnceAt(s.world.states[m], StageOf(s', m));
    OwnMove(e, s, s', t, SetTop(s.stacks[t], g), m);
  }

  lemma AtRest(e: Site, s: Machine, m: string)
    requires Separate(e, s) && m in e.net.order && (s.running.None? || StageOf(s, m) == None)
    ensures m in s.world.states && OnceAt(s.world.states[m], None) && NoRepeat(SentTo(s.world.sent, m))
  {
  }

  lemma WakeOnce(e: Site, s: Machine, t: Task, m: string)
    requires Separate(e, s) && s.running.None? && t in s.stacks && s.stacks[t] == [] && m in e.net.order
    ensures Separate(e, Call(s, t, [], m))
  {
    AtRest(e, s, m);
    OwnMove(e, s, Call(s, t, [], m), t, [] + [Activation(m, WaitLock)], m);
  }

  /** A row is written, perhaps while another task runs. */
  lemma RowOnce(e: Site, max: int, s: Machine, s': Machine, t: Task, v: Verdict)
    requires Disciplined(e, max, s) && Separate(e, s) && Active(s, t) && Top(s.stacks[t]).stage == Writing(v)
    requires s'.stacks == s.stacks[t := SetTop(s.stacks[t], Written(v))] && s'.running == s.running
    requires s'.world.states == s.world.states && s'.world.sent == s.world.sent
    ensures Separate(e, s')
  {
    assert Lone(s.stacks[t]) && !Live(s.stacks[t]);
    TopOfSetTop(s.stacks[t], Written(v));
    LoneKept(s, s', t, SetTop(s.stacks[t], Written(v)));
    forall x | x in e.net.order
      ensures OnceAt(s'.world.states[x], StageOf(s', x))
    {
      assert StageOf(s', x) == StageOf(s, x);
    }
  }

  lemma ResumeOnce(e: Site, s: Machine, t: Task, m: string, v: Verdict)
    requires Separate(e, s) && s.running.None? && Active(s, t) && Top(s.stacks[t]) == Activation(m, Written(v))
    requires m in e.net.order && m in s.world.states
    ensures Separate(e, Observed(s, t, m, v))
  {
    var g := match Change(s.world.states[m], v) case None => Returning(v) case Some(tr) => Deciding(tr, v);
    assert Lone(s.stacks[t]);
    AtRest(e, s, m);
    OnceObserved(s.world.states[m], v);
    TopOfSetTop(s.stacks[t], g);
    OwnMove(e, s, Observed(s, t, m, v), t, SetTop(s.stacks[t], g), m);
  }

  lemma LoggedOnce(e: Site, s: Machine, t: Task, m: string, tr: Transition, v: Verdict, note: Note)
    requires Separate(e, s) && s.running.None? && Active(s, t) && m in e.net.order
    requires Top(s.stacks[t]) == Activation(m, Logging(tr, v, note))
    ensures Separate(e, ApplyLogged(e, s, t))
  {
    AtRest(e, s, m);
    GotoOnce(e, s, ApplyLogged(e, s, t), t, m, if tr.current == Up then Releasing(v, e.net.order) else Returning(v));
  }

  // ----- The running task -----

  /** The alert log of m and its flag change together. */
  lemma OneSent(sent: seq<Notice>, n: Notice, x: string)
    ensures n.slug != x ==> SentTo(sent + [n], x) == SentTo(sent, x)
    ensures n.slug == x ==> SentTo(sent + [n], x) == SentTo(sent, x) + [n.change.current]
  {
    SentStep(sent, n, x);
  }

  /** An outage is alerted, or recovery announced; either way it is logged next. */
  lemma SendOnce(e: Site, s: Machine, s': Machine, t: Task, m: string, open: bool, tr: Transition, v: Verdict)
    requires Separate(e, s) && s.running == Some(t) && Active(s, t) && Top(s.stacks[t]).monitor == m && m in e.net.order
    requires m in s.world.states && Announced(e, s) && tr.current in {Down, Up} && open == (tr.current == Down)
    requires s.world.states[m].state == tr.current && s.world.states[m].alertOpen == !open
    requires s'.stacks == s.stacks[t := SetTop(s.stacks[t], Logging(tr, v, Plain))] && s'.running.None?
    requires s'.world == Alert(s.world, m, open, Notice(m, tr, Plain))
    ensures Separate(e, s')
  {
    assert Lone(s.stacks[t]) && FlagOk(s.world.states[m], SentTo(s.world.sent, m));
    TopOfSetTop(s.stacks[t], Logging(tr, v, Plain));
    NoRepeatStep(SentTo(s.world.sent, m), tr.current);
    forall x
      ensures SentTo(s'.world.sent, x) == SentTo(s.world.sent, x) + if x == m then [tr.current] else []
    {
      OneSent(s.world.sent, Notice(m, tr, Plain), x);
    }
    OwnMove(e, s, s', t, SetTop(s.stacks[t], Logging(tr, v, Plain)), m);
  }

  lemma OwnDecision(e: Site, s: Machine, t: Task, m: string, g: Stage)
    requires Separate(e, s) && s.running == Some(t) && Active(s, t) && Top(s.stacks[t]) == Activation(m, g)
    requires m in e.net.order
    ensures m in s.world.states && OnceAt(s.world.states[m], Some(g)) && Lone(s.stacks[t])
    ensures Undecided(g) ==> OnceAt(s.world.states[m], None)
  {
    assert StageOf(s, m) == Some(g);
  }

  lemma ConfirmingMove(e: Site, s: Machine, s': Machine, t: Task, m: string, g: Stage, h: Stage)
    requires Separate(e, s) && s.running == s'.running == Some(t) && Active(s, t) && m in e.net.order
    requires Top(s.stacks[t]) == Activation(m, g) && h.Confirming? && h.change.current == Down
    requires (g.Deciding? && g.change == h.change) || (g.Confirming? && g.change == h.change)
    requires s'.stacks == s.stacks[t := SetTop(s.stacks[t], h)] && s'.world == s.world
    ensures Separate(e, s')
  {
    OwnDecision(e, s, t, m, g);
    TopOfSetTop(s.stacks[t], h);
    OwnMove(e, s, s', t, SetTop(s.stacks[t], h), m);
  }

  lemma DecidingOnce(e: Site, s: Machine, t: Task, m: string, tr: Transition, v: Verdict)
    requires Shaped(e, s) && Separate(e, s) && Announced(e, s) && s.running == Some(t) && Active(s, t)
    requires Top(s.stacks[t]) == Activation(m, Deciding(tr, v)) && m in e.net.order && NoDependents(e.net)
    ensures Separate(e, OnDeciding(e, s, t, m, tr, v))
  {
    var s' := OnDeciding(e, s, t, m, tr, v);
    OwnDecision(e, s, t, m, Deciding(tr, v));
    LoneUnblocked(e.net, s.world.states, m);
    if tr.current == Down {
      if e.net.parents[m] != [] {
        ConfirmingMove(e, s, s', t, m, Deciding(tr, v), Confirming(tr, v, e.net.parents[m], 0));
      } else {
        SendOnce(e, s, s', t, m, true, tr, v);
      }
    } else if s.world.states[m].alertOpen {
      SendOnce(e, s, s', t, m, false, tr, v);
    } else {
      GotoOnce(e, s, s', t, m, Logging(tr, v, Plain));
    }
  }

  lemma ConfirmingOnce(e: Site, s: Machine, t: Task, m: string, g: Stage)
    requires Shaped(e, s) && Separate(e, s) && Announced(e, s) && s.running == Some(t) && Active(s, t)
    requires Top(s.stacks[t]) == Activation(m, g) && g.Confirming? && TodoOk(e, m, g)
    requires m in e.net.order && NoDependents(e.net)
    ensures Separate(e, OnConfirming(e, s, t, m, g.change, g.verdict, g.todo, g.attempts))
  {
    var s' := OnConfirming(e, s, t, m, g.change, g.verdict, g.todo, g.attempts);
    OwnDecision(e, s, t, m, g);
    if g.todo == [] {
      LoneUnblocked(e.net, s.world.states, m);
      SendOnce(e, s, s', t, m, true, g.change, g.verdict);
    } else {
      assert Edge(e.net.parents, m, g.todo[0]);
      ConfirmingMove(e, s, s', t, m, g, Confirming(g.change, g.verdict, g.todo[1..], 0));
    }
  }

  lemma ReleasingOnce(e: Site, s: Machine, t: Task, m: string, v: Verdict, todo: seq<string>)
    requires Shaped(e, s) && Separate(e, s) && s.running == Some(t) && Active(s, t)
    requires Top(s.stacks[t]) == Activation(m, Releasing(v, todo)) && TodoOk(e, m, Releasing(v, todo))
    requires m in e.net.order && NoDependents(e.net)
    ensures Separate(e, OnReleasing(e, s, t, m, v, todo))
  {
    OwnDecision(e, s, t, m, Releasing(v, todo));
    if todo == [] {
      GotoOnce(e, s, OnReleasing(e, s, t, m, v, todo), t, m, Returning(v));
    } else {
      LoneIsNoAncestor(e.net, m, todo[0]);
      GotoOnce(e, s, OnReleasing(e, s, t, m, v, todo), t, m, Releasing(v, todo[1..]));
    }
  }

  lemma ReturningOnce(e: Site, s: Machine, t: Task, m: string, v: Verdict)
    requires Separate(e, s) && s.running == Some(t) && Active(s, t) && m in e.net.order
    requires Top(s.stacks[t]) == Activation(m, Returning(v))
    ensures Separate(e, OnReturning(s, t, v))
  {
    OwnDecision(e, s, t, m, Returning(v));
    assert s.stacks[t][..|s.stacks[t]| - 1] == [];
    OwnMove(e, s, OnReturning(s, t, v), t, [], m);
  }

  lemma ContinueOnce(e: Site, s: Machine, t: Task, m: string, g: Stage)
    requires Shaped(e, s) && Separate(e, s) && Announced(e, s) && s.running == Some(t) && Active(s, t) && Immediate(g)
    requires Top(s.stacks[t]) == Activation(m, g) && m in e.net.order && TodoOk(e, m, g) && NoDependents(e.net)
    ensures Separate(e, ApplyContinue(e, s, t))
  {
    OwnDecision(e, s, t, m, g);
    match g {
      case Deciding(tr, v) => DecidingOnce(e, s, t, m, tr, v);
      case Confirming(_, _, _, _) => ConfirmingOnce(e, s, t, m, g);
      case Releasing(v, todo) => ReleasingOnce(e, s, t, m, v, todo);
      case Returning(v) => ReturningOnce(e, s, t, m, v);
    }
  }

  lemma SeparateKept(e: Site, max: int, s: Machine, a: Action)
    requires Disciplined(e, max, s) && Announced(e, s) && Separate(e, s) && Enabled(e, max, s, a)
    requires NoDependents(e.net) && (a.Answer? ==> a.verdict != Warn)
    ensures Separate(e, Apply(e, max, s, a))
  {
    var k, s' := s.stacks[a.task], Apply(e, max, s, a);
    if k != [] {
      assert k[|k| - 1].monitor in e.net.order && TodoOk(e, k[|k| - 1].monitor, k[|k| - 1].stage) && Lone(k);
      if s.running.None? {
        AtRest(e, s, Top(k).monitor);
      }
    }
    match a {
      case Wake(t, m) => WakeOnce(e, s, t, m);
      case TakeLock(t) => GotoOnce(e, s, s', t, Top(k).monitor, WaitSem);
      case TakeSem(t) => GotoOnce(e, s, s', t, Top(k).monitor, Probing);
      case Answer(t, v) => GotoOnce(e, s, s', t, Top(k).monitor, Writing(v));
      case WriteRow(t) => RowOnce(e, max, s, s', t, Top(k).stage.verdict);
      case Resume(t) => ResumeOnce(e, s, t, Top(k).monitor, Top(k).stage.verdict);
      case Logged(t) =>
        LoggedOnce(e, s, t, Top(k).monitor, Top(k).stage.change, Top(k).stage.verdict, Top(k).stage.note);
      case Continue(t) => ContinueOnce(e, s, t, Top(k).monitor, Top(k).stage);
    }
  }

  lemma InitSeparate(e: Site, tasks: set<Task>)
    requires e.Valid()
    ensures Separate(e, Init(e, tasks))
  {
  }

  /** In every state of every behaviour of a site without dependencies. */
  lemma {:induction false} AlwaysSeparate(e: Site, max: int, tasks: set<Task>, acts: seq<Action>, trace: seq<Machine>,
                                          i: nat)
    requires Behaviour(e, max, tasks, acts, trace) && max >= 0 && i < |trace| && NoDependents(e.net)
    requires forall j | 0 <= j < |acts| :: acts[j].Answer? ==> acts[j].verdict != Warn
    ensures Separate(e, trace[i])
  {
    if i == 0 {
      InitSeparate(e, tasks);
    } else {
      var j := i - 1;
      AlwaysSeparate(e, max, tasks, acts, trace, j);
      AlwaysGood(e, max, tasks, acts, trace, j);
      assert Step(e, max, trace[j], acts[j], trace[j + 1]);
      SeparateKept(e, max, trace[j], acts[j]);
    }
  }
}
