/** What is sent, over every interleaving. */
module Notifications {
  import opened Wrappers
  import opened MonitorStates
  import opened Networks
  import opened Engine
  import opened Interleavings
  import opened Discipline
  import opened Logbooks

  /** The alert flag says whether the last thing sent was a problem, and a
      pending monitor has none open. */
  ghost predicate FlagOk(s: Status, log: seq<State>) {
    LogShape(log) && (s.alertOpen <==> IsOpen(log)) && (s.state == Pending ==> !s.alertOpen)
  }

  ghost predicate WorldLogged(e: Site, w: World) {
    && (forall m | m in e.net.order :: m in w.states && FlagOk(w.states[m], SentTo(w.sent, m)))
    && (forall n | n in w.sent :: n.change.Alertable())
  }

  lemma FlagOpened(s: Status, log: seq<State>, current: State)
    requires FlagOk(s, log) && IsProblem(current) && s.state != Pending
    ensures FlagOk(s.(alertOpen := true), log + [current])
  {
    ShapeStep(log, current);
  }

  lemma FlagClosed(s: Status, log: seq<State>)
    requires FlagOk(s, log) && s.alertOpen
    ensures FlagOk(s.(alertOpen := false), log + [Up])
  {
    ShapeStep(log, Up);
  }

  /** One alert changes the flag and the log of its own monitor. */
  lemma AlertKeepsLogs(e: Site, w: World, m: string, open: bool, n: Notice)
    requires WorldLogged(e, w) && m in e.net.order && n.slug == m && n.change.Alertable()
    requires FlagOk(w.states[m].(alertOpen := open), SentTo(w.sent, m) + [n.change.current])
    ensures WorldLogged(e, Alert(w, m, open, n))
  {
    var w' := Alert(w, m, open, n);
    forall x | x in e.net.order
      ensures FlagOk(w'.states[x], SentTo(w'.sent, x))
    {
      SentStep(w.sent, n, x);
    }
  }

  lemma OpenLogged(e: Site, w: World, m: string, n: Notice)
    requires WorldLogged(e, w) && m in e.net.order
    requires n.slug == m && IsProblem(n.change.current) && w.states[m].state != Pending
    ensures WorldLogged(e, Alert(w, m, true, n))
  {
    FlagOpened(w.states[m], SentTo(w.sent, m), n.change.current);
    AlertKeepsLogs(e, w, m, true, n);
  }

  lemma CloseLogged(e: Site, w: World, m: string, n: Notice)
    requires WorldLogged(e, w) && m in e.net.order
    requires n.slug == m && n.change.current == Up && n.change.previous != Pending && w.states[m].alertOpen
    ensures WorldLogged(e, Alert(w, m, false, n))
  {
    FlagClosed(w.states[m], SentTo(w.sent, m));
    AlertKeepsLogs(e, w, m, false, n);
  }

  lemma AfterPending(s: Status, v: Verdict)
    ensures After(s, v).state == Pending ==> s.state == Pending
    ensures After(s, v).alertOpen == s.alertOpen
  {
  }

  lemma ObserveLogged(e: Site, w: World, m: string, v: Verdict)
    requires WorldLogged(e, w) && m in e.net.order
    ensures WorldLogged(e, w.(states := w.states[m := After(w.states[m], v)]))
  {
    AfterPending(w.states[m], v);
  }

  // ------------------------------------------------------------ tasks in flight

  /** What a task may rely on when it decides about the transition it saw. */
  ghost predicate StageFact(w: World, a: Activation) {
    a.monitor in w.states &&
    match a.stage
    case Deciding(tr, _) =>
      w.states[a.monitor].state == tr.current != Pending
      && (tr.previous == Pending ==> !w.states[a.monitor].alertOpen)
    case Confirming(_, _, _, _) => w.states[a.monitor].state != Pending
    case _ => true
  }

  ghost predicate StackFacts(w: World, k: Stack) {
    forall i | 0 <= i < |k| :: StageFact(w, k[i])
  }

  ghost predicate Announced(e: Site, s: Machine) {
    WorldLogged(e, s.world) && forall t | t in s.stacks :: StackFacts(s.world, s.stacks[t])
  }

  /** Nothing a task relies on is touched. */
  lemma QuietAnnounced(e: Site, s: Machine, s': Machine, t: Task, k: Stack)
    requires Announced(e, s) && t in s.stacks && s'.stacks == s.stacks[t := k]
    requires s'.world.states == s.world.states && s'.world.sent == s.world.sent
    requires StackFacts(s.world, k)
    ensures Announced(e, s')
  {
    forall u | u in s'.stacks
      ensures StackFacts(s'.world, s'.stacks[u])
    {
      forall i | 0 <= i < |s'.stacks[u]|
        ensures StageFact(s'.world, s'.stacks[u][i])
      {
        assert StageFact(s.world, s'.stacks[u][i]);
      }
    }
  }

  ghost predicate NoDeciding(k: Stack) {
    forall i | 0 <= i < |k| :: !k[i].stage.Deciding?
  }

  ghost predicate StillSettled(w: World, w': World) {
    forall m | m in w.states :: m in w'.states && (w'.states[m].state == Pending ==> w.states[m].state == Pending)
  }

  lemma FactsCarry(w: World, w': World, k: Stack)
    requires StackFacts(w, k) && NoDeciding(k) && StillSettled(w, w')
    ensures StackFacts(w', k)
  {
    forall i | 0 <= i < |k|
      ensures StageFact(w', k[i])
    {
      assert StageFact(w, k[i]);
    }
  }

  lemma NotLiveNotDeciding(e: Site, k: Stack)
    requires StackOk(e, k) && !Live(k)
    ensures NoDeciding(k)
  {
    forall i | 0 <= i < |k|
      ensures !k[i].stage.Deciding?
    {
      if i == |k| - 1 {
        assert k[i] == Top(k);
      }
    }
  }

  /** While `t` has the turn nobody else is deciding. */
  lemma OthersNotDeciding(e: Site, max: int, s: Machine, t: Task, u: Task)
    requires Disciplined(e, max, s) && (s.running.None? || s.running == Some(t)) && u in s.stacks && u != t
    ensures NoDeciding(s.stacks[u])
  {
    assert !Live(s.stacks[u]);
    NotLiveNotDeciding(e, s.stacks[u]);
  }

  /** The task with the turn changes states or alerts. */
  lemma TurnAnnounced(e: Site, max: int, s: Machine, s': Machine, t: Task, k: Stack)
    requires Disciplined(e, max, s) && (s.running.None? || s.running == Some(t)) && Announced(e, s)
    requires t in s.stacks && s'.stacks == s.stacks[t := k]
    requires StillSettled(s.world, s'.world) && WorldLogged(e, s'.world) && StackFacts(s'.world, k)
    ensures Announced(e, s')
  {
    forall u | u in s'.stacks && u != t
      ensures StackFacts(s'.world, s'.stacks[u])
    {
      OthersNotDeciding(e, max, s, t, u);
      FactsCarry(s.world, s'.world, s.stacks[u]);
    }
  }

  /** The activations below the top, and a new top. */
  lemma TopFacts(e: Site, w: World, w': World, k: Stack, g: Stage)
    requires StackOk(e, k) && k != [] && StackFacts(w, k) && StillSettled(w, w')
    requires StageFact(w', Activation(Top(k).monitor, g))
    ensures StackFacts(w', SetTop(k, g))
  {
    forall i | 0 <= i < |k|
      ensures StageFact(w', SetTop(k, g)[i])
    {
      if i < |k| - 1 {
        assert StageFact(w, k[i]);
      }
    }
  }

  // -------------------------------------------------------- action by action

  lemma GotoAnnounced(e: Site, max: int, s: Machine, s': Machine, t: Task, g: Stage)
    requires Disciplined(e, max, s) && (s.running.None? || s.running == Some(t)) && Announced(e, s)
    requires Active(s, t) && s'.stacks == s.stacks[t := SetTop(s.stacks[t], g)]
    requires StillSettled(s.world, s'.world) && WorldLogged(e, s'.world)
    requires StageFact(s'.world, Activation(Top(s.stacks[t]).monitor, g))
    ensures Announced(e, s')
  {
    TopFacts(e, s.world, s'.world, s.stacks[t], g);
    TurnAnnounced(e, max, s, s', t, SetTop(s.stacks[t], g));
  }

  lemma CallAnnounced(e: Site, max: int, s: Machine, t: Task, g: Stage, p: string)
    requires Disciplined(e, max, s) && s.running == Some(t) && Announced(e, s) && Active(s, t)
    requires StageFact(s.world, Activation(Top(s.stacks[t]).monitor, g)) && p in e.net.order
    ensures Announced(e, Call(s, t, SetTop(s.stacks[t], g), p))
  {
    var k := SetTop(s.stacks[t], g);
    TopFacts(e, s.world, s.world, s.stacks[t], g);
    QuietAnnounced(e, s, Call(s, t, k, p), t, k + [Activation(p, WaitLock)]);
  }

  lemma SettledAnnounced(e: Site, max: int, s: Machine, t: Task, tr: Transition, v: Verdict, blocker: Option<string>)
    requires Disciplined(e, max, s) && s.running == Some(t) && Announced(e, s) && Active(s, t)
    requires Top(s.stacks[t]).monitor in e.net.order && IsProblem(tr.current)
    requires s.world.states[Top(s.stacks[t]).monitor].state != Pending
    ensures Announced(e, Settled(s, t, Top(s.stacks[t]).monitor, tr, v, blocker))
  {
    var m := Top(s.stacks[t]).monitor;
    OpenLogged(e, s.world, m, Notice(m, tr, Plain));
    GotoAnnounced(e, max, s, Settled(s, t, m, tr, v, blocker), t,
                  Logging(tr, v, if blocker.Some? then SuppressedBy(blocker.value) else Plain));
  }

  lemma DecidingAnnounced(e: Site, max: int, s: Machine, t: Task)
    requires Disciplined(e, max, s) && s.running == Some(t) && Announced(e, s) && Active(s, t)
    requires Top(s.stacks[t]).stage.Deciding?
    ensures Announced(e, ApplyContinue(e, s, t))
  {
    var k := s.stacks[t];
    var m, tr, v := Top(k).monitor, Top(k).stage.change, Top(k).stage.verdict;
    assert StageFact(s.world, k[|k| - 1]);
    if IsProblem(tr.current) {
      var blocker := BlockingParent(e.net, s.world.states, m);
      if blocker.None? && e.net.parents[m] != [] {
        GotoAnnounced(e, max, s, ApplyContinue(e, s, t), t, Confirming(tr, v, e.net.parents[m], 0));
      } else {
        SettledAnnounced(e, max, s, t, tr, v, blocker);
      }
    } else {
      if s.world.states[m].alertOpen {
        CloseLogged(e, s.world, m, Notice(m, tr, Plain));
      }
      GotoAnnounced(e, max, s, ApplyContinue(e, s, t), t, Logging(tr, v, Plain));
    }
  }

  lemma ConfirmingAnnounced(e: Site, max: int, s: Machine, t: Task)
    requires Disciplined(e, max, s) && s.running == Some(t) && Announced(e, s) && Active(s, t)
    requires Top(s.stacks[t]).stage.Confirming?
    ensures Announced(e, ApplyContinue(e, s, t))
  {
    var k := s.stacks[t];
    var g := Top(k).stage;
    assert StageFact(s.world, k[|k| - 1]) && TodoOk(e, k[|k| - 1].monitor, g);
    if g.todo == [] {
      SettledAnnounced(e, max, s, t, g.change, g.verdict, BlockingParent(e.net, s.world.states, Top(k).monitor));
    } else if g.todo[0] in e.net.order && Unsettled(s.world.states[g.todo[0]]) && g.attempts < e.failures[g.todo[0]] {
      CallAnnounced(e, max, s, t, Confirming(g.change, g.verdict, g.todo, g.attempts + 1), g.todo[0]);
    } else {
      GotoAnnounced(e, max, s, ApplyContinue(e, s, t), t, Confirming(g.change, g.verdict, g.todo[1..], 0));
    }
  }

  lemma ReleasingAnnounced(e: Site, max: int, s: Machine, t: Task)
    requires Disciplined(e, max, s) && s.running == Some(t) && Announced(e, s) && Active(s, t)
    requires Top(s.stacks[t]).stage.Releasing?
    ensures Announced(e, ApplyContinue(e, s, t))
  {
    var k := s.stacks[t];
    var g := Top(k).stage;
    assert StageFact(s.world, k[|k| - 1]) && TodoOk(e, k[|k| - 1].monitor, g);
    if g.todo == [] {
      GotoAnnounced(e, max, s, ApplyContinue(e, s, t), t, Returning(g.verdict));
    } else if Releasable(e, s.world, g.todo[0], Top(k).monitor) {
      CallAnnounced(e, max, s, t, AwaitChild(g.verdict, g.todo), g.todo[0]);
    } else {
      GotoAnnounced(e, max, s, ApplyContinue(e, s, t), t, Releasing(g.verdict, g.todo[1..]));
    }
  }

  lemma StillAnnounced(e: Site, max: int, s: Machine, s': Machine, t: Task, c: string, n: Notice, g: Stage)
    requires Disciplined(e, max, s) && s.running == Some(t) && Announced(e, s) && Active(s, t)
    requires c in e.net.order && n.slug == c && IsProblem(n.change.current) && IsProblem(s.world.states[c].state)
    requires g.LoggingStill? && s'.stacks == s.stacks[t := SetTop(s.stacks[t], g)]
    requires s'.world == Alert(s.world, c, true, n) && Top(s.stacks[t]).monitor in s.world.states
    ensures Announced(e, s')
  {
    OpenLogged(e, s.world, c, n);
    GotoAnnounced(e, max, s, s', t, g);
  }

  lemma CheckingAnnounced(e: Site, max: int, s: Machine, t: Task)
    requires Disciplined(e, max, s) && s.running == Some(t) && Announced(e, s) && Active(s, t)
    requires Top(s.stacks[t]).stage.Checking?
    ensures Announced(e, ApplyContinue(e, s, t))
  {
    var k, s' := s.stacks[t], ApplyContinue(e, s, t);
    var g := Top(k).stage;
    assert StageFact(s.world, k[|k| - 1]) && TodoOk(e, k[|k| - 1].monitor, g);
    var c := g.todo[0];
    if StillAlone(e, s.world, c, g.child) {
      var n := Notice(c, Transition(s.world.states[c].state, s.world.states[c].state), StillAfter(Top(k).monitor));
      StillAnnounced(e, max, s, s', t, c, n, LoggingStill(g.verdict, g.todo, n));
    } else {
      GotoAnnounced(e, max, s, s', t, Releasing(g.verdict, g.todo[1..]));
    }
  }

  lemma FactsBelow(w: World, k: Stack)
    requires k != [] && StackFacts(w, k)
    ensures StackFacts(w, k[..|k| - 1])
  {
    var b := k[..|k| - 1];
    forall i | 0 <= i < |b|
      ensures StageFact(w, b[i])
    {
      assert StageFact(w, k[i]);
    }
  }

  lemma FactsSetTop(w: World, k: Stack, g: Stage)
    requires k != [] && StackFacts(w, k) && g.Checking?
    ensures StackFacts(w, SetTop(k, g))
  {
    forall i | 0 <= i < |k|
      ensures StageFact(w, SetTop(k, g)[i])
    {
      assert StageFact(w, k[i]);
    }
  }

  lemma ReturningAnnounced(e: Site, max: int, s: Machine, t: Task)
    requires Disciplined(e, max, s) && s.running == Some(t) && Announced(e, s) && Active(s, t)
    requires Top(s.stacks[t]).stage.Returning?
    ensures Announced(e, ApplyContinue(e, s, t))
  {
    var k := s.stacks[t];
    var b := k[..|k| - 1];
    PopOk(e, k, Top(k).stage.verdict);
    FactsBelow(s.world, k);
    if b != [] && Top(b).stage.AwaitChild? {
      FactsSetTop(s.world, b, Checking(Top(b).stage.verdict, Top(b).stage.todo, Top(k).stage.verdict));
    }
    QuietAnnounced(e, s, ApplyContinue(e, s, t), t, Popped(k, Top(k).stage.verdict));
  }

  lemma ResumeAnnounced(e: Site, max: int, s: Machine, t: Task, m: string, v: Verdict)
    requires Disciplined(e, max, s) && s.running.None? && Announced(e, s) && Active(s, t)
    requires Top(s.stacks[t]) == Activation(m, Written(v)) && m in e.net.order
    ensures Announced(e, Observed(s, t, m, v))
  {
    var change := Change(s.world.states[m], v);
    ObserveLogged(e, s.world, m, v);
    AfterPending(s.world.states[m], v);
    ChangeNotPending(s.world.states[m], v);
    GotoAnnounced(e, max, s, Observed(s, t, m, v), t,
                  if change.None? then Returning(v) else Deciding(change.value, v));
  }

  lemma SuspendedAnnounced(e: Site, max: int, s: Machine, a: Action)
    requires Disciplined(e, max, s) && Enabled(e, max, s, a) && Announced(e, s)
    requires !a.Continue? && !a.Resume? && !a.Wake?
    ensures Announced(e, Apply(e, max, s, a))
  {
    var k, s' := s.stacks[a.task], Apply(e, max, s, a);
    assert StageFact(s.world, k[|k| - 1]) && TodoOk(e, k[|k| - 1].monitor, k[|k| - 1].stage);
    match a
    case TakeLock(t) => StageAnnounced(e, s, s', t, WaitSem);
    case TakeSem(t) => StageAnnounced(e, s, s', t, Probing);
    case Answer(t, v) => StageAnnounced(e, s, s', t, Writing(v));
    case WriteRow(t) => StageAnnounced(e, s, s', t, Written(Top(k).stage.verdict));
    case Logged(t) => LoggedAnnounced(e, s, t);
  }

  /** Only the stage of t changes, to one that relies on nothing. */
  lemma StageAnnounced(e: Site, s: Machine, s': Machine, t: Task, g: Stage)
    requires Shaped(e, s) && Announced(e, s) && Active(s, t) && !g.Deciding? && !g.Confirming?
    requires Top(s.stacks[t]).monitor in s.world.states && s'.stacks == s.stacks[t := SetTop(s.stacks[t], g)]
    requires s'.world.states == s.world.states && s'.world.sent == s.world.sent
    ensures Announced(e, s')
  {
    TopFacts(e, s.world, s.world, s.stacks[t], g);
    QuietAnnounced(e, s, s', t, SetTop(s.stacks[t], g));
  }

  lemma LoggedAnnounced(e: Site, s: Machine, t: Task)
    requires Shaped(e, s) && Announced(e, s) && Active(s, t) && Top(s.stacks[t]).monitor in s.world.states
    requires Top(s.stacks[t]).stage.Logging? || Top(s.stacks[t]).stage.LoggingStill?
    requires Top(s.stacks[t]).stage.LoggingStill? ==> Top(s.stacks[t]).stage.todo != []
    ensures Announced(e, ApplyLogged(e, s, t))
  {
    match Top(s.stacks[t]).stage
    case Logging(tr, v, _) =>
      StageAnnounced(e, s, ApplyLogged(e, s, t), t,
                     if tr.current == Up then Releasing(v, e.net.order) else Returning(v));
    case LoggingStill(v, todo, _) =>
      StageAnnounced(e, s, ApplyLogged(e, s, t), t, Releasing(v, todo[1..]));
  }

  lemma WakeAnnounced(e: Site, max: int, s: Machine, t: Task, m: string)
    requires Shaped(e, s) && Announced(e, s) && t in s.stacks && s.stacks[t] == [] && m in e.net.order
    ensures Announced(e, Call(s, t, [], m))
  {
    QuietAnnounced(e, s, Call(s, t, [], m), t, [] + [Activation(m, WaitLock)]);
  }

  lemma AnnouncedKept(e: Site, max: int, s: Machine, a: Action)
    requires Disciplined(e, max, s) && Enabled(e, max, s, a) && Announced(e, s)
    ensures Announced(e, Apply(e, max, s, a))
  {
    match a {
      case Wake(t, m) => WakeAnnounced(e, max, s, t, m);
      case Resume(t) => ResumeAnnounced(e, max, s, t, Top(s.stacks[t]).monitor, Top(s.stacks[t]).stage.verdict);
      case Continue(t) =>
        match Top(s.stacks[t]).stage {
          case Deciding(_, _) => DecidingAnnounced(e, max, s, t);
          case Confirming(_, _, _, _) => ConfirmingAnnounced(e, max, s, t);
          case Releasing(_, _) => ReleasingAnnounced(e, max, s, t);
          case Checking(_, _, _) => CheckingAnnounced(e, max, s, t);
          case Returning(_) => ReturningAnnounced(e, max, s, t);
        }
      case _ => SuspendedAnnounced(e, max, s, a);
    }
  }
}
