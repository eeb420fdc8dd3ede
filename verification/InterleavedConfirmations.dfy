/** What confirming the parents of a failing monitor achieves over every
    interleaving: a problem behind a parent that only fails meanwhile is
    suppressed, whichever tasks poll that parent. */
module InterleavedConfirmations {
  import opened Wrappers
  import opened Graphs
  import opened MonitorStates
  import opened Networks
  import opened Engine
  import opened Confirmations
  import opened Interleavings
  import opened Behaviours
  import opened Debts
  import opened InterleavedAlerts

  // ----- What a step does to one status -----

  /** The observation that a step makes of p, if it makes one. */
  function Sees(s: Machine, a: Action, p: string): Option<Verdict> {
    if a.Resume? && Active(s, a.task) && Top(s.stacks[a.task]).stage.Written? && Top(s.stacks[a.task]).monitor == p
    then Some(Top(s.stacks[a.task]).stage.verdict) else None
  }

  predicate SameButAlert(st: Status, st': Status) {
    st'.(alertOpen := false) == st.(alertOpen := false)
  }

  lemma StatusMoves(e: Site, max: int, s: Machine, a: Action, p: string)
    requires Shaped(e, s) && Enabled(e, max, s, a) && p in e.net.order
    ensures p in s.world.states && p in Apply(e, max, s, a).world.states
    ensures var st, st' := s.world.states[p], Apply(e, max, s, a).world.states[p];
      match Sees(s, a, p)
      case Some(v) => st' == After(st, v)
      case None => SameButAlert(st, st')
  {
    if !a.WriteRow? && !a.Resume? {
      GentleStep(e, max, s, a);
    }
  }

  lemma StepFirm(e: Site, max: int, s: Machine, a: Action, p: string)
    requires Shaped(e, s) && Enabled(e, max, s, a) && p in e.net.order
    requires p in s.world.states && FirmStatus(s.world.states[p])
    ensures p in Apply(e, max, s, a).world.states && FirmStatus(Apply(e, max, s, a).world.states[p])
  {
    StatusMoves(e, max, s, a, p);
    if Sees(s, a, p).Some? {
      FirmAfter(s.world.states[p], Sees(s, a, p).value);
    }
  }

  lemma {:induction false} AlwaysFirm(e: Site, max: int, tasks: set<Task>, acts: seq<Action>, trace: seq<Machine>,
                                      i: nat, p: string)
    requires Behaviour(e, max, tasks, acts, trace) && max >= 0 && i < |trace| && p in e.net.order
    ensures p in trace[i].world.states && FirmStatus(trace[i].world.states[p])
  {
    if i > 0 {
      var j := i - 1;
      AlwaysFirm(e, max, tasks, acts, trace, j, p);
      assert Step(e, max, trace[j], acts[j], trace[j + 1]);
      StepFirm(e, max, trace[j], acts[j], p);
    }
  }

  // ----- What a step does to a stack -----

  /** A task changes the stage of its top activation, calls on top of it, or returns from it. */
  ghost predicate Rewrites(k: Stack, l: Stack, resumed: bool)
    requires k != []
  {
    || (exists g :: l == SetTop(k, g) && (Seen(g) <==> Seen(Top(k).stage) || resumed))
    || (exists g, c :: l == SetTop(k, g) + [Activation(c, WaitLock)] && Seen(g) && Seen(Top(k).stage))
    || (exists v :: l == Popped(k, v) && Top(k).stage == Returning(v))
  }

  /** The activation that waits at depth d stays, and so does the poll it waits for, until that returns. */
  lemma BelowStays(e: Site, k: Stack, l: Stack, resumed: bool, d: nat)
    requires k != [] && Rewrites(k, l, resumed) && StackOk(e, k)
    requires d + 1 < |k| && k[d].stage.Confirming?
    ensures d < |l| && l[d] == k[d]
    ensures |l| == d + 1 ==> Seen(k[d + 1].stage)
    ensures d + 1 < |l| ==>
      && l[d + 1].monitor == k[d + 1].monitor
      && (Seen(l[d + 1].stage) <==> Seen(k[d + 1].stage) || (resumed && |k| == d + 2))
  {
  }

  lemma GotoRewrites(k: Stack, g: Stage, resumed: bool)
    requires k != [] && (Seen(g) <==> Seen(Top(k).stage) || resumed)
    ensures Rewrites(k, SetTop(k, g), resumed)
  {
  }

  lemma CallRewrites(k: Stack, g: Stage, c: string, resumed: bool)
    requires k != [] && Seen(g) && Seen(Top(k).stage)
    ensures Rewrites(k, SetTop(k, g) + [Activation(c, WaitLock)], resumed)
  {
  }

  lemma SettledRewrites(s: Machine, t: Task, m: string, tr: Transition, v: Verdict, blocker: Option<string>)
    requires Active(s, t) && m in s.world.states && Seen(Top(s.stacks[t]).stage)
    ensures Rewrites(s.stacks[t], Settled(s, t, m, tr, v, blocker).stacks[t], false)
  {
    GotoRewrites(s.stacks[t], Logging(tr, v, if blocker.Some? then SuppressedBy(blocker.value) else Plain), false);
  }

  lemma DecidingRewrites(e: Site, s: Machine, t: Task, m: string, tr: Transition, v: Verdict)
    requires Shaped(e, s) && Active(s, t) && Top(s.stacks[t]) == Activation(m, Deciding(tr, v)) && m in e.net.order
    ensures Rewrites(s.stacks[t], OnDeciding(e, s, t, m, tr, v).stacks[t], false)
  {
    var blocker := BlockingParent(e.net, s.world.states, m);
    if !IsProblem(tr.current) {
      GotoRewrites(s.stacks[t], Logging(tr, v, Plain), false);
    } else if blocker.None? && e.net.parents[m] != [] {
      GotoRewrites(s.stacks[t], Confirming(tr, v, e.net.parents[m], 0), false);
    } else {
      SettledRewrites(s, t, m, tr, v, blocker);
    }
  }

  lemma ConfirmingRewrites(e: Site, s: Machine, t: Task, m: string, tr: Transition, v: Verdict, todo: seq<string>,
                           attempts: nat)
    requires Shaped(e, s) && Active(s, t) && m in e.net.order
    requires Top(s.stacks[t]) == Activation(m, Confirming(tr, v, todo, attempts))
    ensures Rewrites(s.stacks[t], OnConfirming(e, s, t, m, tr, v, todo, attempts).stacks[t], false)
  {
    if todo == [] {
      SettledRewrites(s, t, m, tr, v, BlockingParent(e.net, s.world.states, m));
    } else {
      CallRewrites(s.stacks[t], Confirming(tr, v, todo, attempts + 1), todo[0], false);
      GotoRewrites(s.stacks[t], Confirming(tr, v, todo[1..], 0), false);
    }
  }

  lemma ReleasingRewrites(e: Site, s: Machine, t: Task, m: string, v: Verdict, todo: seq<string>)
    requires Shaped(e, s) && Active(s, t) && Top(s.stacks[t]) == Activation(m, Releasing(v, todo))
    requires TodoOk(e, m, Releasing(v, todo))
    ensures Rewrites(s.stacks[t], OnReleasing(e, s, t, m, v, todo).stacks[t], false)
  {
    if todo == [] {
      GotoRewrites(s.stacks[t], Returning(v), false);
    } else {
      CallRewrites(s.stacks[t], AwaitChild(v, todo), todo[0], false);
      GotoRewrites(s.stacks[t], Releasing(v, todo[1..]), false);
    }
  }

  lemma CheckingRewrites(e: Site, s: Machine, t: Task, m: string, v: Verdict, todo: seq<string>, child: Verdict)
    requires Shaped(e, s) && Active(s, t) && Top(s.stacks[t]) == Activation(m, Checking(v, todo, child))
    requires TodoOk(e, m, Checking(v, todo, child))
    ensures Rewrites(s.stacks[t], OnChecking(e, s, t, m, v, todo, child).stacks[t], false)
  {
    var st := s.world.states[todo[0]];
    GotoRewrites(s.stacks[t], LoggingStill(v, todo, Notice(todo[0], Transition(st.state, st.state), StillAfter(m))),
                 false);
    GotoRewrites(s.stacks[t], Releasing(v, todo[1..]), false);
  }

  lemma ContinueRewrites(e: Site, s: Machine, t: Task, m: string, g: Stage)
    requires Shaped(e, s) && Active(s, t) && Immediate(g) && Top(s.stacks[t]) == Activation(m, g)
    requires m in e.net.order && TodoOk(e, m, g)
    ensures Rewrites(s.stacks[t], ApplyContinue(e, s, t).stacks[t], false)
  {
    match g {
      case Deciding(tr, v) => DecidingRewrites(e, s, t, m, tr, v);
      case Confirming(tr, v, todo, attempts) => ConfirmingRewrites(e, s, t, m, tr, v, todo, attempts);
      case Releasing(v, todo) => ReleasingRewrites(e, s, t, m, v, todo);
      case Checking(v, todo, child) => CheckingRewrites(e, s, t, m, v, todo, child);
      case Returning(v) => assert OnReturning(s, t, v).stacks[t] == Popped(s.stacks[t], v);
    }
  }

  lemma LoggedRewrites(e: Site, s: Machine, t: Task, m: string, g: Stage)
    requires Active(s, t) && Top(s.stacks[t]) == Activation(m, g) && (g.Logging? || g.LoggingStill?) && TodoOk(e, m, g)
    ensures Rewrites(s.stacks[t], ApplyLogged(e, s, t).stacks[t], false)
  {
    match g {
      case Logging(tr, v, _) =>
        GotoRewrites(s.stacks[t], if tr.current == Up then Releasing(v, e.net.order) else Returning(v), false);
      case LoggingStill(v, todo, _) => GotoRewrites(s.stacks[t], Releasing(v, todo[1..]), false);
    }
  }

  lemma StepRewrites(e: Site, max: int, s: Machine, a: Action)
    requires Shaped(e, s) && Enabled(e, max, s, a) && Active(s, a.task)
    ensures a.task in Apply(e, max, s, a).stacks
    ensures Rewrites(s.stacks[a.task], Apply(e, max, s, a).stacks[a.task], a.Resume?)
  {
    var k := s.stacks[a.task];
    assert k[|k| - 1].monitor in e.net.order && TodoOk(e, k[|k| - 1].monitor, k[|k| - 1].stage);
    match a {
      case TakeLock(_) => GotoRewrites(k, WaitSem, false);
      case TakeSem(_) => GotoRewrites(k, Probing, false);
      case Answer(_, v) => GotoRewrites(k, Writing(v), false);
      case WriteRow(_) => GotoRewrites(k, Written(Top(k).stage.verdict), false);
      case Resume(t) =>
        var v := Top(k).stage.verdict;
        GotoRewrites(k, match Change(s.world.states[Top(k).monitor], v)
                        case None => Returning(v)
                        case Some(tr) => Deciding(tr, v), true);
      case Logged(t) => LoggedRewrites(e, s, t, Top(k).monitor, Top(k).stage);
      case Continue(t) => ContinueRewrites(e, s, t, Top(k).monitor, Top(k).stage);
    }
  }

  // ----- A parent that only fails -----

  predicate Sure(st: Status) {
    FirmStatus(st) && Steady(st) && Suspect(st)
  }

  /** Failures have added up. */
  predicate Grows(st: Status, st': Status) {
    Sure(st') && st'.bad >= st.bad && (st.state == Down ==> st'.state == Down)
  }

  lemma SureFails(st: Status)
    requires Sure(st) && st.failuresToDown >= 1 && st.recoveriesToUp >= 1
    ensures Grows(st, After(st, Fail)) && After(st, Fail).bad == st.bad + 1
  {
    FirmAfter(st, Fail);
  }

  /** If a step sees p at all, it sees it fail. */
  lemma StepGrows(e: Site, max: int, s: Machine, a: Action, p: string)
    requires Shaped(e, s) && Enabled(e, max, s, a) && p in e.net.order && p in s.world.states && Sure(s.world.states[p])
    requires Sees(s, a, p).Some? ==> Sees(s, a, p).value == Fail
    ensures p in Apply(e, max, s, a).world.states && Grows(s.world.states[p], Apply(e, max, s, a).world.states[p])
    ensures Sees(s, a, p).Some? ==> Apply(e, max, s, a).world.states[p].bad > s.world.states[p].bad
  {
    StatusMoves(e, max, s, a, p);
    SureFails(s.world.states[p]);
  }

  /** How many polls the confirming activation at depth d has had answered. */
  function Replies(k: Stack, d: nat): int
    requires d < |k| && k[d].stage.Confirming?
  {
    k[d].stage.attempts - if d + 1 < |k| && !Seen(k[d + 1].stage) then 1 else 0
  }

  /** The activation of m at depth d has not decided yet, and p is down, or is still to be confirmed
      and has failed each time it was asked. */
  ghost predicate WatchedAt(k: Stack, d: nat, m: string, tr: Transition, v: Verdict, p: string, st: Status)
    requires d < |k|
  {
    k[d].monitor == m &&
    match k[d].stage
    case Deciding(tr1, v1) => tr1 == tr && v1 == v && |k| == d + 1
    case Confirming(tr1, v1, todo, _) =>
      && tr1 == tr && v1 == v && (d + 1 < |k| ==> todo != [] && k[d + 1].monitor == todo[0])
      && (st.state == Down || (p in todo && (todo[0] == p ==> Replies(k, d) <= st.bad)))
    case _ => false
  }

  ghost predicate Watched(e: Site, s: Machine, t: Task, d: nat, m: string, tr: Transition, v: Verdict, p: string) {
    && t in s.stacks && d < |s.stacks[t]| && p in e.net.order && p in s.world.states && Sure(s.world.states[p])
    && WatchedAt(s.stacks[t], d, m, tr, v, p, s.world.states[p])
  }

  /** The problem has been suppressed and is about to be logged so. */
  ghost predicate Suppressed(s: Machine, t: Task, d: nat, m: string, tr: Transition, v: Verdict) {
    && t in s.stacks && |s.stacks[t]| == d + 1
    && exists b :: s.stacks[t][d] == Activation(m, Logging(tr, v, SuppressedBy(b)))
  }

  lemma GrownWatched(k: Stack, d: nat, m: string, tr: Transition, v: Verdict, p: string, st: Status, st': Status)
    requires d < |k| && WatchedAt(k, d, m, tr, v, p, st) && Grows(st, st')
    ensures WatchedAt(k, d, m, tr, v, p, st')
  {
  }

  /** Above the waiting activation the poll of a parent goes on. */
  lemma DeeperWatched(e: Site, k: Stack, l: Stack, resumed: bool, d: nat, m: string, tr: Transition, v: Verdict,
                      p: string, st: Status, st': Status)
    requires d + 1 < |k| && StackOk(e, k) && Rewrites(k, l, resumed) && WatchedAt(k, d, m, tr, v, p, st)
    requires Grows(st, st') && (resumed && Top(k).monitor == p ==> st'.bad > st.bad)
    ensures d < |l| && WatchedAt(l, d, m, tr, v, p, st')
  {
    BelowStays(e, k, l, resumed, d);
  }

  /** A parent that is down blocks. */
  lemma DownSuppresses(e: Site, s: Machine, t: Task, d: nat, m: string, tr: Transition, v: Verdict, p: string)
    requires Shaped(e, s) && t in s.stacks && |s.stacks[t]| == d + 1 && m in e.net.order && p in e.net.order
    requires Edge(e.net.parents, m, p) && s.world.states[p].state == Down && s.stacks[t][d].monitor == m
    ensures Blocked(e.net, s.world.states, m)
    ensures var s' := Settled(s, t, m, tr, v, BlockingParent(e.net, s.world.states, m));
            Suppressed(s', t, d, m, tr, v) && s'.world == s.world
  {
    BlockedStep(e.net, s.world.states, m);
    var b := BlockingParent(e.net, s.world.states, m).value;
    assert SetTop(s.stacks[t], Logging(tr, v, SuppressedBy(b)))[d] == Activation(m, Logging(tr, v, SuppressedBy(b)));
  }

  /** The watched activation decides, or goes on to confirm. */
  ghost predicate Ends(e: Site, s: Machine, s': Machine, t: Task, d: nat, m: string, tr: Transition, v: Verdict,
                       p: string) {
    Watched(e, s', t, d, m, tr, v, p) || (Suppressed(s', t, d, m, tr, v) && s'.world.sent == s.world.sent)
  }

  lemma DecidingEnds(e: Site, s: Machine, t: Task, d: nat, m: string, tr: Transition, v: Verdict, p: string)
    requires Shaped(e, s) && Watched(e, s, t, d, m, tr, v, p) && m in e.net.order && Edge(e.net.parents, m, p)
    requires s.stacks[t][d].stage == Deciding(tr, v) && IsProblem(tr.current)
    ensures Ends(e, s, OnDeciding(e, s, t, m, tr, v), t, d, m, tr, v, p)
  {
    if Blocked(e.net, s.world.states, m) {
      var b := BlockingParent(e.net, s.world.states, m).value;
      assert SetTop(s.stacks[t], Logging(tr, v, SuppressedBy(b)))[d] == Activation(m, Logging(tr, v, SuppressedBy(b)));
    } else {
      var h := Confirming(tr, v, e.net.parents[m], 0);
      assert SetTop(s.stacks[t], h)[d] == Activation(m, h);
    }
  }

  /** All attempts on p have failed: it is down. */
  lemma PassedIsDown(e: Site, w: World, p: string, attempts: nat)
    requires Fits(e, w) && p in e.net.order && Sure(w.states[p]) && attempts <= w.states[p].bad
    requires !(Unsettled(w.states[p]) && attempts < e.failures[p])
    ensures w.states[p].state == Down
  {
  }

  lemma NextWatched(e: Site, s: Machine, t: Task, d: nat, m: string, tr: Transition, v: Verdict, todo: seq<string>,
                    attempts: nat, p: string)
    requires Shaped(e, s) && Watched(e, s, t, d, m, tr, v, p) && |s.stacks[t]| == d + 1 && todo != []
    requires s.stacks[t][d].stage == Confirming(tr, v, todo, attempts)
    requires !(todo[0] in e.net.order && Unsettled(s.world.states[todo[0]]) && attempts < e.failures[todo[0]])
    ensures Watched(e, Goto(s, t, Confirming(tr, v, todo[1..], 0)), t, d, m, tr, v, p)
  {
    var h := Confirming(tr, v, todo[1..], 0);
    if todo[0] == p && s.world.states[p].state != Down {
      PassedIsDown(e, s.world, p, attempts);
    }
    assert todo == [todo[0]] + todo[1..];
    assert SetTop(s.stacks[t], h)[d] == Activation(m, h);
  }

  lemma AskWatched(e: Site, s: Machine, t: Task, d: nat, m: string, tr: Transition, v: Verdict, todo: seq<string>,
                   attempts: nat, p: string)
    requires Shaped(e, s) && Watched(e, s, t, d, m, tr, v, p) && |s.stacks[t]| == d + 1 && todo != []
    requires s.stacks[t][d].stage == Confirming(tr, v, todo, attempts)
    ensures Watched(e, Call(s, t, SetTop(s.stacks[t], Confirming(tr, v, todo, attempts + 1)), todo[0]),
                    t, d, m, tr, v, p)
  {
    var k := SetTop(s.stacks[t], Confirming(tr, v, todo, attempts + 1));
    assert k[d] == Activation(m, Confirming(tr, v, todo, attempts + 1));
    var l := k + [Activation(todo[0], WaitLock)];
    assert l[d] == k[d] && l[d + 1] == Activation(todo[0], WaitLock);
  }

  lemma ConfirmingEnds(e: Site, s: Machine, t: Task, d: nat, m: string, tr: Transition, v: Verdict,
                       todo: seq<string>, attempts: nat, p: string)
    requires Shaped(e, s) && Watched(e, s, t, d, m, tr, v, p) && m in e.net.order && Edge(e.net.parents, m, p)
    requires |s.stacks[t]| == d + 1 && s.stacks[t][d].stage == Confirming(tr, v, todo, attempts)
    ensures Ends(e, s, OnConfirming(e, s, t, m, tr, v, todo, attempts), t, d, m, tr, v, p)
  {
    if todo == [] {
      DownSuppresses(e, s, t, d, m, tr, v, p);
    } else if todo[0] in e.net.order && Unsettled(s.world.states[todo[0]]) && attempts < e.failures[todo[0]] {
      AskWatched(e, s, t, d, m, tr, v, todo, attempts, p);
    } else {
      NextWatched(e, s, t, d, m, tr, v, todo, attempts, p);
    }
  }

  /** Its own turn. */
  lemma OwnTurnEnds(e: Site, max: int, s: Machine, a: Action, d: nat, m: string, tr: Transition, v: Verdict, p: string)
    requires Shaped(e, s) && Enabled(e, max, s, a) && Watched(e, s, a.task, d, m, tr, v, p) && IsProblem(tr.current)
    requires m in e.net.order && Edge(e.net.parents, m, p) && |s.stacks[a.task]| == d + 1
    ensures Ends(e, s, Apply(e, max, s, a), a.task, d, m, tr, v, p)
  {
    var g := s.stacks[a.task][d].stage;
    assert a == Continue(a.task);
    if g.Deciding? {
      DecidingEnds(e, s, a.task, d, m, tr, v, p);
    } else {
      ConfirmingEnds(e, s, a.task, d, m, tr, v, g.todo, g.attempts, p);
    }
  }

  /** Whoever moves: the watched activation stays watched, or suppresses its problem. */
  lemma WatchedStep(e: Site, max: int, s: Machine, a: Action, t: Task, d: nat, m: string, tr: Transition, v: Verdict,
                    p: string)
    requires Shaped(e, s) && Enabled(e, max, s, a) && Watched(e, s, t, d, m, tr, v, p) && IsProblem(tr.current)
    requires m in e.net.order && Edge(e.net.parents, m, p)
    requires Sees(s, a, p).Some? ==> Sees(s, a, p).value == Fail
    ensures Ends(e, s, Apply(e, max, s, a), t, d, m, tr, v, p)
  {
    var k, s', st := s.stacks[t], Apply(e, max, s, a), s.world.states[p];
    StepGrows(e, max, s, a, p);
    OwnStackOnly(e, max, s, a);
    if a.task != t {
      GrownWatched(k, d, m, tr, v, p, st, s'.world.states[p]);
    } else if d + 1 < |k| {
      StepRewrites(e, max, s, a);
      DeeperWatched(e, k, s'.stacks[t], a.Resume?, d, m, tr, v, p, st, s'.world.states[p]);
    } else {
      OwnTurnEnds(e, max, s, a, d, m, tr, v, p);
    }
  }

  // ----- The theorem -----

  /** The activation of t at depth d has not decided yet. */
  predicate Deliberates(s: Machine, t: Task, d: nat) {
    t in s.stacks && d < |s.stacks[t]| && (s.stacks[t][d].stage.Deciding? || s.stacks[t][d].stage.Confirming?)
  }

  /** From i until j no task sees p do anything but fail. */
  ghost predicate OnlyFails(acts: seq<Action>, trace: seq<Machine>, p: string, i: nat, j: nat)
    requires i <= j <= |acts| < |trace|
  {
    forall n | i <= n < j :: Sees(trace[n], acts[n], p).Some? ==> Sees(trace[n], acts[n], p).value == Fail
  }

  lemma {:induction false} StaysWatched(e: Site, max: int, tasks: set<Task>, acts: seq<Action>, trace: seq<Machine>,
                                        i: nat, n: nat, t: Task, d: nat, m: string, tr: Transition, v: Verdict,
                                        p: string)
    requires Behaviour(e, max, tasks, acts, trace) && i <= n < |trace| && IsProblem(tr.current)
    requires m in e.net.order && Edge(e.net.parents, m, p) && Watched(e, trace[i], t, d, m, tr, v, p)
    requires OnlyFails(acts, trace, p, i, n) && forall j | i <= j <= n :: Deliberates(trace[j], t, d)
    ensures Watched(e, trace[n], t, d, m, tr, v, p)
    decreases n
  {
    if i < n {
      var j := n - 1;
      StaysWatched(e, max, tasks, acts, trace, i, j, t, d, m, tr, v, p);
      assert Step(e, max, trace[j], acts[j], trace[j + 1]);
      WatchedStep(e, max, trace[j], acts[j], t, d, m, tr, v, p);
    }
  }

  lemma StartsWatched(e: Site, s: Machine, t: Task, d: nat, m: string, tr: Transition, v: Verdict, p: string)
    requires Shaped(e, s) && t in s.stacks && |s.stacks[t]| == d + 1 && s.stacks[t][d] == Activation(m, Deciding(tr, v))
    requires p in e.net.order && p in s.world.states && Sure(s.world.states[p])
    ensures m in e.net.order && Watched(e, s, t, d, m, tr, v, p)
  {
  }

  lemma BeginsWatched(e: Site, max: int, tasks: set<Task>, acts: seq<Action>, trace: seq<Machine>, i: nat,
                      t: Task, d: nat, m: string, tr: Transition, v: Verdict, p: string)
    requires Behaviour(e, max, tasks, acts, trace) && max >= 0 && i < |acts|
    requires t in trace[i].stacks && |trace[i].stacks[t]| == d + 1
    requires trace[i].stacks[t][d] == Activation(m, Deciding(tr, v))
    requires p in e.net.order && p in trace[i].world.states
    requires Suspect(trace[i].world.states[p]) && Steady(trace[i].world.states[p])
    ensures m in e.net.order && Watched(e, trace[i], t, d, m, tr, v, p)
  {
    AlwaysFirm(e, max, tasks, acts, trace, i, p);
    assert Step(e, max, trace[i], acts[i], trace[i + 1]);
    StartsWatched(e, trace[i], t, d, m, tr, v, p);
  }

  lemma LastStep(e: Site, max: int, s: Machine, a: Action, s': Machine, t: Task, d: nat, m: string, tr: Transition,
                 v: Verdict, p: string)
    requires Step(e, max, s, a, s') && Watched(e, s, t, d, m, tr, v, p) && IsProblem(tr.current)
    requires m in e.net.order && Edge(e.net.parents, m, p) && !Deliberates(s', t, d)
    requires Sees(s, a, p).Some? ==> Sees(s, a, p).value == Fail
    ensures Suppressed(s', t, d, m, tr, v) && s'.world.sent == s.world.sent
  {
    WatchedStep(e, max, s, a, t, d, m, tr, v, p);
  }

  lemma LastOfTrace(e: Site, max: int, tasks: set<Task>, acts: seq<Action>, trace: seq<Machine>, n: nat,
                    t: Task, d: nat, m: string, tr: Transition, v: Verdict, p: string)
    requires Behaviour(e, max, tasks, acts, trace) && n < |acts| && IsProblem(tr.current)
    requires m in e.net.order && Edge(e.net.parents, m, p) && Watched(e, trace[n], t, d, m, tr, v, p)
    requires Sees(trace[n], acts[n], p).Some? ==> Sees(trace[n], acts[n], p).value == Fail
    requires !Deliberates(trace[n + 1], t, d)
    ensures Suppressed(trace[n + 1], t, d, m, tr, v) && trace[n + 1].world.sent == trace[n].world.sent
  {
    assert Step(e, max, trace[n], acts[n], trace[n + 1]);
    LastStep(e, max, trace[n], acts[n], trace[n + 1], t, d, m, tr, v, p);
  }

  /** From i on the activation deliberates, and at j it has decided. */
  ghost predicate Deliberation(trace: seq<Machine>, i: nat, j: nat, t: Task, d: nat) {
    i < j < |trace| && (forall n | i <= n < j :: Deliberates(trace[n], t, d)) && !Deliberates(trace[j], t, d)
  }

  lemma WatchedDecides(e: Site, max: int, tasks: set<Task>, acts: seq<Action>, trace: seq<Machine>, i: nat, j: nat,
                       t: Task, d: nat, m: string, tr: Transition, v: Verdict, p: string)
    requires Behaviour(e, max, tasks, acts, trace) && IsProblem(tr.current)
    requires m in e.net.order && Edge(e.net.parents, m, p) && Deliberation(trace, i, j, t, d)
    requires Watched(e, trace[i], t, d, m, tr, v, p) && OnlyFails(acts, trace, p, i, j)
    ensures Suppressed(trace[j], t, d, m, tr, v) && trace[j].world.sent == trace[j - 1].world.sent
  {
    var n := j - 1;
    StaysWatched(e, max, tasks, acts, trace, i, n, t, d, m, tr, v, p);
    LastOfTrace(e, max, tasks, acts, trace, n, t, d, m, tr, v, p);
  }

  /**
   * The promise of dependencies, over every interleaving: a problem of m behind an enabled
   * parent that is down, or failing or never polled, and that every task sees fail until
   * the problem is decided, is suppressed with a blocker named, and nothing is sent for it.
   */
  lemma OutageSuppressesInterleaved(e: Site, max: int, tasks: set<Task>, acts: seq<Action>, trace: seq<Machine>,
                                    i: nat, j: nat, t: Task, d: nat, m: string, tr: Transition, v: Verdict, p: string)
    requires Behaviour(e, max, tasks, acts, trace) && max >= 0 && i < j < |trace| && IsProblem(tr.current)
    requires t in trace[i].stacks && |trace[i].stacks[t]| == d + 1
    requires trace[i].stacks[t][d] == Activation(m, Deciding(tr, v))
    requires p in e.net.order && Edge(e.net.parents, m, p) && p in trace[i].world.states
    requires Suspect(trace[i].world.states[p]) && Steady(trace[i].world.states[p])
    requires Deliberation(trace, i, j, t, d) && OnlyFails(acts, trace, p, i, j)
    ensures Suppressed(trace[j], t, d, m, tr, v) && trace[j].world.sent == trace[j - 1].world.sent
  {
    BeginsWatched(e, max, tasks, acts, trace, i, t, d, m, tr, v, p);
    WatchedDecides(e, max, tasks, acts, trace, i, j, t, d, m, tr, v, p);
  }
}
