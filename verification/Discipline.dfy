/** Locks, the semaphore and atomicity, over every interleaving. */
module Discipline {
  import opened Wrappers
  import opened MonitorStates
  import opened Networks
  import opened Engine
  import opened Interleavings

  function Holding(k: Stack): Option<string> {
    if k != [] && HoldsLock(Top(k).stage) then Some(Top(k).monitor) else None
  }

  predicate InProbe(k: Stack) {
    k != [] && Top(k).stage.Probing?
  }

  predicate Live(k: Stack) {
    k != [] && Immediate(Top(k).stage)
  }

  /** A lock is held by exactly the task whose top activation is inside the
      locked block for that monitor. */
  ghost predicate Locked(stacks: map<Task, Stack>, held: map<string, Task>) {
    && (forall m | m in held :: held[m] in stacks && Holding(stacks[held[m]]) == Some(m))
    && (forall t | t in stacks && Holding(stacks[t]).Some? ::
          Holding(stacks[t]).value in held && held[Holding(stacks[t]).value] == t)
  }

  ghost predicate Counted(stacks: map<Task, Stack>, holders: set<Task>, max: int) {
    && (forall t | t in holders :: t in stacks && InProbe(stacks[t]))
    && (forall t | t in stacks && InProbe(stacks[t]) :: t in holders)
    && |holders| <= max
  }

  ghost predicate Exclusive(stacks: map<Task, Stack>, running: Option<Task>) {
    && (running.Some? ==> running.value in stacks && Live(stacks[running.value]))
    && (forall t | t in stacks && Live(stacks[t]) :: running == Some(t))
  }

  ghost predicate Disciplined(e: Site, max: int, s: Machine) {
    && Shaped(e, s)
    && Locked(s.stacks, s.held) && Counted(s.stacks, s.holders, max) && Exclusive(s.stacks, s.running)
  }

  lemma SetTopOk(e: Site, k: Stack, stage: Stage)
    requires StackOk(e, k) && k != [] && TodoOk(e, Top(k).monitor, stage) && !stage.AwaitChild?
    ensures StackOk(e, SetTop(k, stage)) && Top(SetTop(k, stage)) == Activation(Top(k).monitor, stage)
  {
  }

  /** Every activation of `k` waits for a call it made. */
  ghost predicate Waiting(e: Site, k: Stack) {
    forall i | 0 <= i < |k| ::
      && k[i].monitor in e.net.order && TodoOk(e, k[i].monitor, k[i].stage)
      && (k[i].stage.Confirming? || k[i].stage.AwaitChild?)
  }

  lemma PushOk(e: Site, k: Stack, m: string)
    requires Waiting(e, k) && m in e.net.order
    ensures StackOk(e, k + [Activation(m, WaitLock)])
  {
  }

  lemma BelowWaits(e: Site, k: Stack)
    requires StackOk(e, k) && k != []
    ensures Waiting(e, k[..|k| - 1])
  {
  }

  lemma WaitingTop(e: Site, k: Stack, a: Activation)
    requires Waiting(e, k) && a.monitor in e.net.order && TodoOk(e, a.monitor, a.stage)
    ensures !a.stage.AwaitChild? ==> StackOk(e, k + [a])
    ensures a.stage.Confirming? || a.stage.AwaitChild? ==> Waiting(e, k + [a])
  {
  }

  /** Only the stack of the acting task changes; its new stack is well formed. */
  ghost predicate Moves(e: Site, s: Machine, s': Machine, t: Task, k: Stack) {
    && t in s.stacks && s'.stacks == s.stacks[t := k] && StackOk(e, k) && Fits(e, s'.world)
  }

  lemma MovesShaped(e: Site, s: Machine, s': Machine, t: Task, k: Stack)
    requires Shaped(e, s) && Moves(e, s, s', t, k)
    ensures Shaped(e, s')
  {
  }

  lemma SameLock(stacks: map<Task, Stack>, held: map<string, Task>, t: Task, k: Stack)
    requires Locked(stacks, held) && t in stacks && Holding(stacks[t]) == Holding(k)
    ensures Locked(stacks[t := k], held)
  {
  }

  lemma TakenLock(stacks: map<Task, Stack>, held: map<string, Task>, t: Task, k: Stack, m: string)
    requires Locked(stacks, held) && t in stacks && Holding(stacks[t]) == None && Holding(k) == Some(m) && m !in held
    ensures Locked(stacks[t := k], held[m := t])
  {
  }

  lemma FreedLock(stacks: map<Task, Stack>, held: map<string, Task>, t: Task, k: Stack, m: string)
    requires Locked(stacks, held) && t in stacks && Holding(stacks[t]) == Some(m) && Holding(k) == None
    ensures Locked(stacks[t := k], held - {m})
  {
  }

  lemma SameCount(stacks: map<Task, Stack>, holders: set<Task>, max: int, t: Task, k: Stack)
    requires Counted(stacks, holders, max) && t in stacks && InProbe(stacks[t]) == InProbe(k)
    ensures Counted(stacks[t := k], holders, max)
  {
  }

  lemma OneMoreCounted(stacks: map<Task, Stack>, holders: set<Task>, max: int, t: Task, k: Stack)
    requires Counted(stacks, holders, max) && t in stacks && !InProbe(stacks[t]) && InProbe(k) && |holders| < max
    ensures Counted(stacks[t := k], holders + {t}, max)
  {
  }

  lemma OneLessCounted(stacks: map<Task, Stack>, holders: set<Task>, max: int, t: Task, k: Stack)
    requires Counted(stacks, holders, max) && t in stacks && InProbe(stacks[t]) && !InProbe(k)
    ensures Counted(stacks[t := k], holders - {t}, max)
  {
    assert |holders - {t}| == |holders| - 1;
  }

  lemma SameTurn(stacks: map<Task, Stack>, running: Option<Task>, t: Task, k: Stack)
    requires Exclusive(stacks, running) && t in stacks && Live(stacks[t]) == Live(k)
    ensures Exclusive(stacks[t := k], running)
  {
  }

  lemma OwnTurn(stacks: map<Task, Stack>, running: Option<Task>, t: Task, k: Stack)
    requires Exclusive(stacks, running) && t in stacks && (running.None? || running == Some(t))
    ensures Exclusive(stacks[t := k], if Live(k) then Some(t) else None)
  {
  }

  /** Neither lock nor semaphore is involved. */
  lemma Unlocked(e: Site, max: int, s: Machine, s': Machine, t: Task, k: Stack)
    requires Disciplined(e, max, s) && Moves(e, s, s', t, k)
    requires Holding(s.stacks[t]) == Holding(k) && InProbe(s.stacks[t]) == InProbe(k)
    requires s'.held == s.held && s'.holders == s.holders
    requires s.running.None? || s.running == Some(t)
    requires s'.running == if Live(k) then Some(t) else None
    ensures Disciplined(e, max, s')
  {
    MovesShaped(e, s, s', t, k);
    SameLock(s.stacks, s.held, t, k);
    SameCount(s.stacks, s.holders, max, t, k);
    OwnTurn(s.stacks, s.running, t, k);
  }

  /** A row may be written while another task runs. */
  lemma Aside(e: Site, max: int, s: Machine, s': Machine, t: Task, k: Stack)
    requires Disciplined(e, max, s) && Moves(e, s, s', t, k)
    requires Holding(s.stacks[t]) == Holding(k) && InProbe(s.stacks[t]) == InProbe(k)
    requires Live(s.stacks[t]) == Live(k)
    requires s'.held == s.held && s'.holders == s.holders && s'.running == s.running
    ensures Disciplined(e, max, s')
  {
    MovesShaped(e, s, s', t, k);
    SameLock(s.stacks, s.held, t, k);
    SameCount(s.stacks, s.holders, max, t, k);
    SameTurn(s.stacks, s.running, t, k);
  }

  lemma Acquired(e: Site, max: int, s: Machine, s': Machine, t: Task, k: Stack, m: string)
    requires Disciplined(e, max, s) && Moves(e, s, s', t, k)
    requires Holding(s.stacks[t]) == None && Holding(k) == Some(m) && m !in s.held
    requires !InProbe(s.stacks[t]) && !InProbe(k) && !Live(s.stacks[t]) && !Live(k)
    requires s'.held == s.held[m := t] && s'.holders == s.holders && s'.running == s.running
    ensures Disciplined(e, max, s')
  {
    MovesShaped(e, s, s', t, k);
    TakenLock(s.stacks, s.held, t, k, m);
    SameCount(s.stacks, s.holders, max, t, k);
    SameTurn(s.stacks, s.running, t, k);
  }

  lemma Released(e: Site, max: int, s: Machine, s': Machine, t: Task, k: Stack, m: string)
    requires Disciplined(e, max, s) && Moves(e, s, s', t, k)
    requires Holding(s.stacks[t]) == Some(m) && Holding(k) == None
    requires !InProbe(s.stacks[t]) && !InProbe(k) && Live(k) && s.running.None?
    requires s'.held == s.held - {m} && s'.holders == s.holders && s'.running == Some(t)
    ensures Disciplined(e, max, s')
  {
    MovesShaped(e, s, s', t, k);
    FreedLock(s.stacks, s.held, t, k, m);
    SameCount(s.stacks, s.holders, max, t, k);
    OwnTurn(s.stacks, s.running, t, k);
  }

  lemma Entered(e: Site, max: int, s: Machine, s': Machine, t: Task, k: Stack)
    requires Disciplined(e, max, s) && Moves(e, s, s', t, k) && |s.holders| < max
    requires Holding(s.stacks[t]) == Holding(k) && !InProbe(s.stacks[t]) && InProbe(k)
    requires !Live(s.stacks[t]) && !Live(k)
    requires s'.held == s.held && s'.holders == s.holders + {t} && s'.running == s.running
    ensures Disciplined(e, max, s')
  {
    MovesShaped(e, s, s', t, k);
    SameLock(s.stacks, s.held, t, k);
    SameTurn(s.stacks, s.running, t, k);
    OneMoreCounted(s.stacks, s.holders, max, t, k);
  }

  lemma Left(e: Site, max: int, s: Machine, s': Machine, t: Task, k: Stack)
    requires Disciplined(e, max, s) && Moves(e, s, s', t, k)
    requires Holding(s.stacks[t]) == Holding(k) && InProbe(s.stacks[t]) && !InProbe(k)
    requires !Live(s.stacks[t]) && !Live(k)
    requires s'.held == s.held && s'.holders == s.holders - {t} && s'.running == s.running
    ensures Disciplined(e, max, s')
  {
    MovesShaped(e, s, s', t, k);
    SameLock(s.stacks, s.held, t, k);
    SameTurn(s.stacks, s.running, t, k);
    OneLessCounted(s.stacks, s.holders, max, t, k);
  }

  // -------------------------------------------------------- action by action

  lemma WakeKeeps(e: Site, max: int, s: Machine, a: Action)
    requires Disciplined(e, max, s) && Enabled(e, max, s, a) && a.Wake?
    ensures Disciplined(e, max, Apply(e, max, s, a))
  {
    PushOk(e, [], a.monitor);
    Unlocked(e, max, s, Apply(e, max, s, a), a.task, [] + [Activation(a.monitor, WaitLock)]);
  }

  lemma TakeLockKeeps(e: Site, max: int, s: Machine, a: Action)
    requires Disciplined(e, max, s) && Enabled(e, max, s, a) && a.TakeLock?
    ensures Disciplined(e, max, Apply(e, max, s, a))
  {
    var k := s.stacks[a.task];
    SetTopOk(e, k, WaitSem);
    Acquired(e, max, s, Apply(e, max, s, a), a.task, SetTop(k, WaitSem), Top(k).monitor);
  }

  lemma TakeSemKeeps(e: Site, max: int, s: Machine, a: Action)
    requires Disciplined(e, max, s) && Enabled(e, max, s, a) && a.TakeSem?
    ensures Disciplined(e, max, Apply(e, max, s, a))
  {
    var k := s.stacks[a.task];
    SetTopOk(e, k, Probing);
    Entered(e, max, s, Apply(e, max, s, a), a.task, SetTop(k, Probing));
  }

  lemma AnswerKeeps(e: Site, max: int, s: Machine, a: Action)
    requires Disciplined(e, max, s) && Enabled(e, max, s, a) && a.Answer?
    ensures Disciplined(e, max, Apply(e, max, s, a))
  {
    var k := s.stacks[a.task];
    SetTopOk(e, k, Writing(a.verdict));
    Left(e, max, s, Apply(e, max, s, a), a.task, SetTop(k, Writing(a.verdict)));
  }

  lemma WriteRowKeeps(e: Site, max: int, s: Machine, a: Action)
    requires Disciplined(e, max, s) && Enabled(e, max, s, a) && a.WriteRow?
    ensures Disciplined(e, max, Apply(e, max, s, a))
  {
    var k := s.stacks[a.task];
    var stage := Written(Top(k).stage.verdict);
    SetTopOk(e, k, stage);
    Aside(e, max, s, Apply(e, max, s, a), a.task, SetTop(k, stage));
  }

  lemma ChangeNotPending(s: Status, v: Verdict)
    ensures Change(s, v).Some? ==> Change(s, v).value.current != Pending
  {
  }

  lemma AfterFits(e: Site, w: World, m: string, v: Verdict)
    requires Fits(e, w) && m in w.states
    ensures Fits(e, w.(states := w.states[m := After(w.states[m], v)]))
  {
  }

  lemma ResumeKeeps(e: Site, max: int, s: Machine, t: Task, m: string, v: Verdict)
    requires Disciplined(e, max, s) && s.running.None? && Active(s, t)
    requires Top(s.stacks[t]) == Activation(m, Written(v)) && m in s.world.states
    ensures Disciplined(e, max, Observed(s, t, m, v))
  {
    var k, change := s.stacks[t], Change(s.world.states[m], v);
    ChangeNotPending(s.world.states[m], v);
    AfterFits(e, s.world, m, v);
    var stage := if change.None? then Returning(v) else Deciding(change.value, v);
    SetTopOk(e, k, stage);
    Released(e, max, s, Observed(s, t, m, v), t, SetTop(k, stage), m);
  }

  /** A task that holds no lock goes on to another stage. */
  lemma GotoKeeps(e: Site, max: int, s: Machine, s': Machine, t: Task, stage: Stage)
    requires Disciplined(e, max, s) && Active(s, t) && !HoldsLock(Top(s.stacks[t]).stage)
    requires s.running.None? || s.running == Some(t)
    requires s'.stacks == s.stacks[t := SetTop(s.stacks[t], stage)] && Fits(e, s'.world)
    requires TodoOk(e, Top(s.stacks[t]).monitor, stage) && !stage.AwaitChild? && !HoldsLock(stage)
    requires s'.held == s.held && s'.holders == s.holders
    requires s'.running == if Immediate(stage) then Some(t) else None
    ensures Disciplined(e, max, s')
  {
    SetTopOk(e, s.stacks[t], stage);
    Unlocked(e, max, s, s', t, SetTop(s.stacks[t], stage));
  }

  lemma AlertLogged(e: Site, max: int, s: Machine, t: Task, m: string, tr: Transition, v: Verdict, note: Note)
    requires Disciplined(e, max, s) && s.running.None? && Active(s, t)
    requires Top(s.stacks[t]) == Activation(m, Logging(tr, v, note))
    ensures Disciplined(e, max, ApplyLogged(e, s, t))
  {
    GotoKeeps(e, max, s, ApplyLogged(e, s, t), t,
              if tr.current == Up then Releasing(v, e.net.order) else Returning(v));
  }

  lemma StillLogged(e: Site, max: int, s: Machine, t: Task, m: string, v: Verdict, todo: seq<string>, n: Notice)
    requires Disciplined(e, max, s) && s.running.None? && Active(s, t)
    requires Top(s.stacks[t]) == Activation(m, LoggingStill(v, todo, n)) && TodoOk(e, m, LoggingStill(v, todo, n))
    ensures Disciplined(e, max, ApplyLogged(e, s, t))
  {
    GotoKeeps(e, max, s, ApplyLogged(e, s, t), t, Releasing(v, todo[1..]));
  }

  lemma LoggedKeeps(e: Site, max: int, s: Machine, t: Task)
    requires Disciplined(e, max, s) && Enabled(e, max, s, Logged(t))
    ensures TodoOk(e, Top(s.stacks[t]).monitor, Top(s.stacks[t]).stage)
    ensures Disciplined(e, max, ApplyLogged(e, s, t))
  {
    var m, g := Top(s.stacks[t]).monitor, Top(s.stacks[t]).stage;
    assert TodoOk(e, m, g);
    if g.LoggingStill? {
      StillLogged(e, max, s, t, m, g.verdict, g.todo, g.notice);
    } else {
      AlertLogged(e, max, s, t, m, g.change, g.verdict, g.note);
    }
  }

  // ------------------------------------------------------ the running task

  lemma CallKeeps(e: Site, max: int, s: Machine, t: Task, stage: Stage, p: string)
    requires Disciplined(e, max, s) && s.running == Some(t) && Active(s, t) && Immediate(Top(s.stacks[t]).stage)
    requires TodoOk(e, Top(s.stacks[t]).monitor, stage) && (stage.AwaitChild? || stage.Confirming?)
    requires p in e.net.order
    ensures Disciplined(e, max, Call(s, t, SetTop(s.stacks[t], stage), p))
  {
    var k := SetTop(s.stacks[t], stage);
    BelowWaits(e, s.stacks[t]);
    WaitingTop(e, s.stacks[t][..|s.stacks[t]| - 1], Activation(Top(s.stacks[t]).monitor, stage));
    PushOk(e, k, p);
    Unlocked(e, max, s, Call(s, t, k, p), t, k + [Activation(p, WaitLock)]);
  }

  lemma SettledKeeps(e: Site, max: int, s: Machine, t: Task, tr: Transition, v: Verdict, blocker: Option<string>)
    requires Disciplined(e, max, s) && s.running == Some(t) && Active(s, t) && Immediate(Top(s.stacks[t]).stage)
    ensures Top(s.stacks[t]).monitor in s.world.states
    ensures Disciplined(e, max, Settled(s, t, Top(s.stacks[t]).monitor, tr, v, blocker))
  {
    var m := Top(s.stacks[t]).monitor;
    AlertFits(e, s.world, m, true, Notice(m, tr, Plain));
    var note := match blocker case Some(b) => SuppressedBy(b) case None => Plain;
    GotoKeeps(e, max, s, Settled(s, t, m, tr, v, blocker), t, Logging(tr, v, note));
  }

  lemma DecidingKeeps(e: Site, max: int, s: Machine, t: Task)
    requires Disciplined(e, max, s) && s.running == Some(t) && Active(s, t) && Top(s.stacks[t]).stage.Deciding?
    ensures Disciplined(e, max, ApplyContinue(e, s, t))
  {
    var m, tr, v := Top(s.stacks[t]).monitor, Top(s.stacks[t]).stage.change, Top(s.stacks[t]).stage.verdict;
    if IsProblem(tr.current) {
      var blocker := BlockingParent(e.net, s.world.states, m);
      if blocker.None? && e.net.parents[m] != [] {
        GotoKeeps(e, max, s, ApplyContinue(e, s, t), t, Confirming(tr, v, e.net.parents[m], 0));
      } else {
        SettledKeeps(e, max, s, t, tr, v, blocker);
      }
    } else {
      AlertFits(e, s.world, m, false, Notice(m, tr, Plain));
      GotoKeeps(e, max, s, ApplyContinue(e, s, t), t, Logging(tr, v, Plain));
    }
  }

  lemma ConfirmingKeeps(e: Site, max: int, s: Machine, t: Task)
    requires Disciplined(e, max, s) && s.running == Some(t) && Active(s, t) && Top(s.stacks[t]).stage.Confirming?
    ensures Disciplined(e, max, ApplyContinue(e, s, t))
  {
    var m, g := Top(s.stacks[t]).monitor, Top(s.stacks[t]).stage;
    assert TodoOk(e, m, g);
    if g.todo == [] {
      SettledKeeps(e, max, s, t, g.change, g.verdict, BlockingParent(e.net, s.world.states, m));
    } else {
      NextParentKeeps(e, max, s, t, m, g);
    }
  }

  /** The next parent is polled, or it needs no more polls. */
  lemma NextParentKeeps(e: Site, max: int, s: Machine, t: Task, m: string, g: Stage)
    requires Disciplined(e, max, s) && s.running == Some(t) && Active(s, t) && Top(s.stacks[t]) == Activation(m, g)
    requires g.Confirming? && g.todo != [] && TodoOk(e, m, g)
    ensures Disciplined(e, max, OnConfirming(e, s, t, m, g.change, g.verdict, g.todo, g.attempts))
  {
    if g.todo[0] in e.net.order && Unsettled(s.world.states[g.todo[0]]) && g.attempts < e.failures[g.todo[0]] {
      CallKeeps(e, max, s, t, g.(attempts := g.attempts + 1), g.todo[0]);
    } else {
      var rest := Confirming(g.change, g.verdict, g.todo[1..], 0);
      GotoKeeps(e, max, s, Goto(s, t, rest), t, rest);
    }
  }

  lemma ReleasingKeeps(e: Site, max: int, s: Machine, t: Task)
    requires Disciplined(e, max, s) && s.running == Some(t) && Active(s, t) && Top(s.stacks[t]).stage.Releasing?
    ensures Disciplined(e, max, ApplyContinue(e, s, t))
  {
    var m, v, todo := Top(s.stacks[t]).monitor, Top(s.stacks[t]).stage.verdict, Top(s.stacks[t]).stage.todo;
    assert TodoOk(e, m, Top(s.stacks[t]).stage);
    if todo == [] {
      GotoKeeps(e, max, s, ApplyContinue(e, s, t), t, Returning(v));
    } else if Releasable(e, s.world, todo[0], m) {
      CallKeeps(e, max, s, t, AwaitChild(v, todo), todo[0]);
    } else {
      GotoKeeps(e, max, s, ApplyContinue(e, s, t), t, Releasing(v, todo[1..]));
    }
  }

  lemma CheckingKeeps(e: Site, max: int, s: Machine, t: Task)
    requires Disciplined(e, max, s) && s.running == Some(t) && Active(s, t) && Top(s.stacks[t]).stage.Checking?
    ensures Disciplined(e, max, ApplyContinue(e, s, t))
  {
    var m, g := Top(s.stacks[t]).monitor, Top(s.stacks[t]).stage;
    assert TodoOk(e, m, g);
    var c := g.todo[0];
    if StillAlone(e, s.world, c, g.child) {
      var n := Notice(c, Transition(s.world.states[c].state, s.world.states[c].state), StillAfter(m));
      AlertFits(e, s.world, c, true, n);
      GotoKeeps(e, max, s, ApplyContinue(e, s, t), t, LoggingStill(g.verdict, g.todo, n));
    } else {
      GotoKeeps(e, max, s, ApplyContinue(e, s, t), t, Releasing(g.verdict, g.todo[1..]));
    }
  }

  lemma PopOk(e: Site, k: Stack, v: Verdict)
    requires StackOk(e, k) && k != []
    ensures StackOk(e, Popped(k, v)) && (Popped(k, v) != [] ==> Immediate(Top(Popped(k, v)).stage))
  {
    var b := k[..|k| - 1];
    BelowWaits(e, k);
    if b != [] {
      var top := Top(b);
      assert Waiting(e, b[..|b| - 1]);
      if top.stage.AwaitChild? {
        WaitingTop(e, b[..|b| - 1], Activation(top.monitor, Checking(top.stage.verdict, top.stage.todo, v)));
      } else {
        WaitingTop(e, b[..|b| - 1], top);
        assert b == b[..|b| - 1] + [top];
      }
    }
  }

  lemma ReturningKeeps(e: Site, max: int, s: Machine, t: Task)
    requires Disciplined(e, max, s) && s.running == Some(t) && Active(s, t) && Top(s.stacks[t]).stage.Returning?
    ensures Disciplined(e, max, ApplyContinue(e, s, t))
  {
    var v := Top(s.stacks[t]).stage.verdict;
    PopOk(e, s.stacks[t], v);
    Unlocked(e, max, s, OnReturning(s, t, v), t, Popped(s.stacks[t], v));
  }

  lemma StepKeeps(e: Site, max: int, s: Machine, a: Action)
    requires Disciplined(e, max, s) && Enabled(e, max, s, a)
    ensures Disciplined(e, max, Apply(e, max, s, a))
  {
    match a {
      case Wake(_, _) => WakeKeeps(e, max, s, a);
      case WriteRow(_) => WriteRowKeeps(e, max, s, a);
      case Resume(t) => ResumeKeeps(e, max, s, t, Top(s.stacks[t]).monitor, Top(s.stacks[t]).stage.verdict);
      case Logged(t) => LoggedKeeps(e, max, s, t);
      case Continue(t) =>
        match Top(s.stacks[t]).stage {
          case Deciding(_, _) => DecidingKeeps(e, max, s, t);
          case Confirming(_, _, _, _) => ConfirmingKeeps(e, max, s, t);
          case Releasing(_, _) => ReleasingKeeps(e, max, s, t);
          case Checking(_, _, _) => CheckingKeeps(e, max, s, t);
          case Returning(_) => ReturningKeeps(e, max, s, t);
        }
      case TakeLock(_) => TakeLockKeeps(e, max, s, a);
      case TakeSem(_) => TakeSemKeeps(e, max, s, a);
      case Answer(_, _) => AnswerKeeps(e, max, s, a);
    }
  }
}
