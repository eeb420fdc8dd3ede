/** The scheduler as asyncio runs it (watchpost/scheduler.py): tasks that switch
    only where they suspend, a lock per monitor and one semaphore.

    A task is a stack of activations of poll_once, each with the stage it has
    reached inside poll_once, _on_transition, _confirm_parents or
    _release_children.  While a task is `running` nothing else moves, except
    that the worker thread of the store may write a row. */
module Interleavings {
  import opened Wrappers
  import opened Graphs
  import opened MonitorStates
  import opened Networks
  import opened Engine

  type Task = nat

  datatype Stage =
    | WaitLock
    | WaitSem
    | Probing
    | Writing(verdict: Verdict)
    | Written(verdict: Verdict)
    | Deciding(change: Transition, verdict: Verdict)
    | Confirming(change: Transition, verdict: Verdict, todo: seq<string>, attempts: nat)
    | Logging(change: Transition, verdict: Verdict, note: Note)
    | Releasing(verdict: Verdict, todo: seq<string>)
    | AwaitChild(verdict: Verdict, todo: seq<string>)
    | Checking(verdict: Verdict, todo: seq<string>, child: Verdict)
    | LoggingStill(verdict: Verdict, todo: seq<string>, notice: Notice)
    | Returning(verdict: Verdict)

  datatype Activation = Activation(monitor: string, stage: Stage)

  type Stack = seq<Activation>

  datatype Machine = Machine(world: World, stacks: map<Task, Stack>,
                             held: map<string, Task>, holders: set<Task>, running: Option<Task>)

  datatype Action =
    | Wake(task: Task, monitor: string)
    | TakeLock(task: Task)
    | TakeSem(task: Task)
    | Answer(task: Task, verdict: Verdict)
    | WriteRow(task: Task)
    | Resume(task: Task)
    | Logged(task: Task)
    | Continue(task: Task)

  // ---------------------------------------------------------------- the actions

  predicate Active(s: Machine, t: Task) {
    t in s.stacks && s.stacks[t] != []
  }

  function Top(k: Stack): Activation
    requires k != []
  {
    k[|k| - 1]
  }

  function SetTop(k: Stack, stage: Stage): Stack
    requires k != []
  {
    k[..|k| - 1] + [Activation(Top(k).monitor, stage)]
  }

  function Goto(s: Machine, t: Task, stage: Stage): Machine
    requires Active(s, t)
  {
    s.(stacks := s.stacks[t := SetTop(s.stacks[t], stage)])
  }

  /** Call poll_once(m) on top of `k`: the next thing is to wait for its lock. */
  function Call(s: Machine, t: Task, k: Stack, m: string): Machine
    requires t in s.stacks
  {
    s.(stacks := s.stacks[t := k + [Activation(m, WaitLock)]], running := None)
  }

  /** Code that runs without suspending. */
  predicate Immediate(g: Stage) {
    g.Deciding? || g.Confirming? || g.Releasing? || g.Checking? || g.Returning?
  }

  predicate HoldsLock(g: Stage) {
    g.WaitSem? || g.Probing? || g.Writing? || g.Written?
  }

  ghost predicate Enabled(e: Site, max: int, s: Machine, a: Action) {
    match a
    case Wake(t, m) => s.running.None? && t in s.stacks && s.stacks[t] == [] && m in e.net.order
    case TakeLock(t) =>
      s.running.None? && Active(s, t) && Top(s.stacks[t]).stage.WaitLock? && Top(s.stacks[t]).monitor !in s.held
    case TakeSem(t) =>
      s.running.None? && Active(s, t) && Top(s.stacks[t]).stage.WaitSem? && |s.holders| < max
    case Answer(t, _) => s.running.None? && Active(s, t) && Top(s.stacks[t]).stage.Probing?
    case WriteRow(t) => Active(s, t) && Top(s.stacks[t]).stage.Writing?
    case Resume(t) => s.running.None? && Active(s, t) && Top(s.stacks[t]).stage.Written?
    case Logged(t) =>
      s.running.None? && Active(s, t) && (Top(s.stacks[t]).stage.Logging? || Top(s.stacks[t]).stage.LoggingStill?)
    case Continue(t) => s.running == Some(t) && Active(s, t) && Immediate(Top(s.stacks[t]).stage)
  }

  /** After the result is recorded: observe it and release the lock. */
  function Observed(s: Machine, t: Task, m: string, v: Verdict): Machine
    requires Active(s, t) && m in s.world.states
  {
    var st := s.world.states[m];
    var next := match Change(st, v)
                case None => Returning(v)
                case Some(tr) => Deciding(tr, v);
    Goto(s, t, next).(
      world := s.world.(states := s.world.states[m := After(st, v)]),
      held := s.held - {m}, running := Some(t))
  }

  /** A problem transition is suppressed or sent; either way it is logged next. */
  function Settled(s: Machine, t: Task, m: string, tr: Transition, v: Verdict, blocker: Option<string>): Machine
    requires Active(s, t) && m in s.world.states
  {
    match blocker
    case Some(b) => Goto(s, t, Logging(tr, v, SuppressedBy(b))).(running := None)
    case None => Goto(s, t, Logging(tr, v, Plain)).(
      world := Alert(s.world, m, true, Notice(m, tr, Plain)), running := None)
  }

  ghost function OnDeciding(e: Site, s: Machine, t: Task, m: string, tr: Transition, v: Verdict): Machine
    requires e.Valid() && Fits(e, s.world) && Active(s, t) && m in e.net.order
  {
    if IsProblem(tr.current) then
      var blocker := BlockingParent(e.net, s.world.states, m);
      if blocker.None? && e.net.parents[m] != [] then Goto(s, t, Confirming(tr, v, e.net.parents[m], 0))
      else Settled(s, t, m, tr, v, blocker)
    else
      Goto(s, t, Logging(tr, v, Plain)).(
        world := if s.world.states[m].alertOpen then Alert(s.world, m, false, Notice(m, tr, Plain)) else s.world,
        running := None)
  }

  ghost function OnConfirming(e: Site, s: Machine, t: Task, m: string, tr: Transition, v: Verdict,
                              todo: seq<string>, attempts: nat): Machine
    requires e.Valid() && Fits(e, s.world) && Active(s, t) && m in e.net.order
  {
    if todo == [] then Settled(s, t, m, tr, v, BlockingParent(e.net, s.world.states, m))
    else if todo[0] in e.net.order && Unsettled(s.world.states[todo[0]]) && attempts < e.failures[todo[0]] then
      Call(s, t, SetTop(s.stacks[t], Confirming(tr, v, todo, attempts + 1)), todo[0])
    else Goto(s, t, Confirming(tr, v, todo[1..], 0))
  }

  ghost function OnReleasing(e: Site, s: Machine, t: Task, m: string, v: Verdict, todo: seq<string>): Machine
    requires e.Valid() && Fits(e, s.world) && Active(s, t) && forall c | c in todo :: c in e.net.order
  {
    if todo == [] then Goto(s, t, Returning(v))
    else if Releasable(e, s.world, todo[0], m) then Call(s, t, SetTop(s.stacks[t], AwaitChild(v, todo)), todo[0])
    else Goto(s, t, Releasing(v, todo[1..]))
  }

  ghost function OnChecking(e: Site, s: Machine, t: Task, m: string, v: Verdict, todo: seq<string>,
                            child: Verdict): Machine
    requires e.Valid() && Fits(e, s.world) && Active(s, t) && todo != [] && todo[0] in e.net.order
  {
    var c := todo[0];
    if StillAlone(e, s.world, c, child) then
      var n := Notice(c, Transition(s.world.states[c].state, s.world.states[c].state), StillAfter(m));
      Goto(s, t, LoggingStill(v, todo, n)).(world := Alert(s.world, c, true, n), running := None)
    else Goto(s, t, Releasing(v, todo[1..]))
  }

  /** poll_once returns `v` to its caller. */
  function Popped(k: Stack, v: Verdict): Stack
    requires k != []
  {
    var below := k[..|k| - 1];
    if below != [] && Top(below).stage.AwaitChild? then
      SetTop(below, Checking(Top(below).stage.verdict, Top(below).stage.todo, v))
    else below
  }

  function OnReturning(s: Machine, t: Task, v: Verdict): Machine
    requires Active(s, t)
  {
    var k := Popped(s.stacks[t], v);
    s.(stacks := s.stacks[t := k], running := if k == [] then None else s.running)
  }

  /** The parts of the invariant that the actions need to be defined. */
  ghost predicate StackOk(e: Site, k: Stack) {
    && (forall i | 0 <= i < |k| :: k[i].monitor in e.net.order && TodoOk(e, k[i].monitor, k[i].stage))
    && (forall i | 0 <= i < |k| - 1 :: k[i].stage.Confirming? || k[i].stage.AwaitChild?)
    && (k != [] ==> !Top(k).stage.AwaitChild?)
  }

  ghost predicate TodoOk(e: Site, m: string, g: Stage) {
    match g
    case Deciding(tr, _) => tr.current != Pending
    case Confirming(tr, _, todo, _) => IsProblem(tr.current) && forall p | p in todo :: Edge(e.net.parents, m, p)
    case Releasing(_, todo) => forall c | c in todo :: c in e.net.order
    case AwaitChild(_, todo) => todo != [] && forall c | c in todo :: c in e.net.order
    case Checking(_, todo, _) => todo != [] && forall c | c in todo :: c in e.net.order
    case Logging(_, _, note) => !note.StillAfter?
    case LoggingStill(_, todo, n) => n.note.StillAfter? && todo != [] && forall c | c in todo :: c in e.net.order
    case _ => true
  }

  ghost predicate Shaped(e: Site, s: Machine) {
    e.Valid() && Fits(e, s.world) && forall t | t in s.stacks :: StackOk(e, s.stacks[t])
  }

  ghost function Apply(e: Site, max: int, s: Machine, a: Action): Machine
    requires Shaped(e, s) && Enabled(e, max, s, a)
  {
    match a
    case Wake(t, m) => Call(s, t, [], m)
    case TakeLock(t) => Goto(s, t, WaitSem).(held := s.held[Top(s.stacks[t]).monitor := t])
    case TakeSem(t) => Goto(s, t, Probing).(holders := s.holders + {t})
    case Answer(t, v) => Goto(s, t, Writing(v)).(holders := s.holders - {t})
    case WriteRow(t) =>
      var top := Top(s.stacks[t]);
      Goto(s, t, Written(top.stage.verdict)).(
        world := s.world.(rows := s.world.rows + [Row(top.monitor, top.stage.verdict)]))
    case Resume(t) => Observed(s, t, Top(s.stacks[t]).monitor, Top(s.stacks[t]).stage.verdict)
    case Logged(t) => ApplyLogged(e, s, t)
    case Continue(t) => ApplyContinue(e, s, t)
  }

  function ApplyLogged(e: Site, s: Machine, t: Task): Machine
    requires Active(s, t) && (Top(s.stacks[t]).stage.Logging? || Top(s.stacks[t]).stage.LoggingStill?)
    requires Top(s.stacks[t]).stage.LoggingStill? ==> Top(s.stacks[t]).stage.todo != []
  {
    var top := Top(s.stacks[t]);
    match top.stage
    case Logging(tr, v, note) =>
      Goto(s, t, if tr.current == Up then Releasing(v, e.net.order) else Returning(v)).(
        world := Log(s.world, Notice(top.monitor, tr, note)), running := Some(t))
    case LoggingStill(v, todo, n) =>
      Goto(s, t, Releasing(v, todo[1..])).(world := Log(s.world, n), running := Some(t))
  }

  ghost function ApplyContinue(e: Site, s: Machine, t: Task): Machine
    requires e.Valid() && Fits(e, s.world) && Active(s, t) && StackOk(e, s.stacks[t])
             && Immediate(Top(s.stacks[t]).stage)
  {
    var top := Top(s.stacks[t]);
    match top.stage
    case Deciding(tr, v) => OnDeciding(e, s, t, top.monitor, tr, v)
    case Confirming(tr, v, todo, attempts) => OnConfirming(e, s, t, top.monitor, tr, v, todo, attempts)
    case Releasing(v, todo) => OnReleasing(e, s, t, top.monitor, v, todo)
    case Checking(v, todo, child) => OnChecking(e, s, t, top.monitor, v, todo, child)
    case Returning(v) => OnReturning(s, t, v)
  }
}
