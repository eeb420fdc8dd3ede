/** The interleaved machine, left to one task, does exactly what the
    run-to-completion engine does: the two models agree. */
module SequentialRuns {
  import opened Wrappers
  import opened Graphs
  import opened MonitorStates
  import opened Networks
  import opened Engine
  import opened EngineInduction
  import opened Interleavings
  import opened Discipline
  import opened Behaviours

  // ----- Reaching a state -----

  /** A check answers what the site says it does, and each task polls its own monitor. */
  ghost predicate Heeds(e: Site, s: Machine, a: Action) {
    && OwnLoop(e.net, a)
    && (a.Answer? && Active(s, a.task) ==> a.verdict == e.check(Top(s.stacks[a.task]).monitor, |s.world.rows|))
  }

  ghost predicate CanStep(e: Site, max: int, s: Machine, u: Machine) {
    exists a :: Step(e, max, s, a, u) && Heeds(e, s, a)
  }

  ghost predicate Path(e: Site, max: int, trace: seq<Machine>) {
    trace != [] && forall i, j | 0 <= i && j == i + 1 < |trace| :: CanStep(e, max, trace[i], trace[j])
  }

  ghost predicate Reaches(e: Site, max: int, s: Machine, u: Machine) {
    exists trace :: Path(e, max, trace) && trace[0] == s && trace[|trace| - 1] == u
  }

  lemma ReachesNext(e: Site, max: int, s: Machine, a: Action)
    requires Shaped(e, s) && Enabled(e, max, s, a) && Heeds(e, s, a)
    ensures Reaches(e, max, s, Apply(e, max, s, a))
  {
    var u := Apply(e, max, s, a);
    assert Step(e, max, s, a, u);
    OneStep(e, max, s, u);
  }

  lemma ReachesHere(e: Site, max: int, s: Machine)
    ensures Reaches(e, max, s, s)
  {
    assert Path(e, max, [s]);
  }

  lemma OneStep(e: Site, max: int, s: Machine, u: Machine)
    requires CanStep(e, max, s, u)
    ensures Reaches(e, max, s, u)
  {
    assert Path(e, max, [s, u]);
  }

  lemma PathStep(e: Site, max: int, p: seq<Machine>, i: nat)
    requires Path(e, max, p) && i + 1 < |p|
    ensures CanStep(e, max, p[i], p[i + 1])
  {
    var j := i + 1;
    assert CanStep(e, max, p[i], p[j]);
  }

  lemma JoinPaths(e: Site, max: int, p: seq<Machine>, q: seq<Machine>)
    requires Path(e, max, p) && Path(e, max, q) && p[|p| - 1] == q[0]
    ensures Path(e, max, p + q[1..])
  {
    var r := p + q[1..];
    forall i, j | 0 <= i && j == i + 1 < |r|
      ensures CanStep(e, max, r[i], r[j])
    {
      if j < |p| {
        PathStep(e, max, p, i);
      } else {
        assert r[i] == q[i - |p| + 1] && r[j] == q[j - |p| + 1];
        PathStep(e, max, q, i - |p| + 1);
      }
    }
  }

  lemma ReachesFurther(e: Site, max: int, s: Machine, u: Machine, v: Machine)
    requires Reaches(e, max, s, u) && Reaches(e, max, u, v)
    ensures Reaches(e, max, s, v)
  {
    var p :| Path(e, max, p) && p[0] == s && p[|p| - 1] == u;
    var q :| Path(e, max, q) && q[0] == u && q[|q| - 1] == v;
    JoinPaths(e, max, p, q);
    assert (p + q[1..])[|p + q[1..]| - 1] == v;
  }

  // ----- One task moves, the others wait -----

  /** Everything below the top activation of t waits for a call. */
  ghost predicate Room(e: Site, max: int, others: map<Task, Stack>, t: Task, k: Stack) {
    e.Valid() && max >= 1 && t in others && (forall u | u in others :: StackOk(e, others[u])) && Waiting(e, k)
  }

  lemma ShapedWith(e: Site, others: map<Task, Stack>, t: Task, s: Machine, k: Stack)
    requires e.Valid() && (forall u | u in others :: StackOk(e, others[u])) && StackOk(e, k)
    requires s.stacks == others[t := k] && Fits(e, s.world)
    ensures Shaped(e, s)
  {
  }

  lemma TopOk(e: Site, k: Stack, m: string, g: Stage)
    requires Waiting(e, k) && m in e.net.order && TodoOk(e, m, g) && !g.AwaitChild?
    ensures StackOk(e, k + [Activation(m, g)])
  {
    WaitingTop(e, k, Activation(m, g));
  }

  lemma SetTopOn(k: Stack, m: string, g: Stage, h: Stage)
    ensures Top(k + [Activation(m, g)]) == Activation(m, g)
    ensures SetTop(k + [Activation(m, g)], h) == k + [Activation(m, h)]
  {
  }

  /** Task t has the top activation m at stage g; the other tasks, the lock table and the semaphore as given. */
  function Staged(others: map<Task, Stack>, t: Task, w: World, k: Stack, m: string, g: Stage,
                  held: map<string, Task>, holders: set<Task>, running: Option<Task>): Machine {
    Machine(w, others[t := k + [Activation(m, g)]], held, holders, running)
  }

  /** Goto changes the stage of the top activation and nothing else. */
  lemma GotoOn(others: map<Task, Stack>, t: Task, w: World, k: Stack, m: string, g: Stage, h: Stage,
               held: map<string, Task>, holders: set<Task>, running: Option<Task>)
    ensures var s := Staged(others, t, w, k, m, g, held, holders, running);
            && Active(s, t) && Top(s.stacks[t]) == Activation(m, g)
            && Goto(s, t, h) == Staged(others, t, w, k, m, h, held, holders, running)
  {
    SetTopOn(k, m, g, h);
    var s := Staged(others, t, w, k, m, g, held, holders, running);
    assert s.stacks[t := k + [Activation(m, h)]] == others[t := k + [Activation(m, h)]];
  }

  lemma StagedShaped(e: Site, max: int, others: map<Task, Stack>, t: Task, w: World, k: Stack, m: string, g: Stage,
                     held: map<string, Task>, holders: set<Task>, running: Option<Task>)
    requires Room(e, max, others, t, k) && Fits(e, w) && m in e.net.order && TodoOk(e, m, g) && !g.AwaitChild?
    ensures Shaped(e, Staged(others, t, w, k, m, g, held, holders, running))
  {
    TopOk(e, k, m, g);
    ShapedWith(e, others, t, Staged(others, t, w, k, m, g, held, holders, running), k + [Activation(m, g)]);
  }

  // ----- The probe -----

  lemma LockTaken(e: Site, max: int, others: map<Task, Stack>, t: Task, w: World, k: Stack, m: string)
    requires Room(e, max, others, t, k) && Fits(e, w) && m in e.net.order
    ensures Reaches(e, max, Staged(others, t, w, k, m, WaitLock, map[], {}, None),
                    Staged(others, t, w, k, m, WaitSem, map[m := t], {}, None))
  {
    StagedShaped(e, max, others, t, w, k, m, WaitLock, map[], {}, None);
    GotoOn(others, t, w, k, m, WaitLock, WaitSem, map[], {}, None);
    ReachesNext(e, max, Staged(others, t, w, k, m, WaitLock, map[], {}, None), TakeLock(t));
  }

  lemma SemTaken(e: Site, max: int, others: map<Task, Stack>, t: Task, w: World, k: Stack, m: string)
    requires Room(e, max, others, t, k) && Fits(e, w) && m in e.net.order
    ensures Reaches(e, max, Staged(others, t, w, k, m, WaitSem, map[m := t], {}, None),
                    Staged(others, t, w, k, m, Probing, map[m := t], {t}, None))
  {
    StagedShaped(e, max, others, t, w, k, m, WaitSem, map[m := t], {}, None);
    GotoOn(others, t, w, k, m, WaitSem, Probing, map[m := t], {}, None);
    assert {} + {t} == {t};
    ReachesNext(e, max, Staged(others, t, w, k, m, WaitSem, map[m := t], {}, None), TakeSem(t));
  }

  lemma Answered(e: Site, max: int, others: map<Task, Stack>, t: Task, w: World, k: Stack, m: string, v: Verdict)
    requires Room(e, max, others, t, k) && Fits(e, w) && m in e.net.order
    requires v == e.check(m, |w.rows|)
    ensures Reaches(e, max, Staged(others, t, w, k, m, Probing, map[m := t], {t}, None),
                    Staged(others, t, w, k, m, Writing(v), map[m := t], {}, None))
  {
    StagedShaped(e, max, others, t, w, k, m, Probing, map[m := t], {t}, None);
    GotoOn(others, t, w, k, m, Probing, Writing(v), map[m := t], {t}, None);
    assert {t} - {t} == {};
    ReachesNext(e, max, Staged(others, t, w, k, m, Probing, map[m := t], {t}, None), Answer(t, v));
  }

  lemma RowWritten(e: Site, max: int, others: map<Task, Stack>, t: Task, w: World, k: Stack, m: string, v: Verdict)
    requires Room(e, max, others, t, k) && Fits(e, w) && m in e.net.order
    ensures Reaches(e, max, Staged(others, t, w, k, m, Writing(v), map[m := t], {}, None),
                    Staged(others, t, w.(rows := w.rows + [Row(m, v)]), k, m, Written(v), map[m := t], {}, None))
  {
    StagedShaped(e, max, others, t, w, k, m, Writing(v), map[m := t], {}, None);
    GotoOn(others, t, w, k, m, Writing(v), Written(v), map[m := t], {}, None);
    ReachesNext(e, max, Staged(others, t, w, k, m, Writing(v), map[m := t], {}, None), WriteRow(t));
  }

  /** What poll_once does after the lock is released. */
  function AfterObserve(st: Status, v: Verdict): Stage {
    match Change(st, v)
    case None => Returning(v)
    case Some(tr) => Deciding(tr, v)
  }

  lemma ObservedIs(others: map<Task, Stack>, t: Task, w: World, k: Stack, m: string, v: Verdict)
    requires m in w.states
    ensures var s := Staged(others, t, w.(rows := w.rows + [Row(m, v)]), k, m, Written(v), map[m := t], {}, None);
            && Active(s, t) && Top(s.stacks[t]) == Activation(m, Written(v))
            && Observed(s, t, m, v)
               == Staged(others, t, Observe(w, m, v), k, m, AfterObserve(w.states[m], v), map[], {}, Some(t))
  {
    GotoOn(others, t, w.(rows := w.rows + [Row(m, v)]), k, m, Written(v), AfterObserve(w.states[m], v),
           map[m := t], {}, None);
    assert map[m := t] - {m} == map[];
  }

  lemma ResultObserved(e: Site, max: int, others: map<Task, Stack>, t: Task, w: World, k: Stack, m: string, v: Verdict)
    requires Room(e, max, others, t, k) && Fits(e, w) && m in e.net.order
    ensures Reaches(e, max,
                    Staged(others, t, w.(rows := w.rows + [Row(m, v)]), k, m, Written(v), map[m := t], {}, None),
                    Staged(others, t, Observe(w, m, v), k, m, AfterObserve(w.states[m], v), map[], {}, Some(t)))
  {
    var w1 := w.(rows := w.rows + [Row(m, v)]);
    StagedShaped(e, max, others, t, w1, k, m, Written(v), map[m := t], {}, None);
    ObservedIs(others, t, w, k, m, v);
    ReachesNext(e, max, Staged(others, t, w1, k, m, Written(v), map[m := t], {}, None), Resume(t));
  }

  /** Lock, semaphore, check, row and observation, in this order. */
  lemma Probed(e: Site, max: int, others: map<Task, Stack>, t: Task, w: World, k: Stack, m: string, v: Verdict)
    requires Room(e, max, others, t, k) && Fits(e, w) && m in e.net.order
    requires v == e.check(m, |w.rows|)
    ensures Reaches(e, max, Staged(others, t, w, k, m, WaitLock, map[], {}, None),
                    Staged(others, t, Observe(w, m, v), k, m, AfterObserve(w.states[m], v), map[], {}, Some(t)))
  {
    var s0 := Staged(others, t, w, k, m, WaitLock, map[], {}, None);
    var s1 := Staged(others, t, w, k, m, WaitSem, map[m := t], {}, None);
    var s2 := Staged(others, t, w, k, m, Probing, map[m := t], {t}, None);
    var s3 := Staged(others, t, w, k, m, Writing(v), map[m := t], {}, None);
    var s4 := Staged(others, t, w.(rows := w.rows + [Row(m, v)]), k, m, Written(v), map[m := t], {}, None);
    var s5 := Staged(others, t, Observe(w, m, v), k, m, AfterObserve(w.states[m], v), map[], {}, Some(t));
    LockTaken(e, max, others, t, w, k, m);
    SemTaken(e, max, others, t, w, k, m);
    Answered(e, max, others, t, w, k, m, v);
    RowWritten(e, max, others, t, w, k, m, v);
    ResultObserved(e, max, others, t, w, k, m, v);
    ReachesFurther(e, max, s0, s1, s2);
    ReachesFurther(e, max, s0, s2, s3);
    ReachesFurther(e, max, s0, s3, s4);
    ReachesFurther(e, max, s0, s4, s5);
  }

  // ----- Code that runs without suspending -----

  /** Task t runs, m is at stage g, and no lock is taken. */
  function Running(others: map<Task, Stack>, t: Task, w: World, k: Stack, m: string, g: Stage): Machine {
    Staged(others, t, w, k, m, g, map[], {}, Some(t))
  }

  lemma Continued(e: Site, max: int, others: map<Task, Stack>, t: Task, w: World, k: Stack, m: string, g: Stage)
    requires Room(e, max, others, t, k) && Fits(e, w) && m in e.net.order && TodoOk(e, m, g) && Immediate(g)
    ensures var s := Running(others, t, w, k, m, g);
            && Shaped(e, s) && Active(s, t) && Top(s.stacks[t]) == Activation(m, g)
            && Reaches(e, max, s, ApplyContinue(e, s, t))
  {
    StagedShaped(e, max, others, t, w, k, m, g, map[], {}, Some(t));
    GotoOn(others, t, w, k, m, g, g, map[], {}, Some(t));
    ReachesNext(e, max, Running(others, t, w, k, m, g), Continue(t));
  }

  function AfterLog(e: Site, tr: Transition, v: Verdict): Stage {
    if tr.current == Up then Releasing(v, e.net.order) else Returning(v)
  }

  /** The event row is written and the task goes on. */
  lemma EventLogged(e: Site, max: int, others: map<Task, Stack>, t: Task, w: World, k: Stack, m: string,
                    tr: Transition, v: Verdict, note: Note)
    requires Room(e, max, others, t, k) && Fits(e, w) && m in e.net.order && !note.StillAfter?
    ensures Reaches(e, max, Staged(others, t, w, k, m, Logging(tr, v, note), map[], {}, None),
                    Running(others, t, Log(w, Notice(m, tr, note)), k, m, AfterLog(e, tr, v)))
  {
    var g := Logging(tr, v, note);
    StagedShaped(e, max, others, t, w, k, m, g, map[], {}, None);
    GotoOn(others, t, w, k, m, g, AfterLog(e, tr, v), map[], {}, None);
    ReachesNext(e, max, Staged(others, t, w, k, m, g, map[], {}, None), Logged(t));
  }

  function NoteOf(blocker: Option<string>): Note {
    if blocker.Some? then SuppressedBy(blocker.value) else Plain
  }

  lemma SettledIs(others: map<Task, Stack>, t: Task, w: World, k: Stack, m: string, g: Stage,
                  tr: Transition, v: Verdict, blocker: Option<string>)
    requires m in w.states
    ensures var s := Running(others, t, w, k, m, g);
            && Active(s, t)
            && Settled(s, t, m, tr, v, blocker)
               == Staged(others, t, if blocker.Some? then w else Alert(w, m, true, Notice(m, tr, Plain)), k, m,
                         Logging(tr, v, NoteOf(blocker)), map[], {}, None)
  {
    GotoOn(others, t, w, k, m, g, Logging(tr, v, NoteOf(blocker)), map[], {}, Some(t));
  }

  /** A problem is settled: suppressed or alerted, then logged. */
  lemma ProblemSettled(e: Site, max: int, others: map<Task, Stack>, t: Task, w: World, k: Stack, m: string,
                       g: Stage, tr: Transition, v: Verdict, blocker: Option<string>)
    requires Room(e, max, others, t, k) && Fits(e, w) && m in e.net.order && IsProblem(tr.current)
    requires var s := Running(others, t, w, k, m, g);
      Active(s, t) && Reaches(e, max, s, Settled(s, t, m, tr, v, blocker))
    ensures Reaches(e, max, Running(others, t, w, k, m, g),
                    Running(others, t, Decide(w, m, tr, blocker), k, m, Returning(v)))
  {
    var s := Running(others, t, w, k, m, g);
    var w1 := if blocker.Some? then w else Alert(w, m, true, Notice(m, tr, Plain));
    AlertFits(e, w, m, true, Notice(m, tr, Plain));
    SettledIs(others, t, w, k, m, g, tr, v, blocker);
    EventLogged(e, max, others, t, w1, k, m, tr, v, NoteOf(blocker));
    ReachesFurther(e, max, s, Settled(s, t, m, tr, v, blocker),
                   Running(others, t, Decide(w, m, tr, blocker), k, m, Returning(v)));
  }

  // ----- Calls and returns -----

  /** The caller goes on with the result v of the call it waited for. */
  function Resumed(k: Stack, v: Verdict): Stack {
    if k != [] && Top(k).stage.AwaitChild? then SetTop(k, Checking(Top(k).stage.verdict, Top(k).stage.todo, v)) else k
  }

  function Back(others: map<Task, Stack>, t: Task, w: World, k: Stack, v: Verdict): Machine {
    Machine(w, others[t := Resumed(k, v)], map[], {}, if k == [] then None else Some(t))
  }

  lemma PoppedIs(k: Stack, a: Activation, v: Verdict)
    ensures Popped(k + [a], v) == Resumed(k, v)
  {
    assert (k + [a])[..|k + [a]| - 1] == k;
  }

  lemma ReturningIs(others: map<Task, Stack>, t: Task, w: World, k: Stack, m: string, v: Verdict)
    ensures var s := Running(others, t, w, k, m, Returning(v));
            Active(s, t) && OnReturning(s, t, v) == Back(others, t, w, k, v)
  {
    var a, s := Activation(m, Returning(v)), Running(others, t, w, k, m, Returning(v));
    PoppedIs(k, a, v);
    assert s.stacks[t] == k + [a];
    assert s.stacks[t := Resumed(k, v)] == others[t := Resumed(k, v)];
    assert Resumed(k, v) == [] <==> k == [];
  }

  lemma Returns(e: Site, max: int, others: map<Task, Stack>, t: Task, w: World, k: Stack, m: string, v: Verdict)
    requires Room(e, max, others, t, k) && Fits(e, w) && m in e.net.order
    ensures Reaches(e, max, Running(others, t, w, k, m, Returning(v)), Back(others, t, w, k, v))
  {
    Continued(e, max, others, t, w, k, m, Returning(v));
    ReturningIs(others, t, w, k, m, v);
  }

  /** A call made at stage g returns to the caller at the stage that follows. */
  lemma BackTo(others: map<Task, Stack>, t: Task, w: World, k: Stack, m: string, g: Stage, v: Verdict)
    ensures Back(others, t, w, k + [Activation(m, g)], v)
         == Running(others, t, w, k, m, if g.AwaitChild? then Checking(g.verdict, g.todo, v) else g)
  {
    if g.AwaitChild? {
      SetTopOn(k, m, g, Checking(g.verdict, g.todo, v));
    }
  }

  lemma CallIs(others: map<Task, Stack>, t: Task, w: World, k: Stack, m: string, g: Stage, h: Stage, c: string)
    requires t in others
    ensures var s := Running(others, t, w, k, m, g);
            && Active(s, t)
            && Call(s, t, SetTop(s.stacks[t], h), c)
               == Staged(others, t, w, k + [Activation(m, h)], c, WaitLock, map[], {}, None)
  {
    SetTopOn(k, m, g, h);
    var s, top := Running(others, t, w, k, m, g), k + [Activation(m, h)] + [Activation(c, WaitLock)];
    assert s.stacks[t := top] == others[t := top];
  }

  lemma RoomAbove(e: Site, max: int, others: map<Task, Stack>, t: Task, k: Stack, m: string, g: Stage)
    requires Room(e, max, others, t, k) && m in e.net.order && TodoOk(e, m, g) && (g.Confirming? || g.AwaitChild?)
    ensures Room(e, max, others, t, k + [Activation(m, g)])
  {
    WaitingTop(e, k, Activation(m, g));
  }

  // ----- Single turns of the loops -----

  predicate AsksParent(e: Site, w: World, ps: seq<string>, attempts: nat)
    requires e.Valid() && Fits(e, w) && ps != []
  {
    ps[0] in e.net.order && Unsettled(w.states[ps[0]]) && attempts < e.failures[ps[0]]
  }

  lemma ConfirmTurn(e: Site, max: int, others: map<Task, Stack>, t: Task, w: World, k: Stack, m: string,
                    tr: Transition, v: Verdict, ps: seq<string>, attempts: nat)
    requires Room(e, max, others, t, k) && Fits(e, w) && m in e.net.order && ps != []
    requires TodoOk(e, m, Confirming(tr, v, ps, attempts))
    ensures Reaches(e, max, Running(others, t, w, k, m, Confirming(tr, v, ps, attempts)),
                    if AsksParent(e, w, ps, attempts)
                    then Staged(others, t, w, k + [Activation(m, Confirming(tr, v, ps, attempts + 1))], ps[0], WaitLock,
                                map[], {}, None)
                    else Running(others, t, w, k, m, Confirming(tr, v, ps[1..], 0)))
  {
    var g := Confirming(tr, v, ps, attempts);
    Continued(e, max, others, t, w, k, m, g);
    if AsksParent(e, w, ps, attempts) {
      CallIs(others, t, w, k, m, g, Confirming(tr, v, ps, attempts + 1), ps[0]);
    } else {
      GotoOn(others, t, w, k, m, g, Confirming(tr, v, ps[1..], 0), map[], {}, Some(t));
    }
  }

  lemma ReleaseTurn(e: Site, max: int, others: map<Task, Stack>, t: Task, w: World, k: Stack, m: string,
                    v: Verdict, todo: seq<string>)
    requires Room(e, max, others, t, k) && Fits(e, w) && m in e.net.order && todo != []
    requires TodoOk(e, m, Releasing(v, todo))
    ensures Reaches(e, max, Running(others, t, w, k, m, Releasing(v, todo)),
                    if Releasable(e, w, todo[0], m)
                    then Staged(others, t, w, k + [Activation(m, AwaitChild(v, todo))], todo[0], WaitLock,
                                map[], {}, None)
                    else Running(others, t, w, k, m, Releasing(v, todo[1..])))
  {
    var g := Releasing(v, todo);
    Continued(e, max, others, t, w, k, m, g);
    if Releasable(e, w, todo[0], m) {
      CallIs(others, t, w, k, m, g, AwaitChild(v, todo), todo[0]);
    } else {
      GotoOn(others, t, w, k, m, g, Releasing(v, todo[1..]), map[], {}, Some(t));
    }
  }

  lemma StillLogged(e: Site, max: int, others: map<Task, Stack>, t: Task, w: World, k: Stack, m: string,
                    v: Verdict, todo: seq<string>, n: Notice)
    requires Room(e, max, others, t, k) && Fits(e, w) && m in e.net.order
    requires TodoOk(e, m, LoggingStill(v, todo, n))
    ensures Reaches(e, max, Staged(others, t, w, k, m, LoggingStill(v, todo, n), map[], {}, None),
                    Running(others, t, Log(w, n), k, m, Releasing(v, todo[1..])))
  {
    var g := LoggingStill(v, todo, n);
    StagedShaped(e, max, others, t, w, k, m, g, map[], {}, None);
    GotoOn(others, t, w, k, m, g, Releasing(v, todo[1..]), map[], {}, None);
    ReachesNext(e, max, Staged(others, t, w, k, m, g, map[], {}, None), Logged(t));
  }

  /** The fresh poll of a dependent came to `child`. */
  lemma CheckTurn(e: Site, max: int, others: map<Task, Stack>, t: Task, w: World, k: Stack, m: string,
                  v: Verdict, todo: seq<string>, child: Verdict)
    requires Room(e, max, others, t, k) && Fits(e, w) && m in e.net.order
    requires TodoOk(e, m, Checking(v, todo, child))
    ensures todo[0] in e.net.order
    ensures Reaches(e, max, Running(others, t, w, k, m, Checking(v, todo, child)),
                    Running(others, t,
                            if StillAlone(e, w, todo[0], child) then StillFailing(w, todo[0], m) else w, k, m,
                            Releasing(v, todo[1..])))
  {
    var g, c := Checking(v, todo, child), todo[0];
    Continued(e, max, others, t, w, k, m, g);
    if StillAlone(e, w, c, child) {
      var n := Notice(c, Transition(w.states[c].state, w.states[c].state), StillAfter(m));
      var w1 := Alert(w, c, true, n);
      AlertFits(e, w, c, true, n);
      GotoOn(others, t, w, k, m, g, LoggingStill(v, todo, n), map[], {}, Some(t));
      StillLogged(e, max, others, t, w1, k, m, v, todo, n);
      ReachesFurther(e, max, Running(others, t, w, k, m, g),
                     Staged(others, t, w1, k, m, LoggingStill(v, todo, n), map[], {}, None),
                     Running(others, t, Log(w1, n), k, m, Releasing(v, todo[1..])));
    } else {
      GotoOn(others, t, w, k, m, g, Releasing(v, todo[1..]), map[], {}, Some(t));
    }
  }

  // ----- Whole calls, by the recursion of the engine -----

  /** poll_once: from waiting for the lock to the return to the caller. */
  lemma {:induction false} PollRuns(e: Site, max: int, others: map<Task, Stack>, t: Task, w: World, k: Stack, m: string)
    requires Room(e, max, others, t, k) && Fits(e, w) && m in e.net.order
    ensures Reaches(e, max, Staged(others, t, w, k, m, WaitLock, map[], {}, None),
                    Back(others, t, Poll(e, w, m).0, k, Poll(e, w, m).1))
    decreases Troubled(e, w) + {m}, Rank(e.net.parents, m), 3, 0
  {
    var v := e.check(m, |w.rows|);
    var w1, r := Observe(w, m, v), Poll(e, w, m).0;
    var start := Staged(others, t, w, k, m, WaitLock, map[], {}, None);
    ObserveTrouble(e, w, m, v);
    Probed(e, max, others, t, w, k, m, v);
    match Change(w.states[m], v)
    case None =>
      Returns(e, max, others, t, w1, k, m, v);
      ReachesFurther(e, max, start, Running(others, t, w1, k, m, Returning(v)), Back(others, t, w1, k, v));
    case Some(tr) =>
      TransitionRuns(e, max, others, t, w1, k, m, tr, v);
      Returns(e, max, others, t, r, k, m, v);
      ReachesFurther(e, max, start, Running(others, t, w1, k, m, Deciding(tr, v)),
                     Running(others, t, r, k, m, Returning(v)));
      ReachesFurther(e, max, start, Running(others, t, r, k, m, Returning(v)), Back(others, t, r, k, v));
  }

  /** _on_transition */
  lemma {:induction false} TransitionRuns(e: Site, max: int, others: map<Task, Stack>, t: Task, w: World, k: Stack,
                                          m: string, tr: Transition, v: Verdict)
    requires Room(e, max, others, t, k) && Fits(e, w) && m in e.net.order
    requires IsProblem(tr.current) || (tr.current == Up && m !in Troubled(e, w))
    ensures Reaches(e, max, Running(others, t, w, k, m, Deciding(tr, v)),
                    Running(others, t, OnTransition(e, w, m, tr), k, m, Returning(v)))
    decreases Troubled(e, w) + {m}, Rank(e.net.parents, m), 2, 0
  {
    var g := Deciding(tr, v);
    Continued(e, max, others, t, w, k, m, g);
    if IsProblem(tr.current) {
      if BlockingParent(e.net, w.states, m).None? && e.net.parents[m] != [] {
        GotoOn(others, t, w, k, m, g, Confirming(tr, v, e.net.parents[m], 0), map[], {}, Some(t));
        ConfirmRuns(e, max, others, t, w, k, m, tr, v, e.net.parents[m]);
        ReachesFurther(e, max, Running(others, t, w, k, m, g),
                       Running(others, t, w, k, m, Confirming(tr, v, e.net.parents[m], 0)),
                       Running(others, t, OnTransition(e, w, m, tr), k, m, Returning(v)));
      } else {
        ProblemSettled(e, max, others, t, w, k, m, g, tr, v, BlockingParent(e.net, w.states, m));
      }
    } else {
      UpRuns(e, max, others, t, w, k, m, tr, v);
    }
  }

  /** The part of _on_transition from _confirm_parents on. */
  lemma {:induction false} ConfirmRuns(e: Site, max: int, others: map<Task, Stack>, t: Task, w: World, k: Stack,
                                       m: string, tr: Transition, v: Verdict, ps: seq<string>)
    requires Room(e, max, others, t, k) && Fits(e, w) && m in e.net.order && IsProblem(tr.current)
    requires forall p | p in ps :: Edge(e.net.parents, m, p)
    ensures var w1 := ConfirmParents(e, w, m, ps);
      Reaches(e, max, Running(others, t, w, k, m, Confirming(tr, v, ps, 0)),
              Running(others, t, Decide(w1, m, tr, BlockingParent(e.net, w1.states, m)), k, m, Returning(v)))
    decreases Troubled(e, w) + {m}, Rank(e.net.parents, m), 1, |ps|
  {
    var g, w1 := Confirming(tr, v, ps, 0), ConfirmParents(e, w, m, ps);
    if ps == [] {
      Continued(e, max, others, t, w, k, m, g);
      ProblemSettled(e, max, others, t, w, k, m, g, tr, v, BlockingParent(e.net, w.states, m));
    } else {
      var next := if ps[0] in e.net.order then Settle(e, w, m, ps[0], 0) else w;
      if ps[0] in e.net.order {
        SettleRuns(e, max, others, t, w, k, m, tr, v, ps);
      } else {
        ConfirmTurn(e, max, others, t, w, k, m, tr, v, ps, 0);
      }
      ConfirmRuns(e, max, others, t, next, k, m, tr, v, ps[1..]);
      ReachesFurther(e, max, Running(others, t, w, k, m, g),
                     Running(others, t, next, k, m, Confirming(tr, v, ps[1..], 0)),
                     Running(others, t, Decide(w1, m, tr, BlockingParent(e.net, w1.states, m)), k, m, Returning(v)));
    }
  }

  /** The a-th attempt on the parent ps[0] has been made, and the world is x. */
  ghost predicate Attempted(e: Site, max: int, start: Machine, others: map<Task, Stack>, t: Task, k: Stack, m: string,
                            tr: Transition, v: Verdict, ps: seq<string>, a: nat, x: World) {
    Fits(e, x) && Reaches(e, max, start, Running(others, t, x, k, m, Confirming(tr, v, ps, a)))
  }

  /** The inner loop of _confirm_parents. */
  lemma {:induction false} SettleRuns(e: Site, max: int, others: map<Task, Stack>, t: Task, w: World, k: Stack,
                                      m: string, tr: Transition, v: Verdict, ps: seq<string>)
    requires Room(e, max, others, t, k) && Fits(e, w) && m in e.net.order && IsProblem(tr.current)
    requires ps != [] && ps[0] in e.net.order && forall p | p in ps :: Edge(e.net.parents, m, p)
    ensures Reaches(e, max, Running(others, t, w, k, m, Confirming(tr, v, ps, 0)),
                    Running(others, t, Settle(e, w, m, ps[0], 0), k, m, Confirming(tr, v, ps[1..], 0)))
    decreases Troubled(e, w) + {m}, Rank(e.net.parents, m), 0, 1
  {
    var start, p, bound := Running(others, t, w, k, m, Confirming(tr, v, ps, 0)), ps[0], Troubled(e, w);
    forall a: nat, x | Attempted(e, max, start, others, t, k, m, tr, v, ps, a, x) && Troubled(e, x) <= bound
                       && Unsettled(x.states[p]) && a < e.failures[p]
      ensures Attempted(e, max, start, others, t, k, m, tr, v, ps, a + 1, Poll(e, x, p).0)
      ensures Troubled(e, Poll(e, x, p).0) <= bound
    {
      TurnTroubles(e, x, p);
      ParentPolled(e, max, others, t, x, k, m, tr, v, ps, a);
      ReachesFurther(e, max, start, Running(others, t, x, k, m, Confirming(tr, v, ps, a)),
                     Running(others, t, Poll(e, x, p).0, k, m, Confirming(tr, v, ps, a + 1)));
    }
    ReachesHere(e, max, start);
    var last := SettleTurns(e, w, m, p, 0, (a: nat, x) =>
      Attempted(e, max, start, others, t, k, m, tr, v, ps, a, x) && Troubled(e, x) <= bound);
    var r := Settle(e, w, m, p, 0);
    ConfirmTurn(e, max, others, t, r, k, m, tr, v, ps, last);
    ReachesFurther(e, max, start, Running(others, t, r, k, m, Confirming(tr, v, ps, last)),
                   Running(others, t, r, k, m, Confirming(tr, v, ps[1..], 0)));
  }

  /** One poll of a parent that is being confirmed. */
  lemma {:induction false} ParentPolled(e: Site, max: int, others: map<Task, Stack>, t: Task, w: World, k: Stack,
                                        m: string, tr: Transition, v: Verdict, ps: seq<string>, attempts: nat)
    requires Room(e, max, others, t, k) && Fits(e, w) && m in e.net.order && ps != []
    requires TodoOk(e, m, Confirming(tr, v, ps, attempts)) && AsksParent(e, w, ps, attempts)
    ensures Reaches(e, max, Running(others, t, w, k, m, Confirming(tr, v, ps, attempts)),
                    Running(others, t, Poll(e, w, ps[0]).0, k, m, Confirming(tr, v, ps, attempts + 1)))
    decreases Troubled(e, w) + {m}, Rank(e.net.parents, m), 0, 0
  {
    var p, h := ps[0], Confirming(tr, v, ps, attempts + 1);
    var k1 := k + [Activation(m, h)];
    assert Edge(e.net.parents, m, p);
    ConfirmTurn(e, max, others, t, w, k, m, tr, v, ps, attempts);
    RoomAbove(e, max, others, t, k, m, h);
    PollRuns(e, max, others, t, w, k1, p);
    BackTo(others, t, Poll(e, w, p).0, k, m, h, Poll(e, w, p).1);
    ReachesFurther(e, max, Running(others, t, w, k, m, Confirming(tr, v, ps, attempts)),
                   Staged(others, t, w, k1, p, WaitLock, map[], {}, None),
                   Running(others, t, Poll(e, w, p).0, k, m, h));
  }

  /** The part of _on_transition for an up transition. */
  lemma {:induction false} UpRuns(e: Site, max: int, others: map<Task, Stack>, t: Task, w: World, k: Stack,
                                  m: string, tr: Transition, v: Verdict)
    requires Room(e, max, others, t, k) && Fits(e, w) && m in e.net.order
    requires tr.current == Up && m !in Troubled(e, w)
    ensures Reaches(e, max, Running(others, t, w, k, m, Deciding(tr, v)),
                    Running(others, t, OnTransition(e, w, m, tr), k, m, Returning(v)))
    decreases Troubled(e, w) + {m}, Rank(e.net.parents, m), 1, |e.net.order| + 1
  {
    var g, n := Deciding(tr, v), Notice(m, tr, Plain);
    var w1 := if w.states[m].alertOpen then Alert(w, m, false, n) else w;
    var start := Running(others, t, w, k, m, g);
    AlertFits(e, w, m, false, n);
    Continued(e, max, others, t, w, k, m, g);
    GotoOn(others, t, w, k, m, g, Logging(tr, v, Plain), map[], {}, Some(t));
    EventLogged(e, max, others, t, w1, k, m, tr, v, Plain);
    ReachesFurther(e, max, start, Staged(others, t, w1, k, m, Logging(tr, v, Plain), map[], {}, None),
                   Running(others, t, Recovered(w, m, tr), k, m, Releasing(v, e.net.order)));
    RecoveredTrouble(e, w, m, tr);
    assert e.net.order[0..] == e.net.order;
    ReleaseRuns(e, max, others, t, Recovered(w, m, tr), k, m, v, 0);
    ReachesFurther(e, max, start, Running(others, t, Recovered(w, m, tr), k, m, Releasing(v, e.net.order)),
                   Running(others, t, OnTransition(e, w, m, tr), k, m, Returning(v)));
  }

  lemma RecoveredTrouble(e: Site, w: World, m: string, tr: Transition)
    requires e.Valid() && Fits(e, w) && m in e.net.order
    ensures Fits(e, Recovered(w, m, tr)) && Troubled(e, Recovered(w, m, tr)) == Troubled(e, w)
  {
  }

  /** The loop of _release_children from the i-th monitor on. */
  lemma {:induction false} ReleaseRuns(e: Site, max: int, others: map<Task, Stack>, t: Task, w: World, k: Stack,
                                       m: string, v: Verdict, i: nat)
    requires Room(e, max, others, t, k) && Fits(e, w) && m in e.net.order && m !in Troubled(e, w) && i <= |e.net.order|
    ensures Reaches(e, max, Running(others, t, w, k, m, Releasing(v, e.net.order[i..])),
                    Running(others, t, ReleaseChildren(e, w, m, i), k, m, Returning(v)))
    decreases Troubled(e, w) + {m}, Rank(e.net.parents, m), 1, |e.net.order| - i
  {
    if i == |e.net.order| {
      Continued(e, max, others, t, w, k, m, Releasing(v, []));
      GotoOn(others, t, w, k, m, Releasing(v, []), Returning(v), map[], {}, Some(t));
    } else {
      var w1 := ReleaseChild(e, w, e.net.order[i], m);
      ReleaseChildRuns(e, max, others, t, w, k, m, v, i);
      ReleaseRuns(e, max, others, t, w1, k, m, v, i + 1);
      ReachesFurther(e, max, Running(others, t, w, k, m, Releasing(v, e.net.order[i..])),
                     Running(others, t, w1, k, m, Releasing(v, e.net.order[i + 1..])),
                     Running(others, t, ReleaseChildren(e, w, m, i), k, m, Returning(v)));
    }
  }

  /** The body of that loop. */
  lemma {:induction false} ReleaseChildRuns(e: Site, max: int, others: map<Task, Stack>, t: Task, w: World, k: Stack,
                                            m: string, v: Verdict, i: nat)
    requires Room(e, max, others, t, k) && Fits(e, w) && m in e.net.order && m !in Troubled(e, w) && i < |e.net.order|
    ensures Reaches(e, max, Running(others, t, w, k, m, Releasing(v, e.net.order[i..])),
                    Running(others, t, ReleaseChild(e, w, e.net.order[i], m), k, m, Releasing(v, e.net.order[i + 1..])))
    decreases Troubled(e, w) + {m}, Rank(e.net.parents, m), 0, 1
  {
    var c, todo := e.net.order[i], e.net.order[i..];
    assert todo[0] == c && todo[1..] == e.net.order[i + 1..] && forall x | x in todo :: x in e.net.order;
    if Releasable(e, w, c, m) {
      var w1, child := Poll(e, w, c).0, Poll(e, w, c).1;
      ChildPolled(e, max, others, t, w, k, m, v, todo);
      CheckTurn(e, max, others, t, w1, k, m, v, todo, child);
      ReachesFurther(e, max, Running(others, t, w, k, m, Releasing(v, todo)),
                     Running(others, t, w1, k, m, Checking(v, todo, child)),
                     Running(others, t, ReleaseChild(e, w, c, m), k, m, Releasing(v, todo[1..])));
    } else {
      ReleaseTurn(e, max, others, t, w, k, m, v, todo);
    }
  }

  /** The fresh poll of a dependent. */
  lemma {:induction false} ChildPolled(e: Site, max: int, others: map<Task, Stack>, t: Task, w: World, k: Stack,
                                       m: string, v: Verdict, todo: seq<string>)
    requires Room(e, max, others, t, k) && Fits(e, w) && m in e.net.order && m !in Troubled(e, w)
    requires todo != [] && TodoOk(e, m, Releasing(v, todo)) && Releasable(e, w, todo[0], m)
    ensures Reaches(e, max, Running(others, t, w, k, m, Releasing(v, todo)),
                    Running(others, t, Poll(e, w, todo[0]).0, k, m, Checking(v, todo, Poll(e, w, todo[0]).1)))
    decreases Troubled(e, w) + {m}, Rank(e.net.parents, m), 0, 0
  {
    var c, h := todo[0], AwaitChild(v, todo);
    var k1 := k + [Activation(m, h)];
    ReleaseTurn(e, max, others, t, w, k, m, v, todo);
    RoomAbove(e, max, others, t, k, m, h);
    PollRuns(e, max, others, t, w, k1, c);
    BackTo(others, t, Poll(e, w, c).0, k, m, h, Poll(e, w, c).1);
    ReachesFurther(e, max, Running(others, t, w, k, m, Releasing(v, todo)),
                   Staged(others, t, w, k1, c, WaitLock, map[], {}, None),
                   Running(others, t, Poll(e, w, c).0, k, m, Checking(v, todo, Poll(e, w, c).1)));
  }

  /**
   * The two models agree: with no lock taken, a task that wakes for its monitor can
   * run undisturbed to the end, and the world is then what `Poll` says.
   */
  lemma MachineRunsPoll(e: Site, max: int, s: Machine, t: Task, m: string)
    requires max >= 1 && Disciplined(e, max, s) && s.running.None? && s.held == map[] && s.holders == {}
    requires t in s.stacks && s.stacks[t] == [] && LoopOf(e.net, t, m)
    ensures Reaches(e, max, s, s.(world := Poll(e, s.world, m).0))
  {
    ReachesNext(e, max, s, Wake(t, m));
    assert [] + [Activation(m, WaitLock)] == [Activation(m, WaitLock)];
    var u := Staged(s.stacks, t, s.world, [], m, WaitLock, map[], {}, None);
    assert Apply(e, max, s, Wake(t, m)) == u;
    PollRuns(e, max, s.stacks, t, s.world, [], m);
    assert s.stacks[t := []] == s.stacks;
    ReachesFurther(e, max, s, u, s.(world := Poll(e, s.world, m).0));
  }
}
