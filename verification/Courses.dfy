/** What every activation is about, over every interleaving: the loops over parents and
    monitors run in their order, no parent is confirmed more often than its failures, and
    every notice says what it should of the monitor it concerns. */
module Courses {
  import opened MonitorStates
  import opened Networks
  import opened Engine
  import opened Interleavings
  import opened Behaviours
  import opened Guarantees

  /** `todo` is what is left of `all`. */
  predicate Rest(todo: seq<string>, all: seq<string>) {
    |todo| <= |all| && todo == all[|all| - |todo|..]
  }

  lemma RestGoesOn(todo: seq<string>, all: seq<string>)
    requires Rest(todo, all) && todo != []
    ensures Rest(todo[1..], all)
  {
  }

  /** A transition changes the state; a suppressed one is a problem behind an ancestor; the note of a release
      repeats the problem of a dependent. */
  ghost predicate Honest(e: Site, n: Notice)
    requires e.Valid()
  {
    && n.slug in e.net.order
    && match n.note
       case Plain => n.change.previous != n.change.current
       case SuppressedBy(b) =>
         && n.change.previous != n.change.current && IsProblem(n.change.current)
         && exists a | a in e.net.order :: IsAncestor(e.net, a, n.slug) && e.net.names[a] == b
       case StillAfter(r) =>
         n.change.previous == n.change.current && IsProblem(n.change.current) && IsAncestor(e.net, r, n.slug)
  }

  /** Releasing the dependents of m, it is the turn of the first of todo. */
  ghost predicate Turn(e: Site, m: string, todo: seq<string>) {
    Rest(todo, e.net.order) && todo != [] && IsAncestor(e.net, m, todo[0])
  }

  ghost predicate OnCourse(e: Site, m: string, g: Stage)
    requires e.Valid() && m in e.net.order
  {
    match g
    case Deciding(tr, _) => tr.previous != tr.current
    case Confirming(tr, _, todo, attempts) =>
      && tr.previous != tr.current && IsProblem(tr.current) && Rest(todo, e.net.parents[m])
      && (attempts > 0 ==> todo != [] && todo[0] in e.net.order && attempts <= e.failures[todo[0]])
    case Logging(tr, _, note) => !note.StillAfter? && Honest(e, Notice(m, tr, note))
    case Releasing(_, todo) => Rest(todo, e.net.order)
    case AwaitChild(_, todo) => Turn(e, m, todo)
    case Checking(_, todo, _) => Turn(e, m, todo)
    case LoggingStill(_, todo, n) =>
      Turn(e, m, todo) && n.slug == todo[0] && n.note == StillAfter(m) && Honest(e, n)
    case _ => true
  }

  ghost predicate StackOnCourse(e: Site, k: Stack)
    requires e.Valid()
  {
    forall i | 0 <= i < |k| :: k[i].monitor in e.net.order && OnCourse(e, k[i].monitor, k[i].stage)
  }

  ghost predicate AllHonest(e: Site, notices: seq<Notice>)
    requires e.Valid()
  {
    forall n | n in notices :: Honest(e, n)
  }

  ghost predicate InCourse(e: Site, s: Machine) {
    && Shaped(e, s) && (forall t | t in s.stacks :: StackOnCourse(e, s.stacks[t]))
    && AllHonest(e, s.world.events) && AllHonest(e, s.world.sent)
  }

  // ----- Stacks -----

  lemma SetTopCourse(e: Site, k: Stack, g: Stage)
    requires e.Valid() && StackOnCourse(e, k) && k != [] && Top(k).monitor in e.net.order
    requires OnCourse(e, Top(k).monitor, g)
    ensures StackOnCourse(e, SetTop(k, g))
  {
  }

  lemma PushCourse(e: Site, k: Stack, p: string)
    requires e.Valid() && StackOnCourse(e, k) && p in e.net.order
    ensures StackOnCourse(e, k + [Activation(p, WaitLock)])
  {
  }

  lemma PoppedCourse(e: Site, k: Stack, v: Verdict)
    requires e.Valid() && StackOnCourse(e, k) && k != []
    ensures StackOnCourse(e, Popped(k, v))
  {
    var below := k[..|k| - 1];
    assert StackOnCourse(e, below);
    if below != [] && Top(below).stage.AwaitChild? {
      assert OnCourse(e, Top(below).monitor, below[|below| - 1].stage);
      SetTopCourse(e, below, Checking(Top(below).stage.verdict, Top(below).stage.todo, v));
    }
  }

  /** One stack changes, and at most one notice is sent and recorded. */
  lemma CourseGoesOn(e: Site, s: Machine, s': Machine, t: Task, k: Stack)
    requires InCourse(e, s) && Shaped(e, s') && t in s.stacks && s'.stacks == s.stacks[t := k] && StackOnCourse(e, k)
    requires s'.world.events == s.world.events
             || exists n :: Honest(e, n) && s'.world.events == s.world.events + [n]
    requires s'.world.sent == s.world.sent || exists n :: Honest(e, n) && s'.world.sent == s.world.sent + [n]
    ensures InCourse(e, s')
  {
  }

  lemma GotoCourse(e: Site, s: Machine, s': Machine, t: Task, g: Stage)
    requires InCourse(e, s) && Shaped(e, s') && Active(s, t) && s'.stacks == s.stacks[t := SetTop(s.stacks[t], g)]
    requires Top(s.stacks[t]).monitor in e.net.order ==> OnCourse(e, Top(s.stacks[t]).monitor, g)
    requires s'.world.events == s.world.events
             || exists n :: Honest(e, n) && s'.world.events == s.world.events + [n]
    requires s'.world.sent == s.world.sent || exists n :: Honest(e, n) && s'.world.sent == s.world.sent + [n]
    ensures InCourse(e, s')
  {
    var k := s.stacks[t];
    assert k[|k| - 1].monitor in e.net.order;
    SetTopCourse(e, k, g);
    CourseGoesOn(e, s, s', t, SetTop(k, g));
  }

  lemma CallCourse(e: Site, s: Machine, t: Task, g: Stage, p: string)
    requires InCourse(e, s) && Active(s, t) && Shaped(e, Call(s, t, SetTop(s.stacks[t], g), p)) && p in e.net.order
    requires Top(s.stacks[t]).monitor in e.net.order && OnCourse(e, Top(s.stacks[t]).monitor, g)
    ensures InCourse(e, Call(s, t, SetTop(s.stacks[t], g), p))
  {
    var k := SetTop(s.stacks[t], g);
    SetTopCourse(e, s.stacks[t], g);
    PushCourse(e, k, p);
    CourseGoesOn(e, s, Call(s, t, k, p), t, k + [Activation(p, WaitLock)]);
  }

  // ----- Action by action -----

  lemma ChangeChanges(s: Status, v: Verdict)
    ensures Change(s, v).Some? ==> Change(s, v).value.previous != Change(s, v).value.current
  {
  }

  lemma SuppressedHonest(e: Site, st: States, m: string, tr: Transition)
    requires e.Valid() && Covers(e.net, st) && m in e.net.order && Blocked(e.net, st, m)
    requires tr.previous != tr.current && IsProblem(tr.current)
    ensures Honest(e, Notice(m, tr, SuppressedBy(BlockingParent(e.net, st, m).value)))
  {
    var c := FirstBlockingRoot(e.net, st, m, e.net.parents[m]);
    BlockChainIsAncestral(e.net, st, m, c, |c| - 1);
  }

  lemma SettledCourse(e: Site, s: Machine, t: Task, m: string, tr: Transition, v: Verdict)
    requires InCourse(e, s) && Active(s, t) && Top(s.stacks[t]).monitor == m && m in e.net.order
    requires tr.previous != tr.current && IsProblem(tr.current)
    requires Shaped(e, Settled(s, t, m, tr, v, BlockingParent(e.net, s.world.states, m)))
    ensures InCourse(e, Settled(s, t, m, tr, v, BlockingParent(e.net, s.world.states, m)))
  {
    var blocker := BlockingParent(e.net, s.world.states, m);
    var s' := Settled(s, t, m, tr, v, blocker);
    match blocker
    case Some(b) =>
      SuppressedHonest(e, s.world.states, m, tr);
      GotoCourse(e, s, s', t, Logging(tr, v, SuppressedBy(b)));
    case None =>
      assert Honest(e, Notice(m, tr, Plain));
      GotoCourse(e, s, s', t, Logging(tr, v, Plain));
  }

  lemma DecidingCourse(e: Site, s: Machine, t: Task, m: string, tr: Transition, v: Verdict)
    requires InCourse(e, s) && Active(s, t) && Top(s.stacks[t]) == Activation(m, Deciding(tr, v)) && m in e.net.order
    requires Shaped(e, OnDeciding(e, s, t, m, tr, v)) && OnCourse(e, m, Deciding(tr, v))
    ensures InCourse(e, OnDeciding(e, s, t, m, tr, v))
  {
    var s' := OnDeciding(e, s, t, m, tr, v);
    if !IsProblem(tr.current) {
      assert Honest(e, Notice(m, tr, Plain));
      GotoCourse(e, s, s', t, Logging(tr, v, Plain));
    } else if !Blocked(e.net, s.world.states, m) && e.net.parents[m] != [] {
      GotoCourse(e, s, s', t, Confirming(tr, v, e.net.parents[m], 0));
    } else {
      SettledCourse(e, s, t, m, tr, v);
    }
  }

  lemma ConfirmingCourse(e: Site, s: Machine, t: Task, m: string, tr: Transition, v: Verdict, todo: seq<string>,
                         attempts: nat)
    requires InCourse(e, s) && Active(s, t) && Top(s.stacks[t]) == Activation(m, Confirming(tr, v, todo, attempts))
    requires m in e.net.order && OnCourse(e, m, Confirming(tr, v, todo, attempts))
    requires Shaped(e, OnConfirming(e, s, t, m, tr, v, todo, attempts))
    ensures InCourse(e, OnConfirming(e, s, t, m, tr, v, todo, attempts))
  {
    var s' := OnConfirming(e, s, t, m, tr, v, todo, attempts);
    if todo == [] {
      SettledCourse(e, s, t, m, tr, v);
    } else if todo[0] in e.net.order && Unsettled(s.world.states[todo[0]]) && attempts < e.failures[todo[0]] {
      CallCourse(e, s, t, Confirming(tr, v, todo, attempts + 1), todo[0]);
    } else {
      RestGoesOn(todo, e.net.parents[m]);
      GotoCourse(e, s, s', t, Confirming(tr, v, todo[1..], 0));
    }
  }

  lemma ReleasingCourse(e: Site, s: Machine, t: Task, m: string, v: Verdict, todo: seq<string>)
    requires InCourse(e, s) && Active(s, t) && Top(s.stacks[t]) == Activation(m, Releasing(v, todo))
    requires m in e.net.order && Rest(todo, e.net.order) && forall c | c in todo :: c in e.net.order
    requires Shaped(e, OnReleasing(e, s, t, m, v, todo))
    ensures InCourse(e, OnReleasing(e, s, t, m, v, todo))
  {
    var s' := OnReleasing(e, s, t, m, v, todo);
    if todo == [] {
      GotoCourse(e, s, s', t, Returning(v));
    } else if Releasable(e, s.world, todo[0], m) {
      CallCourse(e, s, t, AwaitChild(v, todo), todo[0]);
    } else {
      RestGoesOn(todo, e.net.order);
      GotoCourse(e, s, s', t, Releasing(v, todo[1..]));
    }
  }

  lemma CheckingCourse(e: Site, s: Machine, t: Task, m: string, v: Verdict, todo: seq<string>, child: Verdict)
    requires InCourse(e, s) && Active(s, t) && Top(s.stacks[t]) == Activation(m, Checking(v, todo, child))
    requires m in e.net.order && Turn(e, m, todo) && todo[0] in e.net.order
    requires Shaped(e, OnChecking(e, s, t, m, v, todo, child))
    ensures InCourse(e, OnChecking(e, s, t, m, v, todo, child))
  {
    var s', c := OnChecking(e, s, t, m, v, todo, child), todo[0];
    if StillAlone(e, s.world, c, child) {
      StillCourse(e, s, s', t, m, v, todo, s.world.states[c].state);
    } else {
      RestGoesOn(todo, e.net.order);
      GotoCourse(e, s, s', t, Releasing(v, todo[1..]));
    }
  }

  lemma StillCourse(e: Site, s: Machine, s': Machine, t: Task, m: string, v: Verdict, todo: seq<string>, st: State)
    requires InCourse(e, s) && Active(s, t) && Top(s.stacks[t]).monitor == m && m in e.net.order
    requires Turn(e, m, todo) && todo[0] in e.net.order && IsProblem(st) && Shaped(e, s')
    requires var n := Notice(todo[0], Transition(st, st), StillAfter(m));
      && s'.stacks == s.stacks[t := SetTop(s.stacks[t], LoggingStill(v, todo, n))]
      && s'.world.sent == s.world.sent + [n] && s'.world.events == s.world.events
    ensures InCourse(e, s')
  {
    var n := Notice(todo[0], Transition(st, st), StillAfter(m));
    assert Honest(e, n);
    GotoCourse(e, s, s', t, LoggingStill(v, todo, n));
  }

  lemma ContinueCourse(e: Site, s: Machine, t: Task)
    requires InCourse(e, s) && Active(s, t) && Immediate(Top(s.stacks[t]).stage)
    requires Shaped(e, ApplyContinue(e, s, t))
    ensures InCourse(e, ApplyContinue(e, s, t))
  {
    var k := s.stacks[t];
    var m, g := k[|k| - 1].monitor, k[|k| - 1].stage;
    assert m in e.net.order && OnCourse(e, m, g) && TodoOk(e, m, g);
    match g
    case Deciding(tr, v) => DecidingCourse(e, s, t, m, tr, v);
    case Confirming(tr, v, todo, attempts) => ConfirmingCourse(e, s, t, m, tr, v, todo, attempts);
    case Releasing(v, todo) => ReleasingCourse(e, s, t, m, v, todo);
    case Checking(v, todo, child) => CheckingCourse(e, s, t, m, v, todo, child);
    case Returning(v) =>
      PoppedCourse(e, k, v);
      CourseGoesOn(e, s, OnReturning(s, t, v), t, Popped(k, v));
  }

  lemma LoggedCourse(e: Site, s: Machine, t: Task)
    requires InCourse(e, s) && Active(s, t)
    requires Top(s.stacks[t]).stage.Logging? || Top(s.stacks[t]).stage.LoggingStill?
    requires Top(s.stacks[t]).stage.LoggingStill? ==> Top(s.stacks[t]).stage.todo != []
    requires Shaped(e, ApplyLogged(e, s, t))
    ensures InCourse(e, ApplyLogged(e, s, t))
  {
    var k := s.stacks[t];
    var m, g := k[|k| - 1].monitor, k[|k| - 1].stage;
    assert m in e.net.order && OnCourse(e, m, g);
    match g
    case Logging(tr, v, note) => EventCourse(e, s, t, m, tr, v, note);
    case LoggingStill(v, todo, n) => NoteCourse(e, s, t, m, v, todo, n);
  }

  lemma EventCourse(e: Site, s: Machine, t: Task, m: string, tr: Transition, v: Verdict, note: Note)
    requires InCourse(e, s) && Active(s, t) && Top(s.stacks[t]) == Activation(m, Logging(tr, v, note))
    requires m in e.net.order && Honest(e, Notice(m, tr, note)) && Shaped(e, ApplyLogged(e, s, t))
    ensures InCourse(e, ApplyLogged(e, s, t))
  {
    var g := if tr.current == Up then Releasing(v, e.net.order) else Returning(v);
    assert OnCourse(e, m, g);
    RecordedCourse(e, s, ApplyLogged(e, s, t), t, m, Notice(m, tr, note), g);
  }

  lemma NoteCourse(e: Site, s: Machine, t: Task, m: string, v: Verdict, todo: seq<string>, n: Notice)
    requires InCourse(e, s) && Active(s, t) && Top(s.stacks[t]) == Activation(m, LoggingStill(v, todo, n))
    requires m in e.net.order && Honest(e, n) && Rest(todo, e.net.order) && todo != []
    requires Shaped(e, ApplyLogged(e, s, t))
    ensures InCourse(e, ApplyLogged(e, s, t))
  {
    RestGoesOn(todo, e.net.order);
    RecordedCourse(e, s, ApplyLogged(e, s, t), t, m, n, Releasing(v, todo[1..]));
  }

  lemma RecordedCourse(e: Site, s: Machine, s': Machine, t: Task, m: string, n: Notice, g: Stage)
    requires InCourse(e, s) && Active(s, t) && Top(s.stacks[t]).monitor == m && m in e.net.order && Shaped(e, s')
    requires Honest(e, n) && OnCourse(e, m, g) && s'.stacks == s.stacks[t := SetTop(s.stacks[t], g)]
    requires s'.world == Log(s.world, n)
    ensures InCourse(e, s')
  {
    GotoCourse(e, s, s', t, g);
  }

  lemma SuspendedCourse(e: Site, max: int, s: Machine, a: Action, m: string, g: Stage)
    requires InCourse(e, s) && Shaped(e, s) && Enabled(e, max, s, a) && Shaped(e, Apply(e, max, s, a))
    requires a.TakeLock? || a.TakeSem? || a.Answer? || a.WriteRow?
    requires Top(s.stacks[a.task]) == Activation(m, g) && m in e.net.order
    ensures InCourse(e, Apply(e, max, s, a))
  {
    var s' := Apply(e, max, s, a);
    match a
    case TakeLock(t) => GotoCourse(e, s, s', t, WaitSem);
    case TakeSem(t) => GotoCourse(e, s, s', t, Probing);
    case Answer(t, v) => GotoCourse(e, s, s', t, Writing(v));
    case WriteRow(t) => GotoCourse(e, s, s', t, Written(g.verdict));
  }

  lemma ResumeCourse(e: Site, s: Machine, t: Task, m: string, v: Verdict)
    requires InCourse(e, s) && Active(s, t) && Top(s.stacks[t]) == Activation(m, Written(v)) && m in e.net.order
    requires Shaped(e, Observed(s, t, m, v))
    ensures InCourse(e, Observed(s, t, m, v))
  {
    var change := Change(s.world.states[m], v);
    ChangeChanges(s.world.states[m], v);
    GotoCourse(e, s, Observed(s, t, m, v), t, if change.None? then Returning(v) else Deciding(change.value, v));
  }

  lemma WakeCourse(e: Site, s: Machine, t: Task, p: string)
    requires InCourse(e, s) && t in s.stacks && p in e.net.order && Shaped(e, Call(s, t, [], p))
    ensures InCourse(e, Call(s, t, [], p))
  {
    PushCourse(e, [], p);
    CourseGoesOn(e, s, Call(s, t, [], p), t, [] + [Activation(p, WaitLock)]);
  }

  lemma CourseKept(e: Site, max: int, s: Machine, a: Action, s': Machine)
    requires InCourse(e, s) && Good(e, max, s) && Step(e, max, s, a, s')
    ensures InCourse(e, s')
  {
    GoodKept(e, max, s, a, s');
    match a
    case Wake(t, p) => WakeCourse(e, s, t, p);
    case _ => TaskCourse(e, max, s, a);
  }

  lemma TaskCourse(e: Site, max: int, s: Machine, a: Action)
    requires InCourse(e, s) && Enabled(e, max, s, a) && !a.Wake? && Shaped(e, Apply(e, max, s, a))
    ensures InCourse(e, Apply(e, max, s, a))
  {
    var k := s.stacks[a.task];
    var m, g := k[|k| - 1].monitor, k[|k| - 1].stage;
    assert m in e.net.order && TodoOk(e, m, g);
    match a
    case Resume(t) => ResumeCourse(e, s, t, m, g.verdict);
    case Logged(t) => LoggedCourse(e, s, t);
    case Continue(t) => ContinueCourse(e, s, t);
    case _ => SuspendedCourse(e, max, s, a, m, g);
  }

  /** In every state of every behaviour. */
  lemma AlwaysInCourse(e: Site, max: int, tasks: set<Task>, acts: seq<Action>, trace: seq<Machine>, i: nat)
    requires Behaviour(e, max, tasks, acts, trace) && max >= 0 && i < |trace|
    ensures InCourse(e, trace[i])
  {
    var inv := (s: Machine) => Good(e, max, s) && InCourse(e, s);
    forall s, a, s' | inv(s) && Step(e, max, s, a, s')
      ensures inv(s')
    {
      GoodKept(e, max, s, a, s');
      CourseKept(e, max, s, a, s');
    }
    InitGood(e, max, tasks);
    InductiveHolds(e, max, tasks, acts, trace, inv, i);
  }

  // ----- Suppression -----

  /** The task of k has just decided that the problem of m is suppressed behind b. */
  predicate Suppresses(k: Stack, k': Stack, m: string, b: string) {
    && k != k' && k' != [] && Top(k').monitor == m && Top(k').stage.Logging? && Top(k').stage.note == SuppressedBy(b)
  }

  lemma SettledNames(e: Site, s: Machine, t: Task, tr: Transition, v: Verdict, m: string, b: string)
    requires Shaped(e, s) && Active(s, t) && Top(s.stacks[t]).monitor in e.net.order
    requires var blocker := BlockingParent(e.net, s.world.states, Top(s.stacks[t]).monitor);
      Suppresses(s.stacks[t], Settled(s, t, Top(s.stacks[t]).monitor, tr, v, blocker).stacks[t], m, b)
    ensures m in e.net.order && NamesCause(e.net, s.world.states, m, b)
  {
    var blocker := BlockingParent(e.net, s.world.states, Top(s.stacks[t]).monitor);
    TopOfSetTop(s.stacks[t], Logging(tr, v, if blocker.Some? then SuppressedBy(blocker.value) else Plain));
    RootCauseIsFirst(e.net, s.world.states, m, b);
  }

  lemma DecidingNames(e: Site, s: Machine, t: Task, tr: Transition, v: Verdict, m: string, b: string)
    requires Shaped(e, s) && Active(s, t) && Top(s.stacks[t]).stage == Deciding(tr, v)
    requires Top(s.stacks[t]).monitor in e.net.order
    requires Suppresses(s.stacks[t], OnDeciding(e, s, t, Top(s.stacks[t]).monitor, tr, v).stacks[t], m, b)
    ensures m in e.net.order && NamesCause(e.net, s.world.states, m, b)
  {
    var x := Top(s.stacks[t]).monitor;
    if !IsProblem(tr.current) {
      TopOfSetTop(s.stacks[t], Logging(tr, v, Plain));
    } else if !Blocked(e.net, s.world.states, x) && e.net.parents[x] != [] {
      TopOfSetTop(s.stacks[t], Confirming(tr, v, e.net.parents[x], 0));
    } else {
      SettledNames(e, s, t, tr, v, m, b);
    }
  }

  lemma ConfirmingNames(e: Site, s: Machine, t: Task, g: Stage, m: string, b: string)
    requires Shaped(e, s) && Active(s, t) && Top(s.stacks[t]).stage == g && g.Confirming?
    requires Top(s.stacks[t]).monitor in e.net.order
    requires Suppresses(s.stacks[t], OnConfirming(e, s, t, Top(s.stacks[t]).monitor, g.change, g.verdict, g.todo,
                                                  g.attempts).stacks[t], m, b)
    ensures m in e.net.order && NamesCause(e.net, s.world.states, m, b)
  {
    if g.todo == [] {
      SettledNames(e, s, t, g.change, g.verdict, m, b);
    } else {
      TopOfSetTop(s.stacks[t], Confirming(g.change, g.verdict, g.todo[1..], 0));
      assert false;
    }
  }

  /** No other step decides that. */
  lemma OthersNotSuppressing(e: Site, max: int, s: Machine, a: Action, m: string, b: string)
    requires Shaped(e, s) && Enabled(e, max, s, a)
    requires Active(s, a.task) ==> !Top(s.stacks[a.task]).stage.Deciding? && !Top(s.stacks[a.task]).stage.Confirming?
    ensures a.task in Apply(e, max, s, a).stacks
    ensures !Suppresses(s.stacks[a.task], Apply(e, max, s, a).stacks[a.task], m, b)
  {
    var k := s.stacks[a.task];
    if a.Continue? {
      assert TodoOk(e, k[|k| - 1].monitor, k[|k| - 1].stage);
      NotSuppressing(e, s, a.task, m, b);
    } else if !a.Wake? {
      assert TodoOk(e, k[|k| - 1].monitor, k[|k| - 1].stage);
      forall g
        ensures Top(SetTop(k, g)).stage == g
      {
        TopOfSetTop(k, g);
      }
    }
  }

  lemma NotSuppressing(e: Site, s: Machine, t: Task, m: string, b: string)
    requires Shaped(e, s) && Active(s, t) && Immediate(Top(s.stacks[t]).stage)
    requires TodoOk(e, Top(s.stacks[t]).monitor, Top(s.stacks[t]).stage)
    requires !Top(s.stacks[t]).stage.Deciding? && !Top(s.stacks[t]).stage.Confirming?
    ensures t in ApplyContinue(e, s, t).stacks
    ensures !Suppresses(s.stacks[t], ApplyContinue(e, s, t).stacks[t], m, b)
  {
    var k := s.stacks[t];
    if Top(k).stage.Returning? {
      PoppedTop(e, k, Top(k).stage.verdict);
    } else {
      forall g
        ensures Top(SetTop(k, g)).stage == g
      {
        TopOfSetTop(k, g);
      }
    }
  }

  lemma PoppedTop(e: Site, k: Stack, v: Verdict)
    requires StackOk(e, k) && k != []
    ensures Popped(k, v) != [] ==> !Top(Popped(k, v)).stage.Logging?
  {
    var below := k[..|k| - 1];
    if below != [] {
      TopOfSetTop(below, Checking(v, [], v));
    }
  }

  lemma StepNames(e: Site, max: int, s: Machine, a: Action, m: string, b: string)
    requires Shaped(e, s) && Enabled(e, max, s, a) && a.task in Apply(e, max, s, a).stacks
    requires Suppresses(s.stacks[a.task], Apply(e, max, s, a).stacks[a.task], m, b)
    ensures m in e.net.order && NamesCause(e.net, s.world.states, m, b)
  {
    var k := s.stacks[a.task];
    if k != [] && (Top(k).stage.Deciding? || Top(k).stage.Confirming?) {
      assert TodoOk(e, k[|k| - 1].monitor, k[|k| - 1].stage);
      if Top(k).stage.Deciding? {
        DecidingNames(e, s, a.task, Top(k).stage.change, Top(k).stage.verdict, m, b);
      } else {
        ConfirmingNames(e, s, a.task, Top(k).stage, m, b);
      }
    } else {
      OthersNotSuppressing(e, max, s, a, m, b);
    }
  }

  /** Whenever a problem is suppressed, it is behind the monitor that the first blocking chain ends with. */
  lemma EverySuppressionIsRight(e: Site, max: int, tasks: set<Task>, acts: seq<Action>, trace: seq<Machine>, i: nat,
                                t: Task, m: string, b: string)
    requires Behaviour(e, max, tasks, acts, trace) && max >= 0 && i < |acts|
    requires t in trace[i].stacks && t in trace[i + 1].stacks
    requires Suppresses(trace[i].stacks[t], trace[i + 1].stacks[t], m, b)
    ensures Shaped(e, trace[i]) && NamesCause(e.net, trace[i].world.states, m, b)
  {
    var j := i + 1;
    AlwaysGood(e, max, tasks, acts, trace, i);
    assert Step(e, max, trace[i], acts[i], trace[j]);
    if t != acts[i].task {
      OthersStay(e, max, trace[i], acts[i], t);
    }
    StepNames(e, max, trace[i], acts[i], m, b);
  }

  lemma OthersStay(e: Site, max: int, s: Machine, a: Action, t: Task)
    requires Shaped(e, s) && Enabled(e, max, s, a) && t in s.stacks && t != a.task
    ensures t in Apply(e, max, s, a).stacks && Apply(e, max, s, a).stacks[t] == s.stacks[t]
  {
    if !a.WriteRow? && !a.Resume? {
      GentleStep(e, max, s, a);
    }
  }
}
