/** What holds in every reachable state of the interleaved scheduler, for any
    network, any number of tasks and any answers of the checks. */
module Guarantees {
  import opened Wrappers
  import opened MonitorStates
  import opened Networks
  import opened Engine
  import opened Interleavings
  import opened Discipline
  import opened Behaviours
  import opened Logbooks
  import opened Notifications

  ghost predicate Good(e: Site, max: int, s: Machine) {
    Disciplined(e, max, s) && Faithful(e, s) && Announced(e, s)
  }

  lemma InitGood(e: Site, max: int, tasks: set<Task>)
    requires e.Valid() && max >= 0
    ensures Good(e, max, Init(e, tasks))
  {
  }

  lemma GoodKept(e: Site, max: int, s: Machine, a: Action, s': Machine)
    requires Good(e, max, s) && Step(e, max, s, a, s')
    ensures Good(e, max, s')
  {
    StepKeeps(e, max, s, a);
    FaithfulKept(e, max, s, a);
    AnnouncedKept(e, max, s, a);
  }

  ghost predicate Inductive(e: Site, max: int, inv: Machine -> bool) {
    forall s, a, s' | inv(s) && Step(e, max, s, a, s') :: inv(s')
  }

  lemma {:induction false} InductiveHolds(e: Site, max: int, tasks: set<Task>, acts: seq<Action>, trace: seq<Machine>,
                                          inv: Machine -> bool, i: nat)
    requires Behaviour(e, max, tasks, acts, trace) && i < |trace|
    requires inv(trace[0]) && Inductive(e, max, inv)
    ensures inv(trace[i])
  {
    if i > 0 {
      InductiveHolds(e, max, tasks, acts, trace, inv, i - 1);
      var j := i - 1;
      assert Step(e, max, trace[j], acts[j], trace[j + 1]);
    }
  }

  /** The invariant of every behaviour. */
  lemma AlwaysGood(e: Site, max: int, tasks: set<Task>, acts: seq<Action>, trace: seq<Machine>, i: nat)
    requires Behaviour(e, max, tasks, acts, trace) && max >= 0 && i < |trace|
    ensures Good(e, max, trace[i])
  {
    forall s, a, s' | Good(e, max, s) && Step(e, max, s, a, s')
      ensures Good(e, max, s')
    {
      GoodKept(e, max, s, a, s');
    }
    InitGood(e, max, tasks);
    InductiveHolds(e, max, tasks, acts, trace, s => Good(e, max, s), i);
  }

  /** Tasks t and u are both inside the locked block of one monitor. */
  predicate BothInside(s: Machine, t: Task, u: Task) {
    && Active(s, t) && Active(s, u) && HoldsLock(Top(s.stacks[t]).stage) && HoldsLock(Top(s.stacks[u]).stage)
    && Top(s.stacks[t]).monitor == Top(s.stacks[u]).monitor
  }

  /** Mutual exclusion; no task holds two locks; probes are bounded. */
  lemma LocksAndProbes(e: Site, max: int, tasks: set<Task>, acts: seq<Action>, trace: seq<Machine>, i: nat)
    requires Behaviour(e, max, tasks, acts, trace) && max >= 0 && i < |trace|
    ensures var s := trace[i];
      && (forall t, u | BothInside(s, t, u) :: t == u)
      && (forall m, n | m in s.held && n in s.held && s.held[m] == s.held[n] :: m == n)
      && |set t | t in s.stacks && InProbe(s.stacks[t])| <= max
  {
    var s := trace[i];
    AlwaysGood(e, max, tasks, acts, trace, i);
    forall t, u | BothInside(s, t, u)
      ensures t == u
    {
      assert Holding(s.stacks[t]) == Holding(s.stacks[u]) == Some(Top(s.stacks[t]).monitor);
    }
    assert (set t | t in s.stacks && InProbe(s.stacks[t])) == s.holders;
  }

  /** Whenever its lock is free, the counters and state of a monitor are the fold
      of observe over the rows recorded for it. */
  lemma FreeLockMeansReplayed(e: Site, max: int, tasks: set<Task>, acts: seq<Action>, trace: seq<Machine>, i: nat,
                              m: string)
    requires Behaviour(e, max, tasks, acts, trace) && max >= 0 && i < |trace|
    requires m in e.net.order && m !in trace[i].held
    ensures m in trace[i].world.states
    ensures trace[i].world.states[m].(alertOpen := false) == Recorded(e, trace[i].world.rows, m)
  {
    AlwaysGood(e, max, tasks, acts, trace, i);
  }

  /** The alert log of every monitor has the shape (Problem+ Up)* Problem*, the
      flag is set exactly when it ends in a problem, and a first Up is never sent. */
  lemma AlertLogs(e: Site, max: int, tasks: set<Task>, acts: seq<Action>, trace: seq<Machine>, i: nat, m: string)
    requires Behaviour(e, max, tasks, acts, trace) && max >= 0 && i < |trace| && m in e.net.order
    ensures var w := trace[i].world;
      && LogShape(SentTo(w.sent, m))
      && m in w.states && (w.states[m].alertOpen <==> IsOpen(SentTo(w.sent, m)))
      && forall n | n in w.sent :: n.change.Alertable()
  {
    AlwaysGood(e, max, tasks, acts, trace, i);
    assert FlagOk(trace[i].world.states[m], SentTo(trace[i].world.sent, m));
  }

  /** At the instant a problem is sent nothing blocks its monitor; an Up is sent
      only while the alert is open. */
  ghost predicate SentRightly(e: Site, s: Machine, n: Notice)
    requires Shaped(e, s)
  {
    && n.slug in e.net.order
    && (IsProblem(n.change.current) ==> !Blocked(e.net, s.world.states, n.slug))
    && (n.change.current == Up ==> s.world.states[n.slug].alertOpen)
  }

  lemma ContinueSends(e: Site, s: Machine, t: Task)
    requires Shaped(e, s) && Active(s, t) && Immediate(Top(s.stacks[t]).stage)
    ensures ApplyContinue(e, s, t).world.sent == s.world.sent
            || exists n :: SentRightly(e, s, n) && ApplyContinue(e, s, t).world.sent == s.world.sent + [n]
  {
    var m, g := Top(s.stacks[t]).monitor, Top(s.stacks[t]).stage;
    assert TodoOk(e, m, g);
    if g.Deciding? || g.Confirming? {
      if IsProblem(g.change.current) && !Blocked(e.net, s.world.states, m) {
        assert SentRightly(e, s, Notice(m, g.change, Plain));
      } else if g.Deciding? && g.change.current == Up && s.world.states[m].alertOpen {
        assert SentRightly(e, s, Notice(m, g.change, Plain));
      }
    } else if g.Checking? {
      var c := g.todo[0];
      if StillAlone(e, s.world, c, g.child) {
        var n := Notice(c, Transition(s.world.states[c].state, s.world.states[c].state), StillAfter(m));
        assert SentRightly(e, s, n);
      }
    }
  }

  lemma StepSends(e: Site, max: int, s: Machine, a: Action, s': Machine)
    requires Good(e, max, s) && Step(e, max, s, a, s')
    ensures s'.world.sent == s.world.sent
            || exists n :: SentRightly(e, s, n) && s'.world.sent == s.world.sent + [n]
  {
    if a.Continue? {
      ContinueSends(e, s, a.task);
    } else if !a.Wake? {
      assert TodoOk(e, Top(s.stacks[a.task]).monitor, Top(s.stacks[a.task]).stage);
    }
  }

  /** A step sends at most one alert, and rightly. */
  lemma EverySendIsRight(e: Site, max: int, tasks: set<Task>, acts: seq<Action>, trace: seq<Machine>, i: nat)
    requires Behaviour(e, max, tasks, acts, trace) && max >= 0 && i < |acts|
    ensures var s, s' := trace[i], trace[i + 1];
      && Shaped(e, s)
      && (s'.world.sent == s.world.sent
          || exists n :: SentRightly(e, s, n) && s'.world.sent == s.world.sent + [n])
  {
    AlwaysGood(e, max, tasks, acts, trace, i);
    var j := i + 1;
    assert Step(e, max, trace[i], acts[i], trace[j]);
    StepSends(e, max, trace[i], acts[i], trace[j]);
  }

  /** Unless every task sleeps, some task can take a step: no deadlock of locks
      and semaphore is reachable. */
  lemma NoDeadlock(e: Site, max: int, tasks: set<Task>, acts: seq<Action>, trace: seq<Machine>, i: nat, t: Task)
    requires Behaviour(e, max, tasks, acts, trace) && max >= 1 && i < |trace| && Active(trace[i], t)
    ensures exists a :: Enabled(e, max, trace[i], a) && !a.Wake?
  {
    AlwaysGood(e, max, tasks, acts, trace, i);
    SomeMove(e, max, trace[i], t);
  }

  lemma SomeMove(e: Site, max: int, s: Machine, t: Task)
    requires Good(e, max, s) && max >= 1 && Active(s, t)
    ensures exists a :: Enabled(e, max, s, a) && !a.Wake?
  {
    if s.running.Some? {
      assert Enabled(e, max, s, Continue(s.running.value));
    } else {
      var top := Top(s.stacks[t]);
      assert !Live(s.stacks[t]);
      assert !top.stage.AwaitChild?;
      if top.stage.WaitLock? {
        if top.monitor in s.held {
          assert Holding(s.stacks[s.held[top.monitor]]) == Some(top.monitor);
          HolderMoves(e, max, s, s.held[top.monitor]);
        } else {
          assert Enabled(e, max, s, TakeLock(t));
        }
      } else if HoldsLock(top.stage) {
        HolderMoves(e, max, s, t);
      } else {
        assert Enabled(e, max, s, Logged(t));
      }
    }
  }

  /** Who holds a lock waits for the semaphore at most, and its holders move. */
  lemma HolderMoves(e: Site, max: int, s: Machine, t: Task)
    requires Good(e, max, s) && max >= 1 && s.running.None? && Active(s, t) && HoldsLock(Top(s.stacks[t]).stage)
    ensures exists a :: Enabled(e, max, s, a) && !a.Wake?
  {
    match Top(s.stacks[t]).stage {
      case WaitSem =>
        if |s.holders| < max {
          assert Enabled(e, max, s, TakeSem(t));
        } else {
          assert s.holders != {};
          var u :| u in s.holders;
          assert InProbe(s.stacks[u]);
          assert Enabled(e, max, s, Answer(u, Ok));
        }
      case Probing => assert Enabled(e, max, s, Answer(t, Ok));
      case Writing(_) => assert Enabled(e, max, s, WriteRow(t));
      case Written(_) => assert Enabled(e, max, s, Resume(t));
    }
  }
}
