/** No alert is lost over any interleaving: every unblocked outage is alerted or
    owed by a task in flight. */
module InterleavedAlerts {
  import opened Wrappers
  import opened MonitorStates
  import opened Networks
  import opened Engine
  import opened NoLostAlerts
  import opened Interleavings
  import opened Discipline
  import opened Behaviours
  import opened Notifications
  import opened Debts

  /** A poll made for a release is a poll of the first in line. */
  ghost predicate LinkedAt(k: Stack, i: int) {
    0 <= i < |k| - 1 && k[i].stage.AwaitChild? ==>
      k[i].stage.todo != [] && k[i + 1].monitor == k[i].stage.todo[0]
  }

  ghost predicate Linked(k: Stack) {
    forall i :: LinkedAt(k, i)
  }

  /** A result that is not observed yet is one that the monitor may give. */
  ghost predicate Licit(e: Site, k: Stack) {
    k != [] && (Top(k).stage.Writing? || Top(k).stage.Written?) ==> Allowed(e, Top(k).monitor, Top(k).stage.verdict)
  }

  ghost predicate Booked(e: Site, s: Machine)
    requires Shaped(e, s)
  {
    Sound(e, s.world, OwedIn(e, s.stacks))
  }

  ghost predicate Orderly(e: Site, k: Stack) {
    Linked(k) && Licit(e, k)
  }

  ghost predicate Accounted(e: Site, s: Machine) {
    Prompt(e) && Shaped(e, s) && Booked(e, s) && forall t | t in s.stacks :: Orderly(e, s.stacks[t])
  }

  // ----- One task moves -----

  lemma OwedAfterGoto(e: Site, k: Stack, g: Stage, x: string)
    requires k != [] && SawOk(g) == SawOk(Top(k).stage) && x in OwedBy(e, k, false)
    ensures x in OwedBy(e, SetTop(k, g), false)
            || (Owes(e.net, Top(k), false, x) && !Owes(e.net, Activation(Top(k).monitor, g), false, x))
  {
    OwedByTop(e, k[..|k| - 1], Activation(Top(k).monitor, g), false);
  }

  /** The top activation goes on to stage g; what it no longer owes is settled. */
  lemma GotoSound(e: Site, s: Machine, w: World, t: Task, g: Stage)
    requires Shaped(e, s) && Active(s, t) && Fits(e, w) && Sound(e, w, OwedIn(e, s.stacks))
    requires SawOk(g) == SawOk(Top(s.stacks[t]).stage)
    requires HandsOver(e, w, Top(s.stacks[t]).monitor, Top(s.stacks[t]).stage, g)
    ensures Sound(e, w, OwedIn(e, s.stacks[t := SetTop(s.stacks[t], g)]))
  {
    var k := s.stacks[t];
    forall x | x in e.net.order && x in OwedBy(e, k, false) && x !in OwedBy(e, SetTop(k, g), false)
      ensures Fine(e, w, x)
    {
      OwedAfterGoto(e, k, g, x);
    }
    assert OwedIn(e, s.stacks) + {} == OwedIn(e, s.stacks);
    Rebooked(e, w, s.stacks, t, SetTop(k, g), {});
  }

  /** The top activation goes on to stage g and calls poll_once(p): it owes what it owed. */
  lemma CallSound(e: Site, s: Machine, t: Task, g: Stage, p: string)
    requires Shaped(e, s) && Active(s, t) && Sound(e, s.world, OwedIn(e, s.stacks))
    requires SawOk(g) == SawOk(Top(s.stacks[t]).stage)
    requires forall x | x in e.net.order && Owes(e.net, Top(s.stacks[t]), false, x) ::
               Owes(e.net, Activation(Top(s.stacks[t]).monitor, g), false, x)
    ensures Sound(e, s.world, OwedIn(e, Call(s, t, SetTop(s.stacks[t], g), p).stacks))
  {
    var k := s.stacks[t];
    forall x | x in OwedBy(e, k, false)
      ensures x in OwedBy(e, SetTop(k, g) + [Activation(p, WaitLock)], false)
    {
      OwedByIsEnabled(e, k, false, x);
      OwedAfterGoto(e, k, g, x);
      OwedByTop(e, SetTop(k, g), Activation(p, WaitLock), false);
    }
    assert OwedIn(e, s.stacks) + {} == OwedIn(e, s.stacks);
    Rebooked(e, s.world, s.stacks, t, SetTop(k, g) + [Activation(p, WaitLock)], {});
  }

  // ----- Steps that observe nothing -----

  /** A problem is decided once its monitor is alerted or blocked. */
  lemma DecidedSound(e: Site, s: Machine, w: World, t: Task, m: string, tr: Transition, v: Verdict, note: Note)
    requires Shaped(e, s) && Active(s, t) && Fits(e, w) && Sound(e, w, OwedIn(e, s.stacks))
    requires Top(s.stacks[t]).monitor == m && m in e.net.order && IsProblem(tr.current) && Fine(e, w, m)
    requires Top(s.stacks[t]).stage == Deciding(tr, v)
             || (Top(s.stacks[t]).stage.Confirming? && Top(s.stacks[t]).stage.verdict == v)
    ensures Sound(e, w, OwedIn(e, s.stacks[t := SetTop(s.stacks[t], Logging(tr, v, note))]))
  {
    ProblemIsDecided(e, w, m, Top(s.stacks[t]).stage, Logging(tr, v, note));
    GotoSound(e, s, w, t, Logging(tr, v, note));
  }

  lemma SettledSound(e: Site, s: Machine, t: Task, m: string, tr: Transition, v: Verdict)
    requires Prompt(e) && Shaped(e, s) && Booked(e, s) && Active(s, t) && IsProblem(tr.current)
    requires Top(s.stacks[t]).monitor == m && m in e.net.order
    requires Top(s.stacks[t]).stage == Deciding(tr, v)
             || (Top(s.stacks[t]).stage.Confirming? && Top(s.stacks[t]).stage.verdict == v)
    ensures var s' := Settled(s, t, m, tr, v, BlockingParent(e.net, s.world.states, m));
            Fits(e, s'.world) && Sound(e, s'.world, OwedIn(e, s'.stacks))
  {
    match BlockingParent(e.net, s.world.states, m) {
      case Some(b) => DecidedSound(e, s, s.world, t, m, tr, v, SuppressedBy(b));
      case None =>
        AlertSound(e, s.world, m, true, Notice(m, tr, Plain), OwedIn(e, s.stacks));
        DecidedSound(e, s, Alert(s.world, m, true, Notice(m, tr, Plain)), t, m, tr, v, Plain);
    }
  }

  lemma ClosedSound(e: Site, s: Machine, w: World, t: Task, m: string, tr: Transition, v: Verdict)
    requires Shaped(e, s) && Active(s, t) && Fits(e, w) && Sound(e, w, OwedIn(e, s.stacks))
    requires Top(s.stacks[t]) == Activation(m, Deciding(tr, v)) && tr.current == Up
    ensures Sound(e, w, OwedIn(e, s.stacks[t := SetTop(s.stacks[t], Logging(tr, v, Plain))]))
  {
    UpIsRecovered(e, w, m, tr, v, Plain);
    GotoSound(e, s, w, t, Logging(tr, v, Plain));
  }

  /** An up transition: the alert is closed, and the descendants are still owed. */
  lemma RecoveredSound(e: Site, s: Machine, t: Task, m: string, tr: Transition, v: Verdict)
    requires Prompt(e) && Shaped(e, s) && Booked(e, s) && Active(s, t)
    requires Top(s.stacks[t]) == Activation(m, Deciding(tr, v)) && m in e.net.order
    requires tr.current == Up && s.world.states[m].state == Up
    ensures var w := if s.world.states[m].alertOpen then Alert(s.world, m, false, Notice(m, tr, Plain)) else s.world;
            Fits(e, w) && Sound(e, w, OwedIn(e, s.stacks[t := SetTop(s.stacks[t], Logging(tr, v, Plain))]))
  {
    var n := Notice(m, tr, Plain);
    if s.world.states[m].alertOpen {
      AlertSound(e, s.world, m, false, n, OwedIn(e, s.stacks));
      ClosedSound(e, s, Alert(s.world, m, false, n), t, m, tr, v);
    } else {
      ClosedSound(e, s, s.world, t, m, tr, v);
    }
  }

  lemma DecidingSound(e: Site, s: Machine, t: Task, m: string, tr: Transition, v: Verdict)
    requires Prompt(e) && Shaped(e, s) && Booked(e, s) && Active(s, t)
    requires Top(s.stacks[t]) == Activation(m, Deciding(tr, v)) && m in e.net.order
    requires s.world.states[m].state == tr.current != Pending
    ensures var s' := OnDeciding(e, s, t, m, tr, v);
            Fits(e, s'.world) && Sound(e, s'.world, OwedIn(e, s'.stacks))
  {
    if !IsProblem(tr.current) {
      RecoveredSound(e, s, t, m, tr, v);
    } else if BlockingParent(e.net, s.world.states, m).None? && e.net.parents[m] != [] {
      ProblemIsConfirmed(e, s.world, m, tr, v, e.net.parents[m]);
      GotoSound(e, s, s.world, t, Confirming(tr, v, e.net.parents[m], 0));
    } else {
      SettledSound(e, s, t, m, tr, v);
    }
  }

  lemma ParentAskedSound(e: Site, s: Machine, t: Task, m: string, tr: Transition, v: Verdict, todo: seq<string>,
                         attempts: nat)
    requires Shaped(e, s) && Booked(e, s) && Active(s, t) && todo != []
    requires Top(s.stacks[t]) == Activation(m, Confirming(tr, v, todo, attempts))
    ensures Sound(e, s.world,
                  OwedIn(e, Call(s, t, SetTop(s.stacks[t], Confirming(tr, v, todo, attempts + 1)), todo[0]).stacks))
  {
    CallSound(e, s, t, Confirming(tr, v, todo, attempts + 1), todo[0]);
  }

  lemma ParentPassedSound(e: Site, s: Machine, t: Task, m: string, tr: Transition, v: Verdict, todo: seq<string>,
                          attempts: nat)
    requires Shaped(e, s) && Booked(e, s) && Active(s, t) && todo != []
    requires Top(s.stacks[t]) == Activation(m, Confirming(tr, v, todo, attempts))
    ensures Sound(e, s.world, OwedIn(e, Goto(s, t, Confirming(tr, v, todo[1..], 0)).stacks))
  {
    ParentIsPassed(e, s.world, m, Confirming(tr, v, todo, attempts), Confirming(tr, v, todo[1..], 0));
    GotoSound(e, s, s.world, t, Confirming(tr, v, todo[1..], 0));
  }

  lemma ConfirmingSound(e: Site, s: Machine, t: Task, m: string, tr: Transition, v: Verdict, todo: seq<string>,
                        attempts: nat)
    requires Prompt(e) && Shaped(e, s) && Booked(e, s) && Active(s, t) && m in e.net.order && IsProblem(tr.current)
    requires Top(s.stacks[t]) == Activation(m, Confirming(tr, v, todo, attempts))
    ensures var s' := OnConfirming(e, s, t, m, tr, v, todo, attempts);
            Fits(e, s'.world) && Sound(e, s'.world, OwedIn(e, s'.stacks))
  {
    if todo == [] {
      SettledSound(e, s, t, m, tr, v);
    } else if todo[0] in e.net.order && Unsettled(s.world.states[todo[0]]) && attempts < e.failures[todo[0]] {
      ParentAskedSound(e, s, t, m, tr, v, todo, attempts);
    } else {
      ParentPassedSound(e, s, t, m, tr, v, todo, attempts);
    }
  }

  lemma ReleasedSound(e: Site, s: Machine, t: Task, m: string, v: Verdict)
    requires Shaped(e, s) && Booked(e, s) && Active(s, t) && Top(s.stacks[t]) == Activation(m, Releasing(v, []))
    ensures Sound(e, s.world, OwedIn(e, Goto(s, t, Returning(v)).stacks))
  {
    NoneIsLeft(e, s.world, m, v, Returning(v));
    GotoSound(e, s, s.world, t, Returning(v));
  }

  lemma DependentAskedSound(e: Site, s: Machine, t: Task, m: string, v: Verdict, todo: seq<string>)
    requires Shaped(e, s) && Booked(e, s) && Active(s, t) && Top(s.stacks[t]) == Activation(m, Releasing(v, todo))
    requires todo != []
    ensures Sound(e, s.world, OwedIn(e, Call(s, t, SetTop(s.stacks[t], AwaitChild(v, todo)), todo[0]).stacks))
  {
    NextIsAsked(e, s.world, m, v, todo);
    CallSound(e, s, t, AwaitChild(v, todo), todo[0]);
  }

  lemma DependentPassedSound(e: Site, s: Machine, t: Task, m: string, v: Verdict, todo: seq<string>)
    requires Shaped(e, s) && Booked(e, s) && Active(s, t) && Top(s.stacks[t]) == Activation(m, Releasing(v, todo))
    requires todo != [] && todo[0] in e.net.order && !Releasable(e, s.world, todo[0], m)
    ensures Sound(e, s.world, OwedIn(e, Goto(s, t, Releasing(v, todo[1..])).stacks))
  {
    NextIsPassed(e, s.world, m, v, todo);
    GotoSound(e, s, s.world, t, Releasing(v, todo[1..]));
  }

  lemma ReleasingSound(e: Site, s: Machine, t: Task, m: string, v: Verdict, todo: seq<string>)
    requires Prompt(e) && Shaped(e, s) && Booked(e, s) && Active(s, t)
    requires Top(s.stacks[t]) == Activation(m, Releasing(v, todo)) && TodoOk(e, m, Releasing(v, todo))
    ensures var s' := OnReleasing(e, s, t, m, v, todo);
            Fits(e, s'.world) && Sound(e, s'.world, OwedIn(e, s'.stacks))
  {
    if todo == [] {
      ReleasedSound(e, s, t, m, v);
    } else if Releasable(e, s.world, todo[0], m) {
      DependentAskedSound(e, s, t, m, v, todo);
    } else {
      DependentPassedSound(e, s, t, m, v, todo);
    }
  }

  lemma StillAloneSound(e: Site, s: Machine, t: Task, m: string, v: Verdict, todo: seq<string>, child: Verdict,
                        n: Notice)
    requires Prompt(e) && Shaped(e, s) && Booked(e, s) && Active(s, t) && todo != [] && todo[0] in e.net.order
    requires Top(s.stacks[t]) == Activation(m, Checking(v, todo, child))
    ensures var w := Alert(s.world, todo[0], true, n);
            Fits(e, w) && Sound(e, w, OwedIn(e, s.stacks[t := SetTop(s.stacks[t], LoggingStill(v, todo, n))]))
  {
    AlertSound(e, s.world, todo[0], true, n, OwedIn(e, s.stacks));
    CheckedIsAlerted(e, Alert(s.world, todo[0], true, n), m, v, todo, child, n);
    GotoSound(e, s, Alert(s.world, todo[0], true, n), t, LoggingStill(v, todo, n));
  }

  lemma CheckingSound(e: Site, s: Machine, t: Task, m: string, v: Verdict, todo: seq<string>, child: Verdict)
    requires Prompt(e) && Shaped(e, s) && Booked(e, s) && Active(s, t)
    requires Top(s.stacks[t]) == Activation(m, Checking(v, todo, child)) && TodoOk(e, m, Checking(v, todo, child))
    ensures var s' := OnChecking(e, s, t, m, v, todo, child);
            Fits(e, s'.world) && Sound(e, s'.world, OwedIn(e, s'.stacks))
  {
    var c := todo[0];
    if StillAlone(e, s.world, c, child) {
      var n := Notice(c, Transition(s.world.states[c].state, s.world.states[c].state), StillAfter(m));
      StillAloneSound(e, s, t, m, v, todo, child, n);
    } else {
      CheckedIsFine(e, s.world, m, v, todo, child);
      GotoSound(e, s, s.world, t, Releasing(v, todo[1..]));
    }
  }

  lemma OwedAfterChild(e: Site, b: Stack, m: string, v0: Verdict, todo: seq<string>, v: Verdict)
    ensures OwedBy(e, b + [Activation(m, AwaitChild(v0, todo))], v == Ok)
         == OwedBy(e, b + [Activation(m, Checking(v0, todo, v))], false)
  {
    OwedByTop(e, b, Activation(m, AwaitChild(v0, todo)), v == Ok);
    OwedByTop(e, b, Activation(m, Checking(v0, todo, v)), false);
    ChildIsChecked(e, m, v0, todo, v);
  }

  lemma OwedAfterPop(e: Site, k: Stack, v: Verdict, x: string)
    requires k != [] && Top(k).stage == Returning(v) && x in OwedBy(e, k, false)
    ensures x in OwedBy(e, Popped(k, v), false)
  {
    var b := k[..|k| - 1];
    assert x in OwedBy(e, b, v == Ok);
    if b != [] && Top(b).stage.AwaitChild? {
      var top := Top(b);
      assert b == b[..|b| - 1] + [top];
      OwedAfterChild(e, b[..|b| - 1], top.monitor, top.stage.verdict, top.stage.todo, v);
    } else {
      SettledOwes(e, b, x);
    }
  }

  lemma ReturningSound(e: Site, s: Machine, t: Task, m: string, v: Verdict)
    requires Prompt(e) && Shaped(e, s) && Booked(e, s) && Active(s, t)
             && Top(s.stacks[t]) == Activation(m, Returning(v))
    ensures var s' := OnReturning(s, t, v);
            Fits(e, s'.world) && Sound(e, s'.world, OwedIn(e, s'.stacks))
  {
    var k := s.stacks[t];
    forall x | x in OwedBy(e, k, false)
      ensures x in OwedBy(e, Popped(k, v), false)
    {
      OwedAfterPop(e, k, v, x);
    }
    assert OwedIn(e, s.stacks) + {} == OwedIn(e, s.stacks);
    Rebooked(e, s.world, s.stacks, t, Popped(k, v), {});
  }

  lemma LoggedStillSound(e: Site, s: Machine, t: Task, m: string, v: Verdict, todo: seq<string>, n: Notice)
    requires Prompt(e) && Shaped(e, s) && Booked(e, s) && Active(s, t)
    requires Top(s.stacks[t]) == Activation(m, LoggingStill(v, todo, n)) && todo != []
    ensures var s' := ApplyLogged(e, s, t);
            Fits(e, s'.world) && Sound(e, s'.world, OwedIn(e, s'.stacks))
  {
    var s' := ApplyLogged(e, s, t);
    SoundSame(e, s.world, s'.world, OwedIn(e, s.stacks));
    StillIsLogged(e, s'.world, m, v, todo, n);
    GotoSound(e, s, s'.world, t, Releasing(v, todo[1..]));
  }

  lemma LoggedUpSound(e: Site, s: Machine, t: Task, m: string, tr: Transition, v: Verdict, note: Note)
    requires Prompt(e) && Shaped(e, s) && Booked(e, s) && Active(s, t) && tr.current == Up
    requires Top(s.stacks[t]) == Activation(m, Logging(tr, v, note))
    ensures var w := Log(s.world, Notice(m, tr, note));
            Fits(e, w) && Sound(e, w, OwedIn(e, s.stacks[t := SetTop(s.stacks[t], Releasing(v, e.net.order))]))
  {
    var w := Log(s.world, Notice(m, tr, note));
    SoundSame(e, s.world, w, OwedIn(e, s.stacks));
    UpIsLogged(e, w, m, tr, v, note);
    GotoSound(e, s, w, t, Releasing(v, e.net.order));
  }

  lemma LoggedProblemSound(e: Site, s: Machine, t: Task, m: string, tr: Transition, v: Verdict, note: Note)
    requires Prompt(e) && Shaped(e, s) && Booked(e, s) && Active(s, t) && tr.current != Up
    requires Top(s.stacks[t]) == Activation(m, Logging(tr, v, note))
    ensures var w := Log(s.world, Notice(m, tr, note));
            Fits(e, w) && Sound(e, w, OwedIn(e, s.stacks[t := SetTop(s.stacks[t], Returning(v))]))
  {
    var w := Log(s.world, Notice(m, tr, note));
    SoundSame(e, s.world, w, OwedIn(e, s.stacks));
    GotoSound(e, s, w, t, Returning(v));
  }

  /** Before the observation nothing is owed. */
  lemma UnseenSound(e: Site, s: Machine, w: World, t: Task, g: Stage)
    requires Prompt(e) && Shaped(e, s) && Booked(e, s) && Active(s, t) && w.states == s.world.states
    requires !Seen(Top(s.stacks[t]).stage) && !Seen(g)
    ensures Fits(e, w) && Sound(e, w, OwedIn(e, s.stacks[t := SetTop(s.stacks[t], g)]))
  {
    SoundSame(e, s.world, w, OwedIn(e, s.stacks));
    GotoSound(e, s, w, t, g);
  }

  // ----- A result is observed -----

  /** Observing an Ok settles the monitor that was polled, if that was for a release; nobody else. */
  lemma OwedAfterResume(e: Site, k: Stack, m: string, v: Verdict, g: Stage, x: string)
    requires k != [] && Top(k) == Activation(m, Written(v)) && Linked(k) && Seen(g) && g.verdict == v
    requires x in OwedBy(e, k, false)
    ensures x in OwedBy(e, SetTop(k, g), false)
            || (x == m && v == Ok && exists a :: IsAncestor(e.net, a, m))
  {
    var b := k[..|k| - 1];
    OwedByTop(e, b, Activation(m, g), false);
    SettledOwes(e, b, x);
    assert x in OwedBy(e, b, false);
    if x !in OwedBy(e, b, true) {
      assert LinkedAt(k, |k| - 2);
    }
  }

  lemma OkComesUp(e: Site, w: World, a: string, m: string)
    requires Prompt(e) && Fits(e, w) && Regular(e, w) && m in e.net.order && IsAncestor(e.net, a, m)
    ensures After(w.states[m], Ok).state == Up
  {
    DescendantIsPrompt(e, a, m);
  }

  /** What a transition of m lets the task owe. */
  ghost function NewDebts(e: Site, m: string, g: Stage): set<string> {
    OwedAt(e, Activation(m, g), false)
  }

  lemma ObservedWorldSound(e: Site, s: Machine, t: Task, m: string, v: Verdict, g: Stage)
    requires Prompt(e) && Shaped(e, s) && Booked(e, s) && m in e.net.order && Allowed(e, m, v)
    requires g == match Change(s.world.states[m], v) case None => Returning(v) case Some(tr) => Deciding(tr, v)
    ensures var w := s.world.(states := s.world.states[m := After(s.world.states[m], v)]);
            Fits(e, w) && Sound(e, w, OwedIn(e, s.stacks) + NewDebts(e, m, g))
  {
    var w := s.world.(states := s.world.states[m := After(s.world.states[m], v)]);
    var owed, change := OwedIn(e, s.stacks), Change(s.world.states[m], v);
    if change.None? {
      ObserveQuiet(e, s.world, m, v, owed);
      assert owed + NewDebts(e, m, g) == owed;
    } else if IsProblem(change.value.current) {
      ObserveProblem(e, s.world, m, v, owed);
      assert owed + NewDebts(e, m, g) == owed + {m};
    } else {
      assert change.value.current == Up;
      ObserveUp(e, s.world, m, v, owed);
      assert NewDebts(e, m, g) == Descendants(e, m);
    }
    SoundSame(e, Observe(s.world, m, v), w, owed + NewDebts(e, m, g));
  }

  lemma SettledIsFine(e: Site, w: World, w': World, k: Stack, m: string, v: Verdict, g: Stage, x: string)
    requires Prompt(e) && Fits(e, w) && Fits(e, w') && Regular(e, w) && m in e.net.order && x in e.net.order
    requires k != [] && Top(k) == Activation(m, Written(v)) && Linked(k) && Seen(g) && g.verdict == v
    requires x in OwedBy(e, k, false) && x !in OwedBy(e, SetTop(k, g), false)
    requires w'.states[m] == After(w.states[m], v)
    ensures Fine(e, w', x)
  {
    OwedAfterResume(e, k, m, v, g, x);
    var a :| IsAncestor(e.net, a, m);
    OkComesUp(e, w, a, m);
  }

  lemma SeenSound(e: Site, s: Machine, w: World, t: Task, m: string, v: Verdict, g: Stage)
    requires Accounted(e, s) && Active(s, t) && Top(s.stacks[t]) == Activation(m, Written(v)) && m in e.net.order
    requires Seen(g) && g.verdict == v && Fits(e, w) && w.states[m] == After(s.world.states[m], v)
    requires Sound(e, w, OwedIn(e, s.stacks) + NewDebts(e, m, g))
    ensures Sound(e, w, OwedIn(e, s.stacks[t := SetTop(s.stacks[t], g)]))
  {
    var k := s.stacks[t];
    assert Orderly(e, k);
    OwedByTop(e, k[..|k| - 1], Activation(m, g), false);
    forall x | x in e.net.order && x in OwedBy(e, k, false) && x !in OwedBy(e, SetTop(k, g), false)
      ensures Fine(e, w, x)
    {
      SettledIsFine(e, s.world, w, k, m, v, g, x);
    }
    Rebooked(e, w, s.stacks, t, SetTop(k, g), NewDebts(e, m, g));
  }

  lemma ResumeSound(e: Site, s: Machine, t: Task, m: string, v: Verdict)
    requires Accounted(e, s) && Active(s, t) && Top(s.stacks[t]) == Activation(m, Written(v)) && m in e.net.order
    ensures var s' := Observed(s, t, m, v);
            Fits(e, s'.world) && Sound(e, s'.world, OwedIn(e, s'.stacks))
  {
    var g := match Change(s.world.states[m], v) case None => Returning(v) case Some(tr) => Deciding(tr, v);
    assert Orderly(e, s.stacks[t]);
    ObservedWorldSound(e, s, t, m, v, g);
    SeenSound(e, s, Observed(s, t, m, v).world, t, m, v, g);
  }

  // ----- Stacks stay in order -----

  lemma LinkedGoto(k: Stack, g: Stage)
    requires k != [] && Linked(k)
    ensures Linked(SetTop(k, g))
  {
    var l := SetTop(k, g);
    forall i
      ensures LinkedAt(l, i)
    {
      assert LinkedAt(k, i);
    }
  }

  lemma LinkedPush(k: Stack, a: Activation)
    requires Linked(k) && k != []
    requires Top(k).stage.AwaitChild? ==> Top(k).stage.todo != [] && a.monitor == Top(k).stage.todo[0]
    ensures Linked(k + [a])
  {
    var l := k + [a];
    forall i
      ensures LinkedAt(l, i)
    {
      assert LinkedAt(k, i);
    }
  }

  lemma LinkedBelow(k: Stack)
    requires k != [] && Linked(k)
    ensures Linked(k[..|k| - 1])
  {
    var b := k[..|k| - 1];
    forall i
      ensures LinkedAt(b, i)
    {
      assert LinkedAt(k, i);
    }
  }

  lemma LinkedPop(k: Stack, v: Verdict)
    requires k != [] && Linked(k)
    ensures Linked(Popped(k, v))
  {
    var b := k[..|k| - 1];
    LinkedBelow(k);
    if b != [] && Top(b).stage.AwaitChild? {
      LinkedGoto(b, Checking(Top(b).stage.verdict, Top(b).stage.todo, v));
    }
  }

  /** A check answers what its monitor may answer. */
  ghost predicate Permitted(e: Site, s: Machine, a: Action) {
    a.Answer? && Active(s, a.task) ==> Allowed(e, Top(s.stacks[a.task]).monitor, a.verdict)
  }

  lemma OrderlyGoto(e: Site, k: Stack, g: Stage)
    requires k != [] && Orderly(e, k)
    requires g.Writing? || g.Written? ==> Allowed(e, Top(k).monitor, g.verdict)
    ensures Orderly(e, SetTop(k, g))
  {
    LinkedGoto(k, g);
  }

  lemma OrderlyCall(e: Site, k: Stack, g: Stage, p: string)
    requires k != [] && Orderly(e, k) && (g.AwaitChild? ==> g.todo != [] && p == g.todo[0])
    ensures Orderly(e, SetTop(k, g) + [Activation(p, WaitLock)])
  {
    LinkedGoto(k, g);
    LinkedPush(SetTop(k, g), Activation(p, WaitLock));
  }

  lemma SettledOrderly(e: Site, s: Machine, t: Task, m: string, tr: Transition, v: Verdict, blocker: Option<string>)
    requires Active(s, t) && m in s.world.states && Orderly(e, s.stacks[t])
    ensures Orderly(e, Settled(s, t, m, tr, v, blocker).stacks[t])
  {
    OrderlyGoto(e, s.stacks[t], Logging(tr, v, if blocker.Some? then SuppressedBy(blocker.value) else Plain));
  }

  lemma DecidingOrderly(e: Site, s: Machine, t: Task, m: string, tr: Transition, v: Verdict)
    requires Shaped(e, s) && Active(s, t) && Orderly(e, s.stacks[t])
    requires Top(s.stacks[t]) == Activation(m, Deciding(tr, v)) && m in e.net.order
    ensures Orderly(e, OnDeciding(e, s, t, m, tr, v).stacks[t])
  {
    if !IsProblem(tr.current) {
      OrderlyGoto(e, s.stacks[t], Logging(tr, v, Plain));
    } else if BlockingParent(e.net, s.world.states, m).None? && e.net.parents[m] != [] {
      OrderlyGoto(e, s.stacks[t], Confirming(tr, v, e.net.parents[m], 0));
    } else {
      SettledOrderly(e, s, t, m, tr, v, BlockingParent(e.net, s.world.states, m));
    }
  }

  lemma ConfirmingOrderly(e: Site, s: Machine, t: Task, m: string, g: Stage)
    requires Shaped(e, s) && Active(s, t) && Orderly(e, s.stacks[t])
    requires Top(s.stacks[t]) == Activation(m, g) && g.Confirming? && m in e.net.order
    ensures Orderly(e, OnConfirming(e, s, t, m, g.change, g.verdict, g.todo, g.attempts).stacks[t])
  {
    if g.todo == [] {
      SettledOrderly(e, s, t, m, g.change, g.verdict, BlockingParent(e.net, s.world.states, m));
    } else if g.todo[0] in e.net.order && Unsettled(s.world.states[g.todo[0]]) && g.attempts < e.failures[g.todo[0]] {
      OrderlyCall(e, s.stacks[t], Confirming(g.change, g.verdict, g.todo, g.attempts + 1), g.todo[0]);
    } else {
      OrderlyGoto(e, s.stacks[t], Confirming(g.change, g.verdict, g.todo[1..], 0));
    }
  }

  lemma ReleasingOrderly(e: Site, s: Machine, t: Task, m: string, v: Verdict, todo: seq<string>)
    requires Shaped(e, s) && Active(s, t) && Orderly(e, s.stacks[t])
    requires Top(s.stacks[t]) == Activation(m, Releasing(v, todo)) && TodoOk(e, m, Releasing(v, todo))
    ensures Orderly(e, OnReleasing(e, s, t, m, v, todo).stacks[t])
  {
    if todo == [] {
      OrderlyGoto(e, s.stacks[t], Returning(v));
    } else if Releasable(e, s.world, todo[0], m) {
      OrderlyCall(e, s.stacks[t], AwaitChild(v, todo), todo[0]);
    } else {
      OrderlyGoto(e, s.stacks[t], Releasing(v, todo[1..]));
    }
  }

  lemma CheckingOrderly(e: Site, s: Machine, t: Task, m: string, v: Verdict, todo: seq<string>, child: Verdict)
    requires Shaped(e, s) && Active(s, t) && Orderly(e, s.stacks[t])
    requires Top(s.stacks[t]) == Activation(m, Checking(v, todo, child)) && TodoOk(e, m, Checking(v, todo, child))
    ensures Orderly(e, OnChecking(e, s, t, m, v, todo, child).stacks[t])
  {
    var st := s.world.states[todo[0]];
    if StillAlone(e, s.world, todo[0], child) {
      var n := Notice(todo[0], Transition(st.state, st.state), StillAfter(m));
      OrderlyGoto(e, s.stacks[t], LoggingStill(v, todo, n));
    } else {
      OrderlyGoto(e, s.stacks[t], Releasing(v, todo[1..]));
    }
  }

  lemma ReturningOrderly(e: Site, s: Machine, t: Task, m: string, v: Verdict)
    requires Shaped(e, s) && Active(s, t) && Orderly(e, s.stacks[t]) && Top(s.stacks[t]) == Activation(m, Returning(v))
    ensures Orderly(e, OnReturning(s, t, v).stacks[t])
  {
    LinkedPop(s.stacks[t], v);
    PopOk(e, s.stacks[t], v);
  }

  // ----- Step by step -----

  /** The step of t keeps its own stack in order and everything accounted for. */
  ghost predicate Leads(e: Site, t: Task, s': Machine) {
    Shaped(e, s') && Booked(e, s') && t in s'.stacks && Orderly(e, s'.stacks[t])
  }

  lemma LeadsAccounted(e: Site, s: Machine, t: Task, s': Machine)
    requires Accounted(e, s) && Leads(e, t, s')
    requires s'.stacks.Keys == s.stacks.Keys && forall u | u in s.stacks && u != t :: s'.stacks[u] == s.stacks[u]
    ensures Accounted(e, s')
  {
  }

  lemma DecidingLeads(e: Site, s: Machine, t: Task, m: string, tr: Transition, v: Verdict)
    requires Accounted(e, s) && Active(s, t)
    requires Top(s.stacks[t]) == Activation(m, Deciding(tr, v)) && m in e.net.order
    requires StageFact(s.world, Activation(m, Deciding(tr, v)))
    requires Shaped(e, OnDeciding(e, s, t, m, tr, v))
    ensures Leads(e, t, OnDeciding(e, s, t, m, tr, v))
  {
    DecidingSound(e, s, t, m, tr, v);
    DecidingOrderly(e, s, t, m, tr, v);
  }

  lemma ConfirmingLeads(e: Site, s: Machine, t: Task, m: string, g: Stage)
    requires Accounted(e, s) && Active(s, t)
    requires Top(s.stacks[t]) == Activation(m, g) && g.Confirming? && TodoOk(e, m, g) && m in e.net.order
    requires Shaped(e, OnConfirming(e, s, t, m, g.change, g.verdict, g.todo, g.attempts))
    ensures Leads(e, t, OnConfirming(e, s, t, m, g.change, g.verdict, g.todo, g.attempts))
  {
    ConfirmingSound(e, s, t, m, g.change, g.verdict, g.todo, g.attempts);
    ConfirmingOrderly(e, s, t, m, g);
  }

  lemma ReleasingLeads(e: Site, s: Machine, t: Task, m: string, v: Verdict, todo: seq<string>)
    requires Accounted(e, s) && Active(s, t)
    requires Top(s.stacks[t]) == Activation(m, Releasing(v, todo)) && TodoOk(e, m, Releasing(v, todo))
    requires Shaped(e, OnReleasing(e, s, t, m, v, todo))
    ensures Leads(e, t, OnReleasing(e, s, t, m, v, todo))
  {
    ReleasingSound(e, s, t, m, v, todo);
    ReleasingOrderly(e, s, t, m, v, todo);
  }

  lemma CheckingLeads(e: Site, s: Machine, t: Task, m: string, v: Verdict, todo: seq<string>, child: Verdict)
    requires Accounted(e, s) && Active(s, t)
    requires Top(s.stacks[t]) == Activation(m, Checking(v, todo, child)) && TodoOk(e, m, Checking(v, todo, child))
    requires Shaped(e, OnChecking(e, s, t, m, v, todo, child))
    ensures Leads(e, t, OnChecking(e, s, t, m, v, todo, child))
  {
    CheckingSound(e, s, t, m, v, todo, child);
    CheckingOrderly(e, s, t, m, v, todo, child);
  }

  lemma ReturningLeads(e: Site, s: Machine, t: Task, m: string, v: Verdict)
    requires Accounted(e, s) && Active(s, t)
    requires Top(s.stacks[t]) == Activation(m, Returning(v))
    requires Shaped(e, OnReturning(s, t, v))
    ensures Leads(e, t, OnReturning(s, t, v))
  {
    ReturningSound(e, s, t, m, v);
    ReturningOrderly(e, s, t, m, v);
  }

  lemma ContinueLeads(e: Site, s: Machine, t: Task, m: string, g: Stage)
    requires Accounted(e, s) && Active(s, t) && Immediate(g) && Top(s.stacks[t]) == Activation(m, g)
    requires m in e.net.order && TodoOk(e, m, g) && StageFact(s.world, Activation(m, g))
    requires Shaped(e, ApplyContinue(e, s, t))
    ensures Leads(e, t, ApplyContinue(e, s, t))
  {
    match g {
      case Deciding(tr, v) => DecidingLeads(e, s, t, m, tr, v);
      case Confirming(_, _, _, _) => ConfirmingLeads(e, s, t, m, g);
      case Releasing(v, todo) => ReleasingLeads(e, s, t, m, v, todo);
      case Checking(v, todo, child) => CheckingLeads(e, s, t, m, v, todo, child);
      case Returning(v) => ReturningLeads(e, s, t, m, v);
    }
  }

  lemma WakeLeads(e: Site, s: Machine, t: Task, m: string)
    requires Accounted(e, s) && t in s.stacks && s.stacks[t] == [] && m in e.net.order
    requires Shaped(e, Call(s, t, [], m))
    ensures Leads(e, t, Call(s, t, [], m))
  {
    assert OwedIn(e, s.stacks) + {} == OwedIn(e, s.stacks);
    Rebooked(e, s.world, s.stacks, t, [] + [Activation(m, WaitLock)], {});
  }

  /** Before the observation a task only takes and gives back locks, and a row is written. */
  lemma UnseenLeads(e: Site, s: Machine, s': Machine, t: Task, g: Stage)
    requires Accounted(e, s) && Shaped(e, s') && Active(s, t) && !Seen(Top(s.stacks[t]).stage) && !Seen(g)
    requires s'.stacks == s.stacks[t := SetTop(s.stacks[t], g)] && s'.world.states == s.world.states
    requires g.Writing? || g.Written? ==> Allowed(e, Top(s.stacks[t]).monitor, g.verdict)
    ensures Leads(e, t, s')
  {
    UnseenSound(e, s, s'.world, t, g);
    OrderlyGoto(e, s.stacks[t], g);
  }

  lemma ResumeLeads(e: Site, s: Machine, t: Task, m: string, v: Verdict)
    requires Accounted(e, s) && Active(s, t) && Top(s.stacks[t]) == Activation(m, Written(v)) && m in e.net.order
    requires Shaped(e, Observed(s, t, m, v))
    ensures Leads(e, t, Observed(s, t, m, v))
  {
    ResumeSound(e, s, t, m, v);
    OrderlyGoto(e, s.stacks[t], match Change(s.world.states[m], v)
                                case None => Returning(v)
                                case Some(tr) => Deciding(tr, v));
  }

  lemma LoggedLeads(e: Site, s: Machine, t: Task, m: string, g: Stage)
    requires Accounted(e, s) && Active(s, t) && Top(s.stacks[t]) == Activation(m, g)
    requires (g.Logging? || g.LoggingStill?) && TodoOk(e, m, g)
    requires Shaped(e, ApplyLogged(e, s, t))
    ensures Leads(e, t, ApplyLogged(e, s, t))
  {
    match g {
      case Logging(tr, v, note) =>
        if tr.current == Up {
          LoggedUpSound(e, s, t, m, tr, v, note);
          OrderlyGoto(e, s.stacks[t], Releasing(v, e.net.order));
        } else {
          LoggedProblemSound(e, s, t, m, tr, v, note);
          OrderlyGoto(e, s.stacks[t], Returning(v));
        }
      case LoggingStill(v, todo, n) =>
        LoggedStillSound(e, s, t, m, v, todo, n);
        OrderlyGoto(e, s.stacks[t], Releasing(v, todo[1..]));
    }
  }

  lemma StepLeads(e: Site, max: int, s: Machine, a: Action)
    requires Accounted(e, s) && Announced(e, s) && Enabled(e, max, s, a) && Permitted(e, s, a)
    requires Shaped(e, Apply(e, max, s, a))
    ensures Leads(e, a.task, Apply(e, max, s, a))
  {
    var k, s' := s.stacks[a.task], Apply(e, max, s, a);
    if k != [] {
      assert Orderly(e, k) && StageFact(s.world, k[|k| - 1]) && TodoOk(e, k[|k| - 1].monitor, k[|k| - 1].stage);
    }
    match a {
      case Wake(t, m) => WakeLeads(e, s, t, m);
      case TakeLock(t) => UnseenLeads(e, s, s', t, WaitSem);
      case TakeSem(t) => UnseenLeads(e, s, s', t, Probing);
      case Answer(t, v) => UnseenLeads(e, s, s', t, Writing(v));
      case WriteRow(t) => UnseenLeads(e, s, s', t, Written(Top(k).stage.verdict));
      case Resume(t) => ResumeLeads(e, s, t, Top(k).monitor, Top(k).stage.verdict);
      case Logged(t) => LoggedLeads(e, s, t, Top(k).monitor, Top(k).stage);
      case Continue(t) => ContinueLeads(e, s, t, Top(k).monitor, Top(k).stage);
    }
  }

  lemma OwnStackOnly(e: Site, max: int, s: Machine, a: Action)
    requires Shaped(e, s) && Enabled(e, max, s, a)
    ensures a.task in s.stacks && Apply(e, max, s, a).stacks.Keys == s.stacks.Keys
    ensures forall u | u in s.stacks && u != a.task :: Apply(e, max, s, a).stacks[u] == s.stacks[u]
  {
    if !a.WriteRow? && !a.Resume? {
      GentleStep(e, max, s, a);
    }
  }

  /** Every step, of whichever task, keeps every unblocked outage alerted or owed. */
  lemma AccountedKept(e: Site, max: int, s: Machine, a: Action)
    requires Accounted(e, s) && Disciplined(e, max, s) && Announced(e, s) && Enabled(e, max, s, a)
    requires Permitted(e, s, a)
    ensures Accounted(e, Apply(e, max, s, a))
  {
    StepKeeps(e, max, s, a);
    StepLeads(e, max, s, a);
    OwnStackOnly(e, max, s, a);
    LeadsAccounted(e, s, a.task, Apply(e, max, s, a));
  }
}
