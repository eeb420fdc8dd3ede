/** The outages that the tasks in flight still have to see to: what stands
    between an interleaved run and "every unblocked outage is alerted". */
module Debts {
  import opened MonitorStates
  import opened Networks
  import opened Engine
  import opened NoLostAlerts
  import opened Interleavings

  /** The result has been observed; `verdict` is what it was. */
  predicate Seen(g: Stage) {
    !g.WaitLock? && !HoldsLock(g)
  }

  predicate SawOk(g: Stage) {
    Seen(g) && g.verdict == Ok
  }

  /** x is still to be released; `settled` says that the first in line has answered Ok. */
  predicate InLine(todo: seq<string>, settled: bool, x: string) {
    todo != [] && (x in todo[1..] || (x == todo[0] && !settled))
  }

  /** An activation of poll_once will yet alert x or find that it need not; `settled`
      says that the poll it waits for has observed an Ok. */
  ghost predicate Owes(net: Network, a: Activation, settled: bool, x: string) {
    match a.stage
    case Deciding(tr, _) => if IsProblem(tr.current) then x == a.monitor else IsAncestor(net, a.monitor, x)
    case Confirming(_, _, _, _) => x == a.monitor
    case Logging(tr, _, _) => tr.current == Up && IsAncestor(net, a.monitor, x)
    case Releasing(_, todo) => IsAncestor(net, a.monitor, x) && x in todo
    case AwaitChild(_, todo) => IsAncestor(net, a.monitor, x) && InLine(todo, settled, x)
    case Checking(_, todo, child) => IsAncestor(net, a.monitor, x) && InLine(todo, child == Ok, x)
    case LoggingStill(_, todo, _) => IsAncestor(net, a.monitor, x) && InLine(todo, true, x)
    case _ => false
  }

  ghost function OwedAt(e: Site, a: Activation, settled: bool): set<string> {
    set x | x in e.net.order && Owes(e.net, a, settled, x)
  }

  ghost function OwedBy(e: Site, k: Stack, settled: bool): set<string> {
    if k == [] then {}
    else OwedBy(e, k[..|k| - 1], SawOk(Top(k).stage)) + OwedAt(e, Top(k), settled)
  }

  ghost function OwedIn(e: Site, stacks: map<Task, Stack>): set<string> {
    set x | x in e.net.order && exists t :: t in stacks && x in OwedBy(e, stacks[t], false)
  }

  lemma OwedByTop(e: Site, b: Stack, a: Activation, settled: bool)
    ensures OwedBy(e, b + [a], settled) == OwedBy(e, b, SawOk(a.stage)) + OwedAt(e, a, settled)
  {
    assert (b + [a])[..|b|] == b;
  }

  lemma OwedByIsEnabled(e: Site, k: Stack, settled: bool, x: string)
    requires x in OwedBy(e, k, settled)
    ensures x in e.net.order
  {
  }

  /** Only the monitor that is polled for a release is settled by that poll. */
  lemma SettledOwes(e: Site, k: Stack, x: string)
    ensures x in OwedBy(e, k, true) ==> x in OwedBy(e, k, false)
    ensures x in OwedBy(e, k, false) && x !in OwedBy(e, k, true) ==>
              && Top(k).stage.AwaitChild? && Top(k).stage.todo != [] && x == Top(k).stage.todo[0]
              && IsAncestor(e.net, Top(k).monitor, x)
  {
  }

  lemma OwedInSplit(e: Site, stacks: map<Task, Stack>, t: Task, k: Stack)
    requires t in stacks
    ensures OwedIn(e, stacks[t := k]) == OwedIn(e, stacks - {t}) + OwedBy(e, k, false)
  {
    var stacks' := stacks[t := k];
    forall x | x in OwedIn(e, stacks')
      ensures x in OwedIn(e, stacks - {t}) + OwedBy(e, k, false)
    {
      var u :| u in stacks' && x in OwedBy(e, stacks'[u], false);
      assert u != t ==> u in stacks - {t};
    }
    forall x | x in OwedIn(e, stacks - {t}) + OwedBy(e, k, false)
      ensures x in OwedIn(e, stacks')
    {
      if x in OwedBy(e, k, false) {
        OwedByIsEnabled(e, k, false, x);
        assert x in OwedBy(e, stacks'[t], false);
      } else {
        var u :| u in stacks - {t} && x in OwedBy(e, (stacks - {t})[u], false);
        assert x in OwedBy(e, stacks'[u], false);
      }
    }
  }

  /** x is no unblocked outage without an alert. */
  ghost predicate Fine(e: Site, w: World, x: string)
    requires e.Valid() && Fits(e, w) && x in e.net.order
  {
    IsProblem(w.states[x].state) && !Blocked(e.net, w.states, x) ==> w.states[x].alertOpen
  }

  lemma Discharge(e: Site, w: World, excused: set<string>, excused': set<string>)
    requires e.Valid() && Fits(e, w) && Sound(e, w, excused)
    requires forall x | x in e.net.order && x in excused && x !in excused' :: Fine(e, w, x)
    ensures Sound(e, w, excused')
  {
  }

  /** Task t goes on with the stack k; what it no longer owes is settled. */
  lemma Rebooked(e: Site, w: World, stacks: map<Task, Stack>, t: Task, k: Stack, more: set<string>)
    requires e.Valid() && Fits(e, w) && t in stacks && Sound(e, w, OwedIn(e, stacks) + more)
    requires forall x | x in e.net.order && (x in OwedBy(e, stacks[t], false) || x in more)
                        && x !in OwedBy(e, k, false) :: Fine(e, w, x)
    ensures Sound(e, w, OwedIn(e, stacks[t := k]))
  {
    OwedInSplit(e, stacks, t, k);
    OwedInSplit(e, stacks, t, stacks[t]);
    assert stacks[t := stacks[t]] == stacks;
    Discharge(e, w, OwedIn(e, stacks) + more, OwedIn(e, stacks[t := k]));
  }

  /** The states decide, not the rows and the logs. */
  lemma SoundSame(e: Site, w: World, w': World, excused: set<string>)
    requires e.Valid() && Fits(e, w) && Sound(e, w, excused) && w'.states == w.states
    ensures Fits(e, w') && Sound(e, w', excused)
  {
  }

  /** When m goes on from stage g to stage h, what it no longer owes is settled. */
  ghost predicate HandsOver(e: Site, w: World, m: string, g: Stage, h: Stage)
    requires e.Valid() && Fits(e, w)
  {
    forall x | x in e.net.order && Owes(e.net, Activation(m, g), false, x) ::
      Owes(e.net, Activation(m, h), false, x) || Fine(e, w, x)
  }

  /** The first in line, and the rest. */
  lemma FirstInLine(todo: seq<string>, x: string)
    requires todo != []
    ensures x in todo <==> InLine(todo, false, x)
    ensures InLine(todo, true, x) <==> x in todo[1..]
    ensures InLine(todo, false, x) <==> x in todo[1..] || x == todo[0]
  {
    assert todo == [todo[0]] + todo[1..];
  }

  lemma UpIsRecovered(e: Site, w: World, m: string, tr: Transition, v: Verdict, note: Note)
    requires e.Valid() && Fits(e, w) && tr.current == Up
    ensures HandsOver(e, w, m, Deciding(tr, v), Logging(tr, v, note))
  {
  }

  lemma ProblemIsConfirmed(e: Site, w: World, m: string, tr: Transition, v: Verdict, ps: seq<string>)
    requires e.Valid() && Fits(e, w) && IsProblem(tr.current)
    ensures HandsOver(e, w, m, Deciding(tr, v), Confirming(tr, v, ps, 0))
  {
  }

  lemma ProblemIsDecided(e: Site, w: World, m: string, g: Stage, h: Stage)
    requires e.Valid() && Fits(e, w) && m in e.net.order && Fine(e, w, m)
    requires g.Confirming? || (g.Deciding? && IsProblem(g.change.current))
    ensures HandsOver(e, w, m, g, h)
  {
  }

  lemma ParentIsPassed(e: Site, w: World, m: string, g: Stage, h: Stage)
    requires e.Valid() && Fits(e, w) && g.Confirming? && h.Confirming?
    ensures HandsOver(e, w, m, g, h)
  {
  }

  lemma NoneIsLeft(e: Site, w: World, m: string, v: Verdict, h: Stage)
    requires e.Valid() && Fits(e, w)
    ensures HandsOver(e, w, m, Releasing(v, []), h)
  {
  }

  lemma NextIsAsked(e: Site, w: World, m: string, v: Verdict, todo: seq<string>)
    requires e.Valid() && Fits(e, w) && todo != []
    ensures forall x | x in e.net.order && Owes(e.net, Activation(m, Releasing(v, todo)), false, x) ::
              Owes(e.net, Activation(m, AwaitChild(v, todo)), false, x)
  {
    forall x | x in todo
      ensures InLine(todo, false, x)
    {
      FirstInLine(todo, x);
    }
  }

  lemma NextIsPassed(e: Site, w: World, m: string, v: Verdict, todo: seq<string>)
    requires e.Valid() && Fits(e, w) && todo != [] && todo[0] in e.net.order && !Releasable(e, w, todo[0], m)
    ensures HandsOver(e, w, m, Releasing(v, todo), Releasing(v, todo[1..]))
  {
    forall x | x in todo
      ensures x in todo[1..] || x == todo[0]
    {
      FirstInLine(todo, x);
    }
  }

  lemma ChildIsChecked(e: Site, m: string, v: Verdict, todo: seq<string>, child: Verdict)
    ensures OwedAt(e, Activation(m, AwaitChild(v, todo)), child == Ok)
         == OwedAt(e, Activation(m, Checking(v, todo, child)), false)
  {
  }

  lemma CheckedIsAlerted(e: Site, w: World, m: string, v: Verdict, todo: seq<string>, child: Verdict, n: Notice)
    requires e.Valid() && Fits(e, w) && todo != [] && todo[0] in e.net.order && w.states[todo[0]].alertOpen
    ensures HandsOver(e, w, m, Checking(v, todo, child), LoggingStill(v, todo, n))
  {
    forall x | InLine(todo, child == Ok, x)
      ensures InLine(todo, true, x) || x == todo[0]
    {
    }
  }

  lemma CheckedIsFine(e: Site, w: World, m: string, v: Verdict, todo: seq<string>, child: Verdict)
    requires e.Valid() && Fits(e, w) && todo != [] && todo[0] in e.net.order && !StillAlone(e, w, todo[0], child)
    ensures HandsOver(e, w, m, Checking(v, todo, child), Releasing(v, todo[1..]))
  {
    assert child == Ok || Fine(e, w, todo[0]);
  }

  lemma StillIsLogged(e: Site, w: World, m: string, v: Verdict, todo: seq<string>, n: Notice)
    requires e.Valid() && Fits(e, w) && todo != []
    ensures HandsOver(e, w, m, LoggingStill(v, todo, n), Releasing(v, todo[1..]))
  {
  }

  lemma UpIsLogged(e: Site, w: World, m: string, tr: Transition, v: Verdict, note: Note)
    requires e.Valid() && Fits(e, w) && tr.current == Up
    ensures HandsOver(e, w, m, Logging(tr, v, note), Releasing(v, e.net.order))
  {
  }
}
