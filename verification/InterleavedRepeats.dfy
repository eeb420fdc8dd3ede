/** Exactly when one outage is alerted once, over every interleaving: when no
    enabled monitor depends on an enabled one. */
module InterleavedRepeats {
  import opened Wrappers
  import opened Graphs
  import opened MonitorStates
  import opened Networks
  import opened Engine
  import opened AlertConditions
  import opened Logbooks
  import opened RepeatedAlerts
  import opened Interleavings
  import opened Discipline
  import opened Behaviours
  import opened SequentialRuns
  import opened Replays
  import opened LoneMonitors
  import opened InterleavedConditions

  // ----- Other loops bring a parent up while it is being confirmed -----

  function Sleepers(net: Network): map<Task, Stack> {
    map t | t in Loops(net) :: []
  }

  lemma SleepersRoom(e: Site, max: int, t: Task)
    requires e.Valid() && max >= 1 && t in Loops(e.net)
    ensures Room(e, max, Sleepers(e.net), t, [])
  {
  }

  /** The loop of s has woken and seen the failure that takes s down. */
  lemma ReachDeciding(e: Site, max: int, w: World, s: string, t: Task)
    requires e.Valid() && max >= 1 && Fits(e, w) && s in e.net.order && LoopOf(e.net, t, s) && t in Loops(e.net)
    ensures Reaches(e, max, Asleep(e, w),
                    Staged(Sleepers(e.net), t, Observe(w, s, e.check(s, |w.rows|)), [], s,
                           AfterObserve(w.states[s], e.check(s, |w.rows|)), map[], {}, Some(t)))
  {
    var others, v := Sleepers(e.net), e.check(s, |w.rows|);
    SleepersRoom(e, max, t);
    InitWith(e, max, w);
    ReachesNext(e, max, Asleep(e, w), Wake(t, s));
    assert [] + [Activation(s, WaitLock)] == [Activation(s, WaitLock)];
    var u := Staged(others, t, w, [], s, WaitLock, map[], {}, None);
    assert Apply(e, max, Asleep(e, w), Wake(t, s)) == u;
    Probed(e, max, others, t, w, [], s, v);
    ReachesFurther(e, max, Asleep(e, w), u,
                   Staged(others, t, Observe(w, s, v), [], s, AfterObserve(w.states[s], v), map[], {}, Some(t)));
  }

  /** Parents that are not enabled are passed over. */
  lemma {:induction false} DisabledPassed(e: Site, max: int, others: map<Task, Stack>, t: Task, w: World, m: string,
                                          tr: Transition, v: Verdict, ps: seq<string>, i: nat)
    requires Room(e, max, others, t, []) && Fits(e, w) && m in e.net.order && i <= |ps|
    requires TodoOk(e, m, Confirming(tr, v, ps, 0)) && forall j | 0 <= j < i :: ps[j] !in e.net.order
    ensures Reaches(e, max, Running(others, t, w, [], m, Confirming(tr, v, ps, 0)),
                    Running(others, t, w, [], m, Confirming(tr, v, ps[i..], 0)))
    decreases i
  {
    var start := Running(others, t, w, [], m, Confirming(tr, v, ps, 0));
    if i == 0 {
      assert ps[0..] == ps;
      ReachesHere(e, max, start);
    } else {
      var qs := ps[i - 1..];
      DisabledPassed(e, max, others, t, w, m, tr, v, ps, i - 1);
      assert qs[0] == ps[i - 1] && qs[1..] == ps[i..] && forall q | q in qs :: q in ps;
      ConfirmTurn(e, max, others, t, w, [], m, tr, v, qs, 0);
      ReachesFurther(e, max, start, Running(others, t, w, [], m, Confirming(tr, v, qs, 0)),
                     Running(others, t, w, [], m, Confirming(tr, v, ps[i..], 0)));
    }
  }

  /** The loop t of s waits for the lock of its parent qs[0], to confirm it. */
  function Parked(net: Network, t: Task, w: World, s: string, tr: Transition, qs: seq<string>): Machine
    requires qs != []
  {
    Staged(Sleepers(net), t, w, [Activation(s, Confirming(tr, Fail, qs, 1))], qs[0], WaitLock, map[], {}, None)
  }

  lemma ParkedDisciplined(e: Site, max: int, t: Task, w: World, s: string, tr: Transition, qs: seq<string>)
    requires e.Valid() && max >= 1 && Fits(e, w) && s in e.net.order && qs != [] && qs[0] in e.net.order
    requires t in Loops(e.net) && TodoOk(e, s, Confirming(tr, Fail, qs, 1))
    ensures Disciplined(e, max, Parked(e.net, t, w, s, tr, qs))
  {
    SleepersRoom(e, max, t);
    RoomAbove(e, max, Sleepers(e.net), t, [], s, Confirming(tr, Fail, qs, 1));
    StagedShaped(e, max, Sleepers(e.net), t, w, [Activation(s, Confirming(tr, Fail, qs, 1))], qs[0], WaitLock,
                 map[], {}, None);
  }

  /** Meanwhile the parent has answered Ok j times to its own loop, and is not up yet. */
  ghost predicate Counting(e: Site, w: World, s: string, q: string, j: int) {
    && Alone(e, w, s) && q in e.net.order && !w.states[s].alertOpen
    && w.states[q].state == Pending && w.states[q].good == j
  }

  lemma OkCounts(e: Site, w: World, s: string, q: string, j: int)
    requires Counting(e, w, s, q, j) && j + 1 < e.recoveries[q]
    ensures Counting(e, Poll(e, w, q).0, s, q, j + 1)
  {
    assert Calm(w.states[q]);
    assert Change(w.states[q], Ok).None?;
  }

  lemma {:induction false} ParkedOks(e: Site, max: int, t: Task, w: World, s: string, tr: Transition, qs: seq<string>,
                                     j: nat) returns (w1: World)
    requires max >= 1 && qs != [] && Counting(e, w, s, qs[0], 0) && j < e.recoveries[qs[0]]
    requires Edge(e.net.parents, s, qs[0]) && LoopOf(e.net, t, s) && t in Loops(e.net)
    requires TodoOk(e, s, Confirming(tr, Fail, qs, 1))
    ensures Counting(e, w1, s, qs[0], j)
    ensures Reaches(e, max, Parked(e.net, t, w, s, tr, qs), Parked(e.net, t, w1, s, tr, qs))
    decreases j
  {
    var start := Parked(e.net, t, w, s, tr, qs);
    if j == 0 {
      w1 := w;
      ReachesHere(e, max, start);
    } else {
      var q := qs[0];
      var w0 := ParkedOks(e, max, t, w, s, tr, qs, j - 1);
      w1 := Poll(e, w0, q).0;
      OkCounts(e, w0, s, q, j - 1);
      ParkedPoll(e, max, t, w0, s, tr, qs);
      ReachesFurther(e, max, start, Parked(e.net, t, w0, s, tr, qs), Parked(e.net, t, w1, s, tr, qs));
    }
  }

  lemma ParkedPoll(e: Site, max: int, t: Task, w: World, s: string, tr: Transition, qs: seq<string>)
    requires e.Valid() && max >= 1 && Fits(e, w) && s in e.net.order && qs != [] && qs[0] in e.net.order
    requires Edge(e.net.parents, s, qs[0]) && LoopOf(e.net, t, s) && t in Loops(e.net)
    requires TodoOk(e, s, Confirming(tr, Fail, qs, 1))
    ensures Reaches(e, max, Parked(e.net, t, w, s, tr, qs), Parked(e.net, t, Poll(e, w, qs[0]).0, s, tr, qs))
  {
    var u := LoopFor(e.net, qs[0]);
    NoEdgeToSelf(e.net, s, qs[0]);
    ParkedDisciplined(e, max, t, w, s, tr, qs);
    MachineRunsPoll(e, max, Parked(e.net, t, w, s, tr, qs), u, qs[0]);
  }

  /** The poll of the parent ends. */
  lemma ParentReturns(e: Site, max: int, others: map<Task, Stack>, t: Task, w: World, s: string, tr: Transition,
                      qs: seq<string>)
    requires Room(e, max, others, t, []) && Fits(e, w) && s in e.net.order && qs != [] && qs[0] in e.net.order
    requires TodoOk(e, s, Confirming(tr, Fail, qs, 1))
    ensures Reaches(e, max,
                    Staged(others, t, w, [Activation(s, Confirming(tr, Fail, qs, 1))], qs[0], WaitLock,
                           map[], {}, None),
                    Running(others, t, Poll(e, w, qs[0]).0, [], s, Confirming(tr, Fail, qs, 1)))
  {
    var h, r := Confirming(tr, Fail, qs, 1), Poll(e, w, qs[0]);
    assert [] + [Activation(s, h)] == [Activation(s, h)];
    RoomAbove(e, max, others, t, [], s, h);
    PollRuns(e, max, others, t, w, [Activation(s, h)], qs[0]);
    BackTo(others, t, r.0, [], s, h, r.1);
  }

  /** The parent is settled, and the next are confirmed. */
  lemma ParentLeft(e: Site, max: int, others: map<Task, Stack>, t: Task, w: World, s: string, tr: Transition,
                   qs: seq<string>)
    requires Room(e, max, others, t, []) && Fits(e, w) && s in e.net.order && qs != [] && qs[0] in e.net.order
    requires IsProblem(tr.current) && !Unsettled(w.states[qs[0]]) && forall q | q in qs :: Edge(e.net.parents, s, q)
    ensures var w2 := ConfirmParents(e, w, s, qs[1..]);
      Reaches(e, max, Running(others, t, w, [], s, Confirming(tr, Fail, qs, 1)),
              Running(others, t, Decide(w2, s, tr, BlockingParent(e.net, w2.states, s)), [], s, Returning(Fail)))
  {
    var w2 := ConfirmParents(e, w, s, qs[1..]);
    ConfirmTurn(e, max, others, t, w, [], s, tr, Fail, qs, 1);
    ConfirmRuns(e, max, others, t, w, [], s, tr, Fail, qs[1..]);
    ReachesFurther(e, max, Running(others, t, w, [], s, Confirming(tr, Fail, qs, 1)),
                   Running(others, t, w, [], s, Confirming(tr, Fail, qs[1..], 0)),
                   Running(others, t, Decide(w2, s, tr, BlockingParent(e.net, w2.states, s)), [], s, Returning(Fail)));
  }

  /** The confirming poll is the last Ok: s is released and alerted, and then decided. */
  lemma ParkedRepeats(e: Site, max: int, t: Task, w: World, s: string, tr: Transition, qs: seq<string>)
    returns (u: Machine)
    requires e.Valid() && max >= 1 && qs != [] && qs[0] in e.net.order
    requires Counting(e, w, s, qs[0], e.recoveries[qs[0]] - 1)
    requires t in Loops(e.net) && tr.current == Down && forall q | q in qs :: Edge(e.net.parents, s, q)
    ensures Reaches(e, max, Parked(e.net, t, w, s, tr, qs), u) && !NoRepeat(SentTo(u.world.sent, s))
  {
    var others, p := Sleepers(e.net), qs[0];
    var start, w1 := Parked(e.net, t, w, s, tr, qs), Poll(e, w, p).0;
    assert Edge(e.net.parents, s, p);
    NoEdgeToSelf(e.net, s, p);
    LastOkReleases(e, w, s, p);
    SleepersRoom(e, max, t);
    ParentReturns(e, max, others, t, w, s, tr, qs);
    ParentLeft(e, max, others, t, w1, s, tr, qs);
    ConfirmAlerts(e, w1, s, qs[1..], p);
    var w2 := ConfirmParents(e, w1, s, qs[1..]);
    AloneUnblocked(e, w2, s);
    u := Running(others, t, Decide(w2, s, tr, None), [], s, Returning(Fail));
    ReachesFurther(e, max, start, Running(others, t, w1, [], s, Confirming(tr, Fail, qs, 1)), u);
    AlertedTwice(w2, s, Notice(s, tr, Plain));
  }

  // ----- From the start to there -----

  /** s has failed once more, and that took it down; nobody else has been polled. */
  ghost predicate JustDown(e: Site, w: World, s: string) {
    && Alone(e, w, s) && !w.states[s].alertOpen
    && forall x | x in e.net.order && x != s :: w.states[x] == Fresh(e.failures[x], e.recoveries[x])
  }

  lemma LastFailure(e: Site, w: World, s: string)
    requires Stubborn(e, s) && Failing(e, w, s, e.failures[s] - 1)
    ensures JustDown(e, Observe(w, s, Fail), s)
    ensures AfterObserve(w.states[s], Fail) == Deciding(Transition(Pending, Down), Fail)
  {
    assert Change(w.states[s], Fail) == Some(Transition(Pending, Down));
  }

  /** The loop of s decides about its outage. */
  lemma ReachJustDown(e: Site, max: int, s: string, t: Task) returns (w: World)
    requires Stubborn(e, s) && max >= 1 && LoopOf(e.net, t, s) && t in Loops(e.net)
    ensures JustDown(e, w, s)
    ensures Reaches(e, max, Init(e, Loops(e.net)),
                    Running(Sleepers(e.net), t, w, [], s, Deciding(Transition(Pending, Down), Fail)))
  {
    var w0 := FailsShort(e, s, e.failures[s] - 1);
    var polls :| IsRun(e, polls, w0);
    w := Observe(w0, s, Fail);
    RunReached(e, max, polls);
    ReachDeciding(e, max, w0, s, t);
    LastFailure(e, w0, s);
    assert e.check(s, |w0.rows|) == Fail;
    ReachesFurther(e, max, Init(e, Loops(e.net)), Asleep(e, w0),
                   Running(Sleepers(e.net), t, w, [], s, Deciding(Transition(Pending, Down), Fail)));
  }

  lemma DecidingConfirms(e: Site, max: int, others: map<Task, Stack>, t: Task, w: World, m: string, tr: Transition,
                         v: Verdict)
    requires Room(e, max, others, t, []) && Fits(e, w) && m in e.net.order && IsProblem(tr.current)
    requires !Blocked(e.net, w.states, m) && e.net.parents[m] != []
    ensures Reaches(e, max, Running(others, t, w, [], m, Deciding(tr, v)),
                    Running(others, t, w, [], m, Confirming(tr, v, e.net.parents[m], 0)))
  {
    var g := Deciding(tr, v);
    Continued(e, max, others, t, w, [], m, g);
    GotoOn(others, t, w, [], m, g, Confirming(tr, v, e.net.parents[m], 0), map[], {}, Some(t));
  }

  lemma FirstEnabled(net: Network, ps: seq<string>, p: string) returns (i: nat)
    requires p in ps && p in net.order
    ensures i < |ps| && ps[i] in net.order && forall j | 0 <= j < i :: ps[j] !in net.order
  {
    i := 0;
    while ps[i] !in net.order
      invariant i < |ps| && p in ps[i..] && forall j | 0 <= j < i :: ps[j] !in net.order
      decreases |ps| - i
    {
      assert ps[i..] == [ps[i]] + ps[i + 1..];
      i := i + 1;
    }
  }

  /** A parent that was never polled is asked. */
  lemma FreshIsAsked(e: Site, w: World, s: string, ps: seq<string>)
    requires JustDown(e, w, s) && ps != [] && ps[0] in e.net.order && Edge(e.net.parents, s, ps[0])
    ensures AsksParent(e, w, ps, 0) && Counting(e, w, s, ps[0], 0)
  {
    NoEdgeToSelf(e.net, s, ps[0]);
  }

  lemma AskedIsParked(e: Site, max: int, w: World, s: string, t: Task, tr: Transition, qs: seq<string>)
    requires e.Valid() && Fits(e, w) && s in e.net.order && max >= 1 && t in Loops(e.net)
    requires qs != [] && AsksParent(e, w, qs, 0) && TodoOk(e, s, Confirming(tr, Fail, qs, 0))
    ensures Reaches(e, max, Running(Sleepers(e.net), t, w, [], s, Confirming(tr, Fail, qs, 0)),
                    Parked(e.net, t, w, s, tr, qs))
  {
    SleepersRoom(e, max, t);
    ConfirmTurn(e, max, Sleepers(e.net), t, w, [], s, tr, Fail, qs, 0);
    assert [] + [Activation(s, Confirming(tr, Fail, qs, 1))] == [Activation(s, Confirming(tr, Fail, qs, 1))];
  }

  /** It goes on to confirm its first enabled parent ps[i], and waits for the lock of that. */
  lemma ConfirmingIsParked(e: Site, max: int, w: World, s: string, t: Task, i: nat)
    requires JustDown(e, w, s) && max >= 1 && t in Loops(e.net)
    requires i < |e.net.parents[s]| && e.net.parents[s][i] in e.net.order
    requires forall j | 0 <= j < i :: e.net.parents[s][j] !in e.net.order
    ensures Counting(e, w, s, e.net.parents[s][i], 0)
    ensures var ps, tr := e.net.parents[s], Transition(Pending, Down);
      Reaches(e, max, Running(Sleepers(e.net), t, w, [], s, Confirming(tr, Fail, ps, 0)),
              Parked(e.net, t, w, s, tr, ps[i..]))
  {
    var others, ps, tr := Sleepers(e.net), e.net.parents[s], Transition(Pending, Down);
    var qs := ps[i..];
    assert qs[0] == ps[i] && forall q | q in qs :: q in ps;
    FreshIsAsked(e, w, s, qs);
    SleepersRoom(e, max, t);
    DisabledPassed(e, max, others, t, w, s, tr, Fail, ps, i);
    AskedIsParked(e, max, w, s, t, tr, qs);
    ReachesFurther(e, max, Running(others, t, w, [], s, Confirming(tr, Fail, ps, 0)),
                   Running(others, t, w, [], s, Confirming(tr, Fail, qs, 0)), Parked(e.net, t, w, s, tr, qs));
  }

  lemma DownIsParked(e: Site, max: int, w: World, s: string, t: Task, i: nat)
    requires JustDown(e, w, s) && max >= 1 && t in Loops(e.net)
    requires i < |e.net.parents[s]| && e.net.parents[s][i] in e.net.order
    requires forall j | 0 <= j < i :: e.net.parents[s][j] !in e.net.order
    ensures var ps, tr := e.net.parents[s], Transition(Pending, Down);
      Reaches(e, max, Running(Sleepers(e.net), t, w, [], s, Deciding(tr, Fail)), Parked(e.net, t, w, s, tr, ps[i..]))
  {
    var others, ps, tr := Sleepers(e.net), e.net.parents[s], Transition(Pending, Down);
    SleepersRoom(e, max, t);
    AloneUnblocked(e, w, s);
    DecidingConfirms(e, max, others, t, w, s, tr, Fail);
    ConfirmingIsParked(e, max, w, s, t, i);
    ReachesFurther(e, max, Running(others, t, w, [], s, Deciding(tr, Fail)),
                   Running(others, t, w, [], s, Confirming(tr, Fail, ps, 0)), Parked(e.net, t, w, s, tr, ps[i..]));
  }

  /** On every site with a dependency, whatever the counts, two loops can make one outage two alerts. */
  lemma DependencyRepeats(e: Site, max: int, s: string, p: string) returns (u: Machine)
    requires Stubborn(e, s) && max >= 1 && p in e.net.order && Edge(e.net.parents, s, p)
    ensures Reaches(e, max, Init(e, Loops(e.net)), u) && !NoRepeat(SentTo(u.world.sent, s))
  {
    var tr, start := Transition(Pending, Down), Init(e, Loops(e.net));
    var t := LoopFor(e.net, s);
    var w := ReachJustDown(e, max, s, t);
    var i := FirstEnabled(e.net, e.net.parents[s], p);
    var qs := e.net.parents[s][i..];
    assert qs[0] == e.net.parents[s][i] && forall q | q in qs :: Edge(e.net.parents, s, q);
    ConfirmingIsParked(e, max, w, s, t, i);
    DownIsParked(e, max, w, s, t, i);
    var w1 := ParkedOks(e, max, t, w, s, tr, qs, e.recoveries[qs[0]] - 1);
    u := ParkedRepeats(e, max, t, w1, s, tr, qs);
    ReachesFurther(e, max, start, Running(Sleepers(e.net), t, w, [], s, Deciding(tr, Fail)),
                   Parked(e.net, t, w, s, tr, qs));
    ReachesFurther(e, max, start, Parked(e.net, t, w, s, tr, qs), Parked(e.net, t, w1, s, tr, qs));
    ReachesFurther(e, max, start, Parked(e.net, t, w1, s, tr, qs), u);
  }

  // ----- The theorems -----

  /** Whatever the checks answer among Ok and Fail and however the loops interleave, no problem is sent for a
      monitor whose last alert was a problem. */
  ghost predicate NeverRepeatsInterleaved(net: Network, failures: map<string, int>, recoveries: map<string, int>,
                                          max: int)
    requires ValidSite(net, failures, recoveries)
  {
    forall check: (string, nat) -> Verdict, acts: seq<Action>, trace: seq<Machine>, i: nat, m
      | Polling(Site(net, failures, recoveries, check), max, OkAndFail(net), acts, trace) && i < |trace|
        && m in net.order
      :: NoRepeat(SentTo(trace[i].world.sent, m))
  }

  lemma LoneNeverRepeats(e: Site, max: int, acts: seq<Action>, trace: seq<Machine>, i: nat, m: string)
    requires Polling(e, max, OkAndFail(e.net), acts, trace) && max >= 0 && i < |trace| && m in e.net.order
    requires NoDependents(e.net)
    ensures NoRepeat(SentTo(trace[i].world.sent, m))
  {
    forall j | 0 <= j < |acts|
      ensures acts[j].Answer? ==> acts[j].verdict != Warn
    {
      assert Step(e, max, trace[j], acts[j], trace[j + 1]) && AnswersKind(OkAndFail(e.net), trace[j], acts[j]);
    }
    AlwaysSeparate(e, max, Loops(e.net), acts, trace, i);
  }

  lemma DependentRepeats(net: Network, failures: map<string, int>, recoveries: map<string, int>, max: int,
                         s: string, p: string)
    requires ValidSite(net, failures, recoveries) && max >= 1
    requires s in net.order && p in net.order && Edge(net.parents, s, p)
    ensures !NeverRepeatsInterleaved(net, failures, recoveries, max)
  {
    var e := Site(net, failures, recoveries, StubbornCheck(s));
    var u := DependencyRepeats(e, max, s, p);
    var acts, trace := ReachedIsBehaviour(e, max, OkAndFail(net), u);
    assert trace[|trace| - 1].world.sent == u.world.sent;
  }

  /**
   * With interleaved loops one outage is alerted once exactly when no enabled monitor
   * depends on an enabled one: no recovery count of the parents helps.
   */
  lemma NoRepeatedAlertInterleaved(net: Network, failures: map<string, int>, recoveries: map<string, int>, max: int)
    requires ValidSite(net, failures, recoveries) && max >= 1
    ensures NeverRepeatsInterleaved(net, failures, recoveries, max) <==> NoDependents(net)
  {
    if NoDependents(net) {
      forall check: (string, nat) -> Verdict, acts: seq<Action>, trace: seq<Machine>, i: nat, m
        | Polling(Site(net, failures, recoveries, check), max, OkAndFail(net), acts, trace) && i < |trace|
          && m in net.order
        ensures NoRepeat(SentTo(trace[i].world.sent, m))
      {
        LoneNeverRepeats(Site(net, failures, recoveries, check), max, acts, trace, i, m);
      }
    } else {
      var s, p :| s in net.order && p in net.order && Edge(net.parents, s, p);
      DependentRepeats(net, failures, recoveries, max, s, p);
    }
  }

  /** Over every interleaving no alert is lost and none is repeated. */
  ghost predicate KeepsBothInterleaved(net: Network, failures: map<string, int>, recoveries: map<string, int>,
                                       max: int) {
    && ValidSite(net, failures, recoveries)
    && NeverLosesInterleaved(net, failures, recoveries, OkAndFail(net), max)
    && NeverRepeatsInterleaved(net, failures, recoveries, max)
  }

  /** With interleaved loops no choice of recovery counts keeps both promises, unless there are no dependencies. */
  lemma BothPromisesInterleaved(net: Network, failures: map<string, int>, max: int)
    requires net.Valid() && max >= 1 && forall s | s in net.order :: s in failures && failures[s] >= 1
    ensures (exists recoveries :: KeepsBothInterleaved(net, failures, recoveries, max)) <==> NoDependents(net)
  {
    if recoveries :| KeepsBothInterleaved(net, failures, recoveries, max) {
      NoRepeatedAlertInterleaved(net, failures, recoveries, max);
    }
    if NoDependents(net) {
      var recoveries := map s | s in net.order :: 1;
      NoRepeatedAlertInterleaved(net, failures, recoveries, max);
      NoLostAlertInterleaved(net, failures, recoveries, OkAndFail(net), max);
      assert KeepsBothInterleaved(net, failures, recoveries, max);
    }
  }
}
