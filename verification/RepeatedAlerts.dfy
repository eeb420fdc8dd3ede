/** Exactly when one outage is alerted once, run to completion: the sites for
    which no problem is sent for a monitor whose alert is open, as long as checks
    answer Ok or Fail. */
module RepeatedAlerts {
  import opened Wrappers
  import opened Graphs
  import opened MonitorStates
  import opened Networks
  import opened Engine
  import opened EngineInduction
  import opened NoLostAlerts
  import opened AlertConditions
  import opened Logbooks

  /** No monitor that an enabled one depends on recovers at its first Ok. */
  ghost predicate PatientParents(net: Network, recoveries: map<string, int>)
    requires forall s | s in net.order :: s in recoveries
  {
    forall p | p in net.order && Supports(net, p) :: recoveries[p] >= 2
  }

  // ----- Confirming parents that are patient brings nobody up -----

  predicate TidyStatus(s: Status) {
    s.bad >= 0 && s.warnish >= 0 && s.good >= 0 && (s.bad > 0 ==> s.good == 0)
  }

  /** A failure ends a row of Oks. */
  ghost predicate Tidy(e: Site, w: World) {
    e.Valid() && Fits(e, w) && forall s | s in e.net.order :: TidyStatus(w.states[s])
  }

  lemma TidyObserve(e: Site, w: World, m: string, v: Verdict)
    requires Tidy(e, w) && m in e.net.order
    ensures Tidy(e, Observe(w, m, v))
  {
    assert TidyStatus(After(w.states[m], v));
  }

  lemma TidyAlert(e: Site, w: World, m: string, open: bool, n: Notice)
    requires Tidy(e, w) && m in e.net.order
    ensures Tidy(e, Alert(w, m, open, n))
  {
    assert TidyStatus(w.states[m].(alertOpen := open));
  }

  /** S holds the enabled parents of its members. */
  ghost predicate Closed(net: Network, S: set<string>) {
    forall x, p | x in S && Edge(net.parents, x, p) && p in net.order :: p in S
  }

  /** What observing a member of S, opening its alert and logging keep, in tidy worlds. */
  ghost predicate KeptOn(e: Site, S: set<string>, inv: World -> bool) {
    && (forall w | inv(w) :: Tidy(e, w))
    && (forall w, x, v | inv(w) && x in S && x in e.net.order :: inv(Observe(w, x, v)))
    && (forall w, x, n | inv(w) && x in S && x in e.net.order :: inv(Alert(w, x, true, n)))
    && (forall w, n | inv(w) :: inv(Log(w, n)))
  }

  ghost predicate Quiet(e: Site, w: World, S: set<string>, inv: World -> bool) {
    e.Valid() && Fits(e, w) && PatientParents(e.net, e.recoveries) && Closed(e.net, S) && KeptOn(e, S, inv) && inv(w)
  }

  /** A monitor that is unsettled and patient does not come up when it is polled. */
  lemma {:induction false} PollQuiet(e: Site, w: World, p: string, S: set<string>, inv: World -> bool)
    requires Quiet(e, w, S, inv) && p in e.net.order && p in S && Supports(e.net, p) && Unsettled(w.states[p])
    ensures inv(Poll(e, w, p).0)
    decreases Troubled(e, w) + {p}, Rank(e.net.parents, p), 3, 0
  {
    var v := e.check(p, |w.rows|);
    ObserveTrouble(e, w, p, v);
    if Change(w.states[p], v).Some? {
      var tr := Change(w.states[p], v).value;
      assert Tidy(e, w) && TidyStatus(w.states[p]);
      assert IsProblem(tr.current);
      ProblemQuiet(e, Observe(w, p, v), p, tr, S, inv);
    }
  }

  lemma {:induction false} ProblemQuiet(e: Site, w: World, p: string, tr: Transition, S: set<string>,
                                        inv: World -> bool)
    requires Quiet(e, w, S, inv) && p in e.net.order && p in S && IsProblem(tr.current)
    ensures inv(OnTransition(e, w, p, tr))
    decreases Troubled(e, w) + {p}, Rank(e.net.parents, p), 2, 0
  {
    if !Blocked(e.net, w.states, p) && e.net.parents[p] != [] {
      ConfirmQuiet(e, w, p, e.net.parents[p], S, inv);
    }
  }

  /** Confirming parents touches members of S only. */
  lemma {:induction false} ConfirmQuiet(e: Site, w: World, m: string, ps: seq<string>, S: set<string>,
                                        inv: World -> bool)
    requires Quiet(e, w, S, inv) && m in e.net.order
    requires forall p | p in ps :: Edge(e.net.parents, m, p) && (p in e.net.order ==> p in S)
    ensures inv(ConfirmParents(e, w, m, ps))
    decreases Troubled(e, w) + {m}, Rank(e.net.parents, m), 1, |ps|
  {
    if ps != [] {
      if ps[0] !in e.net.order {
        ConfirmQuiet(e, w, m, ps[1..], S, inv);
      } else {
        forall x | Fits(e, x) && inv(x) && Unsettled(x.states[ps[0]]) && Troubled(e, x) <= Troubled(e, w)
          ensures inv(Poll(e, x, ps[0]).0)
        {
          PollQuiet(e, x, ps[0], S, inv);
        }
        SettleByTurns(e, w, m, ps[0], 0, Troubled(e, w), inv);
        ConfirmQuiet(e, Settle(e, w, m, ps[0], 0), m, ps[1..], S, inv);
      }
    }
  }

  ghost function Above(net: Network, m: string): set<string> {
    set x | x in net.order && IsAncestor(net, x, m)
  }

  /** Nothing but what is above m has changed. */
  ghost predicate SameBelow(e: Site, w0: World, w: World, m: string)
    requires Fits(e, w0)
  {
    Tidy(e, w) && forall x | x in e.net.order && x !in Above(e.net, m) :: w.states[x] == w0.states[x]
  }

  lemma AboveIsClosed(net: Network, m: string)
    ensures Closed(net, Above(net, m))
  {
    forall x, p | x in Above(net, m) && Edge(net.parents, x, p) && p in net.order
      ensures p in Above(net, m)
    {
      AncestorStep(net, x, m, p);
    }
  }

  lemma SameBelowKept(e: Site, w0: World, m: string)
    requires Fits(e, w0)
    ensures KeptOn(e, Above(e.net, m), w => Fits(e, w0) && SameBelow(e, w0, w, m))
  {
    var S := Above(e.net, m);
    forall w, x, v | SameBelow(e, w0, w, m) && x in S && x in e.net.order
      ensures SameBelow(e, w0, Observe(w, x, v), m)
    {
      TidyObserve(e, w, x, v);
    }
    forall w, x, n | SameBelow(e, w0, w, m) && x in S && x in e.net.order
      ensures SameBelow(e, w0, Alert(w, x, true, n), m)
    {
      TidyAlert(e, w, x, true, n);
    }
  }

  /** Confirming the parents of m leaves m as it is. */
  lemma ConfirmKeepsChild(e: Site, w: World, m: string)
    requires Tidy(e, w) && m in e.net.order && PatientParents(e.net, e.recoveries)
    ensures ConfirmParents(e, w, m, e.net.parents[m]).states[m] == w.states[m]
  {
    var S, inv := Above(e.net, m), x => Fits(e, w) && SameBelow(e, w, x, m);
    AboveIsClosed(e.net, m);
    SameBelowKept(e, w, m);
    forall p | p in e.net.parents[m] && p in e.net.order
      ensures p in S
    {
      ParentIsAncestor(e.net, p, m);
    }
    ConfirmQuiet(e, w, m, e.net.parents[m], S, inv);
    NotOwnAncestor(e.net, m);
  }

  // ----- What a run keeps -----

  ghost predicate Binary(e: Site) {
    e.Valid() && forall s, n | s in e.net.order :: e.check(s, n) != Warn
  }

  /** The alert of a monitor is open only while it is down, and never opened twice. */
  ghost predicate OnceStatus(s: Status, log: seq<State>) {
    && NoRepeat(log) && (s.alertOpen <==> IsOpen(log))
    && (s.alertOpen ==> s.state == Down) && s.state != Warning && s.warnish == s.bad
  }

  ghost predicate Once(e: Site, w: World) {
    Tidy(e, w) && forall m | m in e.net.order :: OnceStatus(w.states[m], SentTo(w.sent, m))
  }

  lemma OnceObserve(e: Site, w: World, m: string, v: Verdict)
    requires Once(e, w) && m in e.net.order && v != Warn
    requires w.states[m].alertOpen ==> After(w.states[m], v).state == Down
    ensures Once(e, Observe(w, m, v))
  {
    TidyObserve(e, w, m, v);
    assert TidyStatus(w.states[m]);
    assert OnceStatus(w.states[m], SentTo(w.sent, m));
  }

  lemma OnceAlert(e: Site, w: World, m: string, n: Notice)
    requires Once(e, w) && m in e.net.order && !w.states[m].alertOpen && w.states[m].state == Down
    requires n.slug == m && n.change.current == Down
    ensures Once(e, Alert(w, m, true, n))
  {
    TidyAlert(e, w, m, true, n);
    NoRepeatStep(SentTo(w.sent, m), Down);
    forall x
      ensures SentTo(w.sent + [n], x) == if x == m then SentTo(w.sent, x) + [Down] else SentTo(w.sent, x)
    {
      SentStep(w.sent, n, x);
    }
  }

  /** A recovery: observed, and the alert closed if it was open. */
  lemma OnceRecovered(e: Site, w: World, m: string, tr: Transition)
    requires Once(e, w) && m in e.net.order && Change(w.states[m], Ok) == Some(tr)
    ensures tr.current == Up && Once(e, Recovered(Observe(w, m, Ok), m, tr))
  {
    var w1, n := Observe(w, m, Ok), Notice(m, tr, Plain);
    TidyObserve(e, w, m, Ok);
    assert TidyStatus(w.states[m]);
    TidyAlert(e, w1, m, false, n);
    if w.states[m].alertOpen {
      NoRepeatStep(SentTo(w.sent, m), Up);
      forall x
        ensures SentTo(w.sent + [n], x) == if x == m then SentTo(w.sent, x) + [Up] else SentTo(w.sent, x)
      {
        SentStep(w.sent, n, x);
      }
    }
  }

  lemma OnceDecide(e: Site, w: World, m: string, tr: Transition, blocker: Option<string>)
    requires Once(e, w) && m in e.net.order && !w.states[m].alertOpen && w.states[m].state == Down && tr.current == Down
    ensures Once(e, Decide(w, m, tr, blocker))
  {
    OnceAlert(e, w, m, Notice(m, tr, Plain));
  }

  lemma {:induction false} PollOnce(e: Site, w: World, m: string)
    requires Binary(e) && Once(e, w) && m in e.net.order && PatientParents(e.net, e.recoveries)
    ensures Once(e, Poll(e, w, m).0)
    decreases Troubled(e, w) + {m}, Rank(e.net.parents, m), 3, 0
  {
    var v := e.check(m, |w.rows|);
    ObserveTrouble(e, w, m, v);
    assert OnceStatus(w.states[m], SentTo(w.sent, m)) && TidyStatus(w.states[m]);
    match Change(w.states[m], v)
    case None => OnceObserve(e, w, m, v);
    case Some(tr) =>
      if v == Ok {
        OnceRecovered(e, w, m, tr);
        UpOnce(e, Observe(w, m, v), m, tr);
      } else {
        OnceObserve(e, w, m, v);
        DownOnce(e, Observe(w, m, v), m, tr);
      }
  }

  lemma {:induction false} DownOnce(e: Site, w: World, m: string, tr: Transition)
    requires Binary(e) && Once(e, w) && m in e.net.order && PatientParents(e.net, e.recoveries)
    requires tr.current == Down && w.states[m].state == Down && !w.states[m].alertOpen
    ensures Once(e, OnTransition(e, w, m, tr))
    decreases Troubled(e, w) + {m}, Rank(e.net.parents, m), 2, 0
  {
    if !Blocked(e.net, w.states, m) && e.net.parents[m] != [] {
      var w1 := ConfirmParents(e, w, m, e.net.parents[m]);
      ConfirmOnce(e, w, m, e.net.parents[m]);
      ConfirmKeepsChild(e, w, m);
      OnceDecide(e, w1, m, tr, BlockingParent(e.net, w1.states, m));
    } else {
      OnceDecide(e, w, m, tr, BlockingParent(e.net, w.states, m));
    }
  }

  lemma {:induction false} UpOnce(e: Site, w: World, m: string, tr: Transition)
    requires Binary(e) && Fits(e, w) && m in e.net.order && PatientParents(e.net, e.recoveries)
    requires tr.current == Up && m !in Troubled(e, w) && Once(e, Recovered(w, m, tr))
    ensures Once(e, OnTransition(e, w, m, tr))
    decreases Troubled(e, w) + {m}, Rank(e.net.parents, m), 2, 0
  {
    ReleaseOnce(e, Recovered(w, m, tr), m);
  }

  lemma {:induction false} ConfirmOnce(e: Site, w: World, m: string, ps: seq<string>)
    requires Binary(e) && Once(e, w) && m in e.net.order && PatientParents(e.net, e.recoveries)
    requires forall p | p in ps :: Edge(e.net.parents, m, p)
    ensures Once(e, ConfirmParents(e, w, m, ps))
    decreases Troubled(e, w) + {m}, Rank(e.net.parents, m), 1, |ps|
  {
    if ps != [] {
      if ps[0] !in e.net.order {
        ConfirmOnce(e, w, m, ps[1..]);
      } else {
        forall x | Fits(e, x) && Once(e, x) && Unsettled(x.states[ps[0]]) && Troubled(e, x) <= Troubled(e, w)
          ensures Once(e, Poll(e, x, ps[0]).0)
        {
          PollOnce(e, x, ps[0]);
        }
        SettleByTurns(e, w, m, ps[0], 0, Troubled(e, w), x => Once(e, x));
        ConfirmOnce(e, Settle(e, w, m, ps[0], 0), m, ps[1..]);
      }
    }
  }

  lemma {:induction false} ReleaseOnce(e: Site, w: World, m: string)
    requires Binary(e) && Once(e, w) && m in e.net.order && PatientParents(e.net, e.recoveries)
    requires m !in Troubled(e, w)
    ensures Once(e, ReleaseChildren(e, w, m, 0))
    decreases Troubled(e, w) + {m}, Rank(e.net.parents, m), 1, 0
  {
    var bound := Troubled(e, w);
    forall x, c | Fits(e, x) && m !in Troubled(e, x) && c in e.net.order && Once(e, x) && Troubled(e, x) <= bound
      ensures Once(e, ReleaseChild(e, x, c, m)) && Troubled(e, ReleaseChild(e, x, c, m)) <= bound
    {
      ReleaseChildOnce(e, x, c, m);
    }
    ReleaseTurns(e, w, m, 0, x => Once(e, x) && Troubled(e, x) <= bound);
  }

  lemma {:induction false} ReleaseChildOnce(e: Site, w: World, c: string, m: string)
    requires Binary(e) && Once(e, w) && m in e.net.order && c in e.net.order && PatientParents(e.net, e.recoveries)
    requires m !in Troubled(e, w)
    ensures Once(e, ReleaseChild(e, w, c, m))
    decreases Troubled(e, w) + {m}, Rank(e.net.parents, m), 0, 0
  {
    if Releasable(e, w, c, m) {
      PollOnce(e, w, c);
      var (w1, v) := Poll(e, w, c);
      assert OnceStatus(w1.states[c], SentTo(w1.sent, c));
      if StillAlone(e, w1, c, v) {
        OnceAlert(e, w1, c, Notice(c, Transition(w1.states[c].state, w1.states[c].state), StillAfter(m)));
      }
    }
  }

  lemma {:induction false} RunOnce(e: Site, polls: seq<string>)
    requires Binary(e) && PatientParents(e.net, e.recoveries) && forall m | m in polls :: m in e.net.order
    ensures Once(e, Run(e, Start(e), polls))
  {
    if polls != [] {
      RunOnce(e, polls[..|polls| - 1]);
      PollOnce(e, Run(e, Start(e), polls[..|polls| - 1]), polls[|polls| - 1]);
    }
  }

  // ----- A parent that comes up at once makes its child repeat itself -----

  /** s always fails, everybody else answers Ok. */
  ghost predicate Stubborn(e: Site, s: string) {
    e.Valid() && s in e.net.order && forall x, n: nat :: e.check(x, n) == if x == s then Fail else Ok
  }

  predicate Calm(s: Status) {
    !IsProblem(s.state) && s.bad == s.warnish == 0 && s.good >= 0 && !s.alertOpen
  }

  /** s alone is down, and by its failures in a row. */
  ghost predicate Alone(e: Site, w: World, s: string) {
    && Stubborn(e, s) && Fits(e, w)
    && w.states[s].state == Down && w.states[s].bad >= e.failures[s] && w.states[s].warnish >= 0
    && (w.states[s].alertOpen <==> IsOpen(SentTo(w.sent, s)))
    && forall x | x in e.net.order && x != s :: Calm(w.states[x])
  }

  lemma AloneUnblocked(e: Site, w: World, s: string)
    requires Alone(e, w, s)
    ensures !Blocked(e.net, w.states, s)
  {
    forall x | x in e.net.order && x != s
      ensures w.states[x].state != Down
    {
      assert Calm(w.states[x]);
    }
    NothingBlocks(e, w, s);
  }

  /** An alert for s, as the release or the transition sends it. */
  lemma AloneAlert(e: Site, w: World, s: string, n: Notice)
    requires Alone(e, w, s) && n.slug == s && n.change.current == Down
    ensures Alone(e, Log(Alert(w, s, true, n), n), s)
  {
    SentStep(w.sent, n, s);
    var log := SentTo(w.sent, s);
    assert (log + [Down])[|log|] == Down;
    assert IsOpen(SentTo(w.sent + [n], s));
  }

  lemma AlertedTwice(w: World, s: string, n: Notice)
    requires IsOpen(SentTo(w.sent, s)) && n.slug == s && n.change.current == Down
    ensures !NoRepeat(SentTo(w.sent + [n], s))
  {
    SentStep(w.sent, n, s);
    RepeatStep(SentTo(w.sent, s), Down);
  }

  lemma AloneFails(e: Site, w: World, s: string)
    requires Alone(e, w, s)
    ensures Alone(e, Observe(w, s, Fail), s) && Poll(e, w, s) == (Observe(w, s, Fail), Fail)
    ensures Observe(w, s, Fail).states[s].alertOpen == w.states[s].alertOpen
  {
    assert Change(w.states[s], Fail).None?;
  }

  /** What the release of s behind q comes to. */
  ghost function Released(w: World, s: string, q: string): World
    requires s in w.states
  {
    if w.states[s].alertOpen then w else StillFailing(Observe(w, s, Fail), s, q)
  }

  lemma ReleaseAlerts(e: Site, w: World, s: string, q: string)
    requires Alone(e, w, s) && OnlyWaits(e, w, s, q) && Edge(e.net.parents, s, q)
    ensures ReleaseChild(e, w, s, q) == Released(w, s, q)
    ensures Alone(e, Released(w, s, q), s) && Released(w, s, q).states[s].alertOpen
  {
    ParentIsAncestor(e.net, q, s);
    if !w.states[s].alertOpen {
      var w1 := Observe(w, s, Fail);
      AloneFails(e, w, s);
      AloneUnblocked(e, w1, s);
      AloneAlert(e, w1, s, Notice(s, Transition(Down, Down), StillAfter(q)));
    }
  }

  /** Nobody but s and q has changed, and an open alert of s stays open. */
  ghost predicate Stays(e: Site, w: World, w': World, s: string, q: string) {
    && Alone(e, w, s) && Alone(e, w', s) && (w.states[s].alertOpen ==> w'.states[s].alertOpen)
    && forall x | x in e.net.order && x != s && x != q :: w'.states[x] == w.states[x]
  }

  /** q comes up: s is released and alerted. */
  lemma LastOkReleases(e: Site, w: World, s: string, q: string)
    requires Alone(e, w, s) && q in e.net.order && Edge(e.net.parents, s, q)
    requires w.states[q].state == Pending && w.states[q].good + 1 == e.recoveries[q]
    ensures var w1 := Poll(e, w, q).0;
      Stays(e, w, w1, s, q) && w1.states[s].alertOpen && !Unsettled(w1.states[q])
  {
    NoEdgeToSelf(e.net, s, q);
    assert Calm(w.states[q]);
    var tr := Transition(Pending, Up);
    ObserveTrouble(e, w, q, Ok);
    assert Change(w.states[q], Ok) == Some(tr);
    var w2 := Recovered(Observe(w, q, Ok), q, tr);
    assert Alone(e, w2, s) && OnlyWaits(e, w2, s, q);
    ReleaseAlerts(e, w2, s, q);
    ReleaseJust(e, w2, s, q, Released(w2, s, q));
  }

  /** q is not up yet, but settled. */
  lemma PatientParentPolled(e: Site, w: World, s: string, q: string)
    requires Alone(e, w, s) && q in e.net.order && Edge(e.net.parents, s, q)
    requires Unsettled(w.states[q]) && e.recoveries[q] >= 2
    ensures var w1 := Poll(e, w, q).0;
      Stays(e, w, w1, s, q) && !Unsettled(w1.states[q])
  {
    NoEdgeToSelf(e.net, s, q);
    assert Calm(w.states[q]);
    assert Change(w.states[q], Ok).None?;
  }

  lemma ParentSettled(e: Site, w: World, s: string, q: string)
    requires Alone(e, w, s) && q in e.net.order && Edge(e.net.parents, s, q)
    ensures var w1 := Settle(e, w, s, q, 0);
      Stays(e, w, w1, s, q) && (Unsettled(w.states[q]) && e.recoveries[q] == 1 ==> w1.states[s].alertOpen)
  {
    if Unsettled(w.states[q]) {
      SettleStep(e, w, s, q, 0);
      if e.recoveries[q] == 1 {
        LastOkReleases(e, w, s, q);
      } else {
        PatientParentPolled(e, w, s, q);
      }
      SettleEnd(e, Poll(e, w, q).0, s, q, 1);
    } else {
      SettleEnd(e, w, s, q, 0);
    }
  }

  lemma {:induction false} ConfirmAlerts(e: Site, w: World, s: string, ps: seq<string>, p: string)
    requires Alone(e, w, s) && p in e.net.order && p != s
    requires forall q | q in ps :: Edge(e.net.parents, s, q)
    requires w.states[s].alertOpen || (p in ps && Unsettled(w.states[p]) && e.recoveries[p] == 1)
    ensures var w1 := ConfirmParents(e, w, s, ps);
      Alone(e, w1, s) && w1.states[s].alertOpen
    decreases |ps|
  {
    if ps != [] {
      if ps[0] !in e.net.order {
        ConfirmAlerts(e, w, s, ps[1..], p);
      } else {
        ParentSettled(e, w, s, ps[0]);
        ConfirmAlerts(e, Settle(e, w, s, ps[0], 0), s, ps[1..], p);
      }
    }
  }

  /** s has failed j times, nobody else has been polled. */
  ghost predicate Failing(e: Site, w: World, s: string, j: nat) {
    && Stubborn(e, s) && Fits(e, w) && Reachable(e, w) && w.sent == []
    && w.states[s] == Fresh(e.failures[s], e.recoveries[s]).(bad := j, warnish := j)
    && forall x | x in e.net.order && x != s :: w.states[x] == Fresh(e.failures[x], e.recoveries[x])
  }

  lemma FailsOnceMore(e: Site, w: World, s: string, j: nat)
    requires Failing(e, w, s, j) && j + 1 < e.failures[s]
    ensures Failing(e, Poll(e, w, s).0, s, j + 1)
  {
    assert Change(w.states[s], Fail).None?;
    PollReachable(e, w, s);
  }

  lemma {:induction false} FailsShort(e: Site, s: string, j: nat) returns (w: World)
    requires Stubborn(e, s) && j < e.failures[s]
    ensures Failing(e, w, s, j)
    decreases j
  {
    if j == 0 {
      w := Start(e);
      StartReachable(e);
    } else {
      w := FailsShort(e, s, j - 1);
      FailsOnceMore(e, w, s, j - 1);
      w := Poll(e, w, s).0;
    }
  }

  /** The last failure: the parents are confirmed, one comes up and releases s, and then s is alerted again. */
  lemma LastFailureRepeats(e: Site, w: World, s: string, p: string)
    requires Stubborn(e, s) && Failing(e, w, s, e.failures[s] - 1)
    requires p in e.net.order && Edge(e.net.parents, s, p) && e.recoveries[p] == 1
    ensures !NoRepeat(SentTo(Poll(e, w, s).0.sent, s))
  {
    var w1, tr := Observe(w, s, Fail), Transition(Pending, Down);
    NoEdgeToSelf(e.net, s, p);
    assert Change(w.states[s], Fail) == Some(tr);
    assert Alone(e, w1, s);
    AloneUnblocked(e, w1, s);
    var w2 := ConfirmParents(e, w1, s, e.net.parents[s]);
    ConfirmAlerts(e, w1, s, e.net.parents[s], p);
    AloneUnblocked(e, w2, s);
    AlertedTwice(w2, s, Notice(s, tr, Plain));
  }

  lemma PromptParentRepeats(e: Site, s: string, p: string) returns (w: World)
    requires Stubborn(e, s) && p in e.net.order && Edge(e.net.parents, s, p) && e.recoveries[p] == 1
    ensures Reachable(e, w) && Fits(e, w) && !NoRepeat(SentTo(w.sent, s))
  {
    w := FailsShort(e, s, e.failures[s] - 1);
    LastFailureRepeats(e, w, s, p);
    PollReachable(e, w, s);
    w := Poll(e, w, s).0;
  }

  // ----- The theorems -----

  /** Whatever the checks answer among Ok and Fail, no problem is sent for a monitor whose last alert was a problem. */
  ghost predicate NeverRepeats(net: Network, failures: map<string, int>, recoveries: map<string, int>)
    requires ValidSite(net, failures, recoveries)
  {
    forall check: (string, nat) -> Verdict, w: World, m
      | Binary(Site(net, failures, recoveries, check)) && Reachable(Site(net, failures, recoveries, check), w)
        && m in net.order
      :: NoRepeat(SentTo(w.sent, m))
  }

  lemma PatientIsOnce(e: Site, w: World, m: string)
    requires Binary(e) && PatientParents(e.net, e.recoveries) && Reachable(e, w) && m in e.net.order
    ensures NoRepeat(SentTo(w.sent, m))
  {
    var polls :| IsRun(e, polls, w);
    RunOnce(e, polls);
    assert OnceStatus(w.states[m], SentTo(w.sent, m));
  }

  function StubbornCheck(s: string): (string, nat) -> Verdict {
    (x: string, n: nat) => if x == s then Fail else Ok
  }

  lemma PromptParentIsRepeated(net: Network, failures: map<string, int>, recoveries: map<string, int>, s: string,
                               p: string)
    requires ValidSite(net, failures, recoveries)
    requires s in net.order && p in net.order && Edge(net.parents, s, p) && recoveries[p] == 1
    ensures !NeverRepeats(net, failures, recoveries)
  {
    var e := Site(net, failures, recoveries, StubbornCheck(s));
    var w := PromptParentRepeats(e, s, p);
    assert Binary(e);
  }

  /** One outage is alerted once exactly when no monitor that an enabled one depends on recovers at its first Ok. */
  lemma NoRepeatedAlertExactly(net: Network, failures: map<string, int>, recoveries: map<string, int>)
    requires ValidSite(net, failures, recoveries)
    ensures NeverRepeats(net, failures, recoveries) <==> PatientParents(net, recoveries)
  {
    if PatientParents(net, recoveries) {
      forall check: (string, nat) -> Verdict, w: World, m
        | Binary(Site(net, failures, recoveries, check)) && Reachable(Site(net, failures, recoveries, check), w)
          && m in net.order
        ensures NoRepeat(SentTo(w.sent, m))
      {
        PatientIsOnce(Site(net, failures, recoveries, check), w, m);
      }
    } else {
      var p :| p in net.order && Supports(net, p) && recoveries[p] < 2;
      var s :| s in net.order && Edge(net.parents, s, p);
      PromptParentIsRepeated(net, failures, recoveries, s, p);
    }
  }

  function OkAndFail(net: Network): map<string, set<Verdict>> {
    map s | s in net.order :: {Ok, Fail}
  }

  /** No alert is lost and none is repeated. */
  ghost predicate KeepsBoth(net: Network, failures: map<string, int>, recoveries: map<string, int>) {
    && ValidSite(net, failures, recoveries)
    && NeverLoses(net, failures, recoveries, OkAndFail(net)) && NeverRepeats(net, failures, recoveries)
  }

  /** No enabled monitor that depends on an enabled one has an enabled one depending on it. */
  ghost predicate TwoLayers(net: Network) {
    forall m, p | m in net.order && p in net.order && Edge(net.parents, m, p) :: !Supports(net, m)
  }

  lemma BothConditions(net: Network, failures: map<string, int>, recoveries: map<string, int>)
    requires ValidSite(net, failures, recoveries)
    ensures KeepsBoth(net, failures, recoveries)
            <==> PromptDependents(net, recoveries) && PatientParents(net, recoveries)
  {
    NoLostAlertExactly(net, failures, recoveries, OkAndFail(net));
    NoRepeatedAlertExactly(net, failures, recoveries);
  }

  /** Both promises, that no alert is lost and none repeated, can be kept by a choice of recovery counts
      exactly when dependencies are at most one deep. */
  lemma BothPromises(net: Network, failures: map<string, int>)
    requires net.Valid() && forall s | s in net.order :: s in failures && failures[s] >= 1
    ensures (exists recoveries :: KeepsBoth(net, failures, recoveries)) <==> TwoLayers(net)
  {
    if recoveries :| KeepsBoth(net, failures, recoveries) {
      BothConditions(net, failures, recoveries);
    }
    if TwoLayers(net) {
      BothConditions(net, failures, map s | s in net.order :: if Supports(net, s) then 2 else 1);
    }
  }
}
