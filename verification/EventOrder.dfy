/** When the events of every monitor are recorded in the order in which its state
    changed: when no monitor that an enabled one depends on recovers at its first Ok. */
module EventOrder {
  import opened Wrappers
  import opened Graphs
  import opened MonitorStates
  import opened Networks
  import opened Engine
  import opened EngineInduction
  import opened NoLostAlerts
  import opened AlertConditions
  import opened Logbooks
  import opened RepeatedAlerts
  import opened EventLogs

  // ----- Patient parents keep the order -----

  /** Transitions seen and not recorded, one for a monitor at most. */
  type Lag = map<string, Transition>

  /** Of the monitors that lag nothing is seen until their transition is recorded. */
  ghost predicate Orders(e: Site, acct: (World, Lag) -> bool) {
    && (forall w: World, l: Lag | acct(w, l) :: Tidy(e, w))
    && (forall w: World, l: Lag, m, v | acct(w, l) && m in e.net.order && m in w.states && m !in l
                                        && Change(w.states[m], v).None? :: acct(Observe(w, m, v), l))
    && (forall w: World, l: Lag, m, v | acct(w, l) && m in e.net.order && m in w.states && m !in l
                                        && Change(w.states[m], v).Some? ::
          acct(Observe(w, m, v), l[m := Change(w.states[m], v).value]))
    && (forall w: World, l: Lag, m, tr, b | m !in l && acct(w, l[m := tr]) && m in e.net.order && m in w.states
                                && IsProblem(tr.current) :: acct(Decide(w, m, tr, b), l))
    && (forall w: World, l: Lag, m, tr | m !in l && acct(w, l[m := tr]) && m in e.net.order && m in w.states
                             && tr.current == Up :: acct(Recovered(w, m, tr), l))
    && (forall w: World, l: Lag, c, m | acct(w, l) && c in e.net.order && c in w.states
                                        && IsProblem(w.states[c].state) :: acct(StillFailing(w, c, m), l))
  }

  lemma AboveWithin(net: Network, m: string, S: set<string>)
    requires Closed(net, S) && m in S
    ensures Above(net, m) <= S
  {
    forall a | a in Above(net, m)
      ensures a in S
    {
      var c :| AncestorChain(net, m, c) && c[|c| - 1] == a;
      ClosedHoldsAncestors(net, m, S, c);
    }
  }

  ghost predicate Patient(e: Site, acct: (World, Lag) -> bool) {
    e.Valid() && PatientParents(e.net, e.recoveries) && Orders(e, acct)
  }

  /** An unsettled parent: it does not come up, and nobody that lags is polled. */
  lemma {:induction false} ParentOrders(e: Site, w: World, p: string, S: set<string>, acct: (World, Lag) -> bool,
                                        l: Lag)
    requires Patient(e, acct) && Fits(e, w) && acct(w, l) && p in e.net.order && p in S && Closed(e.net, S)
    requires l.Keys !! S && Supports(e.net, p) && Unsettled(w.states[p])
    ensures acct(Poll(e, w, p).0, l)
    decreases Troubled(e, w) + {p}, Rank(e.net.parents, p), 3, 0
  {
    var v := e.check(p, |w.rows|);
    ObserveTrouble(e, w, p, v);
    assert TidyStatus(w.states[p]);
    if Change(w.states[p], v).Some? {
      var tr := Change(w.states[p], v).value;
      assert IsProblem(tr.current);
      AboveWithin(e.net, p, S);
      ProblemOrders(e, Observe(w, p, v), p, tr, acct, l);
    }
  }

  lemma {:induction false} ProblemOrders(e: Site, w: World, m: string, tr: Transition, acct: (World, Lag) -> bool,
                                         l: Lag)
    requires Patient(e, acct) && Fits(e, w) && m in e.net.order && m !in l && acct(w, l[m := tr])
    requires IsProblem(tr.current) && l.Keys !! Above(e.net, m)
    ensures acct(OnTransition(e, w, m, tr), l)
    decreases Troubled(e, w) + {m}, Rank(e.net.parents, m), 2, 0
  {
    if !Blocked(e.net, w.states, m) && e.net.parents[m] != [] {
      NotOwnAncestor(e.net, m);
      ConfirmOrders(e, w, m, e.net.parents[m], acct, l[m := tr]);
    }
  }

  lemma {:induction false} ConfirmOrders(e: Site, w: World, m: string, ps: seq<string>, acct: (World, Lag) -> bool,
                                         l: Lag)
    requires Patient(e, acct) && Fits(e, w) && m in e.net.order && acct(w, l) && l.Keys !! Above(e.net, m)
    requires forall p | p in ps :: Edge(e.net.parents, m, p)
    ensures acct(ConfirmParents(e, w, m, ps), l)
    decreases Troubled(e, w) + {m}, Rank(e.net.parents, m), 1, |ps|
  {
    if ps != [] {
      if ps[0] !in e.net.order {
        ConfirmOrders(e, w, m, ps[1..], acct, l);
      } else {
        AboveIsClosed(e.net, m);
        ParentIsAncestor(e.net, ps[0], m);
        forall x | Fits(e, x) && acct(x, l) && Unsettled(x.states[ps[0]]) && Troubled(e, x) <= Troubled(e, w)
          ensures acct(Poll(e, x, ps[0]).0, l)
        {
          TurnTroubles(e, x, ps[0]);
          ParentOrders(e, x, ps[0], Above(e.net, m), acct, l);
        }
        SettleByTurns(e, w, m, ps[0], 0, Troubled(e, w), x => acct(x, l));
        ConfirmOrders(e, Settle(e, w, m, ps[0], 0), m, ps[1..], acct, l);
      }
    }
  }

  lemma {:induction false} PollOrders(e: Site, w: World, m: string, acct: (World, Lag) -> bool)
    requires Patient(e, acct) && Fits(e, w) && acct(w, map[]) && m in e.net.order
    ensures acct(Poll(e, w, m).0, map[])
    decreases Troubled(e, w) + {m}, Rank(e.net.parents, m), 3, 0
  {
    var v, none: Lag := e.check(m, |w.rows|), map[];
    ObserveTrouble(e, w, m, v);
    if Change(w.states[m], v).Some? {
      var tr := Change(w.states[m], v).value;
      if IsProblem(tr.current) {
        ProblemOrders(e, Observe(w, m, v), m, tr, acct, none);
      } else {
        ReleaseOrders(e, Recovered(Observe(w, m, v), m, tr), m, acct);
      }
    }
  }

  lemma {:induction false} ReleaseOrders(e: Site, w: World, m: string, acct: (World, Lag) -> bool)
    requires Patient(e, acct) && Fits(e, w) && acct(w, map[]) && m in e.net.order && m !in Troubled(e, w)
    ensures acct(ReleaseChildren(e, w, m, 0), map[])
    decreases Troubled(e, w) + {m}, Rank(e.net.parents, m), 1, 0
  {
    var bound, none: Lag := Troubled(e, w), map[];
    forall x, c | Fits(e, x) && m !in Troubled(e, x) && c in e.net.order && acct(x, none) && Troubled(e, x) <= bound
      ensures acct(ReleaseChild(e, x, c, m), none) && Troubled(e, ReleaseChild(e, x, c, m)) <= bound
    {
      if Releasable(e, x, c, m) {
        PollOrders(e, x, c, acct);
      }
    }
    ReleaseTurns(e, w, m, 0, x => acct(x, none) && Troubled(e, x) <= bound);
  }

  // ----- The books in order -----

  /** Status and replay of the results, events and changes of one monitor, but for the transition that lags. */
  ghost predicate Lined(st: Status, replayed: Status, events: seq<Transition>, lag: seq<Transition>,
                        changes: seq<Transition>) {
    st.(alertOpen := false) == replayed && events + lag == changes
  }

  function LagOf(l: Lag, m: string): seq<Transition> {
    if m in l then [l[m]] else []
  }

  ghost predicate LinedUp(e: Site, w: World, l: Lag, m: string)
    requires m in w.states && m in e.failures && m in e.recoveries
  {
    Lined(w.states[m], Recorded(e, w.rows, m), EventsOf(w.events, m), LagOf(l, m), ChangesOf(e, w.rows, m))
  }

  ghost predicate Ordered(e: Site, w: World, l: Lag) {
    Tidy(e, w) && forall m | m in e.net.order :: LinedUp(e, w, l, m)
  }

  lemma SeenLined(st: Status, replayed: Status, events: seq<Transition>, changes: seq<Transition>, v: Verdict)
    requires Lined(st, replayed, events, [], changes)
    ensures Change(st, v).None? ==>
      After(replayed, v).state == replayed.state && Lined(After(st, v), After(replayed, v), events, [], changes)
    ensures Change(st, v).Some? ==>
      After(replayed, v).state != replayed.state
      && Change(st, v).value == Transition(replayed.state, After(replayed, v).state)
      && Lined(After(st, v), After(replayed, v), events, [Change(st, v).value], changes + [Change(st, v).value])
  {
    assert events + [] == events;
  }

  lemma ObserveOrdered(e: Site, w: World, m: string, v: Verdict, l: Lag)
    requires Ordered(e, w, l) && m in e.net.order && m !in l
    ensures Change(w.states[m], v).None? ==> Ordered(e, Observe(w, m, v), l)
    ensures Change(w.states[m], v).Some? ==> Ordered(e, Observe(w, m, v), l[m := Change(w.states[m], v).value])
  {
    var l' := if Change(w.states[m], v).Some? then l[m := Change(w.states[m], v).value] else l;
    TidyObserve(e, w, m, v);
    forall x | x in e.net.order
      ensures LinedUp(e, Observe(w, m, v), l', x)
    {
      assert LinedUp(e, w, l, x);
      if x == m {
        OwnRow(e, w.rows, m, v);
        SeenLined(w.states[m], Recorded(e, w.rows, m), EventsOf(w.events, m), ChangesOf(e, w.rows, m), v);
      } else {
        OtherRow(e, w.rows, m, v, x);
      }
    }
  }

  lemma RecordLined(st: Status, replayed: Status, events: seq<Transition>, tr: Transition, changes: seq<Transition>)
    requires Lined(st, replayed, events, [tr], changes)
    ensures Lined(st, replayed, events + [tr], [], changes)
  {
    assert events + [tr] + [] == events + [tr];
  }

  /** The event table after one more event, for its own monitor and for another. */
  lemma OneEvent(events: seq<Notice>, n: Notice, x: string)
    requires !n.note.StillAfter?
    ensures EventsOf(events + [n], x) == if x == n.slug then EventsOf(events, x) + [n.change] else EventsOf(events, x)
  {
    EventStep(events, n, x);
    assert EventsOf(events, x) + [] == EventsOf(events, x);
  }

  /** The transition that lags is recorded. */
  lemma RecordOrdered(e: Site, w: World, n: Notice, l: Lag)
    requires n.slug !in l && Ordered(e, w, l[n.slug := n.change]) && n.slug in e.net.order && !n.note.StillAfter?
    ensures Ordered(e, Log(w, n), l)
  {
    forall x | x in e.net.order
      ensures LinedUp(e, Log(w, n), l, x)
    {
      assert LinedUp(e, w, l[n.slug := n.change], x);
      OneEvent(w.events, n, x);
      if x == n.slug {
        RecordLined(w.states[x], Recorded(e, w.rows, x), EventsOf(w.events, x), n.change, ChangesOf(e, w.rows, x));
      }
    }
  }

  lemma AlertOrdered(e: Site, w: World, m: string, open: bool, n: Notice, l: Lag)
    requires Ordered(e, w, l) && m in e.net.order
    ensures Ordered(e, Alert(w, m, open, n), l)
  {
    TidyAlert(e, w, m, open, n);
    forall x | x in e.net.order
      ensures LinedUp(e, Alert(w, m, open, n), l, x)
    {
      assert LinedUp(e, w, l, x);
    }
  }

  lemma StillOrdered(e: Site, w: World, c: string, m: string, l: Lag)
    requires Ordered(e, w, l) && c in e.net.order
    ensures Ordered(e, StillFailing(w, c, m), l)
  {
    var n := Notice(c, Transition(w.states[c].state, w.states[c].state), StillAfter(m));
    var w1 := Alert(w, c, true, n);
    AlertOrdered(e, w, c, true, n, l);
    forall x | x in e.net.order
      ensures LinedUp(e, Log(w1, n), l, x)
    {
      assert LinedUp(e, w1, l, x);
      EventStep(w1.events, n, x);
      assert EventsOf(w1.events, x) + [] == EventsOf(w1.events, x);
    }
  }

  lemma DecideOrdered(e: Site, w: World, m: string, tr: Transition, b: Option<string>, l: Lag)
    requires m !in l && Ordered(e, w, l[m := tr]) && m in e.net.order
    ensures Ordered(e, Decide(w, m, tr, b), l)
  {
    match b
    case Some(blocker) => RecordOrdered(e, w, Notice(m, tr, SuppressedBy(blocker)), l);
    case None =>
      AlertOrdered(e, w, m, true, Notice(m, tr, Plain), l[m := tr]);
      RecordOrdered(e, Alert(w, m, true, Notice(m, tr, Plain)), Notice(m, tr, Plain), l);
  }

  lemma RecoveredOrdered(e: Site, w: World, m: string, tr: Transition, l: Lag)
    requires m !in l && Ordered(e, w, l[m := tr]) && m in e.net.order
    ensures Ordered(e, Recovered(w, m, tr), l)
  {
    AlertOrdered(e, w, m, false, Notice(m, tr, Plain), l[m := tr]);
    RecordOrdered(e, if w.states[m].alertOpen then Alert(w, m, false, Notice(m, tr, Plain)) else w,
                  Notice(m, tr, Plain), l);
  }

  lemma OrderedOrders(e: Site)
    ensures Orders(e, (w: World, l: Lag) => Ordered(e, w, l))
  {
    forall w: World, l: Lag, m, v | Ordered(e, w, l) && m in e.net.order && m !in l
      ensures Change(w.states[m], v).None? ==> Ordered(e, Observe(w, m, v), l)
      ensures Change(w.states[m], v).Some? ==> Ordered(e, Observe(w, m, v), l[m := Change(w.states[m], v).value])
    {
      ObserveOrdered(e, w, m, v, l);
    }
    forall w: World, l: Lag, m, tr, b | m !in l && Ordered(e, w, l[m := tr]) && m in e.net.order
      ensures Ordered(e, Decide(w, m, tr, b), l)
    {
      DecideOrdered(e, w, m, tr, b, l);
    }
    forall w: World, l: Lag, m, tr | m !in l && Ordered(e, w, l[m := tr]) && m in e.net.order
      ensures Ordered(e, Recovered(w, m, tr), l)
    {
      RecoveredOrdered(e, w, m, tr, l);
    }
    forall w: World, l: Lag, c, m | Ordered(e, w, l) && c in e.net.order
      ensures Ordered(e, StillFailing(w, c, m), l)
    {
      StillOrdered(e, w, c, m, l);
    }
  }

  lemma {:induction false} RunOrdered(e: Site, polls: seq<string>)
    requires e.Valid() && PatientParents(e.net, e.recoveries) && forall m | m in polls :: m in e.net.order
    ensures Ordered(e, Run(e, Start(e), polls), map[])
  {
    if polls != [] {
      RunOrdered(e, polls[..|polls| - 1]);
      OrderedOrders(e);
      PollOrders(e, Run(e, Start(e), polls[..|polls| - 1]), polls[|polls| - 1], (w: World, l: Lag) => Ordered(e, w, l));
    }
  }

  // ----- An impatient parent breaks it -----

  /** s fails until that takes it down, and then warns; everybody else answers Ok. */
  ghost predicate Wavering(e: Site, s: string) {
    && e.Valid() && s in e.net.order
    && forall x, n: nat :: e.check(x, n) == if x != s then Ok else if n < e.failures[s] then Fail else Warn
  }

  function Fails(s: string, j: nat): seq<Row> {
    seq(j, _ => Row(s, Fail))
  }

  /** s has failed j times, nobody else has been polled. */
  ghost predicate Faltering(e: Site, w: World, s: string, j: nat) {
    && Wavering(e, s) && Fits(e, w) && Reachable(e, w) && w.rows == Fails(s, j)
    && w.states[s] == Fresh(e.failures[s], e.recoveries[s]).(bad := j, warnish := j)
    && forall x | x in e.net.order && x != s :: w.states[x] == Fresh(e.failures[x], e.recoveries[x])
  }

  lemma FaltersOnceMore(e: Site, w: World, s: string, j: nat)
    requires Faltering(e, w, s, j) && j + 1 < e.failures[s]
    ensures Faltering(e, Poll(e, w, s).0, s, j + 1)
  {
    assert Change(w.states[s], Fail).None?;
    assert Fails(s, j) + [Row(s, Fail)] == Fails(s, j + 1);
    PollReachable(e, w, s);
  }

  lemma {:induction false} Falters(e: Site, s: string, j: nat) returns (w: World)
    requires Wavering(e, s) && j < e.failures[s]
    ensures Faltering(e, w, s, j)
    decreases j
  {
    if j == 0 {
      w := Start(e);
      StartReachable(e);
    } else {
      w := Falters(e, s, j - 1);
      FaltersOnceMore(e, w, s, j - 1);
      w := Poll(e, w, s).0;
    }
  }

  /** s is down and not alerted, and nobody else is in trouble; its rows are its failures. */
  ghost predicate Fallen(e: Site, w: World, s: string) {
    && Wavering(e, s) && Fits(e, w) && |w.rows| >= e.failures[s]
    && RowsOf(w.rows, s) == seq(e.failures[s], _ => Fail)
    && w.states[s].state == Down && !w.states[s].alertOpen
    && forall x | x in e.net.order && x != s ::
         !IsProblem(w.states[x].state) && w.states[x].bad == 0 && w.states[x].good >= 0
  }

  lemma {:induction false} RowsOfFails(s: string, j: nat)
    ensures RowsOf(Fails(s, j), s) == seq(j, _ => Fail)
  {
    if j > 0 {
      RowsOfFails(s, j - 1);
      assert Fails(s, j)[..j - 1] == Fails(s, j - 1);
    }
  }

  lemma FallsNow(e: Site, w: World, s: string)
    requires Wavering(e, s) && Faltering(e, w, s, e.failures[s] - 1)
    ensures Fallen(e, Observe(w, s, Fail), s)
    ensures Change(w.states[s], Fail) == Some(Transition(Pending, Down))
  {
    RowsOfFails(s, e.failures[s]);
    assert Fails(s, e.failures[s] - 1) + [Row(s, Fail)] == Fails(s, e.failures[s]);
  }

  lemma FallenUnblocked(e: Site, w: World, s: string)
    requires Fallen(e, w, s)
    ensures !Blocked(e.net, w.states, s)
  {
    NothingBlocks(e, w, s);
  }

  /** A patient parent answers Ok and is settled by it. */
  lemma PatientSettles(e: Site, w: World, s: string, q: string)
    requires Fallen(e, w, s) && q in e.net.order && q != s && Edge(e.net.parents, s, q) && e.recoveries[q] >= 2
    ensures Fallen(e, Settle(e, w, s, q, 0), s)
    ensures forall x | x in e.net.order && x != q :: Settle(e, w, s, q, 0).states[x] == w.states[x]
  {
    if Unsettled(w.states[q]) {
      var w1 := Poll(e, w, q).0;
      assert Change(w.states[q], Ok).None?;
      RowsStep(w.rows, Row(q, Ok), s);
      SettleStep(e, w, s, q, 0);
      SettleEnd(e, w1, s, q, 1);
    } else {
      SettleEnd(e, w, s, q, 0);
    }
  }

  /** The results of s go on after it has failed. */
  ghost predicate Wavers(e: Site, w: World, s: string)
    requires s in e.failures && e.failures[s] >= 0
  {
    seq(e.failures[s], _ => Fail) + [Warn] <= RowsOf(w.rows, s)
  }

  lemma WaversKept(e: Site, s: string)
    requires e.Valid() && s in e.net.order
    ensures Kept(e, (w: World) => Wavers(e, w, s))
  {
    forall w: World, m, v | m in e.net.order && m in w.states && Wavers(e, w, s)
      ensures Wavers(e, Observe(w, m, v), s)
    {
      RowsStep(w.rows, Row(m, v), s);
    }
  }

  /** The release polls s, and that is the result after its failures. */
  lemma ReleaseWavers(e: Site, w: World, s: string, p: string)
    requires Fallen(e, w, s) && p in e.net.order && Edge(e.net.parents, s, p) && p !in Troubled(e, w)
    ensures Wavers(e, ReleaseChildren(e, w, p, 0), s)
  {
    var j :| 0 <= j < |e.net.order| && e.net.order[j] == s;
    forall k | 0 <= k < j
      ensures Passes(e, w, p, k)
    {
      assert e.net.order[k] != s;
    }
    ReleaseSkips(e, w, p, 0, j);
    ReleasedWavers(e, w, s, p);
    WaversKept(e, s);
    ReleaseKeeps(e, ReleaseChild(e, w, s, p), p, j + 1, (x: World) => Wavers(e, x, s));
  }

  lemma ReleasedWavers(e: Site, w: World, s: string, p: string)
    requires Fallen(e, w, s) && p in e.net.order && Edge(e.net.parents, s, p) && p !in Troubled(e, w)
    ensures Wavers(e, ReleaseChild(e, w, s, p), s)
  {
    ParentIsAncestor(e.net, p, s);
    assert Releasable(e, w, s, p);
    NextWavers(e, w, s);
    WaversKept(e, s);
    ObserveTrouble(e, w, s, Warn);
    var w1 := Observe(w, s, Warn);
    if Change(w.states[s], Warn).Some? {
      TransitionKeeps(e, w1, s, Change(w.states[s], Warn).value, (x: World) => Wavers(e, x, s));
    }
  }

  lemma NextWavers(e: Site, w: World, s: string)
    requires Fallen(e, w, s)
    ensures Wavers(e, Observe(w, s, Warn), s) && e.check(s, |w.rows|) == Warn
  {
    RowsStep(w.rows, Row(s, Warn), s);
  }

  /** A parent that comes up at its first Ok releases s. */
  lemma ImpatientWavers(e: Site, w: World, s: string, p: string)
    requires Fallen(e, w, s) && p in e.net.order && Edge(e.net.parents, s, p)
    requires Unsettled(w.states[p]) && e.recoveries[p] == 1
    ensures Wavers(e, Poll(e, w, p).0, s)
  {
    NoEdgeToSelf(e.net, s, p);
    var tr := Transition(Pending, Up);
    ObserveTrouble(e, w, p, Ok);
    assert Change(w.states[p], Ok) == Some(tr);
    var w1 := Recovered(Observe(w, p, Ok), p, tr);
    RowsStep(w.rows, Row(p, Ok), s);
    assert Fallen(e, w1, s);
    ReleaseWavers(e, w1, s, p);
  }

  lemma SettleWavers(e: Site, w: World, s: string, p: string)
    requires Fallen(e, w, s) && p in e.net.order && Edge(e.net.parents, s, p)
    requires Unsettled(w.states[p]) && e.recoveries[p] == 1
    ensures Wavers(e, Settle(e, w, s, p, 0), s)
  {
    ImpatientWavers(e, w, s, p);
    SettleStep(e, w, s, p, 0);
    WaversKept(e, s);
    SettleKeeps(e, Poll(e, w, p).0, s, p, 1, (x: World) => Wavers(e, x, s));
  }

  lemma {:induction false} ConfirmWavers(e: Site, w: World, s: string, ps: seq<string>, p: string)
    requires Fallen(e, w, s) && p in e.net.order && p in ps && Unsettled(w.states[p]) && e.recoveries[p] == 1
    requires forall q | q in ps :: Edge(e.net.parents, s, q)
    ensures Wavers(e, ConfirmParents(e, w, s, ps), s)
    decreases |ps|
  {
    var q := ps[0];
    NoEdgeToSelf(e.net, s, q);
    if q !in e.net.order {
      ConfirmWavers(e, w, s, ps[1..], p);
    } else if Unsettled(w.states[q]) && e.recoveries[q] == 1 {
      SettleWavers(e, w, s, q);
      WaversKept(e, s);
      ConfirmKeeps(e, Settle(e, w, s, q, 0), s, ps[1..], (x: World) => Wavers(e, x, s));
    } else {
      if e.recoveries[q] == 1 {
        SettleEnd(e, w, s, q, 0);
      } else {
        PatientSettles(e, w, s, q);
      }
      ConfirmWavers(e, Settle(e, w, s, q, 0), s, ps[1..], p);
    }
  }

  // ----- What that does to the order -----

  lemma {:induction false} ChangesGrow(s: Status, h: seq<Verdict>, k: seq<Verdict>)
    requires h <= k
    ensures Changes(s, h) <= Changes(s, k)
    decreases |k|
  {
    if |h| < |k| {
      ChangesGrow(s, h, k[..|k| - 1]);
    } else {
      assert h == k;
    }
  }

  /** Only the first change is one from pending. */
  lemma {:induction false} PendingIsFirst(f: int, u: int, h: seq<Verdict>)
    ensures Changes(Fresh(f, u), h) != [] ==> Replay(Fresh(f, u), h).state != Pending
    ensures forall i | 0 < i < |Changes(Fresh(f, u), h)| :: Changes(Fresh(f, u), h)[i].previous != Pending
  {
    if h != [] {
      PendingIsFirst(f, u, h[..|h| - 1]);
    }
  }

  lemma {:induction false} FailsReplay(f: int, u: int, j: nat)
    requires j < f && u >= 1
    ensures Replay(Fresh(f, u), seq(j, _ => Fail)) == Fresh(f, u).(bad := j, warnish := j)
    ensures Changes(Fresh(f, u), seq(j, _ => Fail)) == []
  {
    if j > 0 {
      FailsReplay(f, u, j - 1);
      assert seq(j, _ => Fail)[..j - 1] == seq(j - 1, _ => Fail);
    }
  }

  lemma WaveringChanges(f: nat, u: int)
    requires f >= 1 && u >= 1
    ensures |Changes(Fresh(f, u), seq(f, _ => Fail) + [Warn])| == 2
  {
    var h := seq(f, _ => Fail);
    FailsReplay(f, u, f - 1);
    assert seq(f, _ => Fail)[..f - 1] == seq(f - 1, _ => Fail);
    assert (h + [Warn])[..f] == h;
  }

  /** When the outage of s is recorded last, its events are out of order. */
  lemma OutOfOrder(e: Site, w: World, s: string, n: Notice)
    requires e.Valid() && s in e.net.order && Wavers(e, w, s)
    requires n.slug == s && n.change == Transition(Pending, Down) && !n.note.StillAfter?
    ensures EventsOf(w.events + [n], s) != ChangesOf(e, w.rows, s)
  {
    var f, u, h := e.failures[s], e.recoveries[s], RowsOf(w.rows, s);
    EventStep(w.events, n, s);
    WaveringChanges(f, u);
    ChangesGrow(Fresh(f, u), seq(f, _ => Fail) + [Warn], h);
    PendingIsFirst(f, u, h);
    var changes := Changes(Fresh(f, u), h);
    assert |changes| >= 2 && changes[|changes| - 1].previous != Pending;
    var events := EventsOf(w.events + [n], s);
    assert events[|events| - 1] == n.change;
  }

  lemma DecidedOutOfOrder(e: Site, w: World, s: string, b: Option<string>)
    requires e.Valid() && Fits(e, w) && s in e.net.order && Wavers(e, w, s)
    ensures var r := Decide(w, s, Transition(Pending, Down), b); EventsOf(r.events, s) != ChangesOf(e, r.rows, s)
  {
    match b
    case Some(blocker) => OutOfOrder(e, w, s, Notice(s, Transition(Pending, Down), SuppressedBy(blocker)));
    case None => OutOfOrder(e, w, s, Notice(s, Transition(Pending, Down), Plain));
  }

  lemma FallenDisorders(e: Site, w: World, s: string, p: string)
    requires Fallen(e, w, s) && p in e.net.order && Edge(e.net.parents, s, p)
    requires Unsettled(w.states[p]) && e.recoveries[p] == 1
    ensures var r := OnTransition(e, w, s, Transition(Pending, Down));
            EventsOf(r.events, s) != ChangesOf(e, r.rows, s)
  {
    FallenUnblocked(e, w, s);
    ConfirmWavers(e, w, s, e.net.parents[s], p);
    var w2 := ConfirmParents(e, w, s, e.net.parents[s]);
    DecidedOutOfOrder(e, w2, s, BlockingParent(e.net, w2.states, s));
  }

  lemma ImpatientDisorders(e: Site, s: string, p: string) returns (w: World)
    requires Wavering(e, s) && p in e.net.order && Edge(e.net.parents, s, p) && e.recoveries[p] == 1
    ensures Reachable(e, w) && EventsOf(w.events, s) != ChangesOf(e, w.rows, s)
  {
    var w0 := Falters(e, s, e.failures[s] - 1);
    NoEdgeToSelf(e.net, s, p);
    FallsNow(e, w0, s);
    FallenDisorders(e, Observe(w0, s, Fail), s, p);
    w := Poll(e, w0, s).0;
    PollReachable(e, w0, s);
  }

  // ----- The theorem -----

  /** Whatever the checks answer, after every run the events of each monitor are its state changes in order. */
  ghost predicate AlwaysInOrder(net: Network, failures: map<string, int>, recoveries: map<string, int>)
    requires ValidSite(net, failures, recoveries)
  {
    forall check: (string, nat) -> Verdict, w: World, m
      | Reachable(Site(net, failures, recoveries, check), w) && m in net.order
      :: EventsOf(w.events, m) == ChangesOf(Site(net, failures, recoveries, check), w.rows, m)
  }

  lemma PatientInOrder(e: Site, w: World, m: string)
    requires e.Valid() && PatientParents(e.net, e.recoveries) && Reachable(e, w) && m in e.net.order
    ensures EventsOf(w.events, m) == ChangesOf(e, w.rows, m)
  {
    var polls :| IsRun(e, polls, w);
    RunOrdered(e, polls);
    assert LinedUp(e, w, map[], m);
    assert EventsOf(w.events, m) + [] == EventsOf(w.events, m);
  }

  function WaveringCheck(s: string, f: int): (string, nat) -> Verdict {
    (x: string, n: nat) => if x != s then Ok else if n < f then Fail else Warn
  }

  lemma ImpatientOutOfOrder(net: Network, failures: map<string, int>, recoveries: map<string, int>, s: string,
                            p: string)
    requires ValidSite(net, failures, recoveries)
    requires s in net.order && p in net.order && Edge(net.parents, s, p) && recoveries[p] == 1
    ensures !AlwaysInOrder(net, failures, recoveries)
  {
    var e := Site(net, failures, recoveries, WaveringCheck(s, failures[s]));
    var w := ImpatientDisorders(e, s, p);
  }

  /**
   * The events of every monitor are recorded in order exactly when no monitor that an enabled
   * one depends on recovers at its first Ok.
   */
  lemma EventsInOrderExactly(net: Network, failures: map<string, int>, recoveries: map<string, int>)
    requires ValidSite(net, failures, recoveries)
    ensures AlwaysInOrder(net, failures, recoveries) <==> PatientParents(net, recoveries)
  {
    if PatientParents(net, recoveries) {
      forall check: (string, nat) -> Verdict, w: World, m
        | Reachable(Site(net, failures, recoveries, check), w) && m in net.order
        ensures EventsOf(w.events, m) == ChangesOf(Site(net, failures, recoveries, check), w.rows, m)
      {
        PatientInOrder(Site(net, failures, recoveries, check), w, m);
      }
    } else {
      var p :| p in net.order && Supports(net, p) && recoveries[p] < 2;
      var s :| s in net.order && Edge(net.parents, s, p);
      ImpatientOutOfOrder(net, failures, recoveries, s, p);
    }
  }
}
