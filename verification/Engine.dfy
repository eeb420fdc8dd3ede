/** The alerting engine, one poll run to completion (watchpost/scheduler.py).

    The functions below are the specification the class `Scheduler` is proved
    against.  A check is an arbitrary oracle: its answer may depend on the
    monitor and on how many rows were recorded before. */
module Engine {
  import opened Wrappers
  import opened Graphs
  import opened MonitorStates
  import opened Networks

  datatype Row = Row(slug: string, verdict: Verdict)

  datatype Note = Plain | SuppressedBy(blocker: string) | StillAfter(recovered: string)

  datatype Notice = Notice(slug: string, change: Transition, note: Note)

  /** `sent` and `events` are the alert log and the event table, `rows` the
      results table. */
  datatype World = World(states: States, rows: seq<Row>, sent: seq<Notice>, events: seq<Notice>)

  datatype Site = Site(net: Network, failures: map<string, int>, recoveries: map<string, int>,
                       check: (string, nat) -> Verdict) {
    ghost predicate Valid() {
      && net.Valid()
      && forall s | s in net.order :: s in failures && s in recoveries && failures[s] >= 1 && recoveries[s] >= 1
    }
  }

  ghost predicate Fits(e: Site, w: World) {
    forall s | s in e.net.order ::
      && s in w.states && s in e.failures && s in e.recoveries
      && w.states[s].failuresToDown == e.failures[s]
      && w.states[s].recoveriesToUp == e.recoveries[s]
  }

  function Start(e: Site): World
    requires e.Valid()
  {
    World(map s | s in e.net.order :: Fresh(e.failures[s], e.recoveries[s]), [], [], [])
  }

  // ------------------------------------------------------------------ primitives

  function Observe(w: World, m: string, v: Verdict): World
    requires m in w.states
  {
    w.(states := w.states[m := After(w.states[m], v)], rows := w.rows + [Row(m, v)])
  }

  /** Open or close the alert of `m` and send `n`. */
  function Alert(w: World, m: string, open: bool, n: Notice): World
    requires m in w.states
  {
    w.(states := w.states[m := w.states[m].(alertOpen := open)], sent := w.sent + [n])
  }

  lemma AlertFits(e: Site, w: World, m: string, open: bool, n: Notice)
    requires Fits(e, w) && m in w.states
    ensures Fits(e, Alert(w, m, open, n))
  {
  }

  function Log(w: World, n: Notice): World {
    w.(events := w.events + [n])
  }

  /** A problem transition is suppressed behind `blocker` or alerted. */
  function Decide(w: World, m: string, tr: Transition, blocker: Option<string>): World
    requires m in w.states
  {
    match blocker
    case Some(b) => Log(w, Notice(m, tr, SuppressedBy(b)))
    case None => Log(Alert(w, m, true, Notice(m, tr, Plain)), Notice(m, tr, Plain))
  }

  /** An up transition is alerted only if the problem was. */
  function Recovered(w: World, m: string, tr: Transition): World
    requires m in w.states
  {
    var n := Notice(m, tr, Plain);
    Log(if w.states[m].alertOpen then Alert(w, m, false, n) else w, n)
  }

  function StillFailing(w: World, c: string, m: string): World
    requires c in w.states
  {
    var n := Notice(c, Transition(w.states[c].state, w.states[c].state), StillAfter(m));
    Log(Alert(w, c, true, n), n)
  }

  /** Failing but not confirmed down, or never polled. */
  predicate Unsettled(s: Status) {
    s.state != Down && (s.bad > 0 || (s.state == Pending && s.good == 0))
  }

  /** A dependent that a recovery makes the scheduler poll again. */
  ghost predicate Releasable(e: Site, w: World, c: string, m: string)
    requires c in w.states
  {
    IsAncestor(e.net, m, c) && IsProblem(w.states[c].state) && !w.states[c].alertOpen
  }

  ghost predicate StillAlone(e: Site, w: World, c: string, v: Verdict)
    requires e.Valid() && Fits(e, w) && c in e.net.order
  {
    && v != Ok && IsProblem(w.states[c].state) && !w.states[c].alertOpen
    && BlockingParent(e.net, w.states, c).None?
  }

  // ----------------------------------------------------------------- termination

  /** The monitors that are not up with no failure counted. */
  ghost function Troubled(e: Site, w: World): set<string> {
    set s | s in e.net.order && s in w.states && !(w.states[s].state == Up && w.states[s].bad == 0)
  }

  lemma ObserveTrouble(e: Site, w: World, m: string, v: Verdict)
    requires e.Valid() && Fits(e, w) && m in e.net.order
    ensures Fits(e, Observe(w, m, v))
    ensures Troubled(e, Observe(w, m, v)) <= Troubled(e, w) + {m}
    ensures After(w.states[m], v).state == Up && w.states[m].state != Up ==>
              m !in Troubled(e, Observe(w, m, v))
  {
  }

  ghost function Poll(e: Site, w: World, m: string): (r: (World, Verdict))
    requires e.Valid() && Fits(e, w) && m in e.net.order
    ensures Fits(e, r.0) && Troubled(e, r.0) <= Troubled(e, w) + {m}
    decreases Troubled(e, w) + {m}, Rank(e.net.parents, m), 3, 0
  {
    ObserveTrouble(e, w, m, e.check(m, |w.rows|));
    var v := e.check(m, |w.rows|);
    match Change(w.states[m], v)
    case None => (Observe(w, m, v), v)
    case Some(tr) => (OnTransition(e, Observe(w, m, v), m, tr), v)
  }

  ghost function OnTransition(e: Site, w: World, m: string, tr: Transition): (r: World)
    requires e.Valid() && Fits(e, w) && m in e.net.order
    requires !IsProblem(tr.current) ==> m !in Troubled(e, w)
    ensures Fits(e, r) && Troubled(e, r) <= Troubled(e, w)
    decreases Troubled(e, w) + {m}, Rank(e.net.parents, m), 2, 0
  {
    if IsProblem(tr.current) then
      var blocker := BlockingParent(e.net, w.states, m);
      if blocker.None? && e.net.parents[m] != [] then
        var w1 := ConfirmParents(e, w, m, e.net.parents[m]);
        Decide(w1, m, tr, BlockingParent(e.net, w1.states, m))
      else
        Decide(w, m, tr, blocker)
    else
      ReleaseChildren(e, Recovered(w, m, tr), m, 0)
  }

  ghost function ConfirmParents(e: Site, w: World, m: string, ps: seq<string>): (r: World)
    requires e.Valid() && Fits(e, w) && m in e.net.order
    requires forall p | p in ps :: Edge(e.net.parents, m, p)
    ensures Fits(e, r) && Troubled(e, r) <= Troubled(e, w)
    decreases Troubled(e, w) + {m}, Rank(e.net.parents, m), 1, |ps|
  {
    if ps == [] then w
    else if ps[0] !in e.net.order then ConfirmParents(e, w, m, ps[1..])
    else ConfirmParents(e, Settle(e, w, m, ps[0], 0), m, ps[1..])
  }

  /** The inner loop of _confirm_parents. */
  ghost function Settle(e: Site, w: World, m: string, p: string, attempts: nat): (r: World)
    requires e.Valid() && Fits(e, w) && m in e.net.order && p in e.net.order
    requires Edge(e.net.parents, m, p)
    ensures Fits(e, r) && Troubled(e, r) <= Troubled(e, w)
    decreases Troubled(e, w) + {m}, Rank(e.net.parents, m), 0,
              if attempts < e.failures[p] then e.failures[p] - attempts else 0
  {
    if Unsettled(w.states[p]) && attempts < e.failures[p] then
      Settle(e, Poll(e, w, p).0, m, p, attempts + 1)
    else w
  }

  /** A monitor that is unsettled is troubled, so that its poll troubles nobody else. */
  lemma TurnTroubles(e: Site, w: World, p: string)
    requires e.Valid() && Fits(e, w) && p in e.net.order && Unsettled(w.states[p])
    ensures p in Troubled(e, w) && Troubled(e, Poll(e, w, p).0) <= Troubled(e, w)
  {
    assert p in Troubled(e, w);
  }

  /** One turn of that loop, and its end. */
  lemma SettleStep(e: Site, w: World, m: string, p: string, attempts: nat)
    requires e.Valid() && Fits(e, w) && m in e.net.order && p in e.net.order && Edge(e.net.parents, m, p)
    requires Unsettled(w.states[p]) && attempts < e.failures[p]
    ensures Settle(e, w, m, p, attempts) == Settle(e, Poll(e, w, p).0, m, p, attempts + 1)
  {
  }

  lemma SettleEnd(e: Site, w: World, m: string, p: string, attempts: nat)
    requires e.Valid() && Fits(e, w) && m in e.net.order && p in e.net.order && Edge(e.net.parents, m, p)
    requires !(Unsettled(w.states[p]) && attempts < e.failures[p])
    ensures Settle(e, w, m, p, attempts) == w
  {
  }

  /** The loop of _release_children from the `i`-th monitor on. */
  ghost function ReleaseChildren(e: Site, w: World, m: string, i: nat): (r: World)
    requires e.Valid() && Fits(e, w) && m in e.net.order && i <= |e.net.order|
    requires m !in Troubled(e, w)
    ensures Fits(e, r) && Troubled(e, r) <= Troubled(e, w)
    decreases Troubled(e, w) + {m}, Rank(e.net.parents, m), 1, |e.net.order| - i
  {
    if i == |e.net.order| then w
    else ReleaseChildren(e, ReleaseChild(e, w, e.net.order[i], m), m, i + 1)
  }

  /** The body of the loop of _release_children: poll a dependent afresh and
      alert it if it still fails on its own. */
  ghost function ReleaseChild(e: Site, w: World, c: string, m: string): (r: World)
    requires e.Valid() && Fits(e, w) && m in e.net.order && c in e.net.order
    requires m !in Troubled(e, w)
    ensures Fits(e, r) && Troubled(e, r) <= Troubled(e, w)
    decreases Troubled(e, w) + {m}, Rank(e.net.parents, m), 0, 0
  {
    if Releasable(e, w, c, m) then
      var (w1, v) := Poll(e, w, c);
      if StillAlone(e, w1, c, v) then StillFailing(w1, c, m) else w1
    else w
  }

  /** A sequence of top-level polls. */
  ghost function Run(e: Site, w: World, polls: seq<string>): (r: World)
    requires e.Valid() && Fits(e, w) && forall m | m in polls :: m in e.net.order
    ensures Fits(e, r)
  {
    if polls == [] then w
    else Poll(e, Run(e, w, polls[..|polls| - 1]), polls[|polls| - 1]).0
  }
}
