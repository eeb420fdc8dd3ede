/** A server behind a switch: the smallest site on which an alert is lost or
    sent twice, as instances of `AlertConditions` and by the log itself. */
module Counterexamples {
  import opened Wrappers
  import opened Graphs
  import opened MonitorStates
  import opened Networks
  import opened Engine
  import opened AlertConditions

  const NET := Network(["switch", "server"],
                       map["switch" := [], "server" := ["switch"]],
                       map["switch" := "switch", "server" := "server"])

  function Pair(serverRecoveries: int, check: (string, nat) -> Verdict): Site {
    Site(NET, map["switch" := 1, "server" := 1], map["switch" := 1, "server" := serverRecoveries], check)
  }

  lemma PairValid(u: int, check: (string, nat) -> Verdict)
    requires u >= 1
    ensures Pair(u, check).Valid()
  {
    assert Ranked(NET.parents, map["switch" := 0, "server" := 1]);
  }

  lemma PairBlocked(st: States)
    requires NET.Valid() && Covers(NET, st)
    ensures !Blocked(NET, st, "switch")
    ensures Blocked(NET, st, "server") <==> st["switch"].state == Down
  {
    BlockedStep(NET, st, "switch");
    BlockedStep(NET, st, "server");
    assert Edge(NET.parents, "server", "switch") && "switch" in NET.order;
  }

  lemma PairAncestors(a: string)
    ensures !IsAncestor(NET, a, "switch")
    ensures IsAncestor(NET, "switch", "server")
  {
    ParentIsAncestor(NET, "switch", "server");
  }

  /** A blocker that gets better without coming up releases nobody: when the switch
      answers Warn after an outage of both, the server is never alerted. */
  lemma WarningLosesAlert() returns (w: World)
    ensures Lost(Pair(1, Script(2, 4, "switch", Warn)), w, "server")
  {
    var check := Script(2, 4, "switch", Warn);
    PairValid(1, check);
    w := WarningLoses(Pair(1, check), "server", "switch");
  }

  /** When two Oks make a recovery, a server that answers Ok once while its switch
      recovers is left down and not alerted, although no check warns. */
  lemma SlowRecoveryLosesAlert() returns (w: World)
    ensures Lost(Pair(2, Script(2, 4, "switch", Ok)), w, "server")
    ensures forall s, n :: Pair(2, Script(2, 4, "switch", Ok)).check(s, n) != Warn
  {
    var check := Script(2, 4, "switch", Ok);
    PairValid(2, check);
    assert forall s, n: nat :: check(s, n) == Scripted(2, 4, Ok, n);
    w := SlowDependentLoses(Pair(2, check), "server", "switch");
  }

  // ----- One outage, two alerts -----

  /** One failure is an outage for both, and neither has been polled. */
  ghost predicate Fragile(e: Site, u: int) {
    && e.Valid() && e.net == NET && e.failures["switch"] == e.failures["server"] == 1
    && e.recoveries["switch"] == 1 && e.recoveries["server"] == u
  }

  lemma StartOf(e: Site, u: int)
    requires Fragile(e, u)
    ensures var w := Start(e);
            && Fits(e, w) && w.rows == [] && w.sent == []
            && w.states["switch"] == Fresh(1, 1) && w.states["server"] == Fresh(1, u)
  {
  }

  /** Releasing the dependents of the switch is releasing the server. */
  lemma ReleaseServer(e: Site, w: World)
    requires e.Valid() && e.net == NET && Fits(e, w) && "switch" !in Troubled(e, w)
    ensures ReleaseChildren(e, w, "switch", 0) == ReleaseChild(e, w, "server", "switch")
  {
    PairAncestors("switch");
    var w1 := ReleaseChild(e, w, "server", "switch");
    assert ReleaseChild(e, w, "switch", "switch") == w;
    assert ReleaseChildren(e, w, "switch", 1) == ReleaseChildren(e, w1, "switch", 2);
  }

  lemma SwitchComesUp(e: Site, w: World)
    requires e.Valid() && e.net == NET && Fits(e, w)
    requires e.failures["switch"] == e.recoveries["switch"] == 1
    requires e.check("switch", |w.rows|) == Ok && w.states["switch"].state != Up && w.states["switch"].good == 0
    ensures var st := w.states["switch"];
            var w1 := Recovered(Observe(w, "switch", Ok), "switch", Transition(st.state, Up));
            && Fits(e, w1) && w1.states["switch"].state == Up && w1.states["switch"].bad == 0
            && w1.states["server"] == w.states["server"] && |w1.rows| == |w.rows| + 1
            && Poll(e, w, "switch").0 == ReleaseChild(e, w1, "server", "switch")
  {
    ObserveTrouble(e, w, "switch", Ok);
    var tr := Transition(w.states["switch"].state, Up);
    assert Change(w.states["switch"], Ok) == Some(tr);
    ReleaseServer(e, Recovered(Observe(w, "switch", Ok), "switch", tr));
  }

  lemma ServerStaysDown(e: Site, w: World)
    requires e.Valid() && e.net == NET && Fits(e, w) && e.failures["server"] == 1
    requires e.check("server", |w.rows|) == Fail && w.states["server"].state == Down && w.states["server"].bad >= 0
    ensures Poll(e, w, "server") == (Observe(w, "server", Fail), Fail)
    ensures Observe(w, "server", Fail).states["server"].state == Down
  {
  }

  function OkSecond(s: string, n: nat): Verdict {
    if n == 1 then Ok else Fail
  }

  /** The first poll of the server fails while its switch has never been polled. */
  lemma ServerFailsFirst(e: Site, w: World)
    requires Fragile(e, 1) && Fits(e, w) && e.check("server", |w.rows|) == Fail
    requires w.states["switch"] == Fresh(1, 1) && w.states["server"] == Fresh(1, 1)
    ensures var w1 := Observe(w, "server", Fail);
            && Fits(e, w1) && |w1.rows| == |w.rows| + 1 && w1.sent == w.sent
            && w1.states["switch"] == Fresh(1, 1) && w1.states["server"] == Status(1, 1, Down, 1, 1, 0, false)
            && Poll(e, w, "server").0 == OnTransition(e, w1, "server", Transition(Pending, Down))
  {
    assert Change(w.states["server"], Fail) == Some(Transition(Pending, Down));
  }

  lemma TwoAlertsRun(e: Site, w: World)
    requires Fragile(e, 1) && Fits(e, w) && w.sent == []
    requires e.check("server", |w.rows|) == Fail
    requires e.check("switch", |w.rows| + 1) == Ok && e.check("server", |w.rows| + 2) == Fail
    requires w.states["switch"] == Fresh(1, 1) && w.states["server"] == Fresh(1, 1)
    ensures Poll(e, w, "server").0.sent ==
            [Notice("server", Transition(Down, Down), StillAfter("switch")),
             Notice("server", Transition(Pending, Down), Plain)]
  {
    ServerFailsFirst(e, w);
    var w1 := Observe(w, "server", Fail);
    AlertedByRelease(e, w1);
    ConfirmedThenAlerted(e, w1, Transition(Pending, Down));
  }

  lemma TwoAlertsFromStart(e: Site)
    requires Fragile(e, 1)
    requires e.check("server", 0) == Fail && e.check("switch", 1) == Ok && e.check("server", 2) == Fail
    ensures Poll(e, Start(e), "server").0.sent ==
            [Notice("server", Transition(Down, Down), StillAfter("switch")),
             Notice("server", Transition(Pending, Down), Plain)]
  {
    StartOf(e, 1);
    TwoAlertsRun(e, Start(e));
  }

  /** Confirming a parent that turns out to be up alerts the child twice: the
      recovery of the parent does, and then the transition that asked for it. */
  lemma OneOutageTwoAlerts()
    ensures Fragile(Pair(1, OkSecond), 1)
    ensures Poll(Pair(1, OkSecond), Start(Pair(1, OkSecond)), "server").0.sent ==
            [Notice("server", Transition(Down, Down), StillAfter("switch")),
             Notice("server", Transition(Pending, Down), Plain)]
  {
    PairValid(1, OkSecond);
    TwoAlertsFromStart(Pair(1, OkSecond));
  }

  lemma ConfirmedThenAlerted(e: Site, w: World, tr: Transition)
    requires e.Valid() && e.net == NET && Fits(e, w) && e.failures["switch"] == 1 && tr.current == Down
    requires w.states["switch"].state == Pending && w.states["switch"].good == 0
    requires Poll(e, w, "switch").0.states["switch"].state == Up && Poll(e, w, "switch").0.states["switch"].bad == 0
    ensures OnTransition(e, w, "server", tr) == Decide(Poll(e, w, "switch").0, "server", tr, None)
  {
    var w1 := Poll(e, w, "switch").0;
    PairBlocked(w.states);
    PairBlocked(w1.states);
    assert Edge(NET.parents, "server", "switch");
    assert Settle(e, w, "server", "switch", 0) == Settle(e, w1, "server", "switch", 1) == w1;
    assert ["switch"][1..] == [];
    assert ConfirmParents(e, w, "server", ["switch"]) == ConfirmParents(e, w1, "server", []) == w1;
  }

  lemma AlertedByRelease(e: Site, w: World)
    requires e.Valid() && e.net == NET && Fits(e, w)
    requires e.failures["switch"] == e.recoveries["switch"] == e.failures["server"] == 1
    requires e.check("switch", |w.rows|) == Ok && e.check("server", |w.rows| + 1) == Fail
    requires w.states["switch"].state == Pending && w.states["switch"].good == 0 && !w.states["switch"].alertOpen
    requires w.states["server"].state == Down && w.states["server"].bad >= 0 && !w.states["server"].alertOpen
    ensures var r := Poll(e, w, "switch").0;
            && r.states["switch"].state == Up && r.states["switch"].bad == 0
            && r.sent == w.sent + [Notice("server", Transition(Down, Down), StillAfter("switch"))]
  {
    SwitchComesUp(e, w);
    var w1 := Recovered(Observe(w, "switch", Ok), "switch", Transition(Pending, Up));
    PairAncestors("switch");
    ServerStaysDown(e, w1);
    PairBlocked(Observe(w1, "server", Fail).states);
  }
}
