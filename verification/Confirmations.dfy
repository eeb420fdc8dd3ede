/** What confirming the parents of a failing monitor achieves (run to
    completion): the number of attempts suffices, and a problem behind a failing
    parent is suppressed. */
module Confirmations {
  import opened Graphs
  import opened MonitorStates
  import opened Networks
  import opened Engine
  import opened EngineInduction

  /** Enough failures in a row always mean down. */
  ghost predicate Firm(e: Site, w: World) {
    Fits(e, w) && forall s | s in e.net.order :: FirmStatus(w.states[s])
  }

  predicate FirmStatus(s: Status) {
    0 <= s.bad <= s.warnish && s.good >= 0 && (s.bad >= s.failuresToDown ==> s.state == Down)
  }

  /** A monitor that is down stays down as long as it only fails: the failures in
      a row that make it down are there or one short, or no warning is among the
      results since its last Ok. */
  predicate Steady(s: Status) {
    s.state == Down ==> s.bad + 1 >= s.failuresToDown || s.warnish == s.bad
  }

  function Fails(n: nat): seq<Verdict> {
    seq(n, _ => Fail)
  }

  lemma FailsOneMore(s: Status, n: nat)
    ensures Replay(s, Fails(n + 1)) == After(Replay(s, Fails(n)), Fail)
  {
    assert Fails(n + 1)[..n] == Fails(n);
  }

  /** While neither failures nor bad results suffice, n failures change the counters only. */
  lemma {:induction false} FailsAddUp(s: Status, n: nat)
    requires FirmStatus(s) && s.recoveriesToUp >= 1
    ensures var r := Replay(s, Fails(n));
      && r.bad == s.bad + n && r.warnish == s.warnish + n
      && (s.state == Down && (n == 0 || s.warnish + n < s.failuresToDown) ==> r.state == Down)
      && (s.state == Down && Steady(s) ==> r.state == Down)
  {
    if n > 0 {
      FailsAddUp(s, n - 1);
      FailsOneMore(s, n - 1);
    }
  }

  /** Steady is exact: a monitor that is down stays down through any number of failures just then. */
  lemma SteadyExactly(s: Status)
    requires FirmStatus(s) && s.recoveriesToUp >= 1 && s.state == Down
    ensures Steady(s) <==> forall n: nat :: Replay(s, Fails(n)).state == Down
  {
    if Steady(s) {
      forall n: nat
        ensures Replay(s, Fails(n)).state == Down
      {
        FailsAddUp(s, n);
      }
    } else {
      var n: nat := if s.warnish >= s.failuresToDown then 0 else s.failuresToDown - s.warnish - 1;
      FailsAddUp(s, n);
      FailsOneMore(s, n);
      assert Replay(s, Fails(n + 1)).state == Warning;
    }
  }

  lemma FirmAfter(s: Status, v: Verdict)
    requires s.failuresToDown >= 1 && s.recoveriesToUp >= 1 && FirmStatus(s)
    ensures FirmStatus(After(s, v))
  {
  }

  /** Down, or about to be polled until it is. */
  predicate Suspect(s: Status) {
    Unsettled(s) || s.state == Down
  }

  ghost predicate Extends(rows: seq<Row>, rows': seq<Row>) {
    |rows| <= |rows'| && forall i | 0 <= i < |rows| :: rows'[i] == rows[i]
  }

  /** Every row recorded for `p` from position `from` on is a failure. */
  ghost predicate FailsOnly(rows: seq<Row>, from: nat, p: string) {
    forall i | from <= i < |rows| && rows[i].slug == p :: rows[i].verdict == Fail
  }

  /** Since `rows`, when the status of `p` was `s`, its failures have only added up. */
  ghost predicate Failing(e: Site, rows: seq<Row>, p: string, s: Status, w: World) {
    && Firm(e, w) && p in e.net.order && Extends(rows, w.rows)
    && (FailsOnly(w.rows, |rows|, p) ==>
          && w.states[p].bad >= s.bad && Suspect(w.states[p]) && Steady(w.states[p])
          && (s.state == Down ==> w.states[p].state == Down))
  }

  lemma FailingObserve(e: Site, rows: seq<Row>, p: string, s: Status, w: World, m: string, v: Verdict)
    requires e.Valid() && Failing(e, rows, p, s, w) && m in e.net.order
    ensures Failing(e, rows, p, s, Observe(w, m, v))
  {
    var w' := Observe(w, m, v);
    FirmAfter(w.states[m], v);
    if FailsOnly(w'.rows, |rows|, p) {
      assert forall i | 0 <= i < |w.rows| :: w'.rows[i] == w.rows[i];
      assert w'.rows[|w.rows|] == Row(m, v);
    }
  }

  lemma FailingAlert(e: Site, rows: seq<Row>, p: string, s: Status, w: World, m: string, open: bool, n: Notice)
    requires e.Valid() && Failing(e, rows, p, s, w) && m in e.net.order
    ensures Failing(e, rows, p, s, Alert(w, m, open, n))
  {
  }

  lemma FailingKept(e: Site, rows: seq<Row>, p: string, s: Status)
    requires e.Valid()
    ensures Kept(e, w => Failing(e, rows, p, s, w))
  {
    forall w, m, v | m in e.net.order && Failing(e, rows, p, s, w)
      ensures Failing(e, rows, p, s, Observe(w, m, v))
    {
      FailingObserve(e, rows, p, s, w, m, v);
    }
    forall w, m, open, n | m in e.net.order && Failing(e, rows, p, s, w)
      ensures Failing(e, rows, p, s, Alert(w, m, open, n))
    {
      FailingAlert(e, rows, p, s, w, m, open, n);
    }
  }

  lemma PollFailing(e: Site, w: World, m: string)
    requires e.Valid() && Firm(e, w) && m in e.net.order
    ensures Firm(e, Poll(e, w, m).0) && Extends(w.rows, Poll(e, w, m).0.rows)
    ensures FailsOnly(Poll(e, w, m).0.rows, |w.rows|, m) ==>
              Poll(e, w, m).0.states[m].bad > w.states[m].bad && Suspect(Poll(e, w, m).0.states[m])
  {
    var v := e.check(m, |w.rows|);
    var w1 := Observe(w, m, v);
    ObserveTrouble(e, w, m, v);
    FirmAfter(w.states[m], v);
    assert w1.rows[|w.rows|] == Row(m, v);
    FirmObserve(e, w, m, v);
    var w2 := Poll(e, w, m).0;
    if Change(w.states[m], v).Some? {
      var tr := Change(w.states[m], v).value;
      FirmKept(e, w1.rows);
      TransitionKeeps(e, w1, m, tr, x => FirmSince(e, w1.rows, x));
      if v == Fail {
        FailingKept(e, w1.rows, m, w1.states[m]);
        TransitionKeeps(e, w1, m, tr, x => Failing(e, w1.rows, m, w1.states[m], x));
      }
    }
    assert w2.rows[|w.rows|] == w1.rows[|w.rows|];
  }

  ghost predicate FirmSince(e: Site, rows: seq<Row>, w: World) {
    Firm(e, w) && Extends(rows, w.rows)
  }

  lemma FirmObserve(e: Site, w: World, m: string, v: Verdict)
    requires e.Valid() && Firm(e, w) && m in e.net.order
    ensures Firm(e, Observe(w, m, v))
  {
    FirmAfter(w.states[m], v);
  }

  lemma FirmKept(e: Site, rows: seq<Row>)
    requires e.Valid()
    ensures Kept(e, w => FirmSince(e, rows, w))
  {
    forall w, m, v | m in e.net.order && FirmSince(e, rows, w)
      ensures FirmSince(e, rows, Observe(w, m, v))
    {
      FirmObserve(e, w, m, v);
    }
  }

  // ------------------------------------------------------- confirming a parent

  lemma {:induction false} SettleFirm(e: Site, w: World, m: string, p: string, attempts: nat)
    requires e.Valid() && Firm(e, w) && m in e.net.order && p in e.net.order && Edge(e.net.parents, m, p)
    requires attempts <= e.failures[p]
    ensures FirmSince(e, w.rows, Settle(e, w, m, p, attempts))
  {
    FirmKept(e, w.rows);
    SettleKeeps(e, w, m, p, attempts, x => FirmSince(e, w.rows, x));
  }

  lemma FailsOnlyParts(rows: seq<Row>, rows': seq<Row>, from: nat, p: string)
    requires Extends(rows, rows') && from <= |rows| && FailsOnly(rows', from, p)
    ensures FailsOnly(rows, from, p) && FailsOnly(rows', |rows|, p)
  {
    assert forall i | 0 <= i < |rows| :: rows'[i] == rows[i];
  }

  lemma FailingTurn(e: Site, w: World, m: string, p: string, attempts: nat)
    requires e.Valid() && Firm(e, w) && m in e.net.order && p in e.net.order && Edge(e.net.parents, m, p)
    requires Suspect(w.states[p]) && attempts <= w.states[p].bad
    requires FailsOnly(Settle(e, w, m, p, attempts).rows, |w.rows|, p)
    requires Unsettled(w.states[p]) && attempts < e.failures[p]
    ensures var w1 := Poll(e, w, p).0;
      && Firm(e, w1) && Suspect(w1.states[p]) && attempts + 1 <= w1.states[p].bad
      && Settle(e, w, m, p, attempts) == Settle(e, w1, m, p, attempts + 1)
      && FailsOnly(Settle(e, w1, m, p, attempts + 1).rows, |w1.rows|, p)
  {
    var w1 := Poll(e, w, p).0;
    PollFailing(e, w, p);
    SettleStep(e, w, m, p, attempts);
    SettleFirm(e, w1, m, p, attempts + 1);
    FailsOnlyParts(w1.rows, Settle(e, w1, m, p, attempts + 1).rows, |w.rows|, p);
  }

  /** `failures_to_down` attempts suffice: a parent found failing but
      unconfirmed, or never polled, that fails every poll until its loop ends
      has been confirmed down. */
  lemma {:induction false} SettleConfirms(e: Site, w: World, m: string, p: string, attempts: nat)
    requires e.Valid() && Firm(e, w) && m in e.net.order && p in e.net.order && Edge(e.net.parents, m, p)
    requires Suspect(w.states[p]) && attempts <= w.states[p].bad
    requires FailsOnly(Settle(e, w, m, p, attempts).rows, |w.rows|, p)
    ensures Settle(e, w, m, p, attempts).states[p].state == Down
    decreases e.failures[p] - attempts
  {
    if Unsettled(w.states[p]) && attempts < e.failures[p] {
      FailingTurn(e, w, m, p, attempts);
      SettleConfirms(e, Poll(e, w, p).0, m, p, attempts + 1);
    } else {
      SettleEnd(e, w, m, p, attempts);
    }
  }

  // ------------------------------------------------------- suppressing an alert

  lemma {:induction false} ConfirmFindsDown(e: Site, w: World, m: string, ps: seq<string>, p: string)
    requires e.Valid() && Firm(e, w) && m in e.net.order && p in e.net.order
    requires forall q | q in ps :: Edge(e.net.parents, m, q)
    requires Steady(w.states[p]) && (w.states[p].state == Down || (p in ps && Suspect(w.states[p])))
    requires FailsOnly(ConfirmParents(e, w, m, ps).rows, |w.rows|, p)
    ensures ConfirmParents(e, w, m, ps).states[p].state == Down
    decreases |ps|
  {
    if ps != [] {
      if ps[0] !in e.net.order {
        ConfirmFindsDown(e, w, m, ps[1..], p);
      } else {
        var w1 := Settle(e, w, m, ps[0], 0);
        FailingKept(e, w.rows, p, w.states[p]);
        SettleKeeps(e, w, m, ps[0], 0, x => Failing(e, w.rows, p, w.states[p], x));
        FirmKept(e, w1.rows);
        ConfirmKeeps(e, w1, m, ps[1..], x => FirmSince(e, w1.rows, x));
        FailsOnlyParts(w1.rows, ConfirmParents(e, w1, m, ps[1..]).rows, |w.rows|, p);
        if ps[0] == p {
          SettleConfirms(e, w, m, p, 0);
        }
        ConfirmFindsDown(e, w1, m, ps[1..], p);
      }
    }
  }

  /** The promise of dependencies: a problem behind a parent that is down, or
      that fails every poll once it is asked, is logged as suppressed and nothing
      is sent for it. */
  lemma OutageSuppressesAlert(e: Site, w: World, m: string, tr: Transition, p: string)
    requires e.Valid() && Firm(e, w) && m in e.net.order && p in e.net.order
    requires IsProblem(tr.current) && Edge(e.net.parents, m, p)
    requires Suspect(w.states[p]) && Steady(w.states[p])
    requires FailsOnly(OnTransition(e, w, m, tr).rows, |w.rows|, p)
    ensures var confirmed := if Blocked(e.net, w.states, m) then w else ConfirmParents(e, w, m, e.net.parents[m]);
      && Fits(e, confirmed)
      && exists b :: NamesCause(e.net, confirmed.states, m, b)
                     && OnTransition(e, w, m, tr) == Log(confirmed, Notice(m, tr, SuppressedBy(b)))
  {
    if !Blocked(e.net, w.states, m) {
      var w1 := ConfirmParents(e, w, m, e.net.parents[m]);
      assert OnTransition(e, w, m, tr).rows == w1.rows;
      ConfirmFindsDown(e, w, m, e.net.parents[m], p);
      BlockedStep(e.net, w1.states, m);
      CauseNamed(e, w1, m);
    } else {
      CauseNamed(e, w, m);
    }
  }

  lemma CauseNamed(e: Site, w: World, m: string)
    requires e.Valid() && Fits(e, w) && m in e.net.order && Blocked(e.net, w.states, m)
    ensures NamesCause(e.net, w.states, m, BlockingParent(e.net, w.states, m).value)
  {
    RootCauseIsFirst(e.net, w.states, m, BlockingParent(e.net, w.states, m).value);
  }

  /** Every run from the start reaches worlds the results above speak of. */
  lemma {:induction false} RunsAreFirm(e: Site, polls: seq<string>)
    requires e.Valid() && forall m | m in polls :: m in e.net.order
    ensures Firm(e, Run(e, Start(e), polls))
  {
    if polls != [] {
      RunsAreFirm(e, polls[..|polls| - 1]);
      PollFailing(e, Run(e, Start(e), polls[..|polls| - 1]), polls[|polls| - 1]);
    }
  }
}
