/** Exactly when no alert is lost, run to completion: the sites for which every
    unblocked outage is alerted after every poll, whatever the checks answer. */
module AlertConditions {
  import opened Wrappers
  import opened Graphs
  import opened MonitorStates
  import opened Networks
  import opened Engine
  import opened NoLostAlerts

  // ----- Polls that set nothing else in motion -----

  /** The i-th monitor is no dependent of m that waits for its recovery. */
  ghost predicate Passes(e: Site, w: World, m: string, i: nat)
    requires e.Valid() && Fits(e, w) && i < |e.net.order|
  {
    !Releasable(e, w, e.net.order[i], m)
  }

  lemma PassedOver(e: Site, w: World, m: string, i: nat)
    requires e.Valid() && Fits(e, w) && m in e.net.order && m !in Troubled(e, w) && i < |e.net.order|
    requires Passes(e, w, m, i)
    ensures ReleaseChildren(e, w, m, i) == ReleaseChildren(e, w, m, i + 1)
  {
    assert ReleaseChild(e, w, e.net.order[i], m) == w;
  }

  /** Dependents from position i on that do not wait are passed over. */
  lemma {:induction false} ReleaseSkips(e: Site, w: World, m: string, i: nat, j: nat)
    requires e.Valid() && Fits(e, w) && m in e.net.order && m !in Troubled(e, w) && i <= j <= |e.net.order|
    requires forall k | i <= k < j :: Passes(e, w, m, k)
    ensures ReleaseChildren(e, w, m, i) == ReleaseChildren(e, w, m, j)
    decreases j
  {
    if i < j {
      ReleaseSkips(e, w, m, i, j - 1);
      PassedOver(e, w, m, j - 1);
    }
  }

  lemma NoRelease(e: Site, w: World, m: string)
    requires e.Valid() && Fits(e, w) && m in e.net.order && m !in Troubled(e, w)
    requires forall c | c in e.net.order :: !Releasable(e, w, c, m)
    ensures ReleaseChildren(e, w, m, 0) == w
  {
    assert forall k: nat | k < |e.net.order| :: Passes(e, w, m, k);
    ReleaseSkips(e, w, m, 0, |e.net.order|);
  }

  /** Parents that are settled or not enabled are not polled. */
  lemma {:induction false} NoConfirmation(e: Site, w: World, m: string, ps: seq<string>)
    requires e.Valid() && Fits(e, w) && m in e.net.order
    requires forall p | p in ps :: Edge(e.net.parents, m, p)
    requires forall p | p in ps && p in e.net.order :: !Unsettled(w.states[p])
    ensures ConfirmParents(e, w, m, ps) == w
  {
    if ps != [] {
      if ps[0] in e.net.order {
        assert Settle(e, w, m, ps[0], 0) == w;
      }
      NoConfirmation(e, w, m, ps[1..]);
    }
  }

  /** Every enabled parent of m is confirmed or not failing. */
  ghost predicate ParentsSettled(e: Site, w: World, m: string)
    requires e.Valid() && Fits(e, w)
  {
    forall p | Edge(e.net.parents, m, p) && p in e.net.order :: !Unsettled(w.states[p])
  }

  /** Only the counters, state and alert of m change, as one observation of v says. */
  ghost predicate Observes(e: Site, w: World, m: string, v: Verdict, r: World)
    requires Fits(e, w) && m in e.net.order
  {
    && Fits(e, r) && |r.rows| == |w.rows| + 1
    && (forall x | x in e.net.order && x != m :: r.states[x] == w.states[x])
    && r.states[m].(alertOpen := w.states[m].alertOpen) == After(w.states[m], v)
  }

  lemma NoEdgeToSelf(net: Network, m: string, p: string)
    requires net.Valid() && Edge(net.parents, m, p)
    ensures p != m
  {
  }

  /** A poll that fails or warns, behind a root cause or with settled parents. */
  lemma ProblemPoll(e: Site, w: World, m: string, v: Verdict)
    requires e.Valid() && Fits(e, w) && m in e.net.order && e.check(m, |w.rows|) == v && v != Ok
    requires w.states[m].bad >= 0 && w.states[m].warnish >= 0
    requires Blocked(e.net, Observe(w, m, v).states, m) || ParentsSettled(e, w, m)
    ensures Observes(e, w, m, v, Poll(e, w, m).0)
    ensures Blocked(e.net, Observe(w, m, v).states, m) ==>
      Poll(e, w, m).0.states[m].alertOpen == w.states[m].alertOpen
    ensures !Blocked(e.net, Observe(w, m, v).states, m) && Change(w.states[m], v).Some? ==>
      Poll(e, w, m).0.states[m].alertOpen
    ensures Change(w.states[m], v).None? ==> Poll(e, w, m).0.states[m].alertOpen == w.states[m].alertOpen
  {
    var w1 := Observe(w, m, v);
    ObserveTrouble(e, w, m, v);
    if Change(w.states[m], v).Some? {
      var tr := Change(w.states[m], v).value;
      assert IsProblem(tr.current);
      if !Blocked(e.net, w1.states, m) {
        forall p | p in e.net.parents[m] && p in e.net.order
          ensures !Unsettled(w1.states[p])
        {
          NoEdgeToSelf(e.net, m, p);
        }
        NoConfirmation(e, w1, m, e.net.parents[m]);
      }
      assert OnTransition(e, w1, m, tr) == Decide(w1, m, tr, BlockingParent(e.net, w1.states, m));
    }
  }

  /** A poll that is Ok while no dependent waits to be released. */
  lemma OkPoll(e: Site, w: World, m: string)
    requires e.Valid() && Fits(e, w) && m in e.net.order && e.check(m, |w.rows|) == Ok
    requires forall c | c in e.net.order && c != m :: !IsProblem(w.states[c].state) || !IsAncestor(e.net, m, c)
    requires w.states[m].good >= 0
    ensures Observes(e, w, m, Ok, Poll(e, w, m).0)
    ensures Change(w.states[m], Ok).Some? ==> !Poll(e, w, m).0.states[m].alertOpen
    ensures Change(w.states[m], Ok).None? ==> Poll(e, w, m).0.states[m].alertOpen == w.states[m].alertOpen
  {
    var w1 := Observe(w, m, Ok);
    ObserveTrouble(e, w, m, Ok);
    if Change(w.states[m], Ok).Some? {
      var tr := Change(w.states[m], Ok).value;
      assert tr.current == Up;
      var w2 := Recovered(w1, m, tr);
      NoRelease(e, w2, m);
    }
  }

  // ----- Worlds that runs reach -----

  ghost predicate IsRun(e: Site, polls: seq<string>, w: World) {
    e.Valid() && (forall m | m in polls :: m in e.net.order) && Run(e, Start(e), polls) == w
  }

  ghost predicate Reachable(e: Site, w: World) {
    exists polls :: IsRun(e, polls, w)
  }

  lemma StartReachable(e: Site)
    requires e.Valid()
    ensures Reachable(e, Start(e))
  {
    assert IsRun(e, [], Start(e));
  }

  lemma RunOneMore(e: Site, polls: seq<string>, w: World, m: string)
    requires IsRun(e, polls, w) && Fits(e, w) && m in e.net.order
    ensures IsRun(e, polls + [m], Poll(e, w, m).0)
  {
    assert (polls + [m])[..|polls|] == polls;
  }

  lemma PollReachable(e: Site, w: World, m: string)
    requires e.Valid() && Reachable(e, w) && Fits(e, w) && m in e.net.order
    ensures Reachable(e, Poll(e, w, m).0)
  {
    var polls :| IsRun(e, polls, w);
    RunOneMore(e, polls, w, m);
  }

  // ----- Every monitor answers Ok once -----

  ghost predicate Warm(e: Site, w: World, n: nat)
    requires e.Valid()
  {
    && Fits(e, w) && Reachable(e, w) && |w.rows| == n
    && forall k | 0 <= k < |e.net.order| ::
         var x := e.net.order[k];
         var unpolled := Fresh(e.failures[x], e.recoveries[x]);
         w.states[x] == if k < n then After(unpolled, Ok) else unpolled
  }

  lemma WarmIsCalm(e: Site, w: World, n: nat, x: string)
    requires e.Valid() && Warm(e, w, n) && x in e.net.order
    ensures !IsProblem(w.states[x].state) && w.states[x].bad == w.states[x].warnish == 0 && w.states[x].good >= 0
    ensures n == |e.net.order| ==> w.states[x].good == 1
  {
    var k :| 0 <= k < |e.net.order| && e.net.order[k] == x;
  }

  lemma WarmPoll(e: Site, w: World, n: nat)
    requires e.Valid() && n < |e.net.order| && Warm(e, w, n) && e.check(e.net.order[n], n) == Ok
    ensures Warm(e, Poll(e, w, e.net.order[n]).0, n + 1)
  {
    var m := e.net.order[n];
    forall c | c in e.net.order
      ensures !IsProblem(w.states[c].state) && w.states[c].good >= 0
    {
      WarmIsCalm(e, w, n, c);
    }
    OkPoll(e, w, m);
    PollReachable(e, w, m);
    NextWarm(e, w, n, Poll(e, w, m).0);
  }

  lemma NextWarm(e: Site, w: World, n: nat, r: World)
    requires e.Valid() && n < |e.net.order| && Warm(e, w, n)
    requires Observes(e, w, e.net.order[n], Ok, r) && Reachable(e, r) && !r.states[e.net.order[n]].alertOpen
    ensures Warm(e, r, n + 1)
  {
    forall k | 0 <= k < |e.net.order|
      ensures r.states[e.net.order[k]]
           == if k < n + 1 then After(Fresh(e.failures[e.net.order[k]], e.recoveries[e.net.order[k]]), Ok)
              else Fresh(e.failures[e.net.order[k]], e.recoveries[e.net.order[k]])
    {
      assert k != n ==> e.net.order[k] != e.net.order[n];
    }
  }

  lemma {:induction false} WarmUp(e: Site, n: nat) returns (w: World)
    requires e.Valid() && n <= |e.net.order|
    requires forall x, k | 0 <= k < |e.net.order| :: e.check(x, k) == Ok
    ensures Warm(e, w, n)
    decreases n
  {
    if n == 0 {
      w := Start(e);
      StartReachable(e);
    } else {
      w := WarmUp(e, n - 1);
      WarmPoll(e, w, n - 1);
      w := Poll(e, w, e.net.order[n - 1]).0;
    }
  }

  // ----- One monitor fails until it is down -----

  ghost predicate DownParent(e: Site, w: World, m: string)
    requires Fits(e, w)
  {
    exists p :: Edge(e.net.parents, m, p) && p in e.net.order && w.states[p].state == Down
  }

  /** After j failures of m since w0. */
  ghost predicate Failed(e: Site, w0: World, w: World, m: string, j: nat)
    requires Fits(e, w0) && m in e.net.order
  {
    && Fits(e, w) && Reachable(e, w) && |w.rows| == |w0.rows| + j
    && (forall x | x in e.net.order && x != m :: w.states[x] == w0.states[x])
    && w.states[m].bad == w.states[m].warnish == j
    && (j > 0 ==> w.states[m].good == 0)
    && (j >= e.failures[m] ==> w.states[m].state == Down)
    && (DownParent(e, w0, m) ==> w.states[m].alertOpen == w0.states[m].alertOpen)
  }

  lemma DownParentBlocks(e: Site, w0: World, w: World, m: string)
    requires e.Valid() && Fits(e, w0) && Fits(e, w) && m in e.net.order && DownParent(e, w0, m)
    requires forall x | x in e.net.order && x != m :: w.states[x] == w0.states[x]
    ensures Blocked(e.net, w.states, m)
  {
    var p :| Edge(e.net.parents, m, p) && p in e.net.order && w0.states[p].state == Down;
    NoEdgeToSelf(e.net, m, p);
    BlockedStep(e.net, w.states, m);
  }

  lemma SettledStays(e: Site, w0: World, w: World, m: string)
    requires e.Valid() && Fits(e, w0) && Fits(e, w) && m in e.net.order && ParentsSettled(e, w0, m)
    requires forall x | x in e.net.order && x != m :: w.states[x] == w0.states[x]
    ensures ParentsSettled(e, w, m)
  {
    forall p | Edge(e.net.parents, m, p) && p in e.net.order
      ensures !Unsettled(w.states[p])
    {
      NoEdgeToSelf(e.net, m, p);
    }
  }

  /** The next failure. */
  lemma FailsAgain(e: Site, w0: World, w: World, m: string, j: nat)
    requires e.Valid() && Fits(e, w0) && m in e.net.order && Failed(e, w0, w, m, j)
    requires ParentsSettled(e, w0, m) || DownParent(e, w0, m)
    requires e.check(m, |w.rows|) == Fail
    ensures Failed(e, w0, Poll(e, w, m).0, m, j + 1)
  {
    if DownParent(e, w0, m) {
      DownParentBlocks(e, w0, Observe(w, m, Fail), m);
    } else {
      SettledStays(e, w0, w, m);
    }
    ProblemPoll(e, w, m, Fail);
    PollReachable(e, w, m);
    OneMoreFailed(e, w0, w, m, j, Poll(e, w, m).0);
  }

  lemma OneMoreFailed(e: Site, w0: World, w: World, m: string, j: nat, r: World)
    requires e.Valid() && Fits(e, w0) && m in e.net.order && Failed(e, w0, w, m, j)
    requires Observes(e, w, m, Fail, r) && Reachable(e, r)
    requires DownParent(e, w0, m) ==> r.states[m].alertOpen == w.states[m].alertOpen
    ensures Failed(e, w0, r, m, j + 1)
  {
    assert w.states[m].failuresToDown == e.failures[m];
    assert After(w.states[m], Fail).bad == j + 1;
  }

  lemma {:induction false} FailsInARow(e: Site, w0: World, m: string, j: nat) returns (w: World)
    requires e.Valid() && Fits(e, w0) && Reachable(e, w0) && m in e.net.order
    requires w0.states[m].bad == w0.states[m].warnish == 0
    requires ParentsSettled(e, w0, m) || DownParent(e, w0, m)
    requires forall n | |w0.rows| <= n < |w0.rows| + j :: e.check(m, n) == Fail
    ensures Failed(e, w0, w, m, j)
    decreases j
  {
    w := w0;
    if j > 0 {
      w := FailsInARow(e, w0, m, j - 1);
      FailsAgain(e, w0, w, m, j - 1);
      w := Poll(e, w, m).0;
    }
  }

  // ----- A monitor and its parent are both down -----

  function Scripted(a: nat, b: nat, last: Verdict, n: nat): Verdict {
    if n < a then Ok else if n < b then Fail else last
  }

  /** Everybody answers Ok once, then p fails until it is down, then s behind it; then p answers `last`. */
  ghost predicate Follows(e: Site, s: string, p: string, last: Verdict)
    requires e.Valid() && s in e.net.order && p in e.net.order
  {
    forall x, n: nat :: e.check(x, n) ==
      Scripted(|e.net.order|, |e.net.order| + e.failures[p] + e.failures[s], if x == p then last else Ok, n)
  }

  /** p and s are down, s is not alerted, and nobody else is in trouble. */
  ghost predicate BothDown(e: Site, w: World, s: string, p: string) {
    && e.Valid() && Fits(e, w) && s in e.net.order && p in e.net.order && s != p
    && |w.rows| == |e.net.order| + e.failures[p] + e.failures[s]
    && w.states[p].state == w.states[s].state == Down
    && w.states[p].good == w.states[s].good == 0
    && w.states[p].bad == w.states[p].warnish == e.failures[p]
    && !w.states[s].alertOpen
    && forall x | x in e.net.order && x != p && x != s :: !IsProblem(w.states[x].state) && !Unsettled(w.states[x])
  }

  lemma ReachBothDown(e: Site, s: string, p: string, last: Verdict) returns (w: World)
    requires e.Valid() && s in e.net.order && p in e.net.order && Edge(e.net.parents, s, p)
    requires Follows(e, s, p, last)
    ensures BothDown(e, w, s, p) && Reachable(e, w)
  {
    var n := |e.net.order|;
    NoEdgeToSelf(e.net, s, p);
    var w0 := WarmUp(e, n);
    forall x | x in e.net.order
      ensures !IsProblem(w0.states[x].state) && w0.states[x].bad == w0.states[x].warnish == 0
      ensures !w0.states[x].alertOpen && !Unsettled(w0.states[x])
    {
      WarmIsCalm(e, w0, n, x);
    }
    var w1 := FailsInARow(e, w0, p, e.failures[p]);
    assert DownParent(e, w1, s);
    w := FailsInARow(e, w1, s, e.failures[s]);
  }

  /** Nothing above s is down, so s is not behind a root cause. */
  lemma NothingBlocks(e: Site, w: World, s: string)
    requires e.Valid() && Fits(e, w) && s in e.net.order
    requires forall x | x in e.net.order && x != s :: w.states[x].state != Down
    ensures !Blocked(e.net, w.states, s)
  {
    BlockingExact(e.net, w.states, s);
    if c :| BlockChain(e.net, w.states, s, c) {
      assert c[|c| - 1] in c;
      RankFallsAbove(e.net, s, c);
    }
  }

  ghost predicate Lost(e: Site, w: World, s: string) {
    && e.Valid() && Fits(e, w) && s in e.net.order && Reachable(e, w)
    && w.states[s].state == Down && !w.states[s].alertOpen && !Blocked(e.net, w.states, s)
  }

  lemma ParentNotBehind(net: Network, s: string, p: string)
    requires net.Valid() && Edge(net.parents, s, p)
    ensures !Edge(net.parents, p, s)
  {
  }

  /** The parent gets better without coming up: nobody is released. */
  lemma WarningLoses(e: Site, s: string, p: string) returns (w: World)
    requires e.Valid() && s in e.net.order && p in e.net.order && Edge(e.net.parents, s, p)
    requires Follows(e, s, p, Warn)
    ensures Lost(e, w, s)
  {
    var w0 := ReachBothDown(e, s, p, Warn);
    ParentNotBehind(e.net, s, p);
    forall q | Edge(e.net.parents, p, q) && q in e.net.order
      ensures !Unsettled(w0.states[q])
    {
      NoEdgeToSelf(e.net, p, q);
    }
    ProblemPoll(e, w0, p, Warn);
    PollReachable(e, w0, p);
    w := Poll(e, w0, p).0;
    NothingBlocks(e, w, s);
  }

  /** p has answered Ok j times since both were down, and is not up yet. */
  ghost predicate Recovering(e: Site, w0: World, w: World, s: string, p: string, j: nat)
    requires BothDown(e, w0, s, p)
  {
    && Fits(e, w) && Reachable(e, w) && |w.rows| == |w0.rows| + j
    && (forall x | x in e.net.order && x != p :: w.states[x] == w0.states[x])
    && w.states[p].state == Down && w.states[p].good == j
  }

  lemma OkAgain(e: Site, w0: World, w: World, s: string, p: string, j: nat)
    requires BothDown(e, w0, s, p) && Recovering(e, w0, w, s, p, j)
    requires e.check(p, |w.rows|) == Ok && j + 1 < e.recoveries[p]
    ensures Recovering(e, w0, Poll(e, w, p).0, s, p, j + 1)
  {
    PollReachable(e, w, p);
    assert Change(w.states[p], Ok).None?;
  }

  lemma {:induction false} OksInARow(e: Site, w0: World, s: string, p: string, j: nat) returns (w: World)
    requires BothDown(e, w0, s, p) && Reachable(e, w0) && j < e.recoveries[p]
    requires forall n | |w0.rows| <= n < |w0.rows| + j :: e.check(p, n) == Ok
    ensures Recovering(e, w0, w, s, p, j)
    decreases j
  {
    w := w0;
    if j > 0 {
      w := OksInARow(e, w0, s, p, j - 1);
      OkAgain(e, w0, w, s, p, j - 1);
      w := Poll(e, w, p).0;
    }
  }

  /** Among the dependents of p only s is to be released. */
  ghost predicate OnlyWaits(e: Site, w: World, s: string, p: string) {
    && e.Valid() && Fits(e, w) && s in e.net.order && p in e.net.order && p !in Troubled(e, w)
    && forall x | x in e.net.order && x != s :: !IsProblem(w.states[x].state)
  }

  lemma OthersPass(e: Site, w: World, s: string, p: string, k: nat)
    requires OnlyWaits(e, w, s, p) && k < |e.net.order| && e.net.order[k] != s
    ensures Passes(e, w, p, k)
  {
  }

  lemma OthersSkipped(e: Site, w: World, s: string, p: string, i: nat, j: nat)
    requires OnlyWaits(e, w, s, p) && i <= j <= |e.net.order|
    requires forall k | i <= k < j :: e.net.order[k] != s
    ensures ReleaseChildren(e, w, p, i) == ReleaseChildren(e, w, p, j)
  {
    forall k | i <= k < j
      ensures Passes(e, w, p, k)
    {
      OthersPass(e, w, s, p, k);
    }
    ReleaseSkips(e, w, p, i, j);
  }

  lemma ReleasedUpTo(e: Site, w: World, s: string, p: string, i: nat, w1: World)
    requires OnlyWaits(e, w, s, p) && i < |e.net.order| && e.net.order[i] == s && ReleaseChild(e, w, s, p) == w1
    ensures ReleaseChildren(e, w, p, 0) == ReleaseChildren(e, w1, p, i + 1)
  {
    assert forall k | 0 <= k < i :: e.net.order[k] != s;
    OthersSkipped(e, w, s, p, 0, i);
    NextReleased(e, w, p, i);
  }

  /** When only s waits for p, releasing the dependents of p is releasing s. */
  lemma ReleaseJust(e: Site, w: World, s: string, p: string, w1: World)
    requires OnlyWaits(e, w, s, p) && ReleaseChild(e, w, s, p) == w1 && OnlyWaits(e, w1, s, p)
    ensures ReleaseChildren(e, w, p, 0) == w1
  {
    var i :| 0 <= i < |e.net.order| && e.net.order[i] == s;
    ReleasedUpTo(e, w, s, p, i, w1);
    assert forall k | i < k < |e.net.order| :: e.net.order[k] != s;
    OthersSkipped(e, w1, s, p, i + 1, |e.net.order|);
  }

  /** The one Ok of s is not yet a recovery. */
  lemma ReleaseOnly(e: Site, w: World, s: string, p: string)
    requires OnlyWaits(e, w, s, p) && Edge(e.net.parents, s, p)
    requires w.states[s].state == Down && w.states[s].good == 0 && !w.states[s].alertOpen
    requires e.recoveries[s] >= 2 && e.check(s, |w.rows|) == Ok
    ensures ReleaseChildren(e, w, p, 0) == Observe(w, s, Ok)
  {
    ObserveTrouble(e, w, s, Ok);
    NoEdgeToSelf(e.net, s, p);
    OkIsSlow(e, w, s, p);
    ReleaseJust(e, w, s, p, Observe(w, s, Ok));
  }

  lemma NextReleased(e: Site, w: World, p: string, i: nat)
    requires e.Valid() && Fits(e, w) && p in e.net.order && p !in Troubled(e, w) && i < |e.net.order|
    ensures ReleaseChildren(e, w, p, i) == ReleaseChildren(e, ReleaseChild(e, w, e.net.order[i], p), p, i + 1)
  {
  }

  lemma OkIsSlow(e: Site, w: World, s: string, p: string)
    requires e.Valid() && Fits(e, w) && s in e.net.order && p in e.net.order && p !in Troubled(e, w)
    requires Edge(e.net.parents, s, p)
    requires w.states[s].state == Down && w.states[s].good == 0 && !w.states[s].alertOpen
    requires e.recoveries[s] >= 2 && e.check(s, |w.rows|) == Ok
    ensures ReleaseChild(e, w, s, p) == Observe(w, s, Ok)
  {
    ParentIsAncestor(e.net, p, s);
    assert Change(w.states[s], Ok).None?;
    assert Poll(e, w, s) == (Observe(w, s, Ok), Ok);
  }

  /** p comes up, nobody else has changed, and the release of its dependents is next. */
  ghost predicate ComesUp(e: Site, w: World, w2: World, p: string)
    requires e.Valid() && Fits(e, w) && p in e.net.order
  {
    && Fits(e, w2) && p !in Troubled(e, w2) && w2.states[p].state == Up && |w2.rows| == |w.rows| + 1
    && (forall x | x in e.net.order && x != p :: w2.states[x] == w.states[x])
    && Poll(e, w, p).0 == ReleaseChildren(e, w2, p, 0)
  }

  lemma UpReleases(e: Site, w: World, p: string) returns (w2: World)
    requires e.Valid() && Fits(e, w) && p in e.net.order && e.check(p, |w.rows|) == Ok
    requires w.states[p].state == Down && w.states[p].good == e.recoveries[p] - 1
    ensures ComesUp(e, w, w2, p)
  {
    ObserveTrouble(e, w, p, Ok);
    assert Change(w.states[p], Ok) == Some(Transition(Down, Up));
    w2 := Recovered(Observe(w, p, Ok), p, Transition(Down, Up));
  }

  /** Once p is up, s alone waits for it. */
  lemma OnlyOneWaits(e: Site, w0: World, w: World, s: string, p: string, w2: World)
    requires BothDown(e, w0, s, p) && Recovering(e, w0, w, s, p, e.recoveries[p] - 1)
    requires ComesUp(e, w, w2, p)
    ensures OnlyWaits(e, w2, s, p) && w2.states[s] == w0.states[s]
  {
    forall x | x in e.net.order && x != s
      ensures !IsProblem(w2.states[x].state)
    {
      assert x != p ==> w2.states[x] == w0.states[x];
    }
  }

  lemma OkKeepsDown(e: Site, w: World, s: string, p: string)
    requires OnlyWaits(e, w, s, p) && w.states[s].state == Down && w.states[s].good == 0 && e.recoveries[s] >= 2
    ensures var r := Observe(w, s, Ok);
      && Fits(e, r) && r.states[s].state == Down && r.states[s].alertOpen == w.states[s].alertOpen
      && !Blocked(e.net, r.states, s)
  {
    NothingBlocks(e, Observe(w, s, Ok), s);
  }

  lemma ReleasedIsLost(e: Site, w: World, s: string, p: string, r: World)
    requires OnlyWaits(e, w, s, p) && Edge(e.net.parents, s, p)
    requires w.states[s].state == Down && w.states[s].good == 0 && !w.states[s].alertOpen
    requires e.recoveries[s] >= 2 && e.check(s, |w.rows|) == Ok
    requires r == ReleaseChildren(e, w, p, 0) && Reachable(e, r)
    ensures Lost(e, r, s)
  {
    ReleaseOnly(e, w, s, p);
    OkKeepsDown(e, w, s, p);
  }

  /** The parent comes up, and the fresh poll of the dependent answers Ok for the first time. */
  lemma LastOk(e: Site, w0: World, w: World, s: string, p: string)
    requires BothDown(e, w0, s, p) && Recovering(e, w0, w, s, p, e.recoveries[p] - 1)
    requires Edge(e.net.parents, s, p) && e.recoveries[s] >= 2
    requires e.check(p, |w.rows|) == Ok && e.check(s, |w.rows| + 1) == Ok
    ensures Lost(e, Poll(e, w, p).0, s)
  {
    var w2 := UpReleases(e, w, p);
    OnlyOneWaits(e, w0, w, s, p, w2);
    PollReachable(e, w, p);
    ReleasedIsLost(e, w2, s, p, Poll(e, w, p).0);
  }

  lemma SlowDependentLoses(e: Site, s: string, p: string) returns (w: World)
    requires e.Valid() && s in e.net.order && p in e.net.order && Edge(e.net.parents, s, p)
    requires Follows(e, s, p, Ok) && e.recoveries[s] >= 2
    ensures Lost(e, w, s)
  {
    var w0 := ReachBothDown(e, s, p, Ok);
    w := OksInARow(e, w0, s, p, e.recoveries[p] - 1);
    LastOk(e, w0, w, s, p);
    w := Poll(e, w, p).0;
  }

  // ----- The theorems -----

  ghost predicate ValidSite(net: Network, failures: map<string, int>, recoveries: map<string, int>) {
    && net.Valid()
    && forall s | s in net.order :: s in failures && s in recoveries && failures[s] >= 1 && recoveries[s] >= 1
  }

  /** What the check of each enabled monitor may answer: Ok and Fail, perhaps Warn. */
  ghost predicate Kinds(net: Network, kinds: map<string, set<Verdict>>) {
    forall s | s in net.order :: s in kinds && {Ok, Fail} <= kinds[s]
  }

  ghost predicate Answers(net: Network, kinds: map<string, set<Verdict>>, check: (string, nat) -> Verdict)
    requires Kinds(net, kinds)
  {
    forall s, n | s in net.order :: check(s, n) in kinds[s]
  }

  /** Whatever the checks answer, after every top-level poll of every run every unblocked outage is alerted. */
  ghost predicate NeverLoses(net: Network, failures: map<string, int>, recoveries: map<string, int>,
                             kinds: map<string, set<Verdict>>)
    requires ValidSite(net, failures, recoveries) && Kinds(net, kinds)
  {
    forall check: (string, nat) -> Verdict, w: World
      | Answers(net, kinds, check) && Reachable(Site(net, failures, recoveries, check), w)
      :: Fits(Site(net, failures, recoveries, check), w) && Alerted(Site(net, failures, recoveries, check), w, {})
  }

  /** No monitor that an enabled one depends on may answer Warn. */
  ghost predicate PlainParents(net: Network, kinds: map<string, set<Verdict>>)
    requires Kinds(net, kinds)
  {
    forall p | p in net.order && Supports(net, p) :: Warn !in kinds[p]
  }

  lemma LostIsNotAlerted(e: Site, w: World, s: string)
    requires Lost(e, w, s)
    ensures !Alerted(e, w, {})
  {
  }

  function Script(a: nat, b: nat, p: string, last: Verdict): (string, nat) -> Verdict {
    (x: string, n: nat) => Scripted(a, b, if x == p then last else Ok, n)
  }

  lemma DecisiveIsSafe(e: Site, w: World)
    requires Decisive(e) && Reachable(e, w)
    ensures Fits(e, w) && Alerted(e, w, {})
  {
    var polls :| IsRun(e, polls, w);
    NoLostAlert(e, polls);
  }

  /** The site on which p and s are down and then p answers `last`. */
  function ScriptedSite(net: Network, failures: map<string, int>, recoveries: map<string, int>,
                        s: string, p: string, last: Verdict): Site
    requires s in failures && p in failures && failures[s] >= 1 && failures[p] >= 1
  {
    Site(net, failures, recoveries, Script(|net.order|, |net.order| + failures[p] + failures[s], p, last))
  }

  lemma SlowLoses(net: Network, failures: map<string, int>, recoveries: map<string, int>,
                  kinds: map<string, set<Verdict>>, s: string, p: string)
    requires ValidSite(net, failures, recoveries) && Kinds(net, kinds)
    requires s in net.order && p in net.order && Edge(net.parents, s, p) && recoveries[s] != 1
    ensures !NeverLoses(net, failures, recoveries, kinds)
  {
    var e := ScriptedSite(net, failures, recoveries, s, p, Ok);
    var w := SlowDependentLoses(e, s, p);
    LostIsNotAlerted(e, w, s);
    assert Answers(net, kinds, e.check);
  }

  lemma WarnLoses(net: Network, failures: map<string, int>, recoveries: map<string, int>,
                  kinds: map<string, set<Verdict>>, s: string, p: string)
    requires ValidSite(net, failures, recoveries) && Kinds(net, kinds)
    requires s in net.order && p in net.order && Edge(net.parents, s, p) && Warn in kinds[p]
    ensures !NeverLoses(net, failures, recoveries, kinds)
  {
    var e := ScriptedSite(net, failures, recoveries, s, p, Warn);
    var w := WarningLoses(e, s, p);
    LostIsNotAlerted(e, w, s);
    assert Answers(net, kinds, e.check);
  }

  lemma PlainPromptIsSafe(net: Network, failures: map<string, int>, recoveries: map<string, int>,
                          kinds: map<string, set<Verdict>>)
    requires ValidSite(net, failures, recoveries) && Kinds(net, kinds)
    requires PromptDependents(net, recoveries) && PlainParents(net, kinds)
    ensures NeverLoses(net, failures, recoveries, kinds)
  {
    forall check: (string, nat) -> Verdict, w: World
      | Answers(net, kinds, check) && Reachable(Site(net, failures, recoveries, check), w)
      ensures Fits(Site(net, failures, recoveries, check), w) && Alerted(Site(net, failures, recoveries, check), w, {})
    {
      var e := Site(net, failures, recoveries, check);
      assert forall p, n | p in net.order && Supports(net, p) :: check(p, n) in kinds[p];
      DecisiveIsSafe(e, w);
    }
  }

  /**
   * No alert is lost exactly when every monitor that depends on another recovers at
   * its first Ok, and no monitor that another depends on may answer Warn.
   */
  lemma NoLostAlertExactly(net: Network, failures: map<string, int>, recoveries: map<string, int>,
                           kinds: map<string, set<Verdict>>)
    requires ValidSite(net, failures, recoveries) && Kinds(net, kinds)
    ensures NeverLoses(net, failures, recoveries, kinds)
            <==> PromptDependents(net, recoveries) && PlainParents(net, kinds)
  {
    if !PromptDependents(net, recoveries) {
      var s, p :| s in net.order && p in net.order && Edge(net.parents, s, p) && recoveries[s] != 1;
      SlowLoses(net, failures, recoveries, kinds, s, p);
    } else if !PlainParents(net, kinds) {
      var p :| p in net.order && Supports(net, p) && Warn in kinds[p];
      var s :| s in net.order && Edge(net.parents, s, p);
      WarnLoses(net, failures, recoveries, kinds, s, p);
    } else {
      PlainPromptIsSafe(net, failures, recoveries, kinds);
    }
  }

  /** No enabled monitor depends on an enabled one. */
  ghost predicate NoDependents(net: Network) {
    forall s, p | s in net.order && p in net.order :: !Edge(net.parents, s, p)
  }

  /** When every check may answer Warn, that leaves the networks without dependencies. */
  lemma NoLostAlertWithWarnings(net: Network, failures: map<string, int>, recoveries: map<string, int>)
    requires ValidSite(net, failures, recoveries)
    ensures NeverLoses(net, failures, recoveries, map s | s in net.order :: {Ok, Warn, Fail}) <==> NoDependents(net)
  {
    var kinds: map<string, set<Verdict>> := map s | s in net.order :: {Ok, Warn, Fail};
    NoLostAlertExactly(net, failures, recoveries, kinds);
    if PlainParents(net, kinds) {
      forall s, p | s in net.order && p in net.order
        ensures !Edge(net.parents, s, p)
      {
        assert Edge(net.parents, s, p) ==> Supports(net, p);
      }
    }
  }
}
