/** What every atomic action of the engine keeps, a whole poll keeps. */
module EngineInduction {
  import opened Graphs
  import opened MonitorStates
  import opened Networks
  import opened Engine

  /** A problem alert for `m` may be sent in `w`. */
  ghost predicate MayOpen(e: Site, w: World, m: string, n: Notice)
    requires e.Valid() && Fits(e, w) && m in e.net.order
  {
    n.slug == m && IsProblem(n.change.current) && !Blocked(e.net, w.states, m)
  }

  ghost predicate MayClose(e: Site, w: World, m: string, n: Notice)
    requires e.Valid() && Fits(e, w) && m in e.net.order
  {
    n.slug == m && n.change.current == Up && w.states[m].state == Up && w.states[m].alertOpen
  }

  ghost predicate KeptByObserve(e: Site, inv: World -> bool) {
    forall w, m, v | e.Valid() && Fits(e, w) && m in e.net.order && inv(w) :: inv(Observe(w, m, v))
  }

  ghost predicate KeptByOpen(e: Site, inv: World -> bool) {
    forall w, m, n | e.Valid() && Fits(e, w) && m in e.net.order && inv(w) && MayOpen(e, w, m, n) ::
      inv(Alert(w, m, true, n))
  }

  ghost predicate KeptByClose(e: Site, inv: World -> bool) {
    forall w, m, n | e.Valid() && Fits(e, w) && m in e.net.order && inv(w) && MayClose(e, w, m, n) ::
      inv(Alert(w, m, false, n))
  }

  ghost predicate KeptByLog(e: Site, inv: World -> bool) {
    forall w, n | e.Valid() && Fits(e, w) && inv(w) :: inv(Log(w, n))
  }

  ghost predicate Kept(e: Site, inv: World -> bool) {
    KeptByObserve(e, inv) && KeptByOpen(e, inv) && KeptByClose(e, inv) && KeptByLog(e, inv)
  }

  lemma {:induction false} PollKeeps(e: Site, w: World, m: string, inv: World -> bool)
    requires e.Valid() && Fits(e, w) && m in e.net.order && Kept(e, inv) && inv(w)
    ensures inv(Poll(e, w, m).0)
    decreases Troubled(e, w) + {m}, Rank(e.net.parents, m), 3, 0
  {
    var v := e.check(m, |w.rows|);
    ObserveTrouble(e, w, m, v);
    if Change(w.states[m], v).Some? {
      TransitionKeeps(e, Observe(w, m, v), m, Change(w.states[m], v).value, inv);
    }
  }

  lemma {:induction false} TransitionKeeps(e: Site, w: World, m: string, tr: Transition, inv: World -> bool)
    requires e.Valid() && Fits(e, w) && m in e.net.order && Kept(e, inv) && inv(w)
    requires IsProblem(tr.current) || (tr.current == Up && m !in Troubled(e, w))
    ensures inv(OnTransition(e, w, m, tr))
    decreases Troubled(e, w) + {m}, Rank(e.net.parents, m), 2, 0
  {
    if IsProblem(tr.current) {
      if !Blocked(e.net, w.states, m) && e.net.parents[m] != [] {
        ConfirmKeeps(e, w, m, e.net.parents[m], inv);
        DecideKeeps(e, ConfirmParents(e, w, m, e.net.parents[m]), m, tr, inv);
      } else {
        DecideKeeps(e, w, m, tr, inv);
      }
    } else {
      AlertFits(e, w, m, false, Notice(m, tr, Plain));
      ReleaseKeeps(e, Recovered(w, m, tr), m, 0, inv);
    }
  }

  lemma DecideKeeps(e: Site, w: World, m: string, tr: Transition, inv: World -> bool)
    requires e.Valid() && Fits(e, w) && m in e.net.order && Kept(e, inv) && inv(w)
    requires IsProblem(tr.current)
    ensures inv(Decide(w, m, tr, BlockingParent(e.net, w.states, m)))
  {
    AlertFits(e, w, m, true, Notice(m, tr, Plain));
  }

  lemma {:induction false} ConfirmKeeps(e: Site, w: World, m: string, ps: seq<string>, inv: World -> bool)
    requires e.Valid() && Fits(e, w) && m in e.net.order && Kept(e, inv) && inv(w)
    requires forall p | p in ps :: Edge(e.net.parents, m, p)
    ensures inv(ConfirmParents(e, w, m, ps))
    decreases Troubled(e, w) + {m}, Rank(e.net.parents, m), 1, |ps|
  {
    if ps != [] {
      if ps[0] !in e.net.order {
        ConfirmKeeps(e, w, m, ps[1..], inv);
      } else {
        SettleKeeps(e, w, m, ps[0], 0, inv);
        ConfirmKeeps(e, Settle(e, w, m, ps[0], 0), m, ps[1..], inv);
      }
    }
  }

  lemma {:induction false} SettleKeeps(e: Site, w: World, m: string, p: string, attempts: nat, inv: World -> bool)
    requires e.Valid() && Fits(e, w) && m in e.net.order && p in e.net.order && Kept(e, inv) && inv(w)
    requires Edge(e.net.parents, m, p) && attempts <= e.failures[p]
    ensures inv(Settle(e, w, m, p, attempts))
    decreases Troubled(e, w) + {m}, Rank(e.net.parents, m), 0, 0
  {
    forall x | Fits(e, x) && inv(x) && Unsettled(x.states[p]) && Troubled(e, x) <= Troubled(e, w)
      ensures inv(Poll(e, x, p).0)
    {
      TurnTroubles(e, x, p);
      PollKeeps(e, x, p, inv);
    }
    SettleByTurns(e, w, m, p, attempts, Troubled(e, w), inv);
  }

  lemma {:induction false} ReleaseKeeps(e: Site, w: World, m: string, i: nat, inv: World -> bool)
    requires e.Valid() && Fits(e, w) && m in e.net.order && m !in Troubled(e, w) && Kept(e, inv) && inv(w)
    requires i <= |e.net.order|
    ensures inv(ReleaseChildren(e, w, m, i))
    decreases Troubled(e, w) + {m}, Rank(e.net.parents, m), 1, |e.net.order| - i
  {
    if i < |e.net.order| {
      ReleaseChildKeeps(e, w, e.net.order[i], m, inv);
      ReleaseKeeps(e, ReleaseChild(e, w, e.net.order[i], m), m, i + 1, inv);
    }
  }

  lemma {:induction false} ReleaseChildKeeps(e: Site, w: World, c: string, m: string, inv: World -> bool)
    requires e.Valid() && Fits(e, w) && m in e.net.order && c in e.net.order
    requires m !in Troubled(e, w) && Kept(e, inv) && inv(w)
    ensures inv(ReleaseChild(e, w, c, m))
    decreases Troubled(e, w) + {m}, Rank(e.net.parents, m), 0, 0
  {
    if Releasable(e, w, c, m) {
      PollKeeps(e, w, c, inv);
      var (w1, v) := Poll(e, w, c);
      if StillAlone(e, w1, c, v) {
        AlertFits(e, w1, c, true, Notice(c, Transition(w1.states[c].state, w1.states[c].state), StillAfter(m)));
      }
    }
  }

  // ----- The inner loop of _confirm_parents, from what one poll keeps -----

  /** A poll of an unsettled p, one of the attempts, keeps `inv`. */
  ghost predicate TurnKeeps(e: Site, p: string, inv: (nat, World) -> bool)
    requires e.Valid() && p in e.net.order
  {
    forall a: nat, x {:trigger inv(a, x), Poll(e, x, p)} |
      Fits(e, x) && inv(a, x) && Unsettled(x.states[p]) && a < e.failures[p] :: inv(a + 1, Poll(e, x, p).0)
  }

  /** From the a-th attempt on: the loop ends after attempt `last`. */
  lemma {:induction false} SettleTurns(e: Site, w: World, m: string, p: string, a: nat, inv: (nat, World) -> bool)
    returns (last: nat)
    requires e.Valid() && Fits(e, w) && m in e.net.order && p in e.net.order && Edge(e.net.parents, m, p)
    requires TurnKeeps(e, p, inv) && inv(a, w) && a <= e.failures[p]
    ensures inv(last, Settle(e, w, m, p, a))
    ensures !(Unsettled(Settle(e, w, m, p, a).states[p]) && last < e.failures[p])
    decreases e.failures[p] - a
  {
    if a == e.failures[p] || !Unsettled(w.states[p]) {
      last := a;
      SettleEnd(e, w, m, p, a);
    } else {
      last := SettleTurns(e, Poll(e, w, p).0, m, p, a + 1, inv);
      SettleStep(e, w, m, p, a);
    }
  }

  /** In worlds with no more trouble than `bound`, a poll of an unsettled p keeps `inv`. */
  ghost predicate TurnKeepsWithin(e: Site, p: string, bound: set<string>, inv: World -> bool)
    requires e.Valid() && p in e.net.order
  {
    forall x | Fits(e, x) && inv(x) && Unsettled(x.states[p]) && Troubled(e, x) <= bound :: inv(Poll(e, x, p).0)
  }

  lemma TurnsStayWithin(e: Site, p: string, bound: set<string>, inv: World -> bool)
    requires e.Valid() && p in e.net.order && TurnKeepsWithin(e, p, bound, inv)
    ensures TurnKeeps(e, p, (_, x) => inv(x) && Troubled(e, x) <= bound)
  {
    forall x | Fits(e, x) && inv(x) && Unsettled(x.states[p]) && Troubled(e, x) <= bound
      ensures inv(Poll(e, x, p).0) && Troubled(e, Poll(e, x, p).0) <= bound
    {
      TurnTroubles(e, x, p);
    }
  }

  lemma SettleByTurns(e: Site, w: World, m: string, p: string, attempts: nat, bound: set<string>, inv: World -> bool)
    requires e.Valid() && Fits(e, w) && m in e.net.order && p in e.net.order && Edge(e.net.parents, m, p)
    requires TurnKeepsWithin(e, p, bound, inv) && inv(w) && Troubled(e, w) <= bound && attempts <= e.failures[p]
    ensures inv(Settle(e, w, m, p, attempts))
  {
    TurnsStayWithin(e, p, bound, inv);
    var _ := SettleTurns(e, w, m, p, attempts, (_, x) => inv(x) && Troubled(e, x) <= bound);
  }

  // ----- The loop of _release_children, likewise -----

  ghost predicate ReleaseKept(e: Site, m: string, inv: World -> bool)
    requires e.Valid() && m in e.net.order
  {
    forall x, c {:trigger ReleaseChild(e, x, c, m)} |
      Fits(e, x) && m !in Troubled(e, x) && c in e.net.order && inv(x) :: inv(ReleaseChild(e, x, c, m))
  }

  lemma {:induction false} ReleaseTurns(e: Site, w: World, m: string, i: nat, inv: World -> bool)
    requires e.Valid() && Fits(e, w) && m in e.net.order && m !in Troubled(e, w) && i <= |e.net.order|
    requires ReleaseKept(e, m, inv) && inv(w)
    ensures inv(ReleaseChildren(e, w, m, i))
    decreases |e.net.order| - i
  {
    if i < |e.net.order| {
      ReleaseTurns(e, ReleaseChild(e, w, e.net.order[i], m), m, i + 1, inv);
    }
  }

  // ----- Accounts: what a transition that is seen but not settled leaves open -----

  /** Seeing a transition of a monitor opens an item of the account, and deciding about it closes the item. */
  ghost predicate Accounts<O(!new)>(e: Site, acct: (World, O) -> bool, add: (O, string, Transition) -> O) {
    && (forall w, o | acct(w, o) :: Fits(e, w))
    && (forall w, o, m, v | acct(w, o) && m in e.net.order && m in w.states && Change(w.states[m], v).None? ::
          acct(Observe(w, m, v), o))
    && (forall w, o, m, v | acct(w, o) && m in e.net.order && m in w.states && Change(w.states[m], v).Some? ::
          acct(Observe(w, m, v), add(o, m, Change(w.states[m], v).value)))
    && (forall w, o, m, tr, b | acct(w, add(o, m, tr)) && m in e.net.order && m in w.states && IsProblem(tr.current) ::
          acct(Decide(w, m, tr, b), o))
    && (forall w, o, m, tr | acct(w, add(o, m, tr)) && m in e.net.order && m in w.states && tr.current == Up ::
          acct(Recovered(w, m, tr), o))
    && (forall w, o, c, m | acct(w, o) && c in e.net.order && c in w.states && IsProblem(w.states[c].state) ::
          acct(StillFailing(w, c, m), o))
  }

  lemma {:induction false} PollAccounts<O(!new)>(e: Site, w: World, m: string, acct: (World, O) -> bool,
                                                 add: (O, string, Transition) -> O, o: O)
    requires e.Valid() && Fits(e, w) && m in e.net.order && Accounts(e, acct, add) && acct(w, o)
    ensures acct(Poll(e, w, m).0, o)
    decreases Troubled(e, w) + {m}, Rank(e.net.parents, m), 3, 0
  {
    var v := e.check(m, |w.rows|);
    ObserveTrouble(e, w, m, v);
    if Change(w.states[m], v).Some? {
      TransitionAccounts(e, Observe(w, m, v), m, Change(w.states[m], v).value, acct, add, o);
    }
  }

  lemma {:induction false} TransitionAccounts<O(!new)>(e: Site, w: World, m: string, tr: Transition,
                                                       acct: (World, O) -> bool,
                                                       add: (O, string, Transition) -> O, o: O)
    requires e.Valid() && Fits(e, w) && m in e.net.order && Accounts(e, acct, add) && acct(w, add(o, m, tr))
    requires IsProblem(tr.current) || (tr.current == Up && m !in Troubled(e, w))
    ensures acct(OnTransition(e, w, m, tr), o)
    decreases Troubled(e, w) + {m}, Rank(e.net.parents, m), 2, 0
  {
    if IsProblem(tr.current) {
      if !Blocked(e.net, w.states, m) && e.net.parents[m] != [] {
        ConfirmAccounts(e, w, m, e.net.parents[m], acct, add, add(o, m, tr));
      }
    } else {
      ReleaseAccounts(e, Recovered(w, m, tr), m, acct, add, o);
    }
  }

  lemma {:induction false} ConfirmAccounts<O(!new)>(e: Site, w: World, m: string, ps: seq<string>,
                                                    acct: (World, O) -> bool, add: (O, string, Transition) -> O, o: O)
    requires e.Valid() && Fits(e, w) && m in e.net.order && Accounts(e, acct, add) && acct(w, o)
    requires forall p | p in ps :: Edge(e.net.parents, m, p)
    ensures acct(ConfirmParents(e, w, m, ps), o)
    decreases Troubled(e, w) + {m}, Rank(e.net.parents, m), 1, |ps|
  {
    if ps != [] {
      if ps[0] !in e.net.order {
        ConfirmAccounts(e, w, m, ps[1..], acct, add, o);
      } else {
        forall x | Fits(e, x) && acct(x, o) && Unsettled(x.states[ps[0]]) && Troubled(e, x) <= Troubled(e, w)
          ensures acct(Poll(e, x, ps[0]).0, o)
        {
          TurnTroubles(e, x, ps[0]);
          PollAccounts(e, x, ps[0], acct, add, o);
        }
        SettleByTurns(e, w, m, ps[0], 0, Troubled(e, w), x => acct(x, o));
        ConfirmAccounts(e, Settle(e, w, m, ps[0], 0), m, ps[1..], acct, add, o);
      }
    }
  }

  lemma {:induction false} ReleaseAccounts<O(!new)>(e: Site, w: World, m: string, acct: (World, O) -> bool,
                                                    add: (O, string, Transition) -> O, o: O)
    requires e.Valid() && Fits(e, w) && m in e.net.order && m !in Troubled(e, w)
    requires Accounts(e, acct, add) && acct(w, o)
    ensures acct(ReleaseChildren(e, w, m, 0), o)
    decreases Troubled(e, w) + {m}, Rank(e.net.parents, m), 1, 0
  {
    var bound := Troubled(e, w);
    forall x, c | Fits(e, x) && m !in Troubled(e, x) && c in e.net.order && acct(x, o) && Troubled(e, x) <= bound
      ensures acct(ReleaseChild(e, x, c, m), o) && Troubled(e, ReleaseChild(e, x, c, m)) <= bound
    {
      ReleaseChildAccounts(e, x, c, m, acct, add, o);
    }
    ReleaseTurns(e, w, m, 0, x => acct(x, o) && Troubled(e, x) <= bound);
  }

  lemma {:induction false} ReleaseChildAccounts<O(!new)>(e: Site, w: World, c: string, m: string,
                                                         acct: (World, O) -> bool, add: (O, string, Transition) -> O,
                                                         o: O)
    requires e.Valid() && Fits(e, w) && m in e.net.order && c in e.net.order && m !in Troubled(e, w)
    requires Accounts(e, acct, add) && acct(w, o)
    ensures acct(ReleaseChild(e, w, c, m), o)
    decreases Troubled(e, w) + {m}, Rank(e.net.parents, m), 0, 0
  {
    if Releasable(e, w, c, m) {
      PollAccounts(e, w, c, acct, add, o);
    }
  }
}
