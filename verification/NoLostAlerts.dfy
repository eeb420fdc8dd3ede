/** Run to completion, no alert is lost: after any sequence of top-level polls
    every monitor that is down and not behind a root cause has its alert open.
    This holds when one Ok is a recovery for every monitor that depends on
    another, and no monitor that others depend on answers Warn. */
module NoLostAlerts {
  import opened Graphs
  import opened MonitorStates
  import opened Networks
  import opened Engine
  import opened EngineInduction

  /** One Ok is a recovery for every enabled monitor with an enabled parent. */
  ghost predicate PromptDependents(net: Network, recoveries: map<string, int>)
    requires forall s | s in net.order :: s in recoveries
  {
    forall s, p | s in net.order && p in net.order && Edge(net.parents, s, p) :: recoveries[s] == 1
  }

  /** Some enabled monitor depends on p. */
  ghost predicate Supports(net: Network, p: string) {
    exists s :: s in net.order && Edge(net.parents, s, p)
  }

  ghost predicate Prompt(e: Site) {
    e.Valid() && PromptDependents(e.net, e.recoveries)
  }

  ghost predicate Decisive(e: Site) {
    && Prompt(e)
    && forall p, n | p in e.net.order && Supports(e.net, p) :: e.check(p, n) != Warn
  }

  /** What a check of m may answer. */
  ghost predicate Allowed(e: Site, m: string, v: Verdict) {
    Supports(e.net, m) ==> v != Warn
  }

  lemma DescendantIsPrompt(e: Site, a: string, s: string)
    requires Prompt(e) && s in e.net.order && IsAncestor(e.net, a, s)
    ensures e.recoveries[s] == 1
  {
    var c :| AncestorChain(e.net, s, c) && c[|c| - 1] == a;
    assert c[0] in c;
  }

  /** Where no warnings come, the two failure counters agree. */
  ghost predicate Regular(e: Site, w: World)
    requires Fits(e, w)
  {
    forall s | s in e.net.order ::
      && w.states[s].good >= 0
      && (Supports(e.net, s) ==> w.states[s].warnish == w.states[s].bad && w.states[s].state != Warning)
  }

  /** Every unblocked outage outside `excused` is alerted. */
  ghost predicate Alerted(e: Site, w: World, excused: set<string>)
    requires e.Valid() && Fits(e, w)
  {
    forall x | x in e.net.order && x !in excused ::
      IsProblem(w.states[x].state) && !Blocked(e.net, w.states, x) ==> w.states[x].alertOpen
  }

  ghost predicate Sound(e: Site, w: World, excused: set<string>)
    requires e.Valid() && Fits(e, w)
  {
    Regular(e, w) && Alerted(e, w, excused)
  }

  ghost predicate SameExcept(net: Network, st: States, st': States, m: string)
    requires Covers(net, st) && Covers(net, st')
  {
    forall s | s in net.order && s != m :: st[s].state == st'[s].state
  }

  /** A monitor coming up unblocks nothing but its descendants. */
  lemma UpUnblocksDescendants(net: Network, st: States, st': States, m: string, x: string)
    requires net.Valid() && Covers(net, st) && Covers(net, st') && x in net.order
    requires SameExcept(net, st, st', m)
    requires Blocked(net, st, x) && !Blocked(net, st', x)
    ensures IsAncestor(net, m, x)
  {
    BlockingExact(net, st, x);
    BlockingExact(net, st', x);
    var c :| BlockChain(net, st, x, c);
    if m in c {
      var k :| 0 <= k < |c| && c[k] == m;
      BlockChainIsAncestral(net, st, x, c, k);
    } else {
      assert BlockChain(net, st', x, c);
    }
  }

  /** A monitor that is no nearer to being up unblocks nothing. */
  lemma DownKeepsBlocked(net: Network, st: States, st': States, m: string, x: string)
    requires net.Valid() && Covers(net, st) && Covers(net, st') && x in net.order && m in net.order
    requires SameExcept(net, st, st', m)
    requires st'[m].state == Down || st'[m].state == st[m].state
    requires Blocked(net, st, x)
    ensures Blocked(net, st', x)
  {
    BlockingExact(net, st, x);
    BlockingExact(net, st', x);
    var c :| BlockChain(net, st, x, c);
    assert BlockChain(net, st', x, c);
  }

  /** What nobody depends on blocks nobody. */
  lemma LeafKeepsBlocked(net: Network, st: States, st': States, m: string, x: string)
    requires net.Valid() && Covers(net, st) && Covers(net, st') && x in net.order && !Supports(net, m)
    requires SameExcept(net, st, st', m)
    requires Blocked(net, st, x)
    ensures Blocked(net, st', x)
  {
    BlockingExact(net, st, x);
    BlockingExact(net, st', x);
    var c :| BlockChain(net, st, x, c);
    forall k | 0 <= k < |c|
      ensures c[k] != m
    {
      assert c[k] in c;
      if k > 0 {
        assert c[k - 1] in c && Edge(net.parents, c[k - 1], c[k]);
      }
    }
    assert BlockChain(net, st', x, c);
  }

  ghost function Descendants(e: Site, m: string): set<string> {
    set c | c in e.net.order && IsAncestor(e.net, m, c)
  }

  // --------------------------------------------------------------- atomic steps

  lemma ObserveRegular(e: Site, w: World, m: string, v: Verdict)
    requires Prompt(e) && Fits(e, w) && m in e.net.order && Regular(e, w) && Allowed(e, m, v)
    ensures Fits(e, Observe(w, m, v)) && Regular(e, Observe(w, m, v))
  {
  }

  lemma ObserveQuiet(e: Site, w: World, m: string, v: Verdict, excused: set<string>)
    requires Prompt(e) && Fits(e, w) && m in e.net.order && Sound(e, w, excused) && Allowed(e, m, v)
    requires Change(w.states[m], v).None?
    ensures Fits(e, Observe(w, m, v)) && Sound(e, Observe(w, m, v), excused)
  {
    ObserveRegular(e, w, m, v);
    var w' := Observe(w, m, v);
    forall x | x in e.net.order && Blocked(e.net, w.states, x)
      ensures Blocked(e.net, w'.states, x)
    {
      DownKeepsBlocked(e.net, w.states, w'.states, m, x);
    }
  }

  lemma ObserveProblem(e: Site, w: World, m: string, v: Verdict, excused: set<string>)
    requires Prompt(e) && Fits(e, w) && m in e.net.order && Sound(e, w, excused) && Allowed(e, m, v)
    requires IsProblem(After(w.states[m], v).state)
    ensures Fits(e, Observe(w, m, v)) && Sound(e, Observe(w, m, v), excused + {m})
  {
    ObserveRegular(e, w, m, v);
    var w' := Observe(w, m, v);
    forall x | x in e.net.order && Blocked(e.net, w.states, x)
      ensures Blocked(e.net, w'.states, x)
    {
      if Supports(e.net, m) {
        DownKeepsBlocked(e.net, w.states, w'.states, m, x);
      } else {
        LeafKeepsBlocked(e.net, w.states, w'.states, m, x);
      }
    }
  }

  lemma ObserveUp(e: Site, w: World, m: string, v: Verdict, excused: set<string>)
    requires Prompt(e) && Fits(e, w) && m in e.net.order && Sound(e, w, excused) && Allowed(e, m, v)
    requires After(w.states[m], v).state == Up
    ensures Fits(e, Observe(w, m, v)) && Sound(e, Observe(w, m, v), excused + Descendants(e, m))
  {
    ObserveRegular(e, w, m, v);
    var w' := Observe(w, m, v);
    forall x | x in e.net.order && Blocked(e.net, w.states, x) && !Blocked(e.net, w'.states, x)
      ensures x in Descendants(e, m)
    {
      UpUnblocksDescendants(e.net, w.states, w'.states, m, x);
    }
  }

  /** Opening an alert, or closing that of a monitor that is not down, keeps the rest. */
  lemma AlertSound(e: Site, w: World, m: string, open: bool, n: Notice, excused: set<string>)
    requires Prompt(e) && Fits(e, w) && m in e.net.order && Sound(e, w, excused)
    requires open || !IsProblem(w.states[m].state)
    ensures Fits(e, Alert(w, m, open, n)) && Sound(e, Alert(w, m, open, n), excused)
    ensures open ==> Sound(e, Alert(w, m, open, n), excused - {m})
  {
    var w' := Alert(w, m, open, n);
    forall x | x in e.net.order && Blocked(e.net, w.states, x)
      ensures Blocked(e.net, w'.states, x)
    {
      DownKeepsBlocked(e.net, w.states, w'.states, m, x);
    }
  }

  lemma DecideSound(e: Site, w: World, m: string, tr: Transition, excused: set<string>)
    requires Prompt(e) && Fits(e, w) && m in e.net.order && Sound(e, w, excused + {m})
    ensures Fits(e, Decide(w, m, tr, BlockingParent(e.net, w.states, m)))
    ensures Sound(e, Decide(w, m, tr, BlockingParent(e.net, w.states, m)), excused)
  {
    if !Blocked(e.net, w.states, m) {
      AlertSound(e, w, m, true, Notice(m, tr, Plain), excused + {m});
    }
  }

  // ------------------------------------------------------- induction over a poll

  lemma {:induction false} PollSound(e: Site, w: World, m: string, excused: set<string>)
    requires Decisive(e) && Fits(e, w) && m in e.net.order && Sound(e, w, excused)
    ensures Sound(e, Poll(e, w, m).0, excused)
    ensures Poll(e, w, m).1 == Ok && e.recoveries[m] == 1 ==> Poll(e, w, m).0.states[m].state == Up
    decreases Troubled(e, w) + {m}, Rank(e.net.parents, m), 3, 0
  {
    var v := e.check(m, |w.rows|);
    var w1 := Observe(w, m, v);
    ObserveTrouble(e, w, m, v);
    if Change(w.states[m], v).None? {
      ObserveQuiet(e, w, m, v, excused);
    } else {
      var tr := Change(w.states[m], v).value;
      if IsProblem(tr.current) {
        ObserveProblem(e, w, m, v, excused);
        TransitionSound(e, w1, m, tr, excused);
      } else {
        assert tr.current == Up;
        ObserveUp(e, w, m, v, excused);
        TransitionSound(e, w1, m, tr, excused);
      }
    }
    assert v == Ok && e.recoveries[m] == 1 ==> m !in Troubled(e, w1);
    assert Troubled(e, Poll(e, w, m).0) <= Troubled(e, w1);
  }

  lemma {:induction false} TransitionSound(e: Site, w: World, m: string, tr: Transition, excused: set<string>)
    requires Decisive(e) && Fits(e, w) && m in e.net.order
    requires w.states[m].state == tr.current && (IsProblem(tr.current) || tr.current == Up)
    requires tr.current == Up ==> m !in Troubled(e, w)
    requires Sound(e, w, excused + if IsProblem(tr.current) then {m} else Descendants(e, m))
    ensures Sound(e, OnTransition(e, w, m, tr), excused)
    decreases Troubled(e, w) + {m}, Rank(e.net.parents, m), 2, 0
  {
    if IsProblem(tr.current) {
      if !Blocked(e.net, w.states, m) && e.net.parents[m] != [] {
        ConfirmSound(e, w, m, e.net.parents[m], excused + {m});
        DecideSound(e, ConfirmParents(e, w, m, e.net.parents[m]), m, tr, excused);
      } else {
        DecideSound(e, w, m, tr, excused);
      }
    } else {
      var all := excused + Descendants(e, m);
      if w.states[m].alertOpen {
        AlertSound(e, w, m, false, Notice(m, tr, Plain), all);
      }
      var w1 := Recovered(w, m, tr);
      assert Sound(e, w1, all);
      assert Descendants(e, m) == Unreleased(e, m, 0);
      ReleaseSound(e, w1, m, 0, excused);
    }
  }

  lemma {:induction false} ConfirmSound(e: Site, w: World, m: string, ps: seq<string>, excused: set<string>)
    requires Decisive(e) && Fits(e, w) && m in e.net.order && Sound(e, w, excused)
    requires forall p | p in ps :: Edge(e.net.parents, m, p)
    ensures Sound(e, ConfirmParents(e, w, m, ps), excused)
    decreases Troubled(e, w) + {m}, Rank(e.net.parents, m), 1, |ps|
  {
    if ps != [] {
      if ps[0] !in e.net.order {
        ConfirmSound(e, w, m, ps[1..], excused);
      } else {
        SettleSound(e, w, m, ps[0], excused);
        ConfirmSound(e, Settle(e, w, m, ps[0], 0), m, ps[1..], excused);
      }
    }
  }

  lemma {:induction false} SettleSound(e: Site, w: World, m: string, p: string, excused: set<string>)
    requires Decisive(e) && Fits(e, w) && m in e.net.order && p in e.net.order && Sound(e, w, excused)
    requires Edge(e.net.parents, m, p)
    ensures Sound(e, Settle(e, w, m, p, 0), excused)
    decreases Troubled(e, w) + {m}, Rank(e.net.parents, m), 0, 0
  {
    forall x | Fits(e, x) && Sound(e, x, excused) && Unsettled(x.states[p]) && Troubled(e, x) <= Troubled(e, w)
      ensures Sound(e, Poll(e, x, p).0, excused)
    {
      TurnTroubles(e, x, p);
      PollSound(e, x, p, excused);
    }
    SettleByTurns(e, w, m, p, 0, Troubled(e, w), x => Fits(e, x) && Sound(e, x, excused));
  }

  /** The descendants of `m` from position `i` on. */
  ghost function Unreleased(e: Site, m: string, i: nat): set<string>
    requires i <= |e.net.order|
  {
    set c | c in e.net.order[i..] && IsAncestor(e.net, m, c)
  }

  /** What a recovery does after the fresh poll of `c` leaves `c` accounted for. */
  lemma StillSound(e: Site, w: World, c: string, v: Verdict, m: string, rest: set<string>)
    requires Prompt(e) && Fits(e, w) && c in e.net.order && Sound(e, w, rest + {c})
    requires v == Ok ==> w.states[c].state == Up
    ensures Fits(e, StillFailing(w, c, m))
    ensures Sound(e, if StillAlone(e, w, c, v) then StillFailing(w, c, m) else w, rest)
  {
    var n := Notice(c, Transition(w.states[c].state, w.states[c].state), StillAfter(m));
    AlertSound(e, w, c, true, n, rest + {c});
  }

  lemma {:induction false} ReleaseChildSound(e: Site, w: World, c: string, m: string, rest: set<string>)
    requires Decisive(e) && Fits(e, w) && m in e.net.order && c in e.net.order && m !in Troubled(e, w)
    requires Sound(e, w, if IsAncestor(e.net, m, c) then rest + {c} else rest)
    ensures Sound(e, ReleaseChild(e, w, c, m), rest)
    decreases Troubled(e, w) + {m}, Rank(e.net.parents, m), 0, 0
  {
    if Releasable(e, w, c, m) {
      PollSound(e, w, c, rest + {c});
      DescendantIsPrompt(e, m, c);
      var (w1, v) := Poll(e, w, c);
      StillSound(e, w1, c, v, m, rest);
    }
  }

  /** The next to be released waits only if it depends on m. */
  lemma UnreleasedStep(e: Site, w: World, m: string, i: nat, excused: set<string>)
    requires Prompt(e) && Fits(e, w) && i < |e.net.order| && Sound(e, w, excused + Unreleased(e, m, i))
    ensures var c, rest := e.net.order[i], excused + Unreleased(e, m, i + 1);
      Sound(e, w, if IsAncestor(e.net, m, c) then rest + {c} else rest)
  {
    var c, rest := e.net.order[i], excused + Unreleased(e, m, i + 1);
    assert e.net.order[i..] == [c] + e.net.order[i + 1..];
    assert excused + Unreleased(e, m, i) <= if IsAncestor(e.net, m, c) then rest + {c} else rest;
  }

  lemma {:induction false} ReleaseNextSound(e: Site, w: World, m: string, i: nat, excused: set<string>)
    requires Decisive(e) && Fits(e, w) && m in e.net.order && m !in Troubled(e, w) && i < |e.net.order|
    requires Sound(e, w, excused + Unreleased(e, m, i))
    ensures Sound(e, ReleaseChild(e, w, e.net.order[i], m), excused + Unreleased(e, m, i + 1))
    decreases Troubled(e, w) + {m}, Rank(e.net.parents, m), 0, 1
  {
    UnreleasedStep(e, w, m, i, excused);
    ReleaseChildSound(e, w, e.net.order[i], m, excused + Unreleased(e, m, i + 1));
  }

  lemma {:induction false} ReleaseSound(e: Site, w: World, m: string, i: nat, excused: set<string>)
    requires Decisive(e) && Fits(e, w) && m in e.net.order && m !in Troubled(e, w) && i <= |e.net.order|
    requires Sound(e, w, excused + Unreleased(e, m, i))
    ensures Sound(e, ReleaseChildren(e, w, m, i), excused)
    decreases Troubled(e, w) + {m}, Rank(e.net.parents, m), 1, |e.net.order| - i
  {
    if i == |e.net.order| {
      assert excused + Unreleased(e, m, i) == excused;
    } else {
      ReleaseNextSound(e, w, m, i, excused);
      ReleaseSound(e, ReleaseChild(e, w, e.net.order[i], m), m, i + 1, excused);
    }
  }

  // ------------------------------------------------------------------ whole runs

  /** After every top-level poll of every run: who
      is down and not behind a root cause is alerted. */
  lemma {:induction false} NoLostAlert(e: Site, polls: seq<string>)
    requires Decisive(e) && forall m | m in polls :: m in e.net.order
    ensures Sound(e, Run(e, Start(e), polls), {})
  {
    if polls != [] {
      NoLostAlert(e, polls[..|polls| - 1]);
      PollSound(e, Run(e, Start(e), polls[..|polls| - 1]), polls[|polls| - 1], {});
    }
  }
}
