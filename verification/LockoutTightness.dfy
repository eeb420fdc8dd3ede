/** The lockout bound is reached: once a credential has succeeded, its attempts
    run side by side, and a scan can overshoot the limit by concurrency - 1. */
module LockoutTightness {
  import opened Lockouts
  import opened LockoutGuarantees

  ghost predicate Reaches(limits: Limits, s: Scan, t: Scan) {
    exists actions :: Run(limits, s, actions, t)
  }

  lemma ReachesSelf(limits: Limits, s: Scan)
    ensures Reaches(limits, s, s)
  {
    assert Run(limits, s, [], s);
  }

  lemma {:induction false} RunFurther(limits: Limits, s: Scan, actions: seq<Action>, t: Scan, a: Action)
    requires Run(limits, s, actions, t) && WellFormed(t) && Enabled(limits, t, a)
    ensures Run(limits, s, actions + [a], Apply(limits, t, a))
    decreases actions
  {
    if actions == [] {
      assert Run(limits, Apply(limits, t, a), [], Apply(limits, t, a));
      assert [a][1..] == [];
    } else {
      RunFurther(limits, Apply(limits, s, actions[0]), actions[1..], t, a);
      assert (actions + [a])[1..] == actions[1..] + [a];
    }
  }

  lemma ReachesFurther(limits: Limits, s: Scan, t: Scan, a: Action)
    requires Reaches(limits, s, t) && WellFormed(t) && Enabled(limits, t, a)
    ensures Reaches(limits, s, Apply(limits, t, a))
  {
    var actions :| Run(limits, s, actions, t);
    RunFurther(limits, s, actions, t, a);
  }

  /** Hosts before `done` are done, the next `flying` ones try `c`, the others have not begun. */
  function HostAt(c: Cred, done: nat, flying: nat, i: nat): Host {
    if i < done then Host(Done, [])
    else if i < done + flying then Host(Attempting(false), [[c]])
    else Host(Idle, [[c]])
  }

  /** `c` is proven and has been rejected `k` times. */
  ghost predicate Lined(s: Scan, c: Cred, n: nat, done: nat, flying: nat, k: nat) {
    && |s.hosts| == n && (forall i | 0 <= i < n :: s.hosts[i] == HostAt(c, done, flying, i))
    && s.failures == map[c := k] && c in s.proven && s.held == map[]
    && Active(s) == flying
  }

  lemma LinedWellFormed(s: Scan, c: Cred)
    requires c in s.failures && forall h | h in s.hosts :: h.todo == [] || h.todo == [[]] || h.todo == [[c]]
    requires forall h | h in s.hosts :: h.phase.Waiting? || h.phase.Attempting? ==> h.todo == [[c]]
    ensures WellFormed(s)
  {
  }

  /** As `Lined`, but the host after those in flight has entered. */
  ghost predicate Beginning(s: Scan, c: Cred, n: nat, done: nat, flying: nat, k: nat) {
    && |s.hosts| == n && done + flying < n
    && (forall i | 0 <= i < n && i != done + flying :: s.hosts[i] == HostAt(c, done, flying, i))
    && s.hosts[done + flying] == Host(Ready, [[c]])
    && s.failures == map[c := k] && c in s.proven && s.held == map[]
    && Active(s) == flying + 1
  }

  lemma EnterScan(limits: Limits, s0: Scan, s: Scan, c: Cred, n: nat, done: nat, flying: nat, k: nat) returns (t: Scan)
    requires Reaches(limits, s0, s) && Lined(s, c, n, done, flying, k)
    requires done + flying < n && flying < limits.concurrency
    ensures Reaches(limits, s0, t) && Beginning(t, c, n, done, flying, k)
  {
    var i := done + flying;
    LinedWellFormed(s, c);
    ReachesFurther(limits, s0, s, Enter(i));
    t := Apply(limits, s, Enter(i));
    TotalUpdate(s.hosts, i, t.hosts[i], ActiveOne());
  }

  lemma StartAttempt(limits: Limits, s0: Scan, s: Scan, c: Cred, n: nat, done: nat, flying: nat, k: nat)
    returns (t: Scan)
    requires Reaches(limits, s0, s) && Beginning(s, c, n, done, flying, k) && k < limits.maxAuthFailures
    ensures Reaches(limits, s0, t) && Lined(t, c, n, done, flying + 1, k)
  {
    var i := done + flying;
    LinedWellFormed(s, c);
    ReachesFurther(limits, s0, s, Decide(i));
    t := Apply(limits, s, Decide(i));
    TotalUpdate(s.hosts, i, t.hosts[i], ActiveOne());
  }

  /** One more host starts its attempt. */
  lemma Launch(limits: Limits, s0: Scan, s: Scan, c: Cred, n: nat, done: nat, flying: nat, k: nat) returns (t: Scan)
    requires Reaches(limits, s0, s) && Lined(s, c, n, done, flying, k)
    requires done + flying < n && flying < limits.concurrency && k < limits.maxAuthFailures
    ensures Reaches(limits, s0, t) && Lined(t, c, n, done, flying + 1, k)
  {
    t := EnterScan(limits, s0, s, c, n, done, flying, k);
    t := StartAttempt(limits, s0, t, c, n, done, flying, k);
  }

  /** As `Lined`, but host `done` has just dealt with its credential and `todo` is left. */
  ghost predicate Leaving(s: Scan, c: Cred, n: nat, done: nat, flying: nat, k: nat, todo: seq<seq<Cred>>) {
    && |s.hosts| == n && done < n
    && (forall i | 0 <= i < n && i != done :: s.hosts[i] == HostAt(c, done, flying, i))
    && s.hosts[done] == Host(Ready, todo) && (todo == [[]] || todo == [])
    && s.failures == map[c := k] && c in s.proven && s.held == map[]
    && Active(s) == flying
  }

  lemma LeavingWellFormed(s: Scan, c: Cred, n: nat, done: nat, flying: nat, k: nat, todo: seq<seq<Cred>>)
    requires Leaving(s, c, n, done, flying, k, todo)
    ensures WellFormed(s)
  {
    forall h | h in s.hosts
      ensures h.todo == [] || h.todo == [[]] || h.todo == [[c]]
      ensures h.phase.Waiting? || h.phase.Attempting? ==> h.todo == [[c]]
    {
      var i :| 0 <= i < n && s.hosts[i] == h;
      assert i != done ==> h == HostAt(c, done, flying, i);
    }
    LinedWellFormed(s, c);
  }

  lemma RejectedScan(s: Scan, c: Cred, n: nat, done: nat, flying: nat, k: nat)
    requires Lined(s, c, n, done, flying, k) && flying > 0 && done + flying <= n
    ensures Leaving(Finished(s, done, Rejected), c, n, done, flying, k + 1, [[]])
  {
    NextOfOne(s.hosts[done], c);
    TotalUpdate(s.hosts, done, Host(Ready, [[]]), ActiveOne());
  }

  lemma Reject(limits: Limits, s0: Scan, s: Scan, c: Cred, n: nat, done: nat, flying: nat, k: nat) returns (t: Scan)
    requires Reaches(limits, s0, s) && Lined(s, c, n, done, flying, k)
    requires flying > 0 && done + flying <= n
    ensures Reaches(limits, s0, t) && Leaving(t, c, n, done, flying, k + 1, [[]])
  {
    LinedWellFormed(s, c);
    RejectedScan(s, c, n, done, flying, k);
    ReachesFurther(limits, s0, s, Finish(done, Rejected));
    t := Finished(s, done, Rejected);
  }

  lemma NextOfOne(h: Host, c: Cred)
    requires h.todo == [[c]]
    ensures h.Next(false) == Host(Ready, [[]]) && h.Next(true) == Host(Ready, [])
  {
    assert [c][1..] == [];
    assert [[c]][1..] == [];
  }

  lemma SkipService(limits: Limits, s0: Scan, s: Scan, c: Cred, n: nat, done: nat, flying: nat, k: nat)
    returns (t: Scan)
    requires Reaches(limits, s0, s) && Leaving(s, c, n, done, flying, k, [[]])
    ensures Reaches(limits, s0, t) && Leaving(t, c, n, done, flying, k, [])
  {
    LeavingWellFormed(s, c, n, done, flying, k, [[]]);
    ReachesFurther(limits, s0, s, NextService(done));
    t := Apply(limits, s, NextService(done));
    TotalUpdate(s.hosts, done, t.hosts[done], ActiveOne());
  }

  lemma LeaveScan(limits: Limits, s0: Scan, s: Scan, c: Cred, n: nat, done: nat, flying: nat, k: nat) returns (t: Scan)
    requires Reaches(limits, s0, s) && Leaving(s, c, n, done, flying, k, []) && flying > 0
    ensures Reaches(limits, s0, t) && Lined(t, c, n, done + 1, flying - 1, k)
  {
    LeavingWellFormed(s, c, n, done, flying, k, []);
    ReachesFurther(limits, s0, s, Leave(done));
    t := Apply(limits, s, Leave(done));
    TotalUpdate(s.hosts, done, t.hosts[done], ActiveOne());
  }

  /** The first attempt in flight is rejected, and its host finishes. */
  lemma Land(limits: Limits, s0: Scan, s: Scan, c: Cred, n: nat, done: nat, flying: nat, k: nat) returns (t: Scan)
    requires Reaches(limits, s0, s) && Lined(s, c, n, done, flying, k)
    requires flying > 0 && done + flying <= n
    ensures Reaches(limits, s0, t) && Lined(t, c, n, done + 1, flying - 1, k + 1)
  {
    t := Reject(limits, s0, s, c, n, done, flying, k);
    t := SkipService(limits, s0, t, c, n, done, flying, k + 1);
    t := LeaveScan(limits, s0, t, c, n, done, flying, k + 1);
  }

  /** The scan is reached from s0 and stands as `Lined` says. */
  ghost predicate Stands(limits: Limits, s0: Scan, s: Scan, c: Cred, n: nat, done: nat, flying: nat, k: nat) {
    Reaches(limits, s0, s) && Lined(s, c, n, done, flying, k)
  }

  /** One more host is rejected on its own. */
  lemma OneMore(limits: Limits, s0: Scan, s: Scan, c: Cred, n: nat, done: nat, k: nat) returns (t: Scan)
    requires Stands(limits, s0, s, c, n, done, 0, k)
    requires k < limits.maxAuthFailures && done < n && limits.concurrency >= 1
    ensures Stands(limits, s0, t, c, n, done + 1, 0, k + 1)
  {
    t := Launch(limits, s0, s, c, n, done, 0, k);
    t := Land(limits, s0, t, c, n, done, 1, k);
  }

  /** One host after the other is rejected, until `total` rejections are counted. */
  lemma {:induction false} OneByOne(limits: Limits, s0: Scan, s: Scan, c: Cred, n: nat, done: nat, k: nat,
                                    end: nat, total: nat)
    returns (t: Scan)
    requires Stands(limits, s0, s, c, n, done, 0, k)
    requires k <= total < limits.maxAuthFailures && end - done == total - k && end <= n && limits.concurrency >= 1
    ensures Stands(limits, s0, t, c, n, end, 0, total)
    decreases total - k
  {
    t := s;
    if k < total {
      t := OneMore(limits, s0, s, c, n, done, k);
      t := OneByOne(limits, s0, t, c, n, done + 1, k + 1, end, total);
    }
  }

  lemma {:induction false} AllAtOnce(limits: Limits, s0: Scan, s: Scan, c: Cred, n: nat, done: nat, flying: nat, k: nat,
                                     all: nat)
    returns (t: Scan)
    requires Stands(limits, s0, s, c, n, done, flying, k)
    requires k < limits.maxAuthFailures && done + all <= n && flying <= all <= limits.concurrency
    ensures Stands(limits, s0, t, c, n, done, all, k)
    decreases all - flying
  {
    t := s;
    if flying < all {
      t := Launch(limits, s0, t, c, n, done, flying, k);
      t := AllAtOnce(limits, s0, t, c, n, done, flying + 1, k, all);
    }
  }

  lemma {:induction false} AllRejected(limits: Limits, s0: Scan, s: Scan, c: Cred, n: nat, done: nat, flying: nat,
                                       k: nat, end: nat, total: nat)
    returns (t: Scan)
    requires Stands(limits, s0, s, c, n, done, flying, k)
    requires end == done + flying <= n && total == k + flying
    ensures Stands(limits, s0, t, c, n, end, 0, total)
    decreases flying
  {
    t := s;
    if flying > 0 {
      t := Land(limits, s0, t, c, n, done, flying, k);
      t := AllRejected(limits, s0, t, c, n, done + 1, flying - 1, k + 1, end, total);
    }
  }

  /** Every host has the one service with the one credential to try. */
  function Targets(c: Cred, n: nat): Scan {
    Scan(seq(n, i => Host(Idle, [[c]])), map[], map[c := 0], {}, [])
  }

  /** Host 0 is on its own: no other host has begun. */
  ghost predicate Opening(s: Scan, c: Cred, n: nat, h: Host, held: map<Cred, nat>, proven: set<Cred>) {
    && |s.hosts| == n && n >= 1 && s.hosts[0] == h && (forall i | 1 <= i < n :: s.hosts[i] == Host(Idle, [[c]]))
    && s.failures == map[c := 0] && s.held == held && s.proven == proven
    && Active(s) == ActiveOne()(h)
  }

  lemma OpeningStep(limits: Limits, s0: Scan, s: Scan, c: Cred, n: nat, a: Action, h: Host,
                    held: map<Cred, nat>, proven: set<Cred>)
    returns (t: Scan)
    requires Sound(limits, s) && Reaches(limits, s0, s) && Enabled(limits, s, a) && a.host == 0
    requires Opening(s, c, n, s.hosts[0], s.held, s.proven)
    requires Apply(limits, s, a).(log := []) == Scan(s.hosts[0 := h], held, s.failures, proven, [])
    ensures t == Apply(limits, s, a) && Sound(limits, t) && Reaches(limits, s0, t)
    ensures Opening(t, c, n, h, held, proven)
  {
    t := MoveOn(limits, s0, s, a);
  }

  lemma TargetsOpen(limits: Limits, c: Cred, n: nat)
    requires n >= 1
    ensures Sound(limits, Targets(c, n)) && Reaches(limits, Targets(c, n), Targets(c, n))
    ensures Opening(Targets(c, n), c, n, Host(Idle, [[c]]), map[], {})
  {
    var s := Targets(c, n);
    InitSound(limits, s);
    ReachesSelf(limits, s);
    NoneYet(s.hosts, ActiveOne());
  }

  lemma FirstAttempt(limits: Limits, c: Cred, n: nat) returns (t: Scan)
    requires limits.maxAuthFailures >= 1 && limits.concurrency >= 1 && n >= 1
    ensures Sound(limits, t) && Reaches(limits, Targets(c, n), t)
    ensures Opening(t, c, n, Host(Attempting(true), [[c]]), map[c := 0], {})
  {
    var s := Targets(c, n);
    TargetsOpen(limits, c, n);
    t := OpeningStep(limits, s, s, c, n, Enter(0), Host(Ready, [[c]]), map[], {});
    t := OpeningStep(limits, s, t, c, n, Decide(0), Host(Waiting, [[c]]), map[], {});
    t := OpeningStep(limits, s, t, c, n, TakeLock(0), Host(Attempting(true), [[c]]), map[c := 0], {});
  }

  lemma AcceptedScan(s: Scan, c: Cred, n: nat)
    requires Opening(s, c, n, Host(Attempting(true), [[c]]), map[c := 0], {})
    ensures Finished(s, 0, Accepted(true)).(log := [])
            == Scan(s.hosts[0 := Host(Ready, [])], map[], s.failures, {c}, [])
  {
    NextOfOne(s.hosts[0], c);
    assert map[c := 0] - {c} == map[];
  }

  /** The first host is accepted. */
  lemma FirstAccepted(limits: Limits, c: Cred, n: nat) returns (t: Scan)
    requires limits.maxAuthFailures >= 1 && limits.concurrency >= 1 && n >= 1
    ensures Reaches(limits, Targets(c, n), t) && Lined(t, c, n, 1, 0, 0)
  {
    var s := Targets(c, n);
    t := FirstAttempt(limits, c, n);
    AcceptedScan(t, c, n);
    t := OpeningStep(limits, s, t, c, n, Finish(0, Accepted(true)), Host(Ready, []), map[], {c});
    t := OpeningStep(limits, s, t, c, n, Leave(0), Host(Done, []), map[], {c});
  }

  lemma MoveOn(limits: Limits, s0: Scan, s: Scan, a: Action) returns (t: Scan)
    requires Sound(limits, s) && Reaches(limits, s0, s) && Enabled(limits, s, a)
    ensures t == Apply(limits, s, a) && Sound(limits, t) && Reaches(limits, s0, t)
    ensures Active(t) + ActiveOne()(s.hosts[a.host]) == Active(s) + ActiveOne()(t.hosts[a.host])
  {
    ReachesFurther(limits, s0, s, a);
    StepKeepsSound(limits, s, a);
    ActiveMoves(limits, s, a);
    t := Apply(limits, s, a);
  }

  lemma ActiveMoves(limits: Limits, s: Scan, a: Action)
    requires WellFormed(s) && Enabled(limits, s, a)
    ensures var t := Apply(limits, s, a);
      Active(t) + ActiveOne()(s.hosts[a.host]) == Active(s) + ActiveOne()(t.hosts[a.host])
  {
    TotalUpdate(s.hosts, a.host, Apply(limits, s, a).hosts[a.host], ActiveOne());
  }

  /**
   * For every limit and every degree of concurrency there is a scan in which a
   * credential is rejected max + concurrency - 1 times.
   */
  lemma BoundIsReached(limits: Limits, c: Cred)
    requires limits.maxAuthFailures >= 1 && limits.concurrency >= 1
    ensures exists s, actions, t ::
      && Init(s) && c in s.failures && Run(limits, s, actions, t)
      && Rejections(t.log, c) == limits.maxAuthFailures + limits.concurrency - 1
  {
    var n := limits.maxAuthFailures + limits.concurrency;
    var s := Targets(c, n);
    var t := FirstAccepted(limits, c, n);
    t := OneByOne(limits, s, t, c, n, 1, 0, limits.maxAuthFailures, limits.maxAuthFailures - 1);
    t := AllAtOnce(limits, s, t, c, n, limits.maxAuthFailures, 0, limits.maxAuthFailures - 1, limits.concurrency);
    t := AllRejected(limits, s, t, c, n, limits.maxAuthFailures, limits.concurrency, limits.maxAuthFailures - 1,
                     n, n - 1);
    var actions :| Run(limits, s, actions, t);
    LockoutBound(limits, s, actions, t, c);
  }

  // ----- When scanning cannot overshoot the limit -----

  /** No credential is rejected more often than the limit allows, whatever the hosts and the interleaving. */
  ghost predicate NeverOvershoots(limits: Limits) {
    forall s, actions, t, c | Init(s) && Run(limits, s, actions, t) && c in s.failures ::
      Rejections(t.log, c) <= Positive(limits.maxAuthFailures)
  }

  lemma {:induction false} RejectionsEnded(log: seq<Entry>, c: Cred)
    ensures Rejections(log, c) <= Ended(log, c)
  {
    if log != [] {
      RejectionsEnded(log[..|log| - 1], c);
    }
  }

  /** With a limit of zero or less nothing is tried at all. */
  lemma NothingTried(limits: Limits, s: Scan, actions: seq<Action>, t: Scan, c: Cred)
    requires Init(s) && Run(limits, s, actions, t) && c in s.failures && limits.maxAuthFailures <= 0
    ensures Rejections(t.log, c) == 0
  {
    NoneYet(s.hosts, TryingOne(c));
    RetiredForGood(limits, s, actions, t, c);
    RejectionsEnded(t.log, c);
  }

  lemma Overshoots(limits: Limits, c: Cred)
    requires limits.maxAuthFailures >= 1 && limits.concurrency >= 2
    ensures !NeverOvershoots(limits)
  {
    BoundIsReached(limits, c);
    var s, actions, t :| Init(s) && c in s.failures && Run(limits, s, actions, t)
                         && Rejections(t.log, c) == limits.maxAuthFailures + limits.concurrency - 1;
    assert Rejections(t.log, c) > Positive(limits.maxAuthFailures);
  }

  /** Scanning cannot overshoot the limit exactly when it tries nothing, or one host at a time. */
  lemma NeverOvershootsExactly(limits: Limits)
    ensures NeverOvershoots(limits) <==> limits.maxAuthFailures <= 0 || limits.concurrency <= 1
  {
    if limits.maxAuthFailures >= 1 && limits.concurrency >= 2 {
      Overshoots(limits, "");
    } else {
      forall s, actions, t, c | Init(s) && Run(limits, s, actions, t) && c in s.failures
        ensures Rejections(t.log, c) <= Positive(limits.maxAuthFailures)
      {
        if limits.maxAuthFailures <= 0 {
          NothingTried(limits, s, actions, t, c);
        } else {
          LockoutBound(limits, s, actions, t, c);
        }
      }
    }
  }
}
