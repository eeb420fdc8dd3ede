/** What the lockout protocol guarantees, for any number of hosts and over every interleaving. */
module LockoutGuarantees {
  import opened Lockouts

  // ----- The invariant -----

  /** A lock is held by exactly the host whose attempt it protects. */
  ghost predicate Guarded(hosts: seq<Host>, held: map<Cred, nat>) {
    && (forall c | c in held ::
          held[c] < |hosts| && hosts[held[c]].phase == Attempting(true) && Tries(hosts[held[c]], c))
    && (forall i | 0 <= i < |hosts| && hosts[i].phase == Attempting(true) ::
          hosts[i].HasCurrent() && hosts[i].Current() in held && held[hosts[i].Current()] == i)
  }

  /** Only a proven credential is tried without its lock. */
  ghost predicate Trusted(hosts: seq<Host>, proven: set<Cred>) {
    forall h | h in hosts && h.phase == Attempting(false) :: h.HasCurrent() && h.Current() in proven
  }

  ghost predicate Recorded(s: Scan) {
    && (forall c | c in s.failures :: s.failures[c] == Rejections(s.log, c))
    && (forall c :: c in s.proven <==> EverAccepted(s.log, c))
  }

  ghost predicate BoundedFor(limits: Limits, s: Scan, c: Cred)
    requires c in s.failures
  {
    && s.failures[c] + InFlight(s, c) <= Positive(limits.maxAuthFailures + limits.concurrency - 1)
    && (c !in s.proven ==>
          && InFlight(s, c) == (if c in s.held then 1 else 0)
          && s.failures[c] + InFlight(s, c) <= Positive(limits.maxAuthFailures))
  }

  ghost predicate Bounded(limits: Limits, s: Scan) {
    forall c | c in s.failures :: BoundedFor(limits, s, c)
  }

  ghost predicate Sound(limits: Limits, s: Scan) {
    && WellFormed(s)
    && Guarded(s.hosts, s.held)
    && Trusted(s.hosts, s.proven)
    && Recorded(s)
    && Bounded(limits, s)
    && Active(s) <= Positive(limits.concurrency)
  }

  // ----- One step keeps it -----

  lemma PutWellFormed(s: Scan, i: nat, h: Host)
    requires WellFormed(s) && i < |s.hosts| && Known(s, h)
    requires h.phase.Waiting? || h.phase.Attempting? ==> h.HasCurrent()
    ensures WellFormed(Put(s, i, h))
  {
    var hosts := s.hosts[i := h];
    forall g | g in hosts
      ensures Known(s, g) && (g.phase.Waiting? || g.phase.Attempting? ==> g.HasCurrent())
    {
      assert g == h || g in s.hosts;
    }
  }

  /** The host neither starts nor ends an attempt. */
  lemma QuietStep(limits: Limits, s: Scan, i: nat, h: Host)
    requires Sound(limits, s) && i < |s.hosts| && Known(s, h)
    requires !s.hosts[i].phase.Attempting? && !h.phase.Attempting? && (h.phase.Waiting? ==> h.HasCurrent())
    requires IsActive(h) && !IsActive(s.hosts[i]) ==> Active(s) < limits.concurrency
    ensures Sound(limits, Put(s, i, h))
  {
    PutWellFormed(s, i, h);
    TotalUpdate(s.hosts, i, h, ActiveOne());
    forall c | c in s.failures
      ensures BoundedFor(limits, Put(s, i, h), c)
    {
      assert BoundedFor(limits, s, c);
      TotalUpdate(s.hosts, i, h, TryingOne(c));
    }
  }

  lemma InFlightBelowActive(s: Scan, c: Cred)
    ensures InFlight(s, c) <= Active(s)
  {
    TotalBelow(s.hosts, TryingOne(c), ActiveOne());
  }

  lemma GuardedStart(hosts: seq<Host>, held: map<Cred, nat>, i: nat, h: Host)
    requires Guarded(hosts, held) && i < |hosts| && !hosts[i].phase.Attempting?
    requires h.HasCurrent() && h.phase.Attempting? && (h.phase.locked ==> h.Current() !in held)
    ensures Guarded(hosts[i := h], if h.phase.locked then held[h.Current() := i] else held)
  {
  }

  lemma GuardedFinish(hosts: seq<Host>, held: map<Cred, nat>, i: nat, h: Host)
    requires Guarded(hosts, held) && i < |hosts| && hosts[i].phase.Attempting? && hosts[i].HasCurrent()
    requires !h.phase.Attempting?
    ensures Guarded(hosts[i := h], if hosts[i].phase.locked then held - {hosts[i].Current()} else held)
  {
  }

  lemma TrustedPut(hosts: seq<Host>, proven: set<Cred>, i: nat, h: Host)
    requires Trusted(hosts, proven) && i < |hosts|
    requires h.phase == Attempting(false) ==> h.HasCurrent() && h.Current() in proven
    ensures Trusted(hosts[i := h], proven)
  {
    forall g | g in hosts[i := h] && g.phase == Attempting(false)
      ensures g.HasCurrent() && g.Current() in proven
    {
      assert g == h || g in hosts;
    }
  }

  lemma BoundedStart(limits: Limits, s: Scan, i: nat, h: Host, s': Scan, c: Cred)
    requires i < |s.hosts| && !s.hosts[i].phase.Attempting? && IsActive(s.hosts[i])
    requires h.HasCurrent() && h.phase.Attempting?
    requires h.Current() in s.failures && !Retired(limits, s, h.Current())
    requires if h.phase.locked then h.Current() !in s.held else h.Current() in s.proven
    requires c in s.failures && BoundedFor(limits, s, c) && Active(s) <= Positive(limits.concurrency)
    requires s' == Put(s, i, h).(held := if h.phase.locked then s.held[h.Current() := i] else s.held)
    ensures BoundedFor(limits, s', c) && Active(s') == Active(s)
  {
    TotalUpdate(s.hosts, i, h, ActiveOne());
    TotalUpdate(s.hosts, i, h, TryingOne(c));
    InFlightBelowActive(s', c);
  }

  /** An attempt starts: the credential is not retired, and it is proven or its lock is free. */
  lemma StartStep(limits: Limits, s: Scan, i: nat, h: Host, s': Scan)
    requires Sound(limits, s) && i < |s.hosts| && (s.hosts[i].phase.Ready? || s.hosts[i].phase.Waiting?)
    requires h.HasCurrent() && h.phase.Attempting? && Known(s, h)
    requires h.Current() in s.failures && !Retired(limits, s, h.Current())
    requires if h.phase.locked then h.Current() !in s.held else h.Current() in s.proven
    requires s' == Put(s, i, h).(held := if h.phase.locked then s.held[h.Current() := i] else s.held)
    ensures Sound(limits, s')
  {
    PutWellFormed(s, i, h);
    GuardedStart(s.hosts, s.held, i, h);
    TrustedPut(s.hosts, s.proven, i, h);
    BoundedStart(limits, s, i, h, s', h.Current());
    forall c | c in s.failures
      ensures BoundedFor(limits, s', c)
    {
      BoundedStart(limits, s, i, h, s', c);
    }
  }

  /** The failure count of the credential goes up with a rejection, and only then. */
  lemma RecordedFinish(s: Scan, i: nat, outcome: Outcome)
    requires Recorded(s) && i < |s.hosts| && s.hosts[i].phase.Attempting?
    requires s.hosts[i].HasCurrent() && s.hosts[i].Current() in s.failures
    ensures Recorded(Finished(s, i, outcome))
  {
    var e := Entry(i, |s.hosts[i].todo|, s.hosts[i].Current(), outcome);
    var log := s.log + [e];
    assert log[..|log| - 1] == s.log;
    forall c
      ensures EverAccepted(log, c) <==> EverAccepted(s.log, c) || (e.cred == c && outcome.Accepted?)
    {
      if EverAccepted(s.log, c) {
        var k :| 0 <= k < |s.log| && s.log[k].cred == c && s.log[k].outcome.Accepted?;
        assert log[k] == s.log[k];
      }
      if e.cred == c && outcome.Accepted? {
        assert log[|s.log|] == e;
      }
    }
  }

  lemma BoundedFinish(limits: Limits, s: Scan, i: nat, outcome: Outcome, c: Cred)
    requires i < |s.hosts| && s.hosts[i].phase.Attempting?
    requires s.hosts[i].HasCurrent() && s.hosts[i].Current() in s.failures
    requires Guarded(s.hosts, s.held) && Trusted(s.hosts, s.proven)
    requires c in s.failures && BoundedFor(limits, s, c)
    ensures BoundedFor(limits, Finished(s, i, outcome), c)
    ensures Active(Finished(s, i, outcome)) == Active(s)
  {
    var h := Finished(s, i, outcome).hosts[i];
    TotalUpdate(s.hosts, i, h, ActiveOne());
    TotalUpdate(s.hosts, i, h, TryingOne(c));
  }

  lemma FinishStep(limits: Limits, s: Scan, i: nat, outcome: Outcome)
    requires Sound(limits, s) && i < |s.hosts| && s.hosts[i].phase.Attempting?
    requires s.hosts[i].HasCurrent() && s.hosts[i].Current() in s.failures
    ensures Sound(limits, Finished(s, i, outcome))
  {
    var s' := Finished(s, i, outcome);
    var h := s'.hosts[i];
    assert Known(s, s.hosts[i]);
    NextKnown(s, s.hosts[i], if outcome.Rejected? then false else outcome.stop);
    PutWellFormed(s, i, h);
    GuardedFinish(s.hosts, s.held, i, h);
    TrustedPut(s.hosts, s.proven, i, h);
    RecordedFinish(s, i, outcome);
    BoundedFinish(limits, s, i, outcome, s.hosts[i].Current());
    forall c | c in s'.failures
      ensures BoundedFor(limits, s', c)
    {
      BoundedFinish(limits, s, i, outcome, c);
    }
  }

  lemma NextKnown(s: Scan, h: Host, stop: bool)
    requires Known(s, h) && h.HasCurrent()
    ensures Known(s, h.Next(stop))
  {
  }

  lemma StepKeepsSound(limits: Limits, s: Scan, a: Action)
    requires Sound(limits, s) && Enabled(limits, s, a)
    ensures Sound(limits, Apply(limits, s, a))
  {
    var i := a.host;
    var h := s.hosts[i];
    assert Known(s, h);
    match a
    case Enter(_) => QuietStep(limits, s, i, h.(phase := Ready));
    case Leave(_) => QuietStep(limits, s, i, h.(phase := Done));
    case NextService(_) => QuietStep(limits, s, i, h.(todo := h.todo[1..]));
    case Decide(_) => DecideKeeps(limits, s, i);
    case TakeLock(_) => TakeLockKeeps(limits, s, i);
    case Finish(_, outcome) => FinishStep(limits, s, i, outcome);
  }

  lemma DecideKeeps(limits: Limits, s: Scan, i: nat)
    requires Sound(limits, s) && i < |s.hosts| && s.hosts[i].phase.Ready? && s.hosts[i].HasCurrent()
    requires s.hosts[i].Current() in s.failures
    ensures Sound(limits, Decided(limits, s, i))
  {
    var h := s.hosts[i];
    assert Known(s, h);
    NextKnown(s, h, false);
    if Retired(limits, s, h.Current()) {
      QuietStep(limits, s, i, h.Next(false));
    } else if h.Current() in s.proven {
      StartStep(limits, s, i, h.(phase := Attempting(false)), Decided(limits, s, i));
    } else {
      QuietStep(limits, s, i, h.(phase := Waiting));
    }
  }

  lemma TakeLockKeeps(limits: Limits, s: Scan, i: nat)
    requires Sound(limits, s) && i < |s.hosts| && s.hosts[i].phase.Waiting? && s.hosts[i].HasCurrent()
    requires s.hosts[i].Current() in s.failures && s.hosts[i].Current() !in s.held
    ensures Sound(limits, Locked(limits, s, i))
  {
    var h := s.hosts[i];
    assert Known(s, h);
    NextKnown(s, h, false);
    if Retired(limits, s, h.Current()) {
      QuietStep(limits, s, i, h.Next(false));
    } else {
      StartStep(limits, s, i, h.(phase := Attempting(true)), Locked(limits, s, i));
    }
  }

  // ----- Whole scans -----

  /** The actions lead from s to t. */
  ghost predicate Run(limits: Limits, s: Scan, actions: seq<Action>, t: Scan)
    decreases actions
  {
    if actions == [] then s == t
    else WellFormed(s) && Enabled(limits, s, actions[0]) && Run(limits, Apply(limits, s, actions[0]), actions[1..], t)
  }

  lemma {:induction false} NoneYet(hosts: seq<Host>, f: Host -> nat)
    requires forall h | h in hosts :: f(h) == 0
    ensures Total(hosts, f) == 0
  {
    if hosts != [] {
      NoneYet(hosts[1..], f);
    }
  }

  lemma InitSound(limits: Limits, s: Scan)
    requires Init(s)
    ensures Sound(limits, s)
  {
    NoneYet(s.hosts, ActiveOne());
    forall c | c in s.failures
      ensures BoundedFor(limits, s, c)
    {
      NoneYet(s.hosts, TryingOne(c));
    }
  }

  lemma {:induction false} RunKeepsSound(limits: Limits, s: Scan, actions: seq<Action>, t: Scan)
    requires Sound(limits, s) && Run(limits, s, actions, t)
    ensures Sound(limits, t)
    decreases actions
  {
    if actions != [] {
      StepKeepsSound(limits, s, actions[0]);
      RunKeepsSound(limits, Apply(limits, s, actions[0]), actions[1..], t);
    }
  }

  lemma {:induction false} SameCredentials(limits: Limits, s: Scan, actions: seq<Action>, t: Scan)
    requires Run(limits, s, actions, t)
    ensures t.failures.Keys == s.failures.Keys
    decreases actions
  {
    if actions != [] {
      SameCredentials(limits, Apply(limits, s, actions[0]), actions[1..], t);
    }
  }

  /**
   * The lockout bound.  However the hosts interleave, a credential is rejected at most
   * max + concurrency - 1 times, attempts in flight included; and as long as no attempt
   * with it has succeeded, at most max times, with at most one attempt in flight.
   */
  lemma LockoutBound(limits: Limits, s: Scan, actions: seq<Action>, t: Scan, c: Cred)
    requires Init(s) && Run(limits, s, actions, t) && c in s.failures
    ensures c in t.failures && t.failures[c] == Rejections(t.log, c)
    ensures Rejections(t.log, c) + InFlight(t, c) <= Positive(limits.maxAuthFailures + limits.concurrency - 1)
    ensures !EverAccepted(t.log, c) ==>
      InFlight(t, c) <= 1 && Rejections(t.log, c) + InFlight(t, c) <= Positive(limits.maxAuthFailures)
  {
    InitSound(limits, s);
    RunKeepsSound(limits, s, actions, t);
    SameCredentials(limits, s, actions, t);
    assert BoundedFor(limits, t, c);
  }

  // ----- A retired credential is never tried again -----

  /** Attempts with `c` that have ended. */
  function Ended(log: seq<Entry>, c: Cred): nat {
    if log == [] then 0 else Ended(log[..|log| - 1], c) + if log[|log| - 1].cred == c then 1 else 0
  }

  function Started(s: Scan, c: Cred): nat {
    Ended(s.log, c) + InFlight(s, c)
  }

  lemma StepStarts(limits: Limits, s: Scan, a: Action, c: Cred)
    requires WellFormed(s) && Enabled(limits, s, a) && c in s.failures && Retired(limits, s, c)
    ensures var s' := Apply(limits, s, a);
      c in s'.failures && Retired(limits, s', c) && Started(s', c) == Started(s, c)
  {
    var h := s.hosts[a.host];
    if a.Finish? {
      FinishStarts(s, a.host, a.outcome, c);
    } else {
      var h' := Apply(limits, s, a).hosts[a.host];
      assert Tries(h, c) == Tries(h', c);
      TotalUpdate(s.hosts, a.host, h', TryingOne(c));
    }
  }

  lemma FinishStarts(s: Scan, i: nat, outcome: Outcome, c: Cred)
    requires i < |s.hosts| && s.hosts[i].phase.Attempting?
    requires s.hosts[i].HasCurrent() && s.hosts[i].Current() in s.failures
    ensures Started(Finished(s, i, outcome), c) == Started(s, c)
  {
    var s' := Finished(s, i, outcome);
    TotalUpdate(s.hosts, i, s'.hosts[i], TryingOne(c));
    assert s'.log[..|s'.log| - 1] == s.log;
  }

  /** Once a credential has failed often enough, no attempt with it starts any more. */
  lemma {:induction false} RetiredForGood(limits: Limits, s: Scan, actions: seq<Action>, t: Scan, c: Cred)
    requires Run(limits, s, actions, t) && c in s.failures && Retired(limits, s, c)
    ensures c in t.failures && Retired(limits, t, c) && Started(t, c) == Started(s, c)
    decreases actions
  {
    if actions != [] {
      StepStarts(limits, s, actions[0], c);
      RetiredForGood(limits, Apply(limits, s, actions[0]), actions[1..], t, c);
    }
  }

  // ----- Every scan ends, with every host done -----

  function Creds(todo: seq<seq<Cred>>): nat {
    if todo == [] then 0 else |todo[0]| + Creds(todo[1..])
  }

  function WorkOne(): Host -> nat {
    (h: Host) => 3 * Creds(h.todo) + |h.todo|
         + match h.phase { case Idle => 4 case Ready => 3 case Waiting => 2 case Attempting(_) => 1 case Done => 0 }
  }

  function Work(s: Scan): nat {
    Total(s.hosts, WorkOne())
  }

  lemma NextWork(h: Host, stop: bool)
    requires h.HasCurrent()
    ensures WorkOne()(h.Next(stop)) < WorkOne()(h.(phase := Attempting(true)))
  {
    var todo := h.Next(stop).todo;
    if stop {
      assert todo == h.todo[1..];
    } else {
      assert todo[1..] == h.todo[1..];
    }
  }

  /** What one step leaves of the host that takes it is less work. */
  lemma HostWorks(limits: Limits, s: Scan, a: Action)
    requires WellFormed(s) && Enabled(limits, s, a)
    ensures Apply(limits, s, a).hosts[a.host := s.hosts[a.host]] == s.hosts
    ensures WorkOne()(Apply(limits, s, a).hosts[a.host]) < WorkOne()(s.hosts[a.host])
  {
    var h := s.hosts[a.host];
    assert s.hosts[a.host := Apply(limits, s, a).hosts[a.host]][a.host := h] == s.hosts;
    if h.HasCurrent() {
      NextWork(h, true);
      NextWork(h, false);
    }
  }

  lemma StepWorks(limits: Limits, s: Scan, a: Action)
    requires WellFormed(s) && Enabled(limits, s, a)
    ensures Work(Apply(limits, s, a)) < Work(s)
  {
    HostWorks(limits, s, a);
    TotalUpdate(Apply(limits, s, a).hosts, a.host, s.hosts[a.host], WorkOne());
  }

  /** A scan takes no more steps than its hosts, services and credentials allow. */
  lemma {:induction false} ScanTerminates(limits: Limits, s: Scan, actions: seq<Action>, t: Scan)
    requires Run(limits, s, actions, t)
    ensures |actions| + Work(t) <= Work(s)
    decreases actions
  {
    if actions != [] {
      StepWorks(limits, s, actions[0]);
      ScanTerminates(limits, Apply(limits, s, actions[0]), actions[1..], t);
    }
  }

  lemma {:induction false} SomeActive(hosts: seq<Host>)
    ensures Total(hosts, ActiveOne()) == 0 || exists i | 0 <= i < |hosts| :: IsActive(hosts[i])
  {
    if hosts != [] {
      SomeActive(hosts[1..]);
      if i :| 0 <= i < |hosts[1..]| && IsActive(hosts[1..][i]) {
        assert IsActive(hosts[i + 1]);
      }
    }
  }

  /** What an active host, or the holder of the lock it waits for, can do next. */
  function Move(s: Scan, i: nat): Action
    requires i < |s.hosts| && (s.hosts[i].phase.Waiting? ==> s.hosts[i].HasCurrent())
  {
    var h := s.hosts[i];
    match h.phase
    case Idle => Enter(i)
    case Waiting => if h.Current() in s.held then Finish(s.held[h.Current()], Rejected) else TakeLock(i)
    case Attempting(_) => Finish(i, Rejected)
    case _ => if h.todo == [] then Leave(i) else if h.todo[0] == [] then NextService(i) else Decide(i)
  }

  /** Lock and semaphore never block everything: while a host is not done, some step is possible. */
  lemma NoDeadlock(limits: Limits, s: Scan, actions: seq<Action>, t: Scan)
    requires Init(s) && Run(limits, s, actions, t) && limits.concurrency >= 1
    requires exists i :: 0 <= i < |t.hosts| && !t.hosts[i].phase.Done?
    ensures WellFormed(t) && exists a :: Enabled(limits, t, a)
  {
    InitSound(limits, s);
    RunKeepsSound(limits, s, actions, t);
    SomeActive(t.hosts);
    var i :| 0 <= i < |t.hosts| && !t.hosts[i].phase.Done?;
    if Active(t) > 0 {
      i :| 0 <= i < |t.hosts| && IsActive(t.hosts[i]);
    }
    MoveIsEnabled(limits, t, i);
  }

  lemma MoveIsEnabled(limits: Limits, s: Scan, i: nat)
    requires WellFormed(s) && Guarded(s.hosts, s.held) && i < |s.hosts|
    requires IsActive(s.hosts[i]) || (s.hosts[i].phase.Idle? && Active(s) < limits.concurrency)
    ensures exists a :: Enabled(limits, s, a)
  {
    assert s.hosts[i] in s.hosts;
    assert Enabled(limits, s, Move(s, i));
  }
}
