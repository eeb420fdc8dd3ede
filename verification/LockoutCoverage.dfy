/** What a scan does try: a finished scan has dealt with every credential of every
    service of every host, and nothing is tried after a service has been stopped. */
module LockoutCoverage {
  import opened Lockouts
  import opened LockoutGuarantees

  predicate Stops(o: Outcome) {
    !o.Rejected? && o.stop
  }

  /** An attempt with c on host i, for its service l from the last, is in the log. */
  ghost predicate Tried(log: seq<Entry>, i: nat, l: nat, c: Cred) {
    exists k :: 0 <= k < |log| && log[k].host == i && log[k].service == l && log[k].cred == c
  }

  /** One of the credentials of `creds` ended that service. */
  ghost predicate StoppedBy(log: seq<Entry>, i: nat, l: nat, creds: seq<Cred>) {
    exists k :: 0 <= k < |log| && log[k].host == i && log[k].service == l && log[k].cred in creds
                && Stops(log[k].outcome)
  }

  /** The j-th credential of a service: tried, at the limit, or needless since an earlier one ended the service. */
  ghost predicate Dealt(limits: Limits, s: Scan, i: nat, l: nat, creds: seq<Cred>, j: nat)
    requires j < |creds|
  {
    || Tried(s.log, i, l, creds[j])
    || (creds[j] in s.failures && s.failures[creds[j]] >= limits.maxAuthFailures)
    || StoppedBy(s.log, i, l, creds[..j])
  }

  ghost predicate DealtUpTo(limits: Limits, s: Scan, i: nat, l: nat, creds: seq<Cred>, n: nat)
    requires n <= |creds|
  {
    forall j | 0 <= j < n :: Dealt(limits, s, i, l, creds, j)
  }

  /** All credentials of the service l. */
  ghost predicate ServiceDealt(limits: Limits, s: Scan, i: nat, all: seq<seq<Cred>>, l: nat)
    requires 0 < l <= |all|
  {
    DealtUpTo(limits, s, i, l, all[|all| - l], |all[|all| - l]|)
  }

  /** Of the service l the credentials `left` are still to be tried. */
  ghost predicate Leaves(limits: Limits, s: Scan, i: nat, l: nat, creds: seq<Cred>, left: seq<Cred>) {
    && |left| <= |creds| && creds[|creds| - |left|..] == left
    && DealtUpTo(limits, s, i, l, creds, |creds| - |left|)
  }

  /** Nothing of the services that are left has been tried, but of the current one, and that goes on. */
  ghost predicate Going(log: seq<Entry>, i: nat, left: nat) {
    forall k | 0 <= k < |log| && log[k].host == i ::
      log[k].service >= left && (log[k].service == left ==> !Stops(log[k].outcome))
  }

  /** `todo` is what is left of the services `all` of host i. */
  ghost predicate Covered(limits: Limits, s: Scan, i: nat, all: seq<seq<Cred>>, todo: seq<seq<Cred>>) {
    && |todo| <= |all|
    && (forall l | |todo| < l <= |all| :: ServiceDealt(limits, s, i, all, l))
    && (todo != [] ==>
          todo[1..] == all[|all| - |todo| + 1..] && Leaves(limits, s, i, |todo|, all[|all| - |todo|], todo[0]))
    && Going(s.log, i, |todo|)
  }

  ghost predicate Progress(limits: Limits, s0: Scan, s: Scan) {
    && |s.hosts| == |s0.hosts|
    && forall i | 0 <= i < |s.hosts| ::
         && Covered(limits, s, i, s0.hosts[i].todo, s.hosts[i].todo)
         && (s.hosts[i].phase.Done? ==> s.hosts[i].todo == [])
  }

  /** Nothing is tried for a service once it has been stopped. */
  ghost predicate StopsLast(log: seq<Entry>) {
    forall a, b | 0 <= a < b < |log| && log[a].host == log[b].host && log[a].service == log[b].service ::
      !Stops(log[a].outcome)
  }

  // ----- What only grows -----

  /** The log has grown, and no count has gone down. */
  ghost predicate Grows(s: Scan, s': Scan) {
    && s.log <= s'.log && s.failures.Keys <= s'.failures.Keys
    && forall c | c in s.failures :: s.failures[c] <= s'.failures[c]
  }

  lemma DealtGrows(limits: Limits, s: Scan, s': Scan, i: nat, l: nat, creds: seq<Cred>, j: nat)
    requires Grows(s, s') && j < |creds| && Dealt(limits, s, i, l, creds, j)
    ensures Dealt(limits, s', i, l, creds, j)
  {
    if Tried(s.log, i, l, creds[j]) {
      var k :| 0 <= k < |s.log| && s.log[k].host == i && s.log[k].service == l && s.log[k].cred == creds[j];
      assert s'.log[k] == s.log[k];
    } else if StoppedBy(s.log, i, l, creds[..j]) {
      var k :| 0 <= k < |s.log| && s.log[k].host == i && s.log[k].service == l && s.log[k].cred in creds[..j]
               && Stops(s.log[k].outcome);
      assert s'.log[k] == s.log[k];
    }
  }

  lemma DealtUpToGrows(limits: Limits, s: Scan, s': Scan, i: nat, l: nat, creds: seq<Cred>, n: nat)
    requires Grows(s, s') && n <= |creds| && DealtUpTo(limits, s, i, l, creds, n)
    ensures DealtUpTo(limits, s', i, l, creds, n)
  {
    forall j | 0 <= j < n
      ensures Dealt(limits, s', i, l, creds, j)
    {
      DealtGrows(limits, s, s', i, l, creds, j);
    }
  }

  /** While others move, or nothing is logged. */
  lemma CoveredGrows(limits: Limits, s: Scan, s': Scan, i: nat, all: seq<seq<Cred>>, todo: seq<seq<Cred>>)
    requires Grows(s, s') && Covered(limits, s, i, all, todo)
    requires forall k | |s.log| <= k < |s'.log| :: s'.log[k].host != i
    ensures Covered(limits, s', i, all, todo)
  {
    forall l | |todo| < l <= |all|
      ensures ServiceDealt(limits, s', i, all, l)
    {
      assert ServiceDealt(limits, s, i, all, l);
      DealtUpToGrows(limits, s, s', i, l, all[|all| - l], |all[|all| - l]|);
    }
    if todo != [] {
      var creds := all[|all| - |todo|];
      DealtUpToGrows(limits, s, s', i, |todo|, creds, |creds| - |todo[0]|);
    }
  }

  // ----- One host moves on -----

  /** The current service is over: all its credentials are dealt with. */
  lemma ServiceOver(limits: Limits, s: Scan, i: nat, all: seq<seq<Cred>>, todo: seq<seq<Cred>>)
    requires |todo| <= |all| && todo != [] && todo[1..] == all[|all| - |todo| + 1..]
    requires forall l | |todo| <= l <= |all| :: ServiceDealt(limits, s, i, all, l)
    requires forall k | 0 <= k < |s.log| && s.log[k].host == i :: s.log[k].service >= |todo|
    ensures Covered(limits, s, i, all, todo[1..])
  {
    var rest := todo[1..];
    if rest != [] {
      assert rest[0] == all[|all| - |rest|];
      assert rest[1..] == all[|all| - |rest| + 1..];
    }
  }

  /** The current credential is dealt with, and the service goes on. */
  lemma CredentialOver(limits: Limits, s: Scan, i: nat, all: seq<seq<Cred>>, todo: seq<seq<Cred>>)
    requires Covered(limits, s, i, all, todo) && todo != [] && todo[0] != []
    requires var creds := all[|all| - |todo|];
      |creds| >= |todo[0]| && Dealt(limits, s, i, |todo|, creds, |creds| - |todo[0]|)
    ensures Covered(limits, s, i, all, [todo[0][1..]] + todo[1..])
  {
    var next, creds := [todo[0][1..]] + todo[1..], all[|all| - |todo|];
    assert next[1..] == todo[1..] && next[0] == todo[0][1..];
    assert creds[|creds| - |next[0]|..] == creds[|creds| - |todo[0]|..][1..];
  }

  /** The current credential, in its place in the list. */
  lemma CurrentInList(limits: Limits, s: Scan, i: nat, all: seq<seq<Cred>>, todo: seq<seq<Cred>>)
    requires Covered(limits, s, i, all, todo) && todo != [] && todo[0] != []
    ensures var creds := all[|all| - |todo|];
      |creds| >= |todo[0]| && creds[|creds| - |todo[0]|] == todo[0][0]
  {
    var creds := all[|all| - |todo|];
    assert creds[|creds| - |todo[0]|..][0] == todo[0][0];
  }

  lemma ServiceIsOver(limits: Limits, s: Scan, i: nat, all: seq<seq<Cred>>, todo: seq<seq<Cred>>)
    requires Covered(limits, s, i, all, todo) && todo != [] && todo[0] == []
    ensures Covered(limits, s, i, all, todo[1..])
  {
    assert ServiceDealt(limits, s, i, all, |todo|);
    ServiceOver(limits, s, i, all, todo);
  }

  // ----- The end of an attempt -----

  lemma FinishedGrows(s: Scan, i: nat, outcome: Outcome)
    requires i < |s.hosts| && s.hosts[i].phase.Attempting? && s.hosts[i].HasCurrent()
    requires s.hosts[i].Current() in s.failures
    ensures Grows(s, Finished(s, i, outcome))
    ensures var log, h := Finished(s, i, outcome).log, s.hosts[i];
      |log| == |s.log| + 1 && log[|s.log|] == Entry(i, |h.todo|, h.Current(), outcome)
  {
  }

  /** The host whose attempt ended without stopping the service. */
  lemma FinishGoesOn(limits: Limits, s: Scan, i: nat, outcome: Outcome, all: seq<seq<Cred>>)
    requires i < |s.hosts| && s.hosts[i].phase.Attempting? && s.hosts[i].HasCurrent()
    requires s.hosts[i].Current() in s.failures && Covered(limits, s, i, all, s.hosts[i].todo) && !Stops(outcome)
    ensures Covered(limits, Finished(s, i, outcome), i, all, Finished(s, i, outcome).hosts[i].todo)
  {
    var s', todo := Finished(s, i, outcome), s.hosts[i].todo;
    FinishedGrows(s, i, outcome);
    CurrentInList(limits, s, i, all, todo);
    StillCovered(limits, s, s', i, all, todo);
    assert s'.log[|s.log|].cred == todo[0][0];
    CredentialOver(limits, s', i, all, todo);
  }

  /** One more entry for the current service, which goes on. */
  lemma StillCovered(limits: Limits, s: Scan, s': Scan, i: nat, all: seq<seq<Cred>>, todo: seq<seq<Cred>>)
    requires Grows(s, s') && Covered(limits, s, i, all, todo) && |s'.log| == |s.log| + 1
    requires s'.log[|s.log|].service == |todo| && !Stops(s'.log[|s.log|].outcome)
    ensures Covered(limits, s', i, all, todo)
  {
    forall l | |todo| < l <= |all|
      ensures ServiceDealt(limits, s', i, all, l)
    {
      assert ServiceDealt(limits, s, i, all, l);
      DealtUpToGrows(limits, s, s', i, l, all[|all| - l], |all[|all| - l]|);
    }
    if todo != [] {
      var creds := all[|all| - |todo|];
      DealtUpToGrows(limits, s, s', i, |todo|, creds, |creds| - |todo[0]|);
    }
  }

  /** The host whose attempt stopped the service: the credentials after it are needless. */
  lemma FinishStops(limits: Limits, s: Scan, i: nat, outcome: Outcome, all: seq<seq<Cred>>)
    requires i < |s.hosts| && s.hosts[i].phase.Attempting? && s.hosts[i].HasCurrent()
    requires s.hosts[i].Current() in s.failures && Covered(limits, s, i, all, s.hosts[i].todo) && Stops(outcome)
    ensures Covered(limits, Finished(s, i, outcome), i, all, Finished(s, i, outcome).hosts[i].todo)
  {
    var s', todo := Finished(s, i, outcome), s.hosts[i].todo;
    FinishedGrows(s, i, outcome);
    CurrentInList(limits, s, i, all, todo);
    forall l | |todo| <= l <= |all|
      ensures ServiceDealt(limits, s', i, all, l)
    {
      if l > |todo| {
        assert ServiceDealt(limits, s, i, all, l);
        DealtUpToGrows(limits, s, s', i, l, all[|all| - l], |all[|all| - l]|);
      } else {
        StoppedIsDealt(limits, s, s', i, |todo|, all[|all| - |todo|], |all[|all| - |todo|]| - |todo[0]|);
      }
    }
    ServiceOver(limits, s', i, all, todo);
    assert s'.hosts[i].todo == todo[1..];
  }

  lemma StoppedIsDealt(limits: Limits, s: Scan, s': Scan, i: nat, l: nat, creds: seq<Cred>, n: nat)
    requires Grows(s, s') && n < |creds| && DealtUpTo(limits, s, i, l, creds, n) && |s'.log| == |s.log| + 1
    requires var e := s'.log[|s.log|]; e.host == i && e.service == l && e.cred == creds[n] && Stops(e.outcome)
    ensures DealtUpTo(limits, s', i, l, creds, |creds|)
  {
    forall j | 0 <= j < |creds|
      ensures Dealt(limits, s', i, l, creds, j)
    {
      if j < n {
        DealtGrows(limits, s, s', i, l, creds, j);
      } else if j > n {
        assert creds[..j][n] == creds[n];
      }
    }
  }

  // ----- Every step -----

  /** What a step makes of the host that takes it. */
  lemma OwnStepCovered(limits: Limits, s: Scan, a: Action, all: seq<seq<Cred>>)
    requires WellFormed(s) && Enabled(limits, s, a) && Covered(limits, s, a.host, all, s.hosts[a.host].todo)
    ensures var s' := Apply(limits, s, a); Covered(limits, s', a.host, all, s'.hosts[a.host].todo)
  {
    var i := a.host;
    var h, s' := s.hosts[i], Apply(limits, s, a);
    assert Known(s, h);
    if a.Finish? {
      if Stops(a.outcome) {
        FinishStops(limits, s, i, a.outcome, all);
      } else {
        FinishGoesOn(limits, s, i, a.outcome, all);
      }
    } else {
      CoveredGrows(limits, s, s', i, all, h.todo);
      if a.NextService? {
        ServiceIsOver(limits, s', i, all, h.todo);
      } else if (a.Decide? || a.TakeLock?) && Retired(limits, s, h.Current()) {
        CurrentInList(limits, s', i, all, h.todo);
        CredentialOver(limits, s', i, all, h.todo);
      }
    }
  }

  lemma StepGrows(limits: Limits, s: Scan, a: Action)
    requires WellFormed(s) && Enabled(limits, s, a)
    ensures var s' := Apply(limits, s, a);
      && Grows(s, s') && |s'.hosts| == |s.hosts|
      && (forall i | 0 <= i < |s.hosts| && i != a.host :: s'.hosts[i] == s.hosts[i])
      && (forall k | |s.log| <= k < |s'.log| :: s'.log[k].host == a.host)
      && (s'.hosts[a.host].phase.Done? ==> s'.hosts[a.host].todo == [])
  {
    assert Known(s, s.hosts[a.host]);
  }

  lemma StepProgress(limits: Limits, s0: Scan, s: Scan, a: Action)
    requires WellFormed(s) && Enabled(limits, s, a) && Progress(limits, s0, s)
    ensures Progress(limits, s0, Apply(limits, s, a))
  {
    var s' := Apply(limits, s, a);
    StepGrows(limits, s, a);
    forall i | 0 <= i < |s'.hosts|
      ensures Covered(limits, s', i, s0.hosts[i].todo, s'.hosts[i].todo)
    {
      if i == a.host {
        OwnStepCovered(limits, s, a, s0.hosts[i].todo);
      } else {
        CoveredGrows(limits, s, s', i, s0.hosts[i].todo, s.hosts[i].todo);
      }
    }
  }

  lemma StepStopsLast(limits: Limits, s0: Scan, s: Scan, a: Action)
    requires WellFormed(s) && Enabled(limits, s, a) && Progress(limits, s0, s) && StopsLast(s.log)
    ensures StopsLast(Apply(limits, s, a).log)
  {
    assert Covered(limits, s, a.host, s0.hosts[a.host].todo, s.hosts[a.host].todo);
  }

  lemma InitProgress(limits: Limits, s: Scan)
    requires Init(s)
    ensures Progress(limits, s, s) && StopsLast(s.log)
  {
  }

  lemma {:induction false} RunProgress(limits: Limits, s0: Scan, s: Scan, actions: seq<Action>, t: Scan)
    requires Run(limits, s, actions, t) && Progress(limits, s0, s) && StopsLast(s.log)
    ensures Progress(limits, s0, t) && StopsLast(t.log)
    decreases actions
  {
    if actions != [] {
      StepProgress(limits, s0, s, actions[0]);
      StepStopsLast(limits, s0, s, actions[0]);
      RunProgress(limits, s0, Apply(limits, s, actions[0]), actions[1..], t);
    }
  }

  // ----- The theorems -----

  /**
   * A scan that has ended with every host done has dealt with every credential of every service of
   * every host: it was tried there, or it is at the limit, or an earlier one ended the service.
   */
  lemma ScanCovers(limits: Limits, s: Scan, actions: seq<Action>, t: Scan, i: nat, k: nat, j: nat)
    requires Init(s) && Run(limits, s, actions, t) && forall h | h in t.hosts :: h.phase.Done?
    requires i < |s.hosts| && k < |s.hosts[i].todo| && j < |s.hosts[i].todo[k]|
    ensures Dealt(limits, t, i, |s.hosts[i].todo| - k, s.hosts[i].todo[k], j)
  {
    InitProgress(limits, s);
    RunProgress(limits, s, s, actions, t);
    assert t.hosts[i] in t.hosts;
    assert ServiceDealt(limits, t, i, s.hosts[i].todo, |s.hosts[i].todo| - k);
  }

  /** And once a service has been stopped on a host, no attempt for it follows. */
  lemma NothingAfterStop(limits: Limits, s: Scan, actions: seq<Action>, t: Scan)
    requires Init(s) && Run(limits, s, actions, t)
    ensures StopsLast(t.log)
  {
    InitProgress(limits, s);
    RunProgress(limits, s, s, actions, t);
  }
}
