/** How discovery shares credentials between hosts that are scanned at the same
    time (watchpost/discovery.py).

    A scan is a sequence of atomic steps, the code between two suspensions.  Any
    number of hosts is scanned, at most `concurrency` of them at once; which host
    moves next, and what an attempt comes to, is arbitrary. */
module Lockouts {

  type Cred = string

  /** What an attempt came to; `stop` ends the service's loop over credentials. */
  datatype Outcome = Accepted(stop: bool) | Rejected | Errored(stop: bool)

  datatype Phase = Idle | Ready | Waiting | Attempting(locked: bool) | Done

  /** `todo` lists, for each service that is still to be tried, the credentials in order. */
  datatype Host = Host(phase: Phase, todo: seq<seq<Cred>>) {
    predicate HasCurrent() {
      todo != [] && todo[0] != []
    }

    function Current(): Cred
      requires HasCurrent()
    {
      todo[0][0]
    }

    /** The credential is dealt with: on to the next one, or to the next service. */
    function Next(stop: bool): Host
      requires HasCurrent()
    {
      Host(Ready, (if stop then [] else [todo[0][1..]]) + todo[1..])
    }
  }

  /** An attempt that has ended: on which host, for which of its services (counted from the last), with what. */
  datatype Entry = Entry(host: nat, service: nat, cred: Cred, outcome: Outcome)

  datatype Scan = Scan(
    hosts: seq<Host>,
    held: map<Cred, nat>,
    failures: map<Cred, nat>,
    proven: set<Cred>,
    log: seq<Entry>)

  datatype Limits = Limits(maxAuthFailures: int, concurrency: int)

  datatype Action =
    | Enter(host: nat)
    | Leave(host: nat)
    | NextService(host: nat)
    | Decide(host: nat)
    | TakeLock(host: nat)
    | Finish(host: nat, outcome: Outcome)

  // ----- Totals over hosts -----

  function Total(hosts: seq<Host>, f: Host -> nat): nat {
    if hosts == [] then 0 else f(hosts[0]) + Total(hosts[1..], f)
  }

  lemma {:induction false} TotalUpdate(hosts: seq<Host>, i: nat, h: Host, f: Host -> nat)
    requires i < |hosts|
    ensures Total(hosts[i := h], f) + f(hosts[i]) == Total(hosts, f) + f(h)
  {
    if i > 0 {
      TotalUpdate(hosts[1..], i - 1, h, f);
      assert hosts[i := h][1..] == hosts[1..][i - 1 := h];
    } else {
      assert hosts[i := h][1..] == hosts[1..];
    }
  }

  lemma {:induction false} TotalBelow(hosts: seq<Host>, f: Host -> nat, g: Host -> nat)
    requires forall h | h in hosts :: f(h) <= g(h)
    ensures Total(hosts, f) <= Total(hosts, g)
  {
    if hosts != [] {
      TotalBelow(hosts[1..], f, g);
    }
  }

  predicate IsActive(h: Host) {
    h.phase.Ready? || h.phase.Waiting? || h.phase.Attempting?
  }

  predicate Tries(h: Host, c: Cred) {
    h.phase.Attempting? && h.HasCurrent() && h.Current() == c
  }

  function ActiveOne(): Host -> nat {
    h => if IsActive(h) then 1 else 0
  }

  function TryingOne(c: Cred): Host -> nat {
    h => if Tries(h, c) then 1 else 0
  }

  /** Hosts inside the semaphore. */
  function Active(s: Scan): nat {
    Total(s.hosts, ActiveOne())
  }

  /** Attempts with `c` in flight. */
  function InFlight(s: Scan, c: Cred): nat {
    Total(s.hosts, TryingOne(c))
  }

  // ----- The steps -----

  predicate Known(s: Scan, h: Host) {
    forall k, j | 0 <= k < |h.todo| && 0 <= j < |h.todo[k]| :: h.todo[k][j] in s.failures
  }

  predicate WellFormed(s: Scan) {
    forall h | h in s.hosts :: Known(s, h) && (h.phase.Waiting? || h.phase.Attempting? ==> h.HasCurrent())
  }

  predicate Enabled(limits: Limits, s: Scan, a: Action)
    requires WellFormed(s)
  {
    a.host < |s.hosts| &&
    var h := s.hosts[a.host];
    match a
    case Enter(_) => h.phase.Idle? && Active(s) < limits.concurrency
    case Leave(_) => h.phase.Ready? && h.todo == []
    case NextService(_) => h.phase.Ready? && h.todo != [] && h.todo[0] == []
    case Decide(_) => h.phase.Ready? && h.HasCurrent()
    case TakeLock(_) => h.phase.Waiting? && h.Current() !in s.held
    case Finish(_, _) => h.phase.Attempting?
  }

  function Put(s: Scan, i: nat, h: Host): Scan
    requires i < |s.hosts|
  {
    s.(hosts := s.hosts[i := h])
  }

  function Retired(limits: Limits, s: Scan, c: Cred): bool
    requires c in s.failures
  {
    s.failures[c] >= limits.maxAuthFailures
  }

  /** Before the lock: skip a retired credential, use a proven one freely, queue for any other. */
  function Decided(limits: Limits, s: Scan, i: nat): Scan
    requires i < |s.hosts| && s.hosts[i].HasCurrent() && s.hosts[i].Current() in s.failures
  {
    var h := s.hosts[i];
    if Retired(limits, s, h.Current()) then Put(s, i, h.Next(false))
    else if h.Current() in s.proven then Put(s, i, h.(phase := Attempting(false)))
    else Put(s, i, h.(phase := Waiting))
  }

  /** With the lock: look again, and either give the lock back or hold it for the attempt. */
  function Locked(limits: Limits, s: Scan, i: nat): Scan
    requires i < |s.hosts| && s.hosts[i].HasCurrent() && s.hosts[i].Current() in s.failures
  {
    var h := s.hosts[i];
    if Retired(limits, s, h.Current()) then Put(s, i, h.Next(false))
    else Put(s, i, h.(phase := Attempting(true))).(held := s.held[h.Current() := i])
  }

  /** The attempt is over: count a rejection, remember a success, let go of the lock. */
  function Finished(s: Scan, i: nat, outcome: Outcome): Scan
    requires i < |s.hosts| && s.hosts[i].phase.Attempting?
    requires s.hosts[i].HasCurrent() && s.hosts[i].Current() in s.failures
  {
    var h := s.hosts[i];
    var c := h.Current();
    Scan(
      s.hosts[i := h.Next(if outcome.Rejected? then false else outcome.stop)],
      if h.phase.locked then s.held - {c} else s.held,
      if outcome.Rejected? then s.failures[c := s.failures[c] + 1] else s.failures,
      if outcome.Accepted? then s.proven + {c} else s.proven,
      s.log + [Entry(i, |h.todo|, c, outcome)])
  }

  function Apply(limits: Limits, s: Scan, a: Action): Scan
    requires WellFormed(s) && Enabled(limits, s, a)
  {
    var i := a.host;
    var h := s.hosts[i];
    match a
    case Enter(_) => Put(s, i, h.(phase := Ready))
    case Leave(_) => Put(s, i, h.(phase := Done))
    case NextService(_) => Put(s, i, h.(todo := h.todo[1..]))
    case Decide(_) => Decided(limits, s, i)
    case TakeLock(_) => Locked(limits, s, i)
    case Finish(_, outcome) => Finished(s, i, outcome)
  }

  /** Nothing has been tried yet. */
  ghost predicate Init(s: Scan) {
    && s.held == map[] && s.proven == {} && s.log == []
    && (forall c | c in s.failures :: s.failures[c] == 0)
    && (forall h | h in s.hosts :: h.phase.Idle? && Known(s, h))
  }

  // ----- What the log says -----

  function Rejections(log: seq<Entry>, c: Cred): nat {
    if log == [] then 0
    else
      var last := log[|log| - 1];
      Rejections(log[..|log| - 1], c) + if last.cred == c && last.outcome.Rejected? then 1 else 0
  }

  predicate EverAccepted(log: seq<Entry>, c: Cred) {
    exists k | 0 <= k < |log| :: log[k].cred == c && log[k].outcome.Accepted?
  }

  function Positive(n: int): nat {
    if n < 0 then 0 else n
  }
}
