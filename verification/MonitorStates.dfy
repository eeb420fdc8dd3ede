/** The confirmation-count state machine of one monitor (watchpost/state.py).

    `After` and `Change` are the specification of one observation; the class
    `MonitorState` carries the fields the source updates in place.  What the
    counters are for is stated on the whole history of poll results, without
    mentioning a counter: `SpecState` is the verdict of the latest prefix that
    has one. */
module MonitorStates {
  import opened Wrappers

  datatype Verdict = Ok | Warn | Fail

  datatype State = Pending | Up | Warning | Down

  datatype Transition = Transition(previous: State, current: State) {
    predicate Alertable() {
      !(previous == Pending && current == Up)
    }
  }

  datatype Status = Status(failuresToDown: int, recoveriesToUp: int, state: State,
                           bad: int, warnish: int, good: int, alertOpen: bool)

  predicate IsProblem(s: State) {
    s == Down || s == Warning
  }

  function Fresh(failuresToDown: int, recoveriesToUp: int): Status {
    Status(failuresToDown, recoveriesToUp, Pending, 0, 0, 0, false)
  }

  /** The counters after one more result; the state is not touched yet. */
  function Count(s: Status, r: Verdict): Status {
    match r
    case Fail => s.(bad := s.bad + 1, warnish := s.warnish + 1, good := 0)
    case Warn => s.(bad := 0, warnish := s.warnish + 1, good := 0)
    case Ok => s.(bad := 0, warnish := 0, good := s.good + 1)
  }

  function Target(s: Status, r: Verdict): Option<State> {
    if s.bad >= s.failuresToDown then Some(Down)
    else if s.warnish >= s.failuresToDown && r != Ok then Some(Warning)
    else if s.good >= s.recoveriesToUp then Some(Up)
    else None
  }

  function After(s: Status, r: Verdict): Status {
    var c := Count(s, r);
    match Target(c, r)
    case None => c
    case Some(t) => c.(state := t)
  }

  function Change(s: Status, r: Verdict): Option<Transition> {
    if After(s, r).state == s.state then None
    else Some(Transition(s.state, After(s, r).state))
  }

  class MonitorState {
    const failuresToDown: int
    const recoveriesToUp: int
    var state: State
    var bad: int
    var warnish: int
    var good: int
    var alertOpen: bool

    function View(): Status
      reads this
    {
      Status(failuresToDown, recoveriesToUp, state, bad, warnish, good, alertOpen)
    }

    constructor (failuresToDown: int, recoveriesToUp: int)
      ensures View() == Fresh(failuresToDown, recoveriesToUp)
    {
      this.failuresToDown, this.recoveriesToUp := failuresToDown, recoveriesToUp;
      state, bad, warnish, good, alertOpen := Pending, 0, 0, 0, false;
    }

    method Observe(r: Verdict) returns (tr: Option<Transition>)
      modifies this
      ensures View() == After(old(View()), r)
      ensures tr == Change(old(View()), r)
    {
      match r {
        case Fail =>
          bad, warnish, good := bad + 1, warnish + 1, 0;
        case Warn =>
          bad, warnish, good := 0, warnish + 1, 0;
        case Ok =>
          bad, warnish, good := 0, 0, good + 1;
      }
      var target: Option<State> := None;
      if bad >= failuresToDown {
        target := Some(Down);
      } else if warnish >= failuresToDown && r != Ok {
        target := Some(Warning);
      } else if good >= recoveriesToUp {
        target := Some(Up);
      }
      if target == None || target == Some(state) {
        return None;
      }
      tr := Some(Transition(state, target.value));
      state := target.value;
    }
  }

  // ---------------------------------------------------------------- histories

  function Replay(s: Status, h: seq<Verdict>): (r: Status)
    ensures r.failuresToDown == s.failuresToDown && r.recoveriesToUp == s.recoveriesToUp
    ensures r.alertOpen == s.alertOpen
  {
    if h == [] then s else After(Replay(s, h[..|h| - 1]), h[|h| - 1])
  }

  lemma {:induction false} ReplayAppend(s: Status, h: seq<Verdict>, k: seq<Verdict>)
    ensures Replay(s, h + k) == Replay(Replay(s, h), k)
  {
    if k == [] {
      assert h + k == h;
    } else {
      var k' := k[..|k| - 1];
      assert (h + k)[..|h + k| - 1] == h + k';
      ReplayAppend(s, h, k');
    }
  }

  /** The last `n` results of `h` are all among `kinds`. */
  ghost predicate EndsIn(h: seq<Verdict>, n: int, kinds: set<Verdict>) {
    n <= |h| && forall i | 0 <= i < |h| && |h| - n <= i :: h[i] in kinds
  }

  /** What the last results of a history say, if they say anything. */
  ghost function WindowVerdict(h: seq<Verdict>, failuresToDown: int, recoveriesToUp: int): Option<State> {
    if EndsIn(h, failuresToDown, {Fail}) then Some(Down)
    else if EndsIn(h, failuresToDown, {Fail, Warn}) then Some(Warning)
    else if EndsIn(h, recoveriesToUp, {Ok}) then Some(Up)
    else None
  }

  /** The verdict of the latest prefix of `h` that has one. */
  ghost function SpecState(h: seq<Verdict>, failuresToDown: int, recoveriesToUp: int): State {
    if h == [] then Pending
    else match WindowVerdict(h, failuresToDown, recoveriesToUp)
      case Some(v) => v
      case None => SpecState(h[..|h| - 1], failuresToDown, recoveriesToUp)
  }

  /** `n` is the length of the longest suffix of `h` among `kinds`. */
  ghost predicate LongestSuffix(h: seq<Verdict>, n: int, kinds: set<Verdict>) {
    0 <= n && EndsIn(h, n, kinds) && (n == |h| || h[|h| - 1 - n] !in kinds)
  }

  lemma LongestSuffixStep(k: seq<Verdict>, r: Verdict, n: int, kinds: set<Verdict>)
    requires LongestSuffix(k, n, kinds)
    ensures LongestSuffix(k + [r], if r in kinds then n + 1 else 0, kinds)
  {
    var h := k + [r];
    assert forall i | 0 <= i < |k| :: h[i] == k[i];
  }

  lemma CounterStep(s: Status, r: Verdict)
    ensures After(s, r).bad == if r in {Fail} then s.bad + 1 else 0
    ensures After(s, r).warnish == if r in {Fail, Warn} then s.warnish + 1 else 0
    ensures After(s, r).good == if r in {Ok} then s.good + 1 else 0
  {
  }

  lemma {:induction false} CountersAreSuffixes(f: int, u: int, h: seq<Verdict>)
    ensures var s := Replay(Fresh(f, u), h);
            && LongestSuffix(h, s.bad, {Fail})
            && LongestSuffix(h, s.warnish, {Fail, Warn})
            && LongestSuffix(h, s.good, {Ok})
  {
    if h != [] {
      var k := h[..|h| - 1];
      var r := h[|h| - 1];
      var s := Replay(Fresh(f, u), k);
      assert h == k + [r];
      CountersAreSuffixes(f, u, k);
      CounterStep(s, r);
      LongestSuffixStep(k, r, s.bad, {Fail});
      LongestSuffixStep(k, r, s.warnish, {Fail, Warn});
      LongestSuffixStep(k, r, s.good, {Ok});
    }
  }

  /** The counter machine computes exactly the window specification. */
  lemma {:induction false} CountersMeetWindows(f: int, u: int, h: seq<Verdict>)
    ensures Replay(Fresh(f, u), h).state == SpecState(h, f, u)
  {
    if h != [] {
      CountersMeetWindows(f, u, h[..|h| - 1]);
      CountersAreSuffixes(f, u, h);
    }
  }

  predicate EntersDown(s: Status, r: Verdict) {
    Change(s, r) == Some(Transition(s.state, Down))
  }

  /** How many transitions into Down the history of results contains. */
  function DownTransitions(s: Status, h: seq<Verdict>): nat {
    if h == [] then 0
    else
      var k := h[..|h| - 1];
      DownTransitions(s, k) + if EntersDown(Replay(s, k), h[|h| - 1]) then 1 else 0
  }

  /** The potential behind the bound: `cost` is f + 1 for every outage so far,
      f failures and then at least one result that is no failure. */
  ghost predicate Paid(s: Status, cost: int, n: int) {
    && 0 <= s.bad <= s.warnish
    && (s.bad >= s.failuresToDown ==> s.state == Down && cost <= n + 1)
    && (s.bad < s.failuresToDown ==> cost + s.bad <= n)
  }

  lemma PaidStep(s: Status, r: Verdict, cost: int, n: int)
    requires s.failuresToDown >= 1 && Paid(s, cost, n)
    ensures Paid(After(s, r), cost + (if EntersDown(s, r) then s.failuresToDown + 1 else 0), n + 1)
  {
  }

  /** A transition into Down costs f + 1 results. */
  lemma OneMorePaid(s: Status, r: Verdict, f: int, c: nat, n: nat)
    requires f == s.failuresToDown >= 1 && Paid(s, c * (f + 1), n)
    ensures Paid(After(s, r), (c + if EntersDown(s, r) then 1 else 0) * (f + 1), n + 1)
  {
    PaidStep(s, r, c * (f + 1), n);
    assert (c + 1) * (f + 1) == c * (f + 1) + (f + 1);
  }

  lemma {:induction false} DownTransitionsPaid(f: int, u: int, h: seq<Verdict>)
    requires f >= 1
    ensures Paid(Replay(Fresh(f, u), h), DownTransitions(Fresh(f, u), h) * (f + 1), |h|)
  {
    if h != [] {
      var k := h[..|h| - 1];
      DownTransitionsPaid(f, u, k);
      OneMorePaid(Replay(Fresh(f, u), k), h[|h| - 1], f, DownTransitions(Fresh(f, u), k), |k|);
    }
  }

  /** With a threshold below one every result means down, so down is entered once. */
  lemma {:induction false} DownAtOnce(f: int, u: int, h: seq<Verdict>)
    requires f <= 0
    ensures Replay(Fresh(f, u), h).bad >= 0
    ensures DownTransitions(Fresh(f, u), h) == if h == [] then 0 else 1
    ensures h != [] ==> Replay(Fresh(f, u), h).state == Down
  {
    if h != [] {
      DownAtOnce(f, u, h[..|h| - 1]);
    }
  }

  /** Flapping is rate-limited: among n results at most (n + 1) / (f + 1) enter Down. */
  lemma DownTransitionsAreRare(f: int, u: int, h: seq<Verdict>)
    ensures DownTransitions(Fresh(f, u), h) * (f + 1) <= |h| + 1
  {
    if f >= 1 {
      DownTransitionsPaid(f, u, h);
    } else {
      DownAtOnce(f, u, h);
    }
  }
}
