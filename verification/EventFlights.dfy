/** What the event table holds over every interleaving: the state changes that were
    seen and the problems that were sent, but for what is still on its way there. */
module EventFlights {
  import opened Wrappers
  import opened MonitorStates
  import opened Networks
  import opened Engine
  import opened Logbooks
  import opened Interleavings
  import opened Discipline
  import opened Behaviours
  import opened Guarantees
  import opened InterleavedConditions

  // ----- What the tasks carry -----

  function StackLoad<T>(k: Stack, load: Activation -> multiset<T>): multiset<T> {
    if k == [] then multiset{} else StackLoad(k[..|k| - 1], load) + load(Top(k))
  }

  /** What the tasks below `n` carry together. */
  function Flight<T>(stacks: map<Task, Stack>, load: Activation -> multiset<T>, n: nat): multiset<T> {
    if n == 0 then multiset{}
    else Flight(stacks, load, n - 1) + if n - 1 in stacks then StackLoad(stacks[n - 1], load) else multiset{}
  }

  /** A state change of m that is seen and not in the event table. */
  function Unrecorded(m: string): Activation -> multiset<Transition> {
    (a: Activation) => if a.monitor == m then Underway(a.stage) else multiset{}
  }

  function Underway(g: Stage): multiset<Transition> {
    if g.Deciding? || g.Confirming? || g.Logging? then multiset{g.change} else multiset{}
  }

  /** What is sent of a notice that is recorded. */
  function Sendable(n: Notice): multiset<Notice> {
    if n.note.SuppressedBy? then multiset{} else multiset{n}
  }

  /** An alert that is decided and not in the event table. */
  function Unlogged(): Activation -> multiset<Notice> {
    (a: Activation) => Decided(a.monitor, a.stage)
  }

  function Decided(m: string, g: Stage): multiset<Notice> {
    match g
    case Logging(tr, _, note) => Sendable(Notice(m, tr, note))
    case LoggingStill(_, _, n) => Sendable(n)
    case _ => multiset{}
  }

  /** Only between a transition and its event is anything carried. */
  ghost predicate Rests<T>(load: Activation -> multiset<T>) {
    forall a: Activation | !a.stage.Deciding? && !a.stage.Confirming? && !a.stage.Logging? && !a.stage.LoggingStill?
      :: load(a) == multiset{}
  }

  lemma {:induction false} FlightBelow<T>(stacks: map<Task, Stack>, load: Activation -> multiset<T>, n: nat, t: Task,
                                          k: Stack)
    requires n <= t
    ensures Flight(stacks[t := k], load, n) == Flight(stacks, load, n)
  {
    if n > 0 {
      FlightBelow(stacks, load, n - 1, t, k);
    }
  }

  lemma Swapped<T>(a: multiset<T>, b: multiset<T>, c: multiset<T>)
    ensures a + b + c == a + c + b
  {
  }

  /** One stack changes. */
  lemma {:induction false} FlightMoves<T>(stacks: map<Task, Stack>, load: Activation -> multiset<T>, n: nat, t: Task,
                                          k: Stack)
    requires t in stacks && t < n
    ensures Flight(stacks[t := k], load, n) + StackLoad(stacks[t], load) == Flight(stacks, load, n) + StackLoad(k, load)
  {
    var stacks' := stacks[t := k];
    var f, f', was := Flight(stacks, load, n - 1), Flight(stacks', load, n - 1), StackLoad(stacks[t], load);
    if t == n - 1 {
      FlightBelow(stacks, load, n - 1, t, k);
      Swapped(f, StackLoad(k, load), was);
    } else {
      FlightMoves(stacks, load, n - 1, t, k);
      var x := if n - 1 in stacks then StackLoad(stacks[n - 1], load) else multiset{};
      Swapped(f', x, was);
      Swapped(f, StackLoad(k, load), x);
    }
  }

  lemma {:induction false} NothingCarried<T>(stacks: map<Task, Stack>, load: Activation -> multiset<T>, n: nat)
    requires forall t | t in stacks :: stacks[t] == []
    ensures Flight(stacks, load, n) == multiset{}
  {
    if n > 0 {
      NothingCarried(stacks, load, n - 1);
    }
  }

  /** A step of t takes `gained` on board and sets `lost` down. */
  ghost predicate Carries<T>(s: Machine, s': Machine, t: Task, load: Activation -> multiset<T>, lost: multiset<T>,
                             gained: multiset<T>) {
    && t in s.stacks && t in s'.stacks && s'.stacks == s.stacks[t := s'.stacks[t]]
    && StackLoad(s'.stacks[t], load) + lost == StackLoad(s.stacks[t], load) + gained
  }

  lemma Cancelled<T>(a: multiset<T>, b: multiset<T>, x: multiset<T>, y: multiset<T>, z: multiset<T>)
    requires a + x + z == b + y + z
    ensures a + x == b + y
  {
    forall i
      ensures (a + x)[i] == (b + y)[i]
    {
      assert (a + x + z)[i] == (b + y + z)[i];
    }
  }

  lemma FlightCarries<T>(s: Machine, s': Machine, t: Task, load: Activation -> multiset<T>, lost: multiset<T>,
                         gained: multiset<T>, n: nat)
    requires Carries(s, s', t, load, lost, gained) && t < n
    ensures Flight(s'.stacks, load, n) + lost == Flight(s.stacks, load, n) + gained
  {
    var f, f', k, k' := Flight(s.stacks, load, n), Flight(s'.stacks, load, n),
                        StackLoad(s.stacks[t], load), StackLoad(s'.stacks[t], load);
    FlightMoves(s.stacks, load, n, t, s'.stacks[t]);
    calc {
      f' + lost + k;
      (f' + k) + lost;
      (f + k') + lost;
      f + (k' + lost);
      f + (k + gained);
      f + gained + k;
    }
    Cancelled(f', f, lost, gained, k);
  }

  lemma PushLoad<T>(k: Stack, a: Activation, load: Activation -> multiset<T>)
    ensures StackLoad(k + [a], load) == StackLoad(k, load) + load(a)
  {
    assert (k + [a])[..|k|] == k;
  }

  lemma SetTopLoad<T>(k: Stack, g: Stage, load: Activation -> multiset<T>)
    requires k != []
    ensures StackLoad(SetTop(k, g), load) + load(Top(k))
         == StackLoad(k, load) + load(Activation(Top(k).monitor, g))
  {
    PushLoad(k[..|k| - 1], Activation(Top(k).monitor, g), load);
  }

  lemma GotoCarries<T>(s: Machine, s': Machine, t: Task, g: Stage, load: Activation -> multiset<T>)
    requires Active(s, t) && s'.stacks == s.stacks[t := SetTop(s.stacks[t], g)]
    ensures Carries(s, s', t, load, load(Top(s.stacks[t])), load(Activation(Top(s.stacks[t]).monitor, g)))
  {
    SetTopLoad(s.stacks[t], g, load);
  }

  lemma CallCarries<T>(s: Machine, t: Task, g: Stage, p: string, load: Activation -> multiset<T>)
    requires Active(s, t) && Rests(load)
    ensures Carries(s, Call(s, t, SetTop(s.stacks[t], g), p), t, load,
                    load(Top(s.stacks[t])), load(Activation(Top(s.stacks[t]).monitor, g)))
  {
    SetTopLoad(s.stacks[t], g, load);
    PushLoad(SetTop(s.stacks[t], g), Activation(p, WaitLock), load);
  }

  lemma ReturnCarries<T>(s: Machine, t: Task, v: Verdict, load: Activation -> multiset<T>)
    requires Active(s, t) && Top(s.stacks[t]).stage.Returning? && Rests(load)
    ensures Carries(s, OnReturning(s, t, v), t, load, multiset{}, multiset{})
  {
    PoppedLoad(s.stacks[t], v, load);
  }

  lemma PoppedLoad<T>(k: Stack, v: Verdict, load: Activation -> multiset<T>)
    requires k != [] && Top(k).stage.Returning? && Rests(load)
    ensures StackLoad(Popped(k, v), load) == StackLoad(k, load)
  {
    var below, none: multiset<T> := k[..|k| - 1], multiset{};
    assert load(Top(k)) == none && StackLoad(below, load) + none == StackLoad(below, load);
    if below != [] && Top(below).stage.AwaitChild? {
      var g := Checking(Top(below).stage.verdict, Top(below).stage.todo, v);
      assert load(Top(below)) == none && load(Activation(Top(below).monitor, g)) == none;
      SetTopLoad(below, g, load);
      assert StackLoad(SetTop(below, g), load) + none == StackLoad(SetTop(below, g), load);
    }
  }

  /** What is taken on board is what is set down. */
  lemma CarriesOn<T>(s: Machine, s': Machine, t: Task, load: Activation -> multiset<T>, x: multiset<T>)
    requires Carries(s, s', t, load, x, x)
    ensures Carries(s, s', t, load, multiset{}, multiset{})
  {
    var k, k', none: multiset<T> := StackLoad(s.stacks[t], load), StackLoad(s'.stacks[t], load), multiset{};
    assert k' + none == k' && k + none == k;
    Cancelled(k', k, none, none, x);
  }

  lemma GotoCarriesOn<T>(s: Machine, s': Machine, t: Task, g: Stage, load: Activation -> multiset<T>)
    requires Active(s, t) && s'.stacks == s.stacks[t := SetTop(s.stacks[t], g)]
    requires load(Top(s.stacks[t])) == load(Activation(Top(s.stacks[t]).monitor, g))
    ensures Carries(s, s', t, load, multiset{}, multiset{})
  {
    GotoCarries(s, s', t, g, load);
    CarriesOn(s, s', t, load, load(Top(s.stacks[t])));
  }

  /** The steps that neither decide nor record anything. */
  lemma PlainCarries<T>(e: Site, max: int, s: Machine, a: Action, load: Activation -> multiset<T>)
    requires Shaped(e, s) && Enabled(e, max, s, a) && !a.Continue? && !a.Resume? && !a.Logged? && Rests(load)
    ensures Carries(s, Apply(e, max, s, a), a.task, load, multiset{}, multiset{})
  {
    match a
    case Wake(t, m) => PushLoad([], Activation(m, WaitLock), load);
    case TakeLock(t) => RestingCarries(s, Apply(e, max, s, a), t, WaitSem, load);
    case TakeSem(t) => RestingCarries(s, Apply(e, max, s, a), t, Probing, load);
    case Answer(t, v) => RestingCarries(s, Apply(e, max, s, a), t, Writing(v), load);
    case WriteRow(t) => RestingCarries(s, Apply(e, max, s, a), t, Written(Top(s.stacks[t]).stage.verdict), load);
  }

  lemma RestingCarries<T>(s: Machine, s': Machine, t: Task, g: Stage, load: Activation -> multiset<T>)
    requires Active(s, t) && s'.stacks == s.stacks[t := SetTop(s.stacks[t], g)] && Rests(load)
    requires HoldsLock(Top(s.stacks[t]).stage) || Top(s.stacks[t]).stage.WaitLock?
    requires HoldsLock(g)
    ensures Carries(s, s', t, load, multiset{}, multiset{})
  {
    assert load(Top(s.stacks[t])) == multiset{} == load(Activation(Top(s.stacks[t]).monitor, g));
    GotoCarriesOn(s, s', t, g, load);
  }

  // ----- State changes and events -----

  /** The results that have been observed: all but a late one. */
  function Seen(h: seq<Verdict>, late: Option<Verdict>): seq<Verdict> {
    if late.Some? && h != [] then h[..|h| - 1] else h
  }

  /** The books of one monitor: its status is the replay of what was observed, and its events and the state
      changes on their way to the event table are all the state changes that makes. */
  ghost predicate Books(start: Status, st: Status, h: seq<Verdict>, late: Option<Verdict>, events: seq<Transition>,
                        flight: multiset<Transition>) {
    && (late.Some? ==> h != [] && h[|h| - 1] == late.value)
    && Replay(start, Seen(h, late)) == st.(alertOpen := false)
    && multiset(events) + flight == multiset(Changes(start, Seen(h, late)))
  }

  ghost predicate Booked(e: Site, s: Machine, n: nat, m: string)
    requires m in s.world.states && m in e.failures && m in e.recoveries
  {
    Books(Fresh(e.failures[m], e.recoveries[m]), s.world.states[m], RowsOf(s.world.rows, m),
          Unobserved(s.stacks, s.held, m), EventsOf(s.world.events, m), Flight(s.stacks, Unrecorded(m), n))
  }

  lemma UnrecordedRests(m: string)
    ensures Rests(Unrecorded(m))
  {
  }

  /** Nothing is observed and nothing recorded. */
  lemma QuietBooks(start: Status, st: Status, st': Status, h: seq<Verdict>, late: Option<Verdict>,
                   events: seq<Transition>, flight: multiset<Transition>, flight': multiset<Transition>)
    requires Books(start, st, h, late, events, flight) && st'.(alertOpen := false) == st.(alertOpen := false)
    requires flight' + multiset{} == flight + multiset{}
    ensures Books(start, st', h, late, events, flight')
  {
    assert flight' == flight' + multiset{} == flight + multiset{} == flight;
  }

  /** A state change is recorded. */
  lemma RecordBooks(start: Status, st: Status, h: seq<Verdict>, late: Option<Verdict>, events: seq<Transition>,
                    flight: multiset<Transition>, flight': multiset<Transition>, tr: Transition)
    requires Books(start, st, h, late, events, flight) && flight' + multiset{tr} == flight + multiset{}
    ensures Books(start, st, h, late, events + [tr], flight')
  {
    assert multiset(events + [tr]) == multiset(events) + multiset{tr};
    assert multiset(events + [tr]) + flight' == multiset(events) + (flight' + multiset{tr});
    assert flight + multiset{} == flight;
  }

  /** A row is written; its result is not observed yet. */
  lemma RowBooks(start: Status, st: Status, h: seq<Verdict>, events: seq<Transition>, flight: multiset<Transition>,
                 flight': multiset<Transition>, v: Verdict)
    requires Books(start, st, h, None, events, flight) && flight' + multiset{} == flight + multiset{}
    ensures Books(start, st, h + [v], Some(v), events, flight')
  {
    assert (h + [v])[..|h|] == h;
    assert flight' == flight' + multiset{} == flight + multiset{} == flight;
  }

  function Gained(st: Status, v: Verdict): multiset<Transition> {
    if Change(st, v).Some? then multiset{Change(st, v).value} else multiset{}
  }

  lemma SeenChange(start: Status, st: Status, h: seq<Verdict>, v: Verdict)
    requires Replay(start, h) == st.(alertOpen := false)
    ensures Replay(start, h + [v]) == After(st, v).(alertOpen := false)
    ensures multiset(Changes(start, h + [v])) == multiset(Changes(start, h)) + Gained(st, v)
  {
    AfterIgnoresAlert(st, v);
    assert (h + [v])[..|h|] == h;
    ChangesStep(start, h, v);
  }

  /** The late result is observed. */
  lemma ObserveBooks(start: Status, st: Status, h: seq<Verdict>, v: Verdict, events: seq<Transition>,
                     flight: multiset<Transition>, flight': multiset<Transition>)
    requires Books(start, st, h, Some(v), events, flight) && flight' + multiset{} == flight + Gained(st, v)
    ensures Books(start, After(st, v), h, None, events, flight')
  {
    assert h[..|h| - 1] + [v] == h;
    SeenChange(start, st, h[..|h| - 1], v);
    assert flight' == flight' + multiset{};
  }

  // ----- Action by action -----

  /** Nothing is observed and nothing recorded. */
  lemma QuietBooked(e: Site, s: Machine, s': Machine, t: Task, n: nat, m: string)
    requires Shaped(e, s) && Shaped(e, s') && m in e.net.order && Booked(e, s, n, m) && t < n
    requires RowsOf(s'.world.rows, m) == RowsOf(s.world.rows, m)
    requires s'.world.states[m].(alertOpen := false) == s.world.states[m].(alertOpen := false)
    requires EventsOf(s'.world.events, m) == EventsOf(s.world.events, m)
    requires Unobserved(s'.stacks, s'.held, m) == Unobserved(s.stacks, s.held, m)
    requires Carries(s, s', t, Unrecorded(m), multiset{}, multiset{})
    ensures Booked(e, s', n, m)
  {
    FlightCarries(s, s', t, Unrecorded(m), multiset{}, multiset{}, n);
    QuietBooks(Fresh(e.failures[m], e.recoveries[m]), s.world.states[m], s'.world.states[m], RowsOf(s.world.rows, m),
               Unobserved(s.stacks, s.held, m), EventsOf(s.world.events, m),
               Flight(s.stacks, Unrecorded(m), n), Flight(s'.stacks, Unrecorded(m), n));
  }

  /** The state change on board of t is recorded. */
  lemma RecordBooked(e: Site, s: Machine, s': Machine, t: Task, n: nat, m: string, tr: Transition)
    requires Shaped(e, s) && Shaped(e, s') && m in e.net.order && Booked(e, s, n, m) && t < n
    requires s'.world.rows == s.world.rows && s'.world.states == s.world.states
    requires EventsOf(s'.world.events, m) == EventsOf(s.world.events, m) + [tr]
    requires Unobserved(s'.stacks, s'.held, m) == Unobserved(s.stacks, s.held, m)
    requires Carries(s, s', t, Unrecorded(m), multiset{tr}, multiset{})
    ensures Booked(e, s', n, m)
  {
    FlightCarries(s, s', t, Unrecorded(m), multiset{tr}, multiset{}, n);
    RecordBooks(Fresh(e.failures[m], e.recoveries[m]), s.world.states[m], RowsOf(s.world.rows, m),
                Unobserved(s.stacks, s.held, m), EventsOf(s.world.events, m),
                Flight(s.stacks, Unrecorded(m), n), Flight(s'.stacks, Unrecorded(m), n), tr);
  }

  lemma RowBooked(e: Site, s: Machine, s': Machine, t: Task, n: nat, m: string, v: Verdict)
    requires Shaped(e, s) && Shaped(e, s') && m in e.net.order && Booked(e, s, n, m) && t < n
    requires s'.world == s.world.(rows := s.world.rows + [Row(m, v)])
    requires Unobserved(s.stacks, s.held, m) == None && Unobserved(s'.stacks, s'.held, m) == Some(v)
    requires Carries(s, s', t, Unrecorded(m), multiset{}, multiset{})
    ensures Booked(e, s', n, m)
  {
    RowsStep(s.world.rows, Row(m, v), m);
    FlightCarries(s, s', t, Unrecorded(m), multiset{}, multiset{}, n);
    RowBooks(Fresh(e.failures[m], e.recoveries[m]), s.world.states[m], RowsOf(s.world.rows, m),
             EventsOf(s.world.events, m), Flight(s.stacks, Unrecorded(m), n), Flight(s'.stacks, Unrecorded(m), n), v);
  }

  lemma ObserveBooked(e: Site, s: Machine, s': Machine, t: Task, n: nat, m: string, v: Verdict)
    requires Shaped(e, s) && Shaped(e, s') && m in e.net.order && Booked(e, s, n, m) && t < n
    requires s'.world == s.world.(states := s.world.states[m := After(s.world.states[m], v)])
    requires Unobserved(s.stacks, s.held, m) == Some(v) && Unobserved(s'.stacks, s'.held, m) == None
    requires Carries(s, s', t, Unrecorded(m), multiset{}, Gained(s.world.states[m], v))
    ensures Booked(e, s', n, m)
  {
    FlightCarries(s, s', t, Unrecorded(m), multiset{}, Gained(s.world.states[m], v), n);
    ObserveBooks(Fresh(e.failures[m], e.recoveries[m]), s.world.states[m], RowsOf(s.world.rows, m), v,
                 EventsOf(s.world.events, m), Flight(s.stacks, Unrecorded(m), n), Flight(s'.stacks, Unrecorded(m), n));
  }

  lemma WriteBooks(e: Site, max: int, s: Machine, t: Task, n: nat, x: string)
    requires Disciplined(e, max, s) && Enabled(e, max, s, WriteRow(t)) && t < n
    requires Shaped(e, Apply(e, max, s, WriteRow(t))) && x in e.net.order && Booked(e, s, n, x)
    ensures Booked(e, Apply(e, max, s, WriteRow(t)), n, x)
  {
    var s', m, v := Apply(e, max, s, WriteRow(t)), Top(s.stacks[t]).monitor, Top(s.stacks[t]).stage.verdict;
    assert Holding(s.stacks[t]) == Some(m);
    TopOfSetTop(s.stacks[t], Written(v));
    UnrecordedRests(x);
    PlainCarries(e, max, s, WriteRow(t), Unrecorded(x));
    if x == m {
      RowBooked(e, s, s', t, n, m, v);
    } else {
      RowsStep(s.world.rows, Row(m, v), x);
      UnobservedOther(s.stacks, s.held, t, s'.stacks[t], m, x);
      QuietBooked(e, s, s', t, n, x);
    }
  }

  lemma ObservedCarries(s: Machine, t: Task, m: string, v: Verdict, x: string)
    requires Active(s, t) && m in s.world.states && Top(s.stacks[t]) == Activation(m, Written(v))
    ensures Carries(s, Observed(s, t, m, v), t, Unrecorded(x), multiset{},
                    if x == m then Gained(s.world.states[m], v) else multiset{})
  {
    var change, load := Change(s.world.states[m], v), Unrecorded(x);
    var g := if change.None? then Returning(v) else Deciding(change.value, v);
    assert Underway(g) == Gained(s.world.states[m], v) && Underway(Written(v)) == multiset{};
    assert load(Top(s.stacks[t])) == multiset{};
    GotoCarries(s, Observed(s, t, m, v), t, g, load);
  }

  lemma ResumeBooks(e: Site, max: int, s: Machine, t: Task, n: nat, x: string)
    requires Disciplined(e, max, s) && Enabled(e, max, s, Resume(t)) && t < n
    requires Shaped(e, Apply(e, max, s, Resume(t))) && x in e.net.order && Booked(e, s, n, x)
    ensures Booked(e, Apply(e, max, s, Resume(t)), n, x)
  {
    var s', m, v := Apply(e, max, s, Resume(t)), Top(s.stacks[t]).monitor, Top(s.stacks[t]).stage.verdict;
    assert s.stacks[t][|s.stacks[t]| - 1].monitor in e.net.order;
    assert Holding(s.stacks[t]) == Some(m);
    ObservedCarries(s, t, m, v, x);
    if x == m {
      ObserveBooked(e, s, s', t, n, m, v);
    } else {
      UnobservedOther(s.stacks, s.held, t, s'.stacks[t], m, x);
      QuietBooked(e, s, s', t, n, x);
    }
  }

  /** What t does next is to record a state change of x. */
  predicate Records(k: Stack, x: string) {
    k != [] && Top(k).monitor == x && Top(k).stage.Logging?
  }

  lemma LoggedCarries(e: Site, max: int, s: Machine, t: Task, x: string)
    requires Shaped(e, s) && Enabled(e, max, s, Logged(t))
    ensures Carries(s, Apply(e, max, s, Logged(t)), t, Unrecorded(x),
                    if Records(s.stacks[t], x) then multiset{Top(s.stacks[t]).stage.change} else multiset{}, multiset{})
  {
    var top, s', load := Top(s.stacks[t]), Apply(e, max, s, Logged(t)), Unrecorded(x);
    assert TodoOk(e, top.monitor, top.stage);
    var g := LoggedStage(e, top.stage);
    assert s'.stacks == s.stacks[t := SetTop(s.stacks[t], g)];
    assert load(Activation(top.monitor, g)) == multiset{};
    GotoCarries(s, s', t, g, load);
  }

  function LoggedStage(e: Site, g: Stage): Stage
    requires g.Logging? || (g.LoggingStill? && g.todo != [])
  {
    match g
    case Logging(tr, v, _) => if tr.current == Up then Releasing(v, e.net.order) else Returning(v)
    case LoggingStill(v, todo, _) => Releasing(v, todo[1..])
  }

  lemma LoggedEvents(e: Site, max: int, s: Machine, t: Task, x: string)
    requires Shaped(e, s) && Enabled(e, max, s, Logged(t))
    ensures var w, w' := s.world, Apply(e, max, s, Logged(t)).world;
      && w'.rows == w.rows && w'.states == w.states
      && EventsOf(w'.events, x) == EventsOf(w.events, x)
                                 + if Records(s.stacks[t], x) then [Top(s.stacks[t]).stage.change] else []
  {
    var top := Top(s.stacks[t]);
    assert TodoOk(e, top.monitor, top.stage);
    var n := if top.stage.Logging? then Notice(top.monitor, top.stage.change, top.stage.note) else top.stage.notice;
    EventStep(s.world.events, n, x);
  }

  lemma LoggedBooks(e: Site, max: int, s: Machine, t: Task, n: nat, x: string)
    requires Disciplined(e, max, s) && Enabled(e, max, s, Logged(t)) && t < n
    requires Shaped(e, Apply(e, max, s, Logged(t))) && x in e.net.order && Booked(e, s, n, x)
    ensures Booked(e, Apply(e, max, s, Logged(t)), n, x)
  {
    var s' := Apply(e, max, s, Logged(t));
    GentleStep(e, max, s, Logged(t));
    UnobservedSame(s.stacks, s.held, s'.held, t, s'.stacks[t], x);
    LoggedCarries(e, max, s, t, x);
    LoggedEvents(e, max, s, t, x);
    if Records(s.stacks[t], x) {
      RecordBooked(e, s, s', t, n, x, Top(s.stacks[t]).stage.change);
    } else {
      assert EventsOf(s.world.events, x) + [] == EventsOf(s.world.events, x);
      QuietBooked(e, s, s', t, n, x);
    }
  }

  /** Of its own decisions t records none: they are on board before and after. */
  lemma ContinueCarries(e: Site, s: Machine, t: Task, x: string)
    requires Shaped(e, s) && Active(s, t) && Immediate(Top(s.stacks[t]).stage)
    ensures Carries(s, ApplyContinue(e, s, t), t, Unrecorded(x), multiset{}, multiset{})
  {
    var top, s', load := Top(s.stacks[t]), ApplyContinue(e, s, t), Unrecorded(x);
    assert TodoOk(e, top.monitor, top.stage);
    UnrecordedRests(x);
    match top.stage
    case Returning(v) => ReturnCarries(s, t, v, load);
    case Deciding(tr, v) => DecidingCarries(e, s, t, x);
    case Confirming(tr, v, todo, attempts) => ConfirmingCarries(e, s, t, x);
    case Releasing(v, todo) => ReleasingCarries(e, s, t, load);
    case Checking(v, todo, child) => CheckingCarries(e, s, t, x);
  }

  lemma SettledCarries(s: Machine, t: Task, m: string, tr: Transition, v: Verdict, blocker: Option<string>, x: string)
    requires Active(s, t) && m in s.world.states && Top(s.stacks[t]).monitor == m
    requires Underway(Top(s.stacks[t]).stage) == multiset{tr}
    ensures Carries(s, Settled(s, t, m, tr, v, blocker), t, Unrecorded(x), multiset{}, multiset{})
  {
    var g := Logging(tr, v, if blocker.Some? then SuppressedBy(blocker.value) else Plain);
    assert Underway(g) == multiset{tr};
    GotoCarriesOn(s, Settled(s, t, m, tr, v, blocker), t, g, Unrecorded(x));
  }

  lemma DecidingCarries(e: Site, s: Machine, t: Task, x: string)
    requires Shaped(e, s) && Active(s, t) && Top(s.stacks[t]).stage.Deciding?
    ensures Carries(s, ApplyContinue(e, s, t), t, Unrecorded(x), multiset{}, multiset{})
  {
    var m, tr, v := Top(s.stacks[t]).monitor, Top(s.stacks[t]).stage.change, Top(s.stacks[t]).stage.verdict;
    assert Underway(Top(s.stacks[t]).stage) == multiset{tr};
    var blocker := BlockingParent(e.net, s.world.states, m);
    if IsProblem(tr.current) && !(blocker.None? && e.net.parents[m] != []) {
      SettledCarries(s, t, m, tr, v, blocker, x);
    } else {
      var g := if IsProblem(tr.current) then Confirming(tr, v, e.net.parents[m], 0) else Logging(tr, v, Plain);
      assert Underway(g) == multiset{tr};
      GotoCarriesOn(s, OnDeciding(e, s, t, m, tr, v), t, g, Unrecorded(x));
    }
  }

  lemma ConfirmingCarries(e: Site, s: Machine, t: Task, x: string)
    requires Shaped(e, s) && Active(s, t) && Top(s.stacks[t]).stage.Confirming?
    ensures Carries(s, ApplyContinue(e, s, t), t, Unrecorded(x), multiset{}, multiset{})
  {
    var m, g := Top(s.stacks[t]).monitor, Top(s.stacks[t]).stage;
    assert Underway(g) == multiset{g.change};
    if g.todo == [] {
      SettledCarries(s, t, m, g.change, g.verdict, BlockingParent(e.net, s.world.states, m), x);
    } else if g.todo[0] in e.net.order && Unsettled(s.world.states[g.todo[0]]) && g.attempts < e.failures[g.todo[0]] {
      AskingCarries(s, t, m, g, x);
    } else {
      PassingCarries(s, t, m, g, x);
    }
  }

  lemma PassingCarries(s: Machine, t: Task, m: string, g: Stage, x: string)
    requires Active(s, t) && Top(s.stacks[t]) == Activation(m, g) && g.Confirming? && g.todo != []
    ensures Carries(s, Goto(s, t, Confirming(g.change, g.verdict, g.todo[1..], 0)), t, Unrecorded(x), multiset{},
                    multiset{})
  {
    var g' := Confirming(g.change, g.verdict, g.todo[1..], 0);
    assert Underway(g') == Underway(g);
    GotoCarriesOn(s, Goto(s, t, g'), t, g', Unrecorded(x));
  }

  lemma AskingCarries(s: Machine, t: Task, m: string, g: Stage, x: string)
    requires Active(s, t) && Top(s.stacks[t]) == Activation(m, g) && g.Confirming? && g.todo != []
    ensures var g' := Confirming(g.change, g.verdict, g.todo, g.attempts + 1);
      Carries(s, Call(s, t, SetTop(s.stacks[t], g'), g.todo[0]), t, Unrecorded(x), multiset{}, multiset{})
  {
    var g', load := Confirming(g.change, g.verdict, g.todo, g.attempts + 1), Unrecorded(x);
    assert Underway(g') == Underway(g);
    UnrecordedRests(x);
    CallCarries(s, t, g', g.todo[0], load);
    CarriesOn(s, Call(s, t, SetTop(s.stacks[t], g'), g.todo[0]), t, load, load(Activation(m, g)));
  }

  lemma ReleasingCarries<T>(e: Site, s: Machine, t: Task, load: Activation -> multiset<T>)
    requires Shaped(e, s) && Active(s, t) && Top(s.stacks[t]).stage.Releasing? && Rests(load)
    ensures Carries(s, ApplyContinue(e, s, t), t, load, multiset{}, multiset{})
  {
    var m, g, s' := Top(s.stacks[t]).monitor, Top(s.stacks[t]).stage, ApplyContinue(e, s, t);
    assert TodoOk(e, m, g);
    if g.todo == [] {
      GotoCarries(s, s', t, Returning(g.verdict), load);
    } else if Releasable(e, s.world, g.todo[0], m) {
      CallCarries(s, t, AwaitChild(g.verdict, g.todo), g.todo[0], load);
    } else {
      GotoCarries(s, s', t, Releasing(g.verdict, g.todo[1..]), load);
    }
  }

  lemma CheckingCarries(e: Site, s: Machine, t: Task, x: string)
    requires Shaped(e, s) && Active(s, t) && Top(s.stacks[t]).stage.Checking?
    ensures Carries(s, ApplyContinue(e, s, t), t, Unrecorded(x), multiset{}, multiset{})
  {
    var m, g := Top(s.stacks[t]).monitor, Top(s.stacks[t]).stage;
    assert TodoOk(e, m, g);
    var s', c := OnChecking(e, s, t, m, g.verdict, g.todo, g.child), g.todo[0];
    var n := Notice(c, Transition(s.world.states[c].state, s.world.states[c].state), StillAfter(m));
    var g' := if StillAlone(e, s.world, c, g.child) then LoggingStill(g.verdict, g.todo, n)
              else Releasing(g.verdict, g.todo[1..]);
    assert Underway(g) == Underway(g') == multiset{};
    GotoCarriesOn(s, s', t, g', Unrecorded(x));
  }

  lemma BookedKept(e: Site, max: int, s: Machine, a: Action, n: nat, x: string)
    requires Disciplined(e, max, s) && Enabled(e, max, s, a) && a.task < n
    requires Shaped(e, Apply(e, max, s, a)) && x in e.net.order && Booked(e, s, n, x)
    ensures Booked(e, Apply(e, max, s, a), n, x)
  {
    match a
    case WriteRow(t) => WriteBooks(e, max, s, t, n, x);
    case Resume(t) => ResumeBooks(e, max, s, t, n, x);
    case Logged(t) => LoggedBooks(e, max, s, t, n, x);
    case _ => OtherBooks(e, max, s, a, n, x);
  }

  lemma OtherBooks(e: Site, max: int, s: Machine, a: Action, n: nat, x: string)
    requires Disciplined(e, max, s) && Enabled(e, max, s, a) && a.task < n && !a.WriteRow? && !a.Resume? && !a.Logged?
    requires Shaped(e, Apply(e, max, s, a)) && x in e.net.order && Booked(e, s, n, x)
    ensures Booked(e, Apply(e, max, s, a), n, x)
  {
    var s' := Apply(e, max, s, a);
    GentleStep(e, max, s, a);
    UnobservedSame(s.stacks, s.held, s'.held, a.task, s'.stacks[a.task], x);
    SameEvents(e, max, s, a);
    if a.Continue? {
      ContinueCarries(e, s, a.task, x);
    } else {
      UnrecordedRests(x);
      PlainCarries(e, max, s, a, Unrecorded(x));
    }
    QuietBooked(e, s, s', a.task, n, x);
  }

  lemma SameEvents(e: Site, max: int, s: Machine, a: Action)
    requires Shaped(e, s) && Enabled(e, max, s, a) && !a.Logged?
    ensures Apply(e, max, s, a).world.events == s.world.events
  {
    if a.Continue? {
      var k := s.stacks[a.task];
      assert TodoOk(e, k[|k| - 1].monitor, k[|k| - 1].stage);
    }
  }

  // ----- Alerts and events -----

  /** The events that are sent too, if they are problems. */
  function Unsuppressed(events: seq<Notice>): multiset<Notice> {
    if events == [] then multiset{}
    else Unsuppressed(events[..|events| - 1]) + Sendable(events[|events| - 1])
  }

  /** All that was sent is known, and what is known to be a problem was sent. */
  ghost predicate Told(sent: multiset<Notice>, known: multiset<Notice>) {
    forall x: Notice :: sent[x] <= known[x] && (IsProblem(x.change.current) ==> sent[x] == known[x])
  }

  ghost predicate AllTold(s: Machine, n: nat) {
    Told(multiset(s.world.sent), Unsuppressed(s.world.events) + Flight(s.stacks, Unlogged(), n))
  }

  lemma UnloggedRests()
    ensures Rests(Unlogged())
  {
  }

  lemma ToldMore(sent: multiset<Notice>, known: multiset<Notice>, more: multiset<Notice>, gained: multiset<Notice>)
    requires Told(sent, known) && Told(more, gained)
    ensures Told(sent + more, known + gained)
  {
  }

  /** t sends `more`, takes `gained` on board and records `lost`. */
  lemma TellStep(s: Machine, s': Machine, t: Task, n: nat, more: multiset<Notice>, gained: multiset<Notice>,
                 lost: multiset<Notice>)
    requires AllTold(s, n) && t < n && Carries(s, s', t, Unlogged(), lost, gained) && Told(more, gained)
    requires multiset(s'.world.sent) == multiset(s.world.sent) + more
    requires Unsuppressed(s'.world.events) == Unsuppressed(s.world.events) + lost
    ensures AllTold(s', n)
  {
    var u, f, f' := Unsuppressed(s.world.events), Flight(s.stacks, Unlogged(), n), Flight(s'.stacks, Unlogged(), n);
    FlightCarries(s, s', t, Unlogged(), lost, gained, n);
    assert u + lost + f' == u + (f' + lost) == u + f + gained;
    ToldMore(multiset(s.world.sent), u + f, more, gained);
  }

  /** Nothing is sent or recorded. */
  lemma QuietTell(s: Machine, s': Machine, t: Task, n: nat)
    requires AllTold(s, n) && t < n && Carries(s, s', t, Unlogged(), multiset{}, multiset{})
    requires s'.world.sent == s.world.sent && s'.world.events == s.world.events
    ensures AllTold(s', n)
  {
    var none: multiset<Notice> := multiset{};
    assert multiset(s.world.sent) + none == multiset(s.world.sent);
    assert Unsuppressed(s.world.events) + none == Unsuppressed(s.world.events);
    TellStep(s, s', t, n, none, none, none);
  }

  /** x is decided: it is sent, or it is an Up that nobody waits for. */
  lemma SendTell(s: Machine, s': Machine, t: Task, n: nat, x: Notice)
    requires AllTold(s, n) && t < n && Carries(s, s', t, Unlogged(), multiset{}, multiset{x})
    requires s'.world.events == s.world.events
    requires s'.world.sent == s.world.sent + [x] || (s'.world.sent == s.world.sent && !IsProblem(x.change.current))
    ensures AllTold(s', n)
  {
    var none: multiset<Notice> := multiset{};
    assert Unsuppressed(s.world.events) + none == Unsuppressed(s.world.events);
    if s'.world.sent == s.world.sent {
      assert multiset(s.world.sent) + none == multiset(s.world.sent);
      TellStep(s, s', t, n, none, multiset{x}, none);
    } else {
      assert multiset(s.world.sent + [x]) == multiset(s.world.sent) + multiset{x};
      TellStep(s, s', t, n, multiset{x}, multiset{x}, none);
    }
  }

  lemma RecordTell(s: Machine, s': Machine, t: Task, n: nat, x: Notice)
    requires AllTold(s, n) && t < n && Carries(s, s', t, Unlogged(), Sendable(x), multiset{})
    requires s'.world.sent == s.world.sent && s'.world.events == s.world.events + [x]
    ensures AllTold(s', n)
  {
    var none: multiset<Notice> := multiset{};
    assert multiset(s.world.sent) + none == multiset(s.world.sent);
    assert (s.world.events + [x])[..|s.world.events|] == s.world.events;
    TellStep(s, s', t, n, none, none, Sendable(x));
  }

  lemma SettledTell(s: Machine, t: Task, n: nat, m: string, tr: Transition, v: Verdict, blocker: Option<string>)
    requires AllTold(s, n) && t < n && Active(s, t) && m in s.world.states && Top(s.stacks[t]).monitor == m
    requires Decided(m, Top(s.stacks[t]).stage) == multiset{}
    ensures AllTold(Settled(s, t, m, tr, v, blocker), n)
  {
    var s' := Settled(s, t, m, tr, v, blocker);
    match blocker
    case Some(b) =>
      assert Decided(m, Logging(tr, v, SuppressedBy(b))) == multiset{};
      GotoCarries(s, s', t, Logging(tr, v, SuppressedBy(b)), Unlogged());
      QuietTell(s, s', t, n);
    case None =>
      assert Decided(m, Logging(tr, v, Plain)) == multiset{Notice(m, tr, Plain)};
      GotoCarries(s, s', t, Logging(tr, v, Plain), Unlogged());
      SendTell(s, s', t, n, Notice(m, tr, Plain));
  }

  lemma DecidingTell(e: Site, s: Machine, t: Task, n: nat)
    requires Shaped(e, s) && Active(s, t) && Top(s.stacks[t]).stage.Deciding? && AllTold(s, n) && t < n
    ensures AllTold(ApplyContinue(e, s, t), n)
  {
    var m, tr, v := Top(s.stacks[t]).monitor, Top(s.stacks[t]).stage.change, Top(s.stacks[t]).stage.verdict;
    var s', blocker := OnDeciding(e, s, t, m, tr, v), BlockingParent(e.net, s.world.states, m);
    assert Decided(m, Top(s.stacks[t]).stage) == multiset{};
    if !IsProblem(tr.current) {
      assert Decided(m, Logging(tr, v, Plain)) == multiset{Notice(m, tr, Plain)};
      GotoCarries(s, s', t, Logging(tr, v, Plain), Unlogged());
      SendTell(s, s', t, n, Notice(m, tr, Plain));
    } else if blocker.None? && e.net.parents[m] != [] {
      GotoCarriesOn(s, s', t, Confirming(tr, v, e.net.parents[m], 0), Unlogged());
      QuietTell(s, s', t, n);
    } else {
      SettledTell(s, t, n, m, tr, v, blocker);
    }
  }

  lemma ConfirmingTell(e: Site, s: Machine, t: Task, n: nat)
    requires Shaped(e, s) && Active(s, t) && Top(s.stacks[t]).stage.Confirming? && AllTold(s, n) && t < n
    ensures AllTold(ApplyContinue(e, s, t), n)
  {
    var m, g := Top(s.stacks[t]).monitor, Top(s.stacks[t]).stage;
    assert Decided(m, g) == multiset{};
    var s' := OnConfirming(e, s, t, m, g.change, g.verdict, g.todo, g.attempts);
    if g.todo == [] {
      SettledTell(s, t, n, m, g.change, g.verdict, BlockingParent(e.net, s.world.states, m));
    } else if g.todo[0] in e.net.order && Unsettled(s.world.states[g.todo[0]]) && g.attempts < e.failures[g.todo[0]] {
      UnloggedRests();
      CallCarries(s, t, Confirming(g.change, g.verdict, g.todo, g.attempts + 1), g.todo[0], Unlogged());
      QuietTell(s, s', t, n);
    } else {
      GotoCarriesOn(s, s', t, Confirming(g.change, g.verdict, g.todo[1..], 0), Unlogged());
      QuietTell(s, s', t, n);
    }
  }

  lemma CheckingTell(e: Site, s: Machine, t: Task, n: nat)
    requires Shaped(e, s) && Active(s, t) && Top(s.stacks[t]).stage.Checking? && AllTold(s, n) && t < n
    ensures AllTold(ApplyContinue(e, s, t), n)
  {
    var m, g := Top(s.stacks[t]).monitor, Top(s.stacks[t]).stage;
    assert TodoOk(e, m, g);
    assert Decided(m, g) == multiset{};
    var s', c := OnChecking(e, s, t, m, g.verdict, g.todo, g.child), g.todo[0];
    if StillAlone(e, s.world, c, g.child) {
      var x := Notice(c, Transition(s.world.states[c].state, s.world.states[c].state), StillAfter(m));
      StillTell(s, s', t, n, g.verdict, g.todo, x);
    } else {
      LoadsCarry(s, s', t, Releasing(g.verdict, g.todo[1..]), multiset{}, multiset{});
      QuietTell(s, s', t, n);
    }
  }

  lemma StillTell(s: Machine, s': Machine, t: Task, n: nat, v: Verdict, todo: seq<string>, x: Notice)
    requires Active(s, t) && Decided(Top(s.stacks[t]).monitor, Top(s.stacks[t]).stage) == multiset{}
    requires AllTold(s, n) && t < n && !x.note.SuppressedBy?
    requires s'.stacks == s.stacks[t := SetTop(s.stacks[t], LoggingStill(v, todo, x))]
    requires s'.world.sent == s.world.sent + [x] && s'.world.events == s.world.events
    ensures AllTold(s', n)
  {
    LoadsCarry(s, s', t, LoggingStill(v, todo, x), multiset{}, multiset{x});
    SendTell(s, s', t, n, x);
  }

  lemma LoadsCarry(s: Machine, s': Machine, t: Task, g: Stage, lost: multiset<Notice>, gained: multiset<Notice>)
    requires Active(s, t) && s'.stacks == s.stacks[t := SetTop(s.stacks[t], g)]
    requires Decided(Top(s.stacks[t]).monitor, Top(s.stacks[t]).stage) == lost
    requires Decided(Top(s.stacks[t]).monitor, g) == gained
    ensures Carries(s, s', t, Unlogged(), lost, gained)
  {
    GotoCarries(s, s', t, g, Unlogged());
  }

  lemma LoggedTell(e: Site, max: int, s: Machine, t: Task, n: nat)
    requires Shaped(e, s) && Enabled(e, max, s, Logged(t)) && AllTold(s, n) && t < n
    ensures AllTold(Apply(e, max, s, Logged(t)), n)
  {
    var top := Top(s.stacks[t]);
    assert TodoOk(e, top.monitor, top.stage);
    RecordedTell(s, ApplyLogged(e, s, t), t, n, LoggedStage(e, top.stage), LoggedNotice(top));
  }

  function LoggedNotice(a: Activation): Notice
    requires a.stage.Logging? || a.stage.LoggingStill?
  {
    if a.stage.Logging? then Notice(a.monitor, a.stage.change, a.stage.note) else a.stage.notice
  }

  lemma RecordedTell(s: Machine, s': Machine, t: Task, n: nat, g: Stage, x: Notice)
    requires Active(s, t) && (Top(s.stacks[t]).stage.Logging? || Top(s.stacks[t]).stage.LoggingStill?)
    requires AllTold(s, n) && t < n && x == LoggedNotice(Top(s.stacks[t]))
    requires s'.stacks == s.stacks[t := SetTop(s.stacks[t], g)] && (g.Releasing? || g.Returning?)
    requires s'.world == Log(s.world, x)
    ensures AllTold(s', n)
  {
    LoadsCarry(s, s', t, g, Sendable(x), multiset{});
    RecordTell(s, s', t, n, x);
  }

  lemma ContinueTell(e: Site, s: Machine, t: Task, n: nat)
    requires Shaped(e, s) && Active(s, t) && Immediate(Top(s.stacks[t]).stage) && AllTold(s, n) && t < n
    ensures AllTold(ApplyContinue(e, s, t), n)
  {
    match Top(s.stacks[t]).stage
    case Deciding(_, _) => DecidingTell(e, s, t, n);
    case Confirming(_, _, _, _) => ConfirmingTell(e, s, t, n);
    case Checking(_, _, _) => CheckingTell(e, s, t, n);
    case Releasing(_, _) =>
      UnloggedRests();
      ReleasingCarries(e, s, t, Unlogged());
      ReleasingTells(e, s, t);
      QuietTell(s, ApplyContinue(e, s, t), t, n);
    case Returning(v) =>
      UnloggedRests();
      ReturnCarries(s, t, v, Unlogged());
      QuietTell(s, ApplyContinue(e, s, t), t, n);
  }

  lemma ReleasingTells(e: Site, s: Machine, t: Task)
    requires Shaped(e, s) && Active(s, t) && Top(s.stacks[t]).stage.Releasing?
    ensures ApplyContinue(e, s, t).world == s.world
  {
    assert TodoOk(e, Top(s.stacks[t]).monitor, Top(s.stacks[t]).stage);
  }

  lemma AllToldKept(e: Site, max: int, s: Machine, a: Action, n: nat)
    requires Shaped(e, s) && Enabled(e, max, s, a) && AllTold(s, n) && a.task < n
    ensures AllTold(Apply(e, max, s, a), n)
  {
    match a
    case Logged(t) => LoggedTell(e, max, s, t, n);
    case Continue(t) => ContinueTell(e, s, t, n);
    case Resume(t) =>
      var m, v := Top(s.stacks[t]).monitor, Top(s.stacks[t]).stage.verdict;
      assert s.stacks[t][|s.stacks[t]| - 1].monitor in e.net.order;
      var change := Change(s.world.states[m], v);
      GotoCarriesOn(s, Observed(s, t, m, v), t, if change.None? then Returning(v) else Deciding(change.value, v),
                    Unlogged());
      QuietTell(s, Observed(s, t, m, v), t, n);
    case _ =>
      UnloggedRests();
      PlainCarries(e, max, s, a, Unlogged());
      QuietTell(s, Apply(e, max, s, a), a.task, n);
  }

  // ----- Every behaviour -----

  ghost predicate InBooks(e: Site, max: int, s: Machine, n: nat) {
    && Good(e, max, s) && (forall t | t in s.stacks :: t < n) && AllTold(s, n)
    && forall m | m in e.net.order :: Booked(e, s, n, m)
  }

  lemma InBooksKept(e: Site, max: int, s: Machine, a: Action, s': Machine, n: nat)
    requires InBooks(e, max, s, n) && Step(e, max, s, a, s')
    ensures InBooks(e, max, s', n)
  {
    GoodKept(e, max, s, a, s');
    SameTasks(e, max, s, a);
    AllToldKept(e, max, s, a, n);
    forall m | m in e.net.order
      ensures Booked(e, s', n, m)
    {
      BookedKept(e, max, s, a, n, m);
    }
  }

  lemma SameTasks(e: Site, max: int, s: Machine, a: Action)
    requires Shaped(e, s) && Enabled(e, max, s, a)
    ensures a.task in s.stacks && Apply(e, max, s, a).stacks.Keys == s.stacks.Keys
  {
    if !a.WriteRow? && !a.Resume? {
      GentleStep(e, max, s, a);
    }
  }

  lemma InitInBooks(e: Site, max: int, tasks: set<Task>, n: nat)
    requires e.Valid() && max >= 0 && forall t | t in tasks :: t < n
    ensures InBooks(e, max, Init(e, tasks), n)
  {
    InitGood(e, max, tasks);
    NothingCarried(Init(e, tasks).stacks, Unlogged(), n);
    forall m | m in e.net.order
      ensures Booked(e, Init(e, tasks), n, m)
    {
      NothingCarried(Init(e, tasks).stacks, Unrecorded(m), n);
    }
  }

  lemma AlwaysInBooks(e: Site, max: int, tasks: set<Task>, acts: seq<Action>, trace: seq<Machine>, i: nat, n: nat)
    requires Behaviour(e, max, tasks, acts, trace) && max >= 0 && i < |trace| && forall t | t in tasks :: t < n
    ensures InBooks(e, max, trace[i], n)
  {
    forall s, a, s' | InBooks(e, max, s, n) && Step(e, max, s, a, s')
      ensures InBooks(e, max, s', n)
    {
      InBooksKept(e, max, s, a, s', n);
    }
    InitInBooks(e, max, tasks, n);
    InductiveHolds(e, max, tasks, acts, trace, s => InBooks(e, max, s, n), i);
  }

  /**
   * In every state of every behaviour the events of a monitor and its state changes on their way to the event
   * table are together the state changes that its observed results make, each as often as it happened.
   */
  lemma ChangesReachEvents(e: Site, max: int, tasks: set<Task>, acts: seq<Action>, trace: seq<Machine>, i: nat, n: nat,
                           m: string)
    requires Behaviour(e, max, tasks, acts, trace) && max >= 0 && i < |trace| && m in e.net.order
    requires forall t | t in tasks :: t < n
    ensures var s := trace[i];
      multiset(EventsOf(s.world.events, m)) + Flight(s.stacks, Unrecorded(m), n) == multiset(
        Changes(Fresh(e.failures[m], e.recoveries[m]),
                Seen(RowsOf(s.world.rows, m), Unobserved(s.stacks, s.held, m))))
  {
    AlwaysInBooks(e, max, tasks, acts, trace, i, n);
    assert Booked(e, trace[i], n, m);
  }

  /**
   * Whatever is sent is an event that was not suppressed, or on its way to be one; and every problem among
   * those is sent, as often as it is recorded.
   */
  lemma AlertsReachEvents(e: Site, max: int, tasks: set<Task>, acts: seq<Action>, trace: seq<Machine>, i: nat, n: nat)
    requires Behaviour(e, max, tasks, acts, trace) && max >= 0 && i < |trace| && forall t | t in tasks :: t < n
    ensures var s := trace[i];
      Told(multiset(s.world.sent), Unsuppressed(s.world.events) + Flight(s.stacks, Unlogged(), n))
  {
    AlwaysInBooks(e, max, tasks, acts, trace, i, n);
  }

  /** While all tasks sleep nothing is on its way. */
  lemma EventsAtRest(e: Site, max: int, tasks: set<Task>, acts: seq<Action>, trace: seq<Machine>, i: nat, n: nat,
                     m: string)
    requires Behaviour(e, max, tasks, acts, trace) && max >= 0 && i < |trace| && Idle(trace[i]) && m in e.net.order
    requires forall t | t in tasks :: t < n
    ensures var w := trace[i].world;
      && multiset(EventsOf(w.events, m)) == multiset(ChangesOf(e, w.rows, m))
      && Told(multiset(w.sent), Unsuppressed(w.events))
  {
    var s := trace[i];
    var changes, notices := multiset(EventsOf(s.world.events, m)), Unsuppressed(s.world.events);
    AlwaysInBooks(e, max, tasks, acts, trace, i, n);
    NothingCarried(s.stacks, Unrecorded(m), n);
    NothingCarried(s.stacks, Unlogged(), n);
    assert changes + multiset{} == changes && notices + multiset{} == notices;
    assert Booked(e, s, n, m);
  }
}
