/** What the event table holds after polls run to completion: the state changes of
    every monitor, and from it the alert log can be read off. */
module EventLogs {
  import opened Wrappers
  import opened MonitorStates
  import opened Engine
  import opened EngineInduction
  import opened Logbooks

  /** Transitions seen that are not in the event table yet, monitor by monitor. */
  type Owed = string -> multiset<Transition>

  function Owing(owed: Owed, m: string, tr: Transition): Owed {
    x => owed(x) + if x == m then multiset{tr} else multiset{}
  }

  /** The books of one monitor: status and replay of its results, flag and alert log, events and changes. */
  ghost predicate Books(st: Status, replayed: Status, sent: seq<State>, events: seq<Transition>,
                        changes: seq<Transition>, owed: multiset<Transition>) {
    && st.(alertOpen := false) == replayed
    && (st.alertOpen <==> IsOpen(sent))
    && multiset(events) + owed == multiset(changes)
  }

  ghost predicate Balanced(e: Site, w: World, m: string, owed: multiset<Transition>)
    requires m in w.states && m in e.failures && m in e.recoveries
  {
    Books(w.states[m], Recorded(e, w.rows, m), SentTo(w.sent, m), EventsOf(w.events, m), ChangesOf(e, w.rows, m), owed)
  }

  ghost predicate Ledger(e: Site, w: World, owed: Owed) {
    && Fits(e, w) && w.sent == Alerts(w.events)
    && forall m | m in e.net.order :: Balanced(e, w, m, owed(m))
  }

  // ----- Single entries -----

  lemma OneMore(s: seq<Transition>, tr: Transition)
    ensures multiset(s + [tr]) == multiset(s) + multiset{tr}
  {
  }

  lemma SeenBooks(st: Status, replayed: Status, sent: seq<State>, events: seq<Transition>, changes: seq<Transition>,
                  owed: multiset<Transition>, v: Verdict)
    requires Books(st, replayed, sent, events, changes, owed)
    ensures Change(st, v).None? ==>
      After(replayed, v).state == replayed.state
      && Books(After(st, v), After(replayed, v), sent, events, changes, owed)
    ensures Change(st, v).Some? ==>
      After(replayed, v).state != replayed.state
      && Change(st, v).value == Transition(replayed.state, After(replayed, v).state)
      && Books(After(st, v), After(replayed, v), sent, events, changes + [Change(st, v).value],
               owed + multiset{Change(st, v).value})
  {
    if Change(st, v).Some? {
      OneMore(changes, Change(st, v).value);
    }
  }

  lemma EventBooks(st: Status, replayed: Status, sent: seq<State>, events: seq<Transition>, changes: seq<Transition>,
                   owed: multiset<Transition>, tr: Transition)
    requires Books(st, replayed, sent, events, changes, owed + multiset{tr})
    ensures Books(st, replayed, sent, events + [tr], changes, owed)
  {
    OneMore(events, tr);
  }

  lemma SentBooks(st: Status, replayed: Status, sent: seq<State>, events: seq<Transition>, changes: seq<Transition>,
                  owed: multiset<Transition>, open: bool, current: State)
    requires Books(st, replayed, sent, events, changes, owed) && (open <==> IsProblem(current))
    ensures Books(st.(alertOpen := open), replayed, sent + [current], events, changes, owed)
  {
  }

  /** The new row of m, as it changes the books of m. */
  lemma OwnRow(e: Site, rows: seq<Row>, m: string, v: Verdict)
    requires m in e.failures && m in e.recoveries
    ensures Recorded(e, rows + [Row(m, v)], m) == After(Recorded(e, rows, m), v)
    ensures var before, after := Recorded(e, rows, m).state, After(Recorded(e, rows, m), v).state;
      ChangesOf(e, rows + [Row(m, v)], m)
      == if before == after then ChangesOf(e, rows, m) else ChangesOf(e, rows, m) + [Transition(before, after)]
  {
    RowsStep(rows, Row(m, v), m);
    RecordedStep(e, rows, Row(m, v), m);
    ChangesStep(Fresh(e.failures[m], e.recoveries[m]), RowsOf(rows, m), v);
  }

  lemma OtherRow(e: Site, rows: seq<Row>, m: string, v: Verdict, x: string)
    requires x in e.failures && x in e.recoveries && x != m
    ensures Recorded(e, rows + [Row(m, v)], x) == Recorded(e, rows, x)
    ensures ChangesOf(e, rows + [Row(m, v)], x) == ChangesOf(e, rows, x)
  {
    RowsStep(rows, Row(m, v), x);
  }

  lemma ObserveQuiet(e: Site, w: World, m: string, v: Verdict, owed: Owed)
    requires Ledger(e, w, owed) && m in e.net.order && Change(w.states[m], v).None?
    ensures Ledger(e, Observe(w, m, v), owed)
  {
    forall x | x in e.net.order
      ensures Balanced(e, Observe(w, m, v), x, owed(x))
    {
      assert Balanced(e, w, x, owed(x));
      if x == m {
        OwnRow(e, w.rows, m, v);
        SeenBooks(w.states[m], Recorded(e, w.rows, m), SentTo(w.sent, m), EventsOf(w.events, m),
                  ChangesOf(e, w.rows, m), owed(m), v);
      } else {
        OtherRow(e, w.rows, m, v, x);
      }
    }
  }

  lemma ObserveChange(e: Site, w: World, m: string, v: Verdict, owed: Owed)
    requires Ledger(e, w, owed) && m in e.net.order && Change(w.states[m], v).Some?
    ensures Ledger(e, Observe(w, m, v), Owing(owed, m, Change(w.states[m], v).value))
  {
    var tr := Change(w.states[m], v).value;
    forall x | x in e.net.order
      ensures Balanced(e, Observe(w, m, v), x, Owing(owed, m, tr)(x))
    {
      assert Balanced(e, w, x, owed(x));
      if x == m {
        OwnRow(e, w.rows, m, v);
        SeenBooks(w.states[m], Recorded(e, w.rows, m), SentTo(w.sent, m), EventsOf(w.events, m),
                  ChangesOf(e, w.rows, m), owed(m), v);
      } else {
        OtherRow(e, w.rows, m, v, x);
        assert owed(x) + multiset{} == owed(x);
      }
    }
  }

  lemma OtherOwed(owed: Owed, m: string, tr: Transition, x: string)
    ensures Owing(owed, m, tr)(x) == if x == m then owed(m) + multiset{tr} else owed(x)
  {
    assert owed(x) + multiset{} == owed(x);
  }

  /** An event that is no alert. */
  lemma LogLedger(e: Site, w: World, n: Notice, owed: Owed)
    requires Ledger(e, w, Owing(owed, n.slug, n.change)) && n.slug in e.net.order && !n.note.StillAfter?
    requires n.note.SuppressedBy? || (n.change.current == Up && !w.states[n.slug].alertOpen)
    ensures Ledger(e, Log(w, n), owed)
  {
    assert Balanced(e, w, n.slug, Owing(owed, n.slug, n.change)(n.slug));
    AlertsStep(w.events, n);
    forall x | x in e.net.order
      ensures Balanced(e, Log(w, n), x, owed(x))
    {
      assert Balanced(e, w, x, Owing(owed, n.slug, n.change)(x));
      OtherOwed(owed, n.slug, n.change, x);
      EventStep(w.events, n, x);
      if x == n.slug {
        EventBooks(w.states[x], Recorded(e, w.rows, x), SentTo(w.sent, x), EventsOf(w.events, x),
                   ChangesOf(e, w.rows, x), owed(x), n.change);
      }
    }
  }

  /** An alert and no event yet. */
  lemma AlertLedger(e: Site, w: World, open: bool, n: Notice, owed: multiset<Transition>, x: string)
    requires n.slug in w.states && x in w.states && x in e.failures && x in e.recoveries && Balanced(e, w, x, owed)
    requires open <==> IsProblem(n.change.current)
    ensures Balanced(e, Alert(w, n.slug, open, n), x, owed)
  {
    SentStep(w.sent, n, x);
    if x == n.slug {
      SentBooks(w.states[x], Recorded(e, w.rows, x), SentTo(w.sent, x), EventsOf(w.events, x),
                ChangesOf(e, w.rows, x), owed, open, n.change.current);
    }
  }

  /** A transition that is alerted and then recorded. */
  lemma SendLedger(e: Site, w: World, open: bool, n: Notice, owed: Owed)
    requires Ledger(e, w, Owing(owed, n.slug, n.change)) && n.slug in e.net.order && n.note.Plain?
    requires open <==> IsProblem(n.change.current)
    requires open || (n.change.current == Up && w.states[n.slug].alertOpen)
    ensures Fits(e, Alert(w, n.slug, open, n)) && Ledger(e, Log(Alert(w, n.slug, open, n), n), owed)
  {
    var w1 := Alert(w, n.slug, open, n);
    assert Balanced(e, w, n.slug, Owing(owed, n.slug, n.change)(n.slug));
    AlertsStep(w.events, n);
    forall x | x in e.net.order
      ensures Balanced(e, Log(w1, n), x, owed(x))
    {
      assert Balanced(e, w, x, Owing(owed, n.slug, n.change)(x));
      AlertLedger(e, w, open, n, Owing(owed, n.slug, n.change)(x), x);
      OtherOwed(owed, n.slug, n.change, x);
      EventStep(w.events, n, x);
      if x == n.slug {
        EventBooks(w1.states[x], Recorded(e, w.rows, x), SentTo(w1.sent, x), EventsOf(w.events, x),
                   ChangesOf(e, w.rows, x), owed(x), n.change);
      }
    }
  }

  /** The note of a release is alerted and recorded, and is no transition. */
  lemma NoteLedger(e: Site, w: World, n: Notice, owed: Owed)
    requires Ledger(e, w, owed) && n.slug in e.net.order && n.note.StillAfter? && IsProblem(n.change.current)
    ensures Fits(e, Alert(w, n.slug, true, n)) && Ledger(e, Log(Alert(w, n.slug, true, n), n), owed)
  {
    AlertsStep(w.events, n);
    forall x | x in e.net.order
      ensures Balanced(e, Log(Alert(w, n.slug, true, n), n), x, owed(x))
    {
      assert Balanced(e, w, x, owed(x));
      AlertLedger(e, w, true, n, owed(x), x);
      EventStep(w.events, n, x);
      assert EventsOf(w.events, x) + [] == EventsOf(w.events, x);
    }
  }

  lemma DecideLedger(e: Site, w: World, m: string, tr: Transition, blocker: Option<string>, owed: Owed)
    requires Ledger(e, w, Owing(owed, m, tr)) && m in e.net.order && IsProblem(tr.current)
    ensures Ledger(e, Decide(w, m, tr, blocker), owed)
  {
    match blocker
    case Some(b) => LogLedger(e, w, Notice(m, tr, SuppressedBy(b)), owed);
    case None => SendLedger(e, w, true, Notice(m, tr, Plain), owed);
  }

  lemma RecoveredLedger(e: Site, w: World, m: string, tr: Transition, owed: Owed)
    requires Ledger(e, w, Owing(owed, m, tr)) && m in e.net.order && tr.current == Up
    ensures Ledger(e, Recovered(w, m, tr), owed)
  {
    if w.states[m].alertOpen {
      SendLedger(e, w, false, Notice(m, tr, Plain), owed);
    } else {
      LogLedger(e, w, Notice(m, tr, Plain), owed);
    }
  }

  lemma StillLedger(e: Site, w: World, c: string, m: string, owed: Owed)
    requires Ledger(e, w, owed) && c in e.net.order && IsProblem(w.states[c].state)
    ensures Ledger(e, StillFailing(w, c, m), owed)
  {
    NoteLedger(e, w, Notice(c, Transition(w.states[c].state, w.states[c].state), StillAfter(m)), owed);
  }

  // ----- Whole runs -----

  lemma LedgerAccounts(e: Site)
    ensures Accounts<Owed>(e, (w: World, owed: Owed) => Ledger(e, w, owed), Owing)
  {
    var acct := (w: World, owed: Owed) => Ledger(e, w, owed);
    forall w, owed: Owed, m, v | acct(w, owed) && m in e.net.order && Change(w.states[m], v).None?
      ensures acct(Observe(w, m, v), owed)
    {
      ObserveQuiet(e, w, m, v, owed);
    }
    forall w, owed: Owed, m, v | acct(w, owed) && m in e.net.order && Change(w.states[m], v).Some?
      ensures acct(Observe(w, m, v), Owing(owed, m, Change(w.states[m], v).value))
    {
      ObserveChange(e, w, m, v, owed);
    }
    forall w, owed: Owed, m, tr, b | acct(w, Owing(owed, m, tr)) && m in e.net.order && IsProblem(tr.current)
      ensures acct(Decide(w, m, tr, b), owed)
    {
      DecideLedger(e, w, m, tr, b, owed);
    }
    forall w, owed: Owed, m, tr | acct(w, Owing(owed, m, tr)) && m in e.net.order && tr.current == Up
      ensures acct(Recovered(w, m, tr), owed)
    {
      RecoveredLedger(e, w, m, tr, owed);
    }
    forall w, owed: Owed, c, m | acct(w, owed) && c in e.net.order && IsProblem(w.states[c].state)
      ensures acct(StillFailing(w, c, m), owed)
    {
      StillLedger(e, w, c, m, owed);
    }
  }

  function Nothing(): Owed {
    x => multiset{}
  }

  lemma PollLedger(e: Site, w: World, m: string)
    requires e.Valid() && m in e.net.order && Ledger(e, w, Nothing())
    ensures Ledger(e, Poll(e, w, m).0, Nothing())
  {
    var acct: (World, Owed) -> bool := (w: World, owed: Owed) => Ledger(e, w, owed);
    LedgerAccounts(e);
    PollAccounts<Owed>(e, w, m, acct, Owing, Nothing());
  }

  lemma {:induction false} RunLedger(e: Site, polls: seq<string>)
    requires e.Valid() && forall m | m in polls :: m in e.net.order
    ensures Ledger(e, Run(e, Start(e), polls), Nothing())
  {
    if polls != [] {
      RunLedger(e, polls[..|polls| - 1]);
      PollLedger(e, Run(e, Start(e), polls[..|polls| - 1]), polls[|polls| - 1]);
    }
  }

  /** After every run the event table holds, for each monitor, the state changes that its results make,
      each as often as it happened. */
  lemma EventsAreChanges(e: Site, polls: seq<string>, m: string)
    requires e.Valid() && (forall p | p in polls :: p in e.net.order) && m in e.net.order
    ensures var w := Run(e, Start(e), polls);
      multiset(EventsOf(w.events, m)) == multiset(ChangesOf(e, w.rows, m))
  {
    var w := Run(e, Start(e), polls);
    RunLedger(e, polls);
    assert Balanced(e, w, m, multiset{});
  }

  /** And the alert log is the event table without what was suppressed and the recoveries
      from problems that had not been alerted. */
  lemma AlertsAreEvents(e: Site, polls: seq<string>)
    requires e.Valid() && forall p | p in polls :: p in e.net.order
    ensures Run(e, Start(e), polls).sent == Alerts(Run(e, Start(e), polls).events)
  {
    RunLedger(e, polls);
  }
}
