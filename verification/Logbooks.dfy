/** The results table, the event table and the alert log, monitor by monitor. */
module Logbooks {
  import opened MonitorStates
  import opened Engine

  /** The states announced for one monitor, in the order they were sent. */
  function SentTo(sent: seq<Notice>, m: string): seq<State> {
    if sent == [] then []
    else
      var n := sent[|sent| - 1];
      SentTo(sent[..|sent| - 1], m) + if n.slug == m then [n.change.current] else []
  }

  /** (Problem+ Up)* Problem*: an Up directly follows a problem. */
  ghost predicate LogShape(log: seq<State>) {
    && (forall i | 0 <= i < |log| :: log[i] != Pending)
    && (log != [] ==> log[0] != Up)
    && (forall i, j | 0 <= i < |log| && j == i + 1 < |log| :: log[j] == Up ==> IsProblem(log[i]))
  }

  predicate IsOpen(log: seq<State>) {
    log != [] && IsProblem(log[|log| - 1])
  }

  lemma SentStep(sent: seq<Notice>, n: Notice, m: string)
    ensures SentTo(sent + [n], m) == if n.slug == m then SentTo(sent, m) + [n.change.current] else SentTo(sent, m)
  {
    assert (sent + [n])[..|sent|] == sent;
    assert SentTo(sent, m) + [] == SentTo(sent, m);
  }

  lemma ShapeStep(log: seq<State>, current: State)
    requires LogShape(log) && (IsProblem(current) || (current == Up && IsOpen(log)))
    ensures LogShape(log + [current])
  {
    var l := log + [current];
    forall i, j | 0 <= i < |l| && j == i + 1 < |l|
      ensures l[j] == Up ==> IsProblem(l[i])
    {
      if j < |log| {
        assert l[i] == log[i] && l[j] == log[j];
      }
    }
  }

  /** No problem follows a problem: (Problem Up)* Problem?, given the shape above. */
  ghost predicate NoRepeat(log: seq<State>) {
    forall i, j | 0 <= i && j == i + 1 < |log| :: !(IsProblem(log[i]) && IsProblem(log[j]))
  }

  lemma NoRepeatStep(log: seq<State>, current: State)
    requires NoRepeat(log) && (IsOpen(log) ==> current == Up)
    ensures NoRepeat(log + [current])
  {
    var l := log + [current];
    forall i, j | 0 <= i && j == i + 1 < |l|
      ensures !(IsProblem(l[i]) && IsProblem(l[j]))
    {
      if j < |log| {
        assert l[i] == log[i] && l[j] == log[j];
      }
    }
  }

  lemma RepeatStep(log: seq<State>, current: State)
    requires IsOpen(log) && IsProblem(current)
    ensures !NoRepeat(log + [current])
  {
    var l := log + [current];
    var i := |log| - 1;
    var j := i + 1;
    assert IsProblem(l[i]) && IsProblem(l[j]);
  }

  // ----- Results -----

  /** The results recorded for one monitor, in order. */
  function RowsOf(rows: seq<Row>, m: string): seq<Verdict> {
    if rows == [] then []
    else
      var r := rows[|rows| - 1];
      RowsOf(rows[..|rows| - 1], m) + if r.slug == m then [r.verdict] else []
  }

  /** The fold of observe over the rows of `m`. */
  function Recorded(e: Site, rows: seq<Row>, m: string): Status
    requires m in e.failures && m in e.recoveries
  {
    Replay(Fresh(e.failures[m], e.recoveries[m]), RowsOf(rows, m))
  }

  lemma RecordedStep(e: Site, rows: seq<Row>, r: Row, m: string)
    requires m in e.failures && m in e.recoveries
    ensures Recorded(e, rows + [r], m) ==
            if r.slug == m then After(Recorded(e, rows, m), r.verdict) else Recorded(e, rows, m)
  {
    assert (rows + [r])[..|rows|] == rows;
    var h := RowsOf(rows, m);
    if r.slug == m {
      assert (h + [r.verdict])[..|h|] == h;
    } else {
      assert h + [] == h;
    }
  }

  lemma RowsStep(rows: seq<Row>, r: Row, m: string)
    ensures RowsOf(rows + [r], m) == if r.slug == m then RowsOf(rows, m) + [r.verdict] else RowsOf(rows, m)
  {
    assert (rows + [r])[..|rows|] == rows;
    assert RowsOf(rows, m) + [] == RowsOf(rows, m);
  }

  /** The state changes that the results make, one after the other. */
  function Changes(s: Status, h: seq<Verdict>): seq<Transition> {
    if h == [] then []
    else
      var before, after := Replay(s, h[..|h| - 1]).state, Replay(s, h).state;
      Changes(s, h[..|h| - 1]) + if before == after then [] else [Transition(before, after)]
  }

  /** Those of one monitor. */
  function ChangesOf(e: Site, rows: seq<Row>, m: string): seq<Transition>
    requires m in e.failures && m in e.recoveries
  {
    Changes(Fresh(e.failures[m], e.recoveries[m]), RowsOf(rows, m))
  }

  lemma ChangesStep(s: Status, h: seq<Verdict>, v: Verdict)
    ensures var before, after := Replay(s, h).state, After(Replay(s, h), v).state;
      Changes(s, h + [v]) == Changes(s, h) + if before == after then [] else [Transition(before, after)]
  {
    assert (h + [v])[..|h|] == h;
  }

  // ----- Events -----

  /** The transitions recorded for one monitor; the notes of a release are none. */
  function EventsOf(events: seq<Notice>, m: string): seq<Transition> {
    if events == [] then []
    else
      var n := events[|events| - 1];
      EventsOf(events[..|events| - 1], m) + if n.slug == m && !n.note.StillAfter? then [n.change] else []
  }

  lemma EventStep(events: seq<Notice>, n: Notice, m: string)
    ensures EventsOf(events + [n], m)
         == EventsOf(events, m) + if n.slug == m && !n.note.StillAfter? then [n.change] else []
  {
    assert (events + [n])[..|events|] == events;
  }

  /** The events that are also alerts: all but those suppressed and the recoveries from problems that were
      not alerted. */
  function Alerts(events: seq<Notice>): seq<Notice> {
    if events == [] then []
    else
      var before, n := Alerts(events[..|events| - 1]), events[|events| - 1];
      if n.note.SuppressedBy? || (n.change.current == Up && !IsOpen(SentTo(before, n.slug))) then before
      else before + [n]
  }

  lemma AlertsStep(events: seq<Notice>, n: Notice)
    ensures Alerts(events + [n])
         == if n.note.SuppressedBy? || (n.change.current == Up && !IsOpen(SentTo(Alerts(events), n.slug)))
            then Alerts(events) else Alerts(events) + [n]
  {
    assert (events + [n])[..|events|] == events;
  }
}
