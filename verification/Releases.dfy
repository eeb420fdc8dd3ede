/** What a recovery does for the monitors behind the one that came up, whatever
    the checks answer: each that is still down or warning without an alert has
    been asked again, and each that did not answer Ok and stands alone is alerted. */
module Releases {
  import opened MonitorStates
  import opened Networks
  import opened Engine
  import opened EngineInduction
  import opened Confirmations

  /** A row of c was recorded from position `from` on. */
  ghost predicate Asked(rows: seq<Row>, from: nat, c: string) {
    exists i :: from <= i < |rows| && rows[i].slug == c
  }

  /** Down or warning, not behind a root cause, and not alerted. */
  ghost predicate Unalerted(e: Site, w: World, c: string)
    requires e.Valid() && Fits(e, w) && c in e.net.order
  {
    IsProblem(w.states[c].state) && !Blocked(e.net, w.states, c) && !w.states[c].alertOpen
  }

  /** The fresh poll of a dependent is the next row; if the dependent is left unalerted, that row is an Ok. */
  lemma ReleasedOrOk(e: Site, w: World, c: string, m: string)
    requires e.Valid() && Fits(e, w) && m in e.net.order && c in e.net.order && m !in Troubled(e, w)
    requires IsAncestor(e.net, m, c) && Unalerted(e, ReleaseChild(e, w, c, m), c)
    ensures |ReleaseChild(e, w, c, m).rows| > |w.rows| && ReleaseChild(e, w, c, m).rows[|w.rows|] == Row(c, Ok)
  {
    if Releasable(e, w, c, m) {
      PollRow(e, w, c);
    }
  }

  lemma PollRow(e: Site, w: World, c: string)
    requires e.Valid() && Fits(e, w) && c in e.net.order
    ensures |Poll(e, w, c).0.rows| > |w.rows| && Poll(e, w, c).0.rows[|w.rows|] == Row(c, Poll(e, w, c).1)
    ensures Extends(w.rows, Poll(e, w, c).0.rows)
  {
    var v := e.check(c, |w.rows|);
    var w1 := Observe(w, c, v);
    ObserveTrouble(e, w, c, v);
    RowsKept(e, w1.rows);
    if Change(w.states[c], v).Some? {
      TransitionKeeps(e, w1, c, Change(w.states[c], v).value, (x: World) => Extends(w1.rows, x.rows));
    }
    assert w1.rows[|w.rows|] == Row(c, v);
  }

  lemma RowsKept(e: Site, rows: seq<Row>)
    requires e.Valid()
    ensures Kept(e, (x: World) => Extends(rows, x.rows))
  {
  }

  /** While c is not asked it stays as it was, and an alert for a problem of c stays open. */
  ghost predicate Untouched(e: Site, w0: World, c: string, w: World) {
    && Fits(e, w0) && Fits(e, w) && c in e.net.order && Extends(w0.rows, w.rows)
    && (!Asked(w.rows, |w0.rows|, c) ==>
          && w.states[c].state == w0.states[c].state
          && (IsProblem(w.states[c].state) && w0.states[c].alertOpen ==> w.states[c].alertOpen))
  }

  lemma UntouchedObserve(e: Site, w0: World, c: string, w: World, m: string, v: Verdict)
    requires e.Valid() && Untouched(e, w0, c, w) && m in e.net.order
    ensures Untouched(e, w0, c, Observe(w, m, v))
  {
    var rows := Observe(w, m, v).rows;
    assert rows[|w.rows|] == Row(m, v);
    if Asked(w.rows, |w0.rows|, c) {
      var i :| |w0.rows| <= i < |w.rows| && w.rows[i].slug == c;
      assert rows[i].slug == c;
    }
  }

  lemma UntouchedKept(e: Site, w0: World, c: string)
    requires e.Valid()
    ensures Kept(e, w => Untouched(e, w0, c, w))
  {
    forall w, m, v | m in e.net.order && Untouched(e, w0, c, w)
      ensures Untouched(e, w0, c, Observe(w, m, v))
    {
      UntouchedObserve(e, w0, c, w, m, v);
    }
  }

  lemma AskedLater(rows: seq<Row>, rows': seq<Row>, from: nat, to: nat, c: string)
    requires from <= to && ((Extends(rows, rows') && Asked(rows, from, c)) || Asked(rows', to, c))
    ensures Asked(rows', from, c)
  {
    if Asked(rows', to, c) {
      var i :| to <= i < |rows'| && rows'[i].slug == c;
    } else {
      var i :| from <= i < |rows| && rows[i].slug == c;
      assert rows'[i].slug == c;
    }
  }

  /** The release of the i-th monitor, and of the ones after it. */
  lemma ReleaseStep(e: Site, w: World, m: string, i: nat)
    requires e.Valid() && Fits(e, w) && m in e.net.order && m !in Troubled(e, w) && i < |e.net.order|
    ensures Extends(w.rows, ReleaseChild(e, w, e.net.order[i], m).rows)
    ensures ReleaseChildren(e, w, m, i) == ReleaseChildren(e, ReleaseChild(e, w, e.net.order[i], m), m, i + 1)
  {
    RowsKept(e, w.rows);
    ReleaseChildKeeps(e, w, e.net.order[i], m, (x: World) => Extends(w.rows, x.rows));
  }

  lemma TurnAsks(e: Site, w: World, m: string, i: nat)
    requires e.Valid() && Fits(e, w) && m in e.net.order && m !in Troubled(e, w) && i < |e.net.order|
    requires IsAncestor(e.net, m, e.net.order[i])
    requires var s := ReleaseChildren(e, w, m, i).states[e.net.order[i]]; IsProblem(s.state) && !s.alertOpen
    ensures Asked(ReleaseChildren(e, w, m, i).rows, |w.rows|, e.net.order[i])
  {
    var c := e.net.order[i];
    UntouchedKept(e, w, c);
    if Releasable(e, w, c, m) {
      var next := ReleaseChild(e, w, c, m);
      PollRow(e, w, c);
      assert next.rows[|w.rows|].slug == c;
      RowsKept(e, next.rows);
      ReleaseKeeps(e, next, m, i + 1, (x: World) => Extends(next.rows, x.rows));
      AskedLater(next.rows, ReleaseChildren(e, next, m, i + 1).rows, |w.rows|, |w.rows|, c);
    } else {
      ReleaseKeeps(e, w, m, i, x => Untouched(e, w, c, x));
    }
  }

  lemma LaterAsks(e: Site, w: World, m: string, i: nat, c: string)
    requires e.Valid() && Fits(e, w) && m in e.net.order && m !in Troubled(e, w) && i < |e.net.order|
    requires var next := ReleaseChild(e, w, e.net.order[i], m);
      Asked(ReleaseChildren(e, next, m, i + 1).rows, |next.rows|, c)
    ensures Asked(ReleaseChildren(e, w, m, i).rows, |w.rows|, c)
  {
    var next := ReleaseChild(e, w, e.net.order[i], m);
    ReleaseStep(e, w, m, i);
    AskedLater(next.rows, ReleaseChildren(e, next, m, i + 1).rows, |w.rows|, |next.rows|, c);
  }

  /** Every dependent left down or warning without an alert has been asked during the release. */
  lemma {:induction false} ReleaseAsks(e: Site, w: World, m: string, i: nat, j: nat)
    requires e.Valid() && Fits(e, w) && m in e.net.order && m !in Troubled(e, w)
    requires i <= j < |e.net.order| && IsAncestor(e.net, m, e.net.order[j])
    requires var s := ReleaseChildren(e, w, m, i).states[e.net.order[j]]; IsProblem(s.state) && !s.alertOpen
    ensures Asked(ReleaseChildren(e, w, m, i).rows, |w.rows|, e.net.order[j])
    decreases j - i
  {
    if i == j {
      TurnAsks(e, w, m, i);
    } else {
      ReleaseAsks(e, ReleaseChild(e, w, e.net.order[i], m), m, i + 1, j);
      LaterAsks(e, w, m, i, e.net.order[j]);
    }
  }
}
