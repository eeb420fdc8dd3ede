/** A configuration that loads still loads with everything that discovery proposes for it. */
module Merging {
  import opened Wrappers
  import opened Graphs
  import opened Configs
  import opened Drafts
  import opened Proposals
  import opened ProposalGuarantees

  /** References that resolve without the new monitors resolve to the same monitors with them. */
  lemma {:induction false} ResolveInMore(ms: seq<Monitor>, more: seq<Monitor>, ref: string)
    requires Resolve(ms, ref).Some?
    ensures Resolve(ms + more, ref) == Resolve(ms, ref)
  {
    assert (ms + more)[0] == ms[0];
    if !ms[0].AnswersTo(ref) {
      assert (ms + more)[1..] == ms[1..] + more;
      ResolveInMore(ms[1..], more, ref);
    }
  }

  /** A dependency of an added monitor resolves to a configured monitor, or to an added one that depends on nothing. */
  lemma NamedIsParent(ms: seq<Monitor>, more: seq<Monitor>, i: nat, d: string) returns (j: nat)
    requires UniqueSlugs(ms + more) && PointsDown(ms, more) && i < |more| && d in more[i].dependsOn
    ensures j < |ms + more| && Resolve(ms + more, d) == Some((ms + more)[j])
    ensures j < |ms| || ((ms + more)[j].dependsOn == [] && j != |ms| + i)
  {
    var all := ms + more;
    if Names(ms, d) {
      j :| 0 <= j < |ms| && ms[j].name == d;
    } else {
      var k :| 0 <= k < |more| && more[k].name == d && more[k].dependsOn == [];
      j := |ms| + k;
    }
    assert all[j] in all;
    ResolveExact(all, d, all[j]);
  }

  lemma MergedReferences(ms: seq<Monitor>, more: seq<Monitor>)
    requires UniqueSlugs(ms + more) && GoodReferences(ms) && PointsDown(ms, more)
    ensures GoodReferences(ms + more)
  {
    var all := ms + more;
    forall m, ref | m in all && ref in m.dependsOn
      ensures GoodReference(all, m, ref)
    {
      var i :| 0 <= i < |all| && all[i] == m;
      if i < |ms| {
        assert m in ms;
        assert GoodReference(ms, m, ref);
        ResolveInMore(ms, more, ref);
      } else {
        var j := NamedIsParent(ms, more, i - |ms|, ref);
        assert all[j].Slug() != all[i].Slug();
      }
    }
  }

  // ----- A topological rank of the merged graph -----

  /** A number above the ranks of all of `ms`. */
  ghost function Above(ms: seq<Monitor>, rank: map<string, nat>): (bound: nat)
    ensures forall i | 0 <= i < |ms| && ms[i].Slug() in rank :: rank[ms[i].Slug()] < bound
  {
    if ms == [] then 0
    else
      var last, rest := ms[|ms| - 1], Above(ms[..|ms| - 1], rank);
      assert forall i | 0 <= i < |ms| - 1 :: ms[i] == ms[..|ms| - 1][i];
      if last.Slug() in rank && rank[last.Slug()] >= rest then rank[last.Slug()] + 1 else rest
  }

  /** Configured monitors keep their rank; above them come the added ones that
      depend on nothing, and above these the others. */
  ghost function Place(all: seq<Monitor>, base: nat, rank: map<string, nat>, i: nat): nat
    requires base <= |all| && i < |all|
  {
    if i >= base then Above(all[..base], rank) + (if all[i].dependsOn == [] then 0 else 1)
    else if all[i].Slug() in rank then rank[all[i].Slug()]
    else 0
  }

  ghost function Places(all: seq<Monitor>, base: nat, rank: map<string, nat>, n: nat): map<string, nat>
    requires base <= |all| && n <= |all|
  {
    if n == 0 then map[] else Places(all, base, rank, n - 1)[all[n - 1].Slug() := Place(all, base, rank, n - 1)]
  }

  lemma {:induction false} PlaceOf(all: seq<Monitor>, base: nat, rank: map<string, nat>, n: nat, i: nat)
    requires UniqueSlugs(all) && base <= |all| && i < n <= |all|
    ensures all[i].Slug() in Places(all, base, rank, n)
    ensures Places(all, base, rank, n)[all[i].Slug()] == Place(all, base, rank, i)
  {
    if i < n - 1 {
      PlaceOf(all, base, rank, n - 1, i);
    }
  }

  /** The child and the parent behind an edge of the graph. */
  lemma EdgeEnds(ms: seq<Monitor>, a: string, b: string) returns (i: nat, ref: string)
    requires UniqueSlugs(ms) && Edge(GraphOf(ms), a, b)
    ensures i < |ms| && ms[i].Slug() == a && ref in ms[i].dependsOn
    ensures Resolve(ms, ref).Some? && Resolve(ms, ref).value.Slug() == b
  {
    GraphFromKeys(ms, ms, a);
    var m :| m in ms && m.Slug() == a;
    i :| 0 <= i < |ms| && ms[i] == m;
    GraphEntry(ms, m);
    var ps := Parents(ms, m.dependsOn);
    var j :| 0 <= j < |ps| && SlugsOf(ps)[j] == b;
    ParentsExact(ms, m.dependsOn, ps[j]);
    ref :| ref in m.dependsOn && Resolve(ms, ref) == Some(ps[j]);
  }

  lemma EdgeBetween(ms: seq<Monitor>, m: Monitor, ref: string)
    requires UniqueSlugs(ms) && m in ms && ref in m.dependsOn && Resolve(ms, ref).Some?
    ensures Edge(GraphOf(ms), m.Slug(), Resolve(ms, ref).value.Slug())
  {
    ParentsExact(ms, m.dependsOn, Resolve(ms, ref).value);
    ParentsAreEdges(ms, m);
  }

  lemma UniquePrefix(ms: seq<Monitor>, more: seq<Monitor>)
    requires UniqueSlugs(ms + more)
    ensures UniqueSlugs(ms)
  {
    forall i, j | 0 <= i < j < |ms|
      ensures ms[i].Slug() != ms[j].Slug()
    {
      assert (ms + more)[i] == ms[i] && (ms + more)[j] == ms[j];
    }
  }

  /** Every parent has a lower place than its child. */
  lemma EdgeDescends(ms: seq<Monitor>, more: seq<Monitor>, rank: map<string, nat>, a: string, b: string)
    returns (i: nat, j: nat)
    requires UniqueSlugs(ms + more) && GoodReferences(ms) && PointsDown(ms, more)
    requires Ranked(GraphOf(ms), rank) && Edge(GraphOf(ms + more), a, b)
    ensures i < |ms + more| && j < |ms + more| && (ms + more)[i].Slug() == a && (ms + more)[j].Slug() == b
    ensures Place(ms + more, |ms|, rank, j) < Place(ms + more, |ms|, rank, i)
  {
    var all, ref := ms + more, "";
    i, ref := EdgeEnds(all, a, b);
    assert all[..|ms|] == ms;
    if i < |ms| {
      UniquePrefix(ms, more);
      assert ms[i] in ms && GoodReference(ms, ms[i], ref);
      ResolveInMore(ms, more, ref);
      EdgeBetween(ms, ms[i], ref);
      ResolveIsMember(ms, ref);
      j :| 0 <= j < |ms| && ms[j] == Resolve(ms, ref).value;
    } else {
      j := NamedIsParent(ms, more, i - |ms|, ref);
    }
  }

  lemma MergedAcyclic(ms: seq<Monitor>, more: seq<Monitor>)
    requires UniqueSlugs(ms + more) && GoodReferences(ms) && PointsDown(ms, more)
    requires Acyclic(GraphOf(ms))
    ensures Acyclic(GraphOf(ms + more))
  {
    var all, rank := ms + more, RankOf(GraphOf(ms));
    var places := Places(all, |ms|, rank, |all|);
    forall a, b | Edge(GraphOf(all), a, b)
      ensures a in places && b in places && places[b] < places[a]
    {
      var i, j := EdgeDescends(ms, more, rank, a, b);
      PlaceOf(all, |ms|, rank, |all|, i);
      PlaceOf(all, |ms|, rank, |all|, j);
    }
    assert Ranked(GraphOf(all), places);
  }

  /** What the loader asks of a list of monitors. */
  ghost predicate Loadable(ms: seq<Monitor>) {
    UniqueSlugs(ms) && GoodReferences(ms) && Acyclic(GraphOf(ms))
  }

  lemma RenderLoads(configured: seq<Keyed>, findings: seq<Finding>)
    requires Loadable(MonitorsOf(configured))
    requires forall f | f in findings :: Layered(f)
    ensures Loadable(MonitorsOf(configured) + RenderUpTo(configured, findings, |findings|).kept)
    ensures !Cyclic(GraphOf(MonitorsOf(configured) + RenderUpTo(configured, findings, |findings|).kept))
  {
    var ms, kept := MonitorsOf(configured), RenderUpTo(configured, findings, |findings|).kept;
    ProposedSlugsUnique(configured, findings);
    RenderPointsDown(configured, findings, |findings|);
    MergedReferences(ms, kept);
    MergedAcyclic(ms, kept);
    RankedHasNoCycle(GraphOf(ms + kept));
  }

  /** A configuration that loads still loads with everything that discovery proposes
      for any hosts. */
  lemma ProposalLoads(configured: seq<Keyed>, hosts: seq<HostDrafts>)
    requires Loadable(MonitorsOf(configured))
    ensures var all := MonitorsOf(configured) + RenderUpTo(configured, Findings(hosts), |hosts|).kept;
      Loadable(all) && !Cyclic(GraphOf(all))
  {
    forall f | f in Findings(hosts)
      ensures Layered(f)
    {
      var i :| 0 <= i < |hosts| && Findings(hosts)[i] == f;
      ProposeIsLayered(hosts[i]);
    }
    RenderLoads(configured, Findings(hosts));
  }
}
