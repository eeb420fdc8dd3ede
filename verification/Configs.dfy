/** Configured monitors, references between them, and the load-time check that
    the dependency graph has no cycle (watchpost/config.py). */
module Configs {
  import opened Wrappers
  import opened Slugs
  import opened Graphs

  datatype Monitor = Monitor(name: string, group: string, critical: bool, enabled: bool,
                             dependsOn: seq<string>,
                             failuresToDown: Option<int>, recoveriesToUp: Option<int>) {
    function Slug(): string {
      Slugs.Slug(name)
    }

    /** A reference means a monitor by its name or by its slug. */
    predicate AnswersTo(ref: string) {
      ref == name || ref == Slug()
    }
  }

  predicate UniqueSlugs(ms: seq<Monitor>) {
    forall i, j | 0 <= i < j < |ms| :: ms[i].Slug() != ms[j].Slug()
  }

  /** The validator of the monitor list: the reported name is the first whose
      slug was seen before. */
  method UniqueNames(ms: seq<Monitor>) returns (r: Result<(), string>)
    ensures r.Success? <==> UniqueSlugs(ms)
    ensures r.Failure? ==>
              exists j | 0 <= j < |ms| ::
                && ms[j].name == r.error
                && UniqueSlugs(ms[..j])
                && exists i | 0 <= i < j :: ms[i].Slug() == ms[j].Slug()
  {
    var seen: set<string> := {};
    for j := 0 to |ms|
      invariant UniqueSlugs(ms[..j])
      invariant seen == set i | 0 <= i < j :: ms[i].Slug()
    {
      if ms[j].Slug() in seen {
        return Failure(ms[j].name);
      }
      seen := seen + {ms[j].Slug()};
    }
    assert ms[..|ms|] == ms;
    return Success(());
  }

  function Resolve(ms: seq<Monitor>, ref: string): Option<Monitor> {
    if ms == [] then None
    else if ms[0].AnswersTo(ref) then Some(ms[0])
    else Resolve(ms[1..], ref)
  }

  function Parents(ms: seq<Monitor>, refs: seq<string>): (ps: seq<Monitor>)
    ensures forall p | p in ps :: p in ms
  {
    if refs == [] then []
    else
      ResolveIsMember(ms, refs[0]);
      match Resolve(ms, refs[0])
      case None => Parents(ms, refs[1..])
      case Some(p) => [p] + Parents(ms, refs[1..])
  }

  lemma {:induction false} ResolveIsMember(ms: seq<Monitor>, ref: string)
    ensures Resolve(ms, ref).Some? ==> Resolve(ms, ref).value in ms && Resolve(ms, ref).value.AnswersTo(ref)
    ensures Resolve(ms, ref).None? ==> forall m | m in ms :: !m.AnswersTo(ref)
  {
    if ms != [] && !ms[0].AnswersTo(ref) {
      ResolveIsMember(ms[1..], ref);
    }
  }

  lemma AnswersBySlug(m: Monitor, ref: string)
    requires m.AnswersTo(ref)
    ensures Slugs.Slug(ref) == m.Slug()
  {
    SlugIdempotent(m.name);
  }

  lemma UniqueBySlug(ms: seq<Monitor>, a: Monitor, b: Monitor)
    requires UniqueSlugs(ms) && a in ms && b in ms && a.Slug() == b.Slug()
    ensures a == b
  {
    var i :| 0 <= i < |ms| && ms[i] == a;
    var j :| 0 <= j < |ms| && ms[j] == b;
    assert !(i < j) && !(j < i);
  }

  /** With unique slugs a reference answers to one monitor at most, so the
      first match is the only match. */
  lemma ResolveExact(ms: seq<Monitor>, ref: string, m: Monitor)
    requires UniqueSlugs(ms)
    ensures Resolve(ms, ref) == Some(m) <==> m in ms && (ref == m.name || ref == Slugs.Slug(m.name))
  {
    ResolveIsMember(ms, ref);
    if m in ms && m.AnswersTo(ref) {
      var r := Resolve(ms, ref).value;
      AnswersBySlug(m, ref);
      AnswersBySlug(r, ref);
      UniqueBySlug(ms, m, r);
    }
  }

  /** Resolution does not depend on the order of the monitor list. */
  lemma ResolveOrderIndependent(ms: seq<Monitor>, ns: seq<Monitor>, ref: string)
    requires UniqueSlugs(ms) && UniqueSlugs(ns)
    requires forall m :: m in ms <==> m in ns
    ensures Resolve(ms, ref) == Resolve(ns, ref)
  {
    ResolveIsMember(ms, ref);
    ResolveIsMember(ns, ref);
    if Resolve(ms, ref).Some? {
      ResolveExact(ns, ref, Resolve(ms, ref).value);
    }
  }

  lemma {:induction false} ParentsExact(ms: seq<Monitor>, refs: seq<string>, p: Monitor)
    ensures p in Parents(ms, refs) <==> exists ref | ref in refs :: Resolve(ms, ref) == Some(p)
  {
    if refs != [] {
      ParentsExact(ms, refs[1..], p);
      assert forall ref :: ref in refs <==> ref == refs[0] || ref in refs[1..];
      if Resolve(ms, refs[0]) == Some(p) {
        assert refs[0] in refs;
      }
    }
  }

  /** They come in the order of the references. */
  lemma {:induction false} ParentsInOrder(ms: seq<Monitor>, refs: seq<string>, ref: string)
    ensures Parents(ms, []) == []
    ensures Parents(ms, refs + [ref])
         == Parents(ms, refs) + if Resolve(ms, ref).Some? then [Resolve(ms, ref).value] else []
  {
    if refs == [] {
      assert [] + [ref] == [ref] && [ref][1..] == [];
    } else {
      assert (refs + [ref])[1..] == refs[1..] + [ref];
      ParentsInOrder(ms, refs[1..], ref);
    }
  }

  // ------------------------------------------------------- the dependency graph

  function SlugsOf(ms: seq<Monitor>): (r: seq<string>)
    ensures |r| == |ms| && forall i | 0 <= i < |ms| :: r[i] == ms[i].Slug()
  {
    if ms == [] then [] else [ms[0].Slug()] + SlugsOf(ms[1..])
  }

  function ParentSlugs(all: seq<Monitor>, m: Monitor): seq<string> {
    SlugsOf(Parents(all, m.dependsOn))
  }

  function GraphFrom(all: seq<Monitor>, ms: seq<Monitor>): Graph {
    if ms == [] then map[]
    else GraphFrom(all, ms[..|ms| - 1])[ms[|ms| - 1].Slug() := ParentSlugs(all, ms[|ms| - 1])]
  }

  /** The resolved depends_on graph over the slugs of all monitors. */
  function GraphOf(ms: seq<Monitor>): Graph {
    GraphFrom(ms, ms)
  }

  lemma {:induction false} GraphFromKeys(all: seq<Monitor>, ms: seq<Monitor>, s: string)
    requires s in GraphFrom(all, ms)
    ensures exists m | m in ms :: m.Slug() == s
  {
    var k := |ms| - 1;
    if s != ms[k].Slug() {
      GraphFromKeys(all, ms[..k], s);
      var m :| m in ms[..k] && m.Slug() == s;
      assert m in ms;
    } else {
      assert ms[k] in ms;
    }
  }

  lemma {:induction false} GraphFromEntry(all: seq<Monitor>, ms: seq<Monitor>, i: nat)
    requires UniqueSlugs(ms) && i < |ms|
    ensures ms[i].Slug() in GraphFrom(all, ms) && GraphFrom(all, ms)[ms[i].Slug()] == ParentSlugs(all, ms[i])
  {
    if i < |ms| - 1 {
      GraphFromEntry(all, ms[..|ms| - 1], i);
    }
  }

  lemma GraphEntry(ms: seq<Monitor>, m: Monitor)
    requires UniqueSlugs(ms) && m in ms
    ensures m.Slug() in GraphOf(ms) && GraphOf(ms)[m.Slug()] == ParentSlugs(ms, m)
  {
    var i :| 0 <= i < |ms| && ms[i] == m;
    GraphFromEntry(ms, ms, i);
  }

  lemma ParentsAreEdges(ms: seq<Monitor>, m: Monitor)
    requires UniqueSlugs(ms) && m in ms
    ensures m.Slug() in GraphOf(ms)
    ensures forall p | p in Parents(ms, m.dependsOn) :: Edge(GraphOf(ms), m.Slug(), p.Slug())
  {
    GraphEntry(ms, m);
    var ps := Parents(ms, m.dependsOn);
    forall i | 0 <= i < |ps|
      ensures ps[i].Slug() in GraphOf(ms)[m.Slug()]
    {
      assert SlugsOf(ps)[i] == ps[i].Slug();
    }
  }

  lemma ParentAt(ms: seq<Monitor>, m: Monitor, i: nat)
    requires UniqueSlugs(ms) && m in ms && i < |Parents(ms, m.dependsOn)|
    ensures Parents(ms, m.dependsOn)[i] in ms
    ensures Edge(GraphOf(ms), m.Slug(), Parents(ms, m.dependsOn)[i].Slug())
  {
    assert Parents(ms, m.dependsOn)[i] in Parents(ms, m.dependsOn);
    ParentsAreEdges(ms, m);
  }

  lemma EdgesAreParents(ms: seq<Monitor>, m: Monitor, s: set<string>)
    requires UniqueSlugs(ms) && m in ms
    requires forall p | p in Parents(ms, m.dependsOn) :: p.Slug() in s
    ensures forall b | Edge(GraphOf(ms), m.Slug(), b) :: b in s
  {
    GraphEntry(ms, m);
  }

  // ------------------------------------------------------------ the load check

  datatype DependencyError =
    | UnknownParent(monitor: string, ref: string)
    | SelfDependency(monitor: string)
    | DependencyCycle(path: seq<string>)

  ghost predicate GoodReference(ms: seq<Monitor>, m: Monitor, ref: string) {
    Resolve(ms, ref).Some? && Resolve(ms, ref).value != m
  }

  ghost predicate GoodReferences(ms: seq<Monitor>) {
    forall m, ref | m in ms && ref in m.dependsOn :: GoodReference(ms, m, ref)
  }

  /** The error reported for reference `j` of monitor `i`, the first bad one. */
  ghost predicate FirstBadReference(ms: seq<Monitor>, i: int, j: int, e: DependencyError) {
    && 0 <= i < |ms| && 0 <= j < |ms[i].dependsOn|
    && (forall m, ref | m in ms[..i] && ref in m.dependsOn :: GoodReference(ms, m, ref))
    && (forall ref | ref in ms[i].dependsOn[..j] :: GoodReference(ms, ms[i], ref))
    && var ref := ms[i].dependsOn[j];
       match e
       case UnknownParent(n, r) => Resolve(ms, ref) == None && n == ms[i].name && r == ref
       case SelfDependency(n) => Resolve(ms, ref) == Some(ms[i]) && n == ms[i].name
       case DependencyCycle(_) => false
  }

  method CheckReferences(ms: seq<Monitor>) returns (e: Option<DependencyError>)
    ensures e == None <==> GoodReferences(ms)
    ensures e.Some? ==> exists i, j :: FirstBadReference(ms, i, j, e.value)
  {
    for i := 0 to |ms|
      invariant forall m, ref | m in ms[..i] && ref in m.dependsOn :: GoodReference(ms, m, ref)
    {
      var mon := ms[i];
      for j := 0 to |mon.dependsOn|
        invariant forall ref | ref in mon.dependsOn[..j] :: GoodReference(ms, mon, ref)
      {
        var ref := mon.dependsOn[j];
        var parent := Resolve(ms, ref);
        if parent == None {
          e := Some(UnknownParent(mon.name, ref));
          assert FirstBadReference(ms, i, j, e.value);
          assert !GoodReference(ms, mon, ref);
          return;
        }
        if parent.value == mon {
          e := Some(SelfDependency(mon.name));
          assert FirstBadReference(ms, i, j, e.value);
          assert !GoodReference(ms, mon, ref);
          return;
        }
      }
      assert mon.dependsOn[..|mon.dependsOn|] == mon.dependsOn;
    }
    assert ms[..|ms|] == ms;
    return None;
  }

  /** The depth-first search.  `colour` is the dictionary of the source; a slug
      that is not in it is white.  `finish` numbers the slugs in the order in
      which they turn black. */
  class DependencyWalk {
    const monitors: seq<Monitor>
    var colour: map<string, int>
    ghost const graph: Graph
    ghost var grey: set<string>
    ghost var finish: map<string, nat>
    ghost var clock: nat

    ghost predicate Valid()
      reads this
    {
      WalkState(graph, colour, finish, clock, grey)
    }

    ghost function White(): set<string>
      reads this
    {
      graph.Keys - colour.Keys
    }

    constructor (monitors: seq<Monitor>)
      ensures this.monitors == monitors && graph == GraphOf(monitors) && Valid() && grey == {}
    {
      this.monitors, graph := monitors, GraphOf(monitors);
      colour, finish, clock, grey := map[], map[], 0, {};
    }

    method TurnGrey(slug: string)
      requires Valid() && slug !in colour
      modifies this
      ensures Valid() && grey == old(grey) + {slug} && finish == old(finish)
      ensures colour.Keys == old(colour.Keys) + {slug}
    {
      EnterGrey(graph, colour, finish, clock, grey, slug);
      colour := colour[slug := GREY];
      grey := grey + {slug};
    }

    method TurnBlack(slug: string)
      requires Valid() && slug in grey && forall b | Edge(graph, slug, b) :: b in finish
      modifies this
      ensures Valid() && grey == old(grey) - {slug}
      ensures colour.Keys == old(colour.Keys) && finish.Keys == old(finish.Keys) + {slug}
    {
      LeaveBlack(graph, colour, finish, clock, grey, slug);
      colour := colour[slug := BLACK];
      grey, finish, clock := grey - {slug}, finish[slug := clock], clock + 1;
    }

    method Visit(mon: Monitor, path: seq<string>) returns (cycle: Option<seq<string>>)
      requires UniqueSlugs(monitors) && mon in monitors && graph == GraphOf(monitors)
      requires Valid() && (forall s | s in grey :: s in path)
      requires Chain(graph, path + [mon.Slug()])
      modifies this
      decreases White(), 0
      ensures cycle.Some? ==> IsCycleReport(graph, cycle.value)
      ensures cycle.None? ==>
                && Valid() && grey == old(grey) && mon.Slug() in finish
                && old(colour.Keys) <= colour.Keys && old(finish.Keys) <= finish.Keys
    {
      var slug := mon.Slug();
      var c := if slug in colour then colour[slug] else 0;
      if c == GREY {
        return Some(path + [slug]);
      }
      if c == BLACK {
        return None;
      }
      GraphEntry(monitors, mon);
      TurnGrey(slug);
      cycle := VisitParents(mon, path + [slug]);
      if cycle.Some? {
        return;
      }
      EdgesAreParents(monitors, mon, finish.Keys);
      TurnBlack(slug);
    }

    /** The loop over the parents inside `Visit`. */
    method VisitParents(mon: Monitor, path: seq<string>) returns (cycle: Option<seq<string>>)
      requires UniqueSlugs(monitors) && mon in monitors && graph == GraphOf(monitors)
      requires Valid() && (forall s | s in grey :: s in path)
      requires Chain(graph, path) && path != [] && path[|path| - 1] == mon.Slug()
      modifies this
      decreases White(), 1
      ensures cycle.Some? ==> IsCycleReport(graph, cycle.value)
      ensures cycle.None? ==>
                && Valid() && grey == old(grey)
                && (forall p | p in Parents(monitors, mon.dependsOn) :: p.Slug() in finish.Keys)
                && old(colour.Keys) <= colour.Keys && old(finish.Keys) <= finish.Keys
    {
      var parents := Parents(monitors, mon.dependsOn);
      ghost var grey0, colour0, finish0 := grey, colour.Keys, finish.Keys;
      for i := 0 to |parents|
        invariant Valid() && grey == grey0
        invariant colour0 <= colour.Keys && finish0 <= finish.Keys
        invariant forall k | 0 <= k < i :: parents[k].Slug() in finish.Keys
      {
        ParentAt(monitors, mon, i);
        ExtendChain(graph, path, parents[i].Slug());
        cycle := Visit(parents[i], path);
        if cycle.Some? {
          return;
        }
      }
      return None;
    }
  }

  /** Loading fails with a cycle exactly when the resolved graph has one, and
      otherwise the graph has a topological rank. */
  method CheckDependencies(ms: seq<Monitor>) returns (e: Option<DependencyError>)
    requires UniqueSlugs(ms)
    ensures e == None <==> GoodReferences(ms) && !Cyclic(GraphOf(ms))
    ensures e == None ==> Acyclic(GraphOf(ms))
    ensures e.Some? && e.value.DependencyCycle? <==> GoodReferences(ms) && Cyclic(GraphOf(ms))
    ensures e.Some? && e.value.DependencyCycle? ==> IsCycleReport(GraphOf(ms), e.value.path)
    ensures e.Some? && !e.value.DependencyCycle? ==> exists i, j :: FirstBadReference(ms, i, j, e.value)
  {
    e := CheckReferences(ms);
    if e.Some? {
      return;
    }
    var walk := new DependencyWalk(ms);
    for i := 0 to |ms|
      invariant walk.monitors == ms && walk.graph == GraphOf(ms) && walk.Valid() && walk.grey == {}
      invariant forall m | m in ms[..i] :: m.Slug() in walk.finish
    {
      var cycle := walk.Visit(ms[i], []);
      if cycle.Some? {
        ReportHoldsCycle(GraphOf(ms), cycle.value);
        return Some(DependencyCycle(cycle.value));
      }
    }
    assert ms[..|ms|] == ms;
    forall a, b | Edge(GraphOf(ms), a, b)
      ensures a in walk.finish
    {
      GraphFromKeys(ms, ms, a);
    }
    assert Ranked(GraphOf(ms), walk.finish);
    RankedHasNoCycle(GraphOf(ms));
    return None;
  }
}
