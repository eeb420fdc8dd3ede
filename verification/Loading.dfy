/** From the monitor list to a running scheduler: the load-time checks
    (watchpost/config.py) are what the engine needs. */
module Loading {
  import opened Wrappers
  import opened Graphs
  import opened Configs
  import opened MonitorStates
  import opened Networks
  import opened Engine

  datatype Defaults = Defaults(failuresToDown: int, recoveriesToUp: int)

  datatype Config = Config(monitors: seq<Monitor>, defaults: Defaults)

  datatype LoadError = DuplicateName(name: string) | BadDependency(error: DependencyError)

  function GetOr(o: Option<int>, default: int): int {
    if o.Some? then o.value else default
  }

  /** The enabled monitors, in the order of the configuration. */
  function EnabledOf(ms: seq<Monitor>): (r: seq<Monitor>)
    ensures forall m :: m in r <==> m in ms && m.enabled
  {
    if ms == [] then []
    else EnabledOf(ms[..|ms| - 1]) + if ms[|ms| - 1].enabled then [ms[|ms| - 1]] else []
  }

  /** In the order of the configuration. */
  lemma EnabledInOrder(ms: seq<Monitor>, m: Monitor)
    ensures EnabledOf([]) == []
    ensures EnabledOf(ms + [m]) == EnabledOf(ms) + if m.enabled then [m] else []
  {
    assert (ms + [m])[..|ms|] == ms;
  }

  lemma {:induction false} EnabledUnique(ms: seq<Monitor>)
    requires UniqueSlugs(ms)
    ensures UniqueSlugs(EnabledOf(ms))
  {
    if ms != [] {
      var k, last := ms[..|ms| - 1], ms[|ms| - 1];
      EnabledUnique(k);
      forall m | m in EnabledOf(k)
        ensures m.Slug() != last.Slug()
      {
        var i :| 0 <= i < |k| && k[i] == m;
        assert ms[i] == m;
      }
    }
  }

  function FailuresFrom(ms: seq<Monitor>, d: int): map<string, int> {
    if ms == [] then map[]
    else FailuresFrom(ms[..|ms| - 1], d)[ms[|ms| - 1].Slug() := GetOr(ms[|ms| - 1].failuresToDown, d)]
  }

  function RecoveriesFrom(ms: seq<Monitor>, d: int): map<string, int> {
    if ms == [] then map[]
    else RecoveriesFrom(ms[..|ms| - 1], d)[ms[|ms| - 1].Slug() := GetOr(ms[|ms| - 1].recoveriesToUp, d)]
  }

  function NamesFrom(ms: seq<Monitor>): map<string, string> {
    if ms == [] then map[] else NamesFrom(ms[..|ms| - 1])[ms[|ms| - 1].Slug() := ms[|ms| - 1].name]
  }

  function SiteOf(c: Config, check: (string, nat) -> Verdict): Site {
    var enabled := EnabledOf(c.monitors);
    Site(Network(SlugsOf(enabled), GraphOf(c.monitors), NamesFrom(c.monitors)),
         FailuresFrom(enabled, c.defaults.failuresToDown),
         RecoveriesFrom(enabled, c.defaults.recoveriesToUp), check)
  }

  /** The counts the engine is modelled for; the configuration does not enforce them. */
  ghost predicate PositiveCounts(c: Config) {
    forall m | m in c.monitors && m.enabled ::
      GetOr(m.failuresToDown, c.defaults.failuresToDown) >= 1 && GetOr(m.recoveriesToUp, c.defaults.recoveriesToUp) >= 1
  }

  lemma {:induction false} EntriesFrom(ms: seq<Monitor>, d: int, m: Monitor)
    requires m in ms && UniqueSlugs(ms)
    ensures m.Slug() in FailuresFrom(ms, d) && FailuresFrom(ms, d)[m.Slug()] == GetOr(m.failuresToDown, d)
    ensures m.Slug() in RecoveriesFrom(ms, d) && RecoveriesFrom(ms, d)[m.Slug()] == GetOr(m.recoveriesToUp, d)
    ensures m.Slug() in NamesFrom(ms) && NamesFrom(ms)[m.Slug()] == m.name
  {
    var k, last := ms[..|ms| - 1], ms[|ms| - 1];
    if m != last {
      var i :| 0 <= i < |ms| && ms[i] == m;
      assert k[i] == m;
      EntriesFrom(k, d, m);
      assert ms[i].Slug() != last.Slug();
    }
  }

  lemma SiteEntry(c: Config, check: (string, nat) -> Verdict, m: Monitor)
    requires UniqueSlugs(c.monitors) && m in c.monitors && m.enabled
    ensures var e, s := SiteOf(c, check), m.Slug();
            && s in e.net.parents && e.net.parents[s] == ParentSlugs(c.monitors, m)
            && s in e.net.names && e.net.names[s] == m.name
            && s in e.failures && s in e.recoveries
            && (m.failuresToDown == None ==> e.failures[s] == c.defaults.failuresToDown)
            && (m.failuresToDown.Some? ==> m.failuresToDown == Some(e.failures[s]))
            && (m.recoveriesToUp == None ==> e.recoveries[s] == c.defaults.recoveriesToUp)
            && (m.recoveriesToUp.Some? ==> m.recoveriesToUp == Some(e.recoveries[s]))
  {
    EnabledUnique(c.monitors);
    GraphEntry(c.monitors, m);
    EntriesFrom(c.monitors, 0, m);
    EntriesFrom(EnabledOf(c.monitors), c.defaults.failuresToDown, m);
    EntriesFrom(EnabledOf(c.monitors), c.defaults.recoveriesToUp, m);
  }

  /** A configuration that loads gives the engine an acyclic network, and all it
      is modelled for exactly when the counts are positive. */
  lemma LoadedSiteValid(c: Config, check: (string, nat) -> Verdict)
    requires UniqueSlugs(c.monitors) && Acyclic(GraphOf(c.monitors))
    ensures SiteOf(c, check).net.Valid()
    ensures SiteOf(c, check).Valid() <==> PositiveCounts(c)
  {
    var e := SiteOf(c, check);
    EnabledUnique(c.monitors);
    OrderIsUnique(EnabledOf(c.monitors));
    forall s | s in e.net.order
      ensures s in e.net.parents && s in e.net.names
      ensures PositiveCounts(c) ==> s in e.failures && s in e.recoveries && e.failures[s] >= 1 && e.recoveries[s] >= 1
    {
      OrderedIsEnabled(c, check, s);
    }
    if e.Valid() {
      ValidIsPositive(c, check);
    }
  }

  lemma ValidIsPositive(c: Config, check: (string, nat) -> Verdict)
    requires UniqueSlugs(c.monitors) && SiteOf(c, check).Valid()
    ensures PositiveCounts(c)
  {
    forall m | m in c.monitors && m.enabled
      ensures GetOr(m.failuresToDown, c.defaults.failuresToDown) >= 1
      ensures GetOr(m.recoveriesToUp, c.defaults.recoveriesToUp) >= 1
    {
      SiteEntry(c, check, m);
      EnabledIsOrdered(c, check, m);
    }
  }

  lemma EnabledIsOrdered(c: Config, check: (string, nat) -> Verdict, m: Monitor)
    requires m in c.monitors && m.enabled
    ensures m.Slug() in SiteOf(c, check).net.order
  {
    var enabled := EnabledOf(c.monitors);
    var i :| 0 <= i < |enabled| && enabled[i] == m;
    assert SlugsOf(enabled)[i] == m.Slug();
  }

  lemma OrderedIsEnabled(c: Config, check: (string, nat) -> Verdict, s: string)
    requires UniqueSlugs(c.monitors) && s in SiteOf(c, check).net.order
    ensures var e := SiteOf(c, check);
            && s in e.net.parents && s in e.net.names
            && s in e.failures && s in e.recoveries
            && (PositiveCounts(c) ==> e.failures[s] >= 1 && e.recoveries[s] >= 1)
  {
    var enabled := EnabledOf(c.monitors);
    var i :| 0 <= i < |enabled| && SlugsOf(enabled)[i] == s;
    assert enabled[i] in enabled;
    SiteEntry(c, check, enabled[i]);
  }

  lemma OrderIsUnique(ms: seq<Monitor>)
    requires UniqueSlugs(ms)
    ensures forall i, j | 0 <= i < j < |SlugsOf(ms)| :: SlugsOf(ms)[i] != SlugsOf(ms)[j]
  {
  }

  /** Loading succeeds exactly when slugs are unique, references are good and
      there is no dependency cycle; the engine's tables are then well founded. */
  method Load(c: Config, check: (string, nat) -> Verdict) returns (r: Result<Site, LoadError>)
    ensures r.Success? <==>
              UniqueSlugs(c.monitors) && GoodReferences(c.monitors) && !Cyclic(GraphOf(c.monitors))
    ensures r.Success? ==>
              r.value == SiteOf(c, check) && r.value.net.Valid() && (r.value.Valid() <==> PositiveCounts(c))
    ensures r.Failure? ==> (r.error.DuplicateName? <==> !UniqueSlugs(c.monitors))
  {
    var u := UniqueNames(c.monitors);
    if u.Failure? {
      return Failure(DuplicateName(u.error));
    }
    var d := CheckDependencies(c.monitors);
    if d.Some? {
      return Failure(BadDependency(d.value));
    }
    LoadedSiteValid(c, check);
    return Success(SiteOf(c, check));
  }
}
