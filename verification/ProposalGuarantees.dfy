/** Pasting a whole proposal into a configuration that loads gives one that loads. */
module ProposalGuarantees {
  import opened Slugs
  import opened Configs
  import opened Proposals

  // ----- Fresh names -----

  /** The name is a candidate, its slug is free, and those of the candidates before it are not. */
  ghost predicate IsFresh(base: string, address: string, taken: set<string>, k: nat, name: string) {
    && name == Candidate(base, address, k) && Slug(name) !in taken
    && forall j: nat | j < k :: Slug(Candidate(base, address, j)) in taken
  }

  lemma FreshFromStep(base: string, address: string, taken: set<string>, k: nat)
    requires NumberedSlugs(base, address, k) <= taken && Slug(Candidate(base, address, k)) in taken
    ensures NumberedSlugs(base, address, k + 1) <= taken
    ensures FreshFrom(base, address, taken, k) == FreshFrom(base, address, taken, k + 1)
  {
    NotAllTaken(base, address, k, taken);
  }

  lemma {:induction false} FreshFromIsFresh(base: string, address: string, taken: set<string>, k: nat) returns (n: nat)
    requires NumberedSlugs(base, address, k) <= taken
    requires forall j: nat | j < k :: Slug(Candidate(base, address, j)) in taken
    ensures IsFresh(base, address, taken, n, FreshFrom(base, address, taken, k))
    decreases |taken| + 2 - k
  {
    n := k;
    NotAllTaken(base, address, k, taken);
    if Slug(Candidate(base, address, k)) in taken {
      FreshFromStep(base, address, taken, k);
      NotAllTaken(base, address, k + 1, taken);
      n := FreshFromIsFresh(base, address, taken, k + 1);
    }
  }

  /** The candidates: the name, the name with the address, and that numbered from two on. */
  lemma CandidateNames(base: string, address: string, k: nat)
    ensures k == 0 ==> Candidate(base, address, k) == base
    ensures k == 1 ==> Candidate(base, address, k) == base + " (" + address + ")"
    ensures k >= 2 ==>
      exists d :: Digits(d) && Value(d) == k && Candidate(base, address, k) == base + " (" + address + ") " + d
  {
    if k >= 2 {
      ValueOfDecimal(k);
      var stem, d := base + " (" + address, Decimal(k);
      assert stem + ")" + " " + d == stem + ") " + d;
    }
  }

  /** The chosen name is the first candidate whose slug is free. */
  lemma FreshNameIsFirstFree(base: string, address: string, taken: set<string>)
    ensures exists k :: IsFresh(base, address, taken, k, FreshName(base, address, taken))
  {
    var k := FreshFromIsFresh(base, address, taken, 0);
    assert IsFresh(base, address, taken, k, FreshName(base, address, taken));
  }

  lemma FreshNameIsFree(base: string, address: string, taken: set<string>)
    ensures Slug(FreshName(base, address, taken)) !in taken
  {
    FreshNameIsFirstFree(base, address, taken);
  }

  // ----- What a dependency is rewritten to -----

  /** A key stands for the last configured monitor that has it. */
  lemma {:induction false} ExistingIsLast(configured: seq<Keyed>, key: Key, i: nat)
    ensures (i < |configured| && configured[i].key == key
             && forall j | i < j < |configured| :: configured[j].key != key)
      ==> key in Existing(configured) && Existing(configured)[key] == configured[i].monitor.name
    ensures (forall j | 0 <= j < |configured| :: configured[j].key != key) ==> key !in Existing(configured)
  {
    if configured != [] {
      ExistingIsLast(configured[..|configured| - 1], key, i);
    }
  }

  /** `to` is the name of the monitor that the i-th entry of a host stands for: the configured one with its
      key, or the one kept for it. */
  ghost predicate StandsFor(existing: map<Key, string>, taken: set<string>, f: Finding, i: nat, kept: seq<Monitor>,
                            to: string)
    requires i < |f.proposals|
  {
    var q := |NameUpTo(existing, taken, f, i).kept|;
    if f.proposals[i].key in existing then to == existing[f.proposals[i].key]
    else q < |kept| && kept[q].name == to
  }

  /** Another name is not touched by the n-th entry, and what was kept stays. */
  lemma OtherStandsFor(existing: map<Key, string>, taken: set<string>, f: Finding, n: nat, name: string)
    requires n < |f.proposals| && f.proposals[n].monitor.name != name
    ensures var before, after := NameUpTo(existing, taken, f, n), NameUpTo(existing, taken, f, n + 1);
      && Renamed(after.renamed, name) == Renamed(before.renamed, name)
      && (name in after.renamed <==> name in before.renamed) && before.kept <= after.kept
  {
  }

  lemma StillStandsFor(existing: map<Key, string>, taken: set<string>, f: Finding, i: nat, kept: seq<Monitor>,
                       more: seq<Monitor>, to: string)
    requires i < |f.proposals| && StandsFor(existing, taken, f, i, kept, to) && kept <= more
    ensures StandsFor(existing, taken, f, i, more, to)
  {
  }

  /** After n entries a dependency on the name of the i-th leads to what the i-th stands for. */
  ghost predicate LeadsTo(existing: map<Key, string>, taken: set<string>, f: Finding, n: nat, i: nat)
    requires i < n <= |f.proposals|
  {
    var st := NameUpTo(existing, taken, f, n);
    StandsFor(existing, taken, f, i, st.kept, Renamed(st.renamed, f.proposals[i].monitor.name))
  }

  lemma LastLeads(existing: map<Key, string>, taken: set<string>, f: Finding, i: nat)
    requires i < |f.proposals|
    ensures LeadsTo(existing, taken, f, i + 1, i)
  {
    assert NameUpTo(existing, taken, f, i + 1)
        == NameOne(existing, f.address, NameUpTo(existing, taken, f, i), f.proposals[i]);
  }

  lemma StillLeadsTo(existing: map<Key, string>, taken: set<string>, f: Finding, n: nat, i: nat)
    requires i < n < |f.proposals| && f.proposals[n].monitor.name != f.proposals[i].monitor.name
    requires LeadsTo(existing, taken, f, n, i)
    ensures LeadsTo(existing, taken, f, n + 1, i)
  {
    var before, after := NameUpTo(existing, taken, f, n), NameUpTo(existing, taken, f, n + 1);
    var name := f.proposals[i].monitor.name;
    OtherStandsFor(existing, taken, f, n, name);
    StillStandsFor(existing, taken, f, i, before.kept, after.kept, Renamed(before.renamed, name));
  }

  ghost predicate Rises(p: int -> bool, a: int, b: int) {
    forall n :: a <= n < b && p(n) ==> p(n + 1)
  }

  lemma {:induction false} Climb(p: int -> bool, a: int, b: int)
    requires a <= b && p(a) && Rises(p, a, b)
    ensures p(b)
    decreases b - a
  {
    if a < b {
      Climb(p, a + 1, b);
    }
  }

  /** A dependency on a name leads to what the last entry of that name stands for. */
  lemma RenamedIsLast(existing: map<Key, string>, taken: set<string>, f: Finding, n: nat, i: nat)
    requires i < n <= |f.proposals|
    requires forall j | i < j < n :: f.proposals[j].monitor.name != f.proposals[i].monitor.name
    ensures LeadsTo(existing, taken, f, n, i)
  {
    LastLeads(existing, taken, f, i);
    forall k: nat | i + 1 <= k < n && LeadsTo(existing, taken, f, k, i)
      ensures LeadsTo(existing, taken, f, k + 1, i)
    {
      StillLeadsTo(existing, taken, f, k, i);
    }
    var p := (k: int) => i < k <= |f.proposals| && LeadsTo(existing, taken, f, k, i);
    assert Rises(p, i + 1, n);
    Climb(p, i + 1, n);
  }

  /** A dependency on any other name is left alone. */
  lemma {:induction false} OthersAreLeft(existing: map<Key, string>, taken: set<string>, f: Finding, n: nat,
                                         name: string)
    requires n <= |f.proposals| && forall j | 0 <= j < n :: f.proposals[j].monitor.name != name
    ensures Renamed(NameUpTo(existing, taken, f, n).renamed, name) == name
  {
    if n > 0 {
      OthersAreLeft(existing, taken, f, n - 1, name);
      OtherStandsFor(existing, taken, f, n - 1, name);
    }
  }

  // ----- Slugs stay distinct -----

  /** `taken` holds the slugs of `all`, no two of which are equal. */
  ghost predicate Distinct(all: seq<Monitor>, taken: set<string>) {
    UniqueSlugs(all) && forall s :: s in taken <==> exists i | 0 <= i < |all| :: all[i].Slug() == s
  }

  lemma AppendDistinct(all: seq<Monitor>, taken: set<string>, m: Monitor)
    requires Distinct(all, taken) && m.Slug() !in taken
    ensures Distinct(all + [m], taken + {m.Slug()})
  {
    var more := all + [m];
    forall i, j | 0 <= i < j < |more|
      ensures more[i].Slug() != more[j].Slug()
    {
      if j == |all| {
        assert all[i].Slug() in taken;
      }
    }
    forall s
      ensures s in taken + {m.Slug()} <==> exists i | 0 <= i < |more| :: more[i].Slug() == s
    {
      if s in taken {
        var i :| 0 <= i < |all| && all[i].Slug() == s;
        assert more[i].Slug() == s;
      } else if s == m.Slug() {
        assert more[|all|].Slug() == s;
      }
    }
  }

  lemma SameSlugsDistinct(all: seq<Monitor>, more: seq<Monitor>, taken: set<string>)
    requires Distinct(all, taken) && |all| == |more| && forall i | 0 <= i < |all| :: all[i].name == more[i].name
    ensures Distinct(more, taken)
  {
    forall i | 0 <= i < |all|
      ensures all[i].Slug() == more[i].Slug()
    {
    }
    forall s
      ensures s in taken <==> exists i | 0 <= i < |more| :: more[i].Slug() == s
    {
      if i :| 0 <= i < |more| && more[i].Slug() == s {
        assert all[i].Slug() == s;
      }
      if i :| 0 <= i < |all| && all[i].Slug() == s {
        assert more[i].Slug() == s;
      }
    }
  }

  lemma KeepDistinct(all: seq<Monitor>, kept: seq<Monitor>, taken: set<string>, m: Monitor)
    requires Distinct(all + kept, taken) && m.Slug() !in taken
    ensures Distinct(all + (kept + [m]), taken + {m.Slug()})
  {
    AppendDistinct(all + kept, taken, m);
    assert all + (kept + [m]) == (all + kept) + [m];
  }

  lemma {:induction false} NamesDistinct(existing: map<Key, string>, taken: set<string>, f: Finding, n: nat,
                                         all: seq<Monitor>)
    requires n <= |f.proposals| && Distinct(all, taken)
    ensures Distinct(all + NameUpTo(existing, taken, f, n).kept, NameUpTo(existing, taken, f, n).taken)
  {
    if n == 0 {
      assert all + [] == all;
    } else {
      var st, p := NameUpTo(existing, taken, f, n - 1), f.proposals[n - 1];
      NamesDistinct(existing, taken, f, n - 1, all);
      if p.key !in existing {
        FreshNameIsFree(p.monitor.name, f.address, st.taken);
        KeepDistinct(all, st.kept, st.taken, p.monitor.(name := FreshName(p.monitor.name, f.address, st.taken)));
      }
    }
  }

  lemma BlockDistinct(existing: map<Key, string>, taken: set<string>, f: Finding, all: seq<Monitor>)
    requires Distinct(all, taken)
    ensures var st := HostNaming(existing, taken, f);
      Distinct(all + Block(st), st.taken)
  {
    var st := HostNaming(existing, taken, f);
    NamesDistinct(existing, taken, f, |f.proposals|, all);
    SameSlugsDistinct(all + st.kept, all + Block(st), st.taken);
  }

  lemma ConfiguredDistinct(ms: seq<Monitor>)
    requires UniqueSlugs(ms)
    ensures Distinct(ms, SlugSet(ms))
  {
    forall s
      ensures s in SlugSet(ms) <==> exists i | 0 <= i < |ms| :: ms[i].Slug() == s
    {
      if i :| 0 <= i < |ms| && ms[i].Slug() == s {
        assert ms[i] in ms;
      }
    }
  }

  lemma Regroup(a: seq<Monitor>, b: seq<Monitor>, c: seq<Monitor>)
    ensures a + (b + c) == (a + b) + c
  {
  }

  lemma {:induction false} RenderDistinct(configured: seq<Keyed>, findings: seq<Finding>, n: nat)
    requires n <= |findings| && UniqueSlugs(MonitorsOf(configured))
    ensures var out := RenderUpTo(configured, findings, n);
      Distinct(MonitorsOf(configured) + out.kept, out.taken)
  {
    var ms := MonitorsOf(configured);
    if n == 0 {
      assert ms + [] == ms;
      ConfiguredDistinct(ms);
    } else {
      RenderDistinct(configured, findings, n - 1);
      var before := RenderUpTo(configured, findings, n - 1);
      var st := HostNaming(Existing(configured), before.taken, findings[n - 1]);
      BlockDistinct(Existing(configured), before.taken, findings[n - 1], ms + before.kept);
      Regroup(ms, before.kept, Block(st));
    }
  }

  /** No two monitors, configured or proposed, share a slug. */
  lemma ProposedSlugsUnique(configured: seq<Keyed>, findings: seq<Finding>)
    requires UniqueSlugs(MonitorsOf(configured))
    ensures UniqueSlugs(MonitorsOf(configured) + RenderUpTo(configured, findings, |findings|).kept)
  {
    RenderDistinct(configured, findings, |findings|);
  }

  // ----- Nothing is lost -----

  /** The proposals whose key no configured monitor has, in order. */
  function NewOnes(existing: map<Key, string>, ps: seq<Keyed>): seq<Keyed> {
    if ps == [] then []
    else
      var last := ps[|ps| - 1];
      NewOnes(existing, ps[..|ps| - 1]) + if last.key in existing then [] else [last]
  }

  /** The kept monitor is the proposal under one of its candidate names. */
  ghost predicate Renames(p: Keyed, address: string, m: Monitor) {
    exists k :: m == p.monitor.(name := Candidate(p.monitor.name, address, k))
  }

  /** The wanted proposals are kept, in order, and the others are skipped. */
  ghost predicate KeptOf(st: Naming, wanted: seq<Keyed>, address: string, n: nat) {
    && |st.kept| == |wanted| && |st.kept| + st.skipped == n
    && forall i | 0 <= i < |wanted| :: Renames(wanted[i], address, st.kept[i])
  }

  lemma KeptOneMore(existing: map<Key, string>, address: string, st: Naming, wanted: seq<Keyed>, n: nat, p: Keyed)
    requires KeptOf(st, wanted, address, n)
    ensures KeptOf(NameOne(existing, address, st, p), wanted + if p.key in existing then [] else [p], address, n + 1)
  {
    FreshNameRenames(p, address, st.taken);
  }

  lemma {:induction false} KeptAreNew(existing: map<Key, string>, taken: set<string>, f: Finding, n: nat)
    requires n <= |f.proposals|
    ensures KeptOf(NameUpTo(existing, taken, f, n), NewOnes(existing, f.proposals[..n]), f.address, n)
  {
    if n > 0 {
      KeptAreNew(existing, taken, f, n - 1);
      NewOnesStep(existing, f.proposals, n);
      KeptOneMore(existing, f.address, NameUpTo(existing, taken, f, n - 1), NewOnes(existing, f.proposals[..n - 1]),
                  n - 1, f.proposals[n - 1]);
    }
  }

  lemma NewOnesStep(existing: map<Key, string>, ps: seq<Keyed>, n: nat)
    requires 0 < n <= |ps|
    ensures NewOnes(existing, ps[..n])
         == NewOnes(existing, ps[..n - 1]) + if ps[n - 1].key in existing then [] else [ps[n - 1]]
  {
    assert ps[..n][..n - 1] == ps[..n - 1];
  }

  lemma FreshNameRenames(p: Keyed, address: string, taken: set<string>)
    ensures Renames(p, address, p.monitor.(name := FreshName(p.monitor.name, address, taken)))
  {
    FreshNameIsFirstFree(p.monitor.name, address, taken);
    var k :| IsFresh(p.monitor.name, address, taken, k, FreshName(p.monitor.name, address, taken));
  }

  /** A host's block holds its new proposals in order; only names and dependencies differ. */
  lemma BlockHoldsNewOnes(existing: map<Key, string>, taken: set<string>, f: Finding)
    ensures var st, wanted := HostNaming(existing, taken, f), NewOnes(existing, f.proposals);
      && |Block(st)| == |wanted|
      && |Block(st)| + st.skipped == |f.proposals|
      && forall i | 0 <= i < |wanted| ::
           Renames(wanted[i], f.address, Block(st)[i].(dependsOn := wanted[i].monitor.dependsOn))
  {
    var st, wanted := HostNaming(existing, taken, f), NewOnes(existing, f.proposals);
    KeptAreNew(existing, taken, f, |f.proposals|);
    assert f.proposals[..|f.proposals|] == f.proposals;
    forall i | 0 <= i < |wanted|
      ensures Renames(wanted[i], f.address, Block(st)[i].(dependsOn := wanted[i].monitor.dependsOn))
    {
      assert Renames(wanted[i], f.address, st.kept[i]);
      assert Block(st)[i].(dependsOn := wanted[i].monitor.dependsOn) == st.kept[i];
    }
  }

  function Asked(findings: seq<Finding>, n: nat): nat
    requires n <= |findings|
  {
    if n == 0 then 0 else Asked(findings, n - 1) + |findings[n - 1].proposals|
  }

  /** Every proposal is either kept or skipped. */
  lemma {:induction false} KeptPlusSkipped(configured: seq<Keyed>, findings: seq<Finding>, n: nat)
    requires n <= |findings|
    ensures var out := RenderUpTo(configured, findings, n);
      |out.kept| + out.skipped == Asked(findings, n)
  {
    if n > 0 {
      KeptPlusSkipped(configured, findings, n - 1);
      BlockHoldsNewOnes(Existing(configured), RenderUpTo(configured, findings, n - 1).taken, findings[n - 1]);
    }
  }

  // ----- Where dependencies lead -----

  /** Some monitor of `ms` has this name. */
  ghost predicate Names(ms: seq<Monitor>, name: string) {
    exists j | 0 <= j < |ms| :: ms[j].name == name
  }

  lemma NamesInMore(ms: seq<Monitor>, more: seq<Monitor>, name: string)
    ensures Names(ms, name) ==> Names(ms + more, name)
    ensures Names(more, name) ==> Names(ms + more, name)
  {
    if j :| 0 <= j < |ms| && ms[j].name == name {
      assert (ms + more)[j].name == name;
    }
    if j :| 0 <= j < |more| && more[j].name == name {
      assert (ms + more)[|ms| + j].name == name;
    }
  }

  lemma {:induction false} ExistingAreConfigured(configured: seq<Keyed>, k: Key)
    requires k in Existing(configured)
    ensures Names(MonitorsOf(configured), Existing(configured)[k])
  {
    var n := |configured| - 1;
    var rest := configured[..n];
    if k == configured[n].key {
      assert MonitorsOf(configured)[n].name == Existing(configured)[k];
    } else {
      ExistingAreConfigured(rest, k);
      NamesInMore(MonitorsOf(rest), [configured[n].monitor], Existing(configured)[k]);
      assert MonitorsOf(configured) == MonitorsOf(rest) + [configured[n].monitor];
    }
  }

  /** A name that the host uses among its first n proposals. */
  ghost predicate Used(f: Finding, n: nat, name: string) {
    exists j | 0 <= j < n && j < |f.proposals| :: f.proposals[j].monitor.name == name
  }

  /** Every used name leads to a configured monitor or to one kept so far. */
  lemma {:induction false} UsedNamesLead(configured: seq<Keyed>, taken: set<string>, f: Finding, n: nat, name: string)
    requires n <= |f.proposals| && Used(f, n, name)
    ensures var st := NameUpTo(Existing(configured), taken, f, n);
      name in st.renamed && Names(MonitorsOf(configured) + st.kept, st.renamed[name])
  {
    var existing, ms := Existing(configured), MonitorsOf(configured);
    var before, st := NameUpTo(existing, taken, f, n - 1), NameUpTo(existing, taken, f, n);
    var p := f.proposals[n - 1];
    if p.monitor.name == name {
      if p.key in existing {
        ExistingAreConfigured(configured, p.key);
        NamesInMore(ms, st.kept, st.renamed[name]);
      } else {
        assert st.kept[|before.kept|].name == st.renamed[name];
        NamesInMore(ms, st.kept, st.renamed[name]);
      }
    } else {
      assert Used(f, n - 1, name);
      UsedNamesLead(configured, taken, f, n - 1, name);
      if p.key !in existing {
        assert ms + st.kept == (ms + before.kept) + [st.kept[|before.kept|]];
        NamesInMore(ms + before.kept, [st.kept[|before.kept|]], st.renamed[name]);
      }
    }
  }

  /** The proposal that became the t-th kept monitor. */
  lemma {:induction false} KeptOrigin(existing: map<Key, string>, taken: set<string>, f: Finding, n: nat, t: nat)
    returns (i: nat)
    requires n <= |f.proposals| && t < |NameUpTo(existing, taken, f, n).kept|
    ensures i < n && |NameUpTo(existing, taken, f, i).kept| == t
    ensures NameUpTo(existing, taken, f, n).kept[t].dependsOn == f.proposals[i].monitor.dependsOn
  {
    if t < |NameUpTo(existing, taken, f, n - 1).kept| {
      i := KeptOrigin(existing, taken, f, n - 1, t);
    } else {
      i := n - 1;
    }
  }

  /** A host's dependencies are names in its own list. */
  ghost predicate DependsInside(f: Finding) {
    forall i, d | 0 <= i < |f.proposals| && d in f.proposals[i].monitor.dependsOn :: Used(f, |f.proposals|, d)
  }

  /** And no entry of such a name depends on anything itself. */
  ghost predicate Layered(f: Finding) {
    && DependsInside(f)
    && forall i, j, d | 0 <= i < |f.proposals| && 0 <= j < |f.proposals| && d in f.proposals[i].monitor.dependsOn ::
         f.proposals[j].monitor.name == d ==> f.proposals[j].monitor.dependsOn == []
  }

  /** Some monitor of `ms` has this name and depends on nothing. */
  ghost predicate NamesFree(ms: seq<Monitor>, name: string) {
    exists j | 0 <= j < |ms| :: ms[j].name == name && ms[j].dependsOn == []
  }

  /** Every dependency of `kept` names a monitor of `ms`, or one of `kept` that depends on nothing. */
  ghost predicate PointsDown(ms: seq<Monitor>, kept: seq<Monitor>) {
    forall i, d | 0 <= i < |kept| && d in kept[i].dependsOn :: Names(ms, d) || NamesFree(kept, d)
  }

  /** Every dependency of a block names a configured monitor or one of the block. */
  lemma BlockLeads(configured: seq<Keyed>, taken: set<string>, f: Finding, t: nat, d: string)
    requires DependsInside(f)
    requires var block := Block(HostNaming(Existing(configured), taken, f));
      t < |block| && d in block[t].dependsOn
    ensures Names(MonitorsOf(configured) + Block(HostNaming(Existing(configured), taken, f)), d)
  {
    var n, ms := |f.proposals|, MonitorsOf(configured);
    var st := HostNaming(Existing(configured), taken, f);
    var asked := Origin(configured, taken, f, t, d);
    UsedNamesLead(configured, taken, f, n, asked);
    SameNames(ms + st.kept, ms + Block(st), d);
  }

  /** The name that the proposal depended on before it was rewritten to d. */
  lemma Origin(configured: seq<Keyed>, taken: set<string>, f: Finding, t: nat, d: string) returns (asked: string)
    requires var block := Block(HostNaming(Existing(configured), taken, f));
      t < |block| && d in block[t].dependsOn
    ensures var st := HostNaming(Existing(configured), taken, f);
      asked in st.kept[t].dependsOn && d == Renamed(st.renamed, asked)
    ensures exists i | 0 <= i < |f.proposals| :: asked in f.proposals[i].monitor.dependsOn
  {
    var st := HostNaming(Existing(configured), taken, f);
    var j :| 0 <= j < |Block(st)[t].dependsOn| && Block(st)[t].dependsOn[j] == d;
    asked := st.kept[t].dependsOn[j];
    var i := KeptOrigin(Existing(configured), taken, f, |f.proposals|, t);
    assert asked in f.proposals[i].monitor.dependsOn;
  }

  lemma SameNames(ms: seq<Monitor>, more: seq<Monitor>, name: string)
    requires |ms| == |more| && forall i | 0 <= i < |ms| :: ms[i].name == more[i].name
    ensures Names(ms, name) ==> Names(more, name)
  {
    if i :| 0 <= i < |ms| && ms[i].name == name {
      assert more[i].name == name;
    }
  }

  /** A name whose entries depend on nothing leads to a configured monitor or to a kept one that depends on nothing. */
  lemma {:induction false} UsedNamesLeadFree(configured: seq<Keyed>, taken: set<string>, f: Finding, n: nat,
                                             name: string)
    requires n <= |f.proposals| && Used(f, n, name)
    requires forall j | 0 <= j < |f.proposals|
             && f.proposals[j].monitor.name == name :: f.proposals[j].monitor.dependsOn == []
    ensures var st := NameUpTo(Existing(configured), taken, f, n);
      name in st.renamed && (Names(MonitorsOf(configured), st.renamed[name]) || NamesFree(st.kept, st.renamed[name]))
  {
    var existing := Existing(configured);
    var before, st := NameUpTo(existing, taken, f, n - 1), NameUpTo(existing, taken, f, n);
    var p := f.proposals[n - 1];
    if p.monitor.name == name {
      if p.key in existing {
        ExistingAreConfigured(configured, p.key);
      } else {
        var m := st.kept[|before.kept|];
        assert m.name == st.renamed[name] && m.dependsOn == [];
      }
    } else {
      assert Used(f, n - 1, name);
      UsedNamesLeadFree(configured, taken, f, n - 1, name);
      FreeInMore(before.kept, st.kept, st.renamed[name]);
    }
  }

  lemma FreeInMore(ms: seq<Monitor>, more: seq<Monitor>, name: string)
    requires ms <= more
    ensures NamesFree(ms, name) ==> NamesFree(more, name)
  {
    if j :| 0 <= j < |ms| && ms[j].name == name && ms[j].dependsOn == [] {
      assert more[j] == ms[j];
    }
  }

  lemma FreeStaysFree(st: Naming, name: string)
    requires NamesFree(st.kept, name)
    ensures NamesFree(Block(st), name)
  {
    var j :| 0 <= j < |st.kept| && st.kept[j].name == name && st.kept[j].dependsOn == [];
    assert Block(st)[j].name == name && Block(st)[j].dependsOn == [];
  }

  lemma BlockPointsDown(configured: seq<Keyed>, taken: set<string>, f: Finding)
    requires Layered(f)
    ensures PointsDown(MonitorsOf(configured), Block(HostNaming(Existing(configured), taken, f)))
  {
    var st := HostNaming(Existing(configured), taken, f);
    var block := Block(st);
    forall t, d | 0 <= t < |block| && d in block[t].dependsOn
      ensures Names(MonitorsOf(configured), d) || NamesFree(block, d)
    {
      var asked := Origin(configured, taken, f, t, d);
      UsedNamesLeadFree(configured, taken, f, |f.proposals|, asked);
      if NamesFree(st.kept, d) {
        FreeStaysFree(st, d);
      }
    }
  }

  lemma AppendPointsDown(ms: seq<Monitor>, kept: seq<Monitor>, block: seq<Monitor>)
    requires PointsDown(ms, kept) && PointsDown(ms, block)
    ensures PointsDown(ms, kept + block)
  {
    forall i, d | 0 <= i < |kept + block| && d in (kept + block)[i].dependsOn
      ensures Names(ms, d) || NamesFree(kept + block, d)
    {
      if i < |kept| {
        assert d in kept[i].dependsOn;
        FreeInMore(kept, kept + block, d);
      } else {
        assert d in block[i - |kept|].dependsOn;
        if j :| 0 <= j < |block| && block[j].name == d && block[j].dependsOn == [] {
          assert (kept + block)[|kept| + j] == block[j];
        }
      }
    }
  }

  lemma {:induction false} RenderPointsDown(configured: seq<Keyed>, findings: seq<Finding>, n: nat)
    requires n <= |findings| && forall f | f in findings :: Layered(f)
    ensures PointsDown(MonitorsOf(configured), RenderUpTo(configured, findings, n).kept)
  {
    if n > 0 {
      RenderPointsDown(configured, findings, n - 1);
      var before, f := RenderUpTo(configured, findings, n - 1), findings[n - 1];
      BlockPointsDown(configured, before.taken, f);
      AppendPointsDown(MonitorsOf(configured), before.kept, Block(HostNaming(Existing(configured), before.taken, f)));
    }
  }

  /** Every dependency of a proposed monitor names a configured monitor or one that is proposed with it. */
  lemma {:induction false} DependenciesLead(configured: seq<Keyed>, findings: seq<Finding>, n: nat, m: Monitor,
                                            d: string)
    requires n <= |findings| && forall f | f in findings :: DependsInside(f)
    requires m in RenderUpTo(configured, findings, n).kept && d in m.dependsOn
    ensures Names(MonitorsOf(configured) + RenderUpTo(configured, findings, n).kept, d)
  {
    var ms := MonitorsOf(configured);
    var before, f := RenderUpTo(configured, findings, n - 1), findings[n - 1];
    var block := Block(HostNaming(Existing(configured), before.taken, f));
    if m in before.kept {
      DependenciesLead(configured, findings, n - 1, m, d);
      NamesInMore(ms + before.kept, block, d);
      Regroup(ms, before.kept, block);
    } else {
      var t :| 0 <= t < |block| && block[t] == m;
      BlockLeads(configured, before.taken, f, t, d);
      NamesInside(ms, before.kept, block, d);
    }
  }

  lemma NamesInside(ms: seq<Monitor>, kept: seq<Monitor>, block: seq<Monitor>, name: string)
    requires Names(ms + block, name)
    ensures Names(ms + (kept + block), name)
  {
    var j :| 0 <= j < |ms + block| && (ms + block)[j].name == name;
    assert (ms + (kept + block))[if j < |ms| then j else j + |kept|].name == name;
  }
}
