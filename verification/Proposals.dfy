/** Naming the monitors that discovery proposes (watchpost/discovery.py). */
module Proposals {
  import opened Slugs
  import opened Configs

  /** What identifies a monitor for de-duplication: type, host, port and so on. */
  type Key = string

  datatype Keyed = Keyed(monitor: Monitor, key: Key)

  /** One host with the monitors proposed for it; the dependencies of a proposal are names in the same list. */
  datatype Finding = Finding(address: string, proposals: seq<Keyed>)

  // ----- A name whose slug is not taken -----

  /** The names tried for a proposal, in order. */
  function Candidate(base: string, address: string, k: nat): string {
    if k == 0 then base
    else if k == 1 then base + " (" + address + ")"
    else base + " (" + address + ")" + " " + Decimal(k)
  }

  /** The slugs of the numbered candidates below n. */
  function NumberedSlugs(base: string, address: string, n: nat): set<string> {
    if n <= 2 then {} else NumberedSlugs(base, address, n - 1) + {Slug(Candidate(base, address, n - 1))}
  }

  lemma {:induction false} NumberedSlugsAre(base: string, address: string, n: nat, s: string)
    requires s in NumberedSlugs(base, address, n)
    ensures exists j | 2 <= j < n :: s == Slug(Candidate(base, address, j))
  {
    if s in NumberedSlugs(base, address, n - 1) {
      NumberedSlugsAre(base, address, n - 1, s);
    } else {
      assert s == Slug(Candidate(base, address, n - 1));
    }
  }

  lemma {:induction false} NumberedSlugsDiffer(base: string, address: string, n: nat)
    ensures |NumberedSlugs(base, address, n)| == if n <= 2 then 0 else n - 2
  {
    if n > 2 {
      NumberedSlugsDiffer(base, address, n - 1);
      var last := Slug(Candidate(base, address, n - 1));
      if last in NumberedSlugs(base, address, n - 1) {
        NumberedSlugsAre(base, address, n - 1, last);
        var j :| 2 <= j < n - 1 && last == Slug(Candidate(base, address, j));
        SlugNumberedInjective(base + " (" + address + ")", j, n - 1);
      }
    }
  }

  lemma {:induction false} SubsetSize(a: set<string>, b: set<string>)
    requires a <= b
    ensures |a| <= |b|
  {
    if x :| x in a {
      SubsetSize(a - {x}, b - {x});
    }
  }

  /** Pigeons and holes: not all of the numbered candidates can be taken. */
  lemma NotAllTaken(base: string, address: string, n: nat, taken: set<string>)
    requires NumberedSlugs(base, address, n) <= taken
    ensures n <= |taken| + 2
  {
    NumberedSlugsDiffer(base, address, n);
    SubsetSize(NumberedSlugs(base, address, n), taken);
  }

  /** The first candidate from number k on whose slug is free. */
  function FreshFrom(base: string, address: string, taken: set<string>, k: nat): string
    requires NumberedSlugs(base, address, k) <= taken
    decreases |taken| + 2 - k
  {
    NotAllTaken(base, address, k, taken);
    if Slug(Candidate(base, address, k)) !in taken then Candidate(base, address, k)
    else
      NotAllTaken(base, address, k + 1, taken);
      FreshFrom(base, address, taken, k + 1)
  }

  function FreshName(base: string, address: string, taken: set<string>): string {
    FreshFrom(base, address, taken, 0)
  }

  /** The loop over names; it ends because numbered names have different slugs. */
  method FindFreshName(base: string, address: string, taken: set<string>) returns (name: string)
    ensures name == FreshName(base, address, taken)
  {
    var n := 2;
    name := base;
    if Slug(name) in taken {
      name := base + " (" + address + ")";
      while Slug(name) in taken
        invariant n >= 2 && name == Candidate(base, address, n - 1)
        invariant NumberedSlugs(base, address, n - 1) <= taken
        invariant FreshName(base, address, taken) == FreshFrom(base, address, taken, n - 1)
        decreases |taken| + 3 - n
      {
        NotAllTaken(base, address, n, taken);
        name, n := base + " (" + address + ")" + " " + Decimal(n), n + 1;
      }
    }
  }

  // ----- One host -----

  /** `renamed` says where a dependency on a proposed name leads. */
  datatype Naming = Naming(taken: set<string>, renamed: map<string, string>, kept: seq<Monitor>, skipped: nat)

  function NameOne(existing: map<Key, string>, address: string, st: Naming, p: Keyed): Naming {
    var asked := p.monitor.name;
    if p.key in existing then
      st.(renamed := st.renamed[asked := existing[p.key]], skipped := st.skipped + 1)
    else
      var name := FreshName(asked, address, st.taken);
      Naming(st.taken + {Slug(name)}, st.renamed[asked := name], st.kept + [p.monitor.(name := name)], st.skipped)
  }

  /** After the first n proposals of a host. */
  function NameUpTo(existing: map<Key, string>, taken: set<string>, f: Finding, n: nat): Naming
    requires n <= |f.proposals|
  {
    if n == 0 then Naming(taken, map[], [], 0)
    else NameOne(existing, f.address, NameUpTo(existing, taken, f, n - 1), f.proposals[n - 1])
  }

  function Renamed(renamed: map<string, string>, ref: string): string {
    if ref in renamed then renamed[ref] else ref
  }

  function RenamedAll(renamed: map<string, string>, refs: seq<string>): (r: seq<string>)
    ensures |r| == |refs| && forall i | 0 <= i < |refs| :: r[i] == Renamed(renamed, refs[i])
  {
    seq(|refs|, i requires 0 <= i < |refs| => Renamed(renamed, refs[i]))
  }

  function Redirect(renamed: map<string, string>, ms: seq<Monitor>): (r: seq<Monitor>)
    ensures |r| == |ms|
    ensures forall i | 0 <= i < |ms| :: r[i] == ms[i].(dependsOn := RenamedAll(renamed, ms[i].dependsOn))
  {
    seq(|ms|, i requires 0 <= i < |ms| => ms[i].(dependsOn := RenamedAll(renamed, ms[i].dependsOn)))
  }

  /** What is kept for a host, dependencies rewritten. */
  function Block(st: Naming): seq<Monitor> {
    Redirect(st.renamed, st.kept)
  }

  // ----- All hosts -----

  datatype Proposed = Proposed(taken: set<string>, kept: seq<Monitor>, skipped: nat)

  /** The configured monitor that a key stands for; the last one wins. */
  function Existing(configured: seq<Keyed>): map<Key, string> {
    if configured == [] then map[]
    else
      var last := configured[|configured| - 1];
      Existing(configured[..|configured| - 1])[last.key := last.monitor.name]
  }

  function SlugSet(ms: seq<Monitor>): set<string> {
    set m | m in ms :: m.Slug()
  }

  function MonitorsOf(ps: seq<Keyed>): (r: seq<Monitor>)
    ensures |r| == |ps| && forall i | 0 <= i < |ps| :: r[i] == ps[i].monitor
  {
    seq(|ps|, i requires 0 <= i < |ps| => ps[i].monitor)
  }

  function HostNaming(existing: map<Key, string>, taken: set<string>, f: Finding): Naming {
    NameUpTo(existing, taken, f, |f.proposals|)
  }

  function RenderUpTo(configured: seq<Keyed>, findings: seq<Finding>, n: nat): Proposed
    requires n <= |findings|
  {
    if n == 0 then Proposed(SlugSet(MonitorsOf(configured)), [], 0)
    else
      var before := RenderUpTo(configured, findings, n - 1);
      var st := HostNaming(Existing(configured), before.taken, findings[n - 1]);
      Proposed(st.taken, before.kept + Block(st), before.skipped + st.skipped)
  }

  method ExistingKeys(configured: seq<Keyed>) returns (existing: map<Key, string>, taken: set<string>)
    ensures existing == Existing(configured) && taken == SlugSet(MonitorsOf(configured))
  {
    existing, taken := map[], {};
    for i := 0 to |configured|
      invariant existing == Existing(configured[..i])
      invariant forall s :: s in taken <==> exists j | 0 <= j < i :: configured[j].monitor.Slug() == s
    {
      assert configured[..i + 1][..i] == configured[..i];
      existing := existing[configured[i].key := configured[i].monitor.name];
      taken := taken + {configured[i].monitor.Slug()};
    }
    assert configured[..|configured|] == configured;
    SlugSetIs(configured, taken);
  }

  lemma SlugSetIs(configured: seq<Keyed>, taken: set<string>)
    requires forall s :: s in taken <==> exists j | 0 <= j < |configured| :: configured[j].monitor.Slug() == s
    ensures taken == SlugSet(MonitorsOf(configured))
  {
    var ms := MonitorsOf(configured);
    forall s
      ensures s in taken <==> s in SlugSet(ms)
    {
      if s in taken {
        var j :| 0 <= j < |configured| && configured[j].monitor.Slug() == s;
        assert ms[j] in ms;
      }
    }
  }

  method NameHost(existing: map<Key, string>, taken: set<string>, f: Finding)
    returns (taken': set<string>, kept: seq<Monitor>, skipped: nat)
    ensures var st := HostNaming(existing, taken, f);
      taken' == st.taken && kept == Block(st) && skipped == st.skipped
  {
    taken', kept, skipped := taken, [], 0;
    var renamed: map<string, string> := map[];
    for i := 0 to |f.proposals|
      invariant Naming(taken', renamed, kept, skipped) == NameUpTo(existing, taken, f, i)
    {
      var p := f.proposals[i];
      if p.key in existing {
        skipped := skipped + 1;
        renamed := renamed[p.monitor.name := existing[p.key]];
      } else {
        var name := FindFreshName(p.monitor.name, f.address, taken');
        renamed := renamed[p.monitor.name := name];
        taken' := taken' + {Slug(name)};
        kept := kept + [p.monitor.(name := name)];
      }
    }
    kept := Redirect(renamed, kept);
  }

  method Render(configured: seq<Keyed>, findings: seq<Finding>)
    returns (kept: seq<Monitor>, proposed: nat, skipped: nat)
    ensures var all := RenderUpTo(configured, findings, |findings|);
      kept == all.kept && proposed == |all.kept| && skipped == all.skipped
  {
    var existing, taken := ExistingKeys(configured);
    kept, proposed, skipped := [], 0, 0;
    for i := 0 to |findings|
      invariant Proposed(taken, kept, skipped) == RenderUpTo(configured, findings, i)
      invariant proposed == |kept|
    {
      var block, more;
      taken, block, more := NameHost(existing, taken, findings[i]);
      kept, proposed, skipped := kept + block, proposed + |block|, skipped + more;
    }
  }
}
