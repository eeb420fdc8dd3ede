/** Which of the monitors proposed for a host depend on which (watchpost/discovery.py).

    Only guests depend on anything: a Proxmox guest on its node, a vSphere machine
    on its host.  All other entries are arbitrary. */
module Drafts {
  import opened Wrappers
  import opened Configs
  import opened Proposals
  import opened ProposalGuarantees

  /** What an entry is; `settings` stands for all of it but name and dependencies. */
  datatype Draft =
    | Node(node: string)
    | Esxi(host: string, single: bool)
    | Guest(container: bool, title: string, node: string)
    | Machine(title: string, runsOn: Option<string>)
    | Other(name: string)

  datatype Entry = Entry(draft: Draft, settings: Monitor, key: Key)

  datatype HostDrafts = HostDrafts(address: string, base: string, entries: seq<Entry>)

  /** The name of an entry: the label of the host, a blank, and the suffix. */
  function NameOf(base: string, d: Draft): string {
    match d
    case Node(node) => base + " node " + node
    case Esxi(host, single) => if single then base + " ESXi" else base + " ESXi " + host
    case Guest(container, title, _) => (if container then base + " CT " else base + " VM ") + title
    case Machine(title, _) => base + " VM " + title
    case Other(name) => name
  }

  /** `p` is the entry that guest `d` runs on. */
  predicate RunsOn(d: Draft, p: Draft) {
    (d.Guest? && p.Node? && p.node == d.node) || (d.Machine? && p.Esxi? && d.runsOn == Some(p.host))
  }

  /** The last entry that `d` runs on, if there is one. */
  function DependenciesOf(base: string, entries: seq<Entry>, d: Draft): (deps: seq<string>)
    ensures forall x | x in deps ::
              exists i | 0 <= i < |entries| :: RunsOn(d, entries[i].draft) && NameOf(base, entries[i].draft) == x
  {
    if entries == [] then []
    else
      var last := entries[|entries| - 1].draft;
      if RunsOn(d, last) then [NameOf(base, last)] else DependenciesOf(base, entries[..|entries| - 1], d)
  }

  function Propose(h: HostDrafts): (f: Finding)
    ensures |f.proposals| == |h.entries|
  {
    Finding(h.address, seq(|h.entries|, i requires 0 <= i < |h.entries| =>
      var e := h.entries[i];
      Keyed(e.settings.(name := NameOf(h.base, e.draft), dependsOn := DependenciesOf(h.base, h.entries, e.draft)),
        e.key)))
  }

  function Findings(hosts: seq<HostDrafts>): (fs: seq<Finding>)
    ensures |fs| == |hosts| && forall i | 0 <= i < |hosts| :: fs[i] == Propose(hosts[i])
  {
    seq(|hosts|, i requires 0 <= i < |hosts| => Propose(hosts[i]))
  }

  /** Some entry before the n-th is one that d runs on; i is the last of them. */
  predicate LastHost(entries: seq<Entry>, d: Draft, i: nat) {
    && i < |entries| && RunsOn(d, entries[i].draft)
    && forall j | i < j < |entries| :: !RunsOn(d, entries[j].draft)
  }

  lemma {:induction false} DependenciesAre(base: string, entries: seq<Entry>, d: Draft, i: nat)
    ensures LastHost(entries, d, i) ==> DependenciesOf(base, entries, d) == [NameOf(base, entries[i].draft)]
    ensures (forall j | 0 <= j < |entries| :: !RunsOn(d, entries[j].draft)) ==> DependenciesOf(base, entries, d) == []
  {
    if entries != [] {
      DependenciesAre(base, entries[..|entries| - 1], d, i);
    }
  }

  /** A Proxmox guest depends on the monitor of its node, if that is proposed. */
  lemma GuestDependsOnNode(h: HostDrafts, i: nat, k: nat, node: string)
    requires i < |h.entries| && h.entries[i].draft.Guest? && h.entries[i].draft.node == node
    ensures k < |h.entries| && h.entries[k].draft == Node(node) ==>
      Propose(h).proposals[i].monitor.dependsOn == [h.base + " node " + node]
    ensures (forall j | 0 <= j < |h.entries| :: h.entries[j].draft != Node(node)) ==>
      Propose(h).proposals[i].monitor.dependsOn == []
  {
    var d := h.entries[i].draft;
    if k < |h.entries| && h.entries[k].draft == Node(node) {
      var last := LastHostFrom(h.entries, d, k);
      DependenciesAre(h.base, h.entries, d, last);
    } else {
      DependenciesAre(h.base, h.entries, d, 0);
    }
  }

  lemma {:induction false} LastHostFrom(entries: seq<Entry>, d: Draft, k: nat) returns (i: nat)
    requires k < |entries| && RunsOn(d, entries[k].draft)
    ensures LastHost(entries, d, i)
    decreases |entries| - k
  {
    if j :| k < j < |entries| && RunsOn(d, entries[j].draft) {
      i := LastHostFrom(entries, d, j);
    } else {
      i := k;
    }
  }

  /** A vSphere machine depends on the monitor of the host it runs on, if that is known and proposed. */
  lemma MachineDependsOnHost(h: HostDrafts, i: nat, k: nat, host: string)
    requires i < |h.entries| && h.entries[i].draft.Machine? && h.entries[i].draft.runsOn == Some(host)
    ensures k < |h.entries| && h.entries[k].draft.Esxi? && h.entries[k].draft.host == host ==>
      exists j | 0 <= j < |h.entries| ::
        && h.entries[j].draft.Esxi? && h.entries[j].draft.host == host
        && Propose(h).proposals[i].monitor.dependsOn
           == [h.base + if h.entries[j].draft.single then " ESXi" else " ESXi " + host]
    ensures (forall j | 0 <= j < |h.entries| :: !(h.entries[j].draft.Esxi? && h.entries[j].draft.host == host)) ==>
      Propose(h).proposals[i].monitor.dependsOn == []
  {
    var d := h.entries[i].draft;
    if k < |h.entries| && h.entries[k].draft.Esxi? && h.entries[k].draft.host == host {
      var last := LastHostFrom(h.entries, d, k);
      DependenciesAre(h.base, h.entries, d, last);
      assert h.base + " ESXi " + host == h.base + (" ESXi " + host);
    } else {
      DependenciesAre(h.base, h.entries, d, 0);
    }
  }

  /** Nothing else depends on anything. */
  lemma OthersDependOnNothing(h: HostDrafts, i: nat)
    requires i < |h.entries| && !h.entries[i].draft.Guest?
    requires !(h.entries[i].draft.Machine? && h.entries[i].draft.runsOn.Some?)
    ensures Propose(h).proposals[i].monitor.dependsOn == []
  {
    DependenciesAre(h.base, h.entries, h.entries[i].draft, 0);
  }

  lemma {:induction false} OnlyGuestsDepend(base: string, entries: seq<Entry>, d: Draft)
    requires DependenciesOf(base, entries, d) != []
    ensures d.Guest? || d.Machine?
  {
    if !RunsOn(d, entries[|entries| - 1].draft) {
      OnlyGuestsDepend(base, entries[..|entries| - 1], d);
    }
  }

  /** No guest is named like what guests run on. */
  lemma GuestNamesDiffer(base: string, guest: Draft, p: Draft)
    requires (guest.Guest? || guest.Machine?) && (p.Node? || p.Esxi?)
    ensures NameOf(base, guest) != NameOf(base, p)
  {
    var i := |base| + 1;
    assert i < |NameOf(base, guest)| && NameOf(base, guest)[i] in {'V', 'C'};
    assert i < |NameOf(base, p)| && NameOf(base, p)[i] in {'n', 'E'};
  }

  /** The entry behind a dependency is one that guests run on. */
  lemma DependencyIsHost(h: HostDrafts, i: nat, d: string) returns (k: nat)
    requires i < |h.entries| && d in Propose(h).proposals[i].monitor.dependsOn
    ensures k < |h.entries| && RunsOn(h.entries[i].draft, h.entries[k].draft)
            && Propose(h).proposals[k].monitor.name == d
  {
    k :| 0 <= k < |h.entries| && RunsOn(h.entries[i].draft, h.entries[k].draft)
         && NameOf(h.base, h.entries[k].draft) == d;
  }

  lemma DependencyIsFree(h: HostDrafts, i: nat, j: nat, d: string)
    requires i < |h.entries| && j < |h.entries| && d in Propose(h).proposals[i].monitor.dependsOn
    requires Propose(h).proposals[j].monitor.name == d
    ensures Propose(h).proposals[j].monitor.dependsOn == []
  {
    var k := DependencyIsHost(h, i, d);
    if Propose(h).proposals[j].monitor.dependsOn != [] {
      OnlyGuestsDepend(h.base, h.entries, h.entries[j].draft);
      GuestNamesDiffer(h.base, h.entries[j].draft, h.entries[k].draft);
    }
  }

  /** The lists of discovery are layered: what is depended upon depends on nothing. */
  lemma ProposeIsLayered(h: HostDrafts)
    ensures Layered(Propose(h))
  {
    var f := Propose(h);
    forall i, d | 0 <= i < |f.proposals| && d in f.proposals[i].monitor.dependsOn
      ensures Used(f, |f.proposals|, d)
    {
      var k := DependencyIsHost(h, i, d);
    }
    forall i, j, d | 0 <= i < |f.proposals| && 0 <= j < |f.proposals| && d in f.proposals[i].monitor.dependsOn
      ensures f.proposals[j].monitor.name == d ==> f.proposals[j].monitor.dependsOn == []
    {
      if f.proposals[j].monitor.name == d {
        DependencyIsFree(h, i, j, d);
      }
    }
  }
}
