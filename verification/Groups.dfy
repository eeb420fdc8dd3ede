/** Group state: the worst counted state of its members (watchpost/rollup.py). */
module Groups {
  import opened MonitorStates
  import opened Networks
  import opened Configs

  /** The five effective states. */
  datatype Level = IsUp | IsPending | IsWarning | IsUnreachable | IsDown

  function Severity(l: Level): nat {
    match l
    case IsDown => 4
    case IsUnreachable => 3
    case IsWarning => 2
    case IsPending => 1
    case IsUp => 0
  }

  function LevelOf(e: Effective): Level {
    match e
    case Unreachable(_) => IsUnreachable
    case Own(Down) => IsDown
    case Own(Warning) => IsWarning
    case Own(Pending) => IsPending
    case Own(Up) => IsUp
  }

  /** A member of a group with its effective state. */
  datatype Member = Member(name: string, group: string, critical: bool, effective: Level) {
    /** A non-critical member degrades its group to a warning at most. */
    function Counted(): Level {
      if !critical && (effective == IsDown || effective == IsUnreachable) then IsWarning else effective
    }
  }

  datatype GroupState = GroupState(state: Level, counts: map<Level, nat>, worst: seq<string>)

  // ------------------------------------------------- what a group state means

  function Worse(a: Level, b: Level): Level {
    if Severity(b) > Severity(a) then b else a
  }

  /** The worst counted level of the members of `g`. */
  function WorstLevel(ms: seq<Member>, g: string): Level {
    if ms == [] then IsUp
    else
      var m := ms[|ms| - 1];
      var l := WorstLevel(ms[..|ms| - 1], g);
      if m.group == g then Worse(l, m.Counted()) else l
  }

  /** The names of the members of `g` counted at `l`, in configuration order. */
  function NamesAt(ms: seq<Member>, g: string, l: Level): seq<string> {
    if ms == [] then []
    else
      var m := ms[|ms| - 1];
      NamesAt(ms[..|ms| - 1], g, l) + if m.group == g && m.Counted() == l then [m.name] else []
  }

  function CountAt(ms: seq<Member>, g: string, l: Level): nat {
    if ms == [] then 0
    else
      var m := ms[|ms| - 1];
      CountAt(ms[..|ms| - 1], g, l) + if m.group == g && m.effective == l then 1 else 0
  }

  function Size(ms: seq<Member>, g: string): nat {
    if ms == [] then 0
    else Size(ms[..|ms| - 1], g) + if ms[|ms| - 1].group == g then 1 else 0
  }

  ghost predicate Summarises(r: GroupState, ms: seq<Member>, g: string) {
    && r.state == WorstLevel(ms, g)
    && r.worst == (if r.state == IsUp then [] else NamesAt(ms, g, r.state))
    && (forall l: Level :: (if l in r.counts then r.counts[l] else 0) == CountAt(ms, g, l))
  }

  lemma {:induction false} NothingAbove(ms: seq<Member>, g: string, l: Level)
    requires Severity(l) > Severity(WorstLevel(ms, g))
    ensures NamesAt(ms, g, l) == []
  {
    if ms != [] {
      NothingAbove(ms[..|ms| - 1], g, l);
    }
  }

  const EMPTY := GroupState(IsUp, map[], [])

  lemma {:induction false} NoMembers(ms: seq<Member>, g: string)
    requires forall m | m in ms :: m.group != g
    ensures Summarises(EMPTY, ms, g)
  {
    if ms != [] {
      assert ms[|ms| - 1] in ms;
      NoMembers(ms[..|ms| - 1], g);
    }
  }

  lemma OthersKeep(ms: seq<Member>, m: Member, r: GroupState, g: string)
    requires g != m.group && Summarises(r, ms, g)
    ensures Summarises(r, ms + [m], g)
  {
    assert (ms + [m])[..|ms|] == ms;
    assert NamesAt(ms, g, r.state) + [] == NamesAt(ms, g, r.state);
  }

  lemma OneMore(ms: seq<Member>, m: Member, was: GroupState, r: GroupState)
    requires Summarises(was, ms, m.group)
    requires r.counts == was.counts[m.effective := 1 + if m.effective in was.counts then was.counts[m.effective] else 0]
    requires Severity(m.Counted()) > Severity(was.state) ==> r.state == m.Counted() && r.worst == [m.name]
    requires Severity(m.Counted()) == Severity(was.state) ==>
               r.state == was.state && r.worst == was.worst + if m.Counted() == IsUp then [] else [m.name]
    requires Severity(m.Counted()) < Severity(was.state) ==> r.state == was.state && r.worst == was.worst
    ensures Summarises(r, ms + [m], m.group)
  {
    assert (ms + [m])[..|ms|] == ms;
    if Severity(m.Counted()) > Severity(was.state) {
      NothingAbove(ms, m.group, m.Counted());
    }
  }

  /** The dictionary update for one member. */
  method AddMember(was: GroupState, m: Member, ghost ms: seq<Member>) returns (g: GroupState)
    requires Summarises(was, ms, m.group)
    ensures Summarises(g, ms + [m], m.group)
  {
    var counted := m.Counted();
    var seen := if m.effective in was.counts then was.counts[m.effective] else 0;
    g := was.(counts := was.counts[m.effective := seen + 1]);
    if Severity(counted) > Severity(g.state) {
      g := g.(state := counted, worst := [m.name]);
    } else if Severity(counted) == Severity(g.state) && counted != IsUp {
      g := g.(worst := g.worst + [m.name]);
    }
    OneMore(ms, m, was, g);
  }

  predicate AllEnabled(net: Network, monitors: seq<Monitor>) {
    forall m | m in monitors :: m.Slug() in net.order
  }

  function MemberOf(net: Network, st: States, m: Monitor): Member
    requires net.Valid() && Covers(net, st) && m.Slug() in net.order
  {
    Member(m.name, m.group, m.critical, LevelOf(EffectiveState(net, st, m.Slug())))
  }

  function Members(net: Network, st: States, monitors: seq<Monitor>): (r: seq<Member>)
    requires net.Valid() && Covers(net, st) && AllEnabled(net, monitors)
    ensures |r| == |monitors| && forall i | 0 <= i < |r| :: r[i] == MemberOf(net, st, monitors[i])
  {
    if monitors == [] then []
    else Members(net, st, monitors[..|monitors| - 1]) + [MemberOf(net, st, monitors[|monitors| - 1])]
  }

  function GroupsOf(ms: seq<Member>): set<string> {
    set m | m in ms :: m.group
  }

  /** One summary for every group that has a member. */
  ghost predicate AllSummarised(groups: map<string, GroupState>, ms: seq<Member>) {
    groups.Keys == GroupsOf(ms) && forall g | g in groups :: Summarises(groups[g], ms, g)
  }

  lemma PutGroup(groups: map<string, GroupState>, ms: seq<Member>, m: Member, r: GroupState)
    requires AllSummarised(groups, ms) && Summarises(r, ms + [m], m.group)
    ensures AllSummarised(groups[m.group := r], ms + [m])
  {
    forall g
      ensures g in GroupsOf(ms + [m]) <==> g in GroupsOf(ms) || g == m.group
    {
      assert (ms + [m])[|ms|] == m;
      if x :| x in ms && x.group == g {
        assert x in ms + [m];
      }
    }
    forall g | g in groups && g != m.group
      ensures Summarises(groups[g], ms + [m], g)
    {
      OthersKeep(ms, m, groups[g], g);
    }
  }

  lemma MembersStep(net: Network, st: States, monitors: seq<Monitor>, i: nat)
    requires net.Valid() && Covers(net, st) && AllEnabled(net, monitors) && i < |monitors|
    ensures AllEnabled(net, monitors[..i]) && AllEnabled(net, monitors[..i + 1])
    ensures monitors[i].Slug() in net.order
    ensures Members(net, st, monitors[..i + 1]) == Members(net, st, monitors[..i]) + [MemberOf(net, st, monitors[i])]
  {
    assert monitors[..i + 1][..i] == monitors[..i];
  }

  lemma Unmentioned(groups: map<string, GroupState>, ms: seq<Member>, g: string)
    requires AllSummarised(groups, ms)
    ensures Summarises(if g in groups then groups[g] else EMPTY, ms, g)
  {
    if g !in groups {
      NoMembers(ms, g);
    }
  }

  method GroupStates(net: Network, st: States, monitors: seq<Monitor>) returns (groups: map<string, GroupState>)
    requires net.Valid() && Covers(net, st) && AllEnabled(net, monitors)
    ensures AllSummarised(groups, Members(net, st, monitors))
  {
    groups := map[];
    ghost var ms: seq<Member> := [];
    for i := 0 to |monitors|
      invariant AllEnabled(net, monitors[..i]) && ms == Members(net, st, monitors[..i])
      invariant AllSummarised(groups, ms)
    {
      MembersStep(net, st, monitors, i);
      var m := MemberOf(net, st, monitors[i]);
      Unmentioned(groups, ms, m.group);
      var g := AddMember(if m.group in groups then groups[m.group] else EMPTY, m, ms);
      PutGroup(groups, ms, m, g);
      groups := groups[m.group := g];
      ms := ms + [m];
    }
    assert monitors[..|monitors|] == monitors;
  }

  // ----------------------------------------------------------------- properties

  /** The worst level is an upper bound and is attained (or nobody is worse than up). */
  lemma {:induction false} WorstIsWorst(ms: seq<Member>, g: string)
    ensures forall m | m in ms && m.group == g :: Severity(m.Counted()) <= Severity(WorstLevel(ms, g))
    ensures WorstLevel(ms, g) != IsUp ==> exists m | m in ms :: m.group == g && m.Counted() == WorstLevel(ms, g)
  {
    if ms != [] {
      var k, m := ms[..|ms| - 1], ms[|ms| - 1];
      WorstIsWorst(k, g);
      assert ms == k + [m];
      if WorstLevel(k, g) != IsUp {
        var c :| c in k && c.group == g && c.Counted() == WorstLevel(k, g);
        assert c in ms;
      }
      assert m in ms;
    }
  }

  /** A group is down exactly when a critical member is effectively down. */
  lemma DownByCriticalMember(ms: seq<Member>, g: string)
    ensures WorstLevel(ms, g) == IsDown <==>
            exists m | m in ms :: m.group == g && m.critical && m.effective == IsDown
  {
    WorstIsWorst(ms, g);
  }

  /** The counts add up to the membership. */
  lemma {:induction false} CountsSumToSize(ms: seq<Member>, g: string)
    ensures CountAt(ms, g, IsUp) + CountAt(ms, g, IsPending) + CountAt(ms, g, IsWarning)
            + CountAt(ms, g, IsUnreachable) + CountAt(ms, g, IsDown) == Size(ms, g)
  {
    if ms != [] {
      CountsSumToSize(ms[..|ms| - 1], g);
    }
  }

  // ------------------------------------------- what a group says of its monitors

  /** What its own state and its dependencies make of a monitor. */
  ghost predicate IsAt(net: Network, st: States, m: Monitor, l: Level)
    requires net.Valid() && Covers(net, st) && m.Slug() in net.order
  {
    var own, blocked := st[m.Slug()].state, Blocked(net, st, m.Slug());
    match l
    case IsDown => own == Down && !blocked
    case IsUnreachable => (own == Down || own == Warning) && blocked
    case IsWarning => own == Warning && !blocked
    case IsPending => own == Pending
    case IsUp => own == Up
  }

  /** Each monitor is at one level, the effective state of the member. */
  lemma MemberLevels(net: Network, st: States, m: Monitor, l: Level)
    requires net.Valid() && Covers(net, st) && m.Slug() in net.order
    ensures MemberOf(net, st, m).effective == l <==> IsAt(net, st, m, l)
  {
  }

  /** A critical member of g is down on its own. */
  ghost predicate HasDown(net: Network, st: States, monitors: seq<Monitor>, g: string)
    requires net.Valid() && Covers(net, st) && AllEnabled(net, monitors)
  {
    exists m | m in monitors :: m.group == g && m.critical && st[m.Slug()].state == Down && !Blocked(net, st, m.Slug())
  }

  /** A critical member of g is down or warning behind a root cause. */
  ghost predicate HasUnreachable(net: Network, st: States, monitors: seq<Monitor>, g: string)
    requires net.Valid() && Covers(net, st) && AllEnabled(net, monitors)
  {
    exists m | m in monitors ::
      m.group == g && m.critical && st[m.Slug()].state in {Down, Warning} && Blocked(net, st, m.Slug())
  }

  /** A member of g, critical or not, is in one of the states. */
  ghost predicate HasState(net: Network, st: States, monitors: seq<Monitor>, g: string, states: set<State>)
    requires Covers(net, st) && AllEnabled(net, monitors)
  {
    exists m | m in monitors :: m.group == g && st[m.Slug()].state in states
  }

  /** The level of a group in terms of its monitors: the first of these that applies. */
  ghost function GroupLevel(net: Network, st: States, monitors: seq<Monitor>, g: string): Level
    requires net.Valid() && Covers(net, st) && AllEnabled(net, monitors)
  {
    if HasDown(net, st, monitors, g) then IsDown
    else if HasUnreachable(net, st, monitors, g) then IsUnreachable
    else if HasState(net, st, monitors, g, {Down, Warning}) then IsWarning
    else if HasState(net, st, monitors, g, {Pending}) then IsPending
    else IsUp
  }

  lemma OneMember(monitors: seq<Monitor>, m: Monitor)
    ensures forall x :: x in monitors + [m] <==> x in monitors || x == m
  {
  }

  lemma {:induction false} GroupLevelStep(net: Network, st: States, monitors: seq<Monitor>, m: Monitor, g: string)
    requires net.Valid() && Covers(net, st) && AllEnabled(net, monitors + [m])
    ensures AllEnabled(net, monitors) && m.Slug() in net.order
    ensures GroupLevel(net, st, monitors + [m], g)
         == if m.group == g then Worse(GroupLevel(net, st, monitors, g), MemberOf(net, st, m).Counted())
            else GroupLevel(net, st, monitors, g)
  {
    OneMember(monitors, m);
    MemberLevels(net, st, m, MemberOf(net, st, m).effective);
  }

  /** The worst counted level is that of the monitors themselves. */
  lemma {:induction false} GroupStateExact(net: Network, st: States, monitors: seq<Monitor>, g: string)
    requires net.Valid() && Covers(net, st) && AllEnabled(net, monitors)
    ensures WorstLevel(Members(net, st, monitors), g) == GroupLevel(net, st, monitors, g)
  {
    if monitors != [] {
      var k, m := monitors[..|monitors| - 1], monitors[|monitors| - 1];
      assert monitors == k + [m];
      GroupLevelStep(net, st, k, m, g);
      GroupStateExact(net, st, k, g);
      assert Members(net, st, monitors)[..|k|] == Members(net, st, k);
    }
  }

  function PlacesAt(ms: seq<Member>, g: string, l: Level): set<nat> {
    set i: nat | i < |ms| && ms[i].group == g && ms[i].effective == l
  }

  lemma PlacesGrow(ms: seq<Member>, g: string, l: Level)
    requires ms != []
    ensures var n, before := |ms| - 1, PlacesAt(ms[..|ms| - 1], g, l);
      n !in before && PlacesAt(ms, g, l) == if ms[n].group == g && ms[n].effective == l then before + {n} else before
  {
    var n, before := |ms| - 1, PlacesAt(ms[..|ms| - 1], g, l);
    forall i: nat
      ensures i in PlacesAt(ms, g, l) <==> i in before || (i == n && ms[n].group == g && ms[n].effective == l)
    {
    }
  }

  lemma {:induction false} CountIsSize(ms: seq<Member>, g: string, l: Level)
    ensures CountAt(ms, g, l) == |PlacesAt(ms, g, l)|
  {
    if ms != [] {
      var n := |ms| - 1;
      CountIsSize(ms[..n], g, l);
      PlacesGrow(ms, g, l);
    }
  }

  /** The counts are those of the monitors of the group at each level. */
  lemma CountsAreExact(net: Network, st: States, monitors: seq<Monitor>, g: string, l: Level)
    requires net.Valid() && Covers(net, st) && AllEnabled(net, monitors)
    ensures CountAt(Members(net, st, monitors), g, l)
         == |set i: nat | i < |monitors| && monitors[i].group == g && IsAt(net, st, monitors[i], l)|
  {
    var ms := Members(net, st, monitors);
    CountIsSize(ms, g, l);
    forall i: nat | i < |monitors|
      ensures ms[i].group == monitors[i].group && (ms[i].effective == l <==> IsAt(net, st, monitors[i], l))
    {
      MemberLevels(net, st, monitors[i], l);
    }
    assert PlacesAt(ms, g, l) == set i: nat | i < |monitors| && monitors[i].group == g && IsAt(net, st, monitors[i], l);
  }

  /** m counts at level l: a monitor that is not critical never counts as worse than a warning. */
  ghost predicate CountsAs(net: Network, st: States, m: Monitor, l: Level)
    requires net.Valid() && Covers(net, st) && m.Slug() in net.order
  {
    if l == IsDown || l == IsUnreachable then m.critical && IsAt(net, st, m, l)
    else IsAt(net, st, m, l)
         || (l == IsWarning && !m.critical && (IsAt(net, st, m, IsDown) || IsAt(net, st, m, IsUnreachable)))
  }

  lemma CountedExact(net: Network, st: States, m: Monitor, l: Level)
    requires net.Valid() && Covers(net, st) && m.Slug() in net.order
    ensures MemberOf(net, st, m).Counted() == l <==> CountsAs(net, st, m, l)
  {
    MemberLevels(net, st, m, MemberOf(net, st, m).effective);
  }

  /** The names of the monitors of the group that do, in configuration order. */
  ghost function Culprits(net: Network, st: States, monitors: seq<Monitor>, g: string, l: Level): seq<string>
    requires net.Valid() && Covers(net, st) && AllEnabled(net, monitors)
  {
    if monitors == [] then []
    else
      var m, later := monitors[0], Culprits(net, st, monitors[1..], g, l);
      if m.group == g && CountsAs(net, st, m, l) then [m.name] + later else later
  }

  lemma {:induction false} CulpritsAppend(net: Network, st: States, k: seq<Monitor>, m: Monitor, g: string, l: Level)
    requires net.Valid() && Covers(net, st) && AllEnabled(net, k + [m])
    ensures AllEnabled(net, k) && m.Slug() in net.order
    ensures Culprits(net, st, k + [m], g, l)
         == Culprits(net, st, k, g, l) + if m.group == g && CountsAs(net, st, m, l) then [m.name] else []
  {
    var all := k + [m];
    assert m == all[|k|];
    assert forall x :: x in k ==> x in all;
    if k != [] {
      CulpritsAppend(net, st, k[1..], m, g, l);
      assert all[0] == k[0] && all[1..] == k[1..] + [m];
    }
  }

  lemma {:induction false} WorstAreCulprits(net: Network, st: States, monitors: seq<Monitor>, g: string, l: Level)
    requires net.Valid() && Covers(net, st) && AllEnabled(net, monitors)
    ensures NamesAt(Members(net, st, monitors), g, l) == Culprits(net, st, monitors, g, l)
  {
    if monitors != [] {
      var n := |monitors| - 1;
      var k, m := monitors[..n], monitors[n];
      assert monitors == k + [m] && monitors[..n + 1] == monitors;
      WorstAreCulprits(net, st, k, g, l);
      CulpritsAppend(net, st, k, m, g, l);
      CountedExact(net, st, m, l);
      assert Members(net, st, monitors) == Members(net, st, k) + [MemberOf(net, st, m)];
      NamesAppend(Members(net, st, k), MemberOf(net, st, m), g, l);
    }
  }

  lemma NamesAppend(ms: seq<Member>, m: Member, g: string, l: Level)
    ensures NamesAt(ms + [m], g, l) == NamesAt(ms, g, l) + if m.group == g && m.Counted() == l then [m.name] else []
  {
    assert (ms + [m])[..|ms|] == ms;
  }
}
