// Whether a model or a whole group can serve now, and if not, when (internal/engine/availability.go).
// The clock is fixed during one call.
module Readiness {
  import opened Config
  import opened Cooldown
  import opened GroupGraph

  // (ready, earliest recovery); a recovery of 0 means none is known.
  function Availability(cfg: Config, t: Table, now: Instant, model: Name, path: seq<Name>): (bool, Instant)
    requires |path| <= MAX_GROUP_DEPTH
    decreases MAX_GROUP_DEPTH - |path|, 1, 0
  {
    match FindVirtual(cfg, model)
    case None => (CoolingUntil(t, model, now) == 0, CoolingUntil(t, model, now))
    case Some(g) =>
      if |path| >= MAX_GROUP_DEPTH || model in path then (false, 0)
      else MembersFrom(cfg, t, now, g, 0, path + [model], 0)
  }

  // The member loop from position i with the soonest recovery seen so far.
  function MembersFrom(cfg: Config, t: Table, now: Instant, g: Group, i: nat, path: seq<Name>, soonest: Instant): (bool, Instant)
    requires i <= |g.members| && |path| <= MAX_GROUP_DEPTH
    decreases MAX_GROUP_DEPTH - |path|, 2, |g.members| - i
  {
    if i == |g.members| then (false, soonest)
    else if !g.Eligible(g.members[i]) then MembersFrom(cfg, t, now, g, i + 1, path, soonest)
    else
      var (ready, until) := Availability(cfg, t, now, g.members[i].model, path);
      if ready then (true, 0)
      else MembersFrom(cfg, t, now, g, i + 1, path, Sooner(soonest, until))
  }

  function Sooner(soonest: Instant, until: Instant): Instant {
    if until != 0 && (soonest == 0 || until < soonest) then until else soonest
  }

  method CheckAvailability(cfg: Config, store: Store, now: Instant, model: Name, path: seq<Name>)
    returns (ready: bool, until: Instant)
    requires store.Valid() && |path| <= MAX_GROUP_DEPTH
    ensures (ready, until) == Availability(cfg, store.View(), now, model, path)
    decreases MAX_GROUP_DEPTH - |path|
  {
    var found := FindVirtual(cfg, model);
    if found.None? {
      until := store.Until(model, now);
      return until == 0, until;
    }
    if |path| >= MAX_GROUP_DEPTH { return false, 0; }
    for k := 0 to |path|
      invariant model !in path[..k]
    {
      if path[k] == model { return false, 0; }
    }
    var g, path' := found.value, path + [model];
    var soonest := 0;
    for i := 0 to |g.members|
      invariant MembersFrom(cfg, store.View(), now, g, i, path', soonest)
                == MembersFrom(cfg, store.View(), now, g, 0, path', 0)
    {
      if g.strategy == Manual && g.members[i].model != g.manualMember { continue; }
      ready, until := CheckAvailability(cfg, store, now, g.members[i].model, path');
      if ready { return true, 0; }
      if until != 0 && (soonest == 0 || until < soonest) { soonest := until; }
    }
    return false, soonest;
  }

  // ---- what availability means ----

  ghost predicate EligibleStep(cfg: Config, a: Name, b: Name) {
    exists i :: Chooses(cfg, a, i, b)
  }

  // Group a may use its i-th member, which is b: any member, or the selected one of a manual group.
  predicate Chooses(cfg: Config, a: Name, i: int, b: Name) {
    var g := FindVirtual(cfg, a);
    && g.Some? && 0 <= i < |g.value.members| && g.value.members[i].model == b
    && (g.value.strategy == Manual ==> b == g.value.manualMember)
  }

  // A way down from a model to a leaf, through members each group may use.
  ghost predicate LeafWalk(cfg: Config, model: Name, w: seq<Name>) {
    && w != [] && w[0] == model
    && (forall k | 0 < k < |w| :: EligibleStep(cfg, w[k - 1], w[k]))
    && !IsGroup(cfg, w[|w| - 1])
  }

  // Below this path it passes at most eight groups in all, and none of them twice.
  predicate Straight(path: seq<Name>, w: seq<Name>) {
    && |path| + |w| <= 9
    && (forall k | 0 <= k < |w| - 1 :: w[k] !in path)
    && forall j, k | 0 <= j < k < |w| - 1 :: w[j] != w[k]
  }

  ghost function LeafUntil(t: Table, now: Instant, w: seq<Name>): Instant
    requires w != []
  {
    CoolingUntil(t, w[|w| - 1], now)
  }

  // The answer for the leaves a set of walks leads to: ready if one is not cooling, else the minimum.
  ghost predicate IsBest(cfg: Config, t: Table, now: Instant, walks: iset<seq<Name>>, ready: bool, until: Instant)
    requires forall w | w in walks :: w != []
  {
    && (ready <==> exists w | w in walks :: LeafUntil(t, now, w) == 0)
    && (ready ==> until == 0)
    && (!ready ==> (until == 0 <==> forall w :: w !in walks))
    && (!ready ==> forall w | w in walks :: until <= LeafUntil(t, now, w))
    && (!ready && until != 0 ==> exists w | w in walks :: LeafUntil(t, now, w) == until)
  }

  ghost function WalksFrom(cfg: Config, path: seq<Name>, model: Name): iset<seq<Name>> {
    iset w | LeafWalk(cfg, model, w) && Straight(path, w)
  }

  // The walks that go on through one of g's members from position i on.
  ghost function WalksThrough(cfg: Config, path: seq<Name>, g: Group, i: nat): iset<seq<Name>>
    requires i <= |g.members|
  {
    iset w | Through(cfg, path, g, i, w)
  }

  ghost predicate Through(cfg: Config, path: seq<Name>, g: Group, i: nat, w: seq<Name>) {
    exists j | i <= j < |g.members| :: g.Eligible(g.members[j]) && LeafWalk(cfg, g.members[j].model, w) && Straight(path, w)
  }

  lemma StraightBelow(path: seq<Name>, model: Name, w: seq<Name>)
    requires |w| > 1 && w[0] == model
    ensures Straight(path, w) <==> model !in path && Straight(path + [model], w[1..])
  {
    var v := w[1..];
    if model !in path && Straight(path + [model], v) {
      forall k | 0 <= k < |w| - 1 ensures w[k] !in path { if k > 0 { assert w[k] == v[k - 1]; } }
      forall j, k | 0 <= j < k < |w| - 1 ensures w[j] != w[k] {
        assert w[k] == v[k - 1];
        if j > 0 { assert w[j] == v[j - 1]; }
      }
    }
    if Straight(path, w) {
      assert w[0] !in path;
      forall k | 0 <= k < |v| - 1 ensures v[k] !in path + [model] {
        var x := k + 1;
        assert v[k] == w[x] && w[0] != w[x];
      }
    }
  }

  lemma WalkBelow(cfg: Config, model: Name, g: Group, w: seq<Name>)
    requires FindVirtual(cfg, model) == Some(g) && |w| > 1 && w[0] == model
    ensures LeafWalk(cfg, model, w) <==> EligibleStep(cfg, model, w[1]) && LeafWalk(cfg, w[1], w[1..])
  {
    hide EligibleStep;
    var v := w[1..];
    if LeafWalk(cfg, model, w) {
      assert EligibleStep(cfg, w[1 - 1], w[1]);
      forall k | 0 < k < |v| ensures EligibleStep(cfg, v[k - 1], v[k]) {
        var x := k + 1;
        assert EligibleStep(cfg, w[x - 1], w[x]);
      }
    }
    if EligibleStep(cfg, model, w[1]) && LeafWalk(cfg, w[1], v) {
      forall k | 0 < k < |w| ensures EligibleStep(cfg, w[k - 1], w[k]) {
        if k > 1 {
          var x := k - 1;
          assert EligibleStep(cfg, v[x - 1], v[x]);
        }
      }
    }
  }

  // The walks from a group are its name in front of the walks through its members.
  lemma GroupWalks(cfg: Config, path: seq<Name>, model: Name, g: Group, w: seq<Name>)
    requires FindVirtual(cfg, model) == Some(g)
    ensures w in WalksFrom(cfg, path, model)
            <==> |w| > 1 && w[0] == model && model !in path && w[1..] in WalksThrough(cfg, path + [model], g, 0)
  {
    hide LeafWalk, Straight;
    if |w| > 1 && w[0] == model {
      StraightBelow(path, model, w);
      WalkBelow(cfg, model, g, w);
      if w in WalksFrom(cfg, path, model) {
        var j :| Chooses(cfg, model, j, w[1]);
        assert g.Eligible(g.members[j]) && LeafWalk(cfg, g.members[j].model, w[1..]);
      }
      if model !in path && w[1..] in WalksThrough(cfg, path + [model], g, 0) {
        var j :| 0 <= j < |g.members| && g.Eligible(g.members[j]) && LeafWalk(cfg, g.members[j].model, w[1..]);
        WalkStartsAt(cfg, g.members[j].model, w[1..]);
        assert Chooses(cfg, model, j, w[1]);
      }
    } else if LeafWalk(cfg, model, w) {
      WalkStartsAt(cfg, model, w);
      WalkEndsAtLeaf(cfg, model, w);
    }
  }

  lemma WalkStartsAt(cfg: Config, model: Name, w: seq<Name>)
    requires LeafWalk(cfg, model, w)
    ensures w != [] && w[0] == model
  {
  }

  lemma WalkEndsAtLeaf(cfg: Config, model: Name, w: seq<Name>)
    requires LeafWalk(cfg, model, w)
    ensures !IsGroup(cfg, w[|w| - 1])
  {
  }

  lemma BestOfGroup(cfg: Config, t: Table, now: Instant, path: seq<Name>, model: Name, g: Group, ready: bool, until: Instant)
    requires FindVirtual(cfg, model) == Some(g) && model !in path
    requires IsBest(cfg, t, now, WalksThrough(cfg, path + [model], g, 0), ready, until)
    ensures IsBest(cfg, t, now, WalksFrom(cfg, path, model), ready, until)
  {
    var inner := path + [model];
    forall w | w in WalksFrom(cfg, path, model)
      ensures w[1..] in WalksThrough(cfg, inner, g, 0) && LeafUntil(t, now, w) == LeafUntil(t, now, w[1..])
    {
      GroupWalks(cfg, path, model, g, w);
    }
    forall v | v in WalksThrough(cfg, inner, g, 0)
      ensures [model] + v in WalksFrom(cfg, path, model) && LeafUntil(t, now, [model] + v) == LeafUntil(t, now, v)
    {
      assert ([model] + v)[1..] == v;
      GroupWalks(cfg, path, model, g, [model] + v);
    }
  }

  // Where the search gives up, no straight walk goes on.
  lemma NothingBeyond(cfg: Config, t: Table, now: Instant, path: seq<Name>, model: Name)
    requires IsGroup(cfg, model) && (|path| >= 8 || model in path)
    ensures IsBest(cfg, t, now, WalksFrom(cfg, path, model), false, 0)
  {
    forall w ensures w !in WalksFrom(cfg, path, model) { NoWalkBeyond(cfg, path, model, w); }
  }

  lemma NoWalkBeyond(cfg: Config, path: seq<Name>, model: Name, w: seq<Name>)
    requires IsGroup(cfg, model) && (|path| >= 8 || model in path)
    ensures !(LeafWalk(cfg, model, w) && Straight(path, w))
  {
    assert LeafWalk(cfg, model, w) ==> |w| > 1 && w[0] == model;
    assert Straight(path, w) && |w| > 1 ==> w[0] !in path;
  }

  lemma {:induction false} AvailabilityIsBest(cfg: Config, t: Table, now: Instant, model: Name, path: seq<Name>)
    requires |path| <= MAX_GROUP_DEPTH
    ensures var (ready, until) := Availability(cfg, t, now, model, path);
            IsBest(cfg, t, now, WalksFrom(cfg, path, model), ready, until)
    decreases MAX_GROUP_DEPTH - |path|, 1, 0
  {
    if IsGroup(cfg, model) {
      var g := FindVirtual(cfg, model).value;
      if |path| >= MAX_GROUP_DEPTH || model in path {
        NothingBeyond(cfg, t, now, path, model);
      } else {
        MembersAreBest(cfg, t, now, g, 0, path + [model]);
        var (ready, until) := Availability(cfg, t, now, model, path);
        BestOfGroup(cfg, t, now, path, model, g, ready, until);
      }
    } else {
      assert [model] in WalksFrom(cfg, path, model);
      forall w | w in WalksFrom(cfg, path, model) ensures w == [model] {
        assert |w| > 1 ==> EligibleStep(cfg, w[1 - 1], w[1]);
      }
    }
  }

  lemma {:induction false} MembersAreBest(cfg: Config, t: Table, now: Instant, g: Group, i: nat, path: seq<Name>)
    requires i <= |g.members| && |path| <= MAX_GROUP_DEPTH
    ensures var (ready, until) := MembersFrom(cfg, t, now, g, i, path, 0);
            IsBest(cfg, t, now, WalksThrough(cfg, path, g, i), ready, until)
    decreases MAX_GROUP_DEPTH - |path|, 2, |g.members| - i
  {
    hide IsBest, WalksFrom, WalksThrough, Sooner, FindVirtual;
    if i == |g.members| {
      NothingIsBest(cfg, t, now, path, g);
    } else {
      MembersAreBest(cfg, t, now, g, i + 1, path);
      if g.Eligible(g.members[i]) {
        AvailabilityIsBest(cfg, t, now, g.members[i].model, path);
        var (ready, until) := Availability(cfg, t, now, g.members[i].model, path);
        var (ready', until') := MembersFrom(cfg, t, now, g, i + 1, path, 0);
        SoonerThanNever(until);
        SoonestAccumulates(cfg, t, now, g, i + 1, path, until);
        BestOfTwo(cfg, t, now, path, g, i, ready, until, ready', until');
      } else {
        IneligibleAddsNoWalk(cfg, path, g, i);
      }
    }
  }

  lemma SoonerThanNever(until: Instant)
    ensures Sooner(0, until) == until
  {
  }

  lemma NothingIsBest(cfg: Config, t: Table, now: Instant, path: seq<Name>, g: Group)
    ensures IsBest(cfg, t, now, WalksThrough(cfg, path, g, |g.members|), false, 0)
  {
  }

  lemma IneligibleAddsNoWalk(cfg: Config, path: seq<Name>, g: Group, i: nat)
    requires i < |g.members| && !g.Eligible(g.members[i])
    ensures WalksThrough(cfg, path, g, i) == WalksThrough(cfg, path, g, i + 1)
  {
    hide LeafWalk, Straight;
  }

  // The loop variable only collects the minimum.
  lemma {:induction false} SoonestAccumulates(cfg: Config, t: Table, now: Instant, g: Group, i: nat, path: seq<Name>, soonest: Instant)
    requires i <= |g.members| && |path| <= MAX_GROUP_DEPTH
    ensures var (ready, until) := MembersFrom(cfg, t, now, g, i, path, 0);
            MembersFrom(cfg, t, now, g, i, path, soonest) == (ready, if ready then 0 else Sooner(soonest, until))
    decreases |g.members| - i
  {
    if i < |g.members| {
      if g.Eligible(g.members[i]) {
        var (ready, until) := Availability(cfg, t, now, g.members[i].model, path);
        SoonestAccumulates(cfg, t, now, g, i + 1, path, Sooner(soonest, until));
        SoonestAccumulates(cfg, t, now, g, i + 1, path, Sooner(0, until));
      } else {
        SoonestAccumulates(cfg, t, now, g, i + 1, path, soonest);
      }
    }
  }

  lemma BestOfTwo(cfg: Config, t: Table, now: Instant, path: seq<Name>, g: Group, i: nat,
                  ready: bool, until: Instant, ready': bool, until': Instant)
    requires i < |g.members| && g.Eligible(g.members[i])
    requires IsBest(cfg, t, now, WalksFrom(cfg, path, g.members[i].model), ready, until)
    requires IsBest(cfg, t, now, WalksThrough(cfg, path, g, i + 1), ready', until')
    ensures IsBest(cfg, t, now, WalksThrough(cfg, path, g, i), ready || ready', if ready || ready' then 0 else Sooner(until, until'))
  {
    hide Straight, LeafWalk;
    var both := WalksThrough(cfg, path, g, i);
    assert both == WalksFrom(cfg, path, g.members[i].model) + WalksThrough(cfg, path, g, i + 1);
  }

  // Whatever the graph of groups: one is ready exactly when some leaf is not cooling that can be reached through
  // eligible members and at most eight groups, none of them twice; otherwise the reported recovery is the
  // earliest among all those leaves (0 when there is none).
  lemma AvailabilityMeaning(cfg: Config, t: Table, now: Instant, model: Name)
    ensures var (ready, until) := Availability(cfg, t, now, model, []);
            && (ready <==> exists w :: LeafWalk(cfg, model, w) && Straight([], w) && LeafUntil(t, now, w) == 0)
            && (ready ==> until == 0)
            && (!ready ==> forall w | LeafWalk(cfg, model, w) && Straight([], w) :: until <= LeafUntil(t, now, w))
            && (!ready ==> (until == 0 <==> forall w :: !(LeafWalk(cfg, model, w) && Straight([], w))))
            && (!ready && until != 0 ==> exists w :: LeafWalk(cfg, model, w) && Straight([], w) && LeafUntil(t, now, w) == until)
  {
    hide LeafWalk, Straight;
    AvailabilityIsBest(cfg, t, now, model, []);
    assert forall w :: LeafWalk(cfg, model, w) && Straight([], w) <==> w in WalksFrom(cfg, [], model);
  }

  // ---- on a bounded graph ----

  // No branch below is cut off: path leads to model in the runtime graph.
  ghost predicate Unbroken(cfg: Config, path: seq<Name>, model: Name) {
    IsGroup(cfg, model) ==> Walk(FirstOfEachName(cfg.groups), path + [model])
  }

  lemma NotCutOff(cfg: Config, path: seq<Name>, model: Name)
    requires Bounded(FirstOfEachName(cfg.groups)) && IsGroup(cfg, model) && Unbroken(cfg, path, model)
    ensures |path| < MAX_GROUP_DEPTH && model !in path
  {
    var graph, w := FirstOfEachName(cfg.groups), path + [model];
    BoundedIsAcyclic(graph);
    if k :| 0 <= k < |path| && path[k] == model {
      var c := w[k..];
      forall i | 0 < i < |c| ensures Edge(graph, c[i - 1], c[i]) {
        var j := k + i;
        assert Edge(graph, w[j - 1], w[j]);
      }
      assert Cycle(graph, c);
    }
  }

  lemma StepIsEdge(cfg: Config, a: Name, b: Name)
    requires EligibleStep(cfg, a, b) && IsGroup(cfg, b)
    ensures Edge(FirstOfEachName(cfg.groups), a, b)
  {
    RuntimeLookup(cfg.groups, a);
    RuntimeLookup(cfg.groups, b);
    var i :| Chooses(cfg, a, i, b);
    assert Refers(FirstOfEachName(cfg.groups), a, i);
  }

  // There every walk down counts: none is cut off by its length or by a repeated group.
  lemma BoundedWalksAreStraight(cfg: Config, model: Name, w: seq<Name>)
    requires Bounded(FirstOfEachName(cfg.groups)) && LeafWalk(cfg, model, w)
    ensures Straight([], w)
  {
    hide EligibleStep, Bounded;
    var graph := FirstOfEachName(cfg.groups);
    forall k | 0 <= k < |w| - 1 ensures IsGroup(cfg, w[k]) && w[k] in graph {
      var x := k + 1;
      assert EligibleStep(cfg, w[x - 1], w[x]);
      StepsLeaveGroups(cfg, w[k], w[x]);
      RuntimeLookup(cfg.groups, w[k]);
    }
    if |w| > 1 {
      var v := w[..|w| - 1];
      forall k | 0 < k < |v| ensures Edge(graph, v[k - 1], v[k]) {
        assert EligibleStep(cfg, w[k - 1], w[k]);
        StepIsEdge(cfg, w[k - 1], w[k]);
      }
      assert Walk(graph, v);
      forall j, k | 0 <= j < k < |w| - 1 ensures w[j] != w[k] {
        assert v[..k] + [v[k]] == v[..k + 1];
        PrefixWalk(graph, v, k + 1);
        NotCutOff(cfg, v[..k], v[k]);
        assert v[j] in v[..k];
      }
      BoundAt(graph, v);
    }
  }

  lemma StepsLeaveGroups(cfg: Config, a: Name, b: Name)
    requires EligibleStep(cfg, a, b)
    ensures IsGroup(cfg, a)
  {
  }

  lemma PrefixWalk(g: Graph, w: seq<Name>, k: nat)
    requires Walk(g, w) && 0 < k <= |w|
    ensures Walk(g, w[..k])
  {
    forall i | 0 < i < k ensures Edge(g, w[..k][i - 1], w[..k][i]) { assert Edge(g, w[i - 1], w[i]); }
  }

  lemma BoundAt(g: Graph, w: seq<Name>)
    requires Bounded(g) && Walk(g, w)
    ensures |w| <= MAX_GROUP_DEPTH
  {
  }
}
