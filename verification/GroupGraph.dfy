// The group-graph validator (internal/config/groups.go): a memoised depth-first search that must
// reject cycles, over-long chains of groups and leaf settings on group references.
module GroupGraph {
  import opened Config

  type Graph = map<Name, Group>

  // The validator's map: a later group of the same name replaces an earlier one.
  function LastOfEachName(groups: seq<Group>): Graph {
    if groups == [] then map[]
    else LastOfEachName(groups[..|groups| - 1])[groups[|groups| - 1].name := groups[|groups| - 1]]
  }

  ghost predicate Refers(g: Graph, a: Name, i: int) {
    a in g && 0 <= i < |g[a].members| && g[a].members[i].model in g
  }

  ghost predicate Edge(g: Graph, a: Name, b: Name) {
    exists i :: Refers(g, a, i) && g[a].members[i].model == b
  }

  // A chain of groups, each a direct member of the one before.
  ghost predicate Walk(g: Graph, w: seq<Name>) {
    && w != []
    && (forall i | 0 <= i < |w| :: w[i] in g)
    && forall i | 0 < i < |w| :: Edge(g, w[i - 1], w[i])
  }

  ghost predicate Cycle(g: Graph, w: seq<Name>) {
    Walk(g, w) && |w| >= 2 && w[0] == w[|w| - 1]
  }

  ghost predicate BadReference(g: Graph, a: Name, i: int) {
    Refers(g, a, i) && g[a].members[i].HasLeafRules()
  }

  ghost predicate Bounded(g: Graph) {
    forall w | Walk(g, w) :: |w| <= MAX_GROUP_DEPTH
  }

  ghost predicate Acyclic(g: Graph) {
    forall w :: !Cycle(g, w)
  }

  // What the validator has to establish.
  ghost predicate Acceptable(g: Graph) {
    Acyclic(g) && Bounded(g) && forall a, i :: !BadReference(g, a, i)
  }

  datatype GraphError = CycleFound(path: seq<Name>) | TooDeep(path: seq<Name>) | LeafRulesOnGroup(group: Name, index: nat)

  // Every rejection comes with a genuine fault of the graph.
  ghost predicate Evidence(g: Graph, e: GraphError) {
    match e
    case CycleFound(w) => Walk(g, w) && exists i | 0 <= i < |w| - 1 :: w[i] == w[|w| - 1]
    case TooDeep(w) => Walk(g, w) && |w| > MAX_GROUP_DEPTH
    case LeafRulesOnGroup(a, i) => BadReference(g, a, i)
  }

  // The memo invariant: a checked group is within depth, its references are clean, and each group it
  // refers to was checked at least one level deeper.
  ghost predicate Memo(g: Graph, checked: map<Name, nat>) {
    forall a | a in checked ::
      && a in g && checked[a] < MAX_GROUP_DEPTH
      && forall i :: Refers(g, a, i) ==> ReferenceChecked(g, checked, a, i, checked[a] + 1)
  }

  ghost predicate ReferenceChecked(g: Graph, checked: map<Name, nat>, a: Name, i: int, depth: nat)
    requires Refers(g, a, i)
  {
    var m := g[a].members[i];
    !m.HasLeafRules() && m.model in checked && checked[m.model] >= depth
  }

  ghost predicate Deepened(before: map<Name, nat>, after: map<Name, nat>) {
    forall a | a in before :: a in after && after[a] >= before[a]
  }

  ghost predicate SameOn(names: seq<Name>, before: map<Name, nat>, after: map<Name, nat>) {
    forall a | a in names :: (a in before <==> a in after) && (a in before ==> after[a] == before[a])
  }

  lemma ExtendWalk(g: Graph, w: seq<Name>, b: Name)
    requires Walk(g, w) && b in g && Edge(g, w[|w| - 1], b)
    ensures Walk(g, w + [b])
  {
  }

  lemma LastIsGroup(g: Graph, w: seq<Name>)
    requires Walk(g, w)
    ensures w[|w| - 1] in g
  {
  }

  lemma CloseMemo(g: Graph, checked: map<Name, nat>, a: Name, depth: nat)
    requires Memo(g, checked) && a in g && depth < MAX_GROUP_DEPTH
    requires a in checked ==> depth >= checked[a]
    requires forall i :: Refers(g, a, i) ==> ReferenceChecked(g, checked, a, i, depth + 1)
    ensures Memo(g, checked[a := depth])
  {
    var after := checked[a := depth];
    forall b, i | b in after && Refers(g, b, i)
      ensures ReferenceChecked(g, after, b, i, after[b] + 1)
    {
      assert ReferenceChecked(g, checked, b, i, after[b] + 1);
      var child := g[b].members[i].model;
      assert child == a ==> checked[a] >= after[b] + 1;
    }
  }

  class Validator {
    const groups: Graph
    var checkedDepth: map<Name, nat>

    constructor (groups: Graph)
      ensures this.groups == groups && checkedDepth == map[]
    {
      this.groups := groups;
      checkedDepth := map[];
    }

    // One visit: either a fault, or the group and everything below it is checked at this depth or deeper.
    method Visit(name: Name, path: seq<Name>) returns (err: Option<GraphError>)
      requires Memo(groups, checkedDepth)
      requires |path| <= MAX_GROUP_DEPTH && Walk(groups, path + [name])
      modifies this
      ensures err.None? ==> Memo(groups, checkedDepth) && Deepened(old(checkedDepth), checkedDepth)
      ensures err.None? ==> name in checkedDepth && checkedDepth[name] >= |path|
      ensures err.None? ==> SameOn(path, old(checkedDepth), checkedDepth)
      ensures err.Some? ==> Evidence(groups, err.value)
      decreases MAX_GROUP_DEPTH - |path|
    {
      hide Walk;
      LastIsGroup(groups, path + [name]);
      for k := 0 to |path|
        invariant name !in path[..k]
      {
        if path[k] == name {
          assert (path + [name])[k] == name == (path + [name])[|path|];
          return Some(CycleFound(path + [name]));
        }
      }
      if name in checkedDepth && checkedDepth[name] >= |path| { return None; }
      var path' := path + [name];
      if |path'| > MAX_GROUP_DEPTH { return Some(TooDeep(path')); }
      assert (path + [name])[|path|] == name;
      var members := groups[name].members;
      for i := 0 to |members|
        invariant Memo(groups, checkedDepth) && Deepened(old(checkedDepth), checkedDepth)
        invariant SameOn(path', old(checkedDepth), checkedDepth)
        invariant forall j | 0 <= j < i :: Refers(groups, name, j) ==> ReferenceChecked(groups, checkedDepth, name, j, |path'|)
      {
        var child := members[i].model;
        if child !in groups { continue; }
        assert Refers(groups, name, i);
        if members[i].HasLeafRules() { return Some(LeafRulesOnGroup(name, i)); }
        ExtendWalk(groups, path', child);
        err := Visit(child, path');
        if err.Some? { return; }
      }
      CloseMemo(groups, checkedDepth, name, |path|);
      checkedDepth := checkedDepth[name := |path'| - 1];
      return None;
    }
  }

  method IndexGroups(groups: seq<Group>) returns (g: Graph)
    ensures g == LastOfEachName(groups)
  {
    g := map[];
    for i := 0 to |groups|
      invariant g == LastOfEachName(groups[..i])
    {
      assert groups[..i + 1][..i] == groups[..i];
      g := g[groups[i].name := groups[i]];
    }
    assert groups[..|groups|] == groups;
  }

  // The validator accepts exactly the acceptable graphs, whatever order the map is visited in,
  // and each rejection names a genuine fault.
  method ValidateGroups(groups: seq<Group>) returns (err: Option<GraphError>)
    ensures err.None? <==> Acceptable(LastOfEachName(groups))
    ensures err.Some? ==> Evidence(LastOfEachName(groups), err.value)
  {
    var g := IndexGroups(groups);
    var v := new Validator(g);
    var names := g.Keys;
    while names != {}
      invariant names <= g.Keys && v.groups == g && Memo(g, v.checkedDepth)
      invariant forall a | a in g && a !in names :: a in v.checkedDepth
      decreases |names|
    {
      var name :| name in names;
      assert [] + [name] == [name];
      err := v.Visit(name, []);
      if err.Some? {
        EvidenceRefutes(g, err.value);
        return;
      }
      names := names - {name};
    }
    MemoAccepts(g, v.checkedDepth);
    return None;
  }

  // ---- what a complete memo proves ----

  lemma {:induction false} MemoBoundsWalks(g: Graph, checked: map<Name, nat>, w: seq<Name>)
    requires Memo(g, checked) && Walk(g, w) && w[0] in checked
    ensures |w| + checked[w[0]] <= MAX_GROUP_DEPTH
  {
    if |w| > 1 {
      assert Edge(g, w[1 - 1], w[1]);
      var i :| Refers(g, w[0], i) && g[w[0]].members[i].model == w[1];
      assert ReferenceChecked(g, checked, w[0], i, checked[w[0]] + 1);
      TailWalk(g, w);
      MemoBoundsWalks(g, checked, w[1..]);
    }
  }

  lemma TailWalk(g: Graph, w: seq<Name>)
    requires Walk(g, w) && |w| > 1
    ensures Walk(g, w[1..])
  {
    forall i | 0 < i < |w[1..]| ensures Edge(g, w[1..][i - 1], w[1..][i]) {
      var j := i + 1;
      assert Edge(g, w[j - 1], w[j]);
    }
  }

  lemma MemoAccepts(g: Graph, checked: map<Name, nat>)
    requires Memo(g, checked) && forall a | a in g :: a in checked
    ensures Acceptable(g)
  {
    forall w | Walk(g, w) ensures |w| <= MAX_GROUP_DEPTH {
      MemoBoundsWalks(g, checked, w);
    }
    BoundedIsAcyclic(g);
    forall a, i | Refers(g, a, i) ensures !BadReference(g, a, i) {
      assert ReferenceChecked(g, checked, a, i, checked[a] + 1);
    }
  }

  // In plain terms: no chain of more than eight groups, none that comes back to a group, and no member that
  // names a group under lists or retries of its own.
  lemma AcceptableMeans(g: Graph)
    ensures Acceptable(g)
            <==> (forall w | Walk(g, w) :: |w| <= 8)
                 && (forall w | Walk(g, w) && |w| >= 2 :: w[0] != w[|w| - 1])
                 && forall a, i | a in g && 0 <= i < |g[a].members| && g[a].members[i].model in g ::
                      g[a].members[i].accept == [] && g[a].members[i].deny == [] && g[a].members[i].maxRetries == 0
  {
    hide Walk;
    if forall a, i | a in g && 0 <= i < |g[a].members| && g[a].members[i].model in g ::
         g[a].members[i].accept == [] && g[a].members[i].deny == [] && g[a].members[i].maxRetries == 0 {
      forall a, i ensures !BadReference(g, a, i) { }
    }
    if Acceptable(g) {
      forall a, i | a in g && 0 <= i < |g[a].members| && g[a].members[i].model in g
        ensures g[a].members[i].accept == [] && g[a].members[i].deny == [] && g[a].members[i].maxRetries == 0
      {
        assert !BadReference(g, a, i);
      }
      forall w | Walk(g, w) && |w| >= 2 ensures w[0] != w[|w| - 1] { assert !Cycle(g, w); }
    }
  }

  // ---- a cycle can be walked round for ever ----

  lemma JoinWalks(g: Graph, u: seq<Name>, w: seq<Name>)
    requires Walk(g, u) && Walk(g, w) && u[|u| - 1] == w[0]
    ensures Walk(g, u + w[1..])
  {
    var t := u + w[1..];
    forall i | 0 < i < |t| ensures Edge(g, t[i - 1], t[i]) {
      if i < |u| {
        assert Edge(g, u[i - 1], u[i]);
      } else {
        var j := i - |u| + 1;
        assert Edge(g, w[j - 1], w[j]);
      }
    }
  }

  lemma {:induction false} CycleGivesLongWalk(g: Graph, w: seq<Name>, length: nat) returns (long: seq<Name>)
    requires Cycle(g, w)
    ensures Walk(g, long) && |long| > length
    decreases length - |w|
  {
    if |w| > length {
      long := w;
    } else {
      JoinWalks(g, w, w);
      long := CycleGivesLongWalk(g, w + w[1..], length);
    }
  }

  lemma BoundedIsAcyclic(g: Graph)
    requires Bounded(g)
    ensures Acyclic(g)
  {
    forall w ensures !Cycle(g, w) {
      if Cycle(g, w) {
        var long := CycleGivesLongWalk(g, w, MAX_GROUP_DEPTH);
      }
    }
  }

  lemma EvidenceRefutes(g: Graph, e: GraphError)
    requires Evidence(g, e)
    ensures !Acceptable(g)
  {
    match e
    case CycleFound(w) =>
      var i :| 0 <= i < |w| - 1 && w[i] == w[|w| - 1];
      var c := w[i..];
      forall k | 0 < k < |c| ensures Edge(g, c[k - 1], c[k]) {
        var j := i + k;
        assert Edge(g, w[j - 1], w[j]);
      }
      assert Cycle(g, c);
    case _ =>
  }

  // ---- the graph the engine runs on ----

  // Look-ups at run time take the first group of a name.
  function FirstOfEachName(groups: seq<Group>): Graph {
    if groups == [] then map[]
    else FirstOfEachName(groups[1..])[groups[0].name := groups[0]]
  }

  lemma {:induction false} RuntimeLookup(groups: seq<Group>, name: Name)
    ensures name in FirstOfEachName(groups) <==> FindGroup(groups, name).Some?
    ensures name in FirstOfEachName(groups) ==> FirstOfEachName(groups)[name] == FindGroup(groups, name).value
  {
    if groups != [] { RuntimeLookup(groups[1..], name); }
  }

  lemma {:induction false} ValidatorLookup(groups: seq<Group>, i: nat)
    requires DistinctNames(groups) && i < |groups|
    ensures groups[i].name in LastOfEachName(groups) && LastOfEachName(groups)[groups[i].name] == groups[i]
  {
    if i < |groups| - 1 { ValidatorLookup(groups[..|groups| - 1], i); }
  }

  lemma {:induction false} ValidatorNames(groups: seq<Group>, name: Name)
    ensures name in LastOfEachName(groups) <==> exists i | 0 <= i < |groups| :: groups[i].name == name
  {
    if groups != [] {
      var front, last := groups[..|groups| - 1], groups[|groups| - 1];
      ValidatorNames(front, name);
      assert groups == front + [last];
      assert groups[|front|] == last;
      assert forall i | 0 <= i < |front| :: groups[i] == front[i];
    }
  }

  // Among distinct names the validator and the engine look up the same groups.
  lemma DistinctLookupsAgree(groups: seq<Group>)
    requires DistinctNames(groups)
    ensures FirstOfEachName(groups) == LastOfEachName(groups)
  {
    var run, valid := FirstOfEachName(groups), LastOfEachName(groups);
    forall name ensures (name in run <==> name in valid) && (name in run ==> run[name] == valid[name]) {
      RuntimeLookup(groups, name);
      ValidatorNames(groups, name);
      if name in run {
        var i :| 0 <= i < |groups| && groups[i] == run[name];
        ValidatorLookup(groups, i);
      } else {
        forall i | 0 <= i < |groups| ensures groups[i].name != name { assert groups[i] in groups; }
      }
    }
  }

  // What the engine walks is sound exactly when the normalised groups themselves validate: whatever the names
  // in the list as written, no walk of the running graph is too long if and only if validation of the
  // normalised list, which a caller can make before any request, has no fault of shape to find.
  lemma NormalizedValidationIsExact(groups: seq<Group>)
    ensures var kept := UsableGroups(groups);
            && (Bounded(FirstOfEachName(kept)) <==> Bounded(LastOfEachName(kept)) && Acyclic(LastOfEachName(kept)))
            && (Acceptable(LastOfEachName(kept))
                <==> Bounded(FirstOfEachName(kept)) && forall a, i :: !BadReference(FirstOfEachName(kept), a, i))
  {
    hide Bounded, Acyclic, BadReference;
    NormalizedIsClean(groups);
    var kept := UsableGroups(groups);
    DistinctLookupsAgree(kept);
    if Bounded(LastOfEachName(kept)) { BoundedIsAcyclic(LastOfEachName(kept)); }
  }

  // Where a kept group comes from.
  lemma {:induction false} KeptGroupOrigin(groups: seq<Group>, kept: Group) returns (i: nat)
    requires kept in UsableGroups(groups)
    ensures i < |groups| && kept.name == groups[i].name
    ensures kept.members == UsableMembers(groups[i].members, groups[i].name)
  {
    var last := |groups| - 1;
    if kept in UsableGroups(groups[..last]) {
      i := KeptGroupOrigin(groups[..last], kept);
    } else {
      i := last;
    }
  }

  lemma RuntimeEdgesWereValidated(groups: seq<Group>, a: Name, b: Name)
    requires DistinctNames(groups) && Edge(FirstOfEachName(UsableGroups(groups)), a, b)
    ensures Edge(LastOfEachName(groups), a, b)
  {
    var kept := UsableGroups(groups);
    RuntimeLookup(kept, a);
    RuntimeLookup(kept, b);
    var i := KeptGroupOrigin(groups, FindGroup(kept, a).value);
    var j := KeptGroupOrigin(groups, FindGroup(kept, b).value);
    ValidatorLookup(groups, i);
    ValidatorLookup(groups, j);
    KeptMembersAreClean(groups[i].members, a);
    KeptMembersComeFromMembers(groups[i].members, a);
    var k :| Refers(FirstOfEachName(kept), a, k) && FirstOfEachName(kept)[a].members[k].model == b;
    var m := FindGroup(kept, a).value.members[k];
    var o :| o in groups[i].members && o.model == m.model;
    var x :| 0 <= x < |groups[i].members| && groups[i].members[x] == o;
    assert Refers(LastOfEachName(groups), a, x);
  }

  // With distinct group names, what the validator accepted bounds what the engine can walk.
  lemma ValidatedConfigIsBounded(groups: seq<Group>)
    requires DistinctNames(groups) && Acceptable(LastOfEachName(groups))
    ensures Bounded(FirstOfEachName(UsableGroups(groups))) && Acyclic(FirstOfEachName(UsableGroups(groups)))
  {
    var run, valid := FirstOfEachName(UsableGroups(groups)), LastOfEachName(groups);
    forall w | Walk(run, w) ensures |w| <= MAX_GROUP_DEPTH {
      forall i | 0 < i < |w| ensures Edge(valid, w[i - 1], w[i]) {
        assert Edge(run, w[i - 1], w[i]);
        RuntimeEdgesWereValidated(groups, w[i - 1], w[i]);
      }
      forall i | 0 <= i < |w| ensures w[i] in valid {
        RuntimeLookup(UsableGroups(groups), w[i]);
        var k := KeptGroupOrigin(groups, FindGroup(UsableGroups(groups), w[i]).value);
        ValidatorLookup(groups, k);
      }
      assert Walk(valid, w);
    }
    BoundedIsAcyclic(run);
  }

  function SingleMember(name: Name, member: Name): Group {
    Group(name, Fallback, "", [Member(member, 1, [], [], 0)], 0, false, false, false)
  }

  lemma DuplicatesAsValidated(a: Group, b: Group, c: Group)
    requires a == SingleMember("a", "b") && b == SingleMember("b", "a") && c == SingleMember("a", "leaf")
    ensures Acceptable(LastOfEachName([a, b, c]))
  {
    var groups := [a, b, c];
    assert groups[..2] == [a, b] && [a, b][..1] == [a] && [a][..0] == [];
    assert "a"[0] != "b"[0] && |"leaf"| == 4;
    assert LastOfEachName([a]) == map["a" := a];
    assert LastOfEachName([a, b]) == map["a" := a, "b" := b];
    var valid := LastOfEachName(groups);
    assert valid == map["a" := c, "b" := b];
    assert "leaf" !in valid;
    MemoAccepts(valid, map["a" := 1, "b" := 0]);
  }

  lemma DuplicatesAreClean(a: Group, b: Group)
    requires a == SingleMember("a", "b") && b == SingleMember("b", "a")
    ensures CleanGroups([a, b])
  {
    assert "a"[0] != "b"[0];
  }

  lemma DuplicatesAsKept(a: Group, b: Group, c: Group)
    requires a == SingleMember("a", "b") && b == SingleMember("b", "a") && c == SingleMember("a", "leaf")
    ensures UsableGroups([a, b, c]) == [a, b]
  {
    DuplicatesAreClean(a, b);
    CleanGroupsStay([a, b]);
    hide UsableMembers, CleanMembers;
    assert [a, b, c][..2] == [a, b];
    assert UsableGroups([a, b])[0].name == c.name;
  }

  // Distinctness is needed: the validator keeps the last group of a name and the engine the first, so
  // this accepted configuration runs on a cycle.
  lemma DuplicateNamesEscapeValidation()
    ensures var groups := [SingleMember("a", "b"), SingleMember("b", "a"), SingleMember("a", "leaf")];
            Acceptable(LastOfEachName(groups)) && Cycle(FirstOfEachName(UsableGroups(groups)), ["a", "b", "a"])
  {
    var a, b, c := SingleMember("a", "b"), SingleMember("b", "a"), SingleMember("a", "leaf");
    DuplicatesAsValidated(a, b, c);
    DuplicatesAsKept(a, b, c);
    hide Acceptable, UsableGroups, LastOfEachName, Cycle;
    CircleIsCycle(a, b);
  }

  lemma CircleIsCycle(a: Group, b: Group)
    requires a.name == "a" && b.name == "b" && a.members == [Member("b", 1, [], [], 0)] && b.members == [Member("a", 1, [], [], 0)]
    ensures Cycle(FirstOfEachName([a, b]), ["a", "b", "a"])
  {
    assert "a"[0] != "b"[0] && [a, b][1..] == [b] && [b][1..] == [];
    var run := FirstOfEachName([a, b]);
    assert FirstOfEachName([b]) == map["b" := b];
    assert run == map["a" := a, "b" := b];
    assert Refers(run, "a", 0) && Refers(run, "b", 0);
  }
}
