// The routing part of the plugin configuration (internal/config/config.go).
//
// Names are taken in the form the source compares them in: trimmed and case-folded.
module Config {
  import opened Errors

  type Name = string

  datatype Option<+T> = None | Some(value: T)

  const MAX_GROUP_DEPTH := 8

  datatype Strategy = Manual | Fallback | RoundRobin | Random | Weighted

  datatype Member = Member(model: Name, weight: int, accept: seq<string>, deny: seq<string>, maxRetries: int) {
    // Settings that only make sense on a leaf, as the group validator tests them.
    predicate HasLeafRules() {
      accept != [] || deny != [] || maxRetries != 0
    }
  }

  datatype Group = Group(name: Name, strategy: Strategy, manualMember: Name, members: seq<Member>,
                         maxAttempts: int, failWhenAllCooling: bool, failoverClient: bool, guard: bool) {
    // A manual group may use its selected member only.
    predicate Eligible(m: Member) {
      strategy == Manual ==> m.model == manualMember
    }
  }

  datatype GuardRule = GuardRule(model: string, accept: seq<string>, deny: seq<string>,
                                 maxRetries: Option<int>, rejectMissing: bool)

  datatype CooldownConfig = CooldownConfig(
    enabled: bool, quotaSeconds: int, rateLimitSeconds: int, authSeconds: int, notFoundSeconds: int,
    serverErrorSeconds: int, mismatchSeconds: int, serverErrorThreshold: int,
    backoffMultiplier: real, maxSeconds: int, honorRetryAfter: bool)

  datatype Config = Config(groups: seq<Group>, rules: seq<GuardRule>, guardRetries: int, rejectMissing: bool,
                           cooldown: CooldownConfig)

  // The first group of that name.
  function FindGroup(groups: seq<Group>, name: Name): (found: Option<Group>)
    ensures found.Some? ==> found.value in groups && found.value.name == name
    ensures found.None? ==> forall g | g in groups :: g.name != name
  {
    if groups == [] then None
    else if groups[0].name == name then Some(groups[0])
    else FindGroup(groups[1..], name)
  }

  function FindVirtual(cfg: Config, name: Name): Option<Group> {
    FindGroup(cfg.groups, name)
  }

  predicate IsGroup(cfg: Config, name: Name) {
    FindVirtual(cfg, name).Some?
  }

  predicate DistinctNames(groups: seq<Group>) {
    forall i, j | 0 <= i < j < |groups| :: groups[i].name != groups[j].name
  }

  // Normalisation drops a group without usable members, so every configured group has one.
  predicate Usable(cfg: Config) {
    forall g | g in cfg.groups :: g.members != []
  }

  // ---- normalisation ----

  // A list of names without surrounding white space and without empty entries.
  function CleanList(list: seq<string>): seq<string> {
    if list == [] then []
    else CleanList(list[..|list| - 1]) + if Trim(list[|list| - 1]) != "" then [Trim(list[|list| - 1])] else []
  }

  method CleanUp(list: seq<string>) returns (out: seq<string>)
    ensures out == CleanList(list)
  {
    out := [];
    for i := 0 to |list|
      invariant out == CleanList(list[..i])
    {
      assert list[..i + 1][..i] == list[..i];
      var v := Trim(list[i]);
      if v != "" { out := out + [v]; }
    }
    assert list[..|list|] == list;
  }

  // Lists cleaned up, weight at least 1, retries not negative.
  function Cleaned(m: Member): Member {
    m.(weight := if m.weight <= 0 then 1 else m.weight, maxRetries := if m.maxRetries < 0 then 0 else m.maxRetries,
       accept := CleanList(m.accept), deny := CleanList(m.deny))
  }

  predicate Listed(members: seq<Member>, name: Name) {
    exists k | 0 <= k < |members| :: members[k].model == name
  }

  lemma ListedInMore(members: seq<Member>, m: Member, name: Name)
    ensures Listed(members + [m], name) <==> Listed(members, name) || m.model == name
  {
    var all := members + [m];
    assert all[|members|] == m && forall k | 0 <= k < |members| :: all[k] == members[k];
  }

  // The members kept: named, not the group itself, first of each name, cleaned up.
  function UsableMembers(members: seq<Member>, group: Name): (kept: seq<Member>) {
    if members == [] then []
    else
      var before, m := UsableMembers(members[..|members| - 1], group), members[|members| - 1];
      if m.model == "" || m.model == group || Listed(before, m.model) then before
      else before + [Cleaned(m)]
  }

  // The groups kept: named, first of each name, with at least one usable member.
  function UsableGroups(groups: seq<Group>): (kept: seq<Group>) {
    if groups == [] then []
    else
      var before, g := UsableGroups(groups[..|groups| - 1]), groups[|groups| - 1];
      var members := UsableMembers(g.members, g.name);
      if g.name == "" || members == [] || exists k | 0 <= k < |before| :: before[k].name == g.name then before
      else before + [Tidied(g)]
  }

  function Tidied(g: Group): Group {
    g.(members := UsableMembers(g.members, g.name), maxAttempts := if g.maxAttempts < 0 then 0 else g.maxAttempts)
  }

  method NormalizeMembers(members: seq<Member>, group: Name) returns (kept: seq<Member>)
    ensures kept == UsableMembers(members, group)
  {
    kept := [];
    var seen: set<Name> := {};
    for j := 0 to |members|
      invariant kept == UsableMembers(members[..j], group)
      invariant forall n :: n in seen <==> Listed(kept, n)
    {
      var m := members[j];
      assert members[..j + 1][..j] == members[..j];
      if m.model == "" || m.model == group || m.model in seen { continue; }
      seen := seen + {m.model};
      m := m.(weight := if m.weight <= 0 then 1 else m.weight, maxRetries := if m.maxRetries < 0 then 0 else m.maxRetries);
      var accept := CleanUp(m.accept);
      var deny := CleanUp(m.deny);
      m := m.(accept := accept, deny := deny);
      forall n { ListedInMore(kept, m, n); }
      kept := kept + [m];
    }
    assert members[..|members|] == members;
  }

  method Normalize(groups: seq<Group>) returns (virtuals: seq<Group>)
    ensures virtuals == UsableGroups(groups)
  {
    virtuals := [];
    var seen: set<Name> := {};
    for i := 0 to |groups|
      invariant virtuals == UsableGroups(groups[..i])
      invariant forall n :: n in seen <==> exists k | 0 <= k < |virtuals| :: virtuals[k].name == n
    {
      var g := groups[i];
      assert groups[..i + 1][..i] == groups[..i];
      if g.name == "" || g.name in seen { continue; }
      var members := NormalizeMembers(g.members, g.name);
      if |members| == 0 { continue; }
      seen := seen + {g.name};
      ghost var before := virtuals;
      virtuals := virtuals + [g.(members := members, maxAttempts := if g.maxAttempts < 0 then 0 else g.maxAttempts)];
      assert forall k | 0 <= k < |before| :: virtuals[k] == before[k];
      assert virtuals[|before|].name == g.name;
    }
    assert groups[..|groups|] == groups;
  }

  // A cleaned list is that of its parts put together, and of one entry it is the trimmed entry, or nothing for
  // white space alone. So every other entry stays, trimmed, in its place.
  lemma {:induction false} CleanListJoins(a: seq<string>, b: seq<string>)
    ensures CleanList(a + b) == CleanList(a) + CleanList(b)
  {
    hide Trim;
    if b == [] {
      assert a + b == a;
    } else {
      var front := b[..|b| - 1];
      CleanListJoins(a, front);
      assert (a + b)[..|a + b| - 1] == a + front;
      assert CleanList(a) + CleanList(b) == CleanList(a + front) + if Trim(b[|b| - 1]) != "" then [Trim(b[|b| - 1])] else [];
    }
  }

  lemma CleanListOfOne(s: string)
    ensures CleanList([s]) == if forall i | 0 <= i < |s| :: s[i] == ' ' || 9 <= s[i] as int <= 13 then [] else [Trim(s)]
  {
    hide Trim;
    WhiteTrimsAway(s);
    assert [s][..0] == [];
  }

  // What normalisation makes of the numbers, and what it leaves alone.
  lemma SettingsThatAreKept(m: Member, g: Group)
    ensures var c := Cleaned(m);
            && c.model == m.model && (m.weight >= 1 ==> c.weight == m.weight) && (m.weight < 1 ==> c.weight == 1)
            && (m.maxRetries >= 0 ==> c.maxRetries == m.maxRetries) && (m.maxRetries < 0 ==> c.maxRetries == 0)
    ensures var t := Tidied(g);
            && t == g.(members := t.members, maxAttempts := t.maxAttempts)
            && (g.maxAttempts >= 0 ==> t.maxAttempts == g.maxAttempts) && (g.maxAttempts < 0 ==> t.maxAttempts == 0)
  {
    hide CleanList, UsableMembers;
  }

  predicate CleanLists(m: Member) {
    CleanList(m.accept) == m.accept && CleanList(m.deny) == m.deny
  }

  lemma {:induction false} CleanListIsClean(list: seq<string>)
    ensures CleanList(CleanList(list)) == CleanList(list)
  {
    if list != [] {
      var front, last := list[..|list| - 1], list[|list| - 1];
      CleanListIsClean(front);
      if Trim(last) != "" {
        assert (CleanList(front) + [Trim(last)])[..|CleanList(front)|] == CleanList(front);
        TrimIsTrimmed(last);
      } else {
        assert CleanList(list) == CleanList(front);
      }
    }
  }

  lemma TrimIsTrimmed(s: string)
    ensures Trim(Trim(s)) == Trim(s)
  {
  }

  // What the engine may rely on after normalisation.
  predicate CleanMember(m: Member, group: Name) {
    m.model != "" && m.model != group && m.weight >= 1 && m.maxRetries >= 0 && CleanLists(m)
  }

  lemma CleanedIsClean(m: Member, group: Name)
    ensures m.model != "" && m.model != group ==> CleanMember(Cleaned(m), group)
    ensures CleanMember(m, group) ==> Cleaned(m) == m && m.model != "" && m.model != group
  {
    CleanListIsClean(m.accept);
    CleanListIsClean(m.deny);
  }

  predicate CleanMembers(members: seq<Member>, group: Name) {
    && (forall i, j | 0 <= i < j < |members| :: members[i].model != members[j].model)
    && forall i | 0 <= i < |members| :: CleanMember(members[i], group)
  }

  predicate CleanGroups(groups: seq<Group>) {
    && DistinctNames(groups)
    && forall i | 0 <= i < |groups| ::
         groups[i].name != "" && groups[i].members != [] && groups[i].maxAttempts >= 0
         && CleanMembers(groups[i].members, groups[i].name)
  }

  lemma CleanSnoc(before: seq<Member>, m: Member, group: Name)
    requires CleanMember(m, group) && forall k | 0 <= k < |before| :: before[k].model != m.model
    ensures CleanMembers(before + [m], group) <==> CleanMembers(before, group)
  {
    hide CleanMember;
    var all := before + [m];
    assert all[|before|] == m && forall k | 0 <= k < |before| :: all[k] == before[k];
  }

  lemma {:induction false} KeptMembersAreClean(members: seq<Member>, group: Name)
    ensures CleanMembers(UsableMembers(members, group), group)
  {
    hide CleanMember, CleanList, CleanMembers;
    if members == [] {
      NoMembersAreClean(group);
    } else {
      var front, last := members[..|members| - 1], members[|members| - 1];
      KeptMembersAreClean(front, group);
      CleanedIsClean(last, group);
      if UsableMembers(members, group) != UsableMembers(front, group) {
        CleanSnoc(UsableMembers(front, group), Cleaned(last), group);
      }
    }
  }

  lemma KeptMembersComeFromMembers(members: seq<Member>, group: Name)
    ensures forall m | m in UsableMembers(members, group) :: exists o | o in members :: o.model == m.model
  {
    hide UsableMembers;
    FirstMembersAreKept(members, group);
    forall m | m in UsableMembers(members, group) ensures exists o | o in members :: o.model == m.model {
      var i :| KeptAs(members, group, i, m);
      assert members[i] in members;
    }
  }

  lemma NoMembersAreClean(group: Name)
    ensures CleanMembers([], group)
  {
  }

  // The i-th member is the first of its name and fit to be kept, as m.
  predicate KeptAs(members: seq<Member>, group: Name, i: int, m: Member) {
    && 0 <= i < |members| && members[i].model != "" && members[i].model != group
    && !Listed(members[..i], members[i].model) && m == Cleaned(members[i])
  }

  lemma KeptAsInMore(front: seq<Member>, last: Member, group: Name, i: int, m: Member)
    ensures KeptAs(front + [last], group, i, m)
            <==> if i != |front| then KeptAs(front, group, i, m)
                 else last.model != "" && last.model != group && !Listed(front, last.model) && m == Cleaned(last)
  {
    hide Listed, Cleaned;
    var members := front + [last];
    if 0 <= i <= |front| { assert members[..i] == front[..i]; }
    assert front[..|front|] == front;
  }

  // Of each name exactly the first member is kept, with its own lists, weight and retries cleaned up.
  lemma {:induction false} FirstMembersAreKept(members: seq<Member>, group: Name)
    ensures forall m :: m in UsableMembers(members, group) <==> exists i :: KeptAs(members, group, i, m)
  {
    hide Cleaned, KeptAs, Listed;
    if members == [] {
      assert forall i, m :: !KeptAs([], group, i, m) by { NothingIsKept(group); }
    } else {
      var front, last := members[..|members| - 1], members[|members| - 1];
      assert members == front + [last];
      FirstMembersAreKept(front, group);
      NamesKept(front, group, last.model);
      var before, kept := UsableMembers(front, group), UsableMembers(members, group);
      forall m ensures m in kept <==> exists i :: KeptAs(members, group, i, m) {
        forall i { KeptAsInMore(front, last, group, i, m); }
        if i :| KeptAs(front, group, i, m) { KeptAsIndex(front, group, i, m); }
        assert (exists i :: KeptAs(members, group, i, m))
               <==> (exists i :: KeptAs(front, group, i, m)) || KeptAs(members, group, |front|, m) by {
          if i :| KeptAs(members, group, i, m) { assert i != |front| ==> KeptAs(front, group, i, m); }
        }
      }
    }
  }

  lemma NothingIsKept(group: Name)
    ensures forall i, m :: !KeptAs([], group, i, m)
  {
  }

  lemma KeptAsIndex(members: seq<Member>, group: Name, i: int, m: Member)
    requires KeptAs(members, group, i, m)
    ensures 0 <= i < |members|
  {
  }

  lemma {:induction false} NamesKept(members: seq<Member>, group: Name, name: Name)
    ensures Listed(UsableMembers(members, group), name) <==> name != "" && name != group && Listed(members, name)
  {
    if members != [] {
      var front, last := members[..|members| - 1], members[|members| - 1];
      NamesKept(front, group, name);
      NamesKept(front, group, last.model);
      assert members == front + [last];
      hide Listed, CleanList;
      ListedInMore(front, last, name);
      ListedInMore(UsableMembers(front, group), Cleaned(last), name);
    }
  }

  lemma {:induction false} NamedMembersAreKept(members: seq<Member>, group: Name)
    ensures forall o | o in members :: o.model == "" || o.model == group || UsableMembers(members, group) != []
  {
    if members != [] { NamedMembersAreKept(members[..|members| - 1], group); }
  }

  // A group that normalisation can use, whatever else is configured.
  predicate Worthwhile(g: Group) {
    g.name != "" && exists o | o in g.members :: o.model != "" && o.model != g.name
  }

  // The first of a name that can be used.
  predicate FirstOfName(groups: seq<Group>, i: int) {
    && 0 <= i < |groups| && Worthwhile(groups[i])
    && forall j | 0 <= j < i :: groups[j].name == groups[i].name ==> !Worthwhile(groups[j])
  }

  // Exactly the first usable group of each name survives, under its own settings: a later group of that
  // name, or one without a usable member, is not seen by a lookup.
  lemma {:induction false} FirstUsableIsKept(groups: seq<Group>, name: Name)
    ensures match FindGroup(UsableGroups(groups), name)
            case None => forall i | 0 <= i < |groups| :: groups[i].name == name ==> !Worthwhile(groups[i])
            case Some(g) =>
              exists i | FirstOfName(groups, i) ::
                groups[i].name == name && g == Tidied(groups[i])
  {
    hide UsableMembers;
    if groups != [] {
      var front, g := groups[..|groups| - 1], groups[|groups| - 1];
      FirstUsableIsKept(front, name);
      UsableMembersIff(g);
      var before := UsableGroups(front);
      FindInOrder(before, Tidied(g), name);
      forall i | FirstOfName(front, i) ensures FirstOfName(groups, i) { }
      if FindGroup(before, name).None? && g.name == name && Worthwhile(g) {
        assert forall j | 0 <= j < |front| :: groups[j] == front[j];
        assert FirstOfName(groups, |front|);
      }
    }
  }

  lemma UsableMembersIff(g: Group)
    ensures g.name != "" ==> (UsableMembers(g.members, g.name) != [] <==> Worthwhile(g))
  {
    KeptMembersComeFromMembers(g.members, g.name);
    KeptMembersAreClean(g.members, g.name);
    NamedMembersAreKept(g.members, g.name);
    var kept := UsableMembers(g.members, g.name);
    if kept != [] { assert kept[0] in kept; }
  }

  lemma {:induction false} FindInOrder(before: seq<Group>, g: Group, name: Name)
    ensures FindGroup(before + [g], name)
            == if FindGroup(before, name).Some? then FindGroup(before, name) else if g.name == name then Some(g) else None
    ensures FindGroup(before, name).Some? <==> exists k | 0 <= k < |before| :: before[k].name == name
  {
    if before != [] {
      assert (before + [g])[1..] == before[1..] + [g];
      FindInOrder(before[1..], g, name);
      if FindGroup(before, name).Some? { assert exists k | 0 <= k < |before| :: before[k] == FindGroup(before, name).value; }
    }
  }

  lemma {:induction false} NormalizedIsClean(groups: seq<Group>)
    ensures CleanGroups(UsableGroups(groups))
  {
    if groups != [] {
      var g := groups[|groups| - 1];
      NormalizedIsClean(groups[..|groups| - 1]);
      KeptMembersAreClean(g.members, g.name);
    }
  }

  lemma CleanMembersFront(members: seq<Member>, group: Name)
    requires CleanMembers(members, group) && members != []
    ensures CleanMembers(members[..|members| - 1], group) && CleanMember(members[|members| - 1], group)
    ensures var front := members[..|members| - 1]; forall k | 0 <= k < |front| :: front[k].model != members[|members| - 1].model
  {
    hide CleanMember;
  }

  lemma {:induction false} CleanMembersStay(members: seq<Member>, group: Name)
    requires CleanMembers(members, group)
    ensures UsableMembers(members, group) == members
  {
    hide CleanMember, CleanMembers, Cleaned;
    if members != [] {
      var front, last := members[..|members| - 1], members[|members| - 1];
      CleanMembersFront(members, group);
      CleanMembersStay(front, group);
      CleanedIsClean(last, group);
      assert members == front + [last];
    }
  }

  lemma CleanFront(groups: seq<Group>)
    requires CleanGroups(groups) && groups != []
    ensures CleanGroups(groups[..|groups| - 1])
    ensures var g := groups[|groups| - 1];
            && g.name != "" && g.members != [] && g.maxAttempts >= 0 && CleanMembers(g.members, g.name)
            && var before := groups[..|groups| - 1]; forall k | 0 <= k < |before| :: before[k].name != g.name
  {
    hide CleanMembers;
  }

  lemma {:induction false} CleanGroupsStay(groups: seq<Group>)
    requires CleanGroups(groups)
    ensures UsableGroups(groups) == groups
  {
    hide CleanMembers, UsableMembers, CleanGroups;
    if groups != [] {
      var before, g := groups[..|groups| - 1], groups[|groups| - 1];
      CleanFront(groups);
      CleanGroupsStay(before);
      CleanMembersStay(g.members, g.name);
      assert Tidied(g) == g;
      assert groups == before + [g];
    }
  }

  // Normalising twice changes nothing more.
  lemma NormalizationIsIdempotent(groups: seq<Group>)
    ensures UsableGroups(UsableGroups(groups)) == UsableGroups(groups)
  {
    NormalizedIsClean(groups);
    CleanGroupsStay(UsableGroups(groups));
  }
}
