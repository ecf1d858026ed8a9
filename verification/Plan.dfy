// The attempt plan of one entry into a group or one direct request (internal/engine/engine.go, buildPlan).
module Planning {
  import opened Config
  import opened Glob
  import opened Identity
  import opened Errors
  import opened Cooldown
  import opened Readiness
  import opened Schedule

  // A client-facing failure.
  datatype Failure = Failure(status: int, code: string, message: string)

  datatype Target = Target(model: Name, expectation: Option<Expectation>, tries: int)

  datatype Plan = Plan(isGroup: bool, targets: seq<Target>, maxAttempts: int, failoverClient: bool, skipped: seq<Name>)

  datatype PlanResult = Planned(plan: Plan) | Refused(failure: Failure)

  // ---- expectations ----

  // The first guard rule whose pattern matches the name.
  ghost function FindRule(rules: seq<GuardRule>, name: Name): (found: Option<GuardRule>)
  {
    if rules == [] || name == "" then None
    else if ModelScan(rules[0].model, name) then Some(rules[0])
    else FindRule(rules[1..], name)
  }

  method FindGuard(rules: seq<GuardRule>, name: Name) returns (found: Option<GuardRule>)
    ensures found == FindRule(rules, name)
  {
    if name == "" { return None; }
    for i := 0 to |rules|
      invariant FindRule(rules, name) == FindRule(rules[i..], name)
    {
      var hit := ModelMatch(rules[i].model, name);
      if hit { return Some(rules[i]); }
    }
    return None;
  }

  function RuleExpectation(rule: GuardRule, model: Name): Expectation {
    Expectation(rule.accept, rule.deny, model, rule.rejectMissing)
  }

  function DefaultExpectation(cfg: Config, model: Name): Expectation {
    Expectation([], [], model, cfg.rejectMissing)
  }

  function RetryBudget(cfg: Config, rule: GuardRule): int {
    if rule.maxRetries.Some? then rule.maxRetries.value else cfg.guardRetries
  }

  // What a leaf member of g has to be served by.
  ghost function MemberExpectation(cfg: Config, g: Group, m: Member): Option<Expectation> {
    var rule := FindRule(cfg.rules, m.model);
    if m.accept != [] || m.deny != [] then
      Some(Expectation(m.accept, m.deny + (if rule.Some? then rule.value.deny else []), m.model, cfg.rejectMissing))
    else if rule.Some? then Some(RuleExpectation(rule.value, m.model))
    else if g.guard then Some(DefaultExpectation(cfg, m.model))
    else None
  }

  ghost function MemberTarget(cfg: Config, g: Group, m: Member): Target {
    Target(m.model, if IsGroup(cfg, m.model) then None else MemberExpectation(cfg, g, m), 1 + m.maxRetries)
  }

  // ---- the plan ----

  ghost function AsTargets(cfg: Config, g: Group, members: seq<Member>): (targets: seq<Target>)
    ensures |targets| == |members|
  {
    seq(|members|, i requires 0 <= i < |members| => MemberTarget(cfg, g, members[i]))
  }

  // Readiness and recovery of a direct member at the planning instant.
  function MemberState(cfg: Config, t: Table, now: Instant, model: Name): (bool, Instant) {
    Availability(cfg, t, now, model, [])
  }

  function WithState(cfg: Config, t: Table, now: Instant, members: seq<Member>, ready: bool): seq<Member> {
    if members == [] then []
    else
      var before, m := WithState(cfg, t, now, members[..|members| - 1], ready), members[|members| - 1];
      if MemberState(cfg, t, now, m.model).0 == ready then before + [m] else before
  }

  // The library's stable sort, by recovery instant.
  function Inserted(key: Name -> Instant, sorted: seq<Target>, x: Target): seq<Target> {
    if sorted == [] then [x]
    else if key(x.model) < key(sorted[|sorted| - 1].model) then
      Inserted(key, sorted[..|sorted| - 1], x) + [sorted[|sorted| - 1]]
    else sorted + [x]
  }

  function StableSort(key: Name -> Instant, xs: seq<Target>): seq<Target> {
    if xs == [] then [] else Inserted(key, StableSort(key, xs[..|xs| - 1]), xs[|xs| - 1])
  }

  function TotalTries(targets: seq<Target>): int {
    if targets == [] then 0 else TotalTries(targets[..|targets| - 1]) + targets[|targets| - 1].tries
  }

  function Capped(g: Group, total: int): int {
    if g.maxAttempts > 0 && g.maxAttempts < total then g.maxAttempts else total
  }

  function Names(members: seq<Member>): seq<Name> {
    seq(|members|, i requires 0 <= i < |members| => members[i].model)
  }

  ghost function DirectPlan(cfg: Config, requested: Name): Plan {
    var rule := FindRule(cfg.rules, requested);
    var t := if rule.None? then Target(requested, None, 1)
             else Target(requested, Some(RuleExpectation(rule.value, requested)), 1 + RetryBudget(cfg, rule.value));
    Plan(false, [t], t.tries, false, [])
  }

  function ManualCooling(model: Name): Failure {
    Failure(429, "manual_member_cooling_down",
            "orangeguard: selected member " + Quoted(model) + " is cooling down; manual routing does not switch members")
  }

  function AllCooling(group: Name): Failure {
    Failure(429, "all_members_cooling_down", "orangeguard: every member of " + Quoted(group) + " is cooling down")
  }

  const MANUAL_INVALID := Failure(400, "manual_member_invalid", "orangeguard: manual selection is missing or invalid")

  ghost function GroupPlan(cfg: Config, t: Table, now: Instant, g: Group, ordered: seq<Member>): PlanResult {
    if g.strategy == Manual && ordered == [] then Refused(MANUAL_INVALID)
    else
      var ready, cooling := WithState(cfg, t, now, ordered, true), WithState(cfg, t, now, ordered, false);
      if ready != [] then
        var targets := AsTargets(cfg, g, ready);
        Planned(Plan(true, targets, Capped(g, TotalTries(targets)), g.failoverClient, Names(cooling)))
      else if g.strategy == Manual then Refused(ManualCooling(ordered[0].model))
      else if g.failWhenAllCooling then Refused(AllCooling(g.name))
      else
        // Degrade gracefully: whichever recovers first is tried first.
        var targets := StableSort(n => MemberState(cfg, t, now, n).1, AsTargets(cfg, g, cooling));
        Planned(Plan(true, targets, Capped(g, TotalTries(targets)), g.failoverClient, []))
  }

  function CounterFor(cfg: Config, counters: map<Name, nat>, requested: Name): nat {
    var g := FindVirtual(cfg, requested);
    if g.Some? then CounterOf(counters, g.value) else 0
  }

  function AdvanceFor(cfg: Config, counters: map<Name, nat>, requested: Name): map<Name, nat> {
    var g := FindVirtual(cfg, requested);
    if g.Some? then Advance(counters, g.value) else counters
  }

  ghost function BuildPlan(cfg: Config, t: Table, now: Instant, requested: Name, counter: nat, draws: Draws): PlanResult
    requires Usable(cfg)
  {
    match FindVirtual(cfg, requested)
    case None => Planned(DirectPlan(cfg, requested))
    case Some(g) => GroupPlan(cfg, t, now, g, Ordering(g, counter, draws))
  }

  // ---- the planner ----

  method LeafExpectation(cfg: Config, g: Group, m: Member) returns (e: Option<Expectation>)
    ensures e == MemberExpectation(cfg, g, m)
  {
    var rule := FindGuard(cfg.rules, m.model);
    if |m.accept| > 0 || |m.deny| > 0 {
      var deny := m.deny;
      if rule.Some? { deny := deny + rule.value.deny; }
      e := Some(Expectation(m.accept, deny, m.model, cfg.rejectMissing));
      assert m.deny + [] == m.deny;
    } else if rule.Some? {
      e := Some(RuleExpectation(rule.value, m.model));
    } else if g.guard {
      e := Some(DefaultExpectation(cfg, m.model));
    } else {
      e := None;
    }
  }

  // One pass over the ordered members: who is available, who is cooling and until when.
  method SplitByState(cfg: Config, store: Store, now: Instant, g: Group, ordered: seq<Member>)
    returns (available: seq<Target>, cooling: seq<Target>, skipped: seq<Name>, coolingUntil: map<Name, Instant>)
    requires store.Valid()
    ensures available == AsTargets(cfg, g, WithState(cfg, store.View(), now, ordered, true))
    ensures cooling == AsTargets(cfg, g, WithState(cfg, store.View(), now, ordered, false))
    ensures skipped == Names(WithState(cfg, store.View(), now, ordered, false))
    ensures forall x | x in cooling ::
              x.model in coolingUntil && coolingUntil[x.model] == MemberState(cfg, store.View(), now, x.model).1
  {
    hide MemberExpectation, Availability, FindVirtual;
    available, cooling, skipped, coolingUntil := [], [], [], map[];
    ghost var t := store.View();
    for i := 0 to |ordered|
      invariant available == AsTargets(cfg, g, WithState(cfg, t, now, ordered[..i], true))
      invariant cooling == AsTargets(cfg, g, WithState(cfg, t, now, ordered[..i], false))
      invariant skipped == Names(WithState(cfg, t, now, ordered[..i], false))
      invariant forall x | x in cooling :: x.model in coolingUntil && coolingUntil[x.model] == MemberState(cfg, t, now, x.model).1
    {
      var m := ordered[i];
      assert ordered[..i + 1][..i] == ordered[..i];
      var target := Target(m.model, None, 1 + m.maxRetries);
      if !IsGroup(cfg, m.model) {
        var e := LeafExpectation(cfg, g, m);
        target := target.(expectation := e);
      }
      var ready, until := CheckAvailability(cfg, store, now, m.model, []);
      if ready {
        available := available + [target];
      } else {
        coolingUntil := coolingUntil[m.model := until];
        cooling := cooling + [target];
        skipped := skipped + [m.model];
      }
    }
    assert ordered[..|ordered|] == ordered;
  }

  method MakePlan(cfg: Config, store: Store, scheduler: Scheduler, now: Instant, requested: Name, draws: Draws)
    returns (r: PlanResult)
    requires Usable(cfg) && store.Valid()
    modifies scheduler
    ensures r == BuildPlan(cfg, store.View(), now, requested, CounterFor(cfg, old(scheduler.counters), requested), draws)
    ensures scheduler.counters == AdvanceFor(cfg, old(scheduler.counters), requested)
  {
    hide MemberState, WithState, Ordering, FindRule, StableSort, AsTargets, Names, Availability, ManualCooling, AllCooling;
    var vm := FindVirtual(cfg, requested);
    if vm.None? {
      var rule := FindGuard(cfg.rules, requested);
      var target := Target(requested, None, 1);
      if rule.Some? {
        target := Target(requested, Some(RuleExpectation(rule.value, requested)), 1 + RetryBudget(cfg, rule.value));
      }
      return Planned(Plan(false, [target], target.tries, false, []));
    }
    var g := vm.value;
    var ordered := scheduler.Order(g, draws);
    if g.strategy == Manual && |ordered| == 0 { return Refused(MANUAL_INVALID); }
    var available, cooling, skipped, coolingUntil := SplitByState(cfg, store, now, g, ordered);
    if |available| == 0 {
      if g.strategy == Manual { return Refused(ManualCooling(ordered[0].model)); }
      if g.failWhenAllCooling { return Refused(AllCooling(g.name)); }
      ghost var t := store.View();
      SortDependsOnKeysOnly(n => if n in coolingUntil then coolingUntil[n] else 0, n => MemberState(cfg, t, now, n).1, cooling);
      available, skipped := StableSort(n => if n in coolingUntil then coolingUntil[n] else 0, cooling), [];
    }
    var maxAttempts := 0;
    for i := 0 to |available|
      invariant maxAttempts == TotalTries(available[..i])
    {
      assert available[..i + 1][..i] == available[..i];
      maxAttempts := maxAttempts + available[i].tries;
    }
    assert available[..|available|] == available;
    if g.maxAttempts > 0 && g.maxAttempts < maxAttempts { maxAttempts := g.maxAttempts; }
    return Planned(Plan(true, available, maxAttempts, g.failoverClient, skipped));
  }

  lemma {:induction false} InsertDependsOnKeysOnly(k: Name -> Instant, k': Name -> Instant, sorted: seq<Target>, x: Target)
    requires k(x.model) == k'(x.model) && forall y | y in sorted :: k(y.model) == k'(y.model)
    ensures Inserted(k, sorted, x) == Inserted(k', sorted, x)
    ensures forall y | y in Inserted(k, sorted, x) :: y == x || y in sorted
  {
    if sorted != [] { InsertDependsOnKeysOnly(k, k', sorted[..|sorted| - 1], x); }
  }

  lemma {:induction false} SortDependsOnKeysOnly(k: Name -> Instant, k': Name -> Instant, xs: seq<Target>)
    requires forall y | y in xs :: k(y.model) == k'(y.model)
    ensures StableSort(k, xs) == StableSort(k', xs)
    ensures forall y | y in StableSort(k, xs) :: y in xs
  {
    if xs != [] {
      SortDependsOnKeysOnly(k, k', xs[..|xs| - 1]);
      InsertDependsOnKeysOnly(k, k', StableSort(k, xs[..|xs| - 1]), xs[|xs| - 1]);
    }
  }

  // ---- what a plan promises ----

  // The targets with a given recovery instant, in order.
  function KeyedAt(key: Name -> Instant, xs: seq<Target>, k: Instant): seq<Target> {
    if xs == [] then []
    else KeyedAt(key, xs[..|xs| - 1], k) + if key(xs[|xs| - 1].model) == k then [xs[|xs| - 1]] else []
  }

  predicate SortedByKey(key: Name -> Instant, xs: seq<Target>) {
    forall i, j | 0 <= i < j < |xs| :: key(xs[i].model) <= key(xs[j].model)
  }

  lemma {:induction false} InsertPermutes(key: Name -> Instant, sorted: seq<Target>, x: Target)
    ensures multiset(Inserted(key, sorted, x)) == multiset(sorted) + multiset{x}
  {
    if sorted != [] {
      assert sorted == sorted[..|sorted| - 1] + [sorted[|sorted| - 1]];
      InsertPermutes(key, sorted[..|sorted| - 1], x);
    }
  }

  lemma {:induction false} InsertSorts(key: Name -> Instant, sorted: seq<Target>, x: Target)
    requires SortedByKey(key, sorted)
    ensures SortedByKey(key, Inserted(key, sorted, x))
    ensures forall y | y in Inserted(key, sorted, x) :: y == x || y in sorted
  {
    if sorted != [] && key(x.model) < key(sorted[|sorted| - 1].model) {
      var front, last := sorted[..|sorted| - 1], sorted[|sorted| - 1];
      InsertSorts(key, front, x);
      assert forall y | y in front :: key(y.model) <= key(last.model);
      var s := Inserted(key, front, x);
      assert forall i | 0 <= i < |s| :: s[i] in s;
    }
  }

  lemma {:induction false} InsertIsStable(key: Name -> Instant, sorted: seq<Target>, x: Target, k: Instant)
    ensures KeyedAt(key, Inserted(key, sorted, x), k) == KeyedAt(key, sorted + [x], k)
  {
    if sorted != [] && key(x.model) < key(sorted[|sorted| - 1].model) {
      var front, last := sorted[..|sorted| - 1], sorted[|sorted| - 1];
      InsertIsStable(key, front, x, k);
      var s := Inserted(key, front, x);
      assert (s + [last])[..|s|] == s;
      KeysAboveDoNotMeet(key, sorted, x, k);
    } else {
      assert sorted == [] ==> [x] == sorted + [x];
    }
  }

  // Moving x in front of a target with a later key changes no single-key sequence.
  lemma KeysAboveDoNotMeet(key: Name -> Instant, sorted: seq<Target>, x: Target, k: Instant)
    requires sorted != [] && key(x.model) < key(sorted[|sorted| - 1].model)
    ensures KeyedAt(key, sorted + [x], k)
            == KeyedAt(key, sorted[..|sorted| - 1] + [x], k)
               + if key(sorted[|sorted| - 1].model) == k then [sorted[|sorted| - 1]] else []
  {
    var front := sorted[..|sorted| - 1];
    assert (sorted + [x])[..|sorted|] == sorted && (front + [x])[..|front|] == front;
  }

  lemma {:induction false} StableSortSorts(key: Name -> Instant, xs: seq<Target>)
    ensures SortedByKey(key, StableSort(key, xs)) && multiset(StableSort(key, xs)) == multiset(xs)
  {
    hide SortedByKey, Inserted;
    if xs == [] {
      NothingIsSorted(key);
    } else {
      var front, x := xs[..|xs| - 1], xs[|xs| - 1];
      StableSortSorts(key, front);
      InsertSorts(key, StableSort(key, front), x);
      InsertPermutes(key, StableSort(key, front), x);
      assert xs == front + [x];
    }
  }

  lemma NothingIsSorted(key: Name -> Instant)
    ensures SortedByKey(key, [])
  {
  }

  // The sort is a stable permutation into recovery order.
  lemma {:induction false} StableSortIsStable(key: Name -> Instant, xs: seq<Target>, k: Instant)
    ensures SortedByKey(key, StableSort(key, xs)) && KeyedAt(key, StableSort(key, xs), k) == KeyedAt(key, xs, k)
    ensures multiset(StableSort(key, xs)) == multiset(xs)
  {
    hide SortedByKey, Inserted;
    StableSortSorts(key, xs);
    if xs != [] {
      var front, x := xs[..|xs| - 1], xs[|xs| - 1];
      StableSortIsStable(key, front, k);
      var sorted := StableSort(key, front);
      InsertIsStable(key, sorted, x, k);
      assert (sorted + [x])[..|sorted|] == sorted;
      assert xs == front + [x];
    }
  }

  lemma {:induction false} StatesPartition(cfg: Config, t: Table, now: Instant, members: seq<Member>)
    ensures multiset(WithState(cfg, t, now, members, true)) + multiset(WithState(cfg, t, now, members, false)) == multiset(members)
  {
    if members != [] {
      StatesPartition(cfg, t, now, members[..|members| - 1]);
      assert members == members[..|members| - 1] + [members[|members| - 1]];
    }
  }

  lemma {:induction false} StateOfKept(cfg: Config, t: Table, now: Instant, members: seq<Member>, b: bool)
    ensures forall m :: m in WithState(cfg, t, now, members, b)
                        <==> m in members && MemberState(cfg, t, now, m.model).0 == b
  {
    if members != [] {
      var front, last := members[..|members| - 1], members[|members| - 1];
      StateOfKept(cfg, t, now, front, b);
      assert members == front + [last];
    }
  }

  // Where each target of a group plan comes from.
  ghost predicate FromMember(cfg: Config, g: Group, x: Target) {
    exists i | 0 <= i < |g.members| :: g.Eligible(g.members[i]) && x == MemberTarget(cfg, g, g.members[i])
  }

  // When some member is ready, the plan tries exactly the ready ones and skips exactly the others, in order.
  lemma ReadyMembersArePlanned(cfg: Config, t: Table, now: Instant, g: Group, ordered: seq<Member>)
    requires exists m | m in ordered :: MemberState(cfg, t, now, m.model).0
    ensures GroupPlan(cfg, t, now, g, ordered).Planned?
    ensures var p := GroupPlan(cfg, t, now, g, ordered).plan;
            && (forall x | x in p.targets :: MemberState(cfg, t, now, x.model).0)
            && (forall n | n in p.skipped :: !MemberState(cfg, t, now, n).0)
            && multiset(ordered) == multiset(WithState(cfg, t, now, ordered, true)) + multiset(WithState(cfg, t, now, ordered, false))
            && p.targets == AsTargets(cfg, g, WithState(cfg, t, now, ordered, true))
            && p.skipped == Names(WithState(cfg, t, now, ordered, false))
  {
    hide MemberState, WithState, MemberExpectation;
    var ready, cooling := WithState(cfg, t, now, ordered, true), WithState(cfg, t, now, ordered, false);
    StatesPartition(cfg, t, now, ordered);
    StateOfKept(cfg, t, now, ordered, true);
    StateOfKept(cfg, t, now, ordered, false);
    var m :| m in ordered && MemberState(cfg, t, now, m.model).0;
    assert m in ready;
    forall x | x in AsTargets(cfg, g, ready) ensures MemberState(cfg, t, now, x.model).0 {
      var i :| 0 <= i < |ready| && x == MemberTarget(cfg, g, ready[i]);
      assert ready[i] in ready;
    }
    forall n | n in Names(cooling) ensures !MemberState(cfg, t, now, n).0 {
      var i :| 0 <= i < |cooling| && n == cooling[i].model;
      assert cooling[i] in cooling;
    }
  }

  // With every member ready, the plan has all of them in the order of the group's strategy: fallback as they are
  // listed, round-robin from the counter on, round and round.
  lemma ReadyPlansKeepTheOrder(cfg: Config, t: Table, now: Instant, requested: Name, g: Group, counter: nat, draws: Draws, k: nat)
    requires Usable(cfg) && FindVirtual(cfg, requested) == Some(g) && g.strategy != Manual && k < |g.members|
    requires forall m | m in g.members :: MemberState(cfg, t, now, m.model).0
    ensures var r := BuildPlan(cfg, t, now, requested, counter, draws);
            && r.Planned? && r.plan.isGroup && r.plan.skipped == [] && |r.plan.targets| == |g.members|
            && (g.strategy == Fallback ==> r.plan.targets[k].model == g.members[k].model)
            && (g.strategy == RoundRobin ==> r.plan.targets[k].model == g.members[(counter + k) % |g.members|].model)
            && (g.strategy == Random || g.strategy == Weighted ==>
                  |Ordering(g, counter, draws)| == |g.members| && r.plan.targets[k].model == Ordering(g, counter, draws)[k].model)
  {
    hide MemberState, WithState, Ordering, MemberExpectation, TotalTries;
    var ordered := Ordering(g, counter, draws);
    OrderKeepsMembers(g, counter, draws);
    FixedOrders(g, counter, draws, k);
    SameCount(ordered, g.members);
    AllInOneState(cfg, t, now, ordered, true);
    NoneInOtherState(cfg, t, now, ordered, true);
  }

  lemma {:induction false} NoneInOtherState(cfg: Config, t: Table, now: Instant, members: seq<Member>, b: bool)
    requires forall m | m in members :: MemberState(cfg, t, now, m.model).0 == b
    ensures WithState(cfg, t, now, members, !b) == []
  {
    if members != [] { NoneInOtherState(cfg, t, now, members[..|members| - 1], b); }
  }

  // When none is ready, a plan that is not refused tries them all in recovery order, and members that
  // recover at the same instant keep their place.
  lemma CoolingMembersAreSorted(cfg: Config, t: Table, now: Instant, g: Group, ordered: seq<Member>, k: Instant)
    requires forall m | m in ordered :: !MemberState(cfg, t, now, m.model).0
    ensures GroupPlan(cfg, t, now, g, ordered).Planned? <==> g.strategy != Manual && !g.failWhenAllCooling
    ensures GroupPlan(cfg, t, now, g, ordered).Planned? ==>
              var p := GroupPlan(cfg, t, now, g, ordered).plan;
              var key := (n: Name) => MemberState(cfg, t, now, n).1;
              && p.skipped == [] && SortedByKey(key, p.targets)
              && multiset(p.targets) == multiset(AsTargets(cfg, g, ordered))
              && KeyedAt(key, p.targets, k) == KeyedAt(key, AsTargets(cfg, g, ordered), k)
  {
    StateOfKept(cfg, t, now, ordered, true);
    var ready := WithState(cfg, t, now, ordered, true);
    assert ready != [] ==> ready[0] in ready;
    AllInOneState(cfg, t, now, ordered, false);
    StableSortIsStable(n => MemberState(cfg, t, now, n).1, AsTargets(cfg, g, ordered), k);
  }

  // An entry is refused exactly when a manual selection names no member, or when none of the members to try is
  // ready and the group is manual or told to fail then. The answer says which.
  lemma RefusalsSayWhy(cfg: Config, t: Table, now: Instant, g: Group, ordered: seq<Member>)
    ensures var r := GroupPlan(cfg, t, now, g, ordered);
            var noneReady := forall m | m in ordered :: !MemberState(cfg, t, now, m.model).0;
            && (r.Refused? <==> (g.strategy == Manual && ordered == []) || (noneReady && (g.strategy == Manual || g.failWhenAllCooling)))
            && (r.Refused? ==>
                  (r.failure.status, r.failure.code)
                  == if g.strategy != Manual then (429, "all_members_cooling_down")
                     else if ordered == [] then (400, "manual_member_invalid")
                     else (429, "manual_member_cooling_down"))
  {
    hide MemberState, WithState, AsTargets, StableSort, Capped, Names;
    StateOfKept(cfg, t, now, ordered, true);
    var ready := WithState(cfg, t, now, ordered, true);
    assert ready != [] ==> ready[0] in ready;
  }

  lemma TargetsComeFromMembers(cfg: Config, g: Group, members: seq<Member>)
    requires forall m | m in members :: m in g.members && g.Eligible(m)
    ensures forall x | x in AsTargets(cfg, g, members) :: FromMember(cfg, g, x)
  {
    hide MemberTarget;
    forall i | 0 <= i < |members| ensures FromMember(cfg, g, AsTargets(cfg, g, members)[i]) {
      assert members[i] in members;
    }
  }

  // Every target, whichever way the plan was made, is a member that the group may use, under that member's
  // own expectation and tries.
  lemma PlannedTargetsAreMembers(cfg: Config, t: Table, now: Instant, g: Group, counter: nat, draws: Draws)
    requires g.members != [] && GroupPlan(cfg, t, now, g, Ordering(g, counter, draws)).Planned?
    ensures forall x | x in GroupPlan(cfg, t, now, g, Ordering(g, counter, draws)).plan.targets :: FromMember(cfg, g, x)
  {
    hide MemberState, WithState, AsTargets, Ordering, StableSort, FromMember;
    var ordered := Ordering(g, counter, draws);
    OrderKeepsMembers(g, counter, draws);
    StateOfKept(cfg, t, now, ordered, true);
    StateOfKept(cfg, t, now, ordered, false);
    var ready, cooling := WithState(cfg, t, now, ordered, true), WithState(cfg, t, now, ordered, false);
    TargetsComeFromMembers(cfg, g, ready);
    TargetsComeFromMembers(cfg, g, cooling);
    var key := (n: Name) => MemberState(cfg, t, now, n).1;
    SortDependsOnKeysOnly(key, key, AsTargets(cfg, g, cooling));
  }

  // Denials add up and always win: a served name that the member's own list or its model's guard rule denies
  // is a mismatch, whatever the member or the rule accepts.
  lemma DenialsAlwaysWin(cfg: Config, g: Group, m: Member, pattern: string, actual: string)
    requires actual != "" && ModelScan(pattern, actual)
    requires var rule := FindRule(cfg.rules, m.model); pattern in m.deny || (rule.Some? && pattern in rule.value.deny)
    ensures var e := MemberExpectation(cfg, g, m); e.Some? && VerdictOn(e.value, actual) == Mismatch
  {
    hide ModelScan;
    var deny := MemberExpectation(cfg, g, m).value.deny;
    assert pattern in deny;
    var i :| 0 <= i < |deny| && deny[i] == pattern;
  }

  lemma {:induction false} AllInOneState(cfg: Config, t: Table, now: Instant, members: seq<Member>, b: bool)
    requires forall m | m in members :: MemberState(cfg, t, now, m.model).0 == b
    ensures WithState(cfg, t, now, members, b) == members
  {
    if members != [] { AllInOneState(cfg, t, now, members[..|members| - 1], b); }
  }
}
