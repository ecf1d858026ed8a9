// Which leaf calls a run can make: how each is reached, what guards it, and where it stops.
module PathLaws {
  import opened Config
  import opened Errors
  import opened Glob
  import opened Identity
  import opened Readiness
  import opened Planning
  import opened Transport
  import opened Routing

  // A chain of distinct groups, each entered through a member that the one above may use.
  ghost predicate Descent(cfg: Config, path: seq<Name>) {
    && |path| <= MAX_GROUP_DEPTH
    && (forall i | 0 <= i < |path| :: IsGroup(cfg, path[i]))
    && (forall i | 0 < i < |path| :: EligibleStep(cfg, path[i - 1], path[i]))
    && forall i, j | 0 <= i < j < |path| :: path[i] != path[j]
  }

  predicate GuardOn(cfg: Config, name: Name) {
    var g := FindVirtual(cfg, name);
    g.Some? && g.value.guard
  }

  predicate Protected(cfg: Config, path: seq<Name>) {
    exists i | 0 <= i < |path| :: GuardOn(cfg, path[i])
  }

  // The next step down from a path: anything at the root, an eligible member below.
  ghost predicate StepsTo(cfg: Config, path: seq<Name>, name: Name) {
    path != [] ==> EligibleStep(cfg, path[|path| - 1], name)
  }

  // A request on its way down, as prepareExecution left it.
  ghost predicate WellFormed(cfg: Config, req: Req) {
    Descent(cfg, req.path) && StepsTo(cfg, req.path, req.model) && req.guard == Protected(cfg, req.path)
  }

  // What a direct request has to be served by: the guard rule of the model, if there is one.
  ghost function RequestExpectation(cfg: Config, model: Name): Option<Expectation> {
    var rule := FindRule(cfg.rules, model);
    if rule.None? then None else Some(RuleExpectation(rule.value, model))
  }

  // What the i-th member of the last group on the path has to be served by: its own expectation, or, below a
  // guarded group, at least the default one.
  ghost predicate MemberExpects(cfg: Config, path: seq<Name>, i: int, leaf: Name, e: Option<Expectation>)
    requires path != []
  {
    && Chooses(cfg, path[|path| - 1], i, leaf)
    && var g := FindVirtual(cfg, path[|path| - 1]).value;
       var own := MemberExpectation(cfg, g, g.members[i]);
       e == if own == None && Protected(cfg, path) then Some(DefaultExpectation(cfg, leaf)) else own
  }

  // The expectation in force on a leaf reached by this path.
  ghost predicate Expected(cfg: Config, path: seq<Name>, leaf: Name, e: Option<Expectation>) {
    if path == [] then e == RequestExpectation(cfg, leaf) else exists i :: MemberExpects(cfg, path, i, leaf, e)
  }

  ghost predicate DeniedBy(deny: seq<string>, name: string) {
    exists k | 0 <= k < |deny| :: ModelScan(deny[k], name)
  }

  ghost predicate RuleDenies(cfg: Config, leaf: Name, name: string) {
    var rule := FindRule(cfg.rules, leaf); rule.Some? && DeniedBy(rule.value.deny, name)
  }

  ghost predicate MemberDenies(cfg: Config, path: seq<Name>, i: int, leaf: Name, name: string)
    requires path != []
  {
    var a := path[|path| - 1];
    Chooses(cfg, a, i, leaf) ==> DeniedBy(FindVirtual(cfg, a).value.members[i].deny, name)
  }

  // A served name that the guard rule of the leaf denies, or the list of the member by which it was reached
  // (every such member, should a group list the leaf more than once).
  ghost predicate Forbidden(cfg: Config, path: seq<Name>, leaf: Name, name: string) {
    name != "" && (RuleDenies(cfg, leaf, name)
                   || (path != [] && forall i :: MemberDenies(cfg, path, i, leaf, name)))
  }

  // The expectation in force never lets a forbidden name pass.
  lemma ForbiddenIsMismatch(cfg: Config, path: seq<Name>, leaf: Name, e: Option<Expectation>, name: string)
    requires Expected(cfg, path, leaf, e) && Forbidden(cfg, path, leaf, name)
    ensures Mismatching(e, name)
  {
    hide ModelScan, Protected;
    var rule := FindRule(cfg.rules, leaf);
    if path == [] {
      assert RuleDenies(cfg, leaf, name);
    } else {
      var i :| MemberExpects(cfg, path, i, leaf, e);
      var g := FindVirtual(cfg, path[|path| - 1]).value;
      var deny := if RuleDenies(cfg, leaf, name) then rule.value.deny else g.members[i].deny;
      assert MemberDenies(cfg, path, i, leaf, name) || RuleDenies(cfg, leaf, name);
      var k :| 0 <= k < |deny| && ModelScan(deny[k], name);
      assert deny[k] in deny;
      DenialsAlwaysWin(cfg, g, g.members[i], deny[k], name);
    }
  }

  // What every leaf call below a path satisfies: it names a leaf, reached by a descent that continues the
  // path; it carries the expectation that member, rule and guards impose; its outcome is the transport's
  // verdict on it.
  ghost predicate Proper(env: Env, cfg: Config, path: seq<Name>, model: Name, e: Event)
    requires e.Called?
  {
    && !IsGroup(cfg, e.leaf)
    && path <= e.path && Descent(cfg, e.path) && StepsTo(cfg, e.path, e.leaf)
    && Expected(cfg, e.path, e.leaf, e.expectation)
    && (e.path == [] ==> e.leaf == model)
    && (Protected(cfg, e.path) ==> e.expectation.Some?)
    && exists base :: e.attempt == AttemptOf(env.transport, env.model, e.index, e.expectation, base)
  }

  ghost predicate AllProper(env: Env, cfg: Config, path: seq<Name>, model: Name, w: World, w': World) {
    && w.trace <= w'.trace
    && forall i | |w.trace| <= i < |w'.trace| :: w'.trace[i].Called? ==> Proper(env, cfg, path, model, w'.trace[i])
  }

  lemma ProperOn(env: Env, cfg: Config, path: seq<Name>, model: Name, w: World, w1: World, w2: World)
    requires AllProper(env, cfg, path, model, w, w1) && AllProper(env, cfg, path, model, w1, w2)
    ensures AllProper(env, cfg, path, model, w, w2)
  {
    hide Proper;
    forall i | |w.trace| <= i < |w2.trace| && w2.trace[i].Called?
      ensures Proper(env, cfg, path, model, w2.trace[i])
    {
      if i < |w1.trace| { assert w2.trace[i] == w1.trace[i]; }
    }
  }

  // A target as planned for a request with this path.
  ghost predicate Allowed(cfg: Config, req: Req, t: Target) {
    if req.path == [] then
      t.model == req.model && !IsGroup(cfg, t.model) && t.expectation == RequestExpectation(cfg, t.model)
    else exists i :: MemberPlanned(cfg, req.path, i, t)
  }

  ghost predicate MemberPlanned(cfg: Config, path: seq<Name>, i: int, t: Target)
    requires path != []
  {
    && Chooses(cfg, path[|path| - 1], i, t.model)
    && var g := FindVirtual(cfg, path[|path| - 1]).value; t == MemberTarget(cfg, g, g.members[i])
  }

  // The same target with the inherited guard, as it is tried.
  ghost predicate Tryable(cfg: Config, req: Req, t: Target) {
    && !IsGroup(cfg, t.model) && StepsTo(cfg, req.path, t.model) && (req.path == [] ==> t.model == req.model)
    && Expected(cfg, req.path, t.model, t.expectation) && (Protected(cfg, req.path) ==> t.expectation.Some?)
  }

  lemma CallIsProper(env: Env, cfg: Config, req: Req, t: Target, w: World)
    requires Descent(cfg, req.path) && Tryable(cfg, req, t)
    ensures AllProper(env, cfg, req.path, req.model, w, Call(env, req, t, w))
  {
    hide AttemptOf, Expected;
    var a := NextAttempt(env, w, t);
    assert a == AttemptOf(env.transport, env.model, w.calls, t.expectation, |w.sink|);
  }

  predicate AddsNoCall(w: World, w': World) {
    w'.trace == w.trace || (|w'.trace| == |w.trace| + 1 && w'.trace[..|w.trace|] == w.trace && !w'.trace[|w.trace|].Called?)
  }

  lemma {:induction false} TriesAreProper(env: Env, cfg: Config, req: Req, p: Plan, t: Target, try: nat, attempts: nat,
                                          last: Option<Failure>, mismatch: Option<string>, w: World)
    requires Descent(cfg, req.path) && Tryable(cfg, req, t)
    ensures AllProper(env, cfg, req.path, req.model, w, Tries(env, cfg, req, p, t, try, attempts, last, mismatch, w).1)
    decreases t.tries - try
  {
    hide NextAttempt, Proper, Descent, Tryable, Classify, Call, FailureEvent, MismatchMessage, MismatchFailure,
         UpstreamFailure, Refusal;
    var w2 := Tries(env, cfg, req, p, t, try, attempts, last, mismatch, w).1;
    if try < t.tries && attempts < p.maxAttempts && Refusal(w, req.path) == None {
      var a, w1 := NextAttempt(env, w, t), Call(env, req, t, w);
      CallIsProper(env, cfg, req, t, w);
      if a.outcome.Mismatched? {
        TriesAreProper(env, cfg, req, p, t, try + 1, attempts + 1, last, Some(OrUnknown(a.outcome.actual)), w1);
      } else {
        assert AddsNoCall(w1, w2);
      }
      ProperOn(env, cfg, req.path, req.model, w, w1, w2);
    } else {
      assert AddsNoCall(w, w2);
    }
  }

  lemma GuardedTargetIsTryable(cfg: Config, req: Req, t: Target)
    requires req.guard == Protected(cfg, req.path) && Allowed(cfg, req, t) && !IsGroup(cfg, t.model)
    ensures Tryable(cfg, req, Guarded(cfg, req, t))
  {
    hide Protected, MemberExpectation, FindRule;
    var t' := Guarded(cfg, req, t);
    if req.path == [] {
      NothingGuardsTheRoot(cfg);
    } else {
      var i :| MemberPlanned(cfg, req.path, i, t);
      assert MemberExpects(cfg, req.path, i, t.model, t'.expectation);
      assert EligibleStep(cfg, req.path[|req.path| - 1], t.model);
    }
  }

  lemma NothingGuardsTheRoot(cfg: Config)
    ensures !Protected(cfg, [])
  {
  }

  lemma ChildIsWellFormed(cfg: Config, req: Req, t: Target)
    requires Descent(cfg, req.path) && req.guard == Protected(cfg, req.path) && Allowed(cfg, req, t)
    ensures WellFormed(cfg, req.(model := t.model))
  {
    hide Descent, Protected, MemberTarget;
    if req.path != [] {
      var i :| MemberPlanned(cfg, req.path, i, t);
      assert EligibleStep(cfg, req.path[|req.path| - 1], t.model);
    }
  }

  // Below a group the frame's own model no longer matters.
  lemma ProperForParent(env: Env, cfg: Config, path: seq<Name>, model: Name, model': Name, w: World, w': World)
    requires path != [] && AllProper(env, cfg, path, model, w, w')
    ensures AllProper(env, cfg, path, model', w, w')
  {
    hide AttemptOf, Descent, Protected, Expected;
    forall i | |w.trace| <= i < |w'.trace| && w'.trace[i].Called? ensures Proper(env, cfg, path, model', w'.trace[i]) {
      assert Proper(env, cfg, path, model, w'.trace[i]);
    }
  }

  lemma FinishAddsNoCall(req: Req, p: Plan, attempts: nat, last: Option<Failure>, w: World)
    ensures AddsNoCall(w, Finish(req, p, attempts, last, w).1)
  {
    hide FinalFailure;
  }

  lemma {:induction false} TargetsAreProper(env: Env, cfg: Config, req: Req, p: Plan, i: nat, attempts: nat,
                                            last: Option<Failure>, w: World)
    requires Usable(cfg) && |req.path| <= MAX_GROUP_DEPTH && i <= |p.targets|
    requires Descent(cfg, req.path) && req.guard == Protected(cfg, req.path)
    requires forall t | t in p.targets :: Allowed(cfg, req, t)
    ensures AllProper(env, cfg, req.path, req.model, w, Targets(env, cfg, req, p, i, attempts, last, w).1)
    decreases MAX_GROUP_DEPTH - |req.path|, 1, |p.targets| - i
  {
    hide Tries, Run, Finish, FailsOver, Guarded, Proper, Descent, Protected, EligibleStep;
    var w' := Targets(env, cfg, req, p, i, attempts, last, w).1;
    if i == |p.targets| {
      FinishAddsNoCall(req, p, attempts, last, w);
    } else if IsGroup(cfg, p.targets[i].model) {
      var child := req.(model := p.targets[i].model);
      ChildIsWellFormed(cfg, req, p.targets[i]);
      RunIsProper(env, cfg, child, w);
      var (r1, w1) := Run(env, cfg, child, w);
      ProperForParent(env, cfg, req.path, child.model, req.model, w, w1);
      if r1.Rejected? && !Terminal(r1.failure) && FailsOver(r1.failure, p.failoverClient) {
        TargetsAreProper(env, cfg, req, p, i + 1, attempts, Some(r1.failure), w1);
        ProperOn(env, cfg, req.path, req.model, w, w1, w');
      }
    } else {
      assert Allowed(cfg, req, p.targets[i]);
      var t := Guarded(cfg, req, p.targets[i]);
      GuardedTargetIsTryable(cfg, req, p.targets[i]);
      TriesAreProper(env, cfg, req, p, t, 0, attempts, last, None, w);
      var (progress, w1) := Tries(env, cfg, req, p, t, 0, attempts, last, None, w);
      if progress.Go? {
        if progress.attempts >= p.maxAttempts {
          FinishAddsNoCall(req, p, progress.attempts, progress.last, w1);
        } else {
          TargetsAreProper(env, cfg, req, p, i + 1, progress.attempts, progress.last, w1);
        }
        ProperOn(env, cfg, req.path, req.model, w, w1, w');
      }
    }
  }

  // Planned targets are what the last group on the path may use, or the requested model itself.
  lemma PlannedTargetsAreAllowed(env: Env, cfg: Config, req: Req, w: World)
    requires Usable(cfg) && PlanFor(env, cfg, req, w).Planned?
    requires if req.path == [] then !IsGroup(cfg, req.model)
             else FindVirtual(cfg, req.path[|req.path| - 1]).Some? && req.model == req.path[|req.path| - 1]
    ensures forall t | t in PlanFor(env, cfg, req, w).plan.targets :: Allowed(cfg, req, t)
  {
    if req.path != [] {
      var g := FindVirtual(cfg, req.model).value;
      var counter, now, draws := CounterFor(cfg, w.counters, req.model), env.clock(w.ticks), env.draws(w.ticks);
      PlannedTargetsAreMembers(cfg, w.store, now, g, counter, draws);
      forall t | t in PlanFor(env, cfg, req, w).plan.targets ensures Allowed(cfg, req, t) {
        var i :| 0 <= i < |g.members| && g.Eligible(g.members[i]) && t == MemberTarget(cfg, g, g.members[i]);
        assert MemberPlanned(cfg, req.path, i, t);
      }
    }
  }

  lemma {:induction false} ExecuteIsProper(env: Env, cfg: Config, req: Req, w: World)
    requires Usable(cfg) && |req.path| <= MAX_GROUP_DEPTH
    requires Descent(cfg, req.path) && req.guard == Protected(cfg, req.path)
    requires if req.path == [] then !IsGroup(cfg, req.model) else req.model == req.path[|req.path| - 1]
    ensures AllProper(env, cfg, req.path, req.model, w, Execute(env, cfg, req, w).1)
    decreases MAX_GROUP_DEPTH - |req.path|, 2, 0
  {
    hide PlanFor, Targets, Proper;
    var plan := PlanFor(env, cfg, req, w);
    if plan.Planned? {
      PlannedTargetsAreAllowed(env, cfg, req, w);
      TargetsAreProper(env, cfg, req, plan.plan, 0, 0, None, AfterPlanning(env, cfg, req, w));
    }
  }

  lemma EnteredDescends(cfg: Config, req: Req, g: Group)
    requires WellFormed(cfg, req) && FindVirtual(cfg, req.model) == Some(g)
    requires g.name !in req.path && |req.path| < MAX_GROUP_DEPTH
    ensures Descent(cfg, Entered(g, req).path) && Entered(g, req).guard == Protected(cfg, Entered(g, req).path)
  {
    hide EligibleStep;
    var path := req.path + [g.name];
    forall i | 0 < i < |path| ensures EligibleStep(cfg, path[i - 1], path[i]) {
      if i < |req.path| { assert EligibleStep(cfg, req.path[i - 1], req.path[i]); }
    }
    if Protected(cfg, req.path) {
      var i :| 0 <= i < |req.path| && GuardOn(cfg, req.path[i]);
      assert GuardOn(cfg, path[i]);
    }
    assert GuardOn(cfg, path[|req.path|]) == g.guard;
  }

  // Every leaf call of every run is proper.
  lemma {:induction false} RunIsProper(env: Env, cfg: Config, req: Req, w: World)
    requires Usable(cfg) && |req.path| <= MAX_GROUP_DEPTH && WellFormed(cfg, req)
    requires req.path != [] ==> IsGroup(cfg, req.model)
    ensures AllProper(env, cfg, req.path, req.model, w, Run(env, cfg, req, w).1)
    decreases MAX_GROUP_DEPTH - |req.path|, if IsGroup(cfg, req.model) then 0 else 3, 0
  {
    hide Execute, Proper, Descent, Protected, EligibleStep;
    var g := FindVirtual(cfg, req.model);
    if g.None? {
      ExecuteIsProper(env, cfg, req, w);
    } else if g.value.name !in req.path && |req.path| < MAX_GROUP_DEPTH {
      var inner, w1 := Entered(g.value, req), WithBudget(g.value, w);
      EnteredDescends(cfg, req, g.value);
      ExecuteIsProper(env, cfg, inner, w1);
      ProperAbove(env, cfg, inner.path, req.path, req.model, w1, Execute(env, cfg, inner, w1).1);
    }
  }

  lemma ProperAbove(env: Env, cfg: Config, path: seq<Name>, above: seq<Name>, model: Name, w: World, w': World)
    requires above <= path && path != [] && AllProper(env, cfg, path, model, w, w')
    ensures AllProper(env, cfg, above, model, w, w')
  {
    hide AttemptOf, Descent, Protected, Expected;
    forall i | |w.trace| <= i < |w'.trace| && w'.trace[i].Called? ensures Proper(env, cfg, above, model, w'.trace[i]) {
      assert Proper(env, cfg, path, model, w'.trace[i]);
    }
  }
}
