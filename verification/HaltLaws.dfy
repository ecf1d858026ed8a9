// Terminal failures: where they can come from, and that an accepted configuration never meets a cycle.
module HaltLaws {
  import opened Config
  import opened Errors
  import opened Cooldown
  import opened GroupGraph
  import opened Readiness
  import opened Schedule
  import opened Planning
  import opened Transport
  import opened Routing
  import opened PathLaws
  import opened RunLaws

  // No upstream error borrows one of the engine's own terminal codes.
  ghost predicate HostCodesDistinct(env: Env) {
    forall k, e, base ::
      var o := AttemptOf(env.transport, env.model, k, e, base).outcome;
      o.Erred? ==> !TerminalCode(o.error.code)
  }

  ghost predicate RaisedByHalt(r: Result, w: World) {
    r.Rejected? && Terminal(r.failure) ==> w.trace != [] && w.trace[|w.trace| - 1] == Halted(r.failure)
  }

  predicate Ordinary(last: Option<Failure>) {
    last.Some? ==> !Terminal(last.value)
  }

  lemma OwnCodesAreOrdinary(m: string)
    ensures !Terminal(MANUAL_INVALID) && !Terminal(ManualCooling(m)) && !Terminal(AllCooling(m))
    ensures !TerminalCode("model_mismatch_blocked") && !TerminalCode("no_upstream_available") && !TerminalCode("upstream_error")
  {
    assert "all_members_cooling_down"[1] != "attempt_budget_exhausted"[1];
  }

  lemma UpstreamFailureIsOrdinary(env: Env, w: World, t: Target, kind: Kind)
    requires HostCodesDistinct(env)
    ensures var o := NextAttempt(env, w, t).outcome; o.Erred? ==> !Terminal(UpstreamFailure(o.error, kind))
  {
    hide AttemptOf;
    var a := AttemptOf(env.transport, env.model, w.calls, t.expectation, |w.sink|);
    OwnCodesAreOrdinary("");
  }

  lemma {:induction false} TriesRaise(env: Env, cfg: Config, req: Req, p: Plan, t: Target, try: nat, attempts: nat,
                                      last: Option<Failure>, mismatch: Option<string>, w: World)
    requires HostCodesDistinct(env) && Ordinary(last)
    ensures var (progress, w') := Tries(env, cfg, req, p, t, try, attempts, last, mismatch, w);
            if progress.Stop? then RaisedByHalt(progress.result, w') else Ordinary(progress.last)
    decreases t.tries - try
  {
    hide Tries, NextAttempt, Classify, Call, Strike, Settle, Refusal, MismatchMessage, UpstreamFailure, HostCodesDistinct, TerminalCode;
    OwnCodesAreOrdinary("");
    if try < t.tries && attempts < p.maxAttempts {
      TriesStep(env, cfg, req, p, t, try, attempts, last, mismatch, w);
    } else {
      TriesEnd(env, cfg, req, p, t, try, attempts, last, mismatch, w);
    }
    if try < t.tries && attempts < p.maxAttempts && Refusal(w, req.path) == None {
      var a, w1 := NextAttempt(env, w, t), Call(env, req, t, w);
      if a.outcome.Erred? {
        UpstreamFailureIsOrdinary(env, w, t, Classify(a.outcome.error.status, a.outcome.error.message));
      }
      if a.outcome.Mismatched? {
        TriesRaise(env, cfg, req, p, t, try + 1, attempts + 1, last, Some(OrUnknown(a.outcome.actual)), w1);
      }
    }
  }

  lemma FinishRaises(req: Req, p: Plan, attempts: nat, last: Option<Failure>, w: World)
    requires Ordinary(last)
    ensures var (r, w') := Finish(req, p, attempts, last, w); RaisedByHalt(r, w')
  {
    hide Preamble, TerminalCode;
    OwnCodesAreOrdinary("");
  }

  lemma {:induction false} TargetsRaise(env: Env, cfg: Config, req: Req, p: Plan, i: nat, attempts: nat,
                                        last: Option<Failure>, w: World)
    requires Usable(cfg) && |req.path| <= MAX_GROUP_DEPTH && i <= |p.targets|
    requires HostCodesDistinct(env) && Ordinary(last)
    ensures var (r, w') := Targets(env, cfg, req, p, i, attempts, last, w); RaisedByHalt(r, w')
    decreases MAX_GROUP_DEPTH - |req.path|, 1, |p.targets| - i
  {
    hide Tries, Run, Finish, FailsOver, Guarded, HostCodesDistinct, TerminalCode;
    if i == |p.targets| {
      FinishRaises(req, p, attempts, last, w);
    } else if IsGroup(cfg, p.targets[i].model) {
      var child := req.(model := p.targets[i].model);
      RunRaises(env, cfg, child, w);
      var (r1, w1) := Run(env, cfg, child, w);
      if r1.Rejected? && !Terminal(r1.failure) && FailsOver(r1.failure, p.failoverClient) {
        TargetsRaise(env, cfg, req, p, i + 1, attempts, Some(r1.failure), w1);
      }
    } else {
      var t := Guarded(cfg, req, p.targets[i]);
      TriesRaise(env, cfg, req, p, t, 0, attempts, last, None, w);
      var (progress, w1) := Tries(env, cfg, req, p, t, 0, attempts, last, None, w);
      if progress.Go? {
        if progress.attempts >= p.maxAttempts {
          FinishRaises(req, p, progress.attempts, progress.last, w1);
        } else {
          TargetsRaise(env, cfg, req, p, i + 1, progress.attempts, progress.last, w1);
        }
      }
    }
  }

  lemma RefusedPlansAreOrdinary(env: Env, cfg: Config, req: Req, w: World)
    requires Usable(cfg) && PlanFor(env, cfg, req, w).Refused?
    ensures !Terminal(PlanFor(env, cfg, req, w).failure)
  {
    hide TerminalCode, Ordering, WithState, AsTargets, StableSort, DirectPlan, TotalTries;
    var g := FindVirtual(cfg, req.model).value;
    OwnCodesAreOrdinary(g.name);
    var ordered := Ordering(g, CounterFor(cfg, w.counters, req.model), env.draws(w.ticks));
    if ordered != [] { OwnCodesAreOrdinary(ordered[0].model); }
  }

  lemma {:induction false} ExecuteRaises(env: Env, cfg: Config, req: Req, w: World)
    requires Usable(cfg) && |req.path| <= MAX_GROUP_DEPTH && HostCodesDistinct(env)
    ensures var (r, w') := Execute(env, cfg, req, w); RaisedByHalt(r, w')
    decreases MAX_GROUP_DEPTH - |req.path|, 2, 0
  {
    hide PlanFor, Targets, HostCodesDistinct;
    var plan := PlanFor(env, cfg, req, w);
    if plan.Planned? {
      TargetsRaise(env, cfg, req, plan.plan, 0, 0, None, AfterPlanning(env, cfg, req, w));
    } else {
      RefusedPlansAreOrdinary(env, cfg, req, w);
    }
  }

  // A terminal failure at the end of any run was raised by the engine, as the run's last event.
  lemma {:induction false} RunRaises(env: Env, cfg: Config, req: Req, w: World)
    requires Usable(cfg) && |req.path| <= MAX_GROUP_DEPTH && HostCodesDistinct(env)
    ensures var (r, w') := Run(env, cfg, req, w); RaisedByHalt(r, w')
    decreases MAX_GROUP_DEPTH - |req.path|, if IsGroup(cfg, req.model) then 0 else 3, 0
  {
    hide Execute, HostCodesDistinct;
    var g := FindVirtual(cfg, req.model);
    if g.None? {
      ExecuteRaises(env, cfg, req, w);
    } else if g.value.name !in req.path && |req.path| < MAX_GROUP_DEPTH {
      ExecuteRaises(env, cfg, Entered(g.value, req), WithBudget(g.value, w));
    }
  }

  // With distinct host codes, a request fails terminally exactly when something below it halted, with
  // exactly that failure.
  lemma TerminalIffHalted(env: Env, cfg: Config, model: Name, found: Found, f: Failure)
    requires Usable(cfg) && HostCodesDistinct(env)
    ensures var (r, w') := Handled(env, cfg, model, found);
            r == Rejected(f) && Terminal(f) <==> exists i | 0 <= i < |w'.trace| :: w'.trace[i] == Halted(f)
  {
    hide Run, HostCodesDistinct;
    var (r, w') := Handled(env, cfg, model, found);
    RunRaises(env, cfg, RootRequest(model), RootWorld(found));
    if i :| 0 <= i < |w'.trace| && w'.trace[i] == Halted(f) {
      HaltsReachTheClient(env, cfg, model, found, i);
    }
  }

  // ---- accepted configurations ----

  // Halting for the shape of the group graph.
  predicate ShapeFault(e: Event) {
    e.Halted? && (e.failure.code == "group_cycle" || e.failure.code == "group_depth_exceeded")
  }

  predicate NoShapeFault(w: World, w': World) {
    w.trace <= w'.trace && forall i | |w.trace| <= i < |w'.trace| :: !ShapeFault(w'.trace[i])
  }

  lemma NoFaultOn(w: World, w1: World, w2: World)
    requires NoShapeFault(w, w1) && NoShapeFault(w1, w2)
    ensures NoShapeFault(w, w2)
  {
    hide ShapeFault;
    forall i | |w.trace| <= i < |w2.trace| ensures !ShapeFault(w2.trace[i]) {
      if i < |w1.trace| { assert w2.trace[i] == w1.trace[i]; }
    }
  }

  // A descent is a walk of the graph the engine runs on, and so is its next step.
  lemma DescentIsUnbroken(cfg: Config, path: seq<Name>, model: Name)
    requires Descent(cfg, path) && StepsTo(cfg, path, model)
    ensures Unbroken(cfg, path, model)
  {
    if IsGroup(cfg, model) {
      var graph, w := FirstOfEachName(cfg.groups), path + [model];
      forall i | 0 <= i < |w| ensures w[i] in graph { RuntimeLookup(cfg.groups, w[i]); }
      forall i | 0 < i < |w| ensures Edge(graph, w[i - 1], w[i]) {
        RuntimeLookup(cfg.groups, w[i - 1]);
        if i < |path| { assert EligibleStep(cfg, path[i - 1], path[i]); }
        var j :| Chooses(cfg, w[i - 1], j, w[i]);
        assert Refers(graph, w[i - 1], j);
      }
    }
  }

  lemma StepsKeepShape(env: Env, cfg: Config, req: Req, t: Target, w: World, model: Name, kind: Kind, m: string)
    ensures NoShapeFault(w, w) && NoShapeFault(w, Call(env, req, t, w)) && NoShapeFault(w, Settle(w, model))
    ensures NoShapeFault(w, Strike(env, cfg, w, model, kind, m)) && NoShapeFault(w, Halt(w, RequestCancelled(m)))
    ensures Refusal(w, req.path).Some? ==> NoShapeFault(w, Halt(w, Refusal(w, req.path).value))
  {
    hide NextAttempt, FailureEvent, AncestorExhausted;
    assert |"attempt_budget_exhausted"| == 24 && |"request_cancelled"| == 17;
    assert AncestorExhausted(req.path).code == "attempt_budget_exhausted" by { AncestorCode(req.path); }
  }

  lemma AncestorCode(path: seq<Name>)
    ensures AncestorExhausted(path).code == "attempt_budget_exhausted"
  {
  }

  lemma {:induction false} TriesKeepShape(env: Env, cfg: Config, req: Req, p: Plan, t: Target, try: nat, attempts: nat,
                                          last: Option<Failure>, mismatch: Option<string>, w: World)
    ensures NoShapeFault(w, Tries(env, cfg, req, p, t, try, attempts, last, mismatch, w).1)
    decreases t.tries - try
  {
    hide NextAttempt, Classify, MismatchMessage, MismatchFailure, UpstreamFailure, NoShapeFault, Call, Strike, Settle, Halt, Refusal;
    var w2 := Tries(env, cfg, req, p, t, try, attempts, last, mismatch, w).1;
    if try < t.tries && attempts < p.maxAttempts && Refusal(w, req.path) == None {
      var a, w1 := NextAttempt(env, w, t), Call(env, req, t, w);
      StepsKeepShape(env, cfg, req, t, w, t.model, Client, "");
      match a.outcome {
        case Served(_) => StepsKeepShape(env, cfg, req, t, w1, t.model, Client, "");
        case Cancelled(m) => StepsKeepShape(env, cfg, req, t, w1, t.model, Client, m);
        case Broke(e) => StepsKeepShape(env, cfg, req, t, w1, t.model, Classify(e.status, e.message), e.message);
        case Erred(e) => StepsKeepShape(env, cfg, req, t, w1, t.model, Classify(e.status, e.message), e.message);
        case Mismatched(actual) =>
          TriesKeepShape(env, cfg, req, p, t, try + 1, attempts + 1, last, Some(OrUnknown(actual)), w1);
      }
      NoFaultOn(w, w1, w2);
    } else {
      StepsKeepShape(env, cfg, req, t, w, t.model, ModelMismatch,
                     if mismatch.Some? then MismatchMessage(t.model, mismatch.value) else "");
    }
  }

  lemma FinishKeepsShape(req: Req, p: Plan, attempts: nat, last: Option<Failure>, w: World)
    ensures NoShapeFault(w, Finish(req, p, attempts, last, w).1)
  {
    hide FinalFailure;
    assert |"attempt_budget_exhausted"| == 24;
  }

  lemma {:induction false} TargetsKeepShape(env: Env, cfg: Config, req: Req, p: Plan, i: nat, attempts: nat,
                                            last: Option<Failure>, w: World)
    requires Usable(cfg) && |req.path| <= MAX_GROUP_DEPTH && i <= |p.targets|
    requires Bounded(FirstOfEachName(cfg.groups)) && Descent(cfg, req.path) && req.guard == Protected(cfg, req.path)
    requires forall t | t in p.targets :: Allowed(cfg, req, t)
    ensures NoShapeFault(w, Targets(env, cfg, req, p, i, attempts, last, w).1)
    decreases MAX_GROUP_DEPTH - |req.path|, 1, |p.targets| - i
  {
    hide Tries, Run, Finish, FailsOver, Guarded, Descent, Protected, EligibleStep, Bounded, ShapeFault;
    var w' := Targets(env, cfg, req, p, i, attempts, last, w).1;
    if i == |p.targets| {
      FinishKeepsShape(req, p, attempts, last, w);
    } else if IsGroup(cfg, p.targets[i].model) {
      var child := req.(model := p.targets[i].model);
      ChildIsWellFormed(cfg, req, p.targets[i]);
      RunKeepsShape(env, cfg, child, w);
      var (r1, w1) := Run(env, cfg, child, w);
      if r1.Rejected? && !Terminal(r1.failure) && FailsOver(r1.failure, p.failoverClient) {
        TargetsKeepShape(env, cfg, req, p, i + 1, attempts, Some(r1.failure), w1);
        NoFaultOn(w, w1, w');
      }
    } else {
      var t := Guarded(cfg, req, p.targets[i]);
      TriesKeepShape(env, cfg, req, p, t, 0, attempts, last, None, w);
      var (progress, w1) := Tries(env, cfg, req, p, t, 0, attempts, last, None, w);
      if progress.Go? {
        if progress.attempts >= p.maxAttempts {
          FinishKeepsShape(req, p, progress.attempts, progress.last, w1);
        } else {
          TargetsKeepShape(env, cfg, req, p, i + 1, progress.attempts, progress.last, w1);
        }
        NoFaultOn(w, w1, w');
      }
    }
  }

  lemma {:induction false} ExecuteKeepsShape(env: Env, cfg: Config, req: Req, w: World)
    requires Usable(cfg) && |req.path| <= MAX_GROUP_DEPTH
    requires Bounded(FirstOfEachName(cfg.groups)) && Descent(cfg, req.path) && req.guard == Protected(cfg, req.path)
    requires if req.path == [] then !IsGroup(cfg, req.model) else req.model == req.path[|req.path| - 1]
    ensures NoShapeFault(w, Execute(env, cfg, req, w).1)
    decreases MAX_GROUP_DEPTH - |req.path|, 2, 0
  {
    hide PlanFor, Targets, Bounded;
    var plan := PlanFor(env, cfg, req, w);
    if plan.Planned? {
      PlannedTargetsAreAllowed(env, cfg, req, w);
      TargetsKeepShape(env, cfg, req, plan.plan, 0, 0, None, AfterPlanning(env, cfg, req, w));
    }
  }

  // On a bounded graph neither shape check ever fires.
  lemma {:induction false} RunKeepsShape(env: Env, cfg: Config, req: Req, w: World)
    requires Usable(cfg) && |req.path| <= MAX_GROUP_DEPTH
    requires Bounded(FirstOfEachName(cfg.groups)) && WellFormed(cfg, req)
    requires req.path != [] ==> IsGroup(cfg, req.model)
    ensures NoShapeFault(w, Run(env, cfg, req, w).1)
    decreases MAX_GROUP_DEPTH - |req.path|, if IsGroup(cfg, req.model) then 0 else 3, 0
  {
    hide Execute, Descent, Protected, EligibleStep, Bounded;
    var g := FindVirtual(cfg, req.model);
    if g.None? {
      ExecuteKeepsShape(env, cfg, req, w);
    } else {
      DescentIsUnbroken(cfg, req.path, req.model);
      NotCutOff(cfg, req.path, req.model);
      EnteredDescends(cfg, req, g.value);
      ExecuteKeepsShape(env, cfg, Entered(g.value, req), WithBudget(g.value, w));
    }
  }

  // On a bounded graph no request ever produces a cycle or depth failure, whatever the host answers.
  lemma BoundedConfigsNeverFault(env: Env, cfg: Config, model: Name, found: Found)
    requires Usable(cfg) && Bounded(FirstOfEachName(cfg.groups))
    ensures var (r, w') := Handled(env, cfg, model, found);
            && (forall i | 0 <= i < |w'.trace| :: !ShapeFault(w'.trace[i]))
            && (HostCodesDistinct(env) && r.Rejected? ==>
                  r.failure.code != "group_cycle" && r.failure.code != "group_depth_exceeded")
  {
    hide Run, HostCodesDistinct, Bounded;
    var root := RootWorld(found);
    RootIsWellFormed(cfg, model);
    RunKeepsShape(env, cfg, RootRequest(model), root);
    if HostCodesDistinct(env) { RunRaises(env, cfg, RootRequest(model), root); }
  }

  // So validating the groups after normalisation, instead of as written, protects every request, with any names.
  lemma RevalidatedConfigsNeverFault(env: Env, groups: seq<Group>, cfg: Config, model: Name, found: Found)
    requires cfg.groups == UsableGroups(groups) && Acceptable(LastOfEachName(cfg.groups))
    ensures Usable(cfg) && forall i | 0 <= i < |Handled(env, cfg, model, found).1.trace| ::
                             !ShapeFault(Handled(env, cfg, model, found).1.trace[i])
  {
    hide Run, HostCodesDistinct, Acceptable, Bounded, ShapeFault;
    NormalizedIsClean(groups);
    NormalizedValidationIsExact(groups);
    BoundedConfigsNeverFault(env, cfg, model, found);
  }

  // A configuration of distinctly named groups that the validator accepts and normalisation cleans up never
  // produces a cycle or depth failure, whatever is requested and whatever the host answers.
  lemma ValidatedConfigsNeverFault(env: Env, groups: seq<Group>, cfg: Config, model: Name, found: Found)
    requires DistinctNames(groups) && Acceptable(LastOfEachName(groups)) && cfg.groups == UsableGroups(groups)
    ensures Usable(cfg)
    ensures var (r, w') := Handled(env, cfg, model, found);
            && (forall i | 0 <= i < |w'.trace| :: !ShapeFault(w'.trace[i]))
            && (HostCodesDistinct(env) && r.Rejected? ==>
                  r.failure.code != "group_cycle" && r.failure.code != "group_depth_exceeded")
  {
    hide Run, HostCodesDistinct, Acceptable, Bounded;
    NormalizedIsClean(groups);
    ValidatedConfigIsBounded(groups);
    BoundedConfigsNeverFault(env, cfg, model, found);
  }

  // ---- the accepted configuration that fails ----

  lemma TwoGroups(cfg: Config, a: Group, b: Group)
    requires cfg.groups == [a, b] && a.name == "a" && b.name == "b"
    ensures FindVirtual(cfg, "a") == Some(a) && FindVirtual(cfg, "b") == Some(b) && Usable(cfg) == (a.members != [] && b.members != [])
  {
    assert cfg.groups[1..] == [b] && "a"[0] != "b"[0];
  }

  // Two groups that have only each other are never ready, and no recovery of theirs is known.
  lemma CircleIsNeverReady(cfg: Config, t: Table, now: Instant, x: Group, y: Group)
    requires FindVirtual(cfg, x.name) == Some(x) && FindVirtual(cfg, y.name) == Some(y)
    requires |x.members| == 1 && x.members[0].model == y.name && |y.members| == 1 && y.members[0].model == x.name
    requires x.strategy == Fallback && y.strategy == Fallback && x.name != y.name
    ensures Availability(cfg, t, now, x.name, []) == (false, 0)
  {
    hide FindVirtual;
    var path := [x.name, y.name];
    assert [x.name] + [y.name] == path && [] + [x.name] == [x.name];
    assert x.name in path;
    assert Availability(cfg, t, now, x.name, path) == (false, 0);
    assert MembersFrom(cfg, t, now, y, 1, path, 0) == (false, 0);
    assert MembersFrom(cfg, t, now, y, 0, path, 0) == (false, 0);
    assert Availability(cfg, t, now, y.name, [x.name]) == (false, 0);
    assert MembersFrom(cfg, t, now, x, 1, [x.name], 0) == (false, 0);
    assert MembersFrom(cfg, t, now, x, 0, [x.name], 0) == (false, 0);
  }

  // So the plan of each goes for the other all the same, unless it is to fail while everything cools down.
  lemma CirclePlan(cfg: Config, t: Table, now: Instant, x: Group, y: Group, counter: nat, draws: Draws)
    requires FindVirtual(cfg, x.name) == Some(x) && FindVirtual(cfg, y.name) == Some(y)
    requires |x.members| == 1 && x.members[0].model == y.name && |y.members| == 1 && y.members[0].model == x.name
    requires x.strategy == Fallback && y.strategy == Fallback && x.name != y.name
    ensures var plan := GroupPlan(cfg, t, now, x, Ordering(x, counter, draws));
            if x.failWhenAllCooling then plan == Refused(AllCooling(x.name))
            else plan.Planned? && |plan.plan.targets| == 1 && plan.plan.targets[0].model == y.name && plan.plan.isGroup
  {
    hide FindVirtual, MemberState, AllCooling;
    CircleIsNeverReady(cfg, t, now, y, x);
    assert !MemberState(cfg, t, now, y.name).0 by { MemberStateIs(cfg, t, now, y.name); }
    var ordered := Ordering(x, counter, draws);
    assert ordered == [x.members[0]];
    CoolingMembersAreSorted(cfg, t, now, x, ordered, 0);
    NoneIsReady(cfg, t, now, x.members[0]);
    assert multiset([MemberTarget(cfg, x, x.members[0])]) == multiset(AsTargets(cfg, x, ordered)) by {
      assert AsTargets(cfg, x, ordered) == [MemberTarget(cfg, x, x.members[0])];
    }
    if !x.failWhenAllCooling {
      var targets := GroupPlan(cfg, t, now, x, ordered).plan.targets;
      OneTarget(targets, MemberTarget(cfg, x, x.members[0]));
    }
  }

  lemma MemberStateIs(cfg: Config, t: Table, now: Instant, model: Name)
    ensures MemberState(cfg, t, now, model) == Availability(cfg, t, now, model, [])
  {
  }

  lemma NoneIsReady(cfg: Config, t: Table, now: Instant, m: Member)
    requires !MemberState(cfg, t, now, m.model).0
    ensures WithState(cfg, t, now, [m], true) == []
  {
    hide MemberState;
    assert [m][..0] == [];
  }

  lemma OneTarget(targets: seq<Target>, x: Target)
    requires multiset(targets) == multiset([x])
    ensures targets == [x]
  {
    assert |targets| == |multiset(targets)| == 1;
    assert targets[0] in multiset(targets);
  }

  // Whatever host, clock, draws and earlier requests: a request for a group of such a circle comes back to it and
  // fails, unless the group refuses first because everything below it cools down.
  lemma CircleRuns(env: Env, cfg: Config, x: Group, y: Group, found: Found)
    requires Usable(cfg) && FindVirtual(cfg, x.name) == Some(x) && FindVirtual(cfg, y.name) == Some(y)
    requires |x.members| == 1 && x.members[0].model == y.name && |y.members| == 1 && y.members[0].model == x.name
    requires x.strategy == Fallback && y.strategy == Fallback && x.name != y.name
    ensures x.failWhenAllCooling ==> Handled(env, cfg, x.name, found).0 == Rejected(AllCooling(x.name))
    ensures !x.failWhenAllCooling && !y.failWhenAllCooling ==> Handled(env, cfg, x.name, found).0 == Rejected(GROUP_CYCLE)
  {
    hide FindVirtual, GroupPlan, Ordering, Finish, Tries, FailsOver, AllCooling;
    var root, req := RootWorld(found), RootRequest(x.name);
    var outer := WithBudget(x, root);
    CirclePlan(cfg, outer.store, env.clock(outer.ticks), x, y, CounterFor(cfg, outer.counters, x.name), env.draws(outer.ticks));
    var inReq, w1 := Entered(x, req), AfterPlanning(env, cfg, Entered(x, req), outer);
    assert inReq.path == [x.name] && x.name !in req.path;
    assert Run(env, cfg, req, root).0 == Execute(env, cfg, inReq, outer).0;
    if !x.failWhenAllCooling && !y.failWhenAllCooling {
      InnerCircleRuns(env, cfg, x, y, inReq.(model := y.name), w1);
      assert Terminal(GROUP_CYCLE);
      var plan := PlanFor(env, cfg, inReq, outer).plan;
      assert Targets(env, cfg, inReq, plan, 0, 0, None, w1).0 == Rejected(GROUP_CYCLE);
    }
  }

  lemma InnerCircleRuns(env: Env, cfg: Config, x: Group, y: Group, req: Req, w: World)
    requires Usable(cfg) && FindVirtual(cfg, x.name) == Some(x) && FindVirtual(cfg, y.name) == Some(y)
    requires |x.members| == 1 && x.members[0].model == y.name && |y.members| == 1 && y.members[0].model == x.name
    requires x.strategy == Fallback && y.strategy == Fallback && x.name != y.name && !y.failWhenAllCooling
    requires req.model == y.name && req.path == [x.name]
    ensures Run(env, cfg, req, w).0 == Rejected(GROUP_CYCLE)
  {
    hide FindVirtual, GroupPlan, Ordering, Finish, Tries, FailsOver;
    var inReq, inner := Entered(y, req), WithBudget(y, w);
    CirclePlan(cfg, inner.store, env.clock(inner.ticks), y, x, CounterFor(cfg, inner.counters, y.name), env.draws(inner.ticks));
    var plan, w1 := PlanFor(env, cfg, inReq, inner).plan, AfterPlanning(env, cfg, inReq, inner);
    var again := inReq.(model := x.name);
    assert inReq.path == [x.name, y.name] && x.name in again.path;
    assert Run(env, cfg, again, w1).0 == Rejected(GROUP_CYCLE);
    assert Terminal(GROUP_CYCLE);
    assert Targets(env, cfg, inReq, plan, 0, 0, None, w1).0 == Rejected(GROUP_CYCLE);
  }

  // The validator accepts these three groups, and on what normalisation keeps of them every request for the
  // first one fails on a cycle.
  lemma DuplicateNamesFailAtRunTime(env: Env, cfg: Config, found: Found)
    requires cfg.groups == UsableGroups([SingleMember("a", "b"), SingleMember("b", "a"), SingleMember("a", "leaf")])
    ensures Acceptable(LastOfEachName([SingleMember("a", "b"), SingleMember("b", "a"), SingleMember("a", "leaf")]))
    ensures Usable(cfg) && Handled(env, cfg, "a", found).0 == Rejected(GROUP_CYCLE)
  {
    hide Run, Acceptable, LastOfEachName, UsableGroups;
    var a, b, c := SingleMember("a", "b"), SingleMember("b", "a"), SingleMember("a", "leaf");
    DuplicatesAsValidated(a, b, c);
    DuplicatesAsKept(a, b, c);
    TwoGroups(cfg, a, b);
    assert "a"[0] != "b"[0];
    CircleRuns(env, cfg, a, b, found);
  }

  // An unsound graph need not fail: where both groups fail while everything cools down, requests for them are
  // refused before the circle closes, although the validator would reject it. So no condition on the graph
  // alone says which configurations can fail at run time.
  lemma CircleNeedNotFail(env: Env, cfg: Config, a: Group, b: Group, found: Found)
    requires a == SingleMember("a", "b").(failWhenAllCooling := true) && b == SingleMember("b", "a").(failWhenAllCooling := true)
    requires cfg.groups == [a, b]
    ensures !Acceptable(LastOfEachName(cfg.groups)) && Usable(cfg)
    ensures Handled(env, cfg, "a", found).0 == Rejected(AllCooling("a")) && Handled(env, cfg, "b", found).0 == Rejected(AllCooling("b"))
  {
    hide Run, LastOfEachName, AllCooling;
    assert "a"[0] != "b"[0];
    TwoGroups(cfg, a, b);
    CircleRuns(env, cfg, a, b, found);
    CircleRuns(env, cfg, b, a, found);
    DistinctLookupsAgree(cfg.groups);
    CircleIsCycle(a, b);
  }
}
