// A request is cut off for want of attempts only when they are really used up: the 64 calls of the request, or
// the max_attempts of a group that it is inside of.
module ExhaustionLaws {
  import opened Config
  import opened Errors
  import opened Cooldown
  import opened Schedule
  import opened Planning
  import opened Transport
  import opened Routing
  import opened BudgetLaws
  import opened TraceLaws
  import opened PathLaws
  import opened RunLaws
  import opened ProgressLaws
  import opened CountLaws

  // The last thing that happened is that the request was cut off.
  predicate CutOff(tr: seq<Event>) {
    tr != [] && tr[|tr| - 1].Halted? && tr[|tr| - 1].failure.code == "attempt_budget_exhausted"
  }

  // Since this entry into a group with max_attempts, as many calls have been made.
  predicate SpentSince(tr: seq<Event>, j: int) {
    && 0 <= j < |tr| && tr[j].Drafted? && tr[j].group.Some?
    && tr[j].group.value.maxAttempts > 0 && CallCount(tr[j..]) == tr[j].group.value.maxAttempts
  }

  predicate AnyEmpty(budgets: seq<int>) {
    exists k | 0 <= k < |budgets| :: budgets[k] <= 0
  }

  ghost predicate Earned(w: World) {
    CutOff(w.trace) ==> w.remaining <= 0 || AnyEmpty(w.budgets) || exists j :: SpentSince(w.trace, j)
  }

  lemma RefusalsAreEarned(w: World, path: seq<Name>)
    requires Refusal(w, path).Some?
    ensures Earned(Halt(w, Refusal(w, path).value))
  {
  }

  lemma CancelledIsNotCutOff(w: World, m: string)
    ensures Earned(Halt(w, RequestCancelled(m)))
  {
  }

  lemma EndsOtherwise(w: World)
    requires w.trace != [] && !w.trace[|w.trace| - 1].Halted?
    ensures Earned(w)
  {
  }

  lemma {:induction false} TriesAreEarned(env: Env, cfg: Config, req: Req, p: Plan, t: Target, try: nat, attempts: nat,
                                          last: Option<Failure>, mismatch: Option<string>, w: World)
    requires Earned(w)
    ensures Earned(Tries(env, cfg, req, p, t, try, attempts, last, mismatch, w).1)
    decreases t.tries - try
  {
    hide Tries, NextAttempt, Classify, Failover, MismatchMessage, MismatchFailure, UpstreamFailure, FailureEvent, Refusal, OrUnknown,
         Earned;
    var w' := Tries(env, cfg, req, p, t, try, attempts, last, mismatch, w).1;
    if try < t.tries && attempts < p.maxAttempts {
      TriesStep(env, cfg, req, p, t, try, attempts, last, mismatch, w);
      if Refusal(w, req.path).Some? {
        RefusalsAreEarned(w, req.path);
      } else {
        var a, w1 := NextAttempt(env, w, t), Call(env, req, t, w);
        if a.outcome.Mismatched? {
          EndsOtherwise(w1);
          TriesAreEarned(env, cfg, req, p, t, try + 1, attempts + 1, last, Some(OrUnknown(a.outcome.actual)), w1);
        } else if a.outcome.Cancelled? {
          CancelledIsNotCutOff(w1, a.outcome.message);
        } else {
          EndsOtherwise(w');
        }
      }
    } else {
      TriesEnd(env, cfg, req, p, t, try, attempts, last, mismatch, w);
      if mismatch.Some? { EndsOtherwise(w'); }
    }
  }

  lemma FinishIsEarned(req: Req, p: Plan, attempts: nat, last: Option<Failure>, w: World)
    requires Earned(w)
    ensures Earned(Finish(req, p, attempts, last, w).1)
  {
    hide FinalFailure;
  }

  lemma {:induction false} TargetsAreEarned(env: Env, cfg: Config, req: Req, p: Plan, i: nat, attempts: nat, last: Option<Failure>, w: World)
    requires Usable(cfg) && |req.path| <= MAX_GROUP_DEPTH && i <= |p.targets| && Earned(w)
    ensures Earned(Targets(env, cfg, req, p, i, attempts, last, w).1)
    decreases MAX_GROUP_DEPTH - |req.path|, 1, |p.targets| - i
  {
    hide Tries, Run, Finish, FailsOver, Guarded, Earned, TerminalCode;
    if i == |p.targets| {
      FinishIsEarned(req, p, attempts, last, w);
    } else if IsGroup(cfg, p.targets[i].model) {
      var child := req.(model := p.targets[i].model);
      RunIsEarned(env, cfg, child, w);
      var (r1, w1) := Run(env, cfg, child, w);
      if r1.Rejected? && !Terminal(r1.failure) && FailsOver(r1.failure, p.failoverClient) {
        TargetsAreEarned(env, cfg, req, p, i + 1, attempts, Some(r1.failure), w1);
      }
    } else {
      var t := Guarded(cfg, req, p.targets[i]);
      TriesAreEarned(env, cfg, req, p, t, 0, attempts, last, None, w);
      var (x, w1) := Tries(env, cfg, req, p, t, 0, attempts, last, None, w);
      if x.Go? {
        if x.attempts >= p.maxAttempts {
          FinishIsEarned(req, p, x.attempts, x.last, w1);
        } else {
          TargetsAreEarned(env, cfg, req, p, i + 1, x.attempts, x.last, w1);
        }
      }
    }
  }

  lemma {:induction false} ExecuteIsEarned(env: Env, cfg: Config, req: Req, w: World)
    requires Usable(cfg) && |req.path| <= MAX_GROUP_DEPTH
    ensures Earned(Execute(env, cfg, req, w).1)
    decreases MAX_GROUP_DEPTH - |req.path|, 2, 0
  {
    hide PlanFor, Targets, Earned;
    var plan, w1 := PlanFor(env, cfg, req, w), AfterPlanning(env, cfg, req, w);
    EndsOtherwise(w1);
    if plan.Planned? { TargetsAreEarned(env, cfg, req, plan.plan, 0, 0, None, w1); }
  }

  // The group's own budget is given up on the way back; that it was empty is what its entry shows.
  lemma LeavingIsEarned(env: Env, cfg: Config, req: Req, w: World, g: Group)
    requires Usable(cfg) && |req.path| < MAX_GROUP_DEPTH && g.name !in req.path && FindVirtual(cfg, req.model) == Some(g)
    requires Earned(Execute(env, cfg, Entered(g, req), WithBudget(g, w)).1)
    ensures Earned(Run(env, cfg, req, w).1)
  {
    hide Execute, Chronicle, CutOff, CallCount, SpentSince;
    var inner, w1 := Entered(g, req), WithBudget(g, w);
    var w2, w' := Execute(env, cfg, inner, w1).1, Run(env, cfg, req, w).1;
    ExecutePays(env, cfg, inner, w1);
    if CutOff(w2.trace) && w2.remaining > 0 && AnyEmpty(w2.budgets) {
      var k :| 0 <= k < |w2.budgets| && w2.budgets[k] <= 0;
      if k < |w.budgets| {
        assert w'.budgets[k] == w2.budgets[k];
      } else {
        assert w1.budgets[|w.budgets|] == g.maxAttempts && k == |w.budgets|;
        GroupBudgetHolds(env, cfg, req, w, g);
        OwnEntryIsSpent(env, cfg, inner, w1, g);
      }
    }
  }

  lemma OwnEntryIsSpent(env: Env, cfg: Config, req: Req, w: World, g: Group)
    requires Usable(cfg) && |req.path| <= MAX_GROUP_DEPTH && FindVirtual(cfg, req.model) == Some(g) && g.maxAttempts > 0
    requires Execute(env, cfg, req, w).1.calls - w.calls == g.maxAttempts
    ensures SpentSince(Execute(env, cfg, req, w).1.trace, |w.trace|)
  {
    hide PlanFor, Targets, CallCount, Posted, Orderly, Announces;
    var (r, w') := Execute(env, cfg, req, w);
    ExecuteTrace(env, cfg, req, w);
    PostedParts(LedgerOf(w), New(w, w'));
    EntryIsThere(env, cfg, req, w);
  }

  lemma EntryIsThere(env: Env, cfg: Config, req: Req, w: World)
    requires Usable(cfg) && |req.path| <= MAX_GROUP_DEPTH
    ensures var tr := Execute(env, cfg, req, w).1.trace;
            w.trace <= tr && |w.trace| < |tr| && tr[|w.trace|].Drafted? && tr[|w.trace|].group == FindVirtual(cfg, req.model)
  {
    hide PlanFor, Targets, Chronicle, Logged, FindVirtual;
    var plan, w1 := PlanFor(env, cfg, req, w), AfterPlanning(env, cfg, req, w);
    if plan.Planned? {
      var (r, w') := Targets(env, cfg, req, plan.plan, 0, 0, None, w1);
      TargetsTrace(env, cfg, req, plan.plan, 0, 0, None, w1);
      ChronicleExtends(w1, r, w');
      assert w'.trace[|w.trace|] == w1.trace[|w.trace|];
    }
  }

  lemma ChronicleExtends(w: World, r: Result, w': World)
    requires Chronicle(w, r, w')
    ensures w.trace <= w'.trace
  {
    hide Logged, Orderly, Announces;
    LoggedExtends(w, w');
  }

  lemma ShapeFaultsAreNotCutOffs(w: World)
    ensures Earned(Halt(w, GROUP_CYCLE)) && Earned(Halt(w, TOO_DEEP))
  {
  }

  lemma {:induction false} RunIsEarned(env: Env, cfg: Config, req: Req, w: World)
    requires Usable(cfg) && |req.path| <= MAX_GROUP_DEPTH
    ensures Earned(Run(env, cfg, req, w).1)
    decreases MAX_GROUP_DEPTH - |req.path|, if IsGroup(cfg, req.model) then 0 else 3, 0
  {
    hide Execute, Earned;
    var g := FindVirtual(cfg, req.model);
    ShapeFaultsAreNotCutOffs(w);
    if g.None? {
      ExecuteIsEarned(env, cfg, req, w);
    } else if g.value.name !in req.path && |req.path| < MAX_GROUP_DEPTH {
      ExecuteIsEarned(env, cfg, Entered(g.value, req), WithBudget(g.value, w));
      LeavingIsEarned(env, cfg, req, w, g.value);
    }
  }

  // A request that is cut off for want of attempts has made all 64 calls, or else all the calls that a group it
  // has entered is configured to make at most, since it entered that group.
  lemma CutOffsAreEarned(env: Env, cfg: Config, model: Name, found: Found, i: nat)
    requires Usable(cfg)
    requires var tr := Handled(env, cfg, model, found).1.trace;
             i < |tr| && tr[i].Halted? && tr[i].failure.code == "attempt_budget_exhausted"
    ensures var tr := Handled(env, cfg, model, found).1.trace; CallCount(tr) == 64 || exists j :: SpentSince(tr, j)
  {
    hide Run, Orderly, Announces, Proper, AllProper, Numbered, OpenedStreams, StoreChanges, Output, CountersAfter, Readings, CallCount;
    HaltsReachTheClient(env, cfg, model, found, i);
    RunIsEarned(env, cfg, RootRequest(model), RootWorld(found));
    RequestBudgetHolds(env, cfg, model, found);
    RequestParts(env, cfg, model, found);
  }

  // ---- a group of leaves ----

  // The one budget in force is that of the group, which its plan keeps within.
  predicate OwnBudget(g: Group, p: Plan, attempts: int, w: World) {
    if g.maxAttempts > 0 then w.budgets == [g.maxAttempts - attempts] && p.maxAttempts <= g.maxAttempts else w.budgets == []
  }

  predicate Flat(cfg: Config, g: Group) {
    forall m | m in g.members :: !IsGroup(cfg, m.model)
  }

  // Where the request's own budget is not used up, it is not cut off.
  predicate Uncut(w: World) {
    CutOff(w.trace) ==> w.remaining <= 0
  }

  lemma FlatRefusal(g: Group, p: Plan, attempts: int, w: World, path: seq<Name>)
    requires OwnBudget(g, p, attempts, w) && attempts < p.maxAttempts
    ensures Refusal(w, path).Some? ==> w.remaining <= 0
  {
  }

  lemma EndsUncut(w: World)
    requires w.trace != [] && !w.trace[|w.trace| - 1].Halted?
    ensures Uncut(w)
  {
  }

  lemma CancelledIsUncut(w: World, m: string)
    ensures Uncut(Halt(w, RequestCancelled(m)))
  {
  }

  lemma {:induction false} FlatTries(env: Env, cfg: Config, req: Req, g: Group, p: Plan, t: Target, try: nat, attempts: nat,
                                     last: Option<Failure>, mismatch: Option<string>, w: World)
    requires OwnBudget(g, p, attempts, w) && Uncut(w)
    ensures var (x, w') := Tries(env, cfg, req, p, t, try, attempts, last, mismatch, w);
            Uncut(w') && (x.Go? ==> OwnBudget(g, p, x.attempts, w'))
    decreases t.tries - try
  {
    hide Tries, NextAttempt, Classify, Failover, MismatchMessage, MismatchFailure, UpstreamFailure, FailureEvent, Refusal, OrUnknown,
         Uncut, CutOff;
    var (x, w') := Tries(env, cfg, req, p, t, try, attempts, last, mismatch, w);
    if try < t.tries && attempts < p.maxAttempts {
      TriesStep(env, cfg, req, p, t, try, attempts, last, mismatch, w);
      FlatRefusal(g, p, attempts, w, req.path);
      if Refusal(w, req.path).Some? {
        RefusedForGood(w, req.path);
      } else {
        var a, w1 := NextAttempt(env, w, t), Call(env, req, t, w);
        assert Decremented(w.budgets) == if g.maxAttempts > 0 then [g.maxAttempts - (attempts + 1)] else [];
        if a.outcome.Mismatched? {
          EndsUncut(w1);
          FlatTries(env, cfg, req, g, p, t, try + 1, attempts + 1, last, Some(OrUnknown(a.outcome.actual)), w1);
        } else if a.outcome.Cancelled? {
          CancelledIsUncut(w1, a.outcome.message);
        } else {
          EndsUncut(w');
        }
      }
    } else {
      TriesEnd(env, cfg, req, p, t, try, attempts, last, mismatch, w);
      if mismatch.Some? { EndsUncut(w'); }
    }
  }

  lemma RefusedForGood(w: World, path: seq<Name>)
    requires Refusal(w, path).Some? && w.remaining <= 0
    ensures Uncut(Halt(w, Refusal(w, path).value))
  {
  }

  lemma {:induction false} FlatTargets(env: Env, cfg: Config, req: Req, g: Group, p: Plan, i: nat, attempts: nat,
                                       last: Option<Failure>, w: World)
    requires Usable(cfg) && |req.path| == 1 && i <= |p.targets| && forall t | t in p.targets :: !IsGroup(cfg, t.model)
    requires OwnBudget(g, p, attempts, w) && Uncut(w)
    ensures Uncut(Targets(env, cfg, req, p, i, attempts, last, w).1)
    decreases |p.targets| - i
  {
    hide Tries, FinalFailure, Guarded, Uncut, OwnBudget;
    if i < |p.targets| {
      assert p.targets[i] in p.targets;
      var t := Guarded(cfg, req, p.targets[i]);
      FlatTries(env, cfg, req, g, p, t, 0, attempts, last, None, w);
      var (x, w1) := Tries(env, cfg, req, p, t, 0, attempts, last, None, w);
      if x.Go? && x.attempts < p.maxAttempts { FlatTargets(env, cfg, req, g, p, i + 1, x.attempts, x.last, w1); }
    }
  }

  lemma PlanIsWithinBudget(cfg: Config, t: Table, now: Instant, g: Group, counter: nat, draws: Draws)
    requires g.members != [] && GroupPlan(cfg, t, now, g, Ordering(g, counter, draws)).Planned? && Flat(cfg, g)
    ensures var p := GroupPlan(cfg, t, now, g, Ordering(g, counter, draws)).plan;
            && (g.maxAttempts > 0 ==> p.maxAttempts <= g.maxAttempts)
            && forall x | x in p.targets :: !IsGroup(cfg, x.model)
  {
    hide MemberState, WithState, AsTargets, Ordering, StableSort, TotalTries, FromMember, IsGroup;
    PlannedTargetsAreMembers(cfg, t, now, g, counter, draws);
    var p := GroupPlan(cfg, t, now, g, Ordering(g, counter, draws)).plan;
    forall x | x in p.targets ensures !IsGroup(cfg, x.model) { MemberOf(cfg, g, x); }
  }

  lemma MemberOf(cfg: Config, g: Group, x: Target)
    requires FromMember(cfg, g, x)
    ensures exists m | m in g.members :: m.model == x.model
  {
  }

  // A group of leaves, requested as such, keeps within its max_attempts by itself: it fails with what its last
  // member failed with, and is never cut off, unless the request has made its 64 calls.
  lemma FlatGroupsAreNotCutOff(env: Env, cfg: Config, model: Name, found: Found, g: Group)
    requires Usable(cfg) && FindVirtual(cfg, model) == Some(g) && Flat(cfg, g)
    ensures var w' := Handled(env, cfg, model, found).1; CutOff(w'.trace) ==> CallCount(w'.trace) == 64
  {
    hide Targets, GroupPlan, Ordering, CutOff, Flat, OpenedStreams, StoreChanges, Output, CountersAfter, Readings, CallCount, Orderly,
         Announces, Proper, AllProper, Numbered;
    var req, root := RootRequest(model), RootWorld(found);
    var inner, w1 := Entered(g, req), WithBudget(g, root);
    var plan, w2 := PlanFor(env, cfg, inner, w1), AfterPlanning(env, cfg, inner, w1);
    assert CutOff(w2.trace) ==> false by { EndsUncutly(w2); }
    if plan.Planned? {
      PlanIsWithinBudget(cfg, root.store, env.clock(root.ticks), g, CounterOf(root.counters, g), env.draws(root.ticks));
      FlatTargets(env, cfg, inner, g, plan.plan, 0, 0, None, w2);
    }
    RequestBudgetHolds(env, cfg, model, found);
    RequestParts(env, cfg, model, found);
  }

  lemma EndsUncutly(w: World)
    requires w.trace != [] && !w.trace[|w.trace| - 1].Halted?
    ensures !CutOff(w.trace)
  {
  }

  // ---- own calls alone ----

  // Where the request is cut off, the group's own calls had not used up its plan.
  predicate Unspent(p: Plan, attempts: int, w: World, w': World, path: seq<Name>) {
    w.trace <= w'.trace && (CutOff(w'.trace) ==> attempts + OwnCalls(w'.trace, |w.trace|, path) < p.maxAttempts)
  }

  lemma UnspentOn(p: Plan, attempts: int, n: int, w: World, w1: World, w2: World, path: seq<Name>)
    requires Counted(w, w1, path, n) && Unspent(p, attempts + n, w1, w2, path)
    ensures Unspent(p, attempts, w, w2, path)
  {
    hide OwnCalls, CutOff;
    CountOn(w, w1, w2, path, n, OwnCalls(w2.trace, |w1.trace|, path));
  }

  lemma NotCutOffUnspent(p: Plan, attempts: int, w: World, w': World, path: seq<Name>)
    requires w.trace <= w'.trace && !CutOff(w'.trace)
    ensures Unspent(p, attempts, w, w', path)
  {
  }

  lemma {:induction false} TriesUnspent(env: Env, cfg: Config, req: Req, p: Plan, t: Target, try: nat, attempts: nat,
                                        last: Option<Failure>, mismatch: Option<string>, w: World)
    requires !CutOff(w.trace)
    ensures var (x, w') := Tries(env, cfg, req, p, t, try, attempts, last, mismatch, w);
            Unspent(p, attempts, w, w', req.path) && (x.Go? ==> !CutOff(w'.trace))
    decreases t.tries - try
  {
    hide Tries, NextAttempt, Classify, Failover, MismatchMessage, MismatchFailure, UpstreamFailure, FailureEvent, Refusal, OrUnknown,
         Unspent, OwnCalls, Counted;
    var path := req.path;
    var (x, w') := Tries(env, cfg, req, p, t, try, attempts, last, mismatch, w);
    if try < t.tries && attempts < p.maxAttempts {
      TriesStep(env, cfg, req, p, t, try, attempts, last, mismatch, w);
      if Refusal(w, path).Some? {
        HaltUnspent(p, attempts, w, Refusal(w, path).value, path);
      } else {
        var a, w1 := NextAttempt(env, w, t), Call(env, req, t, w);
        CountOne(w, Called(w.calls, t.model, path, t.expectation, a), w1);
        if a.outcome.Mismatched? {
          TriesUnspent(env, cfg, req, p, t, try + 1, attempts + 1, last, Some(OrUnknown(a.outcome.actual)), w1);
          UnspentOn(p, attempts, 1, w, w1, w', path);
        } else {
          NotCutOffUnspent(p, attempts, w, w', path);
        }
      }
    } else {
      TriesEnd(env, cfg, req, p, t, try, attempts, last, mismatch, w);
      NotCutOffUnspent(p, attempts, w, w', path);
    }
  }

  lemma HaltUnspent(p: Plan, attempts: int, w: World, f: Failure, path: seq<Name>)
    requires attempts < p.maxAttempts
    ensures Unspent(p, attempts, w, Halt(w, f), path)
  {
    CountNone(w, Halt(w, f), path);
  }

  lemma {:induction false} TargetsUnspent(env: Env, cfg: Config, req: Req, p: Plan, i: nat, attempts: nat, last: Option<Failure>, w: World)
    requires Usable(cfg) && |req.path| == 1 && i <= |p.targets| && attempts < p.maxAttempts && !CutOff(w.trace)
    ensures Unspent(p, attempts, w, Targets(env, cfg, req, p, i, attempts, last, w).1, req.path)
    decreases |p.targets| - i
  {
    hide Tries, Run, FinalFailure, FailsOver, Guarded, Unspent, Counted, OwnCalls, TerminalCode;
    var path := req.path;
    var (r, w') := Targets(env, cfg, req, p, i, attempts, last, w);
    if i == |p.targets| {
      NotCutOffUnspent(p, attempts, w, w', path);
    } else if IsGroup(cfg, p.targets[i].model) {
      var child := req.(model := p.targets[i].model);
      ChildIsNotCounted(env, cfg, child, w, FindVirtual(cfg, child.model).value);
      var (r1, w1) := Run(env, cfg, child, w);
      if r1.Rejected? && !Terminal(r1.failure) && FailsOver(r1.failure, p.failoverClient) {
        OnlyTerminalCutsOff(env, cfg, child, w);
        TargetsUnspent(env, cfg, req, p, i + 1, attempts, Some(r1.failure), w1);
        UnspentOn(p, attempts, 0, w, w1, w', path);
      } else {
        ChildUnspent(p, attempts, w, w1, path);
      }
    } else {
      var t := Guarded(cfg, req, p.targets[i]);
      TriesUnspent(env, cfg, req, p, t, 0, attempts, last, None, w);
      TriesAreCounted(env, cfg, req, p, t, 0, attempts, last, None, w);
      var (x, w1) := Tries(env, cfg, req, p, t, 0, attempts, last, None, w);
      if x.Go? {
        if x.attempts < p.maxAttempts {
          TargetsUnspent(env, cfg, req, p, i + 1, x.attempts, x.last, w1);
        } else {
          NotCutOffUnspent(p, x.attempts, w1, w', path);
        }
        UnspentOn(p, attempts, x.attempts - attempts, w, w1, w', path);
      }
    }
  }

  lemma ChildUnspent(p: Plan, attempts: int, w: World, w': World, path: seq<Name>)
    requires Counted(w, w', path, 0) && attempts < p.maxAttempts
    ensures Unspent(p, attempts, w, w', path)
  {
  }

  // What goes on has not been cut off.
  lemma OnlyTerminalCutsOff(env: Env, cfg: Config, req: Req, w: World)
    requires Usable(cfg) && |req.path| <= MAX_GROUP_DEPTH && !CutOff(w.trace)
    requires var r := Run(env, cfg, req, w).0; r.Rejected? && !Terminal(r.failure)
    ensures !CutOff(Run(env, cfg, req, w).1.trace)
  {
    hide Run, Orderly, Posted, Announces;
    var (r, w') := Run(env, cfg, req, w);
    RunTrace(env, cfg, req, w);
    LastHaltIsTerminal(New(w, w'), r);
    assert New(w, w') == [] ==> w'.trace == w.trace;
  }

  lemma LastHaltIsTerminal(tr: seq<Event>, r: Result)
    requires Orderly(tr, false) && Announces(tr, r)
    ensures tr != [] && tr[|tr| - 1].Halted? ==> r.Rejected? && Terminal(r.failure)
  {
    hide Orderly, Announces, TerminalCode;
    if tr != [] && tr[|tr| - 1].Halted? { HaltIsLast(tr, r, |tr| - 1); }
  }

  // A group with max_attempts m that is requested as such, and has made all of these m calls itself, is not cut
  // off: its failure is then that of its last member.
  lemma OwnCallsDoNotCutOff(env: Env, cfg: Config, model: Name, found: Found, g: Group)
    requires Usable(cfg) && FindVirtual(cfg, model) == Some(g) && g.maxAttempts > 0 && forall m | m in g.members :: m.maxRetries >= 0
    ensures var tr := Handled(env, cfg, model, found).1.trace; CutOff(tr) ==> OwnCalls(tr, 0, [g.name]) < g.maxAttempts
  {
    hide Targets, GroupPlan, Ordering, CutOff, OwnCalls, TotalTries;
    var req, root := RootRequest(model), RootWorld(found);
    var inner, w1 := Entered(g, req), WithBudget(g, root);
    var plan, w2 := PlanFor(env, cfg, inner, w1), AfterPlanning(env, cfg, inner, w1);
    EndsUncutly(w2);
    assert inner.path == [g.name];
    if plan.Planned? {
      var counter, draws := CounterOf(root.counters, g), env.draws(root.ticks);
      PlannedTargetsHaveTries(cfg, root.store, env.clock(root.ticks), g, counter, draws);
      PlansHaveTargets(cfg, root.store, env.clock(root.ticks), g, counter, draws);
      AttemptsAreLeft(g, plan.plan.targets);
      TargetsUnspent(env, cfg, inner, plan.plan, 0, 0, None, w2);
      CountNone(root, w2, inner.path);
      assert Execute(env, cfg, inner, w1) == Targets(env, cfg, inner, plan.plan, 0, 0, None, w2);
      assert Handled(env, cfg, model, found).1.trace == Targets(env, cfg, inner, plan.plan, 0, 0, None, w2).1.trace;
      CountOnAll(root, w2, Handled(env, cfg, model, found).1, inner.path);
    } else {
      assert Execute(env, cfg, inner, w1).1 == w2;
      assert Handled(env, cfg, model, found).1.trace == w2.trace;
    }
  }

  lemma CountOnAll(w: World, w1: World, w2: World, path: seq<Name>)
    requires Counted(w, w1, path, 0) && w1.trace <= w2.trace
    ensures OwnCalls(w2.trace, |w.trace|, path) == OwnCalls(w2.trace, |w1.trace|, path)
  {
    hide OwnCalls;
    CountOn(w, w1, w2, path, 0, OwnCalls(w2.trace, |w1.trace|, path));
  }
}
