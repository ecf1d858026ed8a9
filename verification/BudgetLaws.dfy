// Attempt budgets over whole runs: what each leaf call costs and how many there can be.
module BudgetLaws {
  import opened Config
  import opened Errors
  import opened Planning
  import opened Routing

  // Between two worlds: every budget has paid exactly the calls made, and none was overdrawn by them.
  ghost predicate Pays(w: World, w': World) {
    && w.calls <= w'.calls
    && w'.remaining == w.remaining - (w'.calls - w.calls)
    && |w'.budgets| == |w.budgets|
    && (forall i | 0 <= i < |w.budgets| :: w'.budgets[i] == w.budgets[i] - (w'.calls - w.calls))
    && (w.calls < w'.calls ==> w'.remaining >= 0 && forall i | 0 <= i < |w.budgets| :: w'.budgets[i] >= 0)
  }

  lemma CallPays(env: Env, req: Req, t: Target, w: World)
    requires Refusal(w, req.path) == None
    ensures Pays(w, Call(env, req, t, w))
  {
  }

  lemma PaysOn(w: World, w1: World, w2: World)
    requires Pays(w, w1) && Pays(w1, w2)
    ensures Pays(w, w2)
  {
  }

  // Recording and halting cost nothing.
  predicate SameAccount(w: World, w': World) {
    w'.calls == w.calls && w'.remaining == w.remaining && w'.budgets == w.budgets
  }

  lemma PaysNothing(w: World, w': World)
    requires SameAccount(w, w')
    ensures Pays(w, w')
  {
  }

  lemma {:induction false} TriesPay(env: Env, cfg: Config, req: Req, p: Plan, t: Target, try: nat, attempts: nat,
                                    last: Option<Failure>, mismatch: Option<string>, w: World)
    ensures Pays(w, Tries(env, cfg, req, p, t, try, attempts, last, mismatch, w).1)
    decreases t.tries - try
  {
    hide NextAttempt, Classify, MismatchMessage, MismatchFailure, UpstreamFailure, FailureEvent, Call, Refusal, Pays;
    var w2 := Tries(env, cfg, req, p, t, try, attempts, last, mismatch, w).1;
    if try < t.tries && attempts < p.maxAttempts && Refusal(w, req.path) == None {
      var a, w1 := NextAttempt(env, w, t), Call(env, req, t, w);
      CallPays(env, req, t, w);
      if a.outcome.Mismatched? {
        TriesPay(env, cfg, req, p, t, try + 1, attempts + 1, last, Some(OrUnknown(a.outcome.actual)), w1);
      } else {
        PaysNothing(w1, w2);
      }
      PaysOn(w, w1, w2);
    } else {
      PaysNothing(w, w2);
    }
  }

  lemma {:induction false} TargetsPay(env: Env, cfg: Config, req: Req, p: Plan, i: nat, attempts: nat,
                                      last: Option<Failure>, w: World)
    requires Usable(cfg) && |req.path| <= MAX_GROUP_DEPTH && i <= |p.targets|
    ensures Pays(w, Targets(env, cfg, req, p, i, attempts, last, w).1)
    decreases MAX_GROUP_DEPTH - |req.path|, 1, |p.targets| - i
  {
    hide Tries, Run, FailsOver, FinalFailure, Guarded;
    if i < |p.targets| {
      var t := p.targets[i];
      if IsGroup(cfg, t.model) {
        RunPays(env, cfg, req.(model := t.model), w);
        var (r, w') := Run(env, cfg, req.(model := t.model), w);
        if r.Rejected? && !Terminal(r.failure) && FailsOver(r.failure, p.failoverClient) {
          TargetsPay(env, cfg, req, p, i + 1, attempts, Some(r.failure), w');
        }
      } else {
        TriesPay(env, cfg, req, p, Guarded(cfg, req, t), 0, attempts, last, None, w);
        var (progress, w') := Tries(env, cfg, req, p, Guarded(cfg, req, t), 0, attempts, last, None, w);
        if progress.Go? && progress.attempts < p.maxAttempts {
          TargetsPay(env, cfg, req, p, i + 1, progress.attempts, progress.last, w');
        }
      }
    }
  }

  lemma {:induction false} ExecutePays(env: Env, cfg: Config, req: Req, w: World)
    requires Usable(cfg) && |req.path| <= MAX_GROUP_DEPTH
    ensures Pays(w, Execute(env, cfg, req, w).1)
    decreases MAX_GROUP_DEPTH - |req.path|, 2, 0
  {
    hide PlanFor, Targets;
    var plan := PlanFor(env, cfg, req, w);
    if plan.Planned? { TargetsPay(env, cfg, req, plan.plan, 0, 0, None, AfterPlanning(env, cfg, req, w)); }
  }

  // Over any run at any depth: one unit of the request budget and of every budget on the path per leaf call.
  lemma {:induction false} RunPays(env: Env, cfg: Config, req: Req, w: World)
    requires Usable(cfg) && |req.path| <= MAX_GROUP_DEPTH
    ensures Pays(w, Run(env, cfg, req, w).1)
    decreases MAX_GROUP_DEPTH - |req.path|, if IsGroup(cfg, req.model) then 0 else 3, 0
  {
    hide Execute;
    var g := FindVirtual(cfg, req.model);
    if g.None? {
      ExecutePays(env, cfg, req, w);
    } else if g.value.name !in req.path && |req.path| < MAX_GROUP_DEPTH {
      ExecutePays(env, cfg, Entered(g.value, req), WithBudget(g.value, w));
    }
  }

  // A group with max_attempts m makes at most m leaf calls in its whole subtree, on any one entry.
  lemma GroupBudgetHolds(env: Env, cfg: Config, req: Req, w: World, g: Group)
    requires Usable(cfg) && |req.path| <= MAX_GROUP_DEPTH
    requires FindVirtual(cfg, req.model) == Some(g) && g.maxAttempts > 0
    ensures Run(env, cfg, req, w).1.calls - w.calls <= g.maxAttempts
  {
    if g.name !in req.path && |req.path| < MAX_GROUP_DEPTH {
      var inner := WithBudget(g, w);
      ExecutePays(env, cfg, Entered(g, req), inner);
      assert inner.budgets[|w.budgets|] == g.maxAttempts;
    }
  }

  // No request makes more than 64 leaf calls, and what is left of its budget says how many it made.
  lemma RequestBudgetHolds(env: Env, cfg: Config, model: Name, found: Found)
    requires Usable(cfg)
    ensures var w' := Run(env, cfg, RootRequest(model), RootWorld(found)).1;
            && found.calls <= w'.calls <= found.calls + 64
            && w'.remaining == 64 - (w'.calls - found.calls) && w'.budgets == []
  {
    RunPays(env, cfg, RootRequest(model), RootWorld(found));
  }
}
