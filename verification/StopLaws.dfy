// When a failure ends a group: what a group is configured not to fail over from goes straight up to the client.
module StopLaws {
  import opened Config
  import opened Errors
  import opened Schedule
  import opened Planning
  import opened Transport
  import opened Routing
  import opened RunLaws
  import opened ProgressLaws
  import opened BlameLaws

  predicate StaysOnClientErrors(cfg: Config, name: Name) {
    var g := FindVirtual(cfg, name); g.Some? && !g.value.failoverClient
  }

  // An upstream error that no group on the call's path, from a given depth inwards, fails over from: a client
  // error where all of them are configured to stay; any error of a direct request.
  predicate Ends(cfg: Config, depth: nat, e: Event) {
    && e.Called? && e.attempt.outcome.Erred? && depth <= |e.path|
    && (e.path != [] ==>
          && Classify(e.attempt.outcome.error.status, e.attempt.outcome.error.message) == Client
          && forall k | depth <= k < |e.path| :: StaysOnClientErrors(cfg, e.path[k]))
  }

  predicate EndsAt(tr: seq<Event>, i: int, r: Result)
    requires 0 <= i < |tr|
  {
    && tr[i].Called? && Fails(tr[i]) && r == Rejected(Cause(tr[i]))
    && forall j | i < j < |tr| :: !tr[j].Called?
  }

  // The new calls are all made below this path.
  predicate Below(path: seq<Name>, w: World, w': World) {
    w.trace <= w'.trace && forall i | |w.trace| <= i < |w'.trace| :: w'.trace[i].Called? ==> path <= w'.trace[i].path
  }

  // Nothing is called after an error that ends this level, and it is what the run comes to.
  predicate EndsThere(cfg: Config, path: seq<Name>, depth: nat, w: World, r: Result, w': World) {
    && Below(path, w, w')
    && forall i | |w.trace| <= i < |w'.trace| :: Ends(cfg, depth, w'.trace[i]) ==> EndsAt(w'.trace, i, r)
  }

  // No error that ends it yet.
  predicate GoesOnYet(cfg: Config, path: seq<Name>, depth: nat, w: World, w': World) {
    Below(path, w, w') && forall i | |w.trace| <= i < |w'.trace| :: !Ends(cfg, depth, w'.trace[i])
  }

  lemma BelowOn(path: seq<Name>, w: World, w1: World, w2: World)
    requires Below(path, w, w1) && Below(path, w1, w2)
    ensures Below(path, w, w2)
  {
    forall i | |w.trace| <= i < |w2.trace| && w2.trace[i].Called? ensures path <= w2.trace[i].path {
      if i < |w1.trace| { assert w2.trace[i] == w1.trace[i]; }
    }
  }

  lemma ThenEnds(cfg: Config, path: seq<Name>, depth: nat, w: World, w1: World, r: Result, w2: World)
    requires GoesOnYet(cfg, path, depth, w, w1) && EndsThere(cfg, path, depth, w1, r, w2)
    ensures EndsThere(cfg, path, depth, w, r, w2)
  {
    hide Ends, EndsAt;
    BelowOn(path, w, w1, w2);
    forall i | |w.trace| <= i < |w1.trace| ensures !Ends(cfg, depth, w2.trace[i]) { assert w2.trace[i] == w1.trace[i]; }
  }

  lemma ThenGoesOn(cfg: Config, path: seq<Name>, depth: nat, w: World, w1: World, w2: World)
    requires GoesOnYet(cfg, path, depth, w, w1) && GoesOnYet(cfg, path, depth, w1, w2)
    ensures GoesOnYet(cfg, path, depth, w, w2)
  {
    hide Ends;
    BelowOn(path, w, w1, w2);
    forall i | |w.trace| <= i < |w2.trace| ensures !Ends(cfg, depth, w2.trace[i]) {
      if i < |w1.trace| { assert w2.trace[i] == w1.trace[i]; }
    }
  }

  lemma NothingEnds(cfg: Config, path: seq<Name>, depth: nat, w: World, w': World)
    requires w.trace <= w'.trace && forall i | |w.trace| <= i < |w'.trace| :: !w'.trace[i].Called?
    ensures GoesOnYet(cfg, path, depth, w, w') && forall r :: EndsThere(cfg, path, depth, w, r, w')
  {
  }

  // ---- one leaf ----

  predicate LeafEnds(cfg: Config, path: seq<Name>, depth: nat, w: World, x: LeafResult, w': World) {
    match x
    case Go(_, _) => GoesOnYet(cfg, path, depth, w, w')
    case Stop(r) => EndsThere(cfg, path, depth, w, r, w')
  }

  // The plan's setting is the configured one of the group that the request is inside of.
  predicate Configured(cfg: Config, req: Req, p: Plan) {
    if req.path == [] then !p.isGroup
    else p.isGroup && var g := FindVirtual(cfg, req.path[|req.path| - 1]); g.Some? && p.failoverClient == g.value.failoverClient
  }

  // Where the level of this path begins: at the group itself.
  function LevelOf(path: seq<Name>): nat {
    if path == [] then 0 else |path| - 1
  }

  lemma OneCallEnds(cfg: Config, req: Req, p: Plan, w: World, call: Event, record: Event, x: LeafResult, w': World)
    requires Configured(cfg, req, p) && call.Called? && call.path == req.path && !record.Called?
    requires w'.trace == w.trace + [call] + [record]
    requires match call.attempt.outcome
             case Erred(e) =>
               var kind := Classify(e.status, e.message);
               if !p.isGroup || !Failover(kind, p.failoverClient) then x == Stop(Rejected(UpstreamFailure(e, kind))) else x.Go?
             case Mismatched(_) => false
             case _ => x.Stop?
    ensures LeafEnds(cfg, req.path, LevelOf(req.path), w, x, w')
  {
    hide Classify;
    var n := |w.trace|;
    assert w'.trace[n] == call && w'.trace[n + 1] == record;
    if req.path != [] { assert StaysOnClientErrors(cfg, req.path[|req.path| - 1]) <==> !p.failoverClient; }
  }

  lemma {:induction false} TriesEnds(env: Env, cfg: Config, req: Req, p: Plan, t: Target, try: nat, attempts: nat,
                                     last: Option<Failure>, mismatch: Option<string>, w: World)
    requires Configured(cfg, req, p)
    ensures var (x, w') := Tries(env, cfg, req, p, t, try, attempts, last, mismatch, w);
            LeafEnds(cfg, req.path, LevelOf(req.path), w, x, w')
    decreases t.tries - try
  {
    hide Tries, NextAttempt, Classify, Failover, MismatchMessage, MismatchFailure, UpstreamFailure, FailureEvent, Refusal, Ends,
         GoesOnYet, EndsThere, Configured, OrUnknown;
    var path, depth := req.path, LevelOf(req.path);
    var (x, w') := Tries(env, cfg, req, p, t, try, attempts, last, mismatch, w);
    if try < t.tries && attempts < p.maxAttempts {
      TriesStep(env, cfg, req, p, t, try, attempts, last, mismatch, w);
      if Refusal(w, req.path).Some? {
        NothingEnds(cfg, path, depth, w, w');
      } else {
        var a, w1 := NextAttempt(env, w, t), Call(env, req, t, w);
        var call := Called(w.calls, t.model, req.path, t.expectation, a);
        if a.outcome.Mismatched? {
          TriesEnds(env, cfg, req, p, t, try + 1, attempts + 1, last, Some(OrUnknown(a.outcome.actual)), w1);
          MismatchGoesOn(cfg, path, depth, w, w1, call);
          if x.Go? { ThenGoesOn(cfg, path, depth, w, w1, w'); } else { ThenEnds(cfg, path, depth, w, w1, x.result, w'); }
        } else {
          OneCallEnds(cfg, req, p, w, call, w'.trace[|w.trace| + 1], x, w');
        }
      }
    } else {
      TriesEnd(env, cfg, req, p, t, try, attempts, last, mismatch, w);
      NothingEnds(cfg, path, depth, w, w');
    }
  }

  lemma MismatchGoesOn(cfg: Config, path: seq<Name>, depth: nat, w: World, w1: World, call: Event)
    requires call.Called? && call.attempt.outcome.Mismatched? && w1.trace == w.trace + [call] && path <= call.path
    ensures GoesOnYet(cfg, path, depth, w, w1)
  {
  }

  // ---- the whole recursion ----

  lemma FinishEnds(cfg: Config, path: seq<Name>, depth: nat, req: Req, p: Plan, attempts: nat, last: Option<Failure>, w: World)
    ensures var (r, w') := Finish(req, p, attempts, last, w); EndsThere(cfg, path, depth, w, r, w')
  {
    hide FinalFailure;
    NothingEnds(cfg, path, depth, w, Finish(req, p, attempts, last, w).1);
  }

  // An error that ends the child and that the group, too, stays on, ends the group with the same failure: it is
  // no reason to try another member.
  lemma ChildEnds(cfg: Config, req: Req, p: Plan, w: World, r: Result, w': World)
    requires Configured(cfg, req, p) && req.path != [] && EndsThere(cfg, req.path, |req.path|, w, r, w')
    ensures EndsThere(cfg, req.path, |req.path| - 1, w, r, w')
    ensures r.Rejected? && FailsOver(r.failure, p.failoverClient) ==> GoesOnYet(cfg, req.path, |req.path| - 1, w, w')
  {
    hide EndsAt, Classify, FailsOver, Ends;
    var depth := |req.path| - 1;
    forall i | |w.trace| <= i < |w'.trace| && Ends(cfg, depth, w'.trace[i])
      ensures EndsAt(w'.trace, i, r) && !(r.Rejected? && FailsOver(r.failure, p.failoverClient))
    {
      EndsIsCall(cfg, depth, w'.trace[i]);
      EndsDeeper(cfg, req.path, w'.trace[i]);
      CauseStays(cfg, req, p, w'.trace, i, r);
    }
  }

  lemma EndsIsCall(cfg: Config, depth: nat, e: Event)
    requires Ends(cfg, depth, e)
    ensures e.Called?
  {
  }

  lemma EndsDeeper(cfg: Config, path: seq<Name>, e: Event)
    requires path != [] && Ends(cfg, |path| - 1, e) && e.Called? && path <= e.path
    ensures Ends(cfg, |path|, e) && StaysOnClientErrors(cfg, path[|path| - 1]) && Fails(e)
  {
    assert e.path[|path| - 1] == path[|path| - 1];
  }

  lemma CauseStays(cfg: Config, req: Req, p: Plan, tr: seq<Event>, i: nat, r: Result)
    requires Configured(cfg, req, p) && req.path != [] && i < |tr| && Ends(cfg, |req.path| - 1, tr[i]) && req.path <= tr[i].path
    requires EndsAt(tr, i, r)
    ensures r.Rejected? && !FailsOver(r.failure, p.failoverClient)
  {
    hide Classify;
    EndsDeeper(cfg, req.path, tr[i]);
    var e := tr[i].attempt.outcome.error;
    assert !Failover(Classify(e.status, e.message), false);
    StoppingErrorsDoNotFailOver(e, false);
  }

  lemma {:induction false} TargetsEnd(env: Env, cfg: Config, req: Req, p: Plan, i: nat, attempts: nat, last: Option<Failure>, w: World)
    requires Usable(cfg) && |req.path| <= MAX_GROUP_DEPTH && i <= |p.targets| && Configured(cfg, req, p)
    requires req.path == [] ==> forall t | t in p.targets :: !IsGroup(cfg, t.model)
    ensures var (r, w') := Targets(env, cfg, req, p, i, attempts, last, w); EndsThere(cfg, req.path, LevelOf(req.path), w, r, w')
    decreases MAX_GROUP_DEPTH - |req.path|, 1, |p.targets| - i
  {
    hide Tries, Run, Finish, FailsOver, Guarded, GoesOnYet, EndsThere, Configured, TerminalCode;
    var path, depth := req.path, LevelOf(req.path);
    var (r, w') := Targets(env, cfg, req, p, i, attempts, last, w);
    if i == |p.targets| {
      FinishEnds(cfg, path, depth, req, p, attempts, last, w);
    } else if IsGroup(cfg, p.targets[i].model) {
      assert p.targets[i] in p.targets;
      var child := req.(model := p.targets[i].model);
      RunEnds(env, cfg, child, w);
      var (r1, w1) := Run(env, cfg, child, w);
      ChildEnds(cfg, req, p, w, r1, w1);
      if r1.Rejected? && !Terminal(r1.failure) && FailsOver(r1.failure, p.failoverClient) {
        TargetsEnd(env, cfg, req, p, i + 1, attempts, Some(r1.failure), w1);
        ThenEnds(cfg, path, depth, w, w1, r, w');
      }
    } else {
      var t := Guarded(cfg, req, p.targets[i]);
      TriesEnds(env, cfg, req, p, t, 0, attempts, last, None, w);
      var (x, w1) := Tries(env, cfg, req, p, t, 0, attempts, last, None, w);
      if x.Go? {
        if x.attempts >= p.maxAttempts {
          FinishEnds(cfg, path, depth, req, p, x.attempts, x.last, w1);
        } else {
          TargetsEnd(env, cfg, req, p, i + 1, x.attempts, x.last, w1);
        }
        ThenEnds(cfg, path, depth, w, w1, r, w');
      }
    }
  }

  lemma PlansAreConfigured(env: Env, cfg: Config, req: Req, w: World)
    requires Usable(cfg) && PlanFor(env, cfg, req, w).Planned?
    requires if req.path == [] then !IsGroup(cfg, req.model) else IsGroup(cfg, req.model) && req.model == req.path[|req.path| - 1]
    ensures Configured(cfg, req, PlanFor(env, cfg, req, w).plan)
    ensures req.path == [] ==> forall t | t in PlanFor(env, cfg, req, w).plan.targets :: t.model == req.model
  {
    hide Ordering, WithState, AsTargets, StableSort, TotalTries, FindRule;
  }

  lemma {:induction false} ExecuteEnds(env: Env, cfg: Config, req: Req, w: World)
    requires Usable(cfg) && |req.path| <= MAX_GROUP_DEPTH
    requires if req.path == [] then !IsGroup(cfg, req.model) else IsGroup(cfg, req.model) && req.model == req.path[|req.path| - 1]
    ensures var (r, w') := Execute(env, cfg, req, w); EndsThere(cfg, req.path, LevelOf(req.path), w, r, w')
    decreases MAX_GROUP_DEPTH - |req.path|, 2, 0
  {
    hide PlanFor, Targets, GoesOnYet, EndsThere, Configured;
    var plan, w1 := PlanFor(env, cfg, req, w), AfterPlanning(env, cfg, req, w);
    var (r, w') := Execute(env, cfg, req, w);
    NothingEnds(cfg, req.path, LevelOf(req.path), w, w1);
    if plan.Planned? {
      PlansAreConfigured(env, cfg, req, w);
      TargetsEnd(env, cfg, req, plan.plan, 0, 0, None, w1);
      ThenEnds(cfg, req.path, LevelOf(req.path), w, w1, r, w');
    }
  }

  // Any run, at any depth: after an upstream error that no group from this level down to the call fails over
  // from, no further leaf is called, and the run comes to that very failure, not wrapped by any of them. Below
  // a direct request that is every upstream error; below groups, a client error that all of them are
  // configured to stay on.
  lemma {:induction false} RunEnds(env: Env, cfg: Config, req: Req, w: World)
    requires Usable(cfg) && |req.path| <= MAX_GROUP_DEPTH && (req.path != [] ==> IsGroup(cfg, req.model))
    ensures var (r, w') := Run(env, cfg, req, w); EndsThere(cfg, req.path, |req.path|, w, r, w')
    decreases MAX_GROUP_DEPTH - |req.path|, if IsGroup(cfg, req.model) then 0 else 3, 0
  {
    hide Execute, GoesOnYet;
    var g := FindVirtual(cfg, req.model);
    if g.None? {
      ExecuteEnds(env, cfg, req, w);
    } else if g.value.name in req.path || |req.path| + 1 > MAX_GROUP_DEPTH {
      NothingEnds(cfg, req.path, |req.path|, w, Run(env, cfg, req, w).1);
    } else {
      ExecuteEnds(env, cfg, Entered(g.value, req), WithBudget(g.value, w));
    }
  }

  // A whole request: such an error is the last call, and the client gets it as it is.
  lemma StoppingErrorsReachTheClient(env: Env, cfg: Config, model: Name, found: Found, i: nat)
    requires Usable(cfg)
    requires var tr := Handled(env, cfg, model, found).1.trace; i < |tr| && Ends(cfg, 0, tr[i])
    ensures var (r, w') := Handled(env, cfg, model, found);
            && r == Rejected(Cause(w'.trace[i]))
            && forall j | i < j < |w'.trace| :: !w'.trace[j].Called?
  {
    hide Run, Ends;
    RunEnds(env, cfg, RootRequest(model), RootWorld(found));
    var (r, w') := Handled(env, cfg, model, found);
    assert Ends(cfg, 0, w'.trace[i]) ==> EndsAt(w'.trace, i, r);
  }
}
