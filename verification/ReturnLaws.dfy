// After an upstream error the request goes on only where it may: the group that goes on with another member, or
// with another try, is one that fails over from such an error.
module ReturnLaws {
  import opened Config
  import opened Errors
  import opened Planning
  import opened Transport
  import opened Routing
  import opened RunLaws
  import opened BlameLaws
  import opened StopLaws
  import opened AnswerLaws

  // A call or a plan: what says at which group a request is.
  predicate Placed(e: Event) {
    e.Called? || e.Drafted?
  }

  // Inside of which groups something is called, or a further one entered.
  function Where(e: Event): seq<Name>
    requires Placed(e)
  {
    if e.Called? || e.path == [] then e.path else e.path[..|e.path| - 1]
  }

  predicate FailsOverFrom(cfg: Config, name: Name, e: HostError) {
    var g := FindVirtual(cfg, name);
    g.Some? && Failover(Classify(e.status, e.message), g.value.failoverClient)
  }

  // From an erring call the request goes on at a group that the call was made below. What that group has to
  // judge is the call's own error, unless it came up through a group with a marked name.
  ghost predicate Resumes(cfg: Config, call: Event, next: Event)
    requires call.Called? && Placed(next) && call.attempt.outcome.Erred?
  {
    var at := Where(next);
    && at != [] && at <= call.path
    && ((forall k | |at| <= k < |call.path| :: !Excuses(Escaped(call.path[k]))) ==>
          FailsOverFrom(cfg, at[|at| - 1], call.attempt.outcome.error))
  }

  // An erring call with its record behind it.
  predicate ErredAt(tr: seq<Event>, i: int) {
    0 <= i && i + 2 <= |tr| && tr[i].Called? && tr[i].attempt.outcome.Erred? && !Placed(tr[i + 1])
  }

  ghost predicate ReturnsAt(cfg: Config, tr: seq<Event>, i: int) {
    ErredAt(tr, i) && i + 2 < |tr| && Placed(tr[i + 2]) ==> Resumes(cfg, tr[i], tr[i + 2])
  }

  // From one world to the next: whatever is done first is done inside of this path, and the rule is kept.
  ghost predicate Steps(cfg: Config, path: seq<Name>, w: World, w': World) {
    && w.trace <= w'.trace
    && (|w.trace| < |w'.trace| && Placed(w'.trace[|w.trace|]) ==> Where(w'.trace[|w.trace|]) == path)
    && (|w.trace| < |w'.trace| ==> Recorded(w'.trace[|w'.trace| - 1]))
    && forall i | |w.trace| <= i < |w'.trace| :: ReturnsAt(cfg, w'.trace, i)
  }

  // No error is left without its record.
  predicate Recorded(e: Event) {
    e.Called? ==> !e.attempt.outcome.Erred?
  }

  // If it is an erring call that the trace ends with, this is what has become of its error, at this path.
  ghost predicate Carries(tr: seq<Event>, f: Option<Failure>, path: seq<Name>) {
    ErredAt(tr, |tr| - 2) ==>
      path <= tr[|tr| - 2].path && f.Some? && Handed(tr[|tr| - 2], f.value, |path|)
  }

  ghost predicate Joins(cfg: Config, tr: seq<Event>, path: seq<Name>) {
    ErredAt(tr, |tr| - 2) ==>
      forall next | Placed(next) && Where(next) == path :: Resumes(cfg, tr[|tr| - 2], next)
  }

  // Steps put together: where the second begins, the erring call at the end of the first is followed by a place
  // that it may go on to.
  lemma StepsOn(cfg: Config, path: seq<Name>, w: World, w1: World, w2: World)
    requires Steps(cfg, path, w, w1) && Steps(cfg, path, w1, w2)
    requires w1.trace == w2.trace || Joins(cfg, w1.trace, path)
    ensures Steps(cfg, path, w, w2)
  {
    hide Resumes, Where;
    if |w.trace| < |w1.trace| { assert w2.trace[|w.trace|] == w1.trace[|w.trace|]; }
    forall i | |w.trace| <= i < |w2.trace| ensures ReturnsAt(cfg, w2.trace, i) {
      if i < |w1.trace| {
        assert w2.trace[i] == w1.trace[i] && ReturnsAt(cfg, w1.trace, i);
        if i + 1 < |w1.trace| { assert w2.trace[i + 1] == w1.trace[i + 1]; }
        if i + 2 < |w1.trace| { assert w2.trace[i + 2] == w1.trace[i + 2]; }
      }
    }
  }

  lemma NoPlaces(cfg: Config, path: seq<Name>, w: World, w': World)
    requires w.trace <= w'.trace && forall i | |w.trace| <= i < |w'.trace| :: !Placed(w'.trace[i])
    ensures Steps(cfg, path, w, w')
  {
  }

  // ---- one leaf ----

  ghost predicate LeafSteps(cfg: Config, req: Req, w: World, x: LeafResult, w': World) {
    && Steps(cfg, req.path, w, w')
    && match x
       case Go(_, last) => Carries(w'.trace, last, req.path) && (w'.trace == w.trace || Joins(cfg, w'.trace, req.path))
       case Stop(r) => r.Rejected? && !Terminal(r.failure) ==> Carries(w'.trace, Some(r.failure), req.path)
  }

  lemma EndsWithRecord(cfg: Config, tr: seq<Event>, f: Option<Failure>, path: seq<Name>)
    requires tr == [] || Placed(tr[|tr| - 1]) || (|tr| >= 2 && !(tr[|tr| - 2].Called? && tr[|tr| - 2].attempt.outcome.Erred?))
    ensures Carries(tr, f, path) && Joins(cfg, tr, path)
  {
  }

  lemma ErringCall(cfg: Config, req: Req, p: Plan, tr: seq<Event>, call: Event, record: Event)
    requires Configured(cfg, req, p) && call.Called? && call.attempt.outcome.Erred? && call.path == req.path && !Placed(record)
    ensures Carries(tr + [call] + [record], Some(Cause(call)), req.path)
    ensures var e := call.attempt.outcome.error;
            p.isGroup && Failover(Classify(e.status, e.message), p.failoverClient) ==> Joins(cfg, tr + [call] + [record], req.path)
  {
    hide Classify, Failover, Cause, Excuses, Escaped;
    var all := tr + [call] + [record];
    assert all[|all| - 2] == call && all[|all| - 1] == record;
  }

  lemma OneCallSteps(cfg: Config, path: seq<Name>, w: World, call: Event, record: Event, w': World)
    requires w'.trace == w.trace + [call] + [record] && call.Called? && call.path == path && !Placed(record)
    ensures Steps(cfg, path, w, w')
  {
    assert w'.trace[|w.trace|] == call && w'.trace[|w.trace| + 1] == record;
  }

  lemma OneCallLeaf(cfg: Config, req: Req, p: Plan, w: World, call: Event, record: Event, x: LeafResult, w': World)
    requires Configured(cfg, req, p) && call.Called? && call.path == req.path && !Placed(record)
    requires w'.trace == w.trace + [call] + [record]
    requires match call.attempt.outcome
             case Erred(e) =>
               var kind := Classify(e.status, e.message);
               var f := UpstreamFailure(e, kind);
               if !p.isGroup || !Failover(kind, p.failoverClient) then x == Stop(Rejected(f)) else x.Go? && x.last == Some(f)
             case Mismatched(_) => false
             case _ => x.Stop?
    ensures LeafSteps(cfg, req, w, x, w')
  {
    hide Steps, Configured, Carries, Joins, Classify, Failover, TerminalCode;
    OneCallSteps(cfg, req.path, w, call, record, w');
    if call.attempt.outcome.Erred? {
      ErringCall(cfg, req, p, w.trace, call, record);
    } else {
      assert w'.trace[|w'.trace| - 2] == call;
      EndsWithRecord(cfg, w'.trace, if x.result.Rejected? then Some(x.result.failure) else None, req.path);
    }
  }

  // The tries end, perhaps with the record of a mismatch.
  lemma LeafIsLeft(cfg: Config, req: Req, w: World, x: LeafResult, w': World)
    requires x.Go?
    requires || (w' == w && Carries(w.trace, x.last, req.path))
             || (&& w.trace != [] && w.trace[|w.trace| - 1].Called? && w.trace[|w.trace| - 1].attempt.outcome.Mismatched?
                 && |w'.trace| == |w.trace| + 1 && w.trace <= w'.trace && !Placed(w'.trace[|w.trace|]))
    ensures LeafSteps(cfg, req, w, x, w')
  {
    hide Steps, Carries, Joins;
    NoPlaces(cfg, req.path, w, w');
    if w' != w {
      assert w'.trace[|w'.trace| - 2] == w.trace[|w.trace| - 1];
      EndsWithRecord(cfg, w'.trace, x.last, req.path);
    }
  }

  lemma {:induction false} TriesStepOn(env: Env, cfg: Config, req: Req, p: Plan, t: Target, try: nat, attempts: nat,
                                       last: Option<Failure>, mismatch: Option<string>, w: World)
    requires Configured(cfg, req, p) && Carries(w.trace, last, req.path)
    requires mismatch.Some? ==> w.trace != [] && w.trace[|w.trace| - 1].Called? && w.trace[|w.trace| - 1].attempt.outcome.Mismatched?
    ensures var (x, w') := Tries(env, cfg, req, p, t, try, attempts, last, mismatch, w); LeafSteps(cfg, req, w, x, w')
    decreases t.tries - try
  {
    hide Tries, NextAttempt, Classify, Failover, MismatchMessage, MismatchFailure, UpstreamFailure, FailureEvent, Refusal,
         Steps, Configured, OrUnknown, Carries, Joins, TerminalCode, Where, LeafSteps;
    var path := req.path;
    var (x, w') := Tries(env, cfg, req, p, t, try, attempts, last, mismatch, w);
    if try < t.tries && attempts < p.maxAttempts {
      TriesStep(env, cfg, req, p, t, try, attempts, last, mismatch, w);
      if Refusal(w, path).Some? {
        RefusalEnds(cfg, req, w, x, w');
      } else {
        var a, w1 := NextAttempt(env, w, t), Call(env, req, t, w);
        var call := Called(w.calls, t.model, path, t.expectation, a);
        if a.outcome.Mismatched? {
          MismatchSteps(cfg, path, w, w1, call, last);
          TriesStepOn(env, cfg, req, p, t, try + 1, attempts + 1, last, Some(OrUnknown(a.outcome.actual)), w1);
          ThenLeaf(cfg, req, w, w1, x, w');
        } else {
          OneCallLeaf(cfg, req, p, w, call, w'.trace[|w.trace| + 1], x, w');
        }
      }
    } else {
      TriesEnd(env, cfg, req, p, t, try, attempts, last, mismatch, w);
      LeafIsLeft(cfg, req, w, x, w');
    }
  }

  lemma RefusalEnds(cfg: Config, req: Req, w: World, x: LeafResult, w': World)
    requires Refusal(w, req.path).Some? && x == Stop(Rejected(Refusal(w, req.path).value)) && w' == Halt(w, Refusal(w, req.path).value)
    ensures LeafSteps(cfg, req, w, x, w')
  {
    hide Steps, Carries;
    NoPlaces(cfg, req.path, w, w');
  }

  lemma ThenLeaf(cfg: Config, req: Req, w: World, w1: World, x: LeafResult, w': World)
    requires Steps(cfg, req.path, w, w1) && Joins(cfg, w1.trace, req.path) && LeafSteps(cfg, req, w1, x, w')
    ensures LeafSteps(cfg, req, w, x, w')
  {
    hide Steps, Carries, Joins, Terminal;
    StepsOn(cfg, req.path, w, w1, w');
  }

  lemma MismatchSteps(cfg: Config, path: seq<Name>, w: World, w1: World, call: Event, last: Option<Failure>)
    requires call.Called? && call.attempt.outcome.Mismatched? && w1.trace == w.trace + [call] && call.path == path
    ensures Steps(cfg, path, w, w1) && Carries(w1.trace, last, path) && Joins(cfg, w1.trace, path)
  {
    assert w1.trace[|w.trace|] == call;
    EndsWithRecord(cfg, w1.trace, last, path);
  }

  // ---- the whole recursion ----

  ghost predicate RunSteps(cfg: Config, path: seq<Name>, above: seq<Name>, w: World, r: Result, w': World) {
    && Steps(cfg, path, w, w')
    && (r.Rejected? && !Terminal(r.failure) ==> Carries(w'.trace, Some(r.failure), above))
  }

  lemma CarriesAbove(tr: seq<Event>, f: Failure, path: seq<Name>, n: nat)
    requires Carries(tr, Some(f), path) && path != []
    ensures var above := path[..|path| - 1];
            && Carries(tr, Some(f), above)
            && Carries(tr, Some(f.(message := Preamble(path[|path| - 1], n) + f.message)), above)
  {
    hide Preamble;
    if ErredAt(tr, |tr| - 2) {
      var call := tr[|tr| - 2];
      var wrapped := f.(message := Preamble(path[|path| - 1], n) + f.message);
      assert call.path[|path| - 1] == path[|path| - 1];
      assert WrappedBy(call, f, n, wrapped, |path| - 1);
    }
  }

  lemma StopCarries(tr: seq<Event>, f: Failure, path: seq<Name>)
    requires Carries(tr, Some(f), path)
    ensures Carries(tr, Some(f), Above(path))
  {
    hide Carries;
    if path != [] { CarriesAbove(tr, f, path, 0); }
  }

  lemma FinishSteps(cfg: Config, req: Req, p: Plan, attempts: nat, last: Option<Failure>, w: World)
    requires Carries(w.trace, last, req.path) && Inside(req, p)
    ensures var (r, w') := Finish(req, p, attempts, last, w); RunSteps(cfg, req.path, Above(req.path), w, r, w')
    ensures var w' := Finish(req, p, attempts, last, w).1; w'.trace == w.trace || !Placed(w'.trace[|w.trace|])
  {
    hide Preamble, Carries, TerminalCode;
    var w' := Finish(req, p, attempts, last, w).1;
    NoPlaces(cfg, req.path, w, w');
    NestedIsTerminal();
    if last.Some? {
      if req.path != [] { CarriesAbove(w.trace, last.value, req.path, attempts); }
    } else {
      NothingCarried(w.trace, req.path);
    }
  }

  lemma NestedIsTerminal()
    ensures Terminal(NESTED_EXHAUSTED)
  {
  }

  lemma NothingCarried(tr: seq<Event>, path: seq<Name>)
    requires Carries(tr, None, path)
    ensures forall f, above :: Carries(tr, f, above)
  {
  }

  // What a child has come to, where its group goes on from it.
  lemma ChildJoins(cfg: Config, req: Req, p: Plan, tr: seq<Event>, f: Failure)
    requires Configured(cfg, req, p) && req.path != [] && Carries(tr, Some(f), req.path)
    requires FailsOver(f, p.failoverClient)
    ensures Joins(cfg, tr, req.path)
  {
    hide FailsOver, Failover, Classify, Excuses, Escaped, Handed;
    if ErredAt(tr, |tr| - 2) {
      var call, d := tr[|tr| - 2], |req.path|;
      assert call.path[d - 1] == req.path[d - 1];
      if forall k | d <= k < |call.path| :: !Excuses(Escaped(call.path[k])) {
        HandedErrorsKeepTheDecision(call, f, d, p.failoverClient);
      }
    }
  }

  lemma {:induction false} TargetsStepOn(env: Env, cfg: Config, req: Req, p: Plan, i: nat, attempts: nat, last: Option<Failure>, w: World)
    requires Usable(cfg) && |req.path| <= MAX_GROUP_DEPTH && i <= |p.targets| && Configured(cfg, req, p) && Inside(req, p)
    requires req.path == [] ==> forall t | t in p.targets :: !IsGroup(cfg, t.model)
    requires Carries(w.trace, last, req.path)
    ensures var (r, w') := Targets(env, cfg, req, p, i, attempts, last, w); RunSteps(cfg, req.path, Above(req.path), w, r, w')
    decreases MAX_GROUP_DEPTH - |req.path|, 1, |p.targets| - i
  {
    hide Tries, Run, Finish, FailsOver, Guarded, Steps, Configured, Carries, Joins, TerminalCode, Inside, Placed;
    var path := req.path;
    var (r, w') := Targets(env, cfg, req, p, i, attempts, last, w);
    if i == |p.targets| {
      FinishSteps(cfg, req, p, attempts, last, w);
    } else if IsGroup(cfg, p.targets[i].model) {
      assert p.targets[i] in p.targets;
      var child := req.(model := p.targets[i].model);
      RunStepsOn(env, cfg, child, w);
      var (r1, w1) := Run(env, cfg, child, w);
      if r1.Rejected? && !Terminal(r1.failure) {
        if FailsOver(r1.failure, p.failoverClient) {
          ChildJoins(cfg, req, p, w1.trace, r1.failure);
          TargetsStepOn(env, cfg, req, p, i + 1, attempts, Some(r1.failure), w1);
          StepsOn(cfg, path, w, w1, w');
        } else {
          StopCarries(w1.trace, r1.failure, path);
        }
      }
    } else {
      var t := Guarded(cfg, req, p.targets[i]);
      TriesStepOn(env, cfg, req, p, t, 0, attempts, last, None, w);
      var (x, w1) := Tries(env, cfg, req, p, t, 0, attempts, last, None, w);
      if x.Go? {
        if x.attempts >= p.maxAttempts {
          FinishSteps(cfg, req, p, x.attempts, x.last, w1);
        } else {
          TargetsStepOn(env, cfg, req, p, i + 1, x.attempts, x.last, w1);
        }
        LeafJoins(cfg, path, w, w1, w');
      } else if x.result.Rejected? && !Terminal(x.result.failure) {
        StopCarries(w1.trace, x.result.failure, path);
      }
    }
  }

  lemma LeafJoins(cfg: Config, path: seq<Name>, w: World, w1: World, w2: World)
    requires Steps(cfg, path, w, w1) && Steps(cfg, path, w1, w2)
    requires w1.trace == w.trace || Joins(cfg, w1.trace, path)
    ensures Steps(cfg, path, w, w2)
  {
    hide Steps, Joins;
    if w1.trace == w.trace { SameSteps(cfg, path, w, w1, w2); } else { StepsOn(cfg, path, w, w1, w2); }
  }

  lemma SameSteps(cfg: Config, path: seq<Name>, w: World, w1: World, w2: World)
    requires w1.trace == w.trace && Steps(cfg, path, w1, w2)
    ensures Steps(cfg, path, w, w2)
  {
  }

  // Entering comes first, and it is done inside of the path above.
  lemma EntryFirst(cfg: Config, path: seq<Name>, w: World, draft: Event, w1: World, w2: World)
    requires draft.Drafted? && draft.path == path && w1.trace == w.trace + [draft] && Steps(cfg, path, w1, w2)
    ensures Steps(cfg, Above(path), w, w2)
  {
    hide Resumes;
    assert w2.trace[|w.trace|] == draft;
    forall i | |w.trace| <= i < |w2.trace| ensures ReturnsAt(cfg, w2.trace, i) {
      if i > |w.trace| { assert |w1.trace| <= i; }
    }
  }

  lemma {:induction false} ExecuteStepsOn(env: Env, cfg: Config, req: Req, w: World)
    requires Usable(cfg) && |req.path| <= MAX_GROUP_DEPTH
    requires if req.path == [] then !IsGroup(cfg, req.model) else IsGroup(cfg, req.model) && req.model == req.path[|req.path| - 1]
    ensures var (r, w') := Execute(env, cfg, req, w); RunSteps(cfg, Above(req.path), Above(req.path), w, r, w')
    decreases MAX_GROUP_DEPTH - |req.path|, 2, 0
  {
    hide PlanFor, Targets, Steps, Configured, Carries, Joins, TerminalCode, Inside;
    var plan, w1 := PlanFor(env, cfg, req, w), AfterPlanning(env, cfg, req, w);
    var (r, w') := Execute(env, cfg, req, w);
    var draft := w1.trace[|w.trace|];
    assert w1.trace[|w1.trace| - 1] == draft;
    EndsWithRecord(cfg, w1.trace, None, req.path);
    if plan.Planned? {
      PlansAreConfigured(env, cfg, req, w);
      PlansAreForGroups(env, cfg, req, w);
      IsInside(req, plan.plan);
      TargetsStepOn(env, cfg, req, plan.plan, 0, 0, None, w1);
      EntryFirst(cfg, req.path, w, draft, w1, w');
    } else {
      EndsWithRecord(cfg, w1.trace, Some(plan.failure), Above(req.path));
      NoPlaces(cfg, req.path, w1, w1);
      EntryFirst(cfg, req.path, w, draft, w1, w1);
    }
  }

  lemma IsInside(req: Req, p: Plan)
    requires if req.path == [] then !p.isGroup else p.isGroup && req.model == req.path[|req.path| - 1]
    ensures Inside(req, p)
  {
  }

  lemma {:induction false} RunStepsOn(env: Env, cfg: Config, req: Req, w: World)
    requires Usable(cfg) && |req.path| <= MAX_GROUP_DEPTH && (req.path != [] ==> IsGroup(cfg, req.model))
    ensures var (r, w') := Run(env, cfg, req, w); RunSteps(cfg, req.path, req.path, w, r, w')
    decreases MAX_GROUP_DEPTH - |req.path|, if IsGroup(cfg, req.model) then 0 else 3, 0
  {
    hide Execute, Steps, Carries;
    var g := FindVirtual(cfg, req.model);
    if g.None? {
      ExecuteStepsOn(env, cfg, req, w);
    } else if g.value.name in req.path || |req.path| + 1 > MAX_GROUP_DEPTH {
      NoPlaces(cfg, req.path, w, Run(env, cfg, req, w).1);
    } else {
      var inner := Entered(g.value, req);
      ExecuteStepsOn(env, cfg, inner, WithBudget(g.value, w));
      assert Above(inner.path) == req.path;
      SameTrace(cfg, req.path, WithBudget(g.value, w), w, Execute(env, cfg, inner, WithBudget(g.value, w)).1, Run(env, cfg, req, w).1);
    }
  }

  lemma SameTrace(cfg: Config, path: seq<Name>, w: World, v: World, w': World, v': World)
    requires Steps(cfg, path, w, w') && v.trace == w.trace && v'.trace == w'.trace
    ensures Steps(cfg, path, v, v')
  {
  }

  // Any request: whatever is called or entered next after an upstream error, is called or entered by a group
  // that the failed call was made below and that is configured to fail over from that error. The one exception
  // are names that hold a marker once quoted, of groups that have put their text in front of it.
  lemma OnlyFailoverGoesOn(env: Env, cfg: Config, model: Name, found: Found, i: nat)
    requires Usable(cfg)
    requires var tr := Handled(env, cfg, model, found).1.trace;
             i + 2 < |tr| && tr[i].Called? && tr[i].attempt.outcome.Erred? && Placed(tr[i + 2])
    ensures var tr := Handled(env, cfg, model, found).1.trace; Resumes(cfg, tr[i], tr[i + 2])
  {
    hide Run, Resumes, AnswerTo, Classify;
    AnswersDecide(env, cfg, model, found, i);
    RunStepsOn(env, cfg, RootRequest(model), RootWorld(found));
    var tr := Handled(env, cfg, model, found).1.trace;
    assert ReturnsAt(cfg, tr, i);
  }
}
