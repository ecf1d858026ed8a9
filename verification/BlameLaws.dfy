// What a failed request tells its client: the last upstream failure of that very request, or the refusal of
// its last plan. Nothing is invented, and wrapping at each group level keeps status, code and text.
module BlameLaws {
  import opened Config
  import opened Errors
  import opened Schedule
  import opened Planning
  import opened Transport
  import opened Routing
  import opened RunLaws
  import opened FailoverLaws

  predicate Fails(call: Event)
    requires call.Called?
  {
    call.attempt.outcome.Erred? || call.attempt.outcome.Mismatched?
  }

  // The failure that a call is, on its own.
  function Cause(call: Event): Failure
    requires call.Called? && Fails(call)
  {
    match call.attempt.outcome
    case Erred(e) => UpstreamFailure(e, Classify(e.status, e.message))
    case Mismatched(actual) => MismatchFailure(call.leaf, OrUnknown(actual))
  }

  predicate Refuses(e: Event) {
    e.Drafted? && e.plan.Refused?
  }

  // What a failure can come from: a failing call, or the refusal to make a plan.
  predicate Source(e: Event) {
    (e.Called? && Fails(e)) || Refuses(e)
  }

  function Reason(e: Event): Failure
    requires Source(e)
  {
    if e.Called? then Cause(e) else e.plan.failure
  }

  // What of it the groups on its path from a given depth inwards have handed up: each passed it on as it was,
  // or put its own text in front.
  ghost predicate Handed(e: Event, f: Failure, depth: nat)
    requires Source(e) && depth <= |e.path|
    decreases |e.path| - depth
  {
    if depth == |e.path| then f == Reason(e)
    else Handed(e, f, depth + 1)
         || exists inner: Failure, n: nat :: WrappedBy(e, inner, n, f, depth)
  }

  ghost predicate WrappedBy(e: Event, inner: Failure, n: nat, f: Failure, depth: nat)
    requires Source(e) && depth < |e.path|
    decreases |e.path| - depth, 0
  {
    Handed(e, inner, depth + 1) && f == inner.(message := Preamble(e.path[depth], n) + inner.message)
  }

  // After it, no leaf is called and no plan refused.
  predicate IsLast(tr: seq<Event>, i: int) {
    0 <= i < |tr| && Source(tr[i]) && forall j | i < j < |tr| :: !tr[j].Called? && !Refuses(tr[j])
  }

  // The failure, at this path, is what has become of the last call or refusal, somewhere below.
  ghost predicate ReportsLast(tr: seq<Event>, f: Failure, path: seq<Name>) {
    exists i | 0 <= i < |tr| :: IsLast(tr, i) && path <= tr[i].path && Handed(tr[i], f, |path|)
  }

  // A plan had nothing to try at all, as with negative retries: it is the last thing in the log.
  predicate NothingToTry(tr: seq<Event>, f: Failure) {
    tr != [] && tr[|tr| - 1].Drafted? && f.code == "no_upstream_available"
  }

  ghost predicate Founded(tr: seq<Event>, f: Failure, path: seq<Name>) {
    Terminal(f) || NothingToTry(tr, f) || ReportsLast(tr, f, path)
  }

  ghost predicate FoundedIfAny(tr: seq<Event>, last: Option<Failure>, path: seq<Name>) {
    if last.Some? then Founded(tr, last.value, path) else tr != [] && tr[|tr| - 1].Drafted?
  }

  lemma CallIsReported(tr: seq<Event>, call: Event, record: Event)
    requires call.Called? && record.Stored? && Fails(call)
    ensures Founded(tr + [call] + [record], Cause(call), call.path)
  {
    hide Cause;
    assert (tr + [call] + [record])[|tr|] == call && IsLast(tr + [call] + [record], |tr|);
  }

  // One level up, whether the group there passes the failure on or puts its text in front.
  lemma FoundedAbove(tr: seq<Event>, f: Failure, path: seq<Name>, n: nat)
    requires path != [] && Founded(tr, f, path)
    ensures var above := path[..|path| - 1];
            Founded(tr, f, above) && Founded(tr, f.(message := Preamble(path[|path| - 1], n) + f.message), above)
  {
    hide TerminalCode, Preamble;
    if i :| 0 <= i < |tr| && IsLast(tr, i) && path <= tr[i].path && Handed(tr[i], f, |path|) {
      var wrapped := f.(message := Preamble(path[|path| - 1], n) + f.message);
      assert WrappedBy(tr[i], f, n, wrapped, |path| - 1);
      assert Handed(tr[i], f, |path| - 1) && Handed(tr[i], wrapped, |path| - 1);
    }
  }

  // ---- one leaf ----

  // The last event is the call whose mismatch is still to be recorded.
  predicate Pending(tr: seq<Event>, t: Target, mismatch: string) {
    && tr != [] && tr[|tr| - 1].Called? && tr[|tr| - 1].leaf == t.model
    && tr[|tr| - 1].attempt.outcome.Mismatched? && OrUnknown(tr[|tr| - 1].attempt.outcome.actual) == mismatch
  }

  ghost predicate LeafFounded(x: LeafResult, w': World, path: seq<Name>) {
    match x
    case Go(_, last) => FoundedIfAny(w'.trace, last, path)
    case Stop(r) => r.Rejected? ==> Founded(w'.trace, r.failure, path)
  }

  lemma PendingIsReported(tr: seq<Event>, t: Target, mismatch: string, record: Event)
    requires Pending(tr, t, mismatch) && record.Stored?
    ensures Founded(tr + [record], MismatchFailure(t.model, mismatch), tr[|tr| - 1].path)
  {
    hide OrUnknown, MismatchFailure, Founded;
    var front, call := tr[..|tr| - 1], tr[|tr| - 1];
    CallIsReported(front, call, record);
    assert front + [call] + [record] == tr + [record];
  }

  lemma TerminalIsFounded(w: World, path: seq<Name>, m: string)
    ensures forall tr, above :: Founded(tr, RequestCancelled(m), above) && Founded(tr, NESTED_EXHAUSTED, above)
                                && Founded(tr, GROUP_CYCLE, above) && Founded(tr, TOO_DEEP, above)
    ensures Refusal(w, path).Some? ==> forall tr, above :: Founded(tr, Refusal(w, path).value, above)
  {
    hide ReportsLast;
  }

  lemma {:induction false} TriesAreFounded(env: Env, cfg: Config, req: Req, p: Plan, t: Target, try: nat, attempts: nat,
                                           last: Option<Failure>, mismatch: Option<string>, w: World)
    requires mismatch.Some? ==> Pending(w.trace, t, mismatch.value) && w.trace[|w.trace| - 1].path == req.path
    requires mismatch.None? ==> FoundedIfAny(w.trace, last, req.path)
    ensures var (x, w') := Tries(env, cfg, req, p, t, try, attempts, last, mismatch, w); LeafFounded(x, w', req.path)
    decreases t.tries - try
  {
    hide NextAttempt, Classify, MismatchMessage, MismatchFailure, UpstreamFailure, FailureEvent, Refusal, OrUnknown, Founded, Tries;
    var (x, w') := Tries(env, cfg, req, p, t, try, attempts, last, mismatch, w);
    TerminalIsFounded(w, req.path, "");
    if try < t.tries && attempts < p.maxAttempts {
      TriesStep(env, cfg, req, p, t, try, attempts, last, mismatch, w);
      if Refusal(w, req.path) == None {
        var a, w1 := NextAttempt(env, w, t), Call(env, req, t, w);
        var call := Called(w.calls, t.model, req.path, t.expectation, a);
        if a.outcome.Mismatched? {
          TriesAreFounded(env, cfg, req, p, t, try + 1, attempts + 1, last, Some(OrUnknown(a.outcome.actual)), w1);
        } else if a.outcome.Erred? {
          CallIsReported(w.trace, call, w'.trace[|w.trace| + 1]);
        } else if a.outcome.Cancelled? {
          TerminalIsFounded(w, req.path, a.outcome.message);
        }
      }
    } else {
      TriesEnd(env, cfg, req, p, t, try, attempts, last, mismatch, w);
      if mismatch.Some? { PendingIsReported(w.trace, t, mismatch.value, w'.trace[|w.trace|]); }
    }
  }

  // ---- the whole recursion ----

  ghost predicate RunFounded(r: Result, w': World, path: seq<Name>) {
    r.Rejected? ==> Founded(w'.trace, r.failure, path)
  }

  // Where the failure of a request inside this path goes: to the group above, or to the client.
  function Above(path: seq<Name>): seq<Name> {
    if path == [] then [] else path[..|path| - 1]
  }

  // A request inside the group it is for, or a direct one.
  predicate Inside(req: Req, p: Plan) {
    if req.path == [] then !p.isGroup else p.isGroup && req.model == req.path[|req.path| - 1]
  }

  lemma StopIsFounded(tr: seq<Event>, f: Failure, path: seq<Name>)
    requires Founded(tr, f, path)
    ensures Founded(tr, f, Above(path))
  {
    hide Founded;
    if path != [] { FoundedAbove(tr, f, path, 0); }
  }

  lemma FinishIsFounded(req: Req, p: Plan, attempts: nat, last: Option<Failure>, w: World)
    requires FoundedIfAny(w.trace, last, req.path) && Inside(req, p)
    ensures var (r, w') := Finish(req, p, attempts, last, w); RunFounded(r, w', Above(req.path))
  {
    hide Preamble, Founded;
    TerminalIsFounded(w, req.path, "");
    var none := Failure(503, "no_upstream_available", "orangeguard: no upstream could serve " + Quoted(req.model));
    if last.None? { NoneIsFounded(w.trace, none, req.path); }
    var f := if last.Some? then last.value else none;
    if req.path != [] { FoundedAbove(w.trace, f, req.path, attempts); }
  }

  lemma NoneIsFounded(tr: seq<Event>, f: Failure, path: seq<Name>)
    requires NothingToTry(tr, f)
    ensures Founded(tr, f, path)
  {
  }

  lemma RefusalIsReported(tr: seq<Event>, draft: Event)
    requires Refuses(draft)
    ensures Founded(tr + [draft], draft.plan.failure, draft.path)
  {
    assert (tr + [draft])[|tr|] == draft && IsLast(tr + [draft], |tr|);
  }

  lemma {:induction false} TargetsAreFounded(env: Env, cfg: Config, req: Req, p: Plan, i: nat, attempts: nat,
                                             last: Option<Failure>, w: World)
    requires Usable(cfg) && |req.path| <= MAX_GROUP_DEPTH && i <= |p.targets| && FoundedIfAny(w.trace, last, req.path) && Inside(req, p)
    ensures var (r, w') := Targets(env, cfg, req, p, i, attempts, last, w); RunFounded(r, w', Above(req.path))
    decreases MAX_GROUP_DEPTH - |req.path|, 1, |p.targets| - i
  {
    hide Tries, Run, Finish, FailsOver, Guarded, Founded, TerminalCode;
    if i == |p.targets| {
      FinishIsFounded(req, p, attempts, last, w);
    } else if IsGroup(cfg, p.targets[i].model) {
      var child := req.(model := p.targets[i].model);
      RunIsFounded(env, cfg, child, w);
      var (r1, w1) := Run(env, cfg, child, w);
      if r1.Rejected? {
        StopIsFounded(w1.trace, r1.failure, req.path);
        if !Terminal(r1.failure) && FailsOver(r1.failure, p.failoverClient) {
          TargetsAreFounded(env, cfg, req, p, i + 1, attempts, Some(r1.failure), w1);
        }
      }
    } else {
      var t := Guarded(cfg, req, p.targets[i]);
      TriesAreFounded(env, cfg, req, p, t, 0, attempts, last, None, w);
      var (x, w1) := Tries(env, cfg, req, p, t, 0, attempts, last, None, w);
      if x.Go? {
        if x.attempts >= p.maxAttempts {
          FinishIsFounded(req, p, x.attempts, x.last, w1);
        } else {
          TargetsAreFounded(env, cfg, req, p, i + 1, x.attempts, x.last, w1);
        }
      } else if x.result.Rejected? {
        StopIsFounded(w1.trace, x.result.failure, req.path);
      }
    }
  }

  lemma PlansAreForGroups(env: Env, cfg: Config, req: Req, w: World)
    requires Usable(cfg) && PlanFor(env, cfg, req, w).Planned?
    ensures PlanFor(env, cfg, req, w).plan.isGroup <==> IsGroup(cfg, req.model)
  {
    hide Ordering, WithState, AsTargets, StableSort, FindRule, TotalTries, FindVirtual;
  }

  lemma {:induction false} ExecuteIsFounded(env: Env, cfg: Config, req: Req, w: World)
    requires Usable(cfg) && |req.path| <= MAX_GROUP_DEPTH
    requires if req.path == [] then !IsGroup(cfg, req.model) else IsGroup(cfg, req.model) && req.model == req.path[|req.path| - 1]
    ensures var (r, w') := Execute(env, cfg, req, w); RunFounded(r, w', Above(req.path))
    decreases MAX_GROUP_DEPTH - |req.path|, 2, 0
  {
    hide PlanFor, Targets, Founded;
    var plan, drafted := PlanFor(env, cfg, req, w), AfterPlanning(env, cfg, req, w);
    if plan.Planned? {
      PlansAreForGroups(env, cfg, req, w);
      TargetsAreFounded(env, cfg, req, plan.plan, 0, 0, None, drafted);
    } else {
      RefusalIsReported(w.trace, drafted.trace[|w.trace|]);
      StopIsFounded(drafted.trace, plan.failure, req.path);
    }
  }

  lemma {:induction false} RunIsFounded(env: Env, cfg: Config, req: Req, w: World)
    requires Usable(cfg) && |req.path| <= MAX_GROUP_DEPTH && (req.path != [] ==> IsGroup(cfg, req.model))
    ensures var (r, w') := Run(env, cfg, req, w); RunFounded(r, w', req.path)
    decreases MAX_GROUP_DEPTH - |req.path|, if IsGroup(cfg, req.model) then 0 else 3, 0
  {
    hide Execute, Founded;
    TerminalIsFounded(w, req.path, "");
    var g := FindVirtual(cfg, req.model);
    if g.None? {
      ExecuteIsFounded(env, cfg, req, w);
    } else if g.value.name !in req.path && |req.path| < MAX_GROUP_DEPTH {
      ExecuteIsFounded(env, cfg, Entered(g.value, req), WithBudget(g.value, w));
      assert Above(req.path + [g.value.name]) == req.path;
    }
  }

  // ---- what the client can tell ----

  // The levels are groups on the path from a given depth inwards, the innermost first.
  predicate FromPath(levels: seq<Level>, path: seq<Name>, depth: nat)
    requires depth <= |path|
    decreases |path| - depth
  {
    if depth == |path| then levels == []
    else
      || FromPath(levels, path, depth + 1)
      || (levels != [] && levels[|levels| - 1].group == path[depth] && FromPath(levels[..|levels| - 1], path, depth + 1))
  }

  lemma {:induction false} HandedIsWrapped(e: Event, f: Failure, depth: nat) returns (levels: seq<Level>)
    requires Source(e) && depth <= |e.path| && Handed(e, f, depth)
    ensures FromPath(levels, e.path, depth) && f == Wrapped(levels, Reason(e))
    decreases |e.path| - depth
  {
    hide Preamble, Reason;
    if depth == |e.path| {
      levels := [];
    } else if Handed(e, f, depth + 1) {
      levels := HandedIsWrapped(e, f, depth + 1);
    } else {
      var inner: Failure, n: nat :| WrappedBy(e, inner, n, f, depth);
      var below := HandedIsWrapped(e, inner, depth + 1);
      levels := below + [Level(e.path[depth], n)];
      assert levels[..|levels| - 1] == below;
    }
  }

  // A failed request that was not cut off tells the client of its last leaf call or, where a plan was refused
  // after that, of the last refusal: the very failure, wrapped by none but groups on the path of the call or
  // refusal, from the inside out, so that status and code are its own and the message ends with its own.
  lemma ClientIsToldTheLastFailure(env: Env, cfg: Config, model: Name, found: Found)
    requires Usable(cfg)
    ensures var (r, w') := Handled(env, cfg, model, found);
            r.Rejected? && !Terminal(r.failure) && !NothingToTry(w'.trace, r.failure) ==>
              exists i | 0 <= i < |w'.trace| :: IsLast(w'.trace, i) && Tells(r.failure, w'.trace[i])
  {
    hide Run, TerminalCode, NothingToTry, Handed, Wrapped, Reason;
    RunIsFounded(env, cfg, RootRequest(model), RootWorld(found));
    var (r, w') := Handled(env, cfg, model, found);
    if r.Rejected? && !Terminal(r.failure) && !NothingToTry(w'.trace, r.failure) {
      var i :| 0 <= i < |w'.trace| && IsLast(w'.trace, i) && Handed(w'.trace[i], r.failure, 0);
      var levels := HandedIsWrapped(w'.trace[i], r.failure, 0);
      assert ToldThrough(r.failure, w'.trace[i], levels);
      assert Tells(r.failure, w'.trace[i]);
    }
  }

  ghost predicate Tells(f: Failure, e: Event)
    requires Source(e)
  {
    exists levels :: ToldThrough(f, e, levels)
  }

  predicate ToldThrough(f: Failure, e: Event, levels: seq<Level>)
    requires Source(e)
  {
    FromPath(levels, e.path, 0) && f == Wrapped(levels, Reason(e))
  }

  predicate EndsWith(s: string, m: string) {
    |m| <= |s| && s[|s| - |m|..] == m
  }

  // So status, code and the end of the text are those of the call or refusal itself, whatever the nesting.
  lemma WrappingKeepsTheCause(f: Failure, e: Event)
    requires Source(e) && Tells(f, e)
    ensures f.status == Reason(e).status && f.code == Reason(e).code && EndsWith(f.message, Reason(e).message)
  {
    hide Wrapped, Front, Reason;
    var levels :| ToldThrough(f, e, levels);
    WrappedHasFront(levels, Reason(e));
  }

  // Which are: of an upstream error, its own, with the status of its kind and a general code where it has none;
  // of a wrong model, the refusal to return it, which names the leaf and what it was served by.
  lemma CausesAre(call: Event)
    requires call.Called? && Fails(call)
    ensures match call.attempt.outcome
            case Erred(e) =>
              && Cause(call).message == e.message
              && (if e.code == "" then Cause(call).code == "upstream_error" else Cause(call).code == e.code)
              && (if e.status == 0 then Cause(call).status == StatusForKind(Classify(0, e.message)) else Cause(call).status == e.status)
            case Mismatched(actual) =>
              && Cause(call).status == 503 && Cause(call).code == "model_mismatch_blocked"
              && EndsWith(Cause(call).message,
                          " was served by " + Quoted(if White(actual) then "<unreported>" else actual)
                          + "; refusing to return a substituted model")
  {
    hide Classify, White, Trim, Quoted;
    if call.attempt.outcome.Mismatched? { WhiteTrimsAway(call.attempt.outcome.actual); }
  }

  // And the failover decision of whoever judges it, at whatever level, is that of the upstream error itself,
  // unless a group it has come through has a name that holds a marker once quoted.
  lemma HandedErrorsKeepTheDecision(call: Event, f: Failure, depth: nat, b: bool)
    requires call.Called? && call.attempt.outcome.Erred? && depth <= |call.path| && Handed(call, f, depth)
    requires forall k | depth <= k < |call.path| :: !Excuses(Escaped(call.path[k]))
    ensures var e := call.attempt.outcome.error; FailsOver(f, b) <==> Failover(Classify(e.status, e.message), b)
  {
    hide Excuses, Escaped, Wrapped, Failover, Classify, FailsOver, FromPath, Handed;
    var levels := HandedIsWrapped(call, f, depth);
    LevelsAreOnPath(levels, call.path, depth);
    forall k | 0 <= k < |levels| ensures !Excuses(Escaped(levels[k].group)) {
      var j :| 0 <= j < |call.path[depth..]| && call.path[depth..][j] == levels[k].group;
      assert call.path[depth + j] == levels[k].group;
    }
    PathKeepsDecisionsIff(levels);
    assert f == Lifted(levels, call.attempt.outcome.error);
  }

  lemma {:induction false} LevelsAreOnPath(levels: seq<Level>, path: seq<Name>, depth: nat)
    requires depth <= |path| && FromPath(levels, path, depth)
    ensures forall k | 0 <= k < |levels| :: levels[k].group in path[depth..]
    decreases |path| - depth
  {
    if depth < |path| {
      assert path[depth..] == [path[depth]] + path[depth + 1..];
      if FromPath(levels, path, depth + 1) {
        LevelsAreOnPath(levels, path, depth + 1);
      } else {
        LevelsAreOnPath(levels[..|levels| - 1], path, depth + 1);
      }
    }
  }

  // So it is for the client.
  lemma ToldErrorsKeepTheDecision(f: Failure, call: Event, b: bool)
    requires call.Called? && call.attempt.outcome.Erred? && Tells(f, call)
    requires forall k | 0 <= k < |call.path| :: !Excuses(Escaped(call.path[k]))
    ensures var e := call.attempt.outcome.error; FailsOver(f, b) <==> Failover(Classify(e.status, e.message), b)
  {
    hide Excuses, Escaped, Wrapped, Failover, Classify, FailsOver, FromPath;
    var levels :| ToldThrough(f, call, levels);
    LevelsAreOnPath(levels, call.path, 0);
    assert call.path[0..] == call.path;
    PathKeepsDecisionsIff(levels);
    assert f == Lifted(levels, call.attempt.outcome.error);
  }
}
