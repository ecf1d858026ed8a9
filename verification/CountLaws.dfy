// What a group's own failure says: that all of it failed, and after how many calls.
module CountLaws {
  import opened Config
  import opened Errors
  import opened Planning
  import opened Transport
  import opened Routing
  import opened ProgressLaws
  import opened StopLaws

  // The calls made at exactly this path, from a position on.
  function OwnCalls(tr: seq<Event>, from: nat, path: seq<Name>): nat
    requires from <= |tr|
    decreases |tr|
  {
    if |tr| == from then 0
    else OwnCalls(tr[..|tr| - 1], from, path) + if tr[|tr| - 1].Called? && tr[|tr| - 1].path == path then 1 else 0
  }

  lemma {:induction false} CallsAddUp(tr: seq<Event>, mid: nat, from: nat, path: seq<Name>)
    requires from <= mid <= |tr|
    ensures OwnCalls(tr, from, path) == OwnCalls(tr[..mid], from, path) + OwnCalls(tr, mid, path)
    decreases |tr|
  {
    if |tr| == mid {
      assert tr[..mid] == tr;
    } else {
      var front := tr[..|tr| - 1];
      CallsAddUp(front, mid, from, path);
      assert front[..mid] == tr[..mid];
    }
  }

  lemma {:induction false} NoneOfItsOwn(tr: seq<Event>, from: nat, path: seq<Name>)
    requires from <= |tr| && forall i | from <= i < |tr| :: tr[i].Called? ==> tr[i].path != path
    ensures OwnCalls(tr, from, path) == 0
    decreases |tr|
  {
    if |tr| > from { NoneOfItsOwn(tr[..|tr| - 1], from, path); }
  }

  predicate Counted(w: World, w': World, path: seq<Name>, n: int) {
    w.trace <= w'.trace && n == OwnCalls(w'.trace, |w.trace|, path)
  }

  lemma CountOn(w: World, w1: World, w2: World, path: seq<Name>, n: int, m: int)
    requires Counted(w, w1, path, n) && Counted(w1, w2, path, m)
    ensures Counted(w, w2, path, n + m)
  {
    CallsAddUp(w2.trace, |w1.trace|, |w.trace|, path);
    assert w2.trace[..|w1.trace|] == w1.trace;
  }

  lemma CountOne(w: World, call: Event, w1: World)
    requires w1.trace == w.trace + [call] && call.Called?
    ensures Counted(w, w1, call.path, 1)
  {
    assert w1.trace[..|w.trace|] == w.trace;
    assert OwnCalls(w.trace, |w.trace|, call.path) == 0;
  }

  lemma CountNone(w: World, w': World, path: seq<Name>)
    requires w.trace <= w'.trace && forall i | |w.trace| <= i < |w'.trace| :: w'.trace[i].Called? ==> w'.trace[i].path != path
    ensures Counted(w, w', path, 0)
  {
    NoneOfItsOwn(w'.trace, |w.trace|, path);
  }

  // ---- one leaf ----

  lemma {:induction false} TriesAreCounted(env: Env, cfg: Config, req: Req, p: Plan, t: Target, try: nat, attempts: nat,
                                           last: Option<Failure>, mismatch: Option<string>, w: World)
    ensures var (x, w') := Tries(env, cfg, req, p, t, try, attempts, last, mismatch, w);
            x.Go? ==> Counted(w, w', req.path, x.attempts - attempts)
    decreases t.tries - try
  {
    hide Tries, NextAttempt, Classify, Failover, MismatchMessage, MismatchFailure, UpstreamFailure, FailureEvent, Refusal, Counted,
         OrUnknown;
    var path := req.path;
    var (x, w') := Tries(env, cfg, req, p, t, try, attempts, last, mismatch, w);
    if try < t.tries && attempts < p.maxAttempts {
      TriesStep(env, cfg, req, p, t, try, attempts, last, mismatch, w);
      if Refusal(w, path).None? {
        var a, w1 := NextAttempt(env, w, t), Call(env, req, t, w);
        var call := Called(w.calls, t.model, path, t.expectation, a);
        CountOne(w, call, w1);
        if a.outcome.Mismatched? {
          TriesAreCounted(env, cfg, req, p, t, try + 1, attempts + 1, last, Some(OrUnknown(a.outcome.actual)), w1);
          if x.Go? { CountOn(w, w1, w', path, 1, x.attempts - attempts - 1); }
        } else if a.outcome.Erred? {
          CountNone(w1, w', path);
          CountOn(w, w1, w', path, 1, 0);
        }
      }
    } else {
      TriesEnd(env, cfg, req, p, t, try, attempts, last, mismatch, w);
      CountNone(w, w', path);
    }
  }

  // ---- a group ----

  predicate StartsWith(s: string, t: string) {
    t <= s
  }

  // What the failure of the targets from some attempt on says, where the group itself would go on.
  predicate Says(req: Req, p: Plan, attempts: nat, w: World, r: Result, w': World) {
    w.trace <= w'.trace
    && (r.Rejected? && !Terminal(r.failure) && FailsOver(r.failure, p.failoverClient) ==>
          StartsWith(r.failure.message, Preamble(req.model, attempts + OwnCalls(w'.trace, |w.trace|, req.path))))
  }

  lemma SaysOn(req: Req, p: Plan, attempts: nat, n: nat, w: World, w1: World, r: Result, w2: World)
    requires Counted(w, w1, req.path, n) && Says(req, p, attempts + n, w1, r, w2)
    ensures Says(req, p, attempts, w, r, w2)
  {
    hide FailsOver, TerminalCode, Preamble, OwnCalls;
    if r.Rejected? { CountOn(w, w1, w2, req.path, n, OwnCalls(w2.trace, |w1.trace|, req.path)); }
  }

  lemma FinishSays(req: Req, p: Plan, attempts: nat, last: Option<Failure>, w: World)
    requires p.isGroup
    ensures var (r, w') := Finish(req, p, attempts, last, w); Says(req, p, attempts, w, r, w')
  {
    hide Preamble, FailsOver;
    var (_, w') := Finish(req, p, attempts, last, w);
    CountNone(w, w', req.path);
  }

  // A child's calls are made further in.
  lemma ChildIsNotCounted(env: Env, cfg: Config, req: Req, w: World, g: Group)
    requires Usable(cfg) && |req.path| <= MAX_GROUP_DEPTH && FindVirtual(cfg, req.model) == Some(g)
    ensures Counted(w, Run(env, cfg, req, w).1, req.path, 0)
  {
    hide Execute, Ends, EndsAt;
    var w' := Run(env, cfg, req, w).1;
    if g.name !in req.path && |req.path| < MAX_GROUP_DEPTH {
      var inner, w1 := Entered(g, req), WithBudget(g, w);
      ExecuteEnds(env, cfg, inner, w1);
      forall i | |w.trace| <= i < |w'.trace| && w'.trace[i].Called? ensures w'.trace[i].path != req.path {
        assert inner.path <= w'.trace[i].path;
      }
    }
    CountNone(w, w', req.path);
  }

  lemma {:induction false} TargetsSay(env: Env, cfg: Config, req: Req, p: Plan, i: nat, attempts: nat, last: Option<Failure>, w: World)
    requires Usable(cfg) && |req.path| <= MAX_GROUP_DEPTH && i <= |p.targets| && p.isGroup
    ensures var (r, w') := Targets(env, cfg, req, p, i, attempts, last, w); Says(req, p, attempts, w, r, w')
    decreases |p.targets| - i
  {
    hide Tries, Run, Finish, FailsOver, Guarded, TerminalCode, Says, Counted;
    var (r, w') := Targets(env, cfg, req, p, i, attempts, last, w);
    if i == |p.targets| {
      FinishSays(req, p, attempts, last, w);
    } else if IsGroup(cfg, p.targets[i].model) {
      var child := req.(model := p.targets[i].model);
      ChildIsNotCounted(env, cfg, child, w, FindVirtual(cfg, child.model).value);
      var (r1, w1) := Run(env, cfg, child, w);
      CountedParts(w, w1, req.path, 0);
      if r1.Rejected? && !Terminal(r1.failure) && FailsOver(r1.failure, p.failoverClient) {
        TargetsSay(env, cfg, req, p, i + 1, attempts, Some(r1.failure), w1);
        SaysOn(req, p, attempts, 0, w, w1, r, w');
      } else {
        StoppedSaysNothing(req, p, attempts, w, r, w');
      }
    } else {
      var t := Guarded(cfg, req, p.targets[i]);
      TriesAreCounted(env, cfg, req, p, t, 0, attempts, last, None, w);
      var k := TriesProgress(env, cfg, req, p, t, 0, attempts, last, None, w);
      var (x, w1) := Tries(env, cfg, req, p, t, 0, attempts, last, None, w);
      if x.Go? {
        if x.attempts >= p.maxAttempts {
          FinishSays(req, p, x.attempts, x.last, w1);
        } else {
          TargetsSay(env, cfg, req, p, i + 1, x.attempts, x.last, w1);
        }
        CountedParts(w, w1, req.path, x.attempts - attempts);
        SaysOn(req, p, attempts, x.attempts - attempts, w, w1, r, w');
      } else {
        StoppedSaysNothing(req, p, attempts, w, r, w');
      }
    }
  }

  lemma CountedParts(w: World, w': World, path: seq<Name>, n: int)
    requires Counted(w, w', path, n)
    ensures n >= 0 && w.trace <= w'.trace
  {
  }

  lemma StoppedSaysNothing(req: Req, p: Plan, attempts: nat, w: World, r: Result, w': World)
    requires w.trace <= w'.trace && (r.Rejected? && !Terminal(r.failure) ==> !FailsOver(r.failure, p.failoverClient))
    ensures Says(req, p, attempts, w, r, w')
  {
    hide FailsOver, TerminalCode;
  }

  // A group that gives up on a failure it would itself have failed over from, without its plan being refused,
  // says so in front of it: its own name, and how many calls it made itself; those of groups inside of it are
  // not among them.
  lemma GroupSaysHowOften(env: Env, cfg: Config, req: Req, w: World, g: Group)
    requires Usable(cfg) && |req.path| < MAX_GROUP_DEPTH && g.name !in req.path && FindVirtual(cfg, req.model) == Some(g)
    ensures var (r, w') := Run(env, cfg, req, w);
            && w.trace <= w'.trace
            && (r.Rejected? && !Terminal(r.failure) && FailsOver(r.failure, g.failoverClient)
                && PlanFor(env, cfg, Entered(g, req), WithBudget(g, w)).Planned? ==>
                  StartsWith(r.failure.message,
                             Preamble(g.name, OwnCalls(w'.trace, |w.trace|, req.path + [g.name]))))
  {
    hide Targets, FailsOver, TerminalCode, Preamble, OwnCalls, PlanFor, Configured;
    var inner, w1 := Entered(g, req), WithBudget(g, w);
    var plan, w2 := PlanFor(env, cfg, inner, w1), AfterPlanning(env, cfg, inner, w1);
    var w' := Run(env, cfg, req, w).1;
    if plan.Planned? {
      PlansAreConfigured(env, cfg, inner, w1);
      GroupPlansAre(cfg, inner, plan.plan);
      TargetsSay(env, cfg, inner, plan.plan, 0, 0, None, w2);
      CountNone(w1, w2, inner.path);
      CallsAddUp(w'.trace, |w2.trace|, |w.trace|, inner.path);
      assert w'.trace[..|w2.trace|] == w2.trace;
    }
  }

  lemma GroupPlansAre(cfg: Config, req: Req, p: Plan)
    requires Configured(cfg, req, p) && req.path != []
    ensures p.isGroup && var g := FindVirtual(cfg, req.path[|req.path| - 1]); g.Some? && p.failoverClient == g.value.failoverClient
  {
  }
}
