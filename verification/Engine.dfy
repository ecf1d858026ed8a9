// The engine as the source runs it: mutable budgets shared along a path, loops over targets and tries, and
// recursion into groups (internal/engine/engine.go and internal/engine/groups.go). Each method is proved to
// compute what Routing.dfy says; the world it works on is carried along as a ghost.
module Execution {
  import opened Config
  import opened Errors
  import opened Identity
  import opened Cooldown
  import opened Schedule
  import opened Planning
  import opened Transport
  import opened Routing
  import opened Hosting
  import CooldownHistory

  class AttemptBudget {
    var remaining: int

    constructor (remaining: int)
      ensures this.remaining == remaining
    {
      this.remaining := remaining;
    }
  }

  // What all levels of one request share; the configuration is the snapshot taken at its start.
  class ExecutionState {
    const cfg: Config
    var remaining: int
    var committed: bool

    constructor (cfg: Config)
      ensures this.cfg == cfg && remaining == REQUEST_BUDGET && !committed
    {
      this.cfg := cfg;
      remaining, committed := REQUEST_BUDGET, false;
    }
  }

  datatype Request = Request(model: Name, execution: ExecutionState?, budgets: seq<AttemptBudget>, groupPath: seq<Name>,
                             inheritedGuard: bool)
  {
    function AsReq(): Req {
      Req(model, groupPath, inheritedGuard)
    }
  }

  // What ends a client stream early: an own failure, or a foreign error after output was released.
  datatype StreamError = Own(failure: Failure) | Foreign(error: HostError)

  class Engine {
    var cfg: Config
    const host: Host
    const store: Store
    const scheduler: Scheduler
    ghost var trace: seq<Event>

    constructor (host: Host, store: Store, scheduler: Scheduler, cfg: Config)
      ensures this.host == host && this.store == store && this.scheduler == scheduler && this.cfg == cfg && trace == []
    {
      this.host, this.store, this.scheduler, this.cfg := host, store, scheduler, cfg;
      trace := [];
    }

    // The state shared between requests is the one w describes.
    ghost predicate Shared(w: World)
      reads this, host, store, store.Repr, scheduler
    {
      && store.Valid() && store.View() == w.store && scheduler.counters == w.counters
      && host.ticks == w.ticks && host.calls == w.calls && host.closed == w.closed && trace == w.trace
    }

    // The request's own state, too: its budget and the distinct budget objects of the groups on its path.
    ghost predicate Coupled(x: ExecutionState?, budgets: seq<AttemptBudget>, w: World)
      reads this, host, store, store.Repr, scheduler, x, budgets
    {
      && Shared(w)
      && w.remaining == (if x == null then REQUEST_BUDGET else x.remaining)
      && |budgets| == |w.budgets| && (forall i | 0 <= i < |budgets| :: budgets[i].remaining == w.budgets[i])
      && forall i, j | 0 <= i < j < |budgets| :: budgets[i] != budgets[j]
    }

    function CfgOf(req: Request): Config
      reads this
    {
      if req.execution == null then cfg else req.execution.cfg
    }

    // Enter the requested group, if it is one: extend the path, inherit the guard, open its budget.
    method PrepareExecution(req0: Request, ghost w0: World) returns (req: Request, f: Option<Failure>, ghost w: World)
      requires Coupled(req0.execution, req0.budgets, w0) && |req0.groupPath| <= MAX_GROUP_DEPTH
      modifies this`trace
      ensures req.execution != null && req.execution.cfg == CfgOf(req0) && req.model == req0.model
      ensures if req0.execution == null then fresh(req.execution) && !req.execution.committed
              else req.execution == req0.execution
      ensures Coupled(req.execution, req.budgets, w) && w.sink == w0.sink
      ensures match FindVirtual(CfgOf(req0), req0.model)
              case None => f == None && req == req0.(execution := req.execution) && w == w0
              case Some(g) =>
                if g.name in req0.groupPath then f == Some(GROUP_CYCLE) && w == Halt(w0, GROUP_CYCLE) && req.budgets == req0.budgets
                else if |req0.groupPath| + 1 > MAX_GROUP_DEPTH then f == Some(TOO_DEEP) && w == Halt(w0, TOO_DEEP) && req.budgets == req0.budgets
                else f == None && req.AsReq() == Entered(g, req0.AsReq()) && w == WithBudget(g, w0)
                     && (if g.maxAttempts > 0 then |req.budgets| == |req0.budgets| + 1 && req.budgets[..|req0.budgets|] == req0.budgets
                                                   && fresh(req.budgets[|req0.budgets|])
                         else req.budgets == req0.budgets)
    {
      hide Coupled, Shared, Halt;
      req, w, f := req0, w0, None;
      if req.execution == null {
        var state := new ExecutionState(cfg);
        req := req.(execution := state);
        NewStateIsCoupled(state, req.budgets, w0);
      }
      var vm := FindVirtual(req.execution.cfg, req.model);
      if vm.None? { return; }
      var g := vm.value;
      for k := 0 to |req.groupPath|
        invariant g.name !in req.groupPath[..k]
      {
        if req.groupPath[k] == g.name {
          w := HaltHere(req, GROUP_CYCLE, w0);
          return req, Some(GROUP_CYCLE), w;
        }
      }
      req := req.(groupPath := req.groupPath + [g.name]);
      if |req.groupPath| > MAX_GROUP_DEPTH {
        w := HaltHere(req, TOO_DEEP, w0);
        return req, Some(TOO_DEEP), w;
      }
      req := req.(inheritedGuard := req.inheritedGuard || g.guard);
      if g.maxAttempts > 0 {
        var budget := new AttemptBudget(g.maxAttempts);
        w := WithBudget(g, w0);
        NewBudgetIsCoupled(req.execution, req.budgets, budget, g, w0);
        req := req.(budgets := req.budgets + [budget]);
      }
    }

    // A fresh request state stands for the full safety budget.
    lemma NewStateIsCoupled(x: ExecutionState, budgets: seq<AttemptBudget>, w: World)
      requires Coupled(null, budgets, w) && x.remaining == REQUEST_BUDGET
      ensures Coupled(x, budgets, w)
    {
      hide Shared;
    }

    // A budget object not among the others can be put on the path.
    lemma NewBudgetIsCoupled(x: ExecutionState, budgets: seq<AttemptBudget>, budget: AttemptBudget, g: Group, w: World)
      requires Coupled(x, budgets, w) && budget !in budgets && g.maxAttempts > 0 && budget.remaining == g.maxAttempts
      ensures Coupled(x, budgets + [budget], WithBudget(g, w))
    {
      hide Shared;
      SharedIgnoresBudgets(w, WithBudget(g, w));
    }

    lemma CoupledParts(x: ExecutionState?, budgets: seq<AttemptBudget>, w: World)
      requires Coupled(x, budgets, w)
      ensures Shared(w) && |budgets| == |w.budgets|
    {
    }

    lemma SharedIgnoresBudgets(w: World, w': World)
      requires Shared(w) && w' == w.(remaining := w'.remaining, budgets := w'.budgets)
      ensures Shared(w')
    {
    }

    // Back at the level above, its own budgets are the ones in force.
    lemma LeavingIsCoupled(x: ExecutionState?, budgets: seq<AttemptBudget>, inner: seq<AttemptBudget>, w: World)
      requires Coupled(x, inner, w) && |budgets| <= |inner| && inner[..|budgets|] == budgets
      ensures Coupled(x, budgets, Left(|budgets|, w))
    {
      hide Shared;
      SharedIgnoresBudgets(w, Left(|budgets|, w));
      forall i | 0 <= i < |budgets| ensures budgets[i] == inner[i] { }
    }

    // Charge one attempt to the request and to every group on the path, or say why not and charge nothing.
    method ConsumeAttempt(req: Request, ghost w: World) returns (f: Option<Failure>)
      requires req.execution != null && Coupled(req.execution, req.budgets, w)
      modifies req.execution`remaining, req.budgets
      ensures f == Refusal(w, req.groupPath)
      ensures Coupled(req.execution, req.budgets,
                      if f.Some? then w else w.(remaining := w.remaining - 1, budgets := Decremented(w.budgets)))
    {
      hide Shared, AncestorExhausted;
      if req.execution.remaining <= 0 { return Some(SAFETY_EXHAUSTED); }
      for i := 0 to |req.budgets|
        invariant forall k | 0 <= k < i :: w.budgets[k] > 0
      {
        if req.budgets[i].remaining <= 0 { return Some(AncestorExhausted(req.groupPath)); }
      }
      req.execution.remaining := req.execution.remaining - 1;
      for i := 0 to |req.budgets|
        invariant req.execution.remaining == w.remaining - 1
        invariant forall k | 0 <= k < |req.budgets| :: req.budgets[k].remaining == w.budgets[k] - if k < i then 1 else 0
        invariant Shared(w)
      {
        req.budgets[i].remaining := req.budgets[i].remaining - 1;
      }
      SharedIgnoresBudgets(w, w.(remaining := w.remaining - 1, budgets := Decremented(w.budgets)));
      f := None;
    }

    // Record a failure in the cooldown table, at the current time.
    method Record(req: Request, config: Config, model: Name, kind: Kind, message: string, ghost w0: World) returns (ghost w: World)
      requires Coupled(req.execution, req.budgets, w0)
      modifies this`trace, host`ticks, store, store.Repr
      ensures w == Strike(host.env, config, w0, model, kind, message) && w.sink == w0.sink
      ensures Coupled(req.execution, req.budgets, w) && fresh(store.Repr - old(store.Repr))
    {
      hide Classify, Failed;
      var now := host.Now();
      var r := Reading(now, host.env.retryAfter(message, now), host.env.hostCooldown(message), host.env.overflowed);
      var _ := store.RecordFailure(model, kind, config.cooldown, r);
      trace := trace + [Stored(FailureEvent(host.env, config, now, model, kind, message))];
      w := Strike(host.env, config, w0, model, kind, message);
      StrikeIsFailure(host.env, config, w0, model, kind, message);
    }

    static lemma StrikeIsFailure(env: Env, config: Config, w: World, model: Name, kind: Kind, message: string)
      ensures var now := env.clock(w.ticks);
              Strike(env, config, w, model, kind, message).store
              == Failed(w.store, model, kind, config.cooldown,
                        Reading(now, env.retryAfter(message, now), env.hostCooldown(message), env.overflowed))
    {
    }

    method RecordError(req: Request, config: Config, model: Name, error: HostError, ghost w0: World)
      returns (f: Failure, kind: Kind, ghost w: World)
      requires Coupled(req.execution, req.budgets, w0)
      modifies this`trace, host`ticks, store, store.Repr
      ensures kind == Classify(error.status, error.message) && f == UpstreamFailure(error, kind)
      ensures w == Strike(host.env, config, w0, model, kind, error.message) && w.sink == w0.sink
      ensures Coupled(req.execution, req.budgets, w) && fresh(store.Repr - old(store.Repr))
    {
      hide Classify, Coupled, Strike;
      kind := Classify(error.status, error.message);
      w := Record(req, config, model, kind, error.message, w0);
      var status := error.status;
      if status == 0 { status := StatusForKind(kind); }
      f := Failure(status, if error.code != "" then error.code else "upstream_error", error.message);
    }

    method RecordMismatch(req: Request, config: Config, model: Name, actual: string, ghost w0: World)
      returns (f: Failure, ghost w: World)
      requires Coupled(req.execution, req.budgets, w0)
      modifies this`trace, host`ticks, store, store.Repr
      ensures f == MismatchFailure(model, actual)
      ensures w == Strike(host.env, config, w0, model, ModelMismatch, MismatchMessage(model, actual)) && w.sink == w0.sink
      ensures Coupled(req.execution, req.budgets, w) && fresh(store.Repr - old(store.Repr))
    {
      hide Coupled, Strike;
      var msg := MismatchMessage(model, actual);
      w := Record(req, config, model, ModelMismatch, msg, w0);
      f := Failure(503, "model_mismatch_blocked", msg);
    }

    method RecordSuccess(req: Request, model: Name, ghost w0: World) returns (ghost w: World)
      requires Coupled(req.execution, req.budgets, w0)
      modifies this`trace, store, store.Repr
      ensures w == Settle(w0, model) && w.sink == w0.sink
      ensures Coupled(req.execution, req.budgets, w) && fresh(store.Repr - old(store.Repr))
    {
      hide Succeeded;
      store.RecordSuccess(model);
      trace := trace + [Stored(CooldownHistory.Success(model))];
      w := Settle(w0, model);
    }

    // ---- plain execution ----

    // The leaf call itself, already paid for, and what it comes to.
    method CallPlain(req: Request, t: Target, ghost w0: World) returns (outcome: Outcome, ghost w: World)
      requires host.env.transport.Plain?
      requires Coupled(req.execution, req.budgets, w0.(remaining := w0.remaining - 1, budgets := Decremented(w0.budgets)))
      modifies this`trace, host`calls
      ensures outcome == NextAttempt(host.env, w0, t).outcome && !outcome.Broke? && w == Call(host.env, req.AsReq(), t, w0)
      ensures Coupled(req.execution, req.budgets, w)
    {
      hide VerdictOn, AttemptOf;
      var reply := host.Execute(t.model);
      ghost var a := NextAttempt(host.env, w0, t);
      PlainKeepsStreams(host.env, w0, t);
      trace := trace + [Called(w0.calls, t.model, req.groupPath, t.expectation, a)];
      w := Call(host.env, req.AsReq(), t, w0);
      assert w0.closed + [] == w0.closed;
      if reply.Failing? { return FaultOutcome(reply.fault), w; }
      if reply.status >= 400 { return Erred(HostError(reply.status, "", reply.body)), w; }
      if t.expectation.Some? {
        var actual := host.env.model(reply.body);
        var verdict := Check(t.expectation.value, actual);
        if verdict == Mismatch { return Mismatched(actual), w; }
      }
      outcome := Served(reply.body);
    }

    static lemma PlainKeepsStreams(env: Env, w: World, t: Target)
      requires env.transport.Plain?
      ensures NextAttempt(env, w, t) == PlainAttempt(env.transport.replies(w.calls), env.model, t.expectation)
      ensures NextAttempt(env, w, t).emitted == [] && !NextAttempt(env, w, t).openedStream
    {
    }

    // The tries on one leaf.
    method TryLeaf(req: Request, config: Config, p: Plan, t: Target, attempts0: nat, last0: Option<Failure>, ghost w0: World)
      returns (progress: LeafResult, ghost w: World)
      requires host.env.transport.Plain? && req.execution != null && Coupled(req.execution, req.budgets, w0)
      modifies this`trace, host`calls, host`ticks, store, store.Repr, req.execution`remaining, req.budgets
      ensures (progress, w) == Tries(host.env, config, req.AsReq(), p, t, 0, attempts0, last0, None, w0)
      ensures Coupled(req.execution, req.budgets, w) && fresh(store.Repr - old(store.Repr))
    {
      hide Tries, Coupled, Classify, UpstreamFailure, MismatchFailure, MismatchMessage, Strike, Settle, Halt, Call, Refusal,
           NextAttempt, VerdictOn, OrUnknown;
      ghost var env, rq := host.env, req.AsReq();
      var attempts: nat, last, mismatch, try: nat := attempts0, last0, None, 0;
      w := w0;
      while try < t.tries && attempts < p.maxAttempts
        invariant Coupled(req.execution, req.budgets, w) && fresh(store.Repr - old(store.Repr))
        invariant Tries(env, config, rq, p, t, try, attempts, last, mismatch, w)
                  == Tries(env, config, rq, p, t, 0, attempts0, last0, None, w0)
        decreases t.tries - try
      {
        TriesStep(env, config, rq, p, t, try, attempts, last, mismatch, w);
        var f := ConsumeAttempt(req, w);
        if f.Some? {
          w := HaltHere(req, f.value, w);
          return Stop(Rejected(f.value)), w;
        }
        attempts := attempts + 1;
        var outcome;
        outcome, w := CallPlain(req, t, w);
        match outcome
        case Cancelled(message) =>
          w := HaltHere(req, RequestCancelled(message), w);
          return Stop(Rejected(RequestCancelled(message))), w;
        case Erred(error) =>
          var failure, kind;
          failure, kind, w := RecordError(req, config, t.model, error, w);
          // Errors on a directly requested model are passed through; only groups fail over.
          if !p.isGroup || !Failover(kind, p.failoverClient) { return Stop(Rejected(failure)), w; }
          return Go(attempts, Some(failure)), w;
        case Mismatched(actual) =>
          mismatch := Some(OrUnknown(actual));
          try := try + 1;
        case Served(body) =>
          w := RecordSuccess(req, t.model, w);
          return Stop(Delivered(body)), w;
        case Broke(_) =>
          assert false;
      }
      TriesEnd(env, config, rq, p, t, try, attempts, last, mismatch, w);
      if mismatch.Some? {
        var f;
        f, w := RecordMismatch(req, config, t.model, mismatch.value, w);
        last := Some(f);
      }
      progress := Go(attempts, last);
    }

    method HaltHere(req: Request, f: Failure, ghost w0: World) returns (ghost w: World)
      requires Coupled(req.execution, req.budgets, w0)
      modifies this`trace
      ensures w == Halt(w0, f) && w.sink == w0.sink && Coupled(req.execution, req.budgets, w)
    {
      trace := trace + [Halted(f)];
      w := Halt(w0, f);
    }

    // Nothing is left to try.
    method GiveUp(req: Request, p: Plan, attempts: nat, last: Option<Failure>, ghost w0: World) returns (r: Result, ghost w: World)
      requires Coupled(req.execution, req.budgets, w0)
      modifies this`trace
      ensures (r, w) == Finish(req.AsReq(), p, attempts, last, w0) && r.Rejected? && w.sink == w0.sink
      ensures Coupled(req.execution, req.budgets, w)
    {
      hide Shared, FinalFailure;
      w := w0;
      if |req.groupPath| > 1 {
        for i := 0 to |req.budgets|
          invariant forall k | 0 <= k < i :: w0.budgets[k] != 0
        {
          if req.budgets[i].remaining == 0 {
            w := HaltHere(req, NESTED_EXHAUSTED, w);
            return Rejected(NESTED_EXHAUSTED), w;
          }
        }
      }
      r := Rejected(FinalFailure(req.AsReq(), p, last, attempts));
    }

    // The plan of this entry, at the current time.
    method PlanHere(req: Request, config: Config, ghost w0: World) returns (plan: PlanResult, ghost w: World)
      requires Usable(config) && Coupled(req.execution, req.budgets, w0)
      modifies this`trace, host`ticks, scheduler
      ensures plan == PlanFor(host.env, config, req.AsReq(), w0) && w == AfterPlanning(host.env, config, req.AsReq(), w0) && w.sink == w0.sink
      ensures Coupled(req.execution, req.budgets, w)
    {
      hide BuildPlan, CounterFor, AdvanceFor;
      var draws := host.env.draws(host.ticks);
      var now := host.Now();
      plan := MakePlan(config, store, scheduler, now, req.model, draws);
      trace := trace + [Drafted(req.groupPath, req.model, FindVirtual(config, req.model), plan)];
      w := AfterPlanning(host.env, config, req.AsReq(), w0);
    }

    // Run a plain request through its plan.
    method Execute(req0: Request, ghost w0: World) returns (r: Result, ghost w: World)
      requires host.env.transport.Plain? && Usable(CfgOf(req0)) && |req0.groupPath| <= MAX_GROUP_DEPTH
      requires Coupled(req0.execution, req0.budgets, w0) && (req0.execution == null ==> req0.budgets == [])
      modifies this`trace, host`calls, host`ticks, store, store.Repr, scheduler, req0.execution, req0.budgets
      ensures (r, w) == Run(host.env, old(CfgOf(req0)), req0.AsReq(), w0)
      ensures Shared(w) && fresh(store.Repr - old(store.Repr))
      ensures req0.execution != null ==> Coupled(req0.execution, req0.budgets, w)
      decreases MAX_GROUP_DEPTH - |req0.groupPath|, if IsGroup(CfgOf(req0), req0.model) then 0 else 3, 0
    {
      hide Shared, Coupled, PlanFor, Targets, Halt;
      var req, f;
      CoupledParts(req0.execution, req0.budgets, w0);
      req, f, w := PrepareExecution(req0, w0);
      CoupledParts(req.execution, req.budgets, w);
      if f.Some? { return Rejected(f.value), w; }
      var config := req.execution.cfg;
      var plan;
      plan, w := PlanHere(req, config, w);
      if plan.Refused? {
        r := Rejected(plan.failure);
      } else {
        r, w := TryTargets(req, config, plan.plan, w);
      }
      CoupledParts(req.execution, req.budgets, w);
      if IsGroup(config, req0.model) {
        LeavingIsCoupled(req.execution, req0.budgets, req.budgets, w);
        w := Left(|w0.budgets|, w);
        CoupledParts(req.execution, req0.budgets, w);
      }
    }

    method TryTargets(req: Request, config: Config, p: Plan, ghost w0: World) returns (r: Result, ghost w: World)
      requires host.env.transport.Plain? && Usable(config) && |req.groupPath| <= MAX_GROUP_DEPTH
      requires req.execution != null && req.execution.cfg == config && Coupled(req.execution, req.budgets, w0)
      modifies this`trace, host`calls, host`ticks, store, store.Repr, scheduler, req.execution, req.budgets
      ensures (r, w) == Targets(host.env, config, req.AsReq(), p, 0, 0, None, w0)
      ensures Coupled(req.execution, req.budgets, w) && fresh(store.Repr - old(store.Repr))
      decreases MAX_GROUP_DEPTH - |req.groupPath|, 1, 0
    {
      hide Coupled, Tries, Run, Finish, FailsOver, Shared;
      ghost var env, rq := host.env, req.AsReq();
      var attempts: nat, last, i: nat := 0, None, 0;
      w := w0;
      while i < |p.targets|
        invariant 0 <= i <= |p.targets|
        invariant Coupled(req.execution, req.budgets, w) && fresh(store.Repr - old(store.Repr))
        invariant Targets(env, config, rq, p, i, attempts, last, w) == Targets(env, config, rq, p, 0, 0, None, w0)
        decreases |p.targets| - i
      {
        var t := p.targets[i];
        if IsGroup(config, t.model) {
          r, w := Execute(req.(model := t.model), w);
          if !r.Rejected? { return; }
          if Terminal(r.failure) || !FailsOver(r.failure, p.failoverClient) { return; }
          last := Some(r.failure);
          i := i + 1;
          continue;
        }
        if req.inheritedGuard && t.expectation.None? {
          t := t.(expectation := Some(DefaultExpectation(config, t.model)));
        }
        var progress;
        progress, w := TryLeaf(req, config, p, t, attempts, last, w);
        match progress
        case Stop(result) =>
          return result, w;
        case Go(n, last') =>
          attempts, last := n, last';
          if attempts >= p.maxAttempts { break; }
          i := i + 1;
      }
      r, w := GiveUp(req, p, attempts, last, w);
    }

    // ---- streaming execution ----

    // The sink has received what w says.
    ghost predicate Delivering(x: ExecutionState, budgets: seq<AttemptBudget>, sink: Sink, w: World)
      reads this, host, store, store.Repr, scheduler, x, budgets, sink
    {
      host.env.transport.Streaming? && Coupled(x, budgets, w)
      && sink.delivered == w.sink && sink.refuses == host.env.transport.sink
    }

    method CallStream(req: Request, t: Target, sink: Sink, ghost w0: World) returns (report: StreamReport, ghost w: World)
      requires host.env.transport.Streaming? && req.execution != null
      requires Delivering(req.execution, req.budgets, sink, w0.(remaining := w0.remaining - 1, budgets := Decremented(w0.budgets)))
      modifies this`trace, host`calls, host`cursor, host`closed, sink
      ensures OutcomeOf(report) == NextAttempt(host.env, w0, t).outcome && w == Call(host.env, req.AsReq(), t, w0)
      ensures Delivering(req.execution, req.budgets, sink, w)
    {
      hide AttemptOf;
      report := StreamOnce(host, t, sink);
      ghost var a := NextAttempt(host.env, w0, t);
      trace := trace + [Called(w0.calls, t.model, req.groupPath, t.expectation, a)];
      w := Call(host.env, req.AsReq(), t, w0);
    }

    method MarkCommitted(req: Request, ghost w: World)
      requires req.execution != null && Coupled(req.execution, req.budgets, w)
      modifies req.execution`committed
      ensures req.execution.committed && Coupled(req.execution, req.budgets, w)
    {
      req.execution.committed := true;
    }

    // The tries on one leaf; once output is released nothing else is tried.
    method TryStreamLeaf(req: Request, config: Config, p: Plan, t: Target, sink: Sink, attempts0: nat, last0: Option<Failure>, ghost w0: World)
      returns (progress: LeafResult, ghost w: World)
      requires host.env.transport.Streaming? && req.execution != null && Delivering(req.execution, req.budgets, sink, w0)
      requires !req.execution.committed
      modifies this`trace, host, store, store.Repr, req.execution, req.budgets, sink
      ensures (progress, w) == Tries(host.env, config, req.AsReq(), p, t, 0, attempts0, last0, None, w0)
      ensures Delivering(req.execution, req.budgets, sink, w) && fresh(store.Repr - old(store.Repr))
      ensures req.execution.committed <==> progress.Stop? && !progress.result.Rejected?
    {
      hide Tries, Coupled, Classify, UpstreamFailure, MismatchFailure, MismatchMessage, Strike, Settle, Halt, Call, Refusal,
           NextAttempt, OrUnknown;
      ghost var env, rq := host.env, req.AsReq();
      var attempts: nat, last, mismatch, try: nat := attempts0, last0, None, 0;
      w := w0;
      while try < t.tries && attempts < p.maxAttempts
        invariant Delivering(req.execution, req.budgets, sink, w) && fresh(store.Repr - old(store.Repr))
        invariant !req.execution.committed
        invariant Tries(env, config, rq, p, t, try, attempts, last, mismatch, w)
                  == Tries(env, config, rq, p, t, 0, attempts0, last0, None, w0)
        decreases t.tries - try
      {
        TriesStep(env, config, rq, p, t, try, attempts, last, mismatch, w);
        var f := ConsumeAttempt(req, w);
        if f.Some? {
          w := HaltHere(req, f.value, w);
          return Stop(Rejected(f.value)), w;
        }
        attempts := attempts + 1;
        var report;
        report, w := CallStream(req, t, sink, w);
        match report
        case StreamDelivered(err) =>
          MarkCommitted(req, w);
          if err.Some? {
            // The client has partial output: all that is left is to end the stream with the error.
            w := Record(req, config, t.model, Classify(err.value.status, err.value.message), err.value.message, w);
            return Stop(Severed(err.value)), w;
          }
          w := RecordSuccess(req, t.model, w);
          return Stop(Delivered("")), w;
        case StreamMismatch(actual) =>
          mismatch := Some(OrUnknown(actual));
          try := try + 1;
        case StreamFailed(fault) =>
          if fault.Aborted? {
            w := HaltHere(req, RequestCancelled(fault.message), w);
            return Stop(Rejected(RequestCancelled(fault.message))), w;
          }
          var failure, kind;
          failure, kind, w := RecordError(req, config, t.model, fault.error, w);
          if !p.isGroup || !Failover(kind, p.failoverClient) { return Stop(Rejected(failure)), w; }
          return Go(attempts, Some(failure)), w;
      }
      TriesEnd(env, config, rq, p, t, try, attempts, last, mismatch, w);
      if mismatch.Some? {
        var f;
        f, w := RecordMismatch(req, config, t.model, mismatch.value, w);
        last := Some(f);
      }
      progress := Go(attempts, last);
    }

    // What the client stream ends with: nothing, an own failure or a foreign error.
    static function ErrorOf(r: Result): Option<StreamError> {
      match r
      case Delivered(_) => None
      case Rejected(f) => Some(Own(f))
      case Severed(e) => Some(Foreign(e))
    }

    // Run a streaming request through its plan. Nothing reaches the sink until an attempt is accepted.
    method ExecuteStream(req0: Request, sink: Sink, ghost w0: World) returns (err: Option<StreamError>, ghost w: World)
      requires host.env.transport.Streaming? && Usable(CfgOf(req0)) && |req0.groupPath| <= MAX_GROUP_DEPTH
      requires Coupled(req0.execution, req0.budgets, w0) && sink.delivered == w0.sink && sink.refuses == host.env.transport.sink
      requires if req0.execution == null then req0.budgets == [] else !req0.execution.committed
      modifies this`trace, host, store, store.Repr, scheduler, req0.execution, req0.budgets, sink
      ensures var (r, w') := Run(host.env, old(CfgOf(req0)), req0.AsReq(), w0);
              err == ErrorOf(r) && w == w'
              && (req0.execution != null ==> (req0.execution.committed <==> !r.Rejected?))
      ensures Shared(w) && sink.delivered == w.sink && fresh(store.Repr - old(store.Repr))
      ensures req0.execution != null ==> Coupled(req0.execution, req0.budgets, w)
      decreases MAX_GROUP_DEPTH - |req0.groupPath|, if IsGroup(CfgOf(req0), req0.model) then 0 else 3, 0
    {
      hide Shared, Coupled, PlanFor, Targets, AfterPlanning, Halt;
      var req, f;
      CoupledParts(req0.execution, req0.budgets, w0);
      req, f, w := PrepareExecution(req0, w0);
      CoupledParts(req.execution, req.budgets, w);
      if f.Some? { return Some(Own(f.value)), w; }
      var config := req.execution.cfg;
      var plan;
      plan, w := PlanHere(req, config, w);
      if plan.Refused? {
        err := Some(Own(plan.failure));
      } else {
        err, w := TryStreamTargets(req, config, plan.plan, sink, w);
      }
      CoupledParts(req.execution, req.budgets, w);
      if IsGroup(config, req0.model) {
        LeavingIsCoupled(req.execution, req0.budgets, req.budgets, w);
        w := Left(|w0.budgets|, w);
        CoupledParts(req.execution, req0.budgets, w);
      }
    }

    method TryStreamTargets(req: Request, config: Config, p: Plan, sink: Sink, ghost w0: World)
      returns (err: Option<StreamError>, ghost w: World)
      requires host.env.transport.Streaming? && Usable(config) && |req.groupPath| <= MAX_GROUP_DEPTH
      requires req.execution != null && req.execution.cfg == config && !req.execution.committed
      requires Delivering(req.execution, req.budgets, sink, w0)
      modifies this`trace, host, store, store.Repr, scheduler, req.execution, req.budgets, sink
      ensures var (r, w') := Targets(host.env, config, req.AsReq(), p, 0, 0, None, w0);
              err == ErrorOf(r) && w == w' && (req.execution.committed <==> !r.Rejected?)
      ensures Delivering(req.execution, req.budgets, sink, w) && fresh(store.Repr - old(store.Repr))
      decreases MAX_GROUP_DEPTH - |req.groupPath|, 1, 0
    {
      hide Coupled, Tries, Run, Finish, FailsOver, Shared;
      ghost var env, rq := host.env, req.AsReq();
      var attempts: nat, last, i: nat := 0, None, 0;
      w := w0;
      while i < |p.targets|
        invariant 0 <= i <= |p.targets|
        invariant Delivering(req.execution, req.budgets, sink, w) && fresh(store.Repr - old(store.Repr))
        invariant !req.execution.committed
        invariant Targets(env, config, rq, p, i, attempts, last, w) == Targets(env, config, rq, p, 0, 0, None, w0)
        decreases |p.targets| - i
      {
        var t := p.targets[i];
        if IsGroup(config, t.model) {
          err, w := ExecuteStream(req.(model := t.model), sink, w);
          if err.None? { return; }
          if req.execution.committed { return; }
          if err.value.Foreign? { return; }
          if Terminal(err.value.failure) || !FailsOver(err.value.failure, p.failoverClient) { return; }
          last := Some(err.value.failure);
          i := i + 1;
          continue;
        }
        if req.inheritedGuard && t.expectation.None? {
          t := t.(expectation := Some(DefaultExpectation(config, t.model)));
        }
        var progress;
        progress, w := TryStreamLeaf(req, config, p, t, sink, attempts, last, w);
        match progress
        case Stop(result) =>
          return ErrorOf(result), w;
        case Go(n, last') =>
          attempts, last := n, last';
          if attempts >= p.maxAttempts { break; }
          i := i + 1;
      }
      var r;
      r, w := GiveUp(req, p, attempts, last, w);
      err := ErrorOf(r);
    }
  }
}
