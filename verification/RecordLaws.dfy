// What goes on record about a failure: the call before it decides the leaf, the kind and the message, and the
// hint in that message, the clock and the configured cooldowns decide the rest.
module RecordLaws {
  import opened Config
  import opened Errors
  import opened Cooldown
  import opened Planning
  import opened Transport
  import opened Routing
  import opened RunLaws
  import opened BlameLaws
  import History = CooldownHistory

  // What a call that failed, or broke off, has to say.
  function Complaint(call: Event): (Kind, string)
    requires call.Called?
  {
    match call.attempt.outcome
    case Erred(e) => (Classify(e.status, e.message), e.message)
    case Broke(e) => (Classify(e.status, e.message), e.message)
    case Mismatched(actual) =>
      (ModelMismatch, "orangeguard: " + Quoted(call.leaf) + " was served by " + Quoted(OrUnknown(actual))
                      + "; refusing to return a substituted model")
    case _ => (Client, "")
  }

  // A failure on record at position i is that of the call before it, read at that moment.
  predicate ReadRight(env: Env, cfg: Config, ticks: nat, tr: seq<Event>, i: int)
    requires 0 <= i < |tr|
  {
    tr[i].Stored? && tr[i].change.Failure? ==>
      && i > 0 && tr[i - 1].Called?
      && var (kind, message) := Complaint(tr[i - 1]);
         var now := env.clock(ticks + Readings(tr[..i]));
         tr[i].change == History.Failure(tr[i - 1].leaf, kind, cfg.cooldown,
                                         Reading(now, env.retryAfter(message, now), env.hostCooldown(message), env.overflowed))
  }

  ghost predicate AllRead(env: Env, cfg: Config, ticks: nat, w: World) {
    w.ticks == ticks + Readings(w.trace) && forall i | 0 <= i < |w.trace| :: ReadRight(env, cfg, ticks, w.trace, i)
  }

  lemma ReadOn(env: Env, cfg: Config, ticks: nat, w: World, e: Event, w': World)
    requires AllRead(env, cfg, ticks, w) && w'.trace == w.trace + [e]
    requires w'.ticks == w.ticks + if e.Drafted? || (e.Stored? && e.change.Failure?) then 1 else 0
    requires ReadRight(env, cfg, ticks, w.trace + [e], |w.trace|)
    ensures AllRead(env, cfg, ticks, w')
  {
    hide Complaint;
    var tr := w'.trace;
    assert tr[..|tr| - 1] == w.trace;
    forall i | 0 <= i < |tr| ensures ReadRight(env, cfg, ticks, tr, i) {
      if i < |w.trace| {
        assert ReadRight(env, cfg, ticks, w.trace, i);
        assert tr[..i] == w.trace[..i] && tr[i] == w.trace[i];
        if i > 0 { assert tr[i - 1] == w.trace[i - 1]; }
      }
    }
  }

  // An event that records no failure and takes no time.
  lemma QuietEvent(env: Env, cfg: Config, ticks: nat, w: World, e: Event, w': World)
    requires AllRead(env, cfg, ticks, w) && w'.trace == w.trace + [e] && w'.ticks == w.ticks
    requires !e.Drafted? && !(e.Stored? && e.change.Failure?)
    ensures AllRead(env, cfg, ticks, w')
  {
    hide AllRead;
    ReadOn(env, cfg, ticks, w, e, w');
  }

  lemma StrikeIsRead(env: Env, cfg: Config, ticks: nat, w: World, model: Name, kind: Kind, message: string)
    requires AllRead(env, cfg, ticks, w) && w.trace != []
    requires var call := w.trace[|w.trace| - 1]; call.Called? && call.leaf == model && Complaint(call) == (kind, message)
    ensures AllRead(env, cfg, ticks, Strike(env, cfg, w, model, kind, message))
  {
    hide Complaint, History.Apply;
    var w' := Strike(env, cfg, w, model, kind, message);
    var tr := w'.trace;
    assert tr[..|w.trace|] == w.trace && tr[|w.trace| - 1] == w.trace[|w.trace| - 1];
    ReadOn(env, cfg, ticks, w, tr[|w.trace|], w');
  }

  // ---- the run ----

  lemma {:induction false} TriesAreRead(env: Env, cfg: Config, req: Req, p: Plan, t: Target, try: nat, attempts: nat,
                                        last: Option<Failure>, mismatch: Option<string>, w: World, ticks: nat)
    requires AllRead(env, cfg, ticks, w) && (mismatch.Some? ==> Pending(w.trace, t, mismatch.value))
    ensures AllRead(env, cfg, ticks, Tries(env, cfg, req, p, t, try, attempts, last, mismatch, w).1)
    decreases t.tries - try
  {
    hide Tries, NextAttempt, Classify, Failover, MismatchFailure, UpstreamFailure, Strike, Refusal, OrUnknown, AllRead;
    if try < t.tries && attempts < p.maxAttempts {
      TriesStep(env, cfg, req, p, t, try, attempts, last, mismatch, w);
      var f := Refusal(w, req.path);
      if f.Some? {
        QuietEvent(env, cfg, ticks, w, Halted(f.value), Halt(w, f.value));
      } else {
        var a, w1 := NextAttempt(env, w, t), Call(env, req, t, w);
        QuietEvent(env, cfg, ticks, w, Called(w.calls, t.model, req.path, t.expectation, a), w1);
        match a.outcome
        case Mismatched(actual) =>
          TriesAreRead(env, cfg, req, p, t, try + 1, attempts + 1, last, Some(OrUnknown(actual)), w1, ticks);
        case Cancelled(m) => QuietEvent(env, cfg, ticks, w1, Halted(RequestCancelled(m)), Halt(w1, RequestCancelled(m)));
        case Served(_) => QuietEvent(env, cfg, ticks, w1, Stored(History.Success(t.model)), Settle(w1, t.model));
        case Erred(e) => StrikeIsRead(env, cfg, ticks, w1, t.model, Classify(e.status, e.message), e.message);
        case Broke(e) => StrikeIsRead(env, cfg, ticks, w1, t.model, Classify(e.status, e.message), e.message);
      }
    } else {
      TriesEnd(env, cfg, req, p, t, try, attempts, last, mismatch, w);
      if mismatch.Some? { StrikeIsRead(env, cfg, ticks, w, t.model, ModelMismatch, MismatchMessage(t.model, mismatch.value)); }
    }
  }

  lemma FinishIsRead(env: Env, cfg: Config, req: Req, p: Plan, attempts: nat, last: Option<Failure>, w: World, ticks: nat)
    requires AllRead(env, cfg, ticks, w)
    ensures AllRead(env, cfg, ticks, Finish(req, p, attempts, last, w).1)
  {
    hide AllRead, FinalFailure;
    QuietEvent(env, cfg, ticks, w, Halted(NESTED_EXHAUSTED), Halt(w, NESTED_EXHAUSTED));
  }

  lemma {:induction false} TargetsAreRead(env: Env, cfg: Config, req: Req, p: Plan, i: nat, attempts: nat, last: Option<Failure>,
                                          w: World, ticks: nat)
    requires Usable(cfg) && |req.path| <= MAX_GROUP_DEPTH && i <= |p.targets| && AllRead(env, cfg, ticks, w)
    ensures AllRead(env, cfg, ticks, Targets(env, cfg, req, p, i, attempts, last, w).1)
    decreases MAX_GROUP_DEPTH - |req.path|, 1, |p.targets| - i
  {
    hide Tries, Run, Finish, FailsOver, Guarded, AllRead, TerminalCode;
    if i == |p.targets| {
      FinishIsRead(env, cfg, req, p, attempts, last, w, ticks);
    } else if IsGroup(cfg, p.targets[i].model) {
      var child := req.(model := p.targets[i].model);
      RunIsRead(env, cfg, child, w, ticks);
      var (r1, w1) := Run(env, cfg, child, w);
      if r1.Rejected? && !Terminal(r1.failure) && FailsOver(r1.failure, p.failoverClient) {
        TargetsAreRead(env, cfg, req, p, i + 1, attempts, Some(r1.failure), w1, ticks);
      }
    } else {
      var t := Guarded(cfg, req, p.targets[i]);
      TriesAreRead(env, cfg, req, p, t, 0, attempts, last, None, w, ticks);
      var (x, w1) := Tries(env, cfg, req, p, t, 0, attempts, last, None, w);
      if x.Go? {
        if x.attempts >= p.maxAttempts {
          FinishIsRead(env, cfg, req, p, x.attempts, x.last, w1, ticks);
        } else {
          TargetsAreRead(env, cfg, req, p, i + 1, x.attempts, x.last, w1, ticks);
        }
      }
    }
  }

  lemma {:induction false} ExecuteIsRead(env: Env, cfg: Config, req: Req, w: World, ticks: nat)
    requires Usable(cfg) && |req.path| <= MAX_GROUP_DEPTH && AllRead(env, cfg, ticks, w)
    ensures AllRead(env, cfg, ticks, Execute(env, cfg, req, w).1)
    decreases MAX_GROUP_DEPTH - |req.path|, 2, 0
  {
    hide PlanFor, Targets, AllRead, AdvanceFor;
    var plan, w1 := PlanFor(env, cfg, req, w), AfterPlanning(env, cfg, req, w);
    ReadOn(env, cfg, ticks, w, w1.trace[|w.trace|], w1);
    if plan.Planned? { TargetsAreRead(env, cfg, req, plan.plan, 0, 0, None, w1, ticks); }
  }

  lemma SameRead(env: Env, cfg: Config, ticks: nat, w: World, w': World)
    requires AllRead(env, cfg, ticks, w) && w'.trace == w.trace && w'.ticks == w.ticks
    ensures AllRead(env, cfg, ticks, w')
  {
  }

  lemma {:induction false} RunIsRead(env: Env, cfg: Config, req: Req, w: World, ticks: nat)
    requires Usable(cfg) && |req.path| <= MAX_GROUP_DEPTH && AllRead(env, cfg, ticks, w)
    ensures AllRead(env, cfg, ticks, Run(env, cfg, req, w).1)
    decreases MAX_GROUP_DEPTH - |req.path|, if IsGroup(cfg, req.model) then 0 else 3, 0
  {
    hide Execute, AllRead;
    var g := FindVirtual(cfg, req.model);
    if g.None? {
      ExecuteIsRead(env, cfg, req, w, ticks);
    } else if g.value.name in req.path {
      QuietEvent(env, cfg, ticks, w, Halted(GROUP_CYCLE), Halt(w, GROUP_CYCLE));
    } else if |req.path| >= MAX_GROUP_DEPTH {
      QuietEvent(env, cfg, ticks, w, Halted(TOO_DEEP), Halt(w, TOO_DEEP));
    } else {
      var inner, w1 := Entered(g.value, req), WithBudget(g.value, w);
      SameRead(env, cfg, ticks, w, w1);
      ExecuteIsRead(env, cfg, inner, w1, ticks);
      SameRead(env, cfg, ticks, Execute(env, cfg, inner, w1).1, Run(env, cfg, req, w).1);
    }
  }

  // Each failure that a request puts on record is that of the call right before it: of its leaf and its kind,
  // with the hint that its message holds at that time and under the configured cooldowns.
  lemma RecordsFollowTheMessage(env: Env, cfg: Config, model: Name, found: Found, i: nat)
    requires Usable(cfg) && i < |Handled(env, cfg, model, found).1.trace|
    ensures ReadRight(env, cfg, found.ticks, Handled(env, cfg, model, found).1.trace, i)
  {
    hide Run, ReadRight;
    RunIsRead(env, cfg, RootRequest(model), RootWorld(found), found.ticks);
  }
}
