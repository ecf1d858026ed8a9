// The plain and the streaming loop make the same decisions.
module AgreementLaws {
  import opened Config
  import opened Errors
  import opened Identity
  import opened Cooldown
  import opened Planning
  import opened Transport
  import opened Routing
  import opened TraceLaws
  import opened PathLaws
  import opened RunLaws
  import CooldownHistory

  // The other environment answers each leaf call of this log alike, while nothing has reached its sink; it
  // differs in nothing but the transport.
  ghost predicate SameAnswers(env: Env, env': Env, tr: seq<Event>) {
    && env' == env.(transport := env'.transport)
    && forall i | 0 <= i < |tr| :: tr[i].Called? ==> AnswersAlike(env', tr[i])
  }

  ghost predicate AnswersAlike(env': Env, call: Event)
    requires call.Called?
  {
    Decision(AttemptOf(env'.transport, env'.model, call.index, call.expectation, 0).outcome) == Decision(call.attempt.outcome)
  }

  predicate SameEvent(e: Event, e': Event) {
    match e
    case Called(k, leaf, path, expectation, a) =>
      e'.Called? && e'.index == k && e'.leaf == leaf && e'.path == path && e'.expectation == expectation
      && Decision(e'.attempt.outcome) == Decision(a.outcome)
    case _ => e' == e
  }

  predicate SameTrace(tr: seq<Event>, tr': seq<Event>) {
    |tr| == |tr'| && forall i | 0 <= i < |tr| :: SameEvent(tr[i], tr'[i])
  }

  // The same cooldown table, counters, budgets and history of decisions; the output may differ.
  predicate SameState(w: World, w': World) {
    && w'.store == w.store && w'.counters == w.counters && w'.ticks == w.ticks && w'.calls == w.calls
    && w'.remaining == w.remaining && w'.budgets == w.budgets
    && SameTrace(w.trace, w'.trace)
  }

  predicate SameResult(r: Result, r': Result) {
    if r.Delivered? then r'.Delivered? else r' == r
  }

  // Nothing is released by an attempt that is not the last.
  lemma SilentUnlessFinal(tr: Transport, model: Bytes -> string, k: nat, e: Option<Expectation>, base: nat)
    ensures var a := AttemptOf(tr, model, k, e, base); !Final(a.outcome) ==> a.emitted == []
  {
    hide Drain, VerdictOn, Cleared, Payloads;
    if tr.Streaming? { StreamReleasesOnlyAdmittedOutput(tr.streams(k), model, e, tr.sink, base); }
  }

  lemma CallsAgree(env: Env, env': Env, req: Req, t: Target, w: World, w': World, tr: seq<Event>)
    requires SameAnswers(env, env', tr) && SameState(w, w') && w'.sink == [] && Call(env, req, t, w).trace <= tr
    ensures SameState(Call(env, req, t, w), Call(env', req, t, w'))
    ensures Decision(NextAttempt(env, w, t).outcome) == Decision(NextAttempt(env', w', t).outcome)
    ensures !Final(NextAttempt(env, w, t).outcome) ==> Call(env', req, t, w').sink == []
  {
    hide AttemptOf;
    var a := AttemptOf(env.transport, env.model, w.calls, t.expectation, |w.sink|);
    assert tr[|w.trace|] == Called(w.calls, t.model, req.path, t.expectation, a);
    assert AnswersAlike(env', tr[|w.trace|]);
    SilentUnlessFinal(env'.transport, env'.model, w'.calls, t.expectation, 0);
  }

  lemma RecordsAgree(w: World, w': World, e: Event)
    requires SameTrace(w.trace, w'.trace) && !e.Called?
    ensures SameTrace(w.trace + [e], w'.trace + [e])
  {
  }

  lemma StrikesAgree(env: Env, env': Env, cfg: Config, w: World, w': World, model: Name, kind: Kind, message: string)
    requires SameBackground(env, env') && SameState(w, w')
    ensures SameState(Strike(env, cfg, w, model, kind, message), Strike(env', cfg, w', model, kind, message))
    ensures Strike(env', cfg, w', model, kind, message).sink == w'.sink
  {
    hide SameTrace, FailureEvent;
    SameRecords(env, env', cfg);
    RecordsAgree(w, w', Stored(FailureEvent(env, cfg, env.clock(w.ticks), model, kind, message)));
  }

  lemma MarksAgree(w: World, w': World, model: Name, f: Failure)
    requires SameState(w, w')
    ensures SameState(Settle(w, model), Settle(w', model)) && SameState(Halt(w, f), Halt(w', f))
    ensures Halt(w', f).sink == w'.sink
  {
    hide SameTrace;
    RecordsAgree(w, w', Stored(CooldownHistory.Success(model)));
    RecordsAgree(w, w', Halted(f));
  }

  lemma RefusalsAgree(w: World, w': World, path: seq<Name>)
    requires SameState(w, w')
    ensures Refusal(w', path) == Refusal(w, path)
  {
    hide SameTrace;
  }

  lemma TriesExtend(env: Env, cfg: Config, req: Req, p: Plan, t: Target, try: nat, attempts: nat,
                    last: Option<Failure>, mismatch: Option<string>, w: World)
    ensures w.trace <= Tries(env, cfg, req, p, t, try, attempts, last, mismatch, w).1.trace
  {
    hide Tries, LeafTrace;
    TriesTrace(env, cfg, req, p, t, try, attempts, last, mismatch, w);
    LoggedExtends(w, Tries(env, cfg, req, p, t, try, attempts, last, mismatch, w).1);
  }

  // The same progress on a leaf, and silence unless it is the end.
  predicate SameProgress(x: LeafResult, v: World, x': LeafResult, v': World) {
    && SameState(v, v')
    && (if x.Go? then x' == x else x'.Stop? && SameResult(x.result, x'.result))
    && (x.Go? || x.result.Rejected? ==> v'.sink == [])
  }

  lemma {:induction false} TriesAgree(env: Env, env': Env, cfg: Config, req: Req, p: Plan, t: Target, try: nat, attempts: nat,
                                      last: Option<Failure>, mismatch: Option<string>, w: World, w': World, tr: seq<Event>)
    requires SameAnswers(env, env', tr) && SameState(w, w') && w'.sink == []
    requires Tries(env, cfg, req, p, t, try, attempts, last, mismatch, w).1.trace <= tr
    ensures var (x, v) := Tries(env, cfg, req, p, t, try, attempts, last, mismatch, w);
            var (x', v') := Tries(env', cfg, req, p, t, try, attempts, last, mismatch, w');
            SameProgress(x, v, x', v')
    decreases t.tries - try
  {
    hide NextAttempt, Call, Classify, Strike, Settle, Halt, Refusal, MismatchMessage, MismatchFailure, UpstreamFailure,
         SameState, SameAnswers;
    BackgroundOf(env, env', tr);
    RefusalsAgree(w, w', req.path);
    if try < t.tries && attempts < p.maxAttempts {
      var refusal := Refusal(w, req.path);
      if refusal.Some? {
        MarksAgree(w, w', t.model, refusal.value);
      } else {
        var a, w1, w1' := NextAttempt(env, w, t), Call(env, req, t, w), Call(env', req, t, w');
        TriesExtendCall(env, cfg, req, p, t, try, attempts, last, mismatch, w);
        CallsAgree(env, env', req, t, w, w', tr);
        match a.outcome
        case Served(_) => MarksAgree(w1, w1', t.model, NESTED_EXHAUSTED);
        case Cancelled(m) => MarksAgree(w1, w1', t.model, RequestCancelled(m));
        case Broke(e) => StrikesAgree(env, env', cfg, w1, w1', t.model, Classify(e.status, e.message), e.message);
        case Erred(e) => StrikesAgree(env, env', cfg, w1, w1', t.model, Classify(e.status, e.message), e.message);
        case Mismatched(actual) =>
          TriesAgree(env, env', cfg, req, p, t, try + 1, attempts + 1, last, Some(OrUnknown(actual)), w1, w1', tr);
      }
    } else if mismatch.Some? {
      StrikesAgree(env, env', cfg, w, w', t.model, ModelMismatch, MismatchMessage(t.model, mismatch.value));
    }
  }

  // A call that is made stays in the log.
  lemma TriesExtendCall(env: Env, cfg: Config, req: Req, p: Plan, t: Target, try: nat, attempts: nat,
                        last: Option<Failure>, mismatch: Option<string>, w: World)
    requires try < t.tries && attempts < p.maxAttempts && Refusal(w, req.path) == None
    ensures Call(env, req, t, w).trace <= Tries(env, cfg, req, p, t, try, attempts, last, mismatch, w).1.trace
  {
    hide NextAttempt, Call, Classify, MismatchMessage, MismatchFailure, UpstreamFailure, FailureEvent, Refusal;
    var a := NextAttempt(env, w, t);
    if a.outcome.Mismatched? {
      TriesExtend(env, cfg, req, p, t, try + 1, attempts + 1, last, Some(OrUnknown(a.outcome.actual)), Call(env, req, t, w));
    }
  }

  // Clock, draws and what is read from messages are the same.
  ghost predicate SameBackground(env: Env, env': Env) {
    env' == env.(transport := env'.transport)
  }

  lemma BackgroundOf(env: Env, env': Env, tr: seq<Event>)
    requires SameAnswers(env, env', tr)
    ensures SameBackground(env, env')
  {
    hide AnswersAlike;
  }

  lemma SameRecords(env: Env, env': Env, cfg: Config)
    requires SameBackground(env, env')
    ensures forall now: Instant, model, kind, message ::
              FailureEvent(env', cfg, now, model, kind, message) == FailureEvent(env, cfg, now, model, kind, message)
    ensures env'.clock == env.clock && env'.draws == env.draws
  {
  }

  lemma FinishesAgree(req: Req, p: Plan, attempts: nat, last: Option<Failure>, w: World, w': World)
    requires SameState(w, w')
    ensures Finish(req, p, attempts, last, w).0 == Finish(req, p, attempts, last, w').0
    ensures SameState(Finish(req, p, attempts, last, w).1, Finish(req, p, attempts, last, w').1)
  {
    hide FinalFailure, SameTrace;
    RecordsAgree(w, w', Halted(NESTED_EXHAUSTED));
  }

  lemma TargetsExtend(env: Env, cfg: Config, req: Req, p: Plan, i: nat, attempts: nat, last: Option<Failure>, w: World)
    requires Usable(cfg) && |req.path| <= MAX_GROUP_DEPTH && i <= |p.targets|
    ensures w.trace <= Targets(env, cfg, req, p, i, attempts, last, w).1.trace
  {
    hide Targets, Orderly, Announces;
    TargetsTrace(env, cfg, req, p, i, attempts, last, w);
    LoggedExtends(w, Targets(env, cfg, req, p, i, attempts, last, w).1);
  }

  lemma FinishExtends(req: Req, p: Plan, attempts: nat, last: Option<Failure>, w: World)
    ensures w.trace <= Finish(req, p, attempts, last, w).1.trace
    ensures Finish(req, p, attempts, last, w).0.Rejected? && Finish(req, p, attempts, last, w).1.sink == w.sink
  {
    hide FinalFailure;
  }

  // The same outcome of a run, and silence if it is a rejection.
  predicate SameOutcome(r: Result, v: World, r': Result, v': World) {
    SameResult(r, r') && SameState(v, v') && (r.Rejected? ==> v'.sink == [])
  }

  lemma {:induction false} TargetsAgree(env: Env, env': Env, cfg: Config, req: Req, p: Plan, i: nat, attempts: nat,
                                        last: Option<Failure>, w: World, w': World, tr: seq<Event>)
    requires Usable(cfg) && |req.path| <= MAX_GROUP_DEPTH && i <= |p.targets|
    requires SameAnswers(env, env', tr) && SameState(w, w') && w'.sink == []
    requires Targets(env, cfg, req, p, i, attempts, last, w).1.trace <= tr
    ensures var (r, v) := Targets(env, cfg, req, p, i, attempts, last, w);
            var (r', v') := Targets(env', cfg, req, p, i, attempts, last, w');
            SameOutcome(r, v, r', v')
    decreases MAX_GROUP_DEPTH - |req.path|, 1, |p.targets| - i
  {
    hide Tries, Run, Finish, FailsOver, Guarded, SameAnswers, SameState, TerminalCode;
    if i == |p.targets| {
      FinishesAgree(req, p, attempts, last, w, w');
      FinishExtends(req, p, attempts, last, w');
    } else if IsGroup(cfg, p.targets[i].model) {
      var child := req.(model := p.targets[i].model);
      var (r1, w1) := Run(env, cfg, child, w);
      var (r1', w1') := Run(env', cfg, child, w');
      var on := r1.Rejected? && !Terminal(r1.failure) && FailsOver(r1.failure, p.failoverClient);
      if on { TargetsExtend(env, cfg, req, p, i + 1, attempts, Some(r1.failure), w1); }
      RunsAgree(env, env', cfg, child, w, w', tr);
      if on { TargetsAgree(env, env', cfg, req, p, i + 1, attempts, Some(r1.failure), w1, w1', tr); }
    } else {
      var t := Guarded(cfg, req, p.targets[i]);
      var (x, w1) := Tries(env, cfg, req, p, t, 0, attempts, last, None, w);
      var (x', w1') := Tries(env', cfg, req, p, t, 0, attempts, last, None, w');
      if x.Go? {
        if x.attempts >= p.maxAttempts {
          FinishExtends(req, p, x.attempts, x.last, w1);
        } else {
          TargetsExtend(env, cfg, req, p, i + 1, x.attempts, x.last, w1);
        }
      }
      TriesAgree(env, env', cfg, req, p, t, 0, attempts, last, None, w, w', tr);
      if x.Go? {
        if x.attempts >= p.maxAttempts {
          FinishesAgree(req, p, x.attempts, x.last, w1, w1');
          FinishExtends(req, p, x.attempts, x.last, w1');
        } else {
          TargetsAgree(env, env', cfg, req, p, i + 1, x.attempts, x.last, w1, w1', tr);
        }
      }
    }
  }

  lemma PlansAgree(env: Env, env': Env, cfg: Config, req: Req, w: World, w': World)
    requires Usable(cfg) && SameBackground(env, env') && SameState(w, w')
    ensures PlanFor(env', cfg, req, w') == PlanFor(env, cfg, req, w)
    ensures SameState(AfterPlanning(env, cfg, req, w), AfterPlanning(env', cfg, req, w'))
  {
    hide BuildPlan, SameTrace, CounterFor, AdvanceFor;
    SameRecords(env, env', cfg);
    RecordsAgree(w, w', Drafted(req.path, req.model, FindVirtual(cfg, req.model), PlanFor(env, cfg, req, w)));
  }

  lemma {:induction false} ExecutesAgree(env: Env, env': Env, cfg: Config, req: Req, w: World, w': World, tr: seq<Event>)
    requires Usable(cfg) && |req.path| <= MAX_GROUP_DEPTH
    requires SameAnswers(env, env', tr) && SameState(w, w') && w'.sink == []
    requires Execute(env, cfg, req, w).1.trace <= tr
    ensures var (r, v) := Execute(env, cfg, req, w);
            var (r', v') := Execute(env', cfg, req, w');
            SameOutcome(r, v, r', v')
    decreases MAX_GROUP_DEPTH - |req.path|, 2, 0
  {
    hide PlanFor, Targets, SameAnswers, SameState;
    BackgroundOf(env, env', tr);
    PlansAgree(env, env', cfg, req, w, w');
    var plan := PlanFor(env, cfg, req, w);
    if plan.Planned? {
      TargetsAgree(env, env', cfg, req, plan.plan, 0, 0, None, AfterPlanning(env, cfg, req, w), AfterPlanning(env', cfg, req, w'), tr);
    }
  }

  lemma FramesAgree(g: Group, w: World, w': World, f: Failure)
    requires SameState(w, w')
    ensures SameState(WithBudget(g, w), WithBudget(g, w')) && SameState(Halt(w, f), Halt(w', f))
    ensures forall n: nat :: SameState(Left(n, w), Left(n, w')) && Left(n, w').sink == w'.sink
  {
    hide SameTrace;
    RecordsAgree(w, w', Halted(f));
  }

  lemma {:induction false} RunsAgree(env: Env, env': Env, cfg: Config, req: Req, w: World, w': World, tr: seq<Event>)
    requires Usable(cfg) && |req.path| <= MAX_GROUP_DEPTH
    requires SameAnswers(env, env', tr) && SameState(w, w') && w'.sink == []
    requires Run(env, cfg, req, w).1.trace <= tr
    ensures var (r, v) := Run(env, cfg, req, w);
            var (r', v') := Run(env', cfg, req, w');
            SameOutcome(r, v, r', v')
    decreases MAX_GROUP_DEPTH - |req.path|, if IsGroup(cfg, req.model) then 0 else 3, 0
  {
    hide Execute, SameAnswers, SameTrace;
    var g := FindVirtual(cfg, req.model);
    if g.None? {
      ExecutesAgree(env, env', cfg, req, w, w', tr);
    } else {
      FramesAgree(g.value, w, w', GROUP_CYCLE);
      FramesAgree(g.value, w, w', TOO_DEEP);
      if g.value.name !in req.path && |req.path| < MAX_GROUP_DEPTH {
        var inner, v, v' := Entered(g.value, req), WithBudget(g.value, w), WithBudget(g.value, w');
        ExecutesAgree(env, env', cfg, inner, v, v', tr);
        FramesAgree(g.value, Execute(env, cfg, inner, v).1, Execute(env', cfg, inner, v').1, TOO_DEEP);
      }
    }
  }

  // Streaming and plain requests agree: if the other transport answers alike each leaf call that the request
  // makes, under the expectation in force there, then the whole request goes alike: the same leaves in the
  // same order under the same expectations, the same budgets, cooldown table and counters, and the same
  // status, code and message on failure.
  lemma TransportsAgree(env: Env, env': Env, cfg: Config, model: Name, found: Found)
    requires Usable(cfg) && SameAnswers(env, env', Handled(env, cfg, model, found).1.trace)
    ensures var (r, w) := Handled(env, cfg, model, found);
            var (r', w') := Handled(env', cfg, model, found);
            SameResult(r, r') && SameState(w, w')
  {
    hide Run, SameAnswers;
    var root := RootWorld(found);
    RunsAgree(env, env', cfg, RootRequest(model), root, root, Handled(env, cfg, model, found).1.trace);
  }

  // One way to meet that premise: the stream carries, whole, the response its plain counterpart returns, the
  // sink takes it, and the name known at the deciding payload is worth the same as the name in the body. Where
  // nothing is expected no name is worth anything.
  ghost predicate Carries(s: Script, r: Reply, model: Bytes -> string, e: Option<Expectation>, sink: nat -> Option<HostError>) {
    match r
    case Failing(f) => s == NotOpened(f)
    case Answered(status, body) =>
      && s.Opened? && Trim(s.id) != "" && s.status == status && CleanFrom(s.feed, 0)
      && if status >= 400 then |Joined(s.feed, 0)| < MAX_PROBE_BYTES && body == Trim(Joined(s.feed, 0))
         else body == Concat(PayloadsFrom(s.feed, 0)) && Takes(sink, 0, |PayloadsFrom(s.feed, 0)|)
              && NameDecision(e, DecidingName(model, PayloadsFrom(s.feed, 0))) == NameDecision(e, model(body))
  }

  // Every leaf call of this log is answered by a stream that carries the plain reply.
  ghost predicate AllCarried(env: Env, env': Env, tr: seq<Event>)
    requires env.transport.Plain? && env'.transport.Streaming?
  {
    forall i | 0 <= i < |tr| :: tr[i].Called? ==>
      Carries(env'.transport.streams(tr[i].index), env.transport.replies(tr[i].index), env.model, tr[i].expectation, env'.transport.sink)
  }

  lemma CarriedResponsesAnswerAlike(env: Env, env': Env, cfg: Config, model: Name, found: Found)
    requires Usable(cfg) && env.transport.Plain? && env'.transport.Streaming? && env' == env.(transport := env'.transport)
    requires AllCarried(env, env', Handled(env, cfg, model, found).1.trace)
    ensures SameAnswers(env, env', Handled(env, cfg, model, found).1.trace)
  {
    hide Run, Orderly, Announces, Descent, StepsTo, Protected, Expected, Carries, StreamAttempt, PlainAttempt, Decision;
    RequestParts(env, cfg, model, found);
    var tr := Handled(env, cfg, model, found).1.trace;
    forall i | 0 <= i < |tr| && tr[i].Called? ensures AnswersAlike(env', tr[i]) {
      assert Proper(env, cfg, [], model, tr[i]);
      CarriedResponseAnswersAlike(env'.transport.streams(tr[i].index), env.transport.replies(tr[i].index), env.model,
                                  tr[i].expectation, env'.transport.sink);
    }
  }

  lemma CarriedResponseAnswersAlike(s: Script, r: Reply, model: Bytes -> string, e: Option<Expectation>,
                                    sink: nat -> Option<HostError>)
    requires Carries(s, r, model, e, sink)
    ensures Decision(PlainAttempt(r, model, e).outcome) == Decision(StreamAttempt(s, model, e, sink, 0).outcome)
  {
    hide Drain, Takes, DecidingName, NameDecision, Concat, ErrorBody, VerdictOn;
    if r.Answered? {
      if r.status >= 400 {
        StreamErrorAsPlain(s.id, s.status, s.feed, model, e, sink, 0);
      } else {
        StreamDecidesAsPlain(s.id, s.status, s.feed, model, e, sink, 0);
      }
    }
  }

  // Then the two requests agree to the last byte: what a delivered streaming request has put into the sink
  // is the body that the plain request delivers.
  lemma CarriedRequestsAgree(env: Env, env': Env, cfg: Config, model: Name, found: Found)
    requires Usable(cfg) && env.transport.Plain? && env'.transport.Streaming? && env' == env.(transport := env'.transport)
    requires AllCarried(env, env', Handled(env, cfg, model, found).1.trace)
    ensures var (r, w) := Handled(env, cfg, model, found);
            var (r', w') := Handled(env', cfg, model, found);
            && SameResult(r, r') && SameState(w, w')
            && (r.Delivered? ==> Concat(w'.sink) == r.body)
            && (r.Rejected? ==> w'.sink == [])
  {
    hide Run, Orderly, Announces, Descent, StepsTo, Protected, Expected, Forbidden, Vouched, Concat, Carries, PlainAttempt,
         SameTrace, Payloads, StreamAttempt, Output, OpenedStreams, CallCount, Numbered, StoreChanges, CountersAfter, Readings, Mismatching;
    CarriedResponsesAnswerAlike(env, env', cfg, model, found);
    TransportsAgree(env, env', cfg, model, found);
    ClientSeesOneStream(env', cfg, model, found);
    var (r, w) := Handled(env, cfg, model, found);
    if r.Delivered? {
      PlainResponseIsNotSubstituted(env, cfg, model, found);
      DeliveryEndsWithSuccess(env, cfg, model, found);
      RequestParts(env, cfg, model, found);
      var call := w.trace[|w.trace| - 2];
      assert Proper(env, cfg, [], model, call);
      ServedBodyIsCarried(env'.transport.streams(call.index), env.transport.replies(call.index), env.model, call.expectation,
                          env'.transport.sink, r.body);
    }
  }

  lemma ServedBodyIsCarried(s: Script, r: Reply, model: Bytes -> string, e: Option<Expectation>,
                            sink: nat -> Option<HostError>, body: Bytes)
    requires Carries(s, r, model, e, sink) && PlainAttempt(r, model, e).outcome == Served(body)
    ensures Concat(Payloads(s)) == body
  {
    hide Concat, Takes, NameDecision, VerdictOn;
  }
}
