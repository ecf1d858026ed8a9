// The history of a whole run: every change it makes is logged, every leaf call is answered by the right
// record, and the result is the one the last events announce.
module TraceLaws {
  import opened Config
  import opened Errors
  import opened Cooldown
  import opened Schedule
  import opened Planning
  import opened Transport
  import opened Routing
  import History = CooldownHistory

  // ---- the ledger: what a run changes is what its events say ----

  datatype Ledger = Ledger(store: Table, counters: map<Name, nat>, ticks: nat, sink: seq<Bytes>, closed: seq<nat>, calls: nat,
                           remaining: int, numbered: bool)

  function LedgerOf(w: World): Ledger {
    Ledger(w.store, w.counters, w.ticks, w.sink, w.closed, w.calls, w.remaining, true)
  }

  function Post(l: Ledger, e: Event): Ledger {
    match e
    case Called(k, _, _, _, a) =>
      l.(sink := l.sink + a.emitted, closed := l.closed + (if a.openedStream then [k] else []), calls := l.calls + 1,
         remaining := l.remaining - 1, numbered := l.numbered && k == l.calls)
    case Stored(c) => l.(store := History.Apply(l.store, c), ticks := l.ticks + if c.Failure? then 1 else 0)
    case Halted(_) => l
    case Drafted(_, _, g, _) =>
      l.(counters := if g.Some? then Advance(l.counters, g.value) else l.counters, ticks := l.ticks + 1)
  }

  function Posted(l: Ledger, events: seq<Event>): Ledger {
    if events == [] then l else Post(Posted(l, events[..|events| - 1]), events[|events| - 1])
  }

  lemma {:induction false} PostedConcat(l: Ledger, a: seq<Event>, b: seq<Event>)
    ensures Posted(l, a + b) == Posted(Posted(l, a), b)
  {
    if b == [] {
      assert a + b == a;
    } else {
      assert (a + b)[..|a + b| - 1] == a + b[..|b| - 1];
      PostedConcat(l, a, b[..|b| - 1]);
    }
  }

  // The events between two worlds.
  function New(w: World, w': World): seq<Event> {
    if |w.trace| <= |w'.trace| then w'.trace[|w.trace|..] else []
  }

  ghost predicate Logged(w: World, w': World) {
    w.trace <= w'.trace && LedgerOf(w') == Posted(LedgerOf(w), New(w, w'))
  }

  lemma LoggedExtends(w: World, w': World)
    requires Logged(w, w')
    ensures w.trace <= w'.trace
  {
  }

  lemma LoggedOn(w: World, w1: World, w2: World)
    requires Logged(w, w1) && Logged(w1, w2)
    ensures Logged(w, w2) && New(w, w2) == New(w, w1) + New(w1, w2)
  {
    hide Posted, LedgerOf;
    PostedConcat(LedgerOf(w), New(w, w1), New(w1, w2));
    assert New(w, w2) == New(w, w1) + New(w1, w2);
  }

  lemma LoggedOne(w: World, w': World, e: Event)
    requires w'.trace == w.trace + [e] && LedgerOf(w') == Post(LedgerOf(w), e)
    ensures Logged(w, w') && New(w, w') == [e]
  {
    assert New(w, w') == [e];
    assert [e][..0] == [];
  }

  lemma CallIsLogged(env: Env, req: Req, t: Target, w: World)
    ensures Logged(w, Call(env, req, t, w))
    ensures New(w, Call(env, req, t, w)) == [Called(w.calls, t.model, req.path, t.expectation, NextAttempt(env, w, t))]
  {
    hide NextAttempt;
    LoggedOne(w, Call(env, req, t, w), Called(w.calls, t.model, req.path, t.expectation, NextAttempt(env, w, t)));
  }

  lemma StrikeIsLogged(env: Env, cfg: Config, w: World, model: Name, kind: Kind, message: string)
    ensures var w' := Strike(env, cfg, w, model, kind, message);
            Logged(w, w') && New(w, w') == [Stored(FailureEvent(env, cfg, env.clock(w.ticks), model, kind, message))]
  {
    LoggedOne(w, Strike(env, cfg, w, model, kind, message),
              Stored(FailureEvent(env, cfg, env.clock(w.ticks), model, kind, message)));
  }

  lemma SettleIsLogged(w: World, model: Name)
    ensures Logged(w, Settle(w, model)) && New(w, Settle(w, model)) == [Stored(History.Success(model))]
  {
    LoggedOne(w, Settle(w, model), Stored(History.Success(model)));
  }

  lemma HaltIsLogged(w: World, f: Failure)
    ensures Logged(w, Halt(w, f)) && New(w, Halt(w, f)) == [Halted(f)]
  {
    LoggedOne(w, Halt(w, f), Halted(f));
  }

  // ---- the grammar of traces ----

  predicate Final(o: Outcome) {
    o.Served? || o.Broke?
  }

  predicate IsStrike(e: Event, model: Name, kind: Kind) {
    e.Stored? && e.change.Failure? && e.change.model == model && e.change.kind == kind
  }

  // What has to follow a leaf call at once.
  predicate Answers(call: Event, next: Event)
    requires call.Called?
  {
    match call.attempt.outcome
    case Served(_) => next == Stored(History.Success(call.leaf))
    case Broke(e) => IsStrike(next, call.leaf, Classify(e.status, e.message))
    case Erred(e) => IsStrike(next, call.leaf, Classify(e.status, e.message))
    case Cancelled(m) => next == Halted(RequestCancelled(m))
    case Mismatched(_) =>
      // Another try on the same leaf, or the mismatch is recorded, or a budget cut in between.
      || (next.Called? && next.leaf == call.leaf && next.path == call.path && next.expectation == call.expectation)
      || IsStrike(next, call.leaf, ModelMismatch)
      || (next.Halted? && next.failure.code == "attempt_budget_exhausted")
  }

  // The i-th event is in order; `pending` tells that a call precedes the first.
  predicate InOrder(tr: seq<Event>, i: nat, pending: bool)
    requires i < |tr|
  {
    match tr[i]
    case Called(_, _, _, _, a) =>
      i + 1 < |tr| && Answers(tr[i], tr[i + 1]) && (Final(a.outcome) ==> i + 2 == |tr|)
    case Stored(_) => if i > 0 then tr[i - 1].Called? else pending
    case Halted(f) => i + 1 == |tr| && Terminal(f)
    case Drafted(_, _, _, _) => true
  }

  ghost predicate Orderly(tr: seq<Event>, pending: bool) {
    forall i | 0 <= i < |tr| :: InOrder(tr, i, pending)
  }

  // Nothing so far ends the run.
  predicate Open(tr: seq<Event>) {
    forall i | 0 <= i < |tr| :: !tr[i].Halted? && (tr[i].Called? ==> !Final(tr[i].attempt.outcome))
  }

  // The result is the one the trace announces.
  predicate Announces(tr: seq<Event>, r: Result) {
    match r
    case Delivered(body) =>
      |tr| >= 2 && tr[|tr| - 2].Called? && tr[|tr| - 2].attempt.outcome == Served(body)
    case Severed(e) =>
      |tr| >= 2 && tr[|tr| - 2].Called? && tr[|tr| - 2].attempt.outcome == Broke(e)
    case Rejected(f) =>
      && (forall i | 0 <= i < |tr| :: tr[i].Called? ==> !Final(tr[i].attempt.outcome))
      && (forall i | 0 <= i < |tr| :: tr[i].Halted? ==> tr[i].failure == f)
  }

  lemma OrderlyConcat(a: seq<Event>, b: seq<Event>, pending: bool)
    requires Orderly(a, pending) && Open(a) && Orderly(b, false)
    ensures Orderly(a + b, pending)
  {
    var tr := a + b;
    forall i | 0 <= i < |tr| ensures InOrder(tr, i, pending) {
      if i < |a| {
        assert InOrder(a, i, pending);
      } else {
        assert InOrder(b, i - |a|, false);
      }
    }
  }

  lemma AnnouncesOn(a: seq<Event>, b: seq<Event>, r: Result)
    requires Open(a) && Announces(b, r)
    ensures Announces(a + b, r)
  {
    var tr := a + b;
    forall i | 0 <= i < |tr| ensures tr[i] == if i < |a| then a[i] else b[i - |a|] { }
  }

  // A rejected part without a halt leaves the run open.
  lemma RejectionLeavesOpen(tr: seq<Event>, r: Result)
    requires Orderly(tr, false) && Announces(tr, r) && r.Rejected? && !Terminal(r.failure)
    ensures Open(tr)
  {
    forall i | 0 <= i < |tr| ensures !tr[i].Halted? { assert InOrder(tr, i, false); }
  }

  // ---- one leaf ----

  ghost predicate GoesOn(req: Req, t: Target, e: Event) {
    || (e.Called? && e.leaf == t.model && e.path == req.path && e.expectation == t.expectation)
    || IsStrike(e, t.model, ModelMismatch)
    || (e.Halted? && e.failure.code == "attempt_budget_exhausted")
  }

  ghost predicate LeafTrace(req: Req, t: Target, pending: bool, progress: LeafResult, tr: seq<Event>) {
    && Orderly(tr, pending)
    && (pending ==> tr != [] && GoesOn(req, t, tr[0]))
    && (progress.Go? ==> Open(tr))
    && (progress.Stop? ==> Announces(tr, progress.result))
  }

  lemma CallThenRest(req: Req, t: Target, pending: bool, call: Event, rest: seq<Event>, progress: LeafResult)
    requires call.Called? && call.leaf == t.model && call.path == req.path && call.expectation == t.expectation
    requires call.attempt.outcome.Mismatched? && LeafTrace(req, t, true, progress, rest)
    ensures LeafTrace(req, t, pending, progress, [call] + rest)
  {
    var tr := [call] + rest;
    assert forall i | 1 <= i < |tr| :: tr[i] == rest[i - 1];
    forall i | 0 <= i < |tr| ensures InOrder(tr, i, pending) {
      if i > 0 { assert InOrder(rest, i - 1, true); }
    }
  }

  lemma CallThenRecord(req: Req, t: Target, pending: bool, call: Event, record: Event, progress: LeafResult)
    requires call.Called? && call.leaf == t.model && call.path == req.path && call.expectation == t.expectation
    requires Answers(call, record) && !call.attempt.outcome.Mismatched? && !record.Called?
    requires record.Halted? ==> Terminal(record.failure)
    requires match call.attempt.outcome
             case Served(body) => progress == Stop(Delivered(body))
             case Broke(e) => progress == Stop(Severed(e))
             case Erred(_) => progress.Go? || progress.result.Rejected?
             case _ => record.Halted? && progress == Stop(Rejected(record.failure))
    ensures LeafTrace(req, t, pending, progress, [call] + [record])
  {
    hide Classify;
    var tr := [call] + [record];
    assert tr[0] == call && tr[1] == record;
    assert InOrder(tr, 0, pending) && InOrder(tr, 1, pending);
  }

  lemma {:induction false} TriesTrace(env: Env, cfg: Config, req: Req, p: Plan, t: Target, try: nat, attempts: nat,
                                      last: Option<Failure>, mismatch: Option<string>, w: World)
    ensures var (progress, w') := Tries(env, cfg, req, p, t, try, attempts, last, mismatch, w);
            Logged(w, w') && LeafTrace(req, t, mismatch.Some?, progress, New(w, w'))
    decreases t.tries - try
  {
    hide Classify, Logged, New, NextAttempt, Call, Strike, Settle, Halt, MismatchMessage, MismatchFailure, UpstreamFailure,
         FailureEvent, OrUnknown, AncestorExhausted;
    assert forall path :: AncestorExhausted(path).code == "attempt_budget_exhausted" by { AncestorCodes(); }
    var (progress, w') := Tries(env, cfg, req, p, t, try, attempts, last, mismatch, w);
    if try < t.tries && attempts < p.maxAttempts {
      var refusal := Refusal(w, req.path);
      if refusal.Some? {
        HaltIsLogged(w, refusal.value);
        assert InOrder([Halted(refusal.value)], 0, mismatch.Some?);
      } else {
        AttemptTrace(env, cfg, req, p, t, try, attempts, last, mismatch, w);
      }
    } else if mismatch.Some? {
      StrikeIsLogged(env, cfg, w, t.model, ModelMismatch, MismatchMessage(t.model, mismatch.value));
      StrikeIsStrike(env, cfg, w, t.model, ModelMismatch, MismatchMessage(t.model, mismatch.value));
      assert InOrder(New(w, w'), 0, true);
    } else {
      NothingNew(w);
    }
  }

  lemma AncestorCodes()
    ensures forall path :: AncestorExhausted(path).code == "attempt_budget_exhausted"
  {
  }

  lemma NothingNew(w: World)
    ensures Logged(w, w) && New(w, w) == []
  {
  }

  lemma StrikeIsStrike(env: Env, cfg: Config, w: World, model: Name, kind: Kind, message: string)
    ensures IsStrike(Stored(FailureEvent(env, cfg, env.clock(w.ticks), model, kind, message)), model, kind)
  {
  }

  // The try that does make its call.
  lemma {:induction false} AttemptTrace(env: Env, cfg: Config, req: Req, p: Plan, t: Target, try: nat, attempts: nat,
                                        last: Option<Failure>, mismatch: Option<string>, w: World)
    requires try < t.tries && attempts < p.maxAttempts && Refusal(w, req.path) == None
    ensures var (progress, w') := Tries(env, cfg, req, p, t, try, attempts, last, mismatch, w);
            Logged(w, w') && LeafTrace(req, t, mismatch.Some?, progress, New(w, w'))
    decreases t.tries - try, 0
  {
    hide Classify, Logged, New, NextAttempt, Call, Strike, Settle, Halt, MismatchMessage, MismatchFailure, UpstreamFailure,
         FailureEvent, LeafTrace, Refusal;
    var (progress, w') := Tries(env, cfg, req, p, t, try, attempts, last, mismatch, w);
    var a, w1 := NextAttempt(env, w, t), Call(env, req, t, w);
    var call := Called(w.calls, t.model, req.path, t.expectation, a);
    CallIsLogged(env, req, t, w);
    match a.outcome
    case Served(body) =>
      SettleIsLogged(w1, t.model);
      LoggedOn(w, w1, w');
      CallThenRecord(req, t, mismatch.Some?, call, Stored(History.Success(t.model)), progress);
    case Broke(e) =>
      var kind := Classify(e.status, e.message);
      StrikeIsLogged(env, cfg, w1, t.model, kind, e.message);
      StrikeIsStrike(env, cfg, w1, t.model, kind, e.message);
      LoggedOn(w, w1, w');
      CallThenRecord(req, t, mismatch.Some?, call, New(w1, w')[0], progress);
    case Erred(e) =>
      var kind := Classify(e.status, e.message);
      StrikeIsLogged(env, cfg, w1, t.model, kind, e.message);
      StrikeIsStrike(env, cfg, w1, t.model, kind, e.message);
      LoggedOn(w, w1, w');
      CallThenRecord(req, t, mismatch.Some?, call, New(w1, w')[0], progress);
    case Cancelled(m) =>
      HaltIsLogged(w1, RequestCancelled(m));
      LoggedOn(w, w1, w');
      CallThenRecord(req, t, mismatch.Some?, call, Halted(RequestCancelled(m)), progress);
    case Mismatched(actual) =>
      TriesTrace(env, cfg, req, p, t, try + 1, attempts + 1, last, Some(OrUnknown(actual)), w1);
      LoggedOn(w, w1, w');
      CallThenRest(req, t, mismatch.Some?, call, New(w1, w'), progress);
  }

  // ---- the whole recursion ----

  ghost predicate Chronicle(w: World, r: Result, w': World) {
    Logged(w, w') && Orderly(New(w, w'), false) && Announces(New(w, w'), r)
  }

  lemma ChronicleOn(w: World, w1: World, r: Result, w2: World)
    requires Logged(w, w1) && Orderly(New(w, w1), false) && Open(New(w, w1))
    requires Chronicle(w1, r, w2)
    ensures Chronicle(w, r, w2)
  {
    hide Logged, New, Orderly, Open, Announces;
    LoggedOn(w, w1, w2);
    OrderlyConcat(New(w, w1), New(w1, w2), false);
    AnnouncesOn(New(w, w1), New(w1, w2), r);
  }

  // Planning and budget bookkeeping are not logged.
  predicate SameBooks(w: World, w': World) {
    w'.trace == w.trace && LedgerOf(w') == LedgerOf(w)
  }

  lemma ChronicleOfSame(w: World, w1: World, r: Result, w2: World, w': World)
    requires SameBooks(w, w1) && Chronicle(w1, r, w2) && SameBooks(w2, w')
    ensures Chronicle(w, r, w')
  {
    assert New(w, w') == New(w1, w2);
  }

  lemma FinishTrace(req: Req, p: Plan, attempts: nat, last: Option<Failure>, w: World)
    ensures var (r, w') := Finish(req, p, attempts, last, w); Chronicle(w, r, w')
  {
    hide FinalFailure;
    HaltIsLogged(w, NESTED_EXHAUSTED);
    NothingNew(w);
  }

  lemma {:induction false} TargetsTrace(env: Env, cfg: Config, req: Req, p: Plan, i: nat, attempts: nat,
                                        last: Option<Failure>, w: World)
    requires Usable(cfg) && |req.path| <= MAX_GROUP_DEPTH && i <= |p.targets|
    ensures var (r, w') := Targets(env, cfg, req, p, i, attempts, last, w); Chronicle(w, r, w')
    decreases MAX_GROUP_DEPTH - |req.path|, 1, |p.targets| - i
  {
    hide Tries, Run, Finish, FailsOver, Guarded, Logged, New, Orderly, Open, Announces;
    var (r, w') := Targets(env, cfg, req, p, i, attempts, last, w);
    if i == |p.targets| {
      FinishTrace(req, p, attempts, last, w);
    } else if IsGroup(cfg, p.targets[i].model) {
      var child := req.(model := p.targets[i].model);
      RunTrace(env, cfg, child, w);
      var (r1, w1) := Run(env, cfg, child, w);
      if r1.Rejected? && !Terminal(r1.failure) && FailsOver(r1.failure, p.failoverClient) {
        RejectionLeavesOpen(New(w, w1), r1);
        TargetsTrace(env, cfg, req, p, i + 1, attempts, Some(r1.failure), w1);
        ChronicleOn(w, w1, r, w');
      }
    } else {
      var t := Guarded(cfg, req, p.targets[i]);
      TriesTrace(env, cfg, req, p, t, 0, attempts, last, None, w);
      var (progress, w1) := Tries(env, cfg, req, p, t, 0, attempts, last, None, w);
      if progress.Go? {
        if progress.attempts >= p.maxAttempts {
          FinishTrace(req, p, progress.attempts, progress.last, w1);
        } else {
          TargetsTrace(env, cfg, req, p, i + 1, progress.attempts, progress.last, w1);
        }
        ChronicleOn(w, w1, r, w');
      }
    }
  }

  lemma {:induction false} ExecuteTrace(env: Env, cfg: Config, req: Req, w: World)
    requires Usable(cfg) && |req.path| <= MAX_GROUP_DEPTH
    ensures var (r, w') := Execute(env, cfg, req, w); Chronicle(w, r, w')
    decreases MAX_GROUP_DEPTH - |req.path|, 2, 0
  {
    hide PlanFor, Targets, Chronicle;
    var (r, w') := Execute(env, cfg, req, w);
    var planned := AfterPlanning(env, cfg, req, w);
    var plan := PlanFor(env, cfg, req, w);
    DraftIsLogged(env, cfg, req, w);
    if plan.Planned? {
      TargetsTrace(env, cfg, req, plan.plan, 0, 0, None, planned);
    } else {
      RefusalTrace(planned, plan.failure);
    }
    ChronicleOn(w, planned, r, w');
  }

  lemma DraftIsLogged(env: Env, cfg: Config, req: Req, w: World)
    requires Usable(cfg)
    ensures var planned := AfterPlanning(env, cfg, req, w);
            Logged(w, planned) && Orderly(New(w, planned), false) && Open(New(w, planned))
  {
    hide PlanFor;
    LoggedOne(w, AfterPlanning(env, cfg, req, w), Drafted(req.path, req.model, FindVirtual(cfg, req.model), PlanFor(env, cfg, req, w)));
  }

  lemma RefusalTrace(w: World, f: Failure)
    ensures Chronicle(w, Rejected(f), w)
  {
    NothingNew(w);
  }

  // Every run, from any world and at any depth, leaves an orderly account of itself.
  lemma {:induction false} RunTrace(env: Env, cfg: Config, req: Req, w: World)
    requires Usable(cfg) && |req.path| <= MAX_GROUP_DEPTH
    ensures var (r, w') := Run(env, cfg, req, w); Chronicle(w, r, w')
    decreases MAX_GROUP_DEPTH - |req.path|, if IsGroup(cfg, req.model) then 0 else 3, 0
  {
    hide Execute, Chronicle;
    var g := FindVirtual(cfg, req.model);
    if g.None? {
      ExecuteTrace(env, cfg, req, w);
    } else if g.value.name in req.path {
      HaltTrace(w, GROUP_CYCLE);
    } else if |req.path| + 1 > MAX_GROUP_DEPTH {
      HaltTrace(w, TOO_DEEP);
    } else {
      ExecuteTrace(env, cfg, Entered(g.value, req), WithBudget(g.value, w));
      var (r, w2) := Execute(env, cfg, Entered(g.value, req), WithBudget(g.value, w));
      ChronicleOfSame(w, WithBudget(g.value, w), r, w2, Left(|w.budgets|, w2));
    }
  }

  lemma HaltTrace(w: World, f: Failure)
    requires Terminal(f)
    ensures Chronicle(w, Rejected(f), Halt(w, f))
  {
    HaltIsLogged(w, f);
  }
}
