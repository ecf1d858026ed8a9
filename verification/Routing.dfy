// What a request does: the nested execution of groups as one function of the request, the configuration
// and everything the outside world answers (internal/engine/engine.go and internal/engine/groups.go).
//
// Execute and ExecuteStream (Engine.dfy) are both proved to compute Run; they differ in the transport only.
module Routing {
  import opened Config
  import opened Errors
  import opened Identity
  import opened Cooldown
  import opened Schedule
  import opened Planning
  import opened Transport
  import History = CooldownHistory

  const REQUEST_BUDGET := 64

  // The outside world of one request, indexed by host call and by planning or recording step.
  datatype Env = Env(transport: Transport, model: Bytes -> string, clock: nat -> Instant, draws: nat -> Draws,
                     retryAfter: (string, Instant) -> nat, hostCooldown: string -> bool, overflowed: int)

  // A request on its way down: the groups entered so far and whether one of them is guarded.
  datatype Req = Req(model: Name, path: seq<Name>, guard: bool)

  // What a run does, in order: leaf calls, cooldown records, terminal failures, and the plan made on each entry.
  datatype Event =
    | Called(index: nat, leaf: Name, path: seq<Name>, expectation: Option<Expectation>, attempt: Attempt)
    | Stored(change: History.StoreEvent)
    | Halted(failure: Failure)
    | Drafted(path: seq<Name>, model: Name, group: Option<Group>, plan: PlanResult)

  // Everything a run reads or changes. The budgets are those of the groups entered, outermost first.
  datatype World = World(store: Table, counters: map<Name, nat>, ticks: nat, calls: nat, remaining: int,
                         budgets: seq<int>, sink: seq<Bytes>, closed: seq<nat>, trace: seq<Event>)

  // Severed: the stream broke after output had reached the client.
  datatype Result = Delivered(body: Bytes) | Rejected(failure: Failure) | Severed(error: HostError)

  // ---- failures ----

  function Exhausted(message: string): Failure {
    Failure(502, "attempt_budget_exhausted", message)
  }

  const SAFETY_EXHAUSTED := Exhausted("orangeguard: request safety budget exhausted (64 leaf calls)")
  const NESTED_EXHAUSTED := Exhausted("orangeguard: nested attempt budget exhausted")
  const GROUP_CYCLE := Failure(400, "group_cycle", "orangeguard: runtime group cycle")
  const TOO_DEEP := Failure(400, "group_depth_exceeded", "orangeguard: runtime group depth exceeded")

  function Join(names: seq<Name>): string {
    if names == [] then "" else if |names| == 1 then names[0] else names[0] + " -> " + Join(names[1..])
  }

  function AncestorExhausted(path: seq<Name>): Failure {
    Exhausted("orangeguard: ancestor attempt budget exhausted at " + Join(path))
  }

  function RequestCancelled(message: string): Failure {
    Failure(499, "request_cancelled", message)
  }

  predicate TerminalCode(code: string) {
    code == "attempt_budget_exhausted" || code == "group_cycle" || code == "group_depth_exceeded"
    || code == "request_cancelled"
  }

  predicate Terminal(f: Failure) {
    TerminalCode(f.code)
  }

  function UpstreamFailure(e: HostError, kind: Kind): Failure {
    Failure(VisibleStatus(e.status, kind), if e.code != "" then e.code else "upstream_error", e.message)
  }

  function MismatchMessage(model: Name, actual: string): string {
    "orangeguard: " + Quoted(model) + " was served by " + Quoted(actual) + "; refusing to return a substituted model"
  }

  function MismatchFailure(model: Name, actual: string): Failure {
    Failure(503, "model_mismatch_blocked", MismatchMessage(model, actual))
  }

  function Decimal(n: nat): string {
    (if n < 10 then "" else Decimal(n / 10)) + ["0123456789"[n % 10]]
  }

  const LEAD := "orangeguard: all members of "
  const MIDDLE := " failed after "
  const TAIL := " attempt(s); last error: "

  // The text a group puts in front of its last member's error.
  function Preamble(group: Name, attempts: nat): string {
    LEAD + Quoted(group) + MIDDLE + Decimal(attempts) + TAIL
  }

  function FinalFailure(req: Req, p: Plan, last: Option<Failure>, attempts: nat): Failure {
    var f := if last.Some? then last.value
             else Failure(503, "no_upstream_available", "orangeguard: no upstream could serve " + Quoted(req.model));
    if p.isGroup then f.(message := Preamble(req.model, attempts) + f.message) else f
  }

  function OrUnknown(actual: string): string {
    if Trim(actual) == "" then "<unreported>" else actual
  }

  predicate FailsOver(f: Failure, onClientError: bool) {
    Failover(Classify(f.status, f.message), onClientError)
  }

  // ---- single steps ----

  function Halt(w: World, f: Failure): World {
    w.(trace := w.trace + [Halted(f)])
  }

  // Why no further attempt may be made here, if so.
  function Refusal(w: World, path: seq<Name>): Option<Failure> {
    if w.remaining <= 0 then Some(SAFETY_EXHAUSTED)
    else if exists i | 0 <= i < |w.budgets| :: w.budgets[i] <= 0 then Some(AncestorExhausted(path))
    else None
  }

  function Decremented(budgets: seq<int>): seq<int> {
    seq(|budgets|, i requires 0 <= i < |budgets| => budgets[i] - 1)
  }

  ghost function NextAttempt(env: Env, w: World, t: Target): Attempt {
    AttemptOf(env.transport, env.model, w.calls, t.expectation, |w.sink|)
  }

  // One leaf call: it costs one unit of the request budget and of the budget of every group on the path.
  ghost function Call(env: Env, req: Req, t: Target, w: World): World {
    var a := NextAttempt(env, w, t);
    w.(calls := w.calls + 1, remaining := w.remaining - 1, budgets := Decremented(w.budgets),
       sink := w.sink + a.emitted, closed := w.closed + (if a.openedStream then [w.calls] else []),
       trace := w.trace + [Called(w.calls, t.model, req.path, t.expectation, a)])
  }

  function FailureEvent(env: Env, cfg: Config, now: Instant, model: Name, kind: Kind, message: string): History.StoreEvent {
    History.Failure(model, kind, cfg.cooldown,
                    Reading(now, env.retryAfter(message, now), env.hostCooldown(message), env.overflowed))
  }

  function Strike(env: Env, cfg: Config, w: World, model: Name, kind: Kind, message: string): World {
    var change := FailureEvent(env, cfg, env.clock(w.ticks), model, kind, message);
    w.(store := History.Apply(w.store, change), ticks := w.ticks + 1, trace := w.trace + [Stored(change)])
  }

  function Settle(w: World, model: Name): World {
    w.(store := Succeeded(w.store, model), trace := w.trace + [Stored(History.Success(model))])
  }

  // An inherited guard gives an unguarded leaf the default expectation.
  function Guarded(cfg: Config, req: Req, t: Target): Target {
    if req.guard && t.expectation == None then t.(expectation := Some(DefaultExpectation(cfg, t.model))) else t
  }

  // ---- the run ----

  // Stop: the whole group is done. Go: on to the next target.
  datatype LeafResult = Stop(result: Result) | Go(attempts: nat, last: Option<Failure>)

  // The attempts on one leaf from a given try on; `mismatch` is what the last one reported, if it was rejected.
  ghost function Tries(env: Env, cfg: Config, req: Req, p: Plan, t: Target, try: nat, attempts: nat,
                       last: Option<Failure>, mismatch: Option<string>, w: World): (LeafResult, World)
    decreases t.tries - try
  {
    if try < t.tries && attempts < p.maxAttempts then
      var refusal := Refusal(w, req.path);
      if refusal.Some? then (Stop(Rejected(refusal.value)), Halt(w, refusal.value))
      else
        var a, w' := NextAttempt(env, w, t), Call(env, req, t, w);
        match a.outcome
        case Served(body) => (Stop(Delivered(body)), Settle(w', t.model))
        case Broke(e) => (Stop(Severed(e)), Strike(env, cfg, w', t.model, Classify(e.status, e.message), e.message))
        case Cancelled(m) => (Stop(Rejected(RequestCancelled(m))), Halt(w', RequestCancelled(m)))
        case Erred(e) =>
          var kind := Classify(e.status, e.message);
          var f, w'' := UpstreamFailure(e, kind), Strike(env, cfg, w', t.model, kind, e.message);
          if !p.isGroup || !Failover(kind, p.failoverClient) then (Stop(Rejected(f)), w'')
          else (Go(attempts + 1, Some(f)), w'')
        case Mismatched(actual) =>
          Tries(env, cfg, req, p, t, try + 1, attempts + 1, last, Some(OrUnknown(actual)), w')
    else if mismatch.Some? then
      (Go(attempts, Some(MismatchFailure(t.model, mismatch.value))),
       Strike(env, cfg, w, t.model, ModelMismatch, MismatchMessage(t.model, mismatch.value)))
    else (Go(attempts, last), w)
  }

  // One step of the tries, and their end, as separate facts.
  lemma TriesStep(env: Env, cfg: Config, req: Req, p: Plan, t: Target, try: nat, attempts: nat,
                  last: Option<Failure>, mismatch: Option<string>, w: World)
    requires try < t.tries && attempts < p.maxAttempts
    ensures var tries, f := Tries(env, cfg, req, p, t, try, attempts, last, mismatch, w), Refusal(w, req.path);
            if f.Some? then tries == (Stop(Rejected(f.value)), Halt(w, f.value))
            else
              var w' := Call(env, req, t, w);
              match NextAttempt(env, w, t).outcome
              case Served(body) => tries == (Stop(Delivered(body)), Settle(w', t.model))
              case Broke(e) => tries == (Stop(Severed(e)), Strike(env, cfg, w', t.model, Classify(e.status, e.message), e.message))
              case Cancelled(m) => tries == (Stop(Rejected(RequestCancelled(m))), Halt(w', RequestCancelled(m)))
              case Erred(e) =>
                var kind := Classify(e.status, e.message);
                var f := UpstreamFailure(e, kind);
                tries == (if !p.isGroup || !Failover(kind, p.failoverClient) then Stop(Rejected(f)) else Go(attempts + 1, Some(f)),
                          Strike(env, cfg, w', t.model, kind, e.message))
              case Mismatched(actual) =>
                tries == Tries(env, cfg, req, p, t, try + 1, attempts + 1, last, Some(OrUnknown(actual)), w')
  {
    hide NextAttempt, Call, Classify, Failover, UpstreamFailure, Strike, Settle, Halt, Refusal, OrUnknown;
  }

  lemma TriesEnd(env: Env, cfg: Config, req: Req, p: Plan, t: Target, try: nat, attempts: nat,
                 last: Option<Failure>, mismatch: Option<string>, w: World)
    requires try >= t.tries || attempts >= p.maxAttempts
    ensures Tries(env, cfg, req, p, t, try, attempts, last, mismatch, w)
            == if mismatch.None? then (Go(attempts, last), w)
               else (Go(attempts, Some(MismatchFailure(t.model, mismatch.value))),
                     Strike(env, cfg, w, t.model, ModelMismatch, MismatchMessage(t.model, mismatch.value)))
  {
    hide Strike, MismatchFailure, MismatchMessage;
  }

  function Finish(req: Req, p: Plan, attempts: nat, last: Option<Failure>, w: World): (Result, World) {
    if |req.path| > 1 && exists i | 0 <= i < |w.budgets| :: w.budgets[i] == 0 then
      (Rejected(NESTED_EXHAUSTED), Halt(w, NESTED_EXHAUSTED))
    else (Rejected(FinalFailure(req, p, last, attempts)), w)
  }

  // The targets of a plan from the i-th on.
  ghost function Targets(env: Env, cfg: Config, req: Req, p: Plan, i: nat, attempts: nat, last: Option<Failure>, w: World)
    : (Result, World)
    requires Usable(cfg) && |req.path| <= MAX_GROUP_DEPTH && i <= |p.targets|
    decreases MAX_GROUP_DEPTH - |req.path|, 1, |p.targets| - i
  {
    if i == |p.targets| then Finish(req, p, attempts, last, w)
    else if IsGroup(cfg, p.targets[i].model) then
      var (r, w') := Run(env, cfg, req.(model := p.targets[i].model), w);
      if r.Rejected? && !Terminal(r.failure) && FailsOver(r.failure, p.failoverClient) then
        Targets(env, cfg, req, p, i + 1, attempts, Some(r.failure), w')
      else (r, w')
    else
      var (progress, w') := Tries(env, cfg, req, p, Guarded(cfg, req, p.targets[i]), 0, attempts, last, None, w);
      match progress
      case Stop(r) => (r, w')
      case Go(n, last') =>
        if n >= p.maxAttempts then Finish(req, p, n, last', w') else Targets(env, cfg, req, p, i + 1, n, last', w')
  }

  ghost function PlanFor(env: Env, cfg: Config, req: Req, w: World): PlanResult
    requires Usable(cfg)
  {
    BuildPlan(cfg, w.store, env.clock(w.ticks), req.model, CounterFor(cfg, w.counters, req.model), env.draws(w.ticks))
  }

  ghost function AfterPlanning(env: Env, cfg: Config, req: Req, w: World): World
    requires Usable(cfg)
  {
    w.(counters := AdvanceFor(cfg, w.counters, req.model), ticks := w.ticks + 1,
       trace := w.trace + [Drafted(req.path, req.model, FindVirtual(cfg, req.model), PlanFor(env, cfg, req, w))])
  }

  ghost function Execute(env: Env, cfg: Config, req: Req, w: World): (Result, World)
    requires Usable(cfg) && |req.path| <= MAX_GROUP_DEPTH
    decreases MAX_GROUP_DEPTH - |req.path|, 2, 0
  {
    match PlanFor(env, cfg, req, w)
    case Refused(f) => (Rejected(f), AfterPlanning(env, cfg, req, w))
    case Planned(p) => Targets(env, cfg, req, p, 0, 0, None, AfterPlanning(env, cfg, req, w))
  }

  function Entered(g: Group, req: Req): Req {
    Req(req.model, req.path + [g.name], req.guard || g.guard)
  }

  function WithBudget(g: Group, w: World): World {
    if g.maxAttempts > 0 then w.(budgets := w.budgets + [g.maxAttempts]) else w
  }

  // Budgets of groups below are given up on the way back.
  function Left(budgets: nat, w: World): World {
    if budgets <= |w.budgets| then w.(budgets := w.budgets[..budgets]) else w
  }

  ghost function Run(env: Env, cfg: Config, req: Req, w: World): (Result, World)
    requires Usable(cfg) && |req.path| <= MAX_GROUP_DEPTH
    decreases MAX_GROUP_DEPTH - |req.path|, if IsGroup(cfg, req.model) then 0 else 3, 0
  {
    match FindVirtual(cfg, req.model)
    case None => Execute(env, cfg, req, w)
    case Some(g) =>
      if g.name in req.path then (Rejected(GROUP_CYCLE), Halt(w, GROUP_CYCLE))
      else if |req.path| + 1 > MAX_GROUP_DEPTH then (Rejected(TOO_DEEP), Halt(w, TOO_DEEP))
      else
        var (r, w') := Execute(env, cfg, Entered(g, req), WithBudget(g, w));
        (r, Left(|w.budgets|, w'))
  }

  // ---- a whole request ----

  // The shared state a request finds: what earlier requests have left behind.
  datatype Found = Found(store: Table, counters: map<Name, nat>, ticks: nat, calls: nat, closed: seq<nat>)

  function RootRequest(model: Name): Req {
    Req(model, [], false)
  }

  function RootWorld(found: Found): World {
    World(found.store, found.counters, found.ticks, found.calls, REQUEST_BUDGET, [], [], found.closed, [])
  }
}
