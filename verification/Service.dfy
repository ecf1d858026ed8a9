// One client request served by an engine as earlier requests left it, plain or streamed, with the promises of
// RunLaws.dfy stated on the objects themselves. The engine's log is that of the current request.
module Service {
  import opened Config
  import opened Planning
  import opened Transport
  import opened Routing
  import opened Hosting
  import opened Execution
  import opened BudgetLaws
  import opened TraceLaws
  import opened PathLaws
  import opened RunLaws
  import opened PlanLaws
  import opened AnswerLaws
  import opened RecordLaws
  import opened ReturnLaws
  import opened BlameLaws
  import History = CooldownHistory

  ghost predicate Ready(e: Engine)
    reads e, e.host, e.store
  {
    Usable(e.cfg) && e.store.Valid()
  }

  // What the request finds.
  ghost function FoundBy(e: Engine): Found
    requires Ready(e)
    reads e, e.host, e.store, e.store.Repr, e.scheduler
  {
    Found(e.store.View(), e.scheduler.counters, e.host.ticks, e.host.calls, e.host.closed)
  }

  // The last leaf call was made under the expectation that configuration and path impose, which did not
  // reject the name; nor does the leaf's own list or guard rule deny it.
  ghost predicate NotSubstituted(cfg: Config, tr: seq<Event>, name: string) {
    && |tr| >= 2 && tr[|tr| - 2].Called?
    && var call := tr[|tr| - 2];
       && Expected(cfg, call.path, call.leaf, call.expectation) && !Mismatching(call.expectation, name)
       && (Protected(cfg, call.path) ==> call.expectation.Some?)
       && !Forbidden(cfg, call.path, call.leaf, name)
  }

  // Each call came to what the host answered, each failure on record is that of the call before it, and after an
  // upstream error only a group that fails over from it has gone on.
  ghost predicate FollowsAnswers(env: Env, cfg: Config, found: Found, tr: seq<Event>) {
    && (forall i | 0 <= i < |tr| :: tr[i].Called? ==> tr[i].attempt == AnswerTo(env, tr[i]))
    && (forall i | 0 <= i < |tr| :: ReadRight(env, cfg, found.ticks, tr, i))
    && forall i | 0 <= i < |tr| :: ReturnsAt(cfg, tr, i)
  }

  lemma RequestsFollowAnswers(env: Env, cfg: Config, model: Name, found: Found)
    requires Usable(cfg)
    ensures FollowsAnswers(env, cfg, found, Handled(env, cfg, model, found).1.trace)
  {
    hide Run, AnswerTo, ReadRight, Resumes, Orderly, IsStrike;
    var tr := Handled(env, cfg, model, found).1.trace;
    forall i | 0 <= i < |tr|
      ensures (tr[i].Called? ==> tr[i].attempt == AnswerTo(env, tr[i])) && ReadRight(env, cfg, found.ticks, tr, i) && ReturnsAt(cfg, tr, i)
    {
      if tr[i].Called? { AnswersDecide(env, cfg, model, found, i); }
      RecordsFollowTheMessage(env, cfg, model, found, i);
      if ErredAt(tr, i) && i + 2 < |tr| && Placed(tr[i + 2]) { OnlyFailoverGoesOn(env, cfg, model, found, i); }
    }
  }

  // An own failure is a terminal one, or that of the last call or refusal, as the groups on its path passed it on.
  ghost predicate Honest(tr: seq<Event>, f: Failure) {
    Terminal(f) || NothingToTry(tr, f) || exists i | 0 <= i < |tr| :: IsLast(tr, i) && Tells(f, tr[i])
  }

  lemma SeveredByTheBreak(env: Env, cfg: Config, model: Name, found: Found)
    requires Usable(cfg)
    ensures var (r, w') := Handled(env, cfg, model, found);
            r.Severed? ==> |w'.trace| >= 2 && w'.trace[|w'.trace| - 2].Called?
                           && w'.trace[|w'.trace| - 2].attempt.outcome == Broke(r.error)
  {
    hide Run, Orderly, Proper;
    RequestParts(env, cfg, model, found);
  }

  method ServePlain(e: Engine, model: Name) returns (r: Result)
    requires Ready(e) && e.host.env.transport.Plain?
    modifies e`trace, e.host`calls, e.host`ticks, e.store, e.store.Repr, e.scheduler
    ensures Ready(e) && old(e.host.calls) <= e.host.calls <= old(e.host.calls) + 64
    ensures e.store.View() == History.Replay(old(e.store.View()), StoreChanges(e.trace))
    ensures AccountedFor(e.trace) && Disciplined(e.host.env, e.cfg, old(FoundBy(e)), e.trace)
    ensures FollowsAnswers(e.host.env, e.cfg, old(FoundBy(e)), e.trace)
    ensures r.Delivered? ==>
              && e.host.calls > old(e.host.calls) && e.host.env.transport.replies(e.host.calls - 1).Answered?
              && e.host.env.transport.replies(e.host.calls - 1).body == r.body
              && NotSubstituted(e.cfg, e.trace, e.host.env.model(r.body))
    ensures r.Rejected? ==> Honest(e.trace, r.failure)
  {
    hide Run, AccountedFor, Disciplined, FollowsAnswers, Terminal, NothingToTry, Tells, IsLast, StoreChanges, Mismatching, Protected, Expected, Forbidden;
    ghost var env, found, w := e.host.env, FoundBy(e), RootWorld(FoundBy(e));
    e.trace := [];
    r, w := e.Execute(Request(model, null, [], [], false), w);
    assert (r, w) == Handled(env, e.cfg, model, found);
    RequestBudgetHolds(env, e.cfg, model, found);
    EveryCallIsAccountedFor(env, e.cfg, model, found);
    CallsFollowPlans(env, e.cfg, model, found);
    RequestsFollowAnswers(env, e.cfg, model, found);
    ClientIsToldTheLastFailure(env, e.cfg, model, found);
    if r.Delivered? { PlainResponseIsNotSubstituted(env, e.cfg, model, found); }
  }

  method ServeStream(e: Engine, model: Name, sink: Sink) returns (err: Option<StreamError>)
    requires Ready(e) && e.host.env.transport.Streaming?
    requires sink.refuses == e.host.env.transport.sink && sink.delivered == []
    modifies e`trace, e.host, e.store, e.store.Repr, e.scheduler, sink
    ensures Ready(e) && old(e.host.calls) <= e.host.calls <= old(e.host.calls) + 64
    ensures e.store.View() == History.Replay(old(e.store.View()), StoreChanges(e.trace))
    ensures AccountedFor(e.trace) && Disciplined(e.host.env, e.cfg, old(FoundBy(e)), e.trace)
    ensures FollowsAnswers(e.host.env, e.cfg, old(FoundBy(e)), e.trace)
    // Each stream that the host's script opened for this request was closed, once.
    ensures old(e.host.closed) <= e.host.closed
    ensures var closed := e.host.closed[|old(e.host.closed)|..];
            && (forall k: nat :: k in closed <==> old(e.host.calls) <= k < e.host.calls && OpensAt(e.host.env.transport, k))
            && forall i, j | 0 <= i < j < |closed| :: closed[i] < closed[j]
    // A request refused with an own failure released nothing.
    ensures err.Some? && err.value.Own? ==> sink.delivered == [] && Honest(e.trace, err.value.failure)
    // Otherwise the client saw one stream, the last one opened: all of it, or a prefix before a break.
    ensures err.None? || err.value.Foreign? ==>
              && e.host.calls > old(e.host.calls) && |e.trace| >= 2 && e.trace[|e.trace| - 2].Called?
              && var s := e.host.env.transport.streams(e.host.calls - 1);
                 && sink.delivered <= Payloads(s) && (err.None? ==> sink.delivered == Payloads(s))
                 && Vouched(e.host.env, e.cfg, e.trace[|e.trace| - 2], s)
                 && (err.Some? ==> e.trace[|e.trace| - 2].attempt.outcome == Broke(err.value.error))
  {
    hide Run, AccountedFor, Disciplined, FollowsAnswers, Terminal, NothingToTry, Tells, IsLast, StoreChanges, Vouched, Payloads, OpensAt;
    ghost var env, found, w := e.host.env, FoundBy(e), RootWorld(FoundBy(e));
    e.trace := [];
    err, w := e.ExecuteStream(Request(model, null, [], [], false), sink, w);
    ghost var r := Handled(env, e.cfg, model, found).0;
    assert err == Engine.ErrorOf(r);
    RequestBudgetHolds(env, e.cfg, model, found);
    EveryCallIsAccountedFor(env, e.cfg, model, found);
    CallsFollowPlans(env, e.cfg, model, found);
    RequestsFollowAnswers(env, e.cfg, model, found);
    StreamsAreClosedOnce(env, e.cfg, model, found);
    ClientSeesOneStream(env, e.cfg, model, found);
    ClientIsToldTheLastFailure(env, e.cfg, model, found);
    SeveredByTheBreak(env, e.cfg, model, found);
  }
}
