// Cancellation: before anything is released it records nothing and ends the request; after the release it is
// taken for an upstream failure and strikes the leaf.
module CancelLaws {
  import opened Config
  import opened Errors
  import opened Cooldown
  import opened Planning
  import opened Transport
  import opened Routing
  import opened TraceLaws
  import opened PathLaws
  import opened RunLaws
  import opened AnswerLaws
  import History = CooldownHistory

  // The k-th stream is cut off by this cancellation.
  predicate CutOff(tr: Transport, k: nat, m: string) {
    tr.Streaming? && tr.streams(k).Opened? && Trim(tr.streams(k).id) != "" && tr.streams(k).status < 400
    && EndingFrom(tr.streams(k).feed, 0) == Cut(Aborted(m))
  }

  ghost function WatchOf(env: Env, call: Event): Watch
    requires call.Called? && env.transport.Streaming? && env.transport.streams(call.index).Opened?
  {
    Watch(env.transport.streams(call.index).feed, env.model, call.expectation, env.transport.sink, 0)
  }

  // The payloads before the cancellation have settled the matter, and the name they go by passes.
  ghost predicate Released(env: Env, call: Event)
    requires call.Called? && env.transport.Streaming? && env.transport.streams(call.index).Opened?
  {
    var w := WatchOf(env, call);
    var payloads := PayloadsFrom(w.feed, 0);
    Settled(w, payloads) && !Mismatching(w.expectation, DecidingName(w.model, payloads))
  }

  // A cancelled stream strikes its leaf exactly when its output had been released before: then it is recorded
  // with the kind of what broke it, the cancellation or an earlier refusal by the sink, and the client is told
  // that. While nothing was settled it records nothing and ends the request.
  lemma CancellationStrikesIff(env: Env, cfg: Config, model: Name, found: Found, i: nat, m: string)
    requires Usable(cfg)
    requires var tr := Handled(env, cfg, model, found).1.trace; i < |tr| && tr[i].Called? && CutOff(env.transport, tr[i].index, m)
    ensures var (r, w') := Handled(env, cfg, model, found);
            var call, w := w'.trace[i], WatchOf(env, w'.trace[i]);
            var payloads := PayloadsFrom(w.feed, 0);
            var broken := BreakOf(w, payloads, 0, Cut(Aborted(m))).value;
            && i + 1 < |w'.trace|
            && (call.attempt.outcome.Broke? <==> Released(env, call))
            && (Released(env, call) ==>
                  i + 2 == |w'.trace| && r == Severed(broken)
                  && IsStrike(w'.trace[i + 1], call.leaf, Classify(broken.status, broken.message)))
            && (!Settled(w, payloads) ==>
                  i + 2 == |w'.trace| && w'.trace[i + 1] == Halted(RequestCancelled(m)) && r == Rejected(RequestCancelled(m)))
            && (Settled(w, payloads) && !Released(env, call) ==> call.attempt.outcome.Mismatched?)
  {
    hide Run, Posted, Proper, Classify, EndingFrom, Settled, Mismatching, DecidingName, BreakOf, OpenedStreams,
         StoreChanges, Output, CallCount, Numbered, CountersAfter, Readings, TakenBy, White, Orderly, Announces;
    var (r, w') := Handled(env, cfg, model, found);
    var tr, call := w'.trace, w'.trace[i];
    RequestParts(env, cfg, model, found);
    AnswersDecide(env, cfg, model, found, i);
    WhiteTrimsAway(env.transport.streams(call.index).id);
    CutCallsEnd(tr, r, i, m);
  }

  // How a log goes on after a cancelled or broken call.
  lemma CutCallsEnd(tr: seq<Event>, r: Result, i: nat, m: string)
    requires Orderly(tr, false) && Announces(tr, r) && i < |tr| && tr[i].Called?
    ensures i + 1 < |tr|
    ensures tr[i].attempt.outcome.Broke? ==>
              var e := tr[i].attempt.outcome.error;
              i + 2 == |tr| && r == Severed(e) && IsStrike(tr[i + 1], tr[i].leaf, Classify(e.status, e.message))
    ensures tr[i].attempt.outcome == Cancelled(m) ==>
              i + 2 == |tr| && tr[i + 1] == Halted(RequestCancelled(m)) && r == Rejected(RequestCancelled(m))
  {
    hide Classify;
    assert InOrder(tr, i, false);
    assert InOrder(tr, i + 1, false);
    if !r.Rejected? { assert InOrder(tr, |tr| - 2, false); }
  }

  // With a sink that takes what comes, the strike is for the cancellation itself.
  lemma TakingSinksBreakWithTheCancellation(w: Watch, payloads: seq<Bytes>, m: string)
    requires Takes(w.sink, 0, |payloads|)
    ensures BreakOf(w, payloads, 0, Cut(Aborted(m))) == Some(HostError(0, "", m))
  {
    AllAreTaken(payloads, w.sink, 0);
    BreakOfIs(w, payloads, 0, Cut(Aborted(m)));
  }

  // ---- what it does to a healthy model ----

  // Nothing in the text says what failed.
  predicate InText(c: char) {
    c == 'c' || c == 'o' || c == 'n' || c == 't' || c == 'e' || c == 'x' || c == ' ' || c == 'a' || c == 'l' || c == 'd'
  }

  const CANCELED := "context canceled"

  lemma TextOfCanceled()
    ensures forall i | 0 <= i < |CANCELED| :: InText(CANCELED[i])
  {
  }

  ghost predicate Foreign(m: string) {
    exists i | 0 <= i < |m| :: !InText(m[i])
  }

  lemma ForeignIsAbsent(m: string)
    requires Foreign(m)
    ensures !Contains(CANCELED, m)
  {
    hide CANCELED, InText;
    forall i | 0 <= i <= |CANCELED| - |m| ensures !OccursAt(CANCELED, m, i) { OccurrencesAreInText(m, i); }
  }

  lemma OccurrencesAreInText(m: string, i: nat)
    requires i <= |CANCELED| - |m|
    ensures OccursAt(CANCELED, m, i) ==> forall x | 0 <= x < |m| :: InText(m[x])
  {
    hide CANCELED, InText;
    TextOfCanceled();
    var word := CANCELED[i..i + |m|];
    assert forall x | 0 <= x < |m| :: word[x] == CANCELED[i + x];
  }

  lemma ForeignAt(m: string, i: nat)
    requires i < |m| && !InText(m[i])
    ensures Foreign(m)
  {
  }

  // In each marker, the position of a character that the text does not have.
  predicate Points(markers: seq<string>, at: seq<nat>) {
    |at| == |markers| && forall k | 0 <= k < |markers| :: at[k] < |markers[k]| && !InText(markers[k][at[k]])
  }

  lemma PointsJoin(a: seq<string>, at: seq<nat>, b: seq<string>, bt: seq<nat>)
    requires Points(a, at) && Points(b, bt)
    ensures Points(a + b, at + bt)
  {
    hide InText;
  }

  lemma AccountMarkersArePointed()
    ensures Points(ACCOUNT_MARKERS, [0, 0, 0, 0, 0, 0, 0, 1])
  {
  }

  lemma LimitMarkersArePointed()
    ensures Points(LIMIT_MARKERS, [0, 9, 1, 0, 0, 0, 0, 1])
  {
  }

  lemma PeriodMarkersArePointed()
    ensures Points(PERIOD_MARKERS, [2, 2, 0, 0, 0, 0, 0, 0])
  {
  }

  lemma RateMarkersArePointed()
    ensures Points(RATE_MARKERS, [0, 0, 0, 4, 0, 1, 0, 0, 0])
  {
  }

  lemma AuthMarkersArePointed()
    ensures Points(AUTH_MARKERS, [0, 0, 0, 1, 0, 0, 0, 0, 2, 0])
  {
  }

  lemma MissingModelMarkersArePointed()
    ensures Points(MISSING_MODEL_MARKERS, [0, 0, 3, 0, 3, 0, 4])
  {
  }

  lemma MissingRouteMarkersArePointed()
    ensures Points(MISSING_ROUTE_MARKERS, [0, 0, 4, 4, 1, 0])
  {
  }

  lemma PriceMarkersArePointed()
    ensures Points(PRICE_MARKERS, [0, 0])
  {
  }

  lemma NoneOfThem(markers: seq<string>, at: seq<nat>)
    requires Points(markers, at)
    ensures !ContainsAny(CANCELED, markers)
  {
    hide CANCELED, InText, Contains;
    forall k | 0 <= k < |markers| ensures !Contains(CANCELED, markers[k]) {
      ForeignAt(markers[k], at[k]);
      ForeignIsAbsent(markers[k]);
    }
  }

  lemma NoQuotaWording()
    ensures !ContainsAny(CANCELED, QUOTA_MARKERS)
  {
    hide CANCELED, ContainsAny, Points, ACCOUNT_MARKERS, LIMIT_MARKERS, PERIOD_MARKERS;
    var a, l, p := [0, 0, 0, 0, 0, 0, 0, 1], [0, 9, 1, 0, 0, 0, 0, 1], [2, 2, 0, 0, 0, 0, 0, 0];
    AccountMarkersArePointed();
    LimitMarkersArePointed();
    PeriodMarkersArePointed();
    PointsJoin(ACCOUNT_MARKERS, a, LIMIT_MARKERS, l);
    PointsJoin(ACCOUNT_MARKERS + LIMIT_MARKERS, a + l, PERIOD_MARKERS, p);
    NoneOfThem(QUOTA_MARKERS, a + l + p);
  }

  lemma NoNotFoundWording()
    ensures !ContainsAny(CANCELED, NOT_FOUND_MARKERS)
  {
    hide CANCELED, ContainsAny, Points, MISSING_MODEL_MARKERS, MISSING_ROUTE_MARKERS;
    MissingModelMarkersArePointed();
    MissingRouteMarkersArePointed();
    PointsJoin(MISSING_MODEL_MARKERS, [0, 0, 3, 0, 3, 0, 4], MISSING_ROUTE_MARKERS, [0, 0, 4, 4, 1, 0]);
    NoneOfThem(NOT_FOUND_MARKERS, [0, 0, 3, 0, 3, 0, 4] + [0, 0, 4, 4, 1, 0]);
  }

  lemma NoOtherWording()
    ensures !ContainsAny(CANCELED, RATE_MARKERS) && !ContainsAny(CANCELED, AUTH_MARKERS) && !ContainsAny(CANCELED, PRICE_MARKERS)
  {
    hide CANCELED, ContainsAny, Points, RATE_MARKERS, AUTH_MARKERS, PRICE_MARKERS;
    RateMarkersArePointed();
    AuthMarkersArePointed();
    PriceMarkersArePointed();
    NoneOfThem(RATE_MARKERS, [0, 0, 0, 4, 0, 1, 0, 0, 0]);
    NoneOfThem(AUTH_MARKERS, [0, 0, 0, 1, 0, 0, 0, 0, 2, 0]);
    NoneOfThem(PRICE_MARKERS, [0, 0]);
  }

  // A cancelled context reads like a failing server.
  lemma CanceledClassifiesAsServer()
    ensures Classify(0, CANCELED) == Server
  {
    hide CANCELED, ContainsAny, QUOTA_MARKERS, NOT_FOUND_MARKERS, RATE_MARKERS, AUTH_MARKERS, PRICE_MARKERS;
    NoQuotaWording();
    NoNotFoundWording();
    NoOtherWording();
  }

  // A stream of which one payload arrives before the client goes away.
  function Disconnected(m: string): Script {
    Opened("s", 200, [Chunk("x", "", false), ReadFault(Aborted(m))])
  }

  lemma DisconnectedAborts(m: string)
    ensures EndingFrom(Disconnected(m).feed, 0) == Cut(Aborted(m)) && PayloadsFrom(Disconnected(m).feed, 0) == ["x"]
  {
    var feed := Disconnected(m).feed;
    assert EndingFrom(feed, 1) == Cut(Aborted(m)) && PayloadsFrom(feed, 1) == [];
  }

  // The disconnected attempt, with a sink that takes the payload.
  lemma DisconnectBreaks(env: Env, k: nat, m: string)
    requires env.transport.Streaming? && env.transport.streams(k) == Disconnected(m) && env.transport.sink(0).None?
    ensures AttemptOf(env.transport, env.model, k, None, 0).outcome == Broke(HostError(0, "", m))
  {
    hide Drain, EndingFrom;
    var s, w := Disconnected(m), Watch(Disconnected(m).feed, env.model, None, env.transport.sink, 0);
    DisconnectedAborts(m);
    assert !White("s") by { assert !IsSpace("s"[0]); }
    ScriptsDecide(s, env.model, None, env.transport.sink, 0);
    BreakOfIs(w, ["x"], 0, Cut(Aborted(m)));
    assert TakenBy(["x"], env.transport.sink, 0) == 1;
  }

  // On a plain leaf without rules, a disconnect after the first payload strikes the leaf: the cooldown table
  // afterwards has one more failure of the kind that the cancellation's text is read as.
  lemma DisconnectStrikesTheLeaf(env: Env, cfg: Config, leaf: Name, found: Found, m: string)
    requires cfg.groups == [] && cfg.rules == [] && env.transport.Streaming?
    requires env.transport.streams(found.calls) == Disconnected(m) && env.transport.sink(0).None?
    ensures var (r, w') := Handled(env, cfg, leaf, found);
            var change := FailureEvent(env, cfg, env.clock(found.ticks + 1), leaf, Classify(0, m), m);
            && r == Severed(HostError(0, "", m))
            && |w'.trace| == 3 && w'.trace[1].Called? && w'.trace[1].leaf == leaf && w'.trace[2] == Stored(change)
            && w'.store == History.Apply(found.store, change)
            && w'.ticks == found.ticks + 2 && w'.calls == found.calls + 1
  {
    hide Classify, AttemptOf, FailureEvent, Disconnected, History.Apply, Tries;
    var req, root := RootRequest(leaf), RootWorld(found);
    var w1 := AfterPlanning(env, cfg, req, root);
    var p, t := DirectPlan(cfg, leaf), Target(leaf, None, 1);
    assert FindVirtual(cfg, leaf) == None && FindRule(cfg.rules, leaf) == None;
    assert PlanFor(env, cfg, req, root) == Planned(p) && p.targets == [t] && p.maxAttempts == 1;
    DisconnectBreaks(env, found.calls, m);
    assert Refusal(w1, []) == None;
    TriesStep(env, cfg, req, p, t, 0, 0, None, None, w1);
    assert Run(env, cfg, req, root) == Targets(env, cfg, req, p, 0, 0, None, w1);
  }

  // So with the default settings two clients that go away cool a healthy model down for half a minute.
  lemma TwoDisconnectsCoolDown(env: Env, cfg: Config, leaf: Name, found: Found)
    requires cfg.groups == [] && cfg.rules == [] && env.transport.Streaming? && env.transport.sink(0).None?
    requires env.transport.streams(found.calls) == env.transport.streams(found.calls + 1) == Disconnected(CANCELED)
    requires cfg.cooldown == CooldownConfig(true, 1800, 60, 600, 3600, 30, 600, 2, 2.0, 21600, true)
    requires Lookup(found.store, leaf) == FRESH
    ensures var w1 := Handled(env, cfg, leaf, found).1;
            var w2 := Handled(env, cfg, leaf, Found(w1.store, w1.counters, w1.ticks, w1.calls, w1.closed)).1;
            var now := env.clock(found.ticks + 3);
            CoolingUntil(w1.store, leaf, now) == 0 && CoolingUntil(w2.store, leaf, now) == now + 30 * SECOND
  {
    hide Run, Disconnected, CANCELED, Classify;
    CanceledClassifiesAsServer();
    var w1 := Handled(env, cfg, leaf, found).1;
    var again := Found(w1.store, w1.counters, w1.ticks, w1.calls, w1.closed);
    DisconnectStrikesTheLeaf(env, cfg, leaf, found, CANCELED);
    DisconnectStrikesTheLeaf(env, cfg, leaf, again, CANCELED);
    var e1 := FailureEvent(env, cfg, env.clock(found.ticks + 1), leaf, Server, CANCELED);
    var e2 := FailureEvent(env, cfg, env.clock(found.ticks + 3), leaf, Server, CANCELED);
    TwoServerFailures(found.store, leaf, cfg.cooldown, e1.r, e2.r);
  }

  lemma TwoServerFailures(t: Table, leaf: Name, cfg: CooldownConfig, r1: Reading, r2: Reading)
    requires cfg == CooldownConfig(true, 1800, 60, 600, 3600, 30, 600, 2, 2.0, 21600, true) && Lookup(t, leaf) == FRESH
    ensures var t1 := Failed(t, leaf, Server, cfg, r1); var t2 := Failed(t1, leaf, Server, cfg, r2);
            && (forall now :: CoolingUntil(t1, leaf, now) == 0)
            && CoolingUntil(t2, leaf, r2.now) == r2.now + 30 * SECOND
  {
    assert Pow(2.0, 0) == 1.0;
    assert Backoff(Server, 1, cfg) == 30000000000.0;
    assert Spell(Server, 1, cfg, r1) == 0 && Spell(Server, 2, cfg, r2) == 30 * SECOND;
  }
}
