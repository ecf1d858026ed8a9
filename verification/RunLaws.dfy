// What a client and an operator may rely on, for every configuration, host, sink, clock and random draw.
module RunLaws {
  import opened Config
  import opened Errors
  import opened Identity
  import opened Cooldown
  import opened Schedule
  import opened Planning
  import opened Transport
  import opened Routing
  import opened TraceLaws
  import opened PathLaws
  import History = CooldownHistory

  // One request, from the shared state it finds.
  ghost function Handled(env: Env, cfg: Config, model: Name, found: Found): (Result, World)
    requires Usable(cfg)
  {
    Run(env, cfg, RootRequest(model), RootWorld(found))
  }

  // ---- the parts of a ledger ----

  function StoreChanges(tr: seq<Event>): seq<History.StoreEvent> {
    if tr == [] then []
    else StoreChanges(tr[..|tr| - 1]) + if tr[|tr| - 1].Stored? then [tr[|tr| - 1].change] else []
  }

  function Output(tr: seq<Event>): seq<Bytes> {
    if tr == [] then []
    else Output(tr[..|tr| - 1]) + if tr[|tr| - 1].Called? then tr[|tr| - 1].attempt.emitted else []
  }

  function OpenedStreams(tr: seq<Event>): seq<nat> {
    if tr == [] then []
    else OpenedStreams(tr[..|tr| - 1])
         + if tr[|tr| - 1].Called? && tr[|tr| - 1].attempt.openedStream then [tr[|tr| - 1].index] else []
  }

  function CallCount(tr: seq<Event>): nat {
    if tr == [] then 0 else CallCount(tr[..|tr| - 1]) + if tr[|tr| - 1].Called? then 1 else 0
  }

  // The counters after the entries in the log: each entry into a round-robin group moves that group's counter.
  function CountersAfter(counters: map<Name, nat>, tr: seq<Event>): map<Name, nat> {
    if tr == [] then counters
    else
      var before, e := CountersAfter(counters, tr[..|tr| - 1]), tr[|tr| - 1];
      if e.Drafted? && e.group.Some? then Advance(before, e.group.value) else before
  }

  // How often the clock was read: once for each plan and once for each failure recorded.
  function Readings(tr: seq<Event>): nat {
    if tr == [] then 0
    else
      var e := tr[|tr| - 1];
      Readings(tr[..|tr| - 1]) + if e.Drafted? || (e.Stored? && e.change.Failure?) then 1 else 0
  }

  // Calls are numbered in order, from a given number on.
  predicate Numbered(tr: seq<Event>, from: nat) {
    forall i | 0 <= i < |tr| :: tr[i].Called? ==> tr[i].index == from + CallCount(tr[..i])
  }

  lemma ReplaySnoc(t: Table, events: seq<History.StoreEvent>, e: History.StoreEvent)
    ensures History.Replay(t, events + [e]) == History.Apply(History.Replay(t, events), e)
  {
    hide History.Apply;
    assert (events + [e])[..|events|] == events;
  }

  lemma {:induction false} PostedParts(l: Ledger, tr: seq<Event>)
    ensures var l' := Posted(l, tr);
            && l'.store == History.Replay(l.store, StoreChanges(tr))
            && l'.sink == l.sink + Output(tr)
            && l'.closed == l.closed + OpenedStreams(tr)
            && l'.calls == l.calls + CallCount(tr) && l'.remaining == l.remaining - CallCount(tr)
            && l'.counters == CountersAfter(l.counters, tr) && l'.ticks == l.ticks + Readings(tr)
  {
    hide History.Apply, History.Replay, Advance;
    if tr == [] {
      assert History.Replay(l.store, []) == l.store by { EmptyReplay(l.store); }
    } else {
      var front, e := tr[..|tr| - 1], tr[|tr| - 1];
      PostedParts(l, front);
      if e.Stored? {
        ReplaySnoc(l.store, StoreChanges(front), e.change);
      } else {
        assert StoreChanges(tr) == StoreChanges(front);
      }
    }
  }

  lemma EmptyReplay(t: Table)
    ensures History.Replay(t, []) == t
  {
  }

  lemma {:induction false} PostedInOrder(l: Ledger, tr: seq<Event>)
    requires Posted(l, tr).numbered
    ensures Numbered(tr, l.calls)
  {
    hide History.Apply;
    if tr != [] {
      var front := tr[..|tr| - 1];
      PostedInOrder(l, front);
      PostedParts(l, front);
      forall i | 0 <= i < |tr| && tr[i].Called? ensures tr[i].index == l.calls + CallCount(tr[..i]) {
        if i < |front| {
          assert tr[..i] == front[..i] && tr[i] == front[i];
        } else {
          assert tr[..i] == front;
        }
      }
    }
  }

  lemma RequestParts(env: Env, cfg: Config, model: Name, found: Found)
    requires Usable(cfg)
    ensures var (r, w') := Handled(env, cfg, model, found);
            && w'.store == History.Replay(found.store, StoreChanges(w'.trace))
            && w'.sink == Output(w'.trace) && w'.closed == found.closed + OpenedStreams(w'.trace)
            && w'.calls == found.calls + CallCount(w'.trace) && Numbered(w'.trace, found.calls)
            && w'.counters == CountersAfter(found.counters, w'.trace) && w'.ticks == found.ticks + Readings(w'.trace)
            && Orderly(w'.trace, false) && Announces(w'.trace, r)
            && AllProper(env, cfg, [], model, RootWorld(found), w')
  {
    hide Run, Proper, Orderly, Announces, Posted, OpenedStreams, Output, CallCount, Numbered, StoreChanges, CountersAfter, Readings;
    var root, req := RootWorld(found), RootRequest(model);
    var (r, w') := Run(env, cfg, req, root);
    RunTrace(env, cfg, req, root);
    assert New(root, w') == w'.trace;
    PostedParts(LedgerOf(root), w'.trace);
    PostedInOrder(LedgerOf(root), w'.trace);
    RootIsWellFormed(cfg, model);
    RunIsProper(env, cfg, req, root);
    assert [] + Output(w'.trace) == Output(w'.trace);
  }

  lemma RootIsWellFormed(cfg: Config, model: Name)
    ensures WellFormed(cfg, RootRequest(model))
  {
  }

  // ---- scheduling counters ----

  // The entries into a round-robin group of that name.
  function EntriesOf(tr: seq<Event>, name: Name): nat {
    if tr == [] then 0
    else
      var e := tr[|tr| - 1];
      EntriesOf(tr[..|tr| - 1], name)
      + if e.Drafted? && e.group.Some? && e.group.value.name == name && e.group.value.strategy == RoundRobin then 1 else 0
  }

  function CounterNamed(counters: map<Name, nat>, name: Name): nat {
    if name in counters then counters[name] else 0
  }

  lemma {:induction false} EntriesAreCounted(counters: map<Name, nat>, tr: seq<Event>, name: Name)
    requires CounterNamed(counters, name) < UINT64_LIMIT
    ensures CounterNamed(CountersAfter(counters, tr), name) == (CounterNamed(counters, name) + EntriesOf(tr, name)) % UINT64_LIMIT
  {
    hide UINT64_LIMIT;
    if tr != [] {
      var front := tr[..|tr| - 1];
      EntriesAreCounted(counters, front, name);
      OneMoreModulo(CounterNamed(counters, name) + EntriesOf(front, name));
    }
  }

  lemma OneMoreModulo(x: nat)
    ensures (x % UINT64_LIMIT + 1) % UINT64_LIMIT == (x + 1) % UINT64_LIMIT
  {
  }

  // A request advances the counter of a round-robin group once for each entry into it, and at no other time:
  // not while availability is looked up, not on retries, and not for groups of other strategies.
  lemma CountersAdvancePerEntry(env: Env, cfg: Config, model: Name, found: Found, name: Name)
    requires Usable(cfg) && CounterNamed(found.counters, name) < UINT64_LIMIT
    ensures var w' := Handled(env, cfg, model, found).1;
            CounterNamed(w'.counters, name) == (CounterNamed(found.counters, name) + EntriesOf(w'.trace, name)) % UINT64_LIMIT
  {
    hide Run, Proper, Orderly, Announces, CountersAfter, EntriesOf;
    RequestParts(env, cfg, model, found);
    EntriesAreCounted(found.counters, Handled(env, cfg, model, found).1.trace, name);
  }

  // ---- cooldown accounting ----

  // The cooldown table after a request is the replay of its recorded changes, and every record belongs to
  // the leaf call just before it: a served call settles its leaf, an error or a break strikes it once with
  // the kind of that error, a rejected one is retried, struck once as a mismatch or cut off by a budget, and
  // a cancelled one records nothing and ends the run.
  lemma EveryCallIsAccountedFor(env: Env, cfg: Config, model: Name, found: Found)
    requires Usable(cfg)
    ensures var w' := Handled(env, cfg, model, found).1;
            w'.store == History.Replay(found.store, StoreChanges(w'.trace)) && AccountedFor(w'.trace)
  {
    hide Run, AccountedFor, Proper, Orderly, Announces;
    RequestParts(env, cfg, model, found);
    OrderlyIsAccountedFor(Handled(env, cfg, model, found).1.trace);
  }

  // A leaf call is answered by the next event; a record answers the call just before it.
  predicate AccountedAt(tr: seq<Event>, i: nat)
    requires i < |tr|
  {
    && (tr[i].Called? ==> i + 1 < |tr| && Answers(tr[i], tr[i + 1]))
    && (tr[i].Stored? ==> i > 0 && tr[i - 1].Called? && Answers(tr[i - 1], tr[i]))
  }

  predicate AccountedFor(tr: seq<Event>) {
    forall i | 0 <= i < |tr| :: AccountedAt(tr, i)
  }

  lemma OrderlyIsAccountedFor(tr: seq<Event>)
    requires Orderly(tr, false)
    ensures AccountedFor(tr)
  {
    hide Answers;
    forall i | 0 <= i < |tr| ensures AccountedAt(tr, i) {
      assert InOrder(tr, i, false);
      assert tr[i].Stored? && i > 0 ==> InOrder(tr, i - 1, false);
    }
  }

  // A delivered request ends with its serving call and that leaf's one success.
  lemma DeliveryEndsWithSuccess(env: Env, cfg: Config, model: Name, found: Found)
    requires Usable(cfg)
    ensures var (r, w') := Handled(env, cfg, model, found); var tr := w'.trace;
            if r.Delivered? then
              |tr| >= 2 && tr[|tr| - 2].Called? && tr[|tr| - 2].attempt.outcome == Served(r.body)
              && tr[|tr| - 1] == Stored(History.Success(tr[|tr| - 2].leaf))
              && forall i | 0 <= i < |tr| - 1 :: tr[i].Stored? ==> tr[i].change.Failure?
            else forall i | 0 <= i < |tr| :: tr[i].Stored? ==> tr[i].change.Failure?
  {
    hide Run, Orderly, Announces, Proper, Answers;
    RequestParts(env, cfg, model, found);
    var (r, w') := Handled(env, cfg, model, found);
    SuccessIsLast(w'.trace, r);
  }

  lemma SuccessIsLast(tr: seq<Event>, r: Result)
    requires Orderly(tr, false) && Announces(tr, r)
    ensures if r.Delivered? then
              |tr| >= 2 && tr[|tr| - 2].Called? && tr[|tr| - 2].attempt.outcome == Served(r.body)
              && tr[|tr| - 1] == Stored(History.Success(tr[|tr| - 2].leaf))
              && forall i | 0 <= i < |tr| - 1 :: tr[i].Stored? ==> tr[i].change.Failure?
            else forall i | 0 <= i < |tr| :: tr[i].Stored? ==> tr[i].change.Failure?
  {
    hide Classify;
    forall i | 0 <= i < |tr| && tr[i].Stored? && !tr[i].change.Failure?
      ensures r.Delivered? && i == |tr| - 1
    {
      assert InOrder(tr, i, false);
      assert InOrder(tr, i - 1, false);
      if !r.Rejected? { assert InOrder(tr, |tr| - 2, false); }
    }
    if r.Delivered? { assert InOrder(tr, |tr| - 2, false); }
  }

  // ---- halts ----

  // A halt, raised at whatever depth, is the last thing a request does and what the client is told.
  lemma HaltsReachTheClient(env: Env, cfg: Config, model: Name, found: Found, i: nat)
    requires Usable(cfg)
    requires var w' := Handled(env, cfg, model, found).1; i < |w'.trace| && w'.trace[i].Halted?
    ensures var (r, w') := Handled(env, cfg, model, found);
            i == |w'.trace| - 1 && Terminal(w'.trace[i].failure) && r == Rejected(w'.trace[i].failure)
  {
    hide Run, Orderly, Announces, Proper;
    RequestParts(env, cfg, model, found);
    var (r, w') := Handled(env, cfg, model, found);
    HaltIsLast(w'.trace, r, i);
  }

  lemma HaltIsLast(tr: seq<Event>, r: Result, i: nat)
    requires Orderly(tr, false) && Announces(tr, r) && i < |tr| && tr[i].Halted?
    ensures i == |tr| - 1 && Terminal(tr[i].failure) && r == Rejected(tr[i].failure)
  {
    hide Classify;
    assert InOrder(tr, i, false);
    assert !r.Rejected? ==> InOrder(tr, |tr| - 2, false);
  }

  // ---- no substituted response ----

  // What the client gets from a plain request is the body of the last host call. The expectation in force
  // there, the one that member lists, guard rules and guarded groups impose, did not reject it, and it reports
  // no name that the leaf's own list or guard rule denies.
  lemma PlainResponseIsNotSubstituted(env: Env, cfg: Config, model: Name, found: Found)
    requires Usable(cfg) && env.transport.Plain?
    requires Handled(env, cfg, model, found).0.Delivered?
    ensures var (r, w') := Handled(env, cfg, model, found);
            && |w'.trace| >= 2 && w'.trace[|w'.trace| - 2].Called?
            && var call := w'.trace[|w'.trace| - 2];
               && call.index == w'.calls - 1 && w'.calls > found.calls
               && env.transport.replies(call.index).Answered? && env.transport.replies(call.index).body == r.body
               && !Mismatching(call.expectation, env.model(r.body))
               && Expected(cfg, call.path, call.leaf, call.expectation)
               && (Protected(cfg, call.path) ==> call.expectation.Some?)
               && !Forbidden(cfg, call.path, call.leaf, env.model(r.body))
               && !IsGroup(cfg, call.leaf)
  {
    hide Run, VerdictOn, Answers, Descent, Protected, Expected, Forbidden;
    RequestParts(env, cfg, model, found);
    var (r, w') := Handled(env, cfg, model, found);
    var call := w'.trace[|w'.trace| - 2];
    assert Proper(env, cfg, [], model, call);
    LastCallIndex(w'.trace, found.calls);
    if Forbidden(cfg, call.path, call.leaf, env.model(r.body)) {
      ForbiddenIsMismatch(cfg, call.path, call.leaf, call.expectation, env.model(r.body));
    }
  }

  lemma LastCallIndex(tr: seq<Event>, from: nat)
    requires |tr| >= 2 && tr[|tr| - 2].Called? && Orderly(tr, false) && Final(tr[|tr| - 2].attempt.outcome) && Numbered(tr, from)
    ensures tr[|tr| - 2].index == from + CallCount(tr) - 1 && CallCount(tr) > 0
  {
    hide Classify;
    var n := |tr|;
    assert InOrder(tr, n - 2, false);
    assert tr[..n - 1][..n - 2] == tr[..n - 2] && tr[..n] == tr;
    assert CallCount(tr) == CallCount(tr[..n - 1]);
  }

  // ---- streams ----

  lemma NonFinalCallsAreSilent(env: Env, cfg: Config, model: Name, e: Event)
    requires e.Called? && Proper(env, cfg, [], model, e) && !Final(e.attempt.outcome)
    ensures e.attempt.emitted == []
  {
    hide Descent, Protected, StepsTo, Drain, VerdictOn;
    var base :| e.attempt == AttemptOf(env.transport, env.model, e.index, e.expectation, base);
    if env.transport.Streaming? {
      StreamReleasesOnlyAdmittedOutput(env.transport.streams(e.index), env.model, e.expectation, env.transport.sink, base);
    }
  }

  lemma {:induction false} SilentOutput(tr: seq<Event>)
    requires forall i | 0 <= i < |tr| :: tr[i].Called? ==> tr[i].attempt.emitted == []
    ensures Output(tr) == []
  {
    if tr != [] { SilentOutput(tr[..|tr| - 1]); }
  }

  // The output of an orderly trace is what its final call released, and nothing without one.
  lemma OutputIsFinalCall(env: Env, cfg: Config, model: Name, tr: seq<Event>, r: Result)
    requires Orderly(tr, false) && Announces(tr, r)
    requires forall i | 0 <= i < |tr| :: tr[i].Called? ==> Proper(env, cfg, [], model, tr[i])
    ensures Output(tr) == if r.Rejected? then [] else tr[|tr| - 2].attempt.emitted
  {
    hide Proper, Orderly, Output, Announces, Final;
    AnnouncedCalls(tr, r);
    if r.Rejected? {
      QuietLog(env, cfg, model, tr);
    } else {
      FinalCallIsSecondLast(tr);
      QuietFront(env, cfg, model, tr);
      OutputOfLastTwo(tr);
      assert [] + tr[|tr| - 2].attempt.emitted == tr[|tr| - 2].attempt.emitted;
    }
  }

  lemma AnnouncedCalls(tr: seq<Event>, r: Result)
    requires Announces(tr, r)
    ensures if r.Rejected? then forall i | 0 <= i < |tr| :: tr[i].Called? ==> !Final(tr[i].attempt.outcome)
            else |tr| >= 2 && tr[|tr| - 2].Called? && Final(tr[|tr| - 2].attempt.outcome)
  {
  }

  lemma QuietFront(env: Env, cfg: Config, model: Name, tr: seq<Event>)
    requires |tr| >= 2 && forall i | 0 <= i < |tr| :: tr[i].Called? ==> Proper(env, cfg, [], model, tr[i])
    requires forall i | 0 <= i < |tr| && i != |tr| - 2 :: tr[i].Called? ==> !Final(tr[i].attempt.outcome)
    ensures Output(tr[..|tr| - 2]) == []
  {
    hide Proper, Output, Final;
    var front := tr[..|tr| - 2];
    forall i | 0 <= i < |front| && front[i].Called? ensures Proper(env, cfg, [], model, front[i]) && !Final(front[i].attempt.outcome) {
      assert front[i] == tr[i];
    }
    QuietLog(env, cfg, model, front);
  }

  lemma QuietLog(env: Env, cfg: Config, model: Name, tr: seq<Event>)
    requires forall i | 0 <= i < |tr| :: tr[i].Called? ==> Proper(env, cfg, [], model, tr[i]) && !Final(tr[i].attempt.outcome)
    ensures Output(tr) == []
  {
    hide Proper, Output, Final;
    forall i | 0 <= i < |tr| && tr[i].Called? ensures tr[i].attempt.emitted == [] {
      NonFinalCallsAreSilent(env, cfg, model, tr[i]);
    }
    SilentOutput(tr);
  }

  lemma FinalCallIsSecondLast(tr: seq<Event>)
    requires Orderly(tr, false) && |tr| >= 2 && tr[|tr| - 2].Called? && Final(tr[|tr| - 2].attempt.outcome)
    ensures forall i | 0 <= i < |tr| && i != |tr| - 2 :: tr[i].Called? ==> !Final(tr[i].attempt.outcome)
    ensures !tr[|tr| - 1].Called?
  {
    hide Classify;
    assert InOrder(tr, |tr| - 2, false);
    forall i | 0 <= i < |tr| && i != |tr| - 2 && tr[i].Called? ensures !Final(tr[i].attempt.outcome) {
      assert InOrder(tr, i, false);
    }
  }

  lemma OutputOfLastTwo(tr: seq<Event>)
    requires |tr| >= 2 && tr[|tr| - 2].Called? && !tr[|tr| - 1].Called?
    ensures Output(tr) == Output(tr[..|tr| - 2]) + tr[|tr| - 2].attempt.emitted
  {
    assert tr[..|tr| - 1][..|tr| - 2] == tr[..|tr| - 2];
    assert Output(tr) == Output(tr[..|tr| - 1]);
  }

  // Whatever the sink received comes from one stream, the last one opened: a prefix of its payloads, all of
  // them when the request succeeds, nothing when it is rejected. Under an expectation nothing of it was
  // released before a payload settled the name and that name passed, or before the stream had ended without
  // a name where that is tolerated; the name it goes by is none that the leaf's own list or guard rule denies.
  lemma ClientSeesOneStream(env: Env, cfg: Config, model: Name, found: Found)
    requires Usable(cfg) && env.transport.Streaming?
    ensures var (r, w') := Handled(env, cfg, model, found);
            if r.Rejected? then w'.sink == []
            else
              && w'.calls > found.calls && |w'.trace| >= 2 && w'.trace[|w'.trace| - 2].Called?
              && var k, s := w'.calls - 1, env.transport.streams(w'.calls - 1);
                 var call := w'.trace[|w'.trace| - 2];
                 && call.index == k && w'.closed != [] && w'.closed[|w'.closed| - 1] == k
                 && w'.sink <= Payloads(s) && (r.Delivered? ==> w'.sink == Payloads(s))
                 && Vouched(env, cfg, call, s)
  {
    hide Run, Proper, Answers, Drain, Payloads, Vouched, Orderly, OpenedStreams, CallCount, Output;
    RequestParts(env, cfg, model, found);
    var (r, w') := Handled(env, cfg, model, found);
    var tr := w'.trace;
    OutputIsFinalCall(env, cfg, model, tr, r);
    if !r.Rejected? {
      LastCallIndex(tr, found.calls);
      FinalStream(env, cfg, model, tr[|tr| - 2]);
      LastOpened(tr);
    }
  }

  // The stream answered this call, under the expectation that configuration and path impose, which cleared it.
  ghost predicate Vouched(env: Env, cfg: Config, call: Event, s: Script)
    requires call.Called? && env.transport.Streaming?
  {
    && s.Opened?
    && Expected(cfg, call.path, call.leaf, call.expectation)
    && (Protected(cfg, call.path) ==> call.expectation.Some?)
    && Cleared(Watch(s.feed, env.model, call.expectation, env.transport.sink, 0), Payloads(s), CleanFrom(s.feed, 0))
    && !Forbidden(cfg, call.path, call.leaf, DecidingName(env.model, Payloads(s)))
  }

  lemma FinalStream(env: Env, cfg: Config, model: Name, call: Event)
    requires call.Called? && Proper(env, cfg, [], model, call) && env.transport.Streaming? && Final(call.attempt.outcome)
    ensures var s, a := env.transport.streams(call.index), call.attempt;
            && a.emitted <= Payloads(s) && (a.outcome.Served? ==> a.emitted == Payloads(s))
            && a.openedStream && Vouched(env, cfg, call, s)
  {
    hide Descent, Protected, StepsTo, Expected, Forbidden, Drain, VerdictOn, Cleared, Mismatching;
    var base :| call.attempt == AttemptOf(env.transport, env.model, call.index, call.expectation, base);
    var s := env.transport.streams(call.index);
    StreamReleasesOnlyAdmittedOutput(s, env.model, call.expectation, env.transport.sink, base);
    var w0 := Watch(s.feed, env.model, call.expectation, env.transport.sink, base);
    ClearanceIgnoresBase(w0, Payloads(s), CleanFrom(s.feed, 0));
    ClearedByName(w0, Payloads(s), CleanFrom(s.feed, 0));
    var name := DecidingName(env.model, Payloads(s));
    if Forbidden(cfg, call.path, call.leaf, name) { ForbiddenIsMismatch(cfg, call.path, call.leaf, call.expectation, name); }
  }

  lemma ClearanceIgnoresBase(w: Watch, seen: seq<Bytes>, ended: bool)
    requires Cleared(w, seen, ended)
    ensures Cleared(w.(base := 0), seen, ended)
  {
    hide Decided;
    if j :| 0 <= j <= |seen| && AdmittedAt(w, seen, j) { assert AdmittedAt(w.(base := 0), seen, j); }
  }

  lemma LastOpened(tr: seq<Event>)
    requires |tr| >= 2 && tr[|tr| - 2].Called? && Orderly(tr, false) && Final(tr[|tr| - 2].attempt.outcome)
    requires tr[|tr| - 2].attempt.openedStream
    ensures var o := OpenedStreams(tr); o != [] && o[|o| - 1] == tr[|tr| - 2].index
  {
    hide Classify;
    var n := |tr|;
    assert InOrder(tr, n - 2, false);
    assert tr[..n - 1][..n - 2] == tr[..n - 2];
    assert OpenedStreams(tr) == OpenedStreams(tr[..n - 1]);
  }

  predicate Opens(e: Event, k: nat) {
    e.Called? && e.index == k && e.attempt.openedStream
  }

  // The host's script opens a stream for the k-th call.
  predicate OpensAt(tr: Transport, k: nat) {
    tr.Streaming? && tr.streams(k).Opened? && Trim(tr.streams(k).id) != ""
  }

  // Each stream the host opened is closed exactly once: to what was closed before, the request adds the calls
  // it made for which the host's script opens a stream, in order, none twice.
  lemma StreamsAreClosedOnce(env: Env, cfg: Config, model: Name, found: Found)
    requires Usable(cfg)
    ensures var w' := Handled(env, cfg, model, found).1;
            && found.closed <= w'.closed
            && var closed := w'.closed[|found.closed|..];
               && (forall k: nat :: k in closed <==> found.calls <= k < w'.calls && OpensAt(env.transport, k))
               && (forall i, j | 0 <= i < j < |closed| :: closed[i] < closed[j])
  {
    hide Run, Proper, Orderly, Announces, OpensAt, OpenedStreams, Trim;
    RequestParts(env, cfg, model, found);
    var w' := Handled(env, cfg, model, found).1;
    var tr := w'.trace;
    OpenedIncrease(tr, found.calls);
    assert w'.closed[|found.closed|..] == OpenedStreams(tr);
    forall k: nat ensures k in OpenedStreams(tr) <==> found.calls <= k < w'.calls && OpensAt(env.transport, k) {
      OpenedAre(tr, k);
      forall i | 0 <= i < |tr| && tr[i].Called? { OpenedByTheHost(env, cfg, model, tr[i]); }
      if found.calls <= k < w'.calls { var i := CallNumbered(tr, found.calls, k); }
    }
  }

  lemma OpenedByTheHost(env: Env, cfg: Config, model: Name, e: Event)
    requires e.Called? && Proper(env, cfg, [], model, e)
    ensures e.attempt.openedStream <==> OpensAt(env.transport, e.index)
  {
    hide Descent, Protected, StepsTo, Expected, Drain, Trim, Payloads, Cleared;
    var base :| e.attempt == AttemptOf(env.transport, env.model, e.index, e.expectation, base);
    if env.transport.Streaming? {
      StreamReleasesOnlyAdmittedOutput(env.transport.streams(e.index), env.model, e.expectation, env.transport.sink, base);
    }
  }

  // Every number in the range belongs to a call.
  lemma {:induction false} CallNumbered(tr: seq<Event>, from: nat, k: nat) returns (i: nat)
    requires Numbered(tr, from) && from <= k < from + CallCount(tr)
    ensures i < |tr| && tr[i].Called? && tr[i].index == k
  {
    var front := tr[..|tr| - 1];
    NumberedFront(tr, from);
    if k < from + CallCount(front) {
      i := CallNumbered(front, from, k);
    } else {
      i := |front|;
    }
  }

  lemma NumberedFront(tr: seq<Event>, from: nat)
    requires Numbered(tr, from) && tr != []
    ensures Numbered(tr[..|tr| - 1], from)
    ensures tr[|tr| - 1].Called? ==> tr[|tr| - 1].index == from + CallCount(tr[..|tr| - 1])
  {
    var front := tr[..|tr| - 1];
    forall i | 0 <= i < |front| ensures front[..i] == tr[..i] && front[i] == tr[i] { }
  }

  predicate IncreasingBelow(o: seq<nat>, bound: nat) {
    (forall i, j | 0 <= i < j < |o| :: o[i] < o[j]) && forall i | 0 <= i < |o| :: o[i] < bound
  }

  lemma {:induction false} OpenedIncrease(tr: seq<Event>, from: nat)
    requires Numbered(tr, from)
    ensures IncreasingBelow(OpenedStreams(tr), from + CallCount(tr))
    ensures forall k | k in OpenedStreams(tr) :: from <= k < from + CallCount(tr)
  {
    if tr != [] {
      var front, last := tr[..|tr| - 1], tr[|tr| - 1];
      NumberedFront(tr, from);
      OpenedIncrease(front, from);
      var before, n := OpenedStreams(front), from + CallCount(front);
      assert IncreasingBelow(before, n) && IncreasingBelow(before, n + 1) && IncreasingBelow(before + [n], n + 1);
      assert OpenedStreams(tr) == if last.Called? && last.attempt.openedStream then before + [n] else before;
    }
  }

  lemma {:induction false} OpenedAre(tr: seq<Event>, k: nat)
    ensures k in OpenedStreams(tr) <==> exists i | 0 <= i < |tr| :: Opens(tr[i], k)
  {
    if tr != [] {
      var front, last := tr[..|tr| - 1], tr[|tr| - 1];
      OpenedAre(front, k);
      assert k in OpenedStreams(tr) <==> k in OpenedStreams(front) || Opens(last, k);
      assert tr == front + [last];
    }
  }
}
