// What the host answers decides what a call comes to: for every reply and every stream, whatever the sink.
module AnswerLaws {
  import opened Config
  import opened Errors
  import opened Identity
  import opened Transport
  import opened Routing
  import opened TraceLaws
  import opened PathLaws
  import opened RunLaws
  import opened PlanLaws

  // ---- one stream ----

  // How a feed ends: whole, or cut by what is read in place of the next chunk.
  datatype Ending = Whole | Cut(fault: Fault)

  function EndingFrom(feed: seq<Read>, pos: nat): Ending
    decreases |feed| - pos
  {
    match ReadAt(feed, pos)
    case ReadFault(f) => Cut(f)
    case Chunk(_, err, done) =>
      if err != "" then Cut(Fault(HostError(0, "", err))) else if done then Whole else EndingFrom(feed, pos + 1)
  }

  lemma {:induction false} WholeIffClean(feed: seq<Read>, pos: nat)
    ensures EndingFrom(feed, pos) == Whole <==> CleanFrom(feed, pos)
    decreases |feed| - pos
  {
    var c := ReadAt(feed, pos);
    if c.Chunk? && c.err == "" && !c.done { WholeIffClean(feed, pos + 1); }
  }

  // The payloads have settled the matter: any payload where nothing is expected, else one at which the probe decides.
  ghost predicate Settled(w: Watch, payloads: seq<Bytes>) {
    if w.expectation == None then payloads != [] else !Undecided(w.model, payloads, |payloads|)
  }

  // What breaks a released stream first: the sink's refusal of a payload, or the cut; nothing if it is whole.
  function BreakOf(w: Watch, payloads: seq<Bytes>, n: nat, ending: Ending): (broken: Option<HostError>)
    ensures ending.Cut? ==> broken.Some?
  {
    if payloads == [] then (if ending.Whole? then None else Some(FaultError(ending.fault)))
    else if w.sink(n).Some? then w.sink(n)
    else BreakOf(w, payloads[1..], n + 1, ending)
  }

  // A stream that has released `before` and has these payloads left: the sink gets those it takes.
  function ReleasedAttempt(w: Watch, before: seq<Bytes>, rest: seq<Bytes>, ending: Ending): Attempt {
    var n := w.base + |before|;
    var broken := BreakOf(w, rest, n, ending);
    Attempt(if broken.Some? then Broke(broken.value) else Served(""), before + rest[..TakenBy(rest, w.sink, n)], true)
  }

  // The name decides once the matter is settled or the stream is whole; a stream cut before that is what cut it.
  ghost function FeedAttempt(w: Watch, payloads: seq<Bytes>, ending: Ending): Attempt {
    if ending.Cut? && !Settled(w, payloads) then Attempt(FaultOutcome(ending.fault), [], true)
    else if Mismatching(w.expectation, DecidingName(w.model, payloads)) then
      Attempt(Mismatched(DecidingName(w.model, payloads)), [], true)
    else ReleasedAttempt(w, [], payloads, ending)
  }

  lemma {:induction false} BreakOfIs(w: Watch, payloads: seq<Bytes>, n: nat, ending: Ending)
    ensures var k := TakenBy(payloads, w.sink, n);
            BreakOf(w, payloads, n, ending)
            == if k < |payloads| then w.sink(n + k) else if ending.Whole? then None else Some(FaultError(ending.fault))
  {
    if payloads != [] { BreakOfIs(w, payloads[1..], n + 1, ending); }
  }

  // The first payloads are taken, or one of them breaks the stream.
  lemma {:induction false} BreakOfConcat(w: Watch, a: seq<Bytes>, b: seq<Bytes>, n: nat, ending: Ending)
    ensures BreakOf(w, a + b, n, ending)
            == if TakenBy(a, w.sink, n) < |a| then BreakOf(w, a, n, ending) else BreakOf(w, b, n + |a|, ending)
  {
    if a == [] {
      assert a + b == b;
    } else {
      assert (a + b)[1..] == a[1..] + b;
      BreakOfConcat(w, a[1..], b, n + 1, ending);
    }
  }

  // What is taken of two runs of payloads, one after the other.
  lemma {:induction false} TakenByConcat(a: seq<Bytes>, b: seq<Bytes>, sink: nat -> Option<HostError>, n: nat)
    ensures TakenBy(a + b, sink, n)
            == if TakenBy(a, sink, n) < |a| then TakenBy(a, sink, n) else |a| + TakenBy(b, sink, n + |a|)
  {
    if a == [] {
      assert a + b == b;
    } else {
      assert (a + b)[1..] == a[1..] + b;
      TakenByConcat(a[1..], b, sink, n + 1);
    }
  }

  // Nothing left: the ending tells.
  lemma NothingLeft(w: Watch, before: seq<Bytes>, ending: Ending)
    ensures ReleasedAttempt(w, before, [], ending)
            == Attempt(if ending.Whole? then Served("") else Broke(FaultError(ending.fault)), before, true)
  {
    assert before + [] == before;
  }

  // One more payload: it breaks the stream, or it is released like those before.
  lemma OneMoreReleased(w: Watch, before: seq<Bytes>, payload: Bytes, rest: seq<Bytes>, ending: Ending)
    ensures var refused := w.sink(w.base + |before|);
            ReleasedAttempt(w, before, [payload] + rest, ending)
            == if refused.Some? then Attempt(Broke(refused.value), before, true)
               else ReleasedAttempt(w, before + [payload], rest, ending)
  {
    var all, n := [payload] + rest, w.base + |before|;
    assert all[1..] == rest;
    if w.sink(n).Some? {
      assert before + all[..0] == before;
    } else {
      var k := TakenBy(rest, w.sink, n + 1);
      assert before + all[..k + 1] == before + [payload] + rest[..k];
    }
  }

  lemma ReceiveReleased(w: Watch, p: Progress, payload: Bytes)
    requires p.committed
    ensures var refused := w.sink(w.base + |p.emitted|);
            Receive(w, p, payload) == if refused.Some? then Over(Attempt(Broke(refused.value), p.emitted, true))
                                      else On(p.(emitted := p.emitted + [payload]))
  {
  }

  lemma EndReleased(w: Watch, p: Progress)
    requires p.committed
    ensures AtEnd(w, p) == Attempt(Served(""), p.emitted, true)
  {
  }

  // Once released, the stream ends with whatever breaks it first.
  lemma {:induction false} ReleasedStreamEnds(w: Watch, pos: nat, p: Progress)
    requires p.committed
    ensures Drain(w, pos, p) == ReleasedAttempt(w, p.emitted, PayloadsFrom(w.feed, pos), EndingFrom(w.feed, pos))
    decreases |w.feed| - pos
  {
    hide ReleasedAttempt, Receive, AtEnd, FaultError;
    var ending := EndingFrom(w.feed, pos);
    NothingLeft(w, p.emitted, ending);
    EndReleased(w, p);
    match ReadAt(w.feed, pos)
    case ReadFault(_) =>
    case Chunk(payload, err, done) =>
      if err == "" {
        var rest := if done then [] else PayloadsFrom(w.feed, pos + 1);
        if payload == "" {
          assert PayloadsFrom(w.feed, pos) == rest;
          if !done { ReleasedStreamEnds(w, pos + 1, p); }
        } else {
          assert PayloadsFrom(w.feed, pos) == [payload] + rest;
          OneMoreReleased(w, p.emitted, payload, rest, ending);
          ReceiveReleased(w, p, payload);
          var q := p.(emitted := p.emitted + [payload]);
          NothingLeft(w, q.emitted, ending);
          EndReleased(w, q);
          if w.sink(w.base + |p.emitted|).None? && !done { ReleasedStreamEnds(w, pos + 1, q); }
        }
      } else {
        FaultErrorOf(err);
      }
  }

  lemma FaultErrorOf(err: string)
    ensures FaultError(Fault(HostError(0, "", err))) == HostError(0, "", err)
  {
  }

  // What the release of held-back payloads comes to, with more to come.
  lemma CommitReleases(w: Watch, q: Progress, next: seq<Bytes>, rest: seq<Bytes>, ending: Ending)
    requires !q.committed && q.emitted == [] && q.buffered == next
    ensures match Commit(w, q)
            case Over(a) => a == ReleasedAttempt(w, [], next + rest, ending)
            case On(q') => q'.committed && q'.emitted == next
                           && ReleasedAttempt(w, [], next + rest, ending) == ReleasedAttempt(w, next, rest, ending)
  {
    hide TakenBy, BreakOf;
    var all, n := next + rest, w.base;
    TakenByConcat(next, rest, w.sink, n);
    BreakOfConcat(w, next, rest, n, ending);
    BreakOfIs(w, next, n, ending);
    var k := TakenBy(next, w.sink, n);
    if k < |next| {
      assert [] + all[..k] == next[..k];
    } else {
      var k' := TakenBy(rest, w.sink, n + |next|);
      assert [] + all[..|next| + k'] == next + rest[..k'];
    }
  }

  // What a payload that arrives before the release comes to, in view of all the payloads.
  lemma ReceiveBeforeRelease(w: Watch, p: Progress, seen: seq<Bytes>, payload: Bytes, rest: seq<Bytes>, ending: Ending)
    requires !p.committed && Tracks(w, p, seen)
    ensures var attempt := FeedAttempt(w, seen + [payload] + rest, ending);
            match Receive(w, p, payload)
            case Over(a) => a == attempt
            case On(q) => q.committed ==> attempt == ReleasedAttempt(w, q.emitted, rest, ending) && q.emitted == seen + [payload]
  {
    hide Receive, DecidingName, Undecided, Decided, Reported, ReleasedAttempt, VerdictOn, Concat, Commit;
    var next := seen + [payload];
    var q := ReceiveUnreleased(w, p, seen, payload);
    CommitReleases(w, q, next, rest, ending);
    if SettledBy(w, next) { SettledDecides(w, seen, payload, rest); }
  }

  // What settles the matter settles it for all the payloads, by its name.
  lemma SettledDecides(w: Watch, seen: seq<Bytes>, payload: Bytes, rest: seq<Bytes>)
    requires SettledBy(w, seen + [payload]) && (w.expectation.Some? ==> Undecided(w.model, seen, |seen|))
    ensures var next := seen + [payload];
            Settled(w, next + rest)
            && (w.expectation.Some? ==> DecidingName(w.model, next + rest) == Reported(w.model, next, |next|))
  {
    hide DecidingName, Undecided, Decided, Reported;
    var next := seen + [payload];
    DecisionsStay(w.model, seen, payload);
    if w.expectation.Some? {
      SettledByThen(w.model, next, rest);
      SettledWithMore(w.model, next, rest);
    }
  }

  lemma SettledWithMore(model: Bytes -> string, next: seq<Bytes>, rest: seq<Bytes>)
    requires next != [] && Decided(model, next, |next|)
    ensures !Undecided(model, next + rest, |next + rest|)
  {
    assert (next + rest)[..|next|] == next[..|next|];
    assert Decided(model, next + rest, |next|);
  }

  // A stream that ends before anything is released.
  lemma EndBeforeRelease(w: Watch, p: Progress, seen: seq<Bytes>)
    requires !p.committed && Tracks(w, p, seen)
    ensures AtEnd(w, p) == FeedAttempt(w, seen, Whole)
  {
    hide ReleasedAttempt, Commit, Decided, Denied, AcceptedBy;
    CommitReleases(w, p.(buffered := seen), seen, [], Whole);
    assert seen + [] == seen && p.(buffered := seen) == p;
    NothingLeft(w, seen, Whole);
    if w.expectation.Some? { DecidingFromIs(w.model, seen, 1, |seen| + 1); }
  }

  lemma CutBeforeRelease(w: Watch, p: Progress, seen: seq<Bytes>, f: Fault)
    requires !p.committed && Tracks(w, p, seen)
    ensures FeedAttempt(w, seen, Cut(f)) == Attempt(FaultOutcome(f), [], true)
  {
  }

  // The read loop in one closed form, for every feed and every sink: outcome and output.
  lemma {:induction false} DrainIsJudged(w: Watch, pos: nat, p: Progress, seen: seq<Bytes>)
    requires !p.committed && Tracks(w, p, seen)
    ensures Drain(w, pos, p) == FeedAttempt(w, seen + PayloadsFrom(w.feed, pos), EndingFrom(w.feed, pos))
    decreases |w.feed| - pos
  {
    hide Receive, AtEnd, Tracks, FeedAttempt, ReleasedAttempt;
    TracksShape(w, p, seen);
    var ending := EndingFrom(w.feed, pos);
    if ending.Cut? { CutBeforeRelease(w, p, seen, ending.fault); }
    NothingEmitted(w, p, seen);
    match ReadAt(w.feed, pos)
    case ReadFault(_) => assert seen + [] == seen;
    case Chunk(payload, err, done) =>
      if err != "" {
        assert seen + [] == seen;
      } else {
        var rest := if done then [] else PayloadsFrom(w.feed, pos + 1);
        if payload == "" {
          assert PayloadsFrom(w.feed, pos) == rest;
          if done {
            assert seen + [] == seen;
            EndBeforeRelease(w, p, seen);
          } else {
            DrainIsJudged(w, pos + 1, p, seen);
          }
        } else {
          var next := seen + [payload];
          assert PayloadsFrom(w.feed, pos) == [payload] + rest;
          assert seen + PayloadsFrom(w.feed, pos) == next + rest;
          ReceiveTracks(w, p, seen, payload);
          ReceiveBeforeRelease(w, p, seen, payload, rest, ending);
          var step := Receive(w, p, payload);
          if step.On? { RestIsJudged(w, pos, step.p, next, rest, ending); }
        }
      }
  }

  lemma NothingEmitted(w: Watch, p: Progress, seen: seq<Bytes>)
    requires !p.committed && Tracks(w, p, seen)
    ensures p.emitted == []
  {
  }

  // After a payload that has not ended the attempt.
  lemma {:induction false} RestIsJudged(w: Watch, pos: nat, q: Progress, next: seq<Bytes>, rest: seq<Bytes>, ending: Ending)
    requires Tracks(w, q, next) && ReadAt(w.feed, pos).Chunk? && ReadAt(w.feed, pos).err == ""
    requires rest == (if ReadAt(w.feed, pos).done then [] else PayloadsFrom(w.feed, pos + 1)) && ending == EndingFrom(w.feed, pos)
    requires q.committed ==> q.emitted == next && FeedAttempt(w, next + rest, ending) == ReleasedAttempt(w, next, rest, ending)
    ensures (q.committed || q.emitted == [])
            && (if ReadAt(w.feed, pos).done then AtEnd(w, q) else Drain(w, pos + 1, q)) == FeedAttempt(w, next + rest, ending)
    decreases |w.feed| - pos, 0
  {
    hide FeedAttempt, ReleasedAttempt, AtEnd, Tracks;
    TracksShape(w, q, next);
    if ReadAt(w.feed, pos).done {
      assert next + rest == next;
      if q.committed {
        EndReleased(w, q);
        NothingLeft(w, next, ending);
      } else {
        EndBeforeRelease(w, q, next);
      }
    } else if q.committed {
      ReleasedStreamEnds(w, pos + 1, q);
    } else {
      DrainIsJudged(w, pos + 1, q, next);
    }
  }

  // ---- every answer ----

  // What a plain reply comes to.
  ghost function ReplyOutcome(r: Reply, model: Bytes -> string, expectation: Option<Expectation>): Outcome {
    match r
    case Failing(Fault(e)) => Erred(e)
    case Failing(Aborted(m)) => Cancelled(m)
    case Answered(status, body) =>
      if status >= 400 then Erred(HostError(status, "", body))
      else if Mismatching(expectation, model(body)) then Mismatched(model(body))
      else Served(body)
  }

  // The collected body of an error stream, in terms of its payloads: all of them, or as many as reach the limit.
  predicate CollectedAs(feed: seq<Read>, body: Bytes, k: nat) {
    Reaches(PayloadsFrom(feed, 0), k) && body == Concat(PayloadsFrom(feed, 0)[..k])
  }

  // What a stream comes to.
  ghost function ScriptAttempt(s: Script, model: Bytes -> string, expectation: Option<Expectation>,
                               sink: nat -> Option<HostError>, base: nat): Attempt {
    match s
    case NotOpened(Fault(e)) => Attempt(Erred(e), [], false)
    case NotOpened(Aborted(m)) => Attempt(Cancelled(m), [], false)
    case Opened(id, status, feed) =>
      if White(id) then Attempt(Erred(HostError(502, "", "host model stream returned an empty stream_id")), [], false)
      else if status >= 400 then Attempt(Erred(HostError(status, "", Trim(ErrorBody(feed, 0, "")))), [], true)
      else FeedAttempt(Watch(feed, model, expectation, sink, base), PayloadsFrom(feed, 0), EndingFrom(feed, 0))
  }

  lemma RepliesDecide(r: Reply, model: Bytes -> string, expectation: Option<Expectation>)
    ensures PlainAttempt(r, model, expectation) == Attempt(ReplyOutcome(r, model, expectation), [], false)
  {
    hide VerdictOn;
  }

  lemma ScriptsDecide(s: Script, model: Bytes -> string, expectation: Option<Expectation>, sink: nat -> Option<HostError>, base: nat)
    ensures StreamAttempt(s, model, expectation, sink, base) == ScriptAttempt(s, model, expectation, sink, base)
  {
    hide Drain, FeedAttempt, Tracks, White, EndingFrom, ErrorBody;
    if s.Opened? {
      WhiteTrimsAway(s.id);
      var w := Watch(s.feed, model, expectation, sink, base);
      assert [] + PayloadsFrom(s.feed, 0) == PayloadsFrom(s.feed, 0);
      StartTracks(w);
      if Trim(s.id) != "" && s.status < 400 { DrainIsJudged(w, 0, START, []); }
    }
  }

  // The first k of these payloads, put together, are the first to reach the limit, or all there are.
  predicate Reaches(all: seq<Bytes>, k: nat) {
    && k <= |all| && (k < |all| ==> |Concat(all[..k])| >= 262144) && (forall i | 0 <= i < k :: |Concat(all[..i])| < 262144)
  }

  lemma ReachesAll(all: seq<Bytes>)
    requires forall i | 0 <= i < |all| :: |Concat(all[..i])| < 262144
    ensures Reaches(all, |all|) && Concat(all[..|all|]) == Concat(all)
  {
    hide Concat;
    assert all[..|all|] == all;
  }

  lemma ReachesNow(seen: seq<Bytes>, rest: seq<Bytes>)
    requires |Concat(seen)| >= 262144 && forall i | 0 <= i < |seen| :: |Concat(seen[..i])| < 262144
    ensures Reaches(seen + rest, |seen|) && Concat((seen + rest)[..|seen|]) == Concat(seen)
  {
    hide Concat;
    forall i | 0 <= i < |seen| ensures (seen + rest)[..i] == seen[..i] { }
    assert (seen + rest)[..|seen|] == seen;
  }

  lemma StillBelow(seen: seq<Bytes>, payload: Bytes)
    requires |Concat(seen)| < 262144 && forall i | 0 <= i < |seen| :: |Concat(seen[..i])| < 262144
    ensures var next := seen + [payload];
            Concat(next) == Concat(seen) + payload && forall i | 0 <= i < |next| :: |Concat(next[..i])| < 262144
  {
    var next := seen + [payload];
    assert next[..|seen|] == seen;
    forall i | 0 <= i < |seen| ensures next[..i] == seen[..i] { }
  }

  lemma {:induction false} ErrorBodyCollects(feed: seq<Read>, pos: nat, buf: Bytes, seen: seq<Bytes>) returns (k: nat)
    requires buf == Concat(seen) && forall i | 0 <= i < |seen| :: |Concat(seen[..i])| < 262144
    ensures var all := seen + PayloadsFrom(feed, pos); Reaches(all, k) && ErrorBody(feed, pos, buf) == Concat(all[..k])
    decreases |feed| - pos, 1
  {
    hide Concat, Reaches;
    if |buf| >= 262144 {
      ReachesNow(seen, PayloadsFrom(feed, pos));
      return |seen|;
    }
    var c := ReadAt(feed, pos);
    if c.ReadFault? || c.err != "" {
      ReachesAll(seen);
      assert seen + [] == seen;
      k := |seen|;
    } else {
      k := ChunkCollects(feed, pos, buf, seen);
    }
  }

  lemma {:induction false} ChunkCollects(feed: seq<Read>, pos: nat, buf: Bytes, seen: seq<Bytes>) returns (k: nat)
    requires buf == Concat(seen) && |buf| < 262144 && forall i | 0 <= i < |seen| :: |Concat(seen[..i])| < 262144
    requires ReadAt(feed, pos).Chunk? && ReadAt(feed, pos).err == ""
    ensures var all := seen + PayloadsFrom(feed, pos); Reaches(all, k) && ErrorBody(feed, pos, buf) == Concat(all[..k])
    decreases |feed| - pos, 0
  {
    hide Concat, Reaches, PayloadsFrom;
    PayloadsStep(feed, pos);
    var Chunk(payload, _, done) := ReadAt(feed, pos);
    var here := if payload == "" then [] else [payload];
    var next := seen + here;
    JoinsInTurn(seen, here, if done then [] else PayloadsFrom(feed, pos + 1));
    if payload == "" { assert next == seen && buf + payload == buf; } else { StillBelow(seen, payload); }
    if done {
      ReachesAll(next);
      assert next + [] == next;
      k := |next|;
    } else {
      k := ErrorBodyCollects(feed, pos + 1, buf + payload, next);
    }
  }

  // What is kept of an error stream: its payloads up to where it ends or fails, or to the first that reaches
  // 256 KiB.
  lemma ErrorBodyIs(feed: seq<Read>)
    ensures exists k :: CollectedAs(feed, ErrorBody(feed, 0, ""), k)
  {
    hide ErrorBody, Concat;
    EmptyConcat();
    var k := ErrorBodyCollects(feed, 0, "", []);
    assert [] + PayloadsFrom(feed, 0) == PayloadsFrom(feed, 0);
    assert CollectedAs(feed, ErrorBody(feed, 0, ""), k);
  }

  // ---- in a request ----

  // Every leaf call of a request starts with an empty sink.
  lemma CallsStartSilent(env: Env, cfg: Config, model: Name, found: Found, i: nat)
    requires Usable(cfg)
    requires var tr := Handled(env, cfg, model, found).1.trace; i < |tr| && tr[i].Called?
    ensures var call := Handled(env, cfg, model, found).1.trace[i];
            call.attempt == AttemptOf(env.transport, env.model, call.index, call.expectation, 0)
  {
    hide Run, AllRight, Orderly, Announces, Posted, Output, Proper, After, AttemptOf, NextFit, RightDraft;
    var s, w' := Opening(found), Handled(env, cfg, model, found).1;
    var tr := w'.trace;
    LogReadsRight(env, cfg, model, found);
    RequestParts(env, cfg, model, found);
    assert RightAt(env, cfg, s, tr, i) by { RightHere(env, cfg, s, tr, i); }
    LedgerAfter(cfg, s, tr[..i]);
    PostedParts(LedgerOf(RootWorld(found)), tr[..i]);
    EarlierCallsAreSilent(env, cfg, model, tr, i);
    assert [] + Output(tr[..i]) == [];
  }

  lemma RightHere(env: Env, cfg: Config, s: Scene, tr: seq<Event>, i: nat)
    requires Usable(cfg) && AllRight(env, cfg, s, tr) && i < |tr|
    ensures RightAt(env, cfg, s, tr, i)
  {
    hide RightAt;
  }

  lemma EarlierCallsAreSilent(env: Env, cfg: Config, model: Name, tr: seq<Event>, i: nat)
    requires Orderly(tr, false) && i < |tr| && tr[i].Called?
    requires forall x | 0 <= x < |tr| :: tr[x].Called? ==> Proper(env, cfg, [], model, tr[x])
    ensures Output(tr[..i]) == []
  {
    hide Proper, Output, Classify;
    assert InOrder(tr, i, false);
    forall x | 0 <= x < i && tr[x].Called? ensures !Final(tr[x].attempt.outcome) { assert InOrder(tr, x, false); }
    QuietLog(env, cfg, model, tr[..i]);
  }

  // What the host's script answers to a call, when nothing has reached the sink yet.
  ghost function AnswerTo(env: Env, call: Event): Attempt
    requires call.Called?
  {
    match env.transport
    case Plain(replies) => Attempt(ReplyOutcome(replies(call.index), env.model, call.expectation), [], false)
    case Streaming(streams, sink) => ScriptAttempt(streams(call.index), env.model, call.expectation, sink, 0)
  }

  // Each leaf call of a request comes to what the host answered, and each error it comes to is answered by
  // one failure record of that leaf, of the error's kind, and by nothing else.
  lemma AnswersDecide(env: Env, cfg: Config, model: Name, found: Found, i: nat)
    requires Usable(cfg)
    requires var tr := Handled(env, cfg, model, found).1.trace; i < |tr| && tr[i].Called?
    ensures var tr := Handled(env, cfg, model, found).1.trace;
            && tr[i].attempt == AnswerTo(env, tr[i])
            && (tr[i].attempt.outcome.Erred? ==>
                  var e := tr[i].attempt.outcome.error;
                  && i + 1 < |tr| && IsStrike(tr[i + 1], tr[i].leaf, Classify(e.status, e.message))
                  && (i + 2 < |tr| ==> !tr[i + 2].Stored?))
  {
    hide Run, Orderly, Announces, Proper, Posted, PlainAttempt, StreamAttempt, ReplyOutcome, ScriptAttempt, Classify,
         OpenedStreams, StoreChanges, Output, CallCount, Numbered, CountersAfter, Readings;
    var tr := Handled(env, cfg, model, found).1.trace;
    RequestParts(env, cfg, model, found);
    CallsStartSilent(env, cfg, model, found, i);
    match env.transport {
      case Plain(replies) => RepliesDecide(replies(tr[i].index), env.model, tr[i].expectation);
      case Streaming(streams, sink) => ScriptsDecide(streams(tr[i].index), env.model, tr[i].expectation, sink, 0);
    }
    ErrorsAreAnswered(tr, i);
  }

  lemma ErrorsAreAnswered(tr: seq<Event>, i: nat)
    requires Orderly(tr, false) && i < |tr| && tr[i].Called?
    ensures tr[i].attempt.outcome.Erred? ==>
              var e := tr[i].attempt.outcome.error;
              && i + 1 < |tr| && IsStrike(tr[i + 1], tr[i].leaf, Classify(e.status, e.message))
              && (i + 2 < |tr| ==> !tr[i + 2].Stored?)
  {
    hide Classify;
    assert InOrder(tr, i, false);
    assert i + 2 < |tr| ==> InOrder(tr, i + 2, false);
  }

  // A call is taken for cancelled exactly when the host said so: in place of a reply, of a stream, or of the
  // rest of a stream that had not settled the matter.
  lemma CancelledIff(env: Env, cfg: Config, model: Name, found: Found, i: nat, m: string)
    requires Usable(cfg)
    requires var tr := Handled(env, cfg, model, found).1.trace; i < |tr| && tr[i].Called?
    ensures var call := Handled(env, cfg, model, found).1.trace[i];
            call.attempt.outcome == Cancelled(m)
            <==> match env.transport
                 case Plain(replies) => replies(call.index) == Failing(Aborted(m))
                 case Streaming(streams, sink) =>
                   match streams(call.index)
                   case NotOpened(f) => f == Aborted(m)
                   case Opened(id, status, feed) =>
                     !White(id) && status < 400 && EndingFrom(feed, 0) == Cut(Aborted(m))
                     && !Settled(Watch(feed, env.model, call.expectation, sink, 0), PayloadsFrom(feed, 0))
  {
    hide Run, White, Settled, BreakOf, DecidingName, EndingFrom, Mismatching;
    AnswersDecide(env, cfg, model, found, i);
  }

  // And for an upstream error exactly when the host failed that way, answered with an error status, or gave no
  // stream to read.
  lemma ErredIff(env: Env, cfg: Config, model: Name, found: Found, i: nat, e: HostError)
    requires Usable(cfg)
    requires var tr := Handled(env, cfg, model, found).1.trace; i < |tr| && tr[i].Called?
    ensures var call := Handled(env, cfg, model, found).1.trace[i];
            call.attempt.outcome == Erred(e)
            <==> match env.transport
                 case Plain(replies) =>
                   match replies(call.index) {
                     case Failing(f) => f == Fault(e)
                     case Answered(status, body) => status >= 400 && e == HostError(status, "", body)
                   }
                 case Streaming(streams, sink) =>
                   match streams(call.index)
                   case NotOpened(f) => f == Fault(e)
                   case Opened(id, status, feed) =>
                     if White(id) then e == HostError(502, "", "host model stream returned an empty stream_id")
                     else if status >= 400 then e == HostError(status, "", Trim(ErrorBody(feed, 0, "")))
                     else EndingFrom(feed, 0) == Cut(Fault(e))
                          && !Settled(Watch(feed, env.model, call.expectation, sink, 0), PayloadsFrom(feed, 0))
  {
    hide Run, White, Settled, BreakOf, DecidingName, EndingFrom, Mismatching, ErrorBody, Trim;
    AnswersDecide(env, cfg, model, found, i);
  }
}
