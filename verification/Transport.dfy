// One upstream attempt, plain or streamed (internal/engine/engine.go, streamOnce and the attempt in Execute).
//
// The host is any script of answers, indexed by call; the sink accepts or refuses any payload.
module Transport {
  import opened Config
  import opened Errors
  import opened Identity

  type Bytes = string

  const MAX_PROBE_CHUNKS := 32
  const MAX_PROBE_BYTES := 256 * 1024

  // An upstream error; the status is 0 when the error carries none.
  datatype HostError = HostError(status: int, code: string, message: string)

  // Why a host call failed: an error, or the cancellation of the request.
  datatype Fault = Fault(error: HostError) | Aborted(message: string)

  datatype Reply = Answered(status: int, body: Bytes) | Failing(fault: Fault)

  datatype Read = ReadFault(fault: Fault) | Chunk(payload: Bytes, err: string, done: bool)

  datatype Script = NotOpened(fault: Fault) | Opened(id: string, status: int, feed: seq<Read>)

  datatype Transport =
    | Plain(replies: nat -> Reply)
    | Streaming(streams: nat -> Script, sink: nat -> Option<HostError>)

  // What an attempt comes to. Broke: the stream failed after output had been released.
  datatype Outcome =
    | Served(body: Bytes)
    | Mismatched(actual: string)
    | Erred(error: HostError)
    | Cancelled(message: string)
    | Broke(error: HostError)

  datatype Attempt = Attempt(outcome: Outcome, emitted: seq<Bytes>, openedStream: bool)

  const END_OF_SCRIPT := ReadFault(Fault(HostError(0, "", "stream ended without a final chunk")))
  const NO_STREAM_ID := HostError(502, "", "host model stream returned an empty stream_id")

  function FaultOutcome(f: Fault): Outcome {
    match f
    case Fault(e) => Erred(e)
    case Aborted(m) => Cancelled(m)
  }

  function FaultError(f: Fault): HostError {
    match f
    case Fault(e) => e
    case Aborted(m) => HostError(0, "", m)
  }

  // ---- plain ----

  ghost predicate Mismatching(expectation: Option<Expectation>, actual: string) {
    expectation.Some? && VerdictOn(expectation.value, actual) == Mismatch
  }

  ghost function PlainAttempt(r: Reply, model: Bytes -> string, expectation: Option<Expectation>): Attempt {
    Attempt(
      match r
      case Failing(f) => FaultOutcome(f)
      case Answered(status, body) =>
        if status >= 400 then Erred(HostError(status, "", body))
        else if Mismatching(expectation, model(body)) then Mismatched(model(body))
        else Served(body),
      [], false)
  }

  // ---- streamed ----

  function ReadAt(feed: seq<Read>, pos: nat): Read {
    if pos < |feed| then feed[pos] else END_OF_SCRIPT
  }

  // The body of an error response, as far as it is collected.
  function ErrorBody(feed: seq<Read>, pos: nat, buf: Bytes): Bytes
    decreases |feed| - pos
  {
    if |buf| >= MAX_PROBE_BYTES then buf
    else
      match ReadAt(feed, pos)
      case ReadFault(_) => buf
      case Chunk(payload, err, done) =>
        if err != "" then buf else if done then buf + payload else ErrorBody(feed, pos + 1, buf + payload)
  }

  // How many of the payloads the sink takes, the first being its n-th.
  function TakenBy(xs: seq<Bytes>, sink: nat -> Option<HostError>, n: nat): (k: nat)
    ensures k <= |xs|
    ensures k < |xs| ==> sink(n + k).Some?
  {
    if xs == [] || sink(n).Some? then 0 else 1 + TakenBy(xs[1..], sink, n + 1)
  }

  // Buffered payloads are held back until the attempt is committed.
  datatype Progress = Progress(committed: bool, buffered: seq<Bytes>, probed: Bytes, actual: string, emitted: seq<Bytes>)

  const START := Progress(false, [], "", "", [])

  // Everything that stays the same during one stream.
  datatype Watch = Watch(feed: seq<Read>, model: Bytes -> string, expectation: Option<Expectation>,
                         sink: nat -> Option<HostError>, base: nat)

  // Release the buffer; the step is the new progress, or the attempt if the sink fails.
  datatype Step = On(p: Progress) | Over(a: Attempt)

  function Commit(w: Watch, p: Progress): Step
    requires p.emitted == []
  {
    var k := TakenBy(p.buffered, w.sink, w.base);
    if k < |p.buffered| then Over(Attempt(Broke(w.sink(w.base + k).value), p.buffered[..k], true))
    else On(p.(committed := true, buffered := [], emitted := p.buffered))
  }

  // A nonempty payload arrives.
  ghost function Receive(w: Watch, p: Progress, payload: Bytes): Step
    requires p.committed || p.emitted == []
  {
    if p.committed then
      var refused := w.sink(w.base + |p.emitted|);
      if refused.Some? then Over(Attempt(Broke(refused.value), p.emitted, true))
      else On(p.(emitted := p.emitted + [payload]))
    else
      var q := p.(buffered := p.buffered + [payload]);
      match w.expectation
      case None => Commit(w, q)
      case Some(e) =>
        var q := q.(probed := p.probed + payload, actual := w.model(p.probed + payload));
        if q.actual != "" then
          if VerdictOn(e, q.actual) == Mismatch then Over(Attempt(Mismatched(q.actual), [], true)) else Commit(w, q)
        else if |q.buffered| >= MAX_PROBE_CHUNKS || |q.probed| >= MAX_PROBE_BYTES then
          if e.rejectMissing then Over(Attempt(Mismatched(""), [], true)) else Commit(w, q)
        else On(q)
  }

  // The stream has ended normally.
  function AtEnd(w: Watch, p: Progress): Attempt
    requires p.committed || p.emitted == []
  {
    if p.committed then Attempt(Served(""), p.emitted, true)
    else if w.expectation.Some? && p.actual == "" && w.expectation.value.rejectMissing then Attempt(Mismatched(""), [], true)
    else
      match Commit(w, p)
      case Over(a) => a
      case On(q) => Attempt(Served(""), q.emitted, true)
  }

  ghost function Drain(w: Watch, pos: nat, p: Progress): Attempt
    requires p.committed || p.emitted == []
    decreases |w.feed| - pos
  {
    match ReadAt(w.feed, pos)
    case ReadFault(f) => Attempt(if p.committed then Broke(FaultError(f)) else FaultOutcome(f), p.emitted, true)
    case Chunk(payload, err, done) =>
      if err != "" then
        var e := HostError(0, "", err);
        Attempt(if p.committed then Broke(e) else Erred(e), p.emitted, true)
      else
        var step := if payload == "" then On(p) else Receive(w, p, payload);
        match step
        case Over(a) => a
        case On(q) => if done then AtEnd(w, q) else Drain(w, pos + 1, q)
  }

  ghost function StreamAttempt(s: Script, model: Bytes -> string, expectation: Option<Expectation>,
                               sink: nat -> Option<HostError>, base: nat): Attempt {
    match s
    case NotOpened(f) => Attempt(FaultOutcome(f), [], false)
    case Opened(id, status, feed) =>
      if Trim(id) == "" then Attempt(Erred(NO_STREAM_ID), [], false)
      else if status >= 400 then Attempt(Erred(HostError(status, "", Trim(ErrorBody(feed, 0, "")))), [], true)
      else Drain(Watch(feed, model, expectation, sink, base), 0, START)
  }

  // The k-th attempt of a run, when the sink has already taken `base` payloads.
  ghost function AttemptOf(tr: Transport, model: Bytes -> string, k: nat, expectation: Option<Expectation>, base: nat): Attempt {
    match tr
    case Plain(replies) => PlainAttempt(replies(k), model, expectation)
    case Streaming(streams, sink) => StreamAttempt(streams(k), model, expectation, sink, base)
  }

  // ---- what a stream may release ----

  // The nonempty payloads a stream carries before it ends or fails.
  function PayloadsFrom(feed: seq<Read>, pos: nat): seq<Bytes>
    decreases |feed| - pos
  {
    match ReadAt(feed, pos)
    case ReadFault(_) => []
    case Chunk(payload, err, done) =>
      if err != "" then []
      else (if payload == "" then [] else [payload]) + if done then [] else PayloadsFrom(feed, pos + 1)
  }

  function Payloads(s: Script): seq<Bytes> {
    if s.Opened? && Trim(s.id) != "" && s.status < 400 then PayloadsFrom(s.feed, 0) else []
  }

  function Concat(xs: seq<Bytes>): Bytes {
    if xs == [] then "" else Concat(xs[..|xs| - 1]) + xs[|xs| - 1]
  }

  // Progress after the payloads seen so far.
  ghost predicate Tracks(w: Watch, p: Progress, seen: seq<Bytes>) {
    if p.committed then p.emitted == seen && Admitted(w, seen)
    else p.emitted == [] && p.buffered == seen
         && (w.expectation == None ==> seen == [])
         && (w.expectation.Some? ==> p.probed == Concat(seen) && Undecided(w.model, seen, |seen|) && p.actual == "")
  }

  // The name the first j payloads report; none before the first payload.
  ghost function Reported(model: Bytes -> string, seen: seq<Bytes>, j: nat): string
    requires j <= |seen|
  {
    if j == 0 then "" else model(Concat(seen[..j]))
  }

  // The j-th payload settles the matter: a name is reported by then, or 32 payloads or 256 KiB are reached.
  ghost predicate Decided(model: Bytes -> string, seen: seq<Bytes>, j: nat)
    requires j <= |seen|
  {
    0 < j && (Reported(model, seen, j) != "" || j >= 32 || |Concat(seen[..j])| >= 262144)
  }

  ghost predicate Undecided(model: Bytes -> string, seen: seq<Bytes>, k: nat)
    requires k <= |seen|
  {
    forall i | 0 < i <= k :: !Decided(model, seen, i)
  }

  // Output may go from the j-th payload on: at once where nothing is expected, else from the payload that
  // settles the matter, if the name known there passes.
  ghost predicate AdmittedAt(w: Watch, seen: seq<Bytes>, j: nat)
    requires j <= |seen|
  {
    match w.expectation
    case None => j == 0
    case Some(e) =>
      0 < j && Decided(w.model, seen, j) && Undecided(w.model, seen, j - 1)
      && VerdictOn(e, Reported(w.model, seen, j)) != Mismatch
  }

  ghost predicate Admitted(w: Watch, seen: seq<Bytes>) {
    exists j | 0 <= j <= |seen| :: AdmittedAt(w, seen, j)
  }

  // The other way to be released: the whole response stays below the limits, names no model, and that is tolerated.
  ghost predicate Nameless(w: Watch, seen: seq<Bytes>) {
    w.expectation.Some? && !w.expectation.value.rejectMissing && Undecided(w.model, seen, |seen|)
  }

  ghost predicate Cleared(w: Watch, seen: seq<Bytes>, ended: bool) {
    Admitted(w, seen) || (ended && Nameless(w, seen))
  }

  lemma AdmissionLasts(w: Watch, seen: seq<Bytes>, more: seq<Bytes>)
    requires Admitted(w, seen)
    ensures Admitted(w, seen + more)
  {
    var j :| 0 <= j <= |seen| && AdmittedAt(w, seen, j);
    var all := seen + more;
    forall i | 0 <= i <= |seen| ensures all[..i] == seen[..i] { }
    if w.expectation.Some? {
      assert forall i | 0 <= i <= |seen| :: Decided(w.model, all, i) <==> Decided(w.model, seen, i);
    }
    assert AdmittedAt(w, all, j);
  }

  // An attempt's output is a prefix of the payloads seen, and output or success needs clearance.
  ghost predicate Faithful(w: Watch, a: Attempt, seen: seq<Bytes>, ended: bool) {
    && a.emitted <= seen && a.openedStream
    && (a.outcome.Mismatched? || a.outcome.Erred? || a.outcome.Cancelled? ==> a.emitted == [])
    && (a.outcome.Served? || a.outcome.Broke? ==> Cleared(w, seen, ended))
    && (a.outcome.Served? ==> a.emitted == seen)
  }

  lemma FaithfulLonger(w: Watch, a: Attempt, seen: seq<Bytes>, more: seq<Bytes>, ended: bool)
    requires Faithful(w, a, seen, false) && !a.outcome.Served?
    ensures Faithful(w, a, seen + more, ended)
  {
    hide Admitted;
    if Admitted(w, seen) { AdmissionLasts(w, seen, more); }
  }

  // Releasing a cleared buffer keeps track, whether or not the sink takes it all.
  lemma CommitTracks(w: Watch, q: Progress, next: seq<Bytes>, ended: bool)
    requires !q.committed && q.emitted == [] && q.buffered == next && Cleared(w, next, ended)
    ensures match Commit(w, q)
            case On(q') => q'.committed && q'.emitted == next
            case Over(a) => Faithful(w, a, next, ended) && !a.outcome.Served?
  {
    hide Cleared, TakenBy;
  }

  lemma ReceiveTracks(w: Watch, p: Progress, seen: seq<Bytes>, payload: Bytes)
    requires Tracks(w, p, seen)
    ensures match Receive(w, p, payload)
            case On(q) => Tracks(w, q, seen + [payload])
            case Over(a) => Faithful(w, a, seen + [payload], false) && !a.outcome.Served?
  {
    if p.committed {
      AdmissionLasts(w, seen, [payload]);
    } else {
      PayloadProbed(w, p, seen, payload);
    }
  }

  // One more payload decides nothing about the earlier ones.
  lemma DecisionsStay(model: Bytes -> string, seen: seq<Bytes>, payload: Bytes)
    ensures var next := seen + [payload];
            && Concat(next) == Concat(seen) + payload && Reported(model, next, |next|) == model(Concat(next))
            && (Undecided(model, next, |seen|) <==> Undecided(model, seen, |seen|))
            && (Undecided(model, next, |next|) <==> Undecided(model, seen, |seen|) && !Decided(model, next, |next|))
  {
    var next := seen + [payload];
    assert next[..|seen|] == seen && next[..|next|] == next;
    forall i | 0 <= i <= |seen| ensures next[..i] == seen[..i] { }
    assert forall i | 0 <= i <= |seen| :: Decided(model, next, i) <==> Decided(model, seen, i);
  }

  // The matter is settled with these payloads: nothing is expected, or the last of them decides.
  ghost predicate SettledBy(w: Watch, next: seq<Bytes>) {
    w.expectation.Some? ==> Decided(w.model, next, |next|)
  }

  // What a payload before the release does: it is held back with the others, or it settles the matter, and then
  // the attempt is given up or all that is held back is released.
  lemma ReceiveUnreleased(w: Watch, p: Progress, seen: seq<Bytes>, payload: Bytes) returns (q: Progress)
    requires Tracks(w, p, seen) && !p.committed
    ensures var next := seen + [payload];
            && !q.committed && q.emitted == [] && q.buffered == next
            && (w.expectation.Some? ==> q.probed == Concat(next) && q.actual == Reported(w.model, next, |next|))
            && Receive(w, p, payload)
               == if !SettledBy(w, next) then On(q)
                  else if Mismatching(w.expectation, Reported(w.model, next, |next|)) then
                    Over(Attempt(Mismatched(Reported(w.model, next, |next|)), [], true))
                  else Commit(w, q)
  {
    hide Commit, Undecided, Concat, Denied, AcceptedBy;
    var next := seen + [payload];
    DecisionsStay(w.model, seen, payload);
    assert next[..|next|] == next;
    q := p.(buffered := next);
    if w.expectation.Some? { q := q.(probed := Concat(next), actual := w.model(Concat(next))); }
  }

  lemma PayloadProbed(w: Watch, p: Progress, seen: seq<Bytes>, payload: Bytes)
    requires Tracks(w, p, seen) && !p.committed
    ensures match Receive(w, p, payload)
            case On(q) => Tracks(w, q, seen + [payload])
            case Over(a) => Faithful(w, a, seen + [payload], false) && !a.outcome.Served?
  {
    hide Receive, Commit, Undecided, Decided, Reported, Concat, VerdictOn;
    var next := seen + [payload];
    DecisionsStay(w.model, seen, payload);
    var q := ReceiveUnreleased(w, p, seen, payload);
    if SettledBy(w, next) && !Mismatching(w.expectation, Reported(w.model, next, |next|)) {
      assert AdmittedAt(w, next, if w.expectation == None then 0 else |next|);
      CommitTracks(w, q, next, false);
    } else if !SettledBy(w, next) {
      UnsettledHasNoName(w.model, next);
    }
  }

  lemma UnsettledHasNoName(model: Bytes -> string, next: seq<Bytes>)
    requires !Decided(model, next, |next|)
    ensures Reported(model, next, |next|) == ""
  {
  }

  lemma EndIsFaithful(w: Watch, p: Progress, seen: seq<Bytes>)
    requires Tracks(w, p, seen)
    ensures Faithful(w, AtEnd(w, p), seen, true)
  {
    hide Undecided, Commit;
    if !p.committed && (w.expectation == None || !w.expectation.value.rejectMissing) {
      assert w.expectation == None ==> AdmittedAt(w, seen, 0);
      CommitTracks(w, p, seen, true);
    }
  }

  lemma TracksShape(w: Watch, p: Progress, seen: seq<Bytes>)
    requires Tracks(w, p, seen)
    ensures p.committed || p.emitted == []
  {
  }

  // Breaking off here is faithful, whether it fails or is cancelled.
  lemma BreakIsFaithful(w: Watch, p: Progress, seen: seq<Bytes>, e: HostError, f: Fault)
    requires Tracks(w, p, seen)
    ensures Faithful(w, Attempt(if p.committed then Broke(e) else FaultOutcome(f), p.emitted, true), seen, false)
    ensures Faithful(w, Attempt(if p.committed then Broke(e) else Erred(e), p.emitted, true), seen, false)
  {
    hide Admitted;
  }

  lemma {:induction false} DrainIsFaithful(w: Watch, pos: nat, p: Progress, seen: seq<Bytes>)
    requires Tracks(w, p, seen)
    ensures Faithful(w, Drain(w, pos, p), seen + PayloadsFrom(w.feed, pos), CleanFrom(w.feed, pos))
    decreases |w.feed| - pos, 2
  {
    hide Receive, AtEnd, Tracks, Faithful, FaultError;
    TracksShape(w, p, seen);
    assert seen + [] == seen;
    match ReadAt(w.feed, pos)
    case ReadFault(f) => BreakIsFaithful(w, p, seen, FaultError(f), f);
    case Chunk(_, err, _) =>
      if err != "" { BreakIsFaithful(w, p, seen, HostError(0, "", err), Aborted("")); } else { ChunkIsFaithful(w, pos, p, seen); }
  }

  lemma PayloadsStep(feed: seq<Read>, pos: nat)
    requires ReadAt(feed, pos).Chunk? && ReadAt(feed, pos).err == ""
    ensures var Chunk(payload, _, done) := ReadAt(feed, pos);
            PayloadsFrom(feed, pos)
            == (if payload == "" then [] else [payload]) + if done then [] else PayloadsFrom(feed, pos + 1)
  {
  }

  lemma JoinsInTurn(a: seq<Bytes>, b: seq<Bytes>, c: seq<Bytes>)
    ensures a + (b + c) == (a + b) + c
  {
  }

  lemma {:induction false} ChunkIsFaithful(w: Watch, pos: nat, p: Progress, seen: seq<Bytes>)
    requires Tracks(w, p, seen) && ReadAt(w.feed, pos).Chunk? && ReadAt(w.feed, pos).err == ""
    ensures p.committed || p.emitted == []
    ensures Faithful(w, Drain(w, pos, p), seen + PayloadsFrom(w.feed, pos), CleanFrom(w.feed, pos))
    decreases |w.feed| - pos, 1
  {
    hide Receive, AtEnd, Tracks, Faithful, CleanFrom, PayloadsFrom;
    TracksShape(w, p, seen);
    PayloadsStep(w.feed, pos);
    var Chunk(payload, _, done) := ReadAt(w.feed, pos);
    var here := if payload == "" then [] else [payload];
    var rest := if done then [] else PayloadsFrom(w.feed, pos + 1);
    JoinsInTurn(seen, here, rest);
    if payload == "" { assert seen + here == seen; } else { ReceiveTracks(w, p, seen, payload); }
    var step := if payload == "" then On(p) else Receive(w, p, payload);
    match step
    case Over(a) => FaithfulLonger(w, a, seen + here, rest, CleanFrom(w.feed, pos));
    case On(q) => RestIsFaithful(w, pos, q, seen + here, rest);
  }

  // After a chunk that has not ended the attempt.
  lemma {:induction false} RestIsFaithful(w: Watch, pos: nat, q: Progress, seen: seq<Bytes>, rest: seq<Bytes>)
    requires Tracks(w, q, seen) && ReadAt(w.feed, pos).Chunk? && ReadAt(w.feed, pos).err == ""
    requires rest == if ReadAt(w.feed, pos).done then [] else PayloadsFrom(w.feed, pos + 1)
    ensures q.committed || q.emitted == []
    ensures Faithful(w, if ReadAt(w.feed, pos).done then AtEnd(w, q) else Drain(w, pos + 1, q), seen + rest, CleanFrom(w.feed, pos))
    decreases |w.feed| - pos, 0
  {
    hide AtEnd, Tracks, Faithful, Receive;
    TracksShape(w, q, seen);
    if ReadAt(w.feed, pos).done {
      assert seen + rest == seen;
      EndIsFaithful(w, q, seen);
    } else {
      DrainIsFaithful(w, pos + 1, q, seen);
    }
  }

  // One streamed attempt: what reaches the sink is a prefix of that stream's payloads, all of them on success,
  // nothing on rejection or early failure. Under an expectation nothing is released unless the name known at
  // the payload that settled the matter passed, or the stream ended without one and that is tolerated.
  lemma StreamReleasesOnlyAdmittedOutput(s: Script, model: Bytes -> string, expectation: Option<Expectation>,
                                         sink: nat -> Option<HostError>, base: nat)
    ensures var a := StreamAttempt(s, model, expectation, sink, base);
            && a.emitted <= Payloads(s)
            && (a.outcome.Mismatched? || a.outcome.Erred? || a.outcome.Cancelled? ==> a.emitted == [])
            && (a.outcome.Served? ==> a.emitted == Payloads(s))
            && (a.outcome.Served? || a.outcome.Broke? ==>
                  s.Opened? && a.openedStream
                  && Cleared(Watch(s.feed, model, expectation, sink, base), Payloads(s), CleanFrom(s.feed, 0)))
            && (a.openedStream <==> s.Opened? && Trim(s.id) != "")
  {
    hide Cleared;
    if s.Opened? && Trim(s.id) != "" && s.status < 400 {
      var w := Watch(s.feed, model, expectation, sink, base);
      DrainIsFaithful(w, 0, START, []);
      assert [] + PayloadsFrom(w.feed, 0) == PayloadsFrom(w.feed, 0);
    }
  }

  // ---- both transports decide alike ----

  // An outcome as routing sees it: the body of a served response does not matter.
  function Decision(o: Outcome): Outcome {
    if o.Served? then Served("") else o
  }

  // A feed that delivers a whole response: no error, and the end marked on the last chunk.
  predicate CleanFrom(feed: seq<Read>, pos: nat)
    decreases |feed| - pos
  {
    match ReadAt(feed, pos)
    case ReadFault(_) => false
    case Chunk(_, err, done) => err == "" && (done || CleanFrom(feed, pos + 1))
  }

  // The sink takes n payloads after the first `base`.
  ghost predicate Takes(sink: nat -> Option<HostError>, base: nat, n: nat) {
    forall k: nat | base <= k < base + n :: sink(k).None?
  }

  lemma {:induction false} AllAreTaken(xs: seq<Bytes>, sink: nat -> Option<HostError>, base: nat)
    requires Takes(sink, base, |xs|)
    ensures TakenBy(xs, sink, base) == |xs|
  {
    if xs != [] { AllAreTaken(xs[1..], sink, base + 1); }
  }

  // The name an attempt goes by: that known at the first payload that settles the matter, none if there is none.
  ghost function DecidingFrom(model: Bytes -> string, payloads: seq<Bytes>, i: nat): string
    decreases |payloads| + 1 - i
  {
    if i > |payloads| then ""
    else if Decided(model, payloads, i) then Reported(model, payloads, i)
    else DecidingFrom(model, payloads, i + 1)
  }

  ghost function DecidingName(model: Bytes -> string, payloads: seq<Bytes>): string {
    DecidingFrom(model, payloads, 1)
  }

  // What a name makes of a response.
  ghost function NameDecision(expectation: Option<Expectation>, name: string): Outcome {
    if Mismatching(expectation, name) then Mismatched(name) else Served("")
  }

  lemma {:induction false} DecidingFromIs(model: Bytes -> string, payloads: seq<Bytes>, i: nat, j: nat)
    requires 0 < i <= j <= |payloads| + 1
    requires forall x | i <= x < j :: !Decided(model, payloads, x)
    requires j <= |payloads| ==> Decided(model, payloads, j)
    ensures DecidingFrom(model, payloads, i) == if j <= |payloads| then Reported(model, payloads, j) else ""
    decreases j - i
  {
    hide Decided;
    if i < j { DecidingFromIs(model, payloads, i + 1, j); }
  }

  lemma {:induction false} CommittedStreamIsServed(w: Watch, pos: nat, p: Progress)
    requires p.committed && CleanFrom(w.feed, pos)
    requires Takes(w.sink, w.base, |p.emitted| + |PayloadsFrom(w.feed, pos)|)
    ensures Drain(w, pos, p).outcome == Served("")
    decreases |w.feed| - pos
  {
    var c := ReadAt(w.feed, pos);
    assert c.payload != "" ==> w.sink(w.base + |p.emitted|).None?;
    var step := if c.payload == "" then On(p) else Receive(w, p, c.payload);
    if !c.done { CommittedStreamIsServed(w, pos + 1, step.p); }
  }

  // What is settled by the payloads seen stays so with more of them.
  lemma SettledByThen(model: Bytes -> string, next: seq<Bytes>, rest: seq<Bytes>)
    requires next != [] && Undecided(model, next, |next| - 1)
    ensures Decided(model, next, |next|) ==> DecidingName(model, next + rest) == Reported(model, next, |next|)
    ensures Undecided(model, next, |next|) && rest == [] ==> DecidingName(model, next + rest) == ""
  {
    hide DecidingFrom;
    var all := next + rest;
    forall i | 0 <= i <= |next| ensures all[..i] == next[..i] { }
    assert forall i | 0 < i <= |next| :: Decided(model, all, i) <==> Decided(model, next, i);
    if Decided(model, next, |next|) {
      DecidingFromIs(model, all, 1, |next|);
    } else if rest == [] {
      DecidingFromIs(model, all, 1, |all| + 1);
    }
  }

  // Cleared output goes by a deciding name that the expectation lets pass.
  lemma ClearedByName(w: Watch, seen: seq<Bytes>, ended: bool)
    requires Cleared(w, seen, ended)
    ensures !Mismatching(w.expectation, DecidingName(w.model, seen))
  {
    hide Decided;
    if w.expectation.Some? {
      if Admitted(w, seen) {
        var j :| 0 <= j <= |seen| && AdmittedAt(w, seen, j);
        DecidingFromIs(w.model, seen, 1, j);
      } else {
        DecidingFromIs(w.model, seen, 1, |seen| + 1);
      }
    }
  }

  // Whatever a payload decides, the deciding name decides.
  lemma ReceiveDecidesByName(w: Watch, p: Progress, seen: seq<Bytes>, payload: Bytes, rest: seq<Bytes>)
    requires !p.committed && Tracks(w, p, seen) && Takes(w.sink, w.base, |seen| + 1)
    ensures var decision := NameDecision(w.expectation, DecidingName(w.model, seen + [payload] + rest));
            match Receive(w, p, payload)
            case Over(a) => a.outcome == decision
            case On(q) => q.committed ==> decision == Served("")
  {
    hide Receive, DecidingName, Undecided, Decided, Reported, Takes, VerdictOn;
    var next := seen + [payload];
    DecisionsStay(w.model, seen, payload);
    AllAreTaken(next, w.sink, w.base);
    var q := ReceiveUnreleased(w, p, seen, payload);
    if w.expectation.Some? { SettledByThen(w.model, next, rest); }
  }

  lemma EndDecidesByName(w: Watch, p: Progress, seen: seq<Bytes>)
    requires Tracks(w, p, seen) && Takes(w.sink, w.base, |seen|)
    requires p.committed ==> NameDecision(w.expectation, DecidingName(w.model, seen)) == Served("")
    ensures AtEnd(w, p).outcome == NameDecision(w.expectation, DecidingName(w.model, seen))
  {
    hide Takes, Admitted;
    if !p.committed {
      AllAreTaken(p.buffered, w.sink, w.base);
      if w.expectation.Some? { DecidingFromIs(w.model, seen, 1, |seen| + 1); }
    }
  }

  // The uncommitted stream, having seen some payloads, decides by the deciding name of all it carries.
  lemma {:induction false} DrainDecidesByName(w: Watch, pos: nat, p: Progress, seen: seq<Bytes>)
    requires !p.committed && Tracks(w, p, seen) && CleanFrom(w.feed, pos)
    requires Takes(w.sink, w.base, |seen| + |PayloadsFrom(w.feed, pos)|)
    ensures Drain(w, pos, p).outcome == NameDecision(w.expectation, DecidingName(w.model, seen + PayloadsFrom(w.feed, pos)))
    decreases |w.feed| - pos, 1
  {
    hide Receive, AtEnd, NameDecision, Undecided, Admitted;
    var c := ReadAt(w.feed, pos);
    var rest := if c.done then [] else PayloadsFrom(w.feed, pos + 1);
    if c.payload == "" {
      assert PayloadsFrom(w.feed, pos) == rest;
      if c.done {
        assert seen + rest == seen;
        EndDecidesByName(w, p, seen);
      } else {
        DrainDecidesByName(w, pos + 1, p, seen);
      }
    } else {
      var next, step := seen + [c.payload], Receive(w, p, c.payload);
      assert PayloadsFrom(w.feed, pos) == [c.payload] + rest;
      assert seen + PayloadsFrom(w.feed, pos) == next + rest;
      ReceiveTracks(w, p, seen, c.payload);
      assert Drain(w, pos, p)
             == if step.Over? then step.a else if c.done then AtEnd(w, step.p) else Drain(w, pos + 1, step.p);
      ReceiveDecidesByName(w, p, seen, c.payload, rest);
      if step.On? { RestDecidesByName(w, pos, step.p, next); }
    }
  }

  lemma {:induction false} RestDecidesByName(w: Watch, pos: nat, q: Progress, next: seq<Bytes>)
    requires Tracks(w, q, next) && CleanFrom(w.feed, pos)
    requires var rest := if ReadAt(w.feed, pos).done then [] else PayloadsFrom(w.feed, pos + 1);
             && Takes(w.sink, w.base, |next| + |rest|)
             && (q.committed ==> NameDecision(w.expectation, DecidingName(w.model, next + rest)) == Served(""))
    ensures var rest := if ReadAt(w.feed, pos).done then [] else PayloadsFrom(w.feed, pos + 1);
            (if ReadAt(w.feed, pos).done then AtEnd(w, q) else Drain(w, pos + 1, q)).outcome
            == NameDecision(w.expectation, DecidingName(w.model, next + rest))
    decreases |w.feed| - pos, 0
  {
    hide Admitted, NameDecision, DecidingName;
    if ReadAt(w.feed, pos).done {
      assert next + [] == next;
      EndDecidesByName(w, q, next);
    } else if q.committed {
      CommittedStreamIsServed(w, pos + 1, q);
    } else {
      DrainDecidesByName(w, pos + 1, q, next);
    }
  }

  // A stream that carries a whole response to a sink that takes it is judged by its deciding name.
  lemma StreamDecidesByName(id: string, status: int, feed: seq<Read>, model: Bytes -> string,
                            expectation: Option<Expectation>, sink: nat -> Option<HostError>, base: nat)
    requires Trim(id) != "" && status < 400 && CleanFrom(feed, 0) && Takes(sink, base, |PayloadsFrom(feed, 0)|)
    ensures StreamAttempt(Opened(id, status, feed), model, expectation, sink, base).outcome
            == NameDecision(expectation, DecidingName(model, PayloadsFrom(feed, 0)))
  {
    hide DecidingName, Drain, Takes, Tracks, NameDecision, CleanFrom, PayloadsFrom, ErrorBody, Trim, VerdictOn, Concat;
    var w := Watch(feed, model, expectation, sink, base);
    assert [] + PayloadsFrom(feed, 0) == PayloadsFrom(feed, 0);
    StartTracks(w);
    DrainDecidesByName(w, 0, START, []);
  }

  // So it decides as the plain response with the same body exactly when the name known at the deciding
  // payload is worth the same as the name in the whole body.
  lemma StreamDecidesAsPlain(id: string, status: int, feed: seq<Read>, model: Bytes -> string,
                             expectation: Option<Expectation>, sink: nat -> Option<HostError>, base: nat)
    requires Trim(id) != "" && status < 400 && CleanFrom(feed, 0) && Takes(sink, base, |PayloadsFrom(feed, 0)|)
    ensures var payloads := PayloadsFrom(feed, 0);
            Decision(StreamAttempt(Opened(id, status, feed), model, expectation, sink, base).outcome)
            == Decision(PlainAttempt(Answered(status, Concat(payloads)), model, expectation).outcome)
            <==> NameDecision(expectation, DecidingName(model, payloads)) == NameDecision(expectation, model(Concat(payloads)))
  {
    hide DecidingName, StreamAttempt, CleanFrom, PayloadsFrom, Concat, Takes, VerdictOn;
    StreamDecidesByName(id, status, feed, model, expectation, sink, base);
  }

  lemma StartTracks(w: Watch)
    ensures Tracks(w, START, [])
  {
  }

  // The first name a response reports is the one the whole body reports, and the probe limits do not cut it off.
  ghost predicate ProbeReliable(model: Bytes -> string, payloads: seq<Bytes>) {
    && model("") == ""
    && forall i | 0 < i <= |payloads| ::
         var name := Reported(model, payloads, i);
         if name != "" then name == model(Concat(payloads))
         else i >= 32 || |Concat(payloads[..i])| >= 262144 ==> model(Concat(payloads)) == ""
  }

  // Then every expectation decides alike.
  lemma ReliableProbeNamesTheBody(model: Bytes -> string, payloads: seq<Bytes>)
    requires ProbeReliable(model, payloads)
    ensures DecidingName(model, payloads) == model(Concat(payloads))
  {
    assert model("") == "";
    hide ProbeReliable, Decided;
    if j :| 0 < j <= |payloads| && Decided(model, payloads, j) {
      FirstDecided(model, payloads, j);
    } else {
      NeverDecided(model, payloads);
    }
  }

  lemma NeverDecided(model: Bytes -> string, payloads: seq<Bytes>)
    requires model("") == "" && Undecided(model, payloads, |payloads|)
    ensures DecidingName(model, payloads) == model(Concat(payloads)) == ""
  {
    hide Concat;
    DecidingFromIs(model, payloads, 1, |payloads| + 1);
    assert payloads[..|payloads|] == payloads;
    if payloads == [] {
      EmptyConcat();
    } else {
      assert !Decided(model, payloads, |payloads|);
    }
  }

  lemma EmptyConcat()
    ensures Concat([]) == ""
  {
  }

  lemma {:induction false} FirstDecided(model: Bytes -> string, payloads: seq<Bytes>, j: nat)
    requires ProbeReliable(model, payloads) && j <= |payloads| && Decided(model, payloads, j)
    ensures DecidingName(model, payloads) == model(Concat(payloads))
  {
    if i :| 0 < i < j && Decided(model, payloads, i) {
      FirstDecided(model, payloads, i);
    } else {
      DecidingFromIs(model, payloads, 1, j);
    }
  }

  // An error response read to its end explains itself as the plain error does, up to surrounding white space.
  lemma {:induction false} ErrorBodyIsWhole(feed: seq<Read>, pos: nat, buf: Bytes)
    requires CleanFrom(feed, pos) && |buf + Joined(feed, pos)| < MAX_PROBE_BYTES
    ensures ErrorBody(feed, pos, buf) == buf + Joined(feed, pos)
    decreases |feed| - pos
  {
    var c := ReadAt(feed, pos);
    if !c.done {
      assert buf + Joined(feed, pos) == (buf + c.payload) + Joined(feed, pos + 1);
      ErrorBodyIsWhole(feed, pos + 1, buf + c.payload);
    }
  }

  function Joined(feed: seq<Read>, pos: nat): Bytes
    requires CleanFrom(feed, pos)
    decreases |feed| - pos
  {
    var c := ReadAt(feed, pos);
    c.payload + if c.done then "" else Joined(feed, pos + 1)
  }

  lemma StreamErrorAsPlain(id: string, status: int, feed: seq<Read>, model: Bytes -> string,
                           expectation: Option<Expectation>, sink: nat -> Option<HostError>, base: nat)
    requires Trim(id) != "" && status >= 400 && CleanFrom(feed, 0) && |Joined(feed, 0)| < MAX_PROBE_BYTES
    ensures StreamAttempt(Opened(id, status, feed), model, expectation, sink, base).outcome
            == PlainAttempt(Answered(status, Trim(Joined(feed, 0))), model, expectation).outcome
  {
    ErrorBodyIsWhole(feed, 0, "");
    assert "" + Joined(feed, 0) == Joined(feed, 0);
  }
}
