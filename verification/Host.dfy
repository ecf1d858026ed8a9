// The engine's surroundings as objects: the host that answers calls and keeps the clock, the client's sink,
// and one stream attempt relayed between them (internal/engine/engine.go, streamOnce).
module Hosting {
  import opened Config
  import opened Errors
  import opened Identity
  import opened Cooldown
  import opened Planning
  import opened Transport
  import opened Routing

  datatype StreamStart = NotStarted(fault: Fault) | Started(id: string, status: int)

  // The host follows the script of its environment and counts what it was asked.
  class Host {
    const env: Env
    var calls: nat
    var ticks: nat
    var cursor: nat
    var closed: seq<nat>

    constructor (env: Env)
      ensures this.env == env && calls == 0 && ticks == 0 && closed == []
    {
      this.env := env;
      calls, ticks, cursor, closed := 0, 0, 0, [];
    }

    method Now() returns (now: Instant)
      modifies this`ticks
      ensures now == env.clock(old(ticks)) && ticks == old(ticks) + 1
    {
      now := env.clock(ticks);
      ticks := ticks + 1;
    }

    method Execute(model: Name) returns (r: Reply)
      requires env.transport.Plain?
      modifies this`calls
      ensures r == env.transport.replies(old(calls)) && calls == old(calls) + 1
    {
      r := env.transport.replies(calls);
      calls := calls + 1;
    }

    // The stream in progress is that of the latest call.
    ghost predicate Streams(k: nat, feed: seq<Read>)
      reads this
    {
      && env.transport.Streaming? && calls == k + 1
      && env.transport.streams(k).Opened? && env.transport.streams(k).feed == feed
    }

    method ExecuteStream(model: Name) returns (start: StreamStart)
      requires env.transport.Streaming?
      modifies this`calls, this`cursor
      ensures calls == old(calls) + 1 && cursor == 0
      ensures match env.transport.streams(old(calls))
              case NotOpened(f) => start == NotStarted(f)
              case Opened(id, status, _) => start == Started(id, status)
    {
      var s := env.transport.streams(calls);
      calls, cursor := calls + 1, 0;
      start := match s case NotOpened(f) => NotStarted(f) case Opened(id, status, _) => Started(id, status);
    }

    method ReadStream(id: string, ghost k: nat, ghost feed: seq<Read>) returns (c: Read)
      requires Streams(k, feed)
      modifies this`cursor
      ensures c == ReadAt(feed, old(cursor)) && cursor == old(cursor) + 1 && Streams(k, feed)
    {
      c := ReadAt(env.transport.streams(calls - 1).feed, cursor);
      cursor := cursor + 1;
    }

    method CloseStream(id: string)
      requires calls > 0
      modifies this`closed
      ensures closed == old(closed) + [calls - 1]
    {
      closed := closed + [calls - 1];
    }
  }

  class Sink {
    const refuses: nat -> Option<HostError>
    var delivered: seq<Bytes>

    constructor (refuses: nat -> Option<HostError>)
      ensures this.refuses == refuses && delivered == []
    {
      this.refuses := refuses;
      delivered := [];
    }

    method Emit(payload: Bytes) returns (err: Option<HostError>)
      modifies this
      ensures err == refuses(|old(delivered)|)
      ensures delivered == if err.None? then old(delivered) + [payload] else old(delivered)
    {
      err := refuses(|delivered|);
      if err.None? { delivered := delivered + [payload]; }
    }
  }

  // How streamOnce reports an attempt: delivered (possibly broken off), a wrong model, or a failure.
  datatype StreamReport =
    | StreamDelivered(err: Option<HostError>)
    | StreamMismatch(actual: string)
    | StreamFailed(fault: Fault)

  function OutcomeOf(s: StreamReport): Outcome {
    match s
    case StreamDelivered(err) => if err.Some? then Broke(err.value) else Served("")
    case StreamMismatch(actual) => Mismatched(actual)
    case StreamFailed(f) => FaultOutcome(f)
  }

  lemma {:induction false} TakenByIs(xs: seq<Bytes>, refuses: nat -> Option<HostError>, n: nat, k: nat)
    requires k <= |xs| && (k < |xs| ==> refuses(n + k).Some?) && Takes(refuses, n, k)
    ensures TakenBy(xs, refuses, n) == k
  {
    if k > 0 { TakenByIs(xs[1..], refuses, n + 1, k - 1); }
  }

  lemma OneMoreTaken(refuses: nat -> Option<HostError>, n: nat, k: nat)
    requires Takes(refuses, n, k) && refuses(n + k).None?
    ensures Takes(refuses, n, k + 1)
  {
  }

  lemma NothingTaken(refuses: nat -> Option<HostError>, n: nat)
    ensures Takes(refuses, n, 0)
  {
  }

  // Release the buffered payloads until the sink refuses one.
  method Release(buffered: seq<Bytes>, sink: Sink) returns (err: Option<HostError>)
    modifies sink
    ensures var k := TakenBy(buffered, sink.refuses, |old(sink.delivered)|);
            && sink.delivered == old(sink.delivered) + buffered[..k]
            && (err.Some? <==> k < |buffered|)
            && (err.Some? ==> err == sink.refuses(|old(sink.delivered)| + k))
  {
    hide TakenBy, Takes;
    ghost var base := sink.delivered;
    NothingTaken(sink.refuses, |base|);
    for i := 0 to |buffered|
      invariant sink.delivered == base + buffered[..i] && Takes(sink.refuses, |base|, i)
    {
      err := sink.Emit(buffered[i]);
      if err.Some? {
        TakenByIs(buffered, sink.refuses, |base|, i);
        return;
      }
      OneMoreTaken(sink.refuses, |base|, i);
      assert buffered[..i + 1] == buffered[..i] + [buffered[i]];
    }
    TakenByIs(buffered, sink.refuses, |base|, |buffered|);
    assert buffered[..|buffered|] == buffered;
    err := None;
  }

  // The body of an error response, as far as it is collected.
  method CollectError(host: Host, id: string, ghost k: nat, ghost feed: seq<Read>) returns (buf: Bytes)
    requires host.Streams(k, feed) && host.cursor == 0
    modifies host`cursor
    ensures buf == ErrorBody(feed, 0, "") && host.Streams(k, feed)
  {
    buf := "";
    while |buf| < MAX_PROBE_BYTES
      invariant host.Streams(k, feed)
      invariant ErrorBody(feed, 0, "") == ErrorBody(feed, host.cursor, buf)
      decreases |feed| - host.cursor
    {
      var c := host.ReadStream(id, k, feed);
      if c.ReadFault? || c.err != "" { return; }
      buf := buf + c.payload;
      if c.done { return; }
    }
  }

  // A nonempty payload: passed on, probed and buffered, or the reason to release or give up. What the sink
  // held before the stream is `origin`.
  method Take(w: Watch, p: Progress, payload: Bytes, sink: Sink, ghost origin: seq<Bytes>)
    returns (q: Progress, report: Option<StreamReport>)
    requires p.committed || p.emitted == []
    requires w.sink == sink.refuses && w.base == |origin| && sink.delivered == origin + p.emitted
    modifies sink
    ensures match Receive(w, p, payload)
            case On(q') => report == None && q == q' && (q.committed || q.emitted == []) && sink.delivered == origin + q.emitted
            case Over(a) => report.Some? && OutcomeOf(report.value) == a.outcome && sink.delivered == origin + a.emitted
  {
    hide VerdictOn, TakenBy;
    q, report := p, None;
    if p.committed {
      var err := sink.Emit(payload);
      if err.Some? { return q, Some(StreamDelivered(err)); }
      q := p.(emitted := p.emitted + [payload]);
      return;
    }
    q := q.(buffered := q.buffered + [payload]);
    if w.expectation.Some? {
      q := q.(probed := q.probed + payload, actual := w.model(q.probed + payload));
      if q.actual != "" {
        var verdict := Check(w.expectation.value, q.actual);
        if verdict == Mismatch { return q, Some(StreamMismatch(q.actual)); }
      } else if |q.buffered| >= MAX_PROBE_CHUNKS || |q.probed| >= MAX_PROBE_BYTES {
        if w.expectation.value.rejectMissing { return q, Some(StreamMismatch("")); }
      } else {
        return;
      }
    }
    var err := Release(q.buffered, sink);
    if err.Some? { return q, Some(StreamDelivered(err)); }
    q := q.(committed := true, buffered := [], emitted := q.buffered);
  }

  // The normal end of a stream.
  method Conclude(w: Watch, p: Progress, sink: Sink, ghost origin: seq<Bytes>) returns (report: StreamReport)
    requires p.committed || p.emitted == []
    requires w.sink == sink.refuses && w.base == |origin| && sink.delivered == origin + p.emitted
    modifies sink
    ensures var a := AtEnd(w, p);
            OutcomeOf(report) == a.outcome && sink.delivered == origin + a.emitted
  {
    hide TakenBy;
    if !p.committed {
      if w.expectation.Some? && p.actual == "" && w.expectation.value.rejectMissing { return StreamMismatch(""); }
      var err := Release(p.buffered, sink);
      if err.Some? { return StreamDelivered(err); }
    }
    report := StreamDelivered(None);
  }

  // The read loop: hold output back until the attempt is accepted, then pass it on.
  method Relay(host: Host, id: string, w: Watch, sink: Sink, ghost k: nat) returns (report: StreamReport)
    requires host.Streams(k, w.feed) && host.cursor == 0
    requires w.sink == sink.refuses && w.base == |sink.delivered|
    modifies host`cursor, sink
    ensures var a := Drain(w, 0, START);
            OutcomeOf(report) == a.outcome && sink.delivered == old(sink.delivered) + a.emitted
    ensures host.Streams(k, w.feed)
  {
    hide Receive, AtEnd, FaultError;
    ghost var origin := sink.delivered;
    var p := START;
    while true
      invariant host.Streams(k, w.feed)
      invariant p.committed || p.emitted == []
      invariant sink.delivered == origin + p.emitted
      invariant Drain(w, 0, START) == Drain(w, host.cursor, p)
      decreases |w.feed| - host.cursor
    {
      var c := host.ReadStream(id, k, w.feed);
      if c.ReadFault? {
        return if p.committed then StreamDelivered(Some(FaultError(c.fault))) else StreamFailed(c.fault);
      }
      if c.err != "" {
        var e := HostError(0, "", c.err);
        return if p.committed then StreamDelivered(Some(e)) else StreamFailed(Fault(e));
      }
      if c.payload != "" {
        var q, over := Take(w, p, c.payload, sink, origin);
        if over.Some? { return over.value; }
        p := q;
      }
      if c.done {
        report := Conclude(w, p, sink, origin);
        return;
      }
    }
  }

  // One upstream stream attempt. Every stream that was opened is closed here, once.
  method StreamOnce(host: Host, t: Target, sink: Sink) returns (report: StreamReport)
    requires host.env.transport.Streaming? && sink.refuses == host.env.transport.sink
    modifies host`calls, host`cursor, host`closed, sink
    ensures var k := old(host.calls);
            var a := AttemptOf(host.env.transport, host.env.model, k, t.expectation, |old(sink.delivered)|);
            && OutcomeOf(report) == a.outcome && sink.delivered == old(sink.delivered) + a.emitted
            && host.calls == k + 1
            && host.closed == old(host.closed) + (if a.openedStream then [k] else [])
  {
    hide Drain, ErrorBody, Trim;
    ghost var k, s := host.calls, host.env.transport.streams(host.calls);
    var start := host.ExecuteStream(t.model);
    if start.NotStarted? { return StreamFailed(start.fault); }
    if Trim(start.id) == "" { return StreamFailed(Fault(NO_STREAM_ID)); }
    if start.status >= 400 {
      var buf := CollectError(host, start.id, k, s.feed);
      report := StreamFailed(Fault(HostError(start.status, "", Trim(buf))));
    } else {
      var w := Watch(host.env.transport.streams(host.calls - 1).feed, host.env.model, t.expectation, sink.refuses, |sink.delivered|);
      report := Relay(host, start.id, w, sink, k);
      OpenedWhenDrained(w, 0, START);
    }
    host.CloseStream(start.id);
  }

  lemma {:induction false} OpenedWhenDrained(w: Watch, pos: nat, p: Progress)
    requires p.committed || p.emitted == []
    ensures Drain(w, pos, p).openedStream
    decreases |w.feed| - pos
  {
    hide VerdictOn, TakenBy;
    var c := ReadAt(w.feed, pos);
    if c.Chunk? && c.err == "" && !c.done {
      var step := if c.payload == "" then On(p) else Receive(w, p, c.payload);
      if step.On? { OpenedWhenDrained(w, pos + 1, step.p); }
    }
  }
}
