// The cooldown table is a function of what happened to each model: an independent account of the
// steps in Cooldown.dfy, and the backoff arithmetic that follows from it.
module CooldownHistory {
  import opened Config
  import opened Errors
  import opened Cooldown

  datatype StoreEvent =
    | Failure(model: Name, kind: Kind, cfg: CooldownConfig, r: Reading)
    | Success(model: Name)
    | Cleared(model: Name)
    | AllCleared

  function Apply(t: Table, e: StoreEvent): Table {
    match e
    case Failure(m, kind, cfg, r) => Failed(t, m, kind, cfg, r)
    case Success(m) => Succeeded(t, m)
    case Cleared(m) => t - {m}
    case AllCleared => map[]
  }

  // The table after a run of events, from the table it started with.
  function Replay(t: Table, events: seq<StoreEvent>): Table {
    if events == [] then t
    else Apply(Replay(t, events[..|events| - 1]), events[|events| - 1])
  }

  lemma {:induction false} ReplayConcat(t: Table, a: seq<StoreEvent>, b: seq<StoreEvent>)
    ensures Replay(t, a + b) == Replay(Replay(t, a), b)
  {
    if b == [] {
      assert a + b == a;
    } else {
      assert (a + b)[..|a + b| - 1] == a + b[..|b| - 1];
      ReplayConcat(t, a, b[..|b| - 1]);
    }
  }

  // The failures of a model since its last success or reset, oldest first.
  function Recent(events: seq<StoreEvent>, model: Name): (recent: seq<StoreEvent>)
    ensures forall e | e in recent :: e.Failure? && e.model == model
  {
    if events == [] then []
    else
      var before := Recent(events[..|events| - 1], model);
      match events[|events| - 1]
      case Failure(m, _, _, _) => if m == model then before + [events[|events| - 1]] else before
      case Success(m) => if m == model then [] else before
      case Cleared(m) => if m == model then [] else before
      case AllCleared => []
  }

  predicate AllFailures(recent: seq<StoreEvent>) {
    forall i | 0 <= i < |recent| :: recent[i].Failure?
  }

  // How many of them struck with this kind.
  function StrikesOf(recent: seq<StoreEvent>, kind: Kind): nat
    requires AllFailures(recent)
  {
    if recent == [] then 0
    else
      var last := recent[|recent| - 1];
      StrikesOf(recent[..|recent| - 1], kind) + if last.kind == kind && Strikes(kind, last.cfg) then 1 else 0
  }

  // When the cooldown started by the i-th failure ends; 0 if it started none.
  function EndOf(recent: seq<StoreEvent>, i: nat): Instant
    requires AllFailures(recent) && i < |recent|
  {
    var e := recent[i];
    if !Strikes(e.kind, e.cfg) then 0
    else
      var d := Spell(e.kind, StrikesOf(recent[..i], e.kind) + 1, e.cfg, e.r);
      if d == 0 then 0 else e.r.now + d
  }

  // The i-th failure is the first whose cooldown ends then.
  predicate FirstToReach(recent: seq<StoreEvent>, until: Instant, i: nat)
    requires AllFailures(recent) && i < |recent|
  {
    EndOf(recent, i) == until && forall j | 0 <= j < i :: EndOf(recent, j) < until
  }

  // The latest end among the failures, and the kind of the first failure that reaches it.
  ghost predicate IsLatest(recent: seq<StoreEvent>, until: Instant, kind: Option<Kind>)
    requires AllFailures(recent)
  {
    && (forall i | 0 <= i < |recent| :: EndOf(recent, i) <= until)
    && if until == 0 then kind == None
       else exists i | 0 <= i < |recent| :: FirstToReach(recent, until, i) && kind == Some(recent[i].kind)
  }

  lemma EarlierEndsStay(recent: seq<StoreEvent>, e: StoreEvent, i: nat)
    requires AllFailures(recent) && e.Failure? && i < |recent|
    ensures EndOf(recent + [e], i) == EndOf(recent, i)
  {
    assert (recent + [e])[..i] == recent[..i];
  }

  lemma LatestStep(recent: seq<StoreEvent>, e: StoreEvent, until: Instant, kind: Option<Kind>)
    requires AllFailures(recent) && e.Failure? && IsLatest(recent, until, kind)
    ensures var end := EndOf(recent + [e], |recent|);
            IsLatest(recent + [e], if end > until then end else until, if end > until then Some(e.kind) else kind)
  {
    hide EndOf;
    var next, end := recent + [e], EndOf(recent + [e], |recent|);
    forall i: nat | i < |recent| ensures EndOf(next, i) == EndOf(recent, i) { EarlierEndsStay(recent, e, i); }
    if end > until {
      assert forall i | 0 <= i < |next| :: EndOf(next, i) <= end;
      assert next[|recent|] == e && FirstToReach(next, end, |recent|);
    } else if until > 0 {
      var i :| 0 <= i < |recent| && FirstToReach(recent, until, i) && kind == Some(recent[i].kind);
      assert next[i] == recent[i] && FirstToReach(next, until, i);
    }
  }

  // What one entry owes to its history.
  ghost predicate Explains(recent: seq<StoreEvent>, e: EntryState)
    requires AllFailures(recent)
  {
    IsLatest(recent, e.until, e.kind) && forall k :: StrikeCount(e, k) == StrikesOf(recent, k)
  }

  lemma StrikesStep(recent: seq<StoreEvent>, f: StoreEvent, e: EntryState, k: Kind)
    requires AllFailures(recent) && f.Failure? && StrikeCount(e, k) == StrikesOf(recent, k)
    ensures StrikeCount(AfterFailure(e, f.kind, f.cfg, f.r), k) == StrikesOf(recent + [f], k)
  {
    hide Spell;
    assert (recent + [f])[..|recent|] == recent;
  }

  lemma FailureStep(recent: seq<StoreEvent>, f: StoreEvent, e: EntryState)
    requires AllFailures(recent) && f.Failure? && Explains(recent, e)
    ensures Explains(recent + [f], AfterFailure(e, f.kind, f.cfg, f.r))
  {
    hide Spell, IsLatest;
    forall k { StrikesStep(recent, f, e, k); }
    assert (recent + [f])[..|recent|] == recent;
    LatestStep(recent, f, e.until, e.kind);
  }

  // The table is a function of history: for any run of failures, successes and resets, every model's
  // deadline, reason and strike counts are those its own recent failures determine.
  lemma {:induction false} TableIsExplainedByHistory(events: seq<StoreEvent>, model: Name)
    ensures Explains(Recent(events, model), Lookup(Replay(map[], events), model))
  {
    if events != [] {
      var before, e := events[..|events| - 1], events[|events| - 1];
      TableIsExplainedByHistory(before, model);
      if e.Failure? && e.model == model {
        FailureStep(Recent(before, model), e, Lookup(Replay(map[], before), model));
      }
    }
  }

  // A model whose deadline lies in the future has a recent failure whose cooldown ends then.
  lemma CoolingHasRunningSpell(events: seq<StoreEvent>, model: Name, now: Instant) returns (i: nat)
    requires CoolingUntil(Replay(map[], events), model, now) != 0
    ensures i < |Recent(events, model)| && EndOf(Recent(events, model), i) > now
  {
    hide Recent, Replay, EndOf;
    TableIsExplainedByHistory(events, model);
    var recent, e := Recent(events, model), Lookup(Replay(map[], events), model);
    i :| i < |recent| && FirstToReach(recent, e.until, i) && e.kind == Some(recent[i].kind);
  }

  lemma RunningSpellCools(events: seq<StoreEvent>, model: Name, now: Instant, i: nat)
    requires i < |Recent(events, model)| && EndOf(Recent(events, model), i) > now
    ensures CoolingUntil(Replay(map[], events), model, now) != 0
  {
    hide Recent, Replay, EndOf;
    TableIsExplainedByHistory(events, model);
    assert EndOf(Recent(events, model), i) <= Lookup(Replay(map[], events), model).until;
  }

  // So a model is skipped exactly while some recent failure's cooldown is still running.
  lemma CoolingIffSomeSpellRuns(events: seq<StoreEvent>, model: Name, now: Instant)
    ensures var recent := Recent(events, model);
            CoolingUntil(Replay(map[], events), model, now) != 0
            <==> exists i | 0 <= i < |recent| :: EndOf(recent, i) > now
  {
    hide Recent, Replay, EndOf, CoolingUntil;
    var recent := Recent(events, model);
    if CoolingUntil(Replay(map[], events), model, now) != 0 {
      var i := CoolingHasRunningSpell(events, model, now);
      assert EndOf(recent, i) > now;
    }
    if i :| 0 <= i < |recent| && EndOf(recent, i) > now { RunningSpellCools(events, model, now, i); }
  }

  // With a clock that has reached `latest` and limits of at most `limit`, no cooldown ends later than their sum.
  lemma CooldownsAreCapped(events: seq<StoreEvent>, model: Name, latest: Instant, limit: nat)
    requires forall e | e in events && e.Failure? :: e.r.now <= latest && Limit(e.cfg) <= limit
    ensures Lookup(Replay(map[], events), model).until <= latest + limit
  {
    TableIsExplainedByHistory(events, model);
    var recent := Recent(events, model);
    RecentAreEvents(events, model);
    forall i | 0 <= i < |recent| ensures EndOf(recent, i) <= latest + limit {
      assert recent[i] in recent;
    }
  }

  lemma {:induction false} RecentAreEvents(events: seq<StoreEvent>, model: Name)
    ensures forall e | e in Recent(events, model) :: e in events
  {
    if events != [] { RecentAreEvents(events[..|events| - 1], model); }
  }

  // ---- backoff arithmetic ----

  // Settings that normalisation guarantees, with a limit that is itself an int64 duration.
  predicate Normalized(cfg: CooldownConfig) {
    && cfg.enabled && cfg.backoffMultiplier >= 1.0 && cfg.serverErrorThreshold >= 1
    && cfg.maxSeconds > 0 && Limit(cfg) < INT64_LIMIT
    && cfg.quotaSeconds >= 0 && cfg.rateLimitSeconds >= 0 && cfg.authSeconds >= 0 && cfg.notFoundSeconds >= 0
    && cfg.serverErrorSeconds >= 0 && cfg.mismatchSeconds >= 0
  }

  // What the backoff is meant to be: base times multiplier^(k-1), cut at the limit.
  function Intended(kind: Kind, k: nat, cfg: CooldownConfig): int
    requires k >= 1
  {
    if Backoff(kind, k, cfg).Floor > Limit(cfg) then Limit(cfg) else Backoff(kind, k, cfg).Floor
  }

  lemma {:induction false} PowGrows(m: real, k: nat)
    requires m >= 1.0
    ensures 1.0 <= Pow(m, k) <= Pow(m, k + 1)
  {
    if k > 0 {
      PowGrows(m, k - 1);
      assert m * Pow(m, k - 1) <= m * Pow(m, k);
      assert Pow(m, k) >= Pow(m, k - 1);
    }
  }

  lemma BackoffGrows(kind: Kind, k: nat, cfg: CooldownConfig)
    requires k >= 1 && Normalized(cfg)
    ensures 0.0 <= Backoff(kind, k, cfg) <= Backoff(kind, k + 1, cfg)
  {
    PowGrows(cfg.backoffMultiplier, k - 1);
    var base := BaseFor(kind, cfg) as real;
    assert base >= 0.0;
    assert base * Pow(cfg.backoffMultiplier, k - 1) <= base * Pow(cfg.backoffMultiplier, k);
    assert base * Pow(cfg.backoffMultiplier, k - 1) >= 0.0;
  }

  // The k-th unhinted cooldown is the intended one exactly when the backoff still fits an int64 duration,
  // or the platform's out-of-range value happens to reach the limit: the conversion precedes the clamp.
  lemma UnhintedSpellIff(kind: Kind, k: nat, cfg: CooldownConfig, r: Reading)
    requires k >= 1 && Normalized(cfg) && kind != Server && r.hint == 0
    ensures Spell(kind, k, cfg, r) == Intended(kind, k, cfg)
            <==> Backoff(kind, k, cfg) < INT64_LIMIT as real || r.overflowed >= Limit(cfg)
  {
    BackoffGrows(kind, k, cfg);
    var x := Backoff(kind, k, cfg);
    if x >= INT64_LIMIT as real { assert x.Floor >= INT64_LIMIT; }
  }

  // Server errors below the threshold cost nothing; from there they back off like the others.
  lemma ServerSpell(k: nat, cfg: CooldownConfig, r: Reading)
    requires k >= 1 && Normalized(cfg)
    ensures k < cfg.serverErrorThreshold ==> Spell(Server, k, cfg, r) == 0
    ensures k >= cfg.serverErrorThreshold ==>
              var j := k - cfg.serverErrorThreshold + 1;
              (Spell(Server, k, cfg, r) == Intended(Server, j, cfg)
               <==> Backoff(Server, j, cfg) < INT64_LIMIT as real || r.overflowed >= Limit(cfg))
  {
    if k >= cfg.serverErrorThreshold {
      var j := k - cfg.serverErrorThreshold + 1;
      BackoffGrows(Server, j, cfg);
      var x := Backoff(Server, j, cfg);
      if x >= INT64_LIMIT as real { assert x.Floor >= INT64_LIMIT; }
    }
  }

  // The strike the backoff counts: server errors count from the threshold on.
  function Effective(kind: Kind, k: nat, cfg: CooldownConfig): int {
    if kind == Server then k - cfg.serverErrorThreshold + 1 else k
  }

  lemma EffectiveSpell(kind: Kind, k: nat, cfg: CooldownConfig, r: Reading)
    requires k >= 1 && Normalized(cfg) && r.hint == 0
    ensures Effective(kind, k, cfg) < 1 ==> Spell(kind, k, cfg, r) == 0
    ensures Effective(kind, k, cfg) >= 1 && Backoff(kind, Effective(kind, k, cfg), cfg) < INT64_LIMIT as real ==>
              Spell(kind, k, cfg, r) == Intended(kind, Effective(kind, k, cfg), cfg)
  {
    hide Backoff, Intended, Spell;
    if kind == Server {
      ServerSpell(k, cfg, r);
      if k < cfg.serverErrorThreshold { assert Effective(kind, k, cfg) < 1; }
    } else {
      UnhintedSpellIff(kind, k, cfg, r);
    }
  }

  // Within range a further failure, of whatever kind, never shortens the cooldown.
  lemma SpellsGrow(kind: Kind, k: nat, cfg: CooldownConfig, r: Reading, r': Reading)
    requires k >= 1 && Normalized(cfg) && r.hint == 0 && r'.hint == 0
    requires Effective(kind, k + 1, cfg) >= 1 ==> Backoff(kind, Effective(kind, k + 1, cfg), cfg) < INT64_LIMIT as real
    ensures Spell(kind, k, cfg, r) <= Spell(kind, k + 1, cfg, r')
  {
    hide Backoff, Spell, Normalized;
    EffectiveSpell(kind, k, cfg, r);
    EffectiveSpell(kind, k + 1, cfg, r');
    var j := Effective(kind, k, cfg);
    if j >= 1 { BackoffGrows(kind, j, cfg); }
  }

  // ---- hints ----

  function Shorter(a: int, b: int): int {
    if a < b then a else b
  }

  function Longer(a: int, b: int): int {
    if a < b then b else a
  }

  // The same reading without its hint.
  function Unhinted(r: Reading): Reading {
    r.(hint := 0)
  }

  // A reset hint on a quota or rate-limit error replaces the backoff, within the limit; in a message of the
  // host's own it can only extend it.
  lemma HintedSpell(kind: Kind, k: nat, cfg: CooldownConfig, r: Reading)
    requires k >= 1 && (kind == Quota || kind == RateLimit) && cfg.honorRetryAfter && r.hint > 0
    ensures var hinted := Longer(Shorter(r.hint, Limit(cfg)), 0);
            Spell(kind, k, cfg, r) == if r.hostCooldown then Longer(Spell(kind, k, cfg, Unhinted(r)), hinted) else hinted
  {
    hide Backoff, ToDuration;
  }

  // Otherwise hints change nothing.
  lemma OtherSpellsIgnoreHints(kind: Kind, k: nat, cfg: CooldownConfig, r: Reading)
    requires k >= 1 && !((kind == Quota || kind == RateLimit) && cfg.honorRetryAfter)
    ensures Spell(kind, k, cfg, r) == Spell(kind, k, cfg, Unhinted(r))
  {
    hide Backoff, ToDuration;
  }

  // ---- the configured ladder ----

  // The first backoff of a kind is its configured time, and each further one the configured multiple.
  lemma BackoffIs(k: nat, cfg: CooldownConfig)
    requires k >= 1
    ensures Backoff(Quota, 1, cfg) == (cfg.quotaSeconds * 1_000_000_000) as real
    ensures Backoff(RateLimit, 1, cfg) == (cfg.rateLimitSeconds * 1_000_000_000) as real
    ensures Backoff(Auth, 1, cfg) == (cfg.authSeconds * 1_000_000_000) as real
    ensures Backoff(NotFound, 1, cfg) == (cfg.notFoundSeconds * 1_000_000_000) as real
    ensures Backoff(Server, 1, cfg) == (cfg.serverErrorSeconds * 1_000_000_000) as real
    ensures Backoff(ModelMismatch, 1, cfg) == (cfg.mismatchSeconds * 1_000_000_000) as real
    ensures forall kind: Kind :: Backoff(kind, k + 1, cfg) == cfg.backoffMultiplier * Backoff(kind, k, cfg)
  {
    forall kind: Kind ensures Backoff(kind, k + 1, cfg) == cfg.backoffMultiplier * Backoff(kind, k, cfg) {
      Multiplied(BaseFor(kind, cfg) as real, cfg.backoffMultiplier, Pow(cfg.backoffMultiplier, k - 1));
    }
  }

  lemma Multiplied(base: real, m: real, p: real)
    ensures base * (m * p) == m * (base * p)
  {
  }

  const DEFAULTS := CooldownConfig(true, 1800, 60, 600, 3600, 30, 600, 2, 2.0, 21600, true)

  // The seconds that the documentation gives: for the first failure of each kind under the default settings,
  // and for server errors from the second on.
  lemma DefaultCooldowns(r: Reading)
    requires r.hint == 0
    ensures Spell(Quota, 1, DEFAULTS, r) == 1800 * SECOND && Spell(RateLimit, 1, DEFAULTS, r) == 60 * SECOND
    ensures Spell(Auth, 1, DEFAULTS, r) == 600 * SECOND && Spell(NotFound, 1, DEFAULTS, r) == 3600 * SECOND
    ensures Spell(ModelMismatch, 1, DEFAULTS, r) == 600 * SECOND
    ensures Spell(Server, 1, DEFAULTS, r) == 0 && Spell(Server, 2, DEFAULTS, r) == 30 * SECOND
  {
    assert Pow(2.0, 0) == 1.0;
  }

  // Each further failure doubles the cooldown, up to six hours.
  lemma DefaultQuotaLadder(r: Reading)
    requires r.hint == 0
    ensures Spell(Quota, 2, DEFAULTS, r) == 3600 * SECOND && Spell(Quota, 3, DEFAULTS, r) == 7200 * SECOND
    ensures Spell(Quota, 4, DEFAULTS, r) == 14400 * SECOND && Spell(Quota, 5, DEFAULTS, r) == 21600 * SECOND
    ensures Spell(Quota, 6, DEFAULTS, r) == 21600 * SECOND
  {
    assert Pow(2.0, 0) == 1.0 && Pow(2.0, 1) == 2.0 && Pow(2.0, 2) == 4.0;
    assert Pow(2.0, 3) == 8.0 && Pow(2.0, 4) == 16.0 && Pow(2.0, 5) == 32.0;
  }

  // A disabled cooldown and a client error leave a model's deadline, reason and strikes alone.
  lemma HarmlessFailures(e: EntryState, kind: Kind, cfg: CooldownConfig, r: Reading)
    requires !cfg.enabled || kind == Client
    ensures AfterFailure(e, kind, cfg, r) == e.(failures := e.failures + 1)
  {
  }

  // ---- the counts ----

  function FailuresOf(events: seq<StoreEvent>, model: Name): nat {
    if events == [] then 0
    else
      var before, e := FailuresOf(events[..|events| - 1], model), events[|events| - 1];
      match e
      case Failure(m, _, _, _) => if m == model then before + 1 else before
      case Success(_) => before
      case Cleared(m) => if m == model then 0 else before
      case AllCleared => 0
  }

  function SuccessesOf(events: seq<StoreEvent>, model: Name): nat {
    if events == [] then 0
    else
      var before, e := SuccessesOf(events[..|events| - 1], model), events[|events| - 1];
      match e
      case Failure(_, _, _, _) => before
      case Success(m) => if m == model then before + 1 else before
      case Cleared(m) => if m == model then 0 else before
      case AllCleared => 0
  }

  // The counters of an entry are the failures and successes of its model since its last reset.
  lemma {:induction false} CountsAreTotals(events: seq<StoreEvent>, model: Name)
    ensures var e := Lookup(Replay(map[], events), model);
            e.failures == FailuresOf(events, model) && e.successes == SuccessesOf(events, model)
  {
    hide Spell;
    if events != [] { CountsAreTotals(events[..|events| - 1], model); }
  }

  lemma PowOfTwo(k: nat)
    requires k >= 23
    ensures Pow(2.0, k) >= 8388608.0
  {
    if k == 23 {
      assert Pow(2.0, 5) == 32.0;
      assert Pow(2.0, 10) == 1024.0 by { assert Pow(2.0, 7) == 128.0; }
      assert Pow(2.0, 14) == 16384.0 by { assert Pow(2.0, 12) == 4096.0; }
      assert Pow(2.0, 18) == 262144.0 by { assert Pow(2.0, 16) == 65536.0; }
      assert Pow(2.0, 23) == 8388608.0 by { assert Pow(2.0, 20) == 1048576.0; }
    } else {
      PowOfTwo(k - 1);
    }
  }

  // Out of range the cooldown can vanish: where the conversion gives the smallest int64, the default
  // settings start no cooldown at all from the 24th consecutive quota failure on.
  lemma DefaultQuotaCooldownVanishes(k: nat, cfg: CooldownConfig, r: Reading)
    requires k >= 24 && r.hint == 0 && r.overflowed == -INT64_LIMIT
    requires cfg == DEFAULTS
    ensures Spell(Quota, k, cfg, r) == 0 && Intended(Quota, k, cfg) == 6 * 3600 * SECOND
  {
    PowOfTwo(k - 1);
    var x := Backoff(Quota, k, cfg);
    assert x >= 1800000000000.0 * 8388608.0;
    assert x.Floor >= 21600 * SECOND;
  }
}
