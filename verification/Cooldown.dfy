// The cooldown table (internal/cooldown/store.go): which upstream models are skipped, and until when.
//
// Instants are nanoseconds since the zero time, so 0 is the zero time itself; durations are nanoseconds.
module Cooldown {
  import opened Config
  import opened Errors

  type Instant = nat

  const SECOND := 1_000_000_000
  const INT64_LIMIT := 9223372036854775808

  // What RecordFailure learns from outside: the clock, the reset hint found in the message (0 for none),
  // whether the host itself wrote the message, and what the platform makes of a float that is out of
  // the int64 range.
  datatype Reading = Reading(now: Instant, hint: nat, hostCooldown: bool, overflowed: int)

  // ---- durations ----

  function BaseFor(kind: Kind, cfg: CooldownConfig): int {
    match kind
    case Quota => cfg.quotaSeconds * SECOND
    case RateLimit => cfg.rateLimitSeconds * SECOND
    case Auth => cfg.authSeconds * SECOND
    case NotFound => cfg.notFoundSeconds * SECOND
    case Server => cfg.serverErrorSeconds * SECOND
    case ModelMismatch => cfg.mismatchSeconds * SECOND
    case Client => 0
  }

  function Pow(m: real, k: nat): real {
    if k == 0 then 1.0 else m * Pow(m, k - 1)
  }

  // The unclamped backoff of the k-th effective strike.
  function Backoff(kind: Kind, k: nat, cfg: CooldownConfig): real
    requires k >= 1
  {
    BaseFor(kind, cfg) as real * Pow(cfg.backoffMultiplier, k - 1)
  }

  function Truncate(x: real): int {
    if x >= 0.0 then x.Floor else -((-x).Floor)
  }

  // Conversion to an int64 duration, which happens before the clamp.
  function ToDuration(x: real, overflowed: int): int {
    if -(INT64_LIMIT as real) <= x < INT64_LIMIT as real then Truncate(x) else overflowed
  }

  function Limit(cfg: CooldownConfig): int {
    cfg.maxSeconds * SECOND
  }

  // Whether a failure counts as a strike at all.
  predicate Strikes(kind: Kind, cfg: CooldownConfig) {
    cfg.enabled && kind != Client
  }

  // The cooldown that the k-th strike of a kind starts; 0 for none.
  function Spell(kind: Kind, k: nat, cfg: CooldownConfig, r: Reading): nat
    requires k >= 1
  {
    if kind == Server && k < cfg.serverErrorThreshold then 0
    else
      var effective := if kind == Server then k - cfg.serverErrorThreshold + 1 else k;
      var own := ToDuration(Backoff(kind, effective, cfg), r.overflowed);
      var hinted := cfg.honorRetryAfter && (kind == Quota || kind == RateLimit) && r.hint > 0
                    && (!r.hostCooldown || r.hint > own);
      var d := if hinted then r.hint else own;
      var clamped := if d > Limit(cfg) then Limit(cfg) else d;
      if clamped <= 0 then 0 else clamped
  }

  // ---- the table as a value ----

  datatype EntryState = EntryState(until: Instant, kind: Option<Kind>, strikes: map<Kind, nat>, failures: nat, successes: nat)

  type Table = map<Name, EntryState>

  const FRESH := EntryState(0, None, map[], 0, 0)

  function Lookup(t: Table, model: Name): EntryState {
    if model in t then t[model] else FRESH
  }

  function StrikeCount(e: EntryState, kind: Kind): nat {
    if kind in e.strikes then e.strikes[kind] else 0
  }

  function AfterFailure(e: EntryState, kind: Kind, cfg: CooldownConfig, r: Reading): EntryState {
    var counted := e.(failures := e.failures + 1);
    if !Strikes(kind, cfg) then counted
    else
      var k := StrikeCount(e, kind) + 1;
      var struck := counted.(strikes := e.strikes[kind := k]);
      var d := Spell(kind, k, cfg, r);
      if d > 0 && r.now + d > e.until then struck.(until := r.now + d, kind := Some(kind)) else struck
  }

  // Whether this failure starts a cooldown, if perhaps one shorter than that already running.
  predicate StartsSpell(e: EntryState, kind: Kind, cfg: CooldownConfig, r: Reading) {
    Strikes(kind, cfg) && Spell(kind, StrikeCount(e, kind) + 1, cfg, r) > 0
  }

  lemma SpellRuns(e: EntryState, kind: Kind, cfg: CooldownConfig, r: Reading)
    requires StartsSpell(e, kind, cfg, r)
    ensures AfterFailure(e, kind, cfg, r).until > r.now
  {
    hide Spell;
  }

  function AfterSuccess(e: EntryState): EntryState {
    e.(until := 0, kind := None, strikes := map[], successes := e.successes + 1)
  }

  function Failed(t: Table, model: Name, kind: Kind, cfg: CooldownConfig, r: Reading): Table {
    t[model := AfterFailure(Lookup(t, model), kind, cfg, r)]
  }

  function Succeeded(t: Table, model: Name): Table {
    t[model := AfterSuccess(Lookup(t, model))]
  }

  // When a model becomes available again; the zero time if it is available now.
  function CoolingUntil(t: Table, model: Name, now: Instant): Instant {
    if model in t && t[model].until > now then t[model].until else 0
  }

  // ---- the store ----

  class Entry {
    var until: Instant
    var kind: Option<Kind>
    var strikes: map<Kind, nat>
    var failures: nat
    var successes: nat

    constructor ()
      ensures State() == FRESH
    {
      until, kind, strikes, failures, successes := 0, None, map[], 0, 0;
    }

    ghost function State(): EntryState
      reads this
    {
      EntryState(until, kind, strikes, failures, successes)
    }

    method Fail(kind: Kind, cfg: CooldownConfig, r: Reading) returns (applied: nat)
      modifies this
      ensures State() == AfterFailure(old(State()), kind, cfg, r)
      ensures applied == if StartsSpell(old(State()), kind, cfg, r) then until - r.now else 0
    {
      hide Spell;
      failures := failures + 1;
      if !cfg.enabled || kind == Client { return 0; }
      var k := (if kind in strikes then strikes[kind] else 0) + 1;
      strikes := strikes[kind := k];
      var d := Duration(kind, k, cfg, r);
      if d <= 0 { return 0; }
      // Never shorten an existing, longer cooldown.
      if r.now + d > until {
        until := r.now + d;
        this.kind := Some(kind);
      }
      applied := until - r.now;
    }

    method Succeed()
      modifies this
      ensures State() == AfterSuccess(old(State()))
    {
      until, kind, strikes := 0, None, map[];
      successes := successes + 1;
    }
  }

  method Duration(kind: Kind, strikes: nat, cfg: CooldownConfig, r: Reading) returns (d: int)
    requires strikes >= 1
    ensures d == Spell(kind, strikes, cfg, r)
  {
    var effective := strikes;
    if kind == Server {
      if strikes < cfg.serverErrorThreshold { return 0; }
      effective := strikes - cfg.serverErrorThreshold + 1;
    }
    d := ToDuration(Backoff(kind, effective, cfg), r.overflowed);
    if cfg.honorRetryAfter && (kind == Quota || kind == RateLimit) {
      if r.hint > 0 {
        // The host's own credential cooldown may only extend ours.
        if !r.hostCooldown || r.hint > d { d := r.hint; }
      }
    }
    if d > Limit(cfg) { d := Limit(cfg); }
    if d <= 0 { return 0; }
  }

  class Store {
    var entries: map<Name, Entry>
    ghost var Repr: set<Entry>

    // Distinct models never share an entry.
    ghost predicate Valid()
      reads this
    {
      && (forall m | m in entries :: entries[m] in Repr)
      && forall a, b | a in entries && b in entries && a != b :: entries[a] != entries[b]
    }

    ghost function View(): Table
      requires Valid()
      reads this, Repr
    {
      map m | m in entries :: entries[m].State()
    }

    constructor ()
      ensures Valid() && Repr == {} && View() == map[]
    {
      entries, Repr := map[], {};
    }

    method Until(model: Name, now: Instant) returns (until: Instant)
      requires Valid()
      ensures until == CoolingUntil(View(), model, now)
    {
      if model !in entries || entries[model].until <= now { return 0; }
      return entries[model].until;
    }

    method Available(model: Name, now: Instant) returns (available: bool)
      requires Valid()
      ensures available <==> CoolingUntil(View(), model, now) == 0
    {
      var until := Until(model, now);
      available := until == 0;
    }

    method Get(model: Name) returns (e: Entry)
      requires Valid()
      modifies this
      ensures Valid() && fresh(Repr - old(Repr)) && old(Repr) <= Repr
      ensures model in entries && entries[model] == e && entries.Keys == old(entries.Keys) + {model}
      ensures forall m | m in old(entries) :: entries[m] == old(entries[m])
      ensures model !in old(entries) ==> fresh(e) && e.State() == FRESH
    {
      if model in entries {
        e := entries[model];
      } else {
        e := new Entry();
        entries := entries[model := e];
        Repr := Repr + {e};
      }
    }

    // When one entry has changed, so has the table, at that model only.
    lemma OneEntryChanged(before: Table, model: Name)
      requires Valid() && model in entries && entries.Keys == before.Keys + {model}
      requires forall m | m in before && m != model :: entries[m].State() == before[m]
      ensures View() == before[model := entries[model].State()]
    {
    }

    method RecordSuccess(model: Name)
      requires Valid()
      modifies this, Repr
      ensures Valid() && fresh(Repr - old(Repr)) && old(Repr) <= Repr
      ensures View() == Succeeded(old(View()), model)
    {
      ghost var before := View();
      var e := Get(model);
      assert e.State() == Lookup(before, model);
      e.Succeed();
      OneEntryChanged(before, model);
    }

    method RecordFailure(model: Name, kind: Kind, cfg: CooldownConfig, r: Reading) returns (applied: nat)
      requires Valid()
      modifies this, Repr
      ensures Valid() && fresh(Repr - old(Repr)) && old(Repr) <= Repr
      ensures View() == Failed(old(View()), model, kind, cfg, r)
      ensures applied == if StartsSpell(Lookup(old(View()), model), kind, cfg, r) then CoolingUntil(View(), model, r.now) - r.now else 0
    {
      hide AfterFailure, StartsSpell;
      ghost var before := View();
      var e := Get(model);
      assert e.State() == Lookup(before, model);
      applied := e.Fail(kind, cfg, r);
      OneEntryChanged(before, model);
      if StartsSpell(Lookup(before, model), kind, cfg, r) { SpellRuns(Lookup(before, model), kind, cfg, r); }
    }

    method Reset(model: Name) returns (cleared: nat)
      requires Valid()
      modifies this
      ensures Valid() && Repr == old(Repr)
      ensures View() == if model == "" then map[] else old(View()) - {model}
      ensures cleared == if model == "" then |old(entries)| else if model in old(entries) then 1 else 0
    {
      if model == "" {
        cleared := |entries|;
        entries := map[];
      } else if model in entries {
        entries := entries - {model};
        cleared := 1;
      } else {
        cleared := 0;
      }
    }
  }
}
