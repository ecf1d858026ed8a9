// Classification of upstream errors and the failover decision (internal/detect/errors.go),
// with the client-facing rewriting of internal/engine/engine.go. Messages are taken lower case.
module Errors {
  import opened Identity

  datatype Kind = Client | Quota | RateLimit | Auth | NotFound | Server | ModelMismatch

  const ACCOUNT_MARKERS := [
    "insufficient_quota", "insufficient quota", "quota", "usage limit", "usage_limit",
    "usage_limit_reached", "billing", "credit"]

  const LIMIT_MARKERS := [
    "balance", "exceeded your current", "limit reached", "resource_exhausted", "resource exhausted",
    "payment required", "plan limit", "out of tokens"]

  const PERIOD_MARKERS := [
    "token limit exceeded for", "daily limit", "monthly limit", "weekly limit", "额度", "余额", "配额", "用量"]

  const QUOTA_MARKERS := ACCOUNT_MARKERS + LIMIT_MARKERS + PERIOD_MARKERS

  const RATE_MARKERS := [
    "rate limit", "rate_limit", "ratelimit", "too many requests", "429", "overloaded",
    "slow down", "请求过于频繁", "限流"]

  const AUTH_MARKERS := [
    "unauthorized", "invalid api key", "invalid_api_key", "authentication", "permission",
    "forbidden", "401", "403", "token expired", "invalid token"]

  const MISSING_MODEL_MARKERS := [
    "model_not_found", "model not found", "does not exist", "unknown model", "no such model",
    "unsupported model", "not supported model"]

  const MISSING_ROUTE_MARKERS := [
    "model is not available", "unknown provider for model", "no auth available", "no available auth",
    "auth_not_found", "模型不存在"]

  const NOT_FOUND_MARKERS := MISSING_MODEL_MARKERS + MISSING_ROUTE_MARKERS

  const PRICE_MARKERS := ["model_price_error", "has no configured price"]

  predicate OccursAt(s: string, m: string, i: int) {
    0 <= i <= |s| - |m| && s[i..i + |m|] == m
  }

  predicate Contains(s: string, m: string) {
    exists i | 0 <= i <= |s| - |m| :: OccursAt(s, m, i)
  }

  predicate ContainsAny(s: string, markers: seq<string>) {
    exists k | 0 <= k < |markers| :: Contains(s, markers[k])
  }

  predicate IsSpace(c: char) {
    c == ' ' || 0x09 <= c as int <= 0x0d
  }

  // The message without surrounding white space.
  function Trim(s: string): (t: string)
    ensures t != [] ==> !IsSpace(t[0]) && !IsSpace(t[|t| - 1])
  {
    if s == [] then s
    else if IsSpace(s[0]) then Trim(s[1..])
    else if IsSpace(s[|s| - 1]) then Trim(s[..|s| - 1])
    else s
  }

  // A name as messages quote it: in double quotes, with quotes, backslashes and control characters escaped.
  function EscapedChar(c: char): string {
    match c as int
    case 0x07 => "\\a"
    case 0x08 => "\\b"
    case 0x09 => "\\t"
    case 0x0a => "\\n"
    case 0x0b => "\\v"
    case 0x0c => "\\f"
    case 0x0d => "\\r"
    case 0x22 => "\\\""
    case 0x5c => "\\\\"
    case code =>
      if code < 0x20 || code == 0x7f then ['\\', 'x', "0123456789abcdef"[code / 16], "0123456789abcdef"[code % 16]]
      else [c]
  }

  function Escaped(s: string): string {
    if s == "" then "" else EscapedChar(s[0]) + Escaped(s[1..])
  }

  function Quoted(s: string): string {
    "\"" + Escaped(s) + "\""
  }

  predicate NeedsEscape(c: char) {
    c as int < 0x20 || c as int == 0x7f || c == '"' || c == '\\'
  }

  lemma {:induction false} PlainNamesAreQuotedAsTheyAre(s: string)
    requires forall i | 0 <= i < |s| :: !NeedsEscape(s[i])
    ensures Escaped(s) == s
  {
    if s != "" { PlainNamesAreQuotedAsTheyAre(s[1..]); }
  }

  // The bare refusal the host reports for a response that an interceptor plugin terminated.
  predicate PluginRefusal(m: string) {
    var text := "model execution failed with status ";
    text <= Trim(m) && AllDigits(Trim(m)[|text|..])
  }

  function Classify(status: int, m: string): Kind {
    if ContainsAny(m, PRICE_MARKERS) then NotFound
    else if status == 503 && PluginRefusal(m) then NotFound
    else
      var quota := ContainsAny(m, QUOTA_MARKERS);
      if status == 402 then Quota
      else if status == 429 then (if quota then Quota else RateLimit)
      else if status == 401 then Auth
      else if status == 403 then (if quota then Quota else Auth)
      else if status == 404 then NotFound
      else if status == 408 || status >= 500 then (if quota then Quota else Server)
      else if status >= 400 then
        (if quota then Quota else if ContainsAny(m, NOT_FOUND_MARKERS) then NotFound else Client)
      else if quota then Quota
      else if ContainsAny(m, RATE_MARKERS) then RateLimit
      else if ContainsAny(m, NOT_FOUND_MARKERS) then NotFound
      else if ContainsAny(m, AUTH_MARKERS) then Auth
      else Server
  }

  // Whether a failure of this kind moves a group on to its next member.
  predicate Failover(kind: Kind, onClientError: bool) {
    kind == Client ==> onClientError
  }

  function StatusForKind(kind: Kind): int {
    match kind
    case Quota | RateLimit => 429
    case Auth => 403
    case NotFound => 404
    case Client => 400
    case Server | ModelMismatch => 502
  }

  // The status a client sees: an error that carried none gets one for its kind.
  function VisibleStatus(status: int, kind: Kind): int {
    if status == 0 then StatusForKind(kind) else status
  }

  // The statuses on which the message decides whether the request itself is at fault.
  predicate MessageDecides(status: int) {
    400 <= status < 500 && status !in {401, 402, 403, 404, 408, 429}
  }

  // The text that turns such a status into a reason to try another member.
  predicate Excuses(m: string) {
    ContainsAny(m, PRICE_MARKERS) || ContainsAny(m, QUOTA_MARKERS) || ContainsAny(m, NOT_FOUND_MARKERS)
  }

  lemma ClientErrorIff(status: int, m: string)
    ensures Classify(status, m) == Client <==> MessageDecides(status) && !Excuses(m)
  {
  }

  // What overrides every status: the price refusal, in its own words or as the host reports it.
  predicate Unpriced(status: int, m: string) {
    ContainsAny(m, PRICE_MARKERS) || (status == 503 && PluginRefusal(m))
  }

  // What each kind says about the error, for every status and every message.
  lemma KindsIff(status: int, m: string)
    ensures var quota, rate, missing, auth :=
              ContainsAny(m, QUOTA_MARKERS), ContainsAny(m, RATE_MARKERS), ContainsAny(m, NOT_FOUND_MARKERS), ContainsAny(m, AUTH_MARKERS);
            var kind, priced := Classify(status, m), !Unpriced(status, m);
            && (kind == Quota <==> priced && (status == 402 || (quota && status != 401 && status != 404)))
            && (kind == RateLimit <==> priced && !quota && (status == 429 || (status < 400 && rate)))
            && (kind == Auth <==> priced && (status == 401 || (!quota && (status == 403 || (status < 400 && !rate && !missing && auth)))))
            && (kind == NotFound <==>
                  !priced || status == 404
                  || (!quota && missing && ((status < 400 && !rate) || (400 <= status < 500 && status !in {401, 402, 403, 408, 429}))))
            && (kind == Server <==>
                  priced && !quota && (status == 408 || status >= 500 || (status < 400 && !rate && !missing && !auth)))
            && (kind == Client <==> priced && !quota && !missing && 400 <= status < 500 && status !in {401, 402, 403, 404, 408, 429})
            && kind != ModelMismatch
  {
    hide PluginRefusal, ContainsAny;
  }

  // The wordings that the documentation names do count.
  lemma DocumentedWordings(m: string)
    ensures Contains(m, "quota") || Contains(m, "insufficient_quota") || Contains(m, "usage limit") ==> ContainsAny(m, QUOTA_MARKERS)
    ensures Contains(m, "billing") || Contains(m, "额度") || Contains(m, "余额") ==> ContainsAny(m, QUOTA_MARKERS)
    ensures Contains(m, "rate limit") || Contains(m, "too many requests") || Contains(m, "429") || Contains(m, "限流") ==> ContainsAny(m, RATE_MARKERS)
    ensures Contains(m, "unauthorized") || Contains(m, "invalid api key") || Contains(m, "401") || Contains(m, "403") ==> ContainsAny(m, AUTH_MARKERS)
    ensures Contains(m, "model_not_found") || Contains(m, "does not exist") ==> ContainsAny(m, NOT_FOUND_MARKERS)
    ensures Contains(m, "no auth available") || Contains(m, "模型不存在") ==> ContainsAny(m, NOT_FOUND_MARKERS)
    ensures Contains(m, "model_price_error") || Contains(m, "has no configured price") ==> ContainsAny(m, PRICE_MARKERS)
  {
    hide Contains;
    assert QUOTA_MARKERS[2] == "quota" && QUOTA_MARKERS[0] == "insufficient_quota" && QUOTA_MARKERS[3] == "usage limit";
    assert QUOTA_MARKERS[6] == "billing" && QUOTA_MARKERS[20] == "额度" && QUOTA_MARKERS[21] == "余额";
    assert RATE_MARKERS[0] == "rate limit" && RATE_MARKERS[3] == "too many requests" && RATE_MARKERS[4] == "429" && RATE_MARKERS[8] == "限流";
    assert AUTH_MARKERS[0] == "unauthorized" && AUTH_MARKERS[1] == "invalid api key" && AUTH_MARKERS[6] == "401" && AUTH_MARKERS[7] == "403";
    assert NOT_FOUND_MARKERS[0] == "model_not_found" && NOT_FOUND_MARKERS[2] == "does not exist";
    assert NOT_FOUND_MARKERS[9] == "no auth available" && NOT_FOUND_MARKERS[12] == "模型不存在";
    assert PRICE_MARKERS[0] == "model_price_error" && PRICE_MARKERS[1] == "has no configured price";
  }

  // The client sees the error's own status, or without one the status that says why; never the blame of a 400.
  lemma VisibleStatusIff(status: int, m: string)
    ensures status != 0 ==> VisibleStatus(status, Classify(status, m)) == status
    ensures var visible, kind := VisibleStatus(0, Classify(0, m)), Classify(0, m);
            && visible in {429, 403, 404, 502}
            && (visible == 429 <==> kind == Quota || kind == RateLimit) && (visible == 403 <==> kind == Auth)
            && (visible == 404 <==> kind == NotFound) && (visible == 502 <==> kind == Server)
  {
    hide PluginRefusal, ContainsAny;
    KindsIff(0, m);
  }

  predicate White(s: string) {
    forall i | 0 <= i < |s| :: IsSpace(s[i])
  }

  lemma SpaceInFront(c: char, a: string, t: string, b: string)
    requires IsSpace(c) && White(a)
    ensures White([c] + a) && [c] + (a + t + b) == ([c] + a) + t + b
  {
  }

  lemma SpaceBehind(c: char, a: string, t: string, b: string)
    requires IsSpace(c) && White(b)
    ensures White(b + [c]) && (a + t + b) + [c] == a + t + (b + [c])
  {
  }

  lemma {:induction false} TrimIs(s: string) returns (a: string, b: string)
    ensures White(a) && White(b) && s == a + Trim(s) + b
  {
    hide White, Trim, IsSpace;
    assert White([]) by { NothingIsWhite(); }
    TrimStep(s);
    if s == [] {
      a, b := [], [];
    } else if IsSpace(s[0]) {
      a, b := TrimIs(s[1..]);
      SpaceInFront(s[0], a, Trim(s[1..]), b);
      a := [s[0]] + a;
      assert s == [s[0]] + s[1..];
    } else if IsSpace(s[|s| - 1]) {
      a, b := TrimIs(s[..|s| - 1]);
      SpaceBehind(s[|s| - 1], a, Trim(s[..|s| - 1]), b);
      b := b + [s[|s| - 1]];
      assert s == s[..|s| - 1] + [s[|s| - 1]];
    } else {
      a, b := [], [];
      assert s == a + s + b;
    }
  }

  lemma TrimStep(s: string)
    ensures Trim(s) == if s == [] then []
                       else if IsSpace(s[0]) then Trim(s[1..])
                       else if IsSpace(s[|s| - 1]) then Trim(s[..|s| - 1])
                       else s
  {
  }

  lemma NothingIsWhite()
    ensures White([])
  {
  }

  lemma {:induction false} TrimOf(a: string, t: string, b: string)
    requires White(a) && White(b) && t != [] && !IsSpace(t[0]) && !IsSpace(t[|t| - 1])
    ensures Trim(a + t + b) == t
    decreases |a| + |b|
  {
    var s := a + t + b;
    if a != [] {
      assert s[1..] == a[1..] + t + b;
      TrimOf(a[1..], t, b);
    } else if b != [] {
      assert s[..|s| - 1] == a + t + b[..|b| - 1] && s[0] == t[0];
      TrimOf(a, t, b[..|b| - 1]);
    } else {
      assert s == t;
    }
  }

  lemma WhiteTrimsAway(s: string)
    ensures Trim(s) == [] <==> White(s)
  {
    var a, b := TrimIs(s);
    if Trim(s) == [] { assert s == a + b; } else { InkShows(a, Trim(s), b); }
  }

  lemma InkShows(a: string, t: string, b: string)
    requires t != [] && !IsSpace(t[0])
    ensures !White(a + t + b)
  {
    assert (a + t + b)[|a|] == t[0];
  }

  const REFUSAL := "model execution failed with status "

  // The host's bare refusal: the fixed text and digits, nothing else but surrounding white space.
  lemma PluginRefusalIff(m: string)
    ensures PluginRefusal(m) <==> exists a, digits, b :: RefusedAs(m, a, digits, b)
  {
    hide AllDigits, White;
    if PluginRefusal(m) {
      var a, b := TrimIs(m);
      var digits := Trim(m)[|REFUSAL|..];
      assert Trim(m) == REFUSAL + digits;
      assert RefusedAs(m, a, digits, b);
    }
    if a, digits, b :| RefusedAs(m, a, digits, b) {
      RefusalIsTrimmed(digits);
      TrimOf(a, REFUSAL + digits, b);
      assert (REFUSAL + digits)[|REFUSAL|..] == digits;
    }
  }

  predicate RefusedAs(m: string, a: string, digits: string, b: string) {
    White(a) && White(b) && AllDigits(digits) && m == a + (REFUSAL + digits) + b
  }

  lemma RefusalIsTrimmed(digits: string)
    requires AllDigits(digits)
    ensures var t := REFUSAL + digits; t != [] && !IsSpace(t[0]) && !IsSpace(t[|t| - 1])
  {
    assert REFUSAL[0] == 'm';
    assert (REFUSAL + digits)[|REFUSAL + digits| - 1] == digits[|digits| - 1];
  }

  lemma ContainsSurvivesPrefix(p: string, s: string, m: string)
    requires Contains(s, m)
    ensures Contains(p + s, m)
  {
    var i :| 0 <= i <= |s| - |m| && OccursAt(s, m, i);
    assert OccursAt(p + s, m, |p| + i);
  }

  lemma ContainsSurvivesSuffix(p: string, s: string, m: string)
    requires Contains(p, m)
    ensures Contains(p + s, m)
  {
    var i :| 0 <= i <= |p| - |m| && OccursAt(p, m, i);
    assert OccursAt(p + s, m, i);
  }

  // A marker that neither begins with a space nor contains a colon cannot straddle text ending in ": ".
  predicate Unsplittable(m: string) {
    m != "" && m[0] != ' ' && ':' !in m
  }

  lemma NoStraddling(p: string, s: string, m: string)
    requires |p| >= 2 && p[|p| - 2..] == ": " && Unsplittable(m)
    requires Contains(p + s, m)
    ensures Contains(p, m) || Contains(s, m)
  {
    var t := p + s;
    var i :| 0 <= i <= |t| - |m| && OccursAt(t, m, i);
    assert p[|p| - 2..] == [p[|p| - 2], p[|p| - 1]];
    assert t[|p| - 1] == ' ' && t[|p| - 2] == ':';
    assert forall x | i <= x < i + |m| :: t[x] == m[x - i];
    if i + |m| <= |p| {
      assert OccursAt(p, m, i);
    } else if i >= |p| {
      assert OccursAt(s, m, i - |p|);
    }
  }

  lemma AccountMarkersAreUnsplittable()
    ensures forall k | 0 <= k < |ACCOUNT_MARKERS| :: Unsplittable(ACCOUNT_MARKERS[k])
  {
  }

  lemma LimitMarkersAreUnsplittable()
    ensures forall k | 0 <= k < |LIMIT_MARKERS| :: Unsplittable(LIMIT_MARKERS[k])
  {
  }

  lemma PeriodMarkersAreUnsplittable()
    ensures forall k | 0 <= k < |PERIOD_MARKERS| :: Unsplittable(PERIOD_MARKERS[k])
  {
  }

  lemma QuotaMarkersAreUnsplittable()
    ensures forall k | 0 <= k < |QUOTA_MARKERS| :: Unsplittable(QUOTA_MARKERS[k])
  {
    hide Unsplittable, ACCOUNT_MARKERS, LIMIT_MARKERS, PERIOD_MARKERS;
    AccountMarkersAreUnsplittable();
    LimitMarkersAreUnsplittable();
    PeriodMarkersAreUnsplittable();
    forall k | 0 <= k < |QUOTA_MARKERS| ensures Unsplittable(QUOTA_MARKERS[k]) {
      assert QUOTA_MARKERS[k] == if k < |ACCOUNT_MARKERS| then ACCOUNT_MARKERS[k] else if k < |ACCOUNT_MARKERS| + |LIMIT_MARKERS| then LIMIT_MARKERS[k - |ACCOUNT_MARKERS|]
                                  else PERIOD_MARKERS[k - |ACCOUNT_MARKERS| - |LIMIT_MARKERS|];
    }
  }

  lemma MissingModelMarkersAreUnsplittable()
    ensures forall k | 0 <= k < |MISSING_MODEL_MARKERS| :: Unsplittable(MISSING_MODEL_MARKERS[k])
  {
  }

  lemma MissingRouteMarkersAreUnsplittable()
    ensures forall k | 0 <= k < |MISSING_ROUTE_MARKERS| :: Unsplittable(MISSING_ROUTE_MARKERS[k])
  {
  }

  lemma NotFoundMarkersAreUnsplittable()
    ensures forall k | 0 <= k < |NOT_FOUND_MARKERS| :: Unsplittable(NOT_FOUND_MARKERS[k])
  {
    hide Unsplittable, MISSING_MODEL_MARKERS, MISSING_ROUTE_MARKERS;
    MissingModelMarkersAreUnsplittable();
    MissingRouteMarkersAreUnsplittable();
    forall k | 0 <= k < |NOT_FOUND_MARKERS| ensures Unsplittable(NOT_FOUND_MARKERS[k]) {
      assert NOT_FOUND_MARKERS[k] == if k < |MISSING_MODEL_MARKERS| then MISSING_MODEL_MARKERS[k] else MISSING_ROUTE_MARKERS[k - |MISSING_MODEL_MARKERS|];
    }
  }

  lemma PriceMarkersAreUnsplittable()
    ensures forall k | 0 <= k < |PRICE_MARKERS| :: Unsplittable(PRICE_MARKERS[k])
  {
  }

  lemma ContainsAnyAcross(p: string, s: string, markers: seq<string>)
    requires |p| >= 2 && p[|p| - 2..] == ": "
    requires forall k | 0 <= k < |markers| :: Unsplittable(markers[k])
    ensures ContainsAny(p + s, markers) <==> ContainsAny(p, markers) || ContainsAny(s, markers)
  {
    if k :| 0 <= k < |markers| && Contains(p + s, markers[k]) {
      NoStraddling(p, s, markers[k]);
    }
    if k :| 0 <= k < |markers| && Contains(p, markers[k]) {
      ContainsSurvivesSuffix(p, s, markers[k]);
    }
    if k :| 0 <= k < |markers| && Contains(s, markers[k]) {
      ContainsSurvivesPrefix(p, s, markers[k]);
    }
  }

  lemma ExcusesAcross(p: string, s: string)
    requires |p| >= 2 && p[|p| - 2..] == ": "
    ensures Excuses(p + s) <==> Excuses(p) || Excuses(s)
  {
    hide QUOTA_MARKERS, NOT_FOUND_MARKERS, PRICE_MARKERS, Unsplittable;
    QuotaMarkersAreUnsplittable();
    NotFoundMarkersAreUnsplittable();
    PriceMarkersAreUnsplittable();
    ContainsAnyAcross(p, s, PRICE_MARKERS);
    ContainsAnyAcross(p, s, QUOTA_MARKERS);
    ContainsAnyAcross(p, s, NOT_FOUND_MARKERS);
  }

  // A parent group sees a child's failure with status 0 replaced and with the child's text p in front.
  predicate SameDecision(p: string, status: int, m: string, onClientError: bool) {
    var kind := Classify(status, m);
    Failover(Classify(VisibleStatus(status, kind), p + m), onClientError) == Failover(kind, onClientError)
  }

  // The failover decision survives every group level exactly when the text a level adds, which ends in
  // "last error: ", contains no marker itself. A group named after a quota or a credit breaks it.
  lemma DecisionIsStableIff(p: string)
    requires |p| >= 2 && p[|p| - 2..] == ": "
    ensures (forall status: int, m: string, b: bool :: SameDecision(p, status, m, b)) <==> !Excuses(p)
  {
    if Excuses(p) {
      ExcusesAcross(p, "");
      ClientErrorIff(400, "");
      ClientErrorIff(400, p + "");
      NothingExcusesSilence();
      assert !SameDecision(p, 400, "", false);
    } else {
      forall status: int, m: string, b: bool ensures SameDecision(p, status, m, b) {
        ExcusesAcross(p, m);
        ClientErrorIff(status, m);
        ClientErrorIff(VisibleStatus(status, Classify(status, m)), p + m);
      }
    }
  }

  lemma NothingExcusesSilence()
    ensures !Excuses("")
  {
    QuotaMarkersAreUnsplittable();
    NotFoundMarkersAreUnsplittable();
    PriceMarkersAreUnsplittable();
  }
}
