// Model identity: which processing-model name may stand in for an expected one
// (internal/detect/model.go). Names are taken trimmed and lower case.
module Identity {
  import opened Glob

  predicate IsFieldSeparator(c: char) {
    c == '-' || c == '_' || c == '.' || c == ':' || c == '@'
  }

  // A snapshot suffix may not start with '.', which introduces a minor version.
  predicate IsSuffixBoundary(c: char) {
    c == '-' || c == '_' || c == ':' || c == '@'
  }

  predicate IsBoundary(c: char) {
    IsFieldSeparator(c) || c == '/'
  }

  predicate IsSnapshotWord(part: string) {
    part == "latest" || part == "preview" || part == "exp" || part == "experimental"
    || part == "beta" || part == "stable" || part == "release"
  }

  predicate AllDigits(s: string) {
    s != [] && forall i | 0 <= i < |s| :: '0' <= s[i] <= '9'
  }

  method IsDigits(s: string) returns (b: bool)
    ensures b == AllDigits(s)
  {
    if s == "" { return false; }
    for i := 0 to |s|
      invariant forall k | 0 <= k < i :: '0' <= s[k] <= '9'
    {
      if s[i] < '0' || s[i] > '9' { return false; }
    }
    return true;
  }

  // The nonempty runs of non-separators in current + s, where current holds no separator.
  function FieldsFrom(s: string, current: string): (fields: seq<string>)
    ensures current != [] ==> fields != []
  {
    if s == [] then (if current == [] then [] else [current])
    else if IsFieldSeparator(s[0]) then (if current == [] then [] else [current]) + FieldsFrom(s[1..], [])
    else FieldsFrom(s[1..], current + [s[0]])
  }

  function Fields(s: string): seq<string> {
    FieldsFrom(s, [])
  }

  function DigitCount(parts: seq<string>): nat {
    if parts == [] then 0
    else (if IsSnapshotWord(parts[0]) then 0 else |parts[0]|) + DigitCount(parts[1..])
  }

  predicate SnapshotParts(parts: seq<string>) {
    forall i | 0 <= i < |parts| :: IsSnapshotWord(parts[i]) || AllDigits(parts[i])
  }

  // A snapshot suffix: words such as "latest" and digit groups that hold no digit at all or at least three.
  predicate VersionSuffix(suffix: string) {
    var parts := Fields(suffix);
    parts != [] && SnapshotParts(parts) && (DigitCount(parts) == 0 || DigitCount(parts) >= 3)
  }

  lemma {:induction false} DigitCountConcat(a: seq<string>, b: seq<string>)
    ensures DigitCount(a + b) == DigitCount(a) + DigitCount(b)
  {
    if a == [] {
      assert a + b == b;
    } else {
      assert (a + b)[1..] == a[1..] + b;
      DigitCountConcat(a[1..], b);
    }
  }

  method IsVersionSuffix(suffix: string) returns (b: bool)
    ensures b == VersionSuffix(suffix)
  {
    if suffix == "" { return false; }
    var digits := 0;
    var parts := Fields(suffix);
    if |parts| == 0 { return false; }
    for i := 0 to |parts|
      invariant SnapshotParts(parts[..i]) && digits == DigitCount(parts[..i])
    {
      assert parts[..i + 1] == parts[..i] + [parts[i]];
      DigitCountConcat(parts[..i], [parts[i]]);
      if !IsSnapshotWord(parts[i]) {
        var isDigits := IsDigits(parts[i]);
        if !isDigits { return false; }
        digits := digits + |parts[i]|;
      }
    }
    assert parts[..|parts|] == parts;
    return digits == 0 || digits >= 3;
  }

  predicate HasPrefix(s: string, p: string) {
    p <= s
  }

  predicate HasSuffix(s: string, t: string) {
    |t| <= |s| && s[|s| - |t|..] == t
  }

  predicate KnownModel(name: string) {
    HasPrefix(name, "gpt-") || HasPrefix(name, "chatgpt-") || HasPrefix(name, "deepseek-")
    || HasPrefix(name, "glm-") || HasPrefix(name, "claude-") || HasPrefix(name, "gemini-")
    || name == "o1" || name == "o3" || name == "o4"
    || HasPrefix(name, "o1-") || HasPrefix(name, "o3-") || HasPrefix(name, "o4-")
  }

  // The upstream appended a snapshot suffix to the expected ID.
  predicate SnapshotOf(exp: string, act: string) {
    HasPrefix(act, exp) && |exp| < |act| && IsSuffixBoundary(act[|exp|]) && VersionSuffix(act[|exp| + 1..])
  }

  // The host stripped an alias prefix from the expected ID.
  predicate AliasOf(exp: string, act: string) {
    KnownModel(act) && HasSuffix(exp, act) && |act| < |exp| && IsBoundary(exp[|exp| - |act| - 1])
  }

  // The tolerant matcher. Past the equality test both index expressions of the source are in range.
  predicate Matches(expected: string, actual: string) {
    var exp, act := ModelName(expected), ModelName(actual);
    if exp == [] || act == [] then false
    else if exp == act then true
    else if HasPrefix(act, exp) && IsSuffixBoundary(act[|exp|]) && VersionSuffix(act[|exp| + 1..]) then true
    else KnownModel(act) && HasSuffix(exp, act) && IsBoundary(exp[|exp| - |act| - 1])
  }

  lemma {:induction false} FieldsOfJoin(a: string, sep: char, b: string, current: string)
    requires IsFieldSeparator(sep)
    ensures FieldsFrom(a + [sep] + b, current) == FieldsFrom(a, current) + Fields(b)
  {
    var s := a + [sep] + b;
    if a == [] {
      assert s[1..] == b;
    } else {
      assert s[1..] == a[1..] + [sep] + b;
      FieldsOfJoin(a[1..], sep, b, if IsFieldSeparator(a[0]) then [] else current + [a[0]]);
    }
  }

  // Snapshot suffixes are closed under joining with any field separator.
  lemma SnapshotSuffixesJoin(a: string, sep: char, b: string)
    requires VersionSuffix(a) && IsFieldSeparator(sep) && VersionSuffix(b)
    ensures VersionSuffix(a + [sep] + b)
  {
    FieldsOfJoin(a, sep, b, []);
    DigitCountConcat(Fields(a), Fields(b));
  }

  // So a snapshot of a snapshot is a snapshot of the original.
  lemma SnapshotIsTransitive(a: string, b: string, c: string)
    requires SnapshotOf(a, b) && SnapshotOf(b, c)
    ensures SnapshotOf(a, c)
  {
    var u, v := b[|a| + 1..], c[|b| + 1..];
    assert c == b + [c[|b|]] + v && b == a + [b[|a|]] + u;
    assert c[|a|] == b[|a|];
    assert c[|a| + 1..] == u + [c[|b|]] + v;
    SnapshotSuffixesJoin(u, c[|b|], v);
  }

  // For an ID extended by a separator and a suffix, the matcher accepts exactly the snapshot suffixes,
  // under any routing namespace on either side.
  lemma ExtensionAcceptedIff(expected: string, actual: string, sep: char, suffix: string)
    requires ModelName(expected) != [] && ModelName(actual) == ModelName(expected) + [sep] + suffix
    ensures Matches(expected, actual) <==> IsSuffixBoundary(sep) && VersionSuffix(suffix)
  {
    var exp, act := ModelName(expected), ModelName(actual);
    assert act[|exp|] == sep && act[|exp| + 1..] == suffix && exp <= act;
  }

  // A tier or mode suffix: some field is neither a snapshot word nor digits, or only one or two digits appear.
  predicate TierSuffix(suffix: string) {
    var parts := Fields(suffix);
    (exists i | 0 <= i < |parts| :: !IsSnapshotWord(parts[i]) && !AllDigits(parts[i]))
    || 1 <= DigitCount(parts) <= 2
  }

  lemma TierNeverMatchesBase(expected: string, actual: string, sep: char, suffix: string)
    requires ModelName(expected) != [] && ModelName(actual) == ModelName(expected) + [sep] + suffix
    requires TierSuffix(suffix)
    ensures !Matches(expected, actual)
  {
    ExtensionAcceptedIff(expected, actual, sep, suffix);
  }

  // Letters that every recognised family name has and no snapshot suffix can contain.
  predicate FamilyLetter(c: char) {
    c == 'g' || c == 'd' || c == 'o'
  }

  lemma PartLacksFamilyLetters(part: string)
    requires IsSnapshotWord(part) || AllDigits(part)
    ensures forall i | 0 <= i < |part| :: !FamilyLetter(part[i])
  {
  }

  lemma {:induction false} SnapshotPartsLackFamilyLetters(s: string, current: string, i: nat)
    requires SnapshotParts(FieldsFrom(s, current))
    requires i < |current + s|
    ensures !FamilyLetter((current + s)[i])
  {
    hide IsSnapshotWord, AllDigits, FamilyLetter;
    var fields := FieldsFrom(s, current);
    if s == [] {
      assert current + s == current == fields[0];
      PartLacksFamilyLetters(fields[0]);
    } else if IsFieldSeparator(s[0]) {
      if i < |current| {
        assert fields[0] == current && (current + s)[i] == current[i];
        PartLacksFamilyLetters(fields[0]);
      } else if i > |current| {
        var rest := FieldsFrom(s[1..], []);
        assert fields == (if current == [] then [] else [current]) + rest;
        forall k | 0 <= k < |rest| ensures IsSnapshotWord(rest[k]) || AllDigits(rest[k]) {
          assert rest[k] == fields[k + if current == [] then 0 else 1];
        }
        SnapshotPartsLackFamilyLetters(s[1..], [], i - |current| - 1);
        assert [] + s[1..] == s[1..];
      } else {
        SeparatorsAreNoFamilyLetters(s[0]);
      }
    } else {
      SnapshotPartsLackFamilyLetters(s[1..], current + [s[0]], i);
      assert current + s == current + [s[0]] + s[1..];
    }
  }

  lemma SeparatorsAreNoFamilyLetters(c: char)
    requires IsFieldSeparator(c)
    ensures !FamilyLetter(c)
  {
  }

  lemma KnownModelHasFamilyLetter(name: string) returns (i: nat)
    requires KnownModel(name)
    ensures i < |name| && FamilyLetter(name[i])
  {
    if HasPrefix(name, "chatgpt-") {
      assert name[4] == "chatgpt-"[4];
      i := 4;
    } else if HasPrefix(name, "claude-") {
      assert name[4] == "claude-"[4];
      i := 4;
    } else {
      i := 0;
    }
  }

  // No ID is both a snapshot of another and an alias prefix of the same one.
  lemma SnapshotIsNotAlias(a: string, b: string)
    requires SnapshotOf(a, b)
    ensures !AliasOf(b, a)
  {
    if AliasOf(b, a) {
      var k := FamilyLetterPastTheBase(a, b);
      SnapshotTailLacksFamilyLetters(a, b, k);
    }
  }

  // An ID that begins and ends with a recognised name, and is longer, has a family letter past the first one:
  // each family letter of the name recurs one length difference further right.
  lemma FamilyLetterPastTheBase(a: string, b: string) returns (k: nat)
    requires KnownModel(a) && HasPrefix(b, a) && HasSuffix(b, a) && |a| < |b|
    ensures |a| <= k < |b| && FamilyLetter(b[k])
  {
    var shift := |b| - |a|;
    var i := KnownModelHasFamilyLetter(a);
    while i + shift < |a|
      invariant i < |a| && FamilyLetter(a[i])
    {
      RecursFurtherRight(a, b, i);
      i := i + shift;
    }
    RecursFurtherRight(a, b, i);
    k := i + shift;
  }

  lemma RecursFurtherRight(a: string, b: string, i: nat)
    requires HasPrefix(b, a) && HasSuffix(b, a) && i < |a|
    ensures b[i + |b| - |a|] == a[i] && (i + |b| - |a| < |a| ==> a[i + |b| - |a|] == a[i])
  {
    assert b[|b| - |a|..][i] == b[i + |b| - |a|];
  }

  lemma SnapshotTailLacksFamilyLetters(a: string, b: string, k: nat)
    requires SnapshotOf(a, b) && |a| <= k < |b|
    ensures !FamilyLetter(b[k])
  {
    var v := b[|a| + 1..];
    assert [] + v == v;
    if k > |a| {
      assert v[k - |a| - 1] == b[k];
      SnapshotPartsLackFamilyLetters(v, [], k - |a| - 1);
    }
  }

  // Accepting in both directions means the IDs are the same: tolerance never makes two IDs interchangeable.
  lemma MutualMatchIsEquality(x: string, y: string)
    requires Matches(x, y) && Matches(y, x)
    ensures ModelName(x) == ModelName(y)
  {
    var a, b := ModelName(x), ModelName(y);
    if SnapshotOf(a, b) { SnapshotIsNotAlias(a, b); }
    if SnapshotOf(b, a) { SnapshotIsNotAlias(b, a); }
  }

  // ---- exactly what is accepted ----

  // The model families that an alias may be stripped down to.
  const FAMILIES := ["gpt-", "chatgpt-", "deepseek-", "glm-", "claude-", "gemini-", "o1-", "o3-", "o4-"]

  predicate OfFamily(id: string) {
    id == "o1" || id == "o3" || id == "o4" || exists k | 0 <= k < |FAMILIES| :: FAMILIES[k] <= id
  }

  lemma FamiliesAreKnown(id: string)
    ensures OfFamily(id) <==> KnownModel(id)
  {
    assert |FAMILIES| == 9;
    if HasPrefix(id, "gpt-") { assert FAMILIES[0] <= id; }
    if HasPrefix(id, "chatgpt-") { assert FAMILIES[1] <= id; }
    if HasPrefix(id, "deepseek-") { assert FAMILIES[2] <= id; }
    if HasPrefix(id, "glm-") { assert FAMILIES[3] <= id; }
    if HasPrefix(id, "claude-") { assert FAMILIES[4] <= id; }
    if HasPrefix(id, "gemini-") { assert FAMILIES[5] <= id; }
    if HasPrefix(id, "o1-") { assert FAMILIES[6] <= id; }
    if HasPrefix(id, "o3-") { assert FAMILIES[7] <= id; }
    if HasPrefix(id, "o4-") { assert FAMILIES[8] <= id; }
  }

  // An ID stripped of an alias prefix is accepted exactly when a boundary stood before it and it belongs to a
  // model family, under any routing namespace on either side.
  lemma AliasAcceptedIff(expected: string, actual: string, prefix: string, sep: char)
    requires ModelName(expected) == prefix + [sep] + ModelName(actual)
    ensures Matches(expected, actual) <==> sep in {'-', '_', '.', '/', ':', '@'} && OfFamily(ModelName(actual))
  {
    hide OfFamily, FAMILIES, VersionSuffix, ModelName, KnownModel;
    var exp, act := ModelName(expected), ModelName(actual);
    FamiliesAreKnown(act);
    assert exp[|exp| - |act|..] == act && exp[|exp| - |act| - 1] == sep && |act| < |exp|;
    if act == [] { NothingIsKnown(); }
  }

  lemma NothingIsKnown()
    ensures !KnownModel([])
  {
  }

  predicate SnapshotBy(exp: string, act: string, sep: char, suffix: string) {
    act == exp + [sep] + suffix && sep in {'-', '_', ':', '@'} && VersionSuffix(suffix)
  }

  predicate AliasBy(exp: string, act: string, prefix: string, sep: char) {
    exp == prefix + [sep] + act && sep in {'-', '_', '.', '/', ':', '@'} && OfFamily(act)
  }

  // Two names are accepted for each other exactly when their IDs are equal, the served one is a snapshot of the
  // expected one, or the expected one an alias of it.
  lemma MatchesIff(expected: string, actual: string)
    ensures var exp, act := ModelName(expected), ModelName(actual);
            Matches(expected, actual)
            <==> exp != [] && act != []
                 && (exp == act || (exists sep, suffix :: SnapshotBy(exp, act, sep, suffix))
                     || exists prefix, sep :: AliasBy(exp, act, prefix, sep))
  {
    hide OfFamily, VersionSuffix, ModelName, KnownModel;
    var exp, act := ModelName(expected), ModelName(actual);
    if exp != [] && act != [] && exp != act {
      if sep, suffix :| SnapshotBy(exp, act, sep, suffix) { ExtensionAcceptedIff(expected, actual, sep, suffix); }
      if prefix, sep :| AliasBy(exp, act, prefix, sep) { AliasAcceptedIff(expected, actual, prefix, sep); }
      if Matches(expected, actual) { AcceptedByOneRule(exp, act, expected, actual); }
    }
  }

  lemma AcceptedByOneRule(exp: string, act: string, expected: string, actual: string)
    requires exp == ModelName(expected) && act == ModelName(actual) && Matches(expected, actual) && exp != act
    ensures (exists sep, suffix :: SnapshotBy(exp, act, sep, suffix)) || exists prefix, sep :: AliasBy(exp, act, prefix, sep)
  {
    hide OfFamily, VersionSuffix, ModelName, KnownModel;
    FamiliesAreKnown(act);
    if HasPrefix(act, exp) && IsSuffixBoundary(act[|exp|]) && VersionSuffix(act[|exp| + 1..]) {
      assert act == exp + [act[|exp|]] + act[|exp| + 1..];
      assert SnapshotBy(exp, act, act[|exp|], act[|exp| + 1..]);
    } else {
      var k := |exp| - |act| - 1;
      assert exp == exp[..k] + [exp[k]] + exp[k + 1..] && exp[k + 1..] == act;
      assert AliasBy(exp, act, exp[..k], exp[k]);
    }
  }

  // How many digits a suffix has in all.
  function DigitChars(s: string): nat {
    if s == [] then 0 else (if '0' <= s[0] <= '9' then 1 else 0) + DigitChars(s[1..])
  }

  lemma {:induction false} DigitCharsConcat(a: string, b: string)
    ensures DigitChars(a + b) == DigitChars(a) + DigitChars(b)
  {
    if a == [] {
      assert a + b == b;
    } else {
      assert (a + b)[1..] == a[1..] + b;
      DigitCharsConcat(a[1..], b);
    }
  }

  // The words and runs of digits that may stand in a snapshot suffix.
  const WORDS := ["latest", "preview", "exp", "experimental", "beta", "stable", "release"]

  predicate SnapshotField(field: string) {
    (exists k | 0 <= k < |WORDS| :: field == WORDS[k])
    || (field != [] && forall i | 0 <= i < |field| :: '0' <= field[i] <= '9')
  }

  lemma FieldKinds(field: string)
    ensures SnapshotField(field) <==> IsSnapshotWord(field) || AllDigits(field)
  {
    assert |WORDS| == 7;
    if IsSnapshotWord(field) {
      assert field == WORDS[0] || field == WORDS[1] || field == WORDS[2] || field == WORDS[3] || field == WORDS[4]
             || field == WORDS[5] || field == WORDS[6];
    }
  }

  lemma {:induction false} AllDigitsCount(s: string)
    requires forall i | 0 <= i < |s| :: '0' <= s[i] <= '9'
    ensures DigitChars(s) == |s|
  {
    if s != [] { AllDigitsCount(s[1..]); }
  }

  lemma {:induction false} NoDigitsCount(s: string)
    requires forall i | 0 <= i < |s| :: !('0' <= s[i] <= '9')
    ensures DigitChars(s) == 0
  {
    if s != [] { NoDigitsCount(s[1..]); }
  }

  lemma FieldDigits(field: string)
    requires IsSnapshotWord(field) || AllDigits(field)
    ensures DigitChars(field) == if IsSnapshotWord(field) then 0 else |field|
  {
    hide IsSnapshotWord;
    if IsSnapshotWord(field) {
      WordsHaveNoDigits(field);
      NoDigitsCount(field);
    } else {
      AllDigitsCount(field);
    }
  }

  lemma WordsHaveNoDigits(field: string)
    requires IsSnapshotWord(field)
    ensures forall i | 0 <= i < |field| :: !('0' <= field[i] <= '9')
  {
  }

  // With none but snapshot fields, the digits counted are all the digits there are.
  lemma {:induction false} DigitsAreCounted(s: string, current: string)
    requires SnapshotParts(FieldsFrom(s, current)) && forall i | 0 <= i < |current| :: !IsFieldSeparator(current[i])
    ensures DigitCount(FieldsFrom(s, current)) == DigitChars(current + s)
  {
    hide IsSnapshotWord;
    var fields := FieldsFrom(s, current);
    if s == [] {
      assert current + s == current;
      if current != [] {
        assert fields == [current] && fields[0] == current && fields[1..] == [];
        FieldDigits(current);
      }
    } else if IsFieldSeparator(s[0]) {
      var rest := FieldsFrom(s[1..], []);
      assert current + s == current + [s[0]] + s[1..] && [] + s[1..] == s[1..];
      DigitCharsConcat(current + [s[0]], s[1..]);
      DigitCharsConcat(current, [s[0]]);
      if current == [] {
        assert fields == rest;
        DigitsAreCounted(s[1..], []);
      } else {
        assert fields == [current] + rest && fields[0] == current && fields[1..] == rest;
        assert forall k | 0 <= k < |rest| :: rest[k] == fields[k + 1];
        FieldDigits(current);
        DigitsAreCounted(s[1..], []);
      }
    } else {
      assert current + [s[0]] + s[1..] == current + s;
      DigitsAreCounted(s[1..], current + [s[0]]);
    }
  }

  // A suffix names a snapshot exactly when its fields are words of the list or runs of digits, and it has no
  // digit at all or at least three.
  lemma VersionSuffixIff(s: string)
    ensures VersionSuffix(s)
            <==> Fields(s) != [] && (forall k | 0 <= k < |Fields(s)| :: SnapshotField(Fields(s)[k]))
                 && (DigitChars(s) == 0 || DigitChars(s) >= 3)
  {
    hide IsSnapshotWord, SnapshotField, AllDigits;
    forall k | 0 <= k < |Fields(s)| { FieldKinds(Fields(s)[k]); }
    if SnapshotParts(Fields(s)) {
      assert [] + s == s;
      DigitsAreCounted(s, []);
    }
  }

  // The fields are the pieces between separators.
  lemma {:induction false} FieldsArePieces(piece: string, current: string)
    requires forall i | 0 <= i < |piece| :: piece[i] !in {'-', '_', '.', ':', '@'}
    ensures FieldsFrom(piece, current) == if current + piece == [] then [] else [current + piece]
  {
    if piece == [] {
      assert current + piece == current;
    } else {
      assert current + [piece[0]] + piece[1..] == current + piece;
      FieldsArePieces(piece[1..], current + [piece[0]]);
    }
  }

  datatype Expectation = Expectation(accept: seq<string>, deny: seq<string>, default: string, rejectMissing: bool)

  datatype Verdict = Accepted | Mismatch | Unknown

  ghost predicate Denied(e: Expectation, actual: string) {
    exists i | 0 <= i < |e.deny| :: ModelScan(e.deny[i], actual)
  }

  function Accepts(e: Expectation): seq<string> {
    if e.accept == [] then [e.default] else e.accept
  }

  ghost predicate AcceptedBy(pattern: string, actual: string) {
    if HasWildcard(pattern) then ModelScan(pattern, actual) else Matches(pattern, actual)
  }

  // What a reported processing model is worth; an empty name means none was reported.
  ghost function VerdictOn(e: Expectation, actual: string): Verdict {
    if actual == "" then (if e.rejectMissing then Mismatch else Unknown)
    else if Denied(e, actual) then Mismatch
    else if exists i | 0 <= i < |Accepts(e)| :: AcceptedBy(Accepts(e)[i], actual) then Accepted
    else Mismatch
  }

  method Check(e: Expectation, actual: string) returns (v: Verdict)
    ensures v == VerdictOn(e, actual)
  {
    if actual == "" {
      return if e.rejectMissing then Mismatch else Unknown;
    }
    for i := 0 to |e.deny|
      invariant forall k | 0 <= k < i :: !ModelScan(e.deny[k], actual)
    {
      var hit := ModelMatch(e.deny[i], actual);
      if hit { return Mismatch; }
    }
    var accept := if |e.accept| == 0 then [e.default] else e.accept;
    for i := 0 to |accept|
      invariant forall k | 0 <= k < i :: !AcceptedBy(accept[k], actual)
    {
      if HasWildcard(accept[i]) {
        var hit := ModelMatch(accept[i], actual);
        if hit {
          assert AcceptedBy(Accepts(e)[i], actual);
          return Accepted;
        }
        continue;
      }
      if Matches(accept[i], actual) {
        assert AcceptedBy(Accepts(e)[i], actual);
        return Accepted;
      }
    }
    return Mismatch;
  }

  // A default expectation (a guarded leaf with no lists) admits what the leaf's own name does.
  lemma DefaultExpectationVerdict(model: string, actual: string, rejectMissing: bool)
    requires actual != ""
    ensures VerdictOn(Expectation([], [], model, rejectMissing), actual) == Accepted
            <==> if HasWildcard(model) then ModelScan(model, actual) else Matches(model, actual)
  {
    var e := Expectation([], [], model, rejectMissing);
    assert Accepts(e)[0] == model;
  }

  // And never a tier of the leaf's model, under any routing namespaces.
  lemma DefaultExpectationRejectsTiers(model: string, actual: string, sep: char, suffix: string, rejectMissing: bool)
    requires !HasWildcard(model) && ModelName(model) != [] && ModelName(actual) == ModelName(model) + [sep] + suffix
    requires TierSuffix(suffix)
    ensures VerdictOn(Expectation([], [], model, rejectMissing), actual) == Mismatch
  {
    assert actual != "";
    DefaultExpectationVerdict(model, actual, rejectMissing);
    TierNeverMatchesBase(model, actual, sep, suffix);
  }
}
