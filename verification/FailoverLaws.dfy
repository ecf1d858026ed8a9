// Whether the failover decision on an upstream error survives the way up through nested groups, each of
// which puts its own text in front of the message and is judged again by the group above.
module FailoverLaws {
  import opened Config
  import opened Errors
  import opened Planning
  import opened Transport
  import opened Routing

  // ---- where a marker can hide ----

  // A marker without the character c cannot run across it.
  lemma NotAcross(p: string, c: char, s: string, m: string)
    requires c !in m && m != ""
    ensures Contains(p + [c] + s, m) <==> Contains(p, m) || Contains(s, m)
  {
    var t := p + [c] + s;
    if i :| 0 <= i <= |t| - |m| && OccursAt(t, m, i) {
      assert forall x | i <= x < i + |m| :: t[x] == m[x - i];
      assert t[|p|] == c;
      if i + |m| <= |p| {
        assert OccursAt(p, m, i);
      } else if i > |p| {
        assert OccursAt(s, m, i - |p| - 1);
      }
    }
    if Contains(p, m) {
      assert t == p + ([c] + s);
      ContainsSurvivesSuffix(p, [c] + s, m);
    }
    if Contains(s, m) { ContainsSurvivesPrefix(p + [c], s, m); }
  }

  // How the decisive markers begin.
  predicate IsStart(a: char, b: char) {
    || (a == 'i' && b == 'n') || (a == 'q' && b == 'u') || (a == 'u' && (b == 's' || b == 'n')) || (a == 'b' && (b == 'i' || b == 'a'))
    || (a == 'c' && b == 'r') || (a == 'e' && b == 'x') || (a == 'l' && b == 'i') || (a == 'r' && b == 'e')
    || (a == 'p' && (b == 'a' || b == 'l')) || (a == 'o' && b == 'u') || (a == 't' && b == 'o') || (a == 'd' && (b == 'a' || b == 'o'))
    || (a == 'm' && b == 'o') || (a == 'w' && b == 'e') || (a == 'n' && b == 'o') || (a == 'a' && b == 'u') || (a == 'h' && b == 'a')
    || a as int >= 0x80
  }

  predicate Decisive(m: string) {
    |m| >= 2 && IsStart(m[0], m[1]) && '"' !in m
  }

  lemma AccountMarkersAreDecisive()
    ensures forall k | 0 <= k < |ACCOUNT_MARKERS| :: Decisive(ACCOUNT_MARKERS[k])
  {
  }

  lemma LimitMarkersAreDecisive()
    ensures forall k | 0 <= k < |LIMIT_MARKERS| :: Decisive(LIMIT_MARKERS[k])
  {
  }

  lemma PeriodMarkersAreDecisive()
    ensures forall k | 0 <= k < |PERIOD_MARKERS| :: Decisive(PERIOD_MARKERS[k])
  {
  }

  lemma QuotaMarkersAreDecisive()
    ensures forall k | 0 <= k < |QUOTA_MARKERS| :: Decisive(QUOTA_MARKERS[k])
  {
    hide Decisive, ACCOUNT_MARKERS, LIMIT_MARKERS, PERIOD_MARKERS;
    AccountMarkersAreDecisive();
    LimitMarkersAreDecisive();
    PeriodMarkersAreDecisive();
    forall k | 0 <= k < |QUOTA_MARKERS| ensures Decisive(QUOTA_MARKERS[k]) {
      assert QUOTA_MARKERS[k] == if k < |ACCOUNT_MARKERS| then ACCOUNT_MARKERS[k] else if k < |ACCOUNT_MARKERS| + |LIMIT_MARKERS| then LIMIT_MARKERS[k - |ACCOUNT_MARKERS|]
                                  else PERIOD_MARKERS[k - |ACCOUNT_MARKERS| - |LIMIT_MARKERS|];
    }
  }

  lemma MissingModelMarkersAreDecisive()
    ensures forall k | 0 <= k < |MISSING_MODEL_MARKERS| :: Decisive(MISSING_MODEL_MARKERS[k])
  {
  }

  lemma MissingRouteMarkersAreDecisive()
    ensures forall k | 0 <= k < |MISSING_ROUTE_MARKERS| :: Decisive(MISSING_ROUTE_MARKERS[k])
  {
  }

  lemma NotFoundMarkersAreDecisive()
    ensures forall k | 0 <= k < |NOT_FOUND_MARKERS| :: Decisive(NOT_FOUND_MARKERS[k])
  {
    hide Decisive, MISSING_MODEL_MARKERS, MISSING_ROUTE_MARKERS;
    MissingModelMarkersAreDecisive();
    MissingRouteMarkersAreDecisive();
    forall k | 0 <= k < |NOT_FOUND_MARKERS| ensures Decisive(NOT_FOUND_MARKERS[k]) {
      assert NOT_FOUND_MARKERS[k] == if k < |MISSING_MODEL_MARKERS| then MISSING_MODEL_MARKERS[k] else MISSING_ROUTE_MARKERS[k - |MISSING_MODEL_MARKERS|];
    }
  }

  lemma PriceMarkersAreDecisive()
    ensures forall k | 0 <= k < |PRICE_MARKERS| :: Decisive(PRICE_MARKERS[k])
  {
  }

  // Text in which no marker can begin.
  predicate Harmless(s: string) {
    forall i | 0 <= i < |s| - 1 :: !IsStart(s[i], s[i + 1])
  }

  lemma HarmlessHoldsNone(s: string, m: string)
    requires Harmless(s) && Decisive(m)
    ensures !Contains(s, m)
  {
    hide IsStart;
    if i :| 0 <= i <= |s| - |m| && OccursAt(s, m, i) {
      assert m[0] == s[i] && m[1] == s[i + 1];
    }
  }

  lemma {:induction false} DigitsAreHarmless(n: nat)
    ensures Harmless(Decimal(n)) && Decimal(n) != "" && forall c | c in Decimal(n) :: '0' <= c <= '9'
  {
    if n >= 10 { DigitsAreHarmless(n / 10); }
  }

  // No marker begins with a blank, a digit or punctuation, or with 'e' and 'g' or 't' and '('.
  lemma BlanksAndDigitsStartNothing(a: char, b: char)
    requires a == ' ' || '0' <= a <= '9' || (a == 'e' && b == 'g') || (a == 't' && b == '(')
    ensures !IsStart(a, b)
  {
  }

  lemma HarmlessJoin(a: string, b: string)
    requires Harmless(a) && Harmless(b) && a != "" && b != "" && !IsStart(a[|a| - 1], b[0])
    ensures Harmless(a + b)
  {
    hide IsStart;
    var s := a + b;
    forall i | 0 <= i < |s| - 1 ensures !IsStart(s[i], s[i + 1]) {
      if i >= |a| { assert !IsStart(b[i - |a|], b[i - |a| + 1]); }
    }
  }

  // Words that each end in a blank can be put one after the other.
  lemma JoinWords(a: string, b: string)
    requires Harmless(a) && Harmless(b) && a != "" && b != ""
    requires a[|a| - 1] == ' ' || (a[|a| - 1] == 'e' && b[0] == 'g') || (a[|a| - 1] == 't' && b[0] == '(')
    ensures Harmless(a + b)
  {
    hide Harmless, IsStart;
    BlanksAndDigitsStartNothing(a[|a| - 1], b[0]);
    HarmlessJoin(a, b);
  }

  lemma WordsOrange()
    ensures Harmless("orange")
  {
  }

  lemma WordsGuardAll()
    ensures Harmless("guard: ") && Harmless("all ")
  {
  }

  lemma HalvesOfMembers()
    ensures Harmless("memb") && Harmless("ers ") && !IsStart('b', 'e')
  {
  }

  lemma WordsMembers()
    ensures Harmless("members ")
  {
    hide Harmless, IsStart;
    HalvesOfMembers();
    HarmlessJoin("memb", "ers ");
    assert "memb" + "ers " == "members ";
  }

  lemma WordsOfFailed()
    ensures Harmless("of ") && Harmless(" failed ")
  {
  }

  lemma WordsAfterAttempt()
    ensures Harmless("after ") && Harmless(" attempt")
  {
  }

  lemma WordsPluralLast()
    ensures Harmless("(s); ") && Harmless("last ")
  {
  }

  lemma WordsError()
    ensures Harmless("error: ")
  {
  }

  lemma FixedText()
    ensures LEAD == "orange" + ("guard: " + ("all " + ("members " + "of ")))
    ensures MIDDLE == " failed " + "after "
    ensures TAIL == " attempt" + ("(s); " + ("last " + "error: "))
    ensures |TAIL| > 2 && TAIL[|TAIL| - 2..] == ": "
  {
  }

  lemma LeadIsHarmless()
    ensures Harmless(LEAD)
  {
    hide Harmless, IsStart, LEAD, MIDDLE, TAIL;
    FixedText();
    WordsOrange();
    WordsGuardAll();
    WordsMembers();
    WordsOfFailed();
    JoinWords("members ", "of ");
    JoinWords("all ", "members " + "of ");
    JoinWords("guard: ", "all " + ("members " + "of "));
    JoinWords("orange", "guard: " + ("all " + ("members " + "of ")));
  }

  lemma MiddleIsHarmless()
    ensures Harmless(MIDDLE) && MIDDLE != "" && MIDDLE[|MIDDLE| - 1] == ' '
  {
    hide Harmless, IsStart, LEAD, MIDDLE, TAIL;
    FixedText();
    WordsOfFailed();
    WordsAfterAttempt();
    JoinWords(" failed ", "after ");
  }

  lemma TailIsHarmless()
    ensures Harmless(TAIL) && TAIL != ""
  {
    hide Harmless, IsStart, LEAD, MIDDLE, TAIL;
    FixedText();
    WordsAfterAttempt();
    WordsPluralLast();
    WordsError();
    JoinWords("last ", "error: ");
    JoinWords("(s); ", "last " + "error: ");
    JoinWords(" attempt", "(s); " + ("last " + "error: "));
  }

  lemma FixedTextIsHarmless(n: nat)
    ensures Harmless(LEAD) && Harmless(MIDDLE + Decimal(n) + TAIL)
  {
    hide Harmless, IsStart, LEAD, MIDDLE, TAIL, Decimal;
    LeadIsHarmless();
    MiddleIsHarmless();
    TailIsHarmless();
    DigitsAreHarmless(n);
    var d := Decimal(n);
    BlanksAndDigitsStartNothing(' ', d[0]);
    HarmlessJoin(MIDDLE, d);
    assert d[|d| - 1] in d;
    BlanksAndDigitsStartNothing(d[|d| - 1], TAIL[0]);
    HarmlessJoin(MIDDLE + d, TAIL);
  }

  lemma PreambleParts(group: Name, n: nat)
    ensures Preamble(group, n) == LEAD + ['"'] + (Escaped(group) + ['"'] + (MIDDLE + Decimal(n) + TAIL))
    ensures |Preamble(group, n)| >= 2 && Preamble(group, n)[|Preamble(group, n)| - 2..] == ": "
  {
    hide Decimal, Escaped, LEAD, MIDDLE, TAIL;
    FixedText();
    assert "\"" == ['"'];
    var p := Preamble(group, n);
    assert p[|p| - |TAIL|..] == TAIL;
    assert p[|p| - 2..] == TAIL[|TAIL| - 2..];
  }

  lemma PreambleHoldsIff(group: Name, n: nat, m: string)
    requires Decisive(m)
    ensures Contains(Preamble(group, n), m) <==> Contains(Escaped(group), m)
  {
    hide Decimal, Escaped, Harmless, IsStart, Contains;
    var rest := MIDDLE + Decimal(n) + TAIL;
    PreambleParts(group, n);
    FixedTextIsHarmless(n);
    NotAcross(LEAD, '"', Escaped(group) + ['"'] + rest, m);
    NotAcross(Escaped(group), '"', rest, m);
    HarmlessHoldsNone(LEAD, m);
    HarmlessHoldsNone(rest, m);
  }

  lemma PreambleExcusesIff(group: Name, n: nat)
    ensures Excuses(Preamble(group, n)) <==> Excuses(Escaped(group))
  {
    hide Decisive, Contains, Preamble, Escaped;
    QuotaMarkersAreDecisive();
    NotFoundMarkersAreDecisive();
    PriceMarkersAreDecisive();
    var p := Preamble(group, n);
    forall m: string | Decisive(m) { PreambleHoldsIff(group, n, m); }
    forall markers: seq<string> | forall k | 0 <= k < |markers| :: Decisive(markers[k])
      ensures ContainsAny(p, markers) <==> ContainsAny(Escaped(group), markers)
    {
      forall k | 0 <= k < |markers| ensures Contains(p, markers[k]) <==> Contains(Escaped(group), markers[k]) { }
    }
  }

  // ---- any number of levels up ----

  // A group on the way up, and the attempts it reports.
  datatype Level = Level(group: Name, attempts: nat)

  // What a failure has become above these levels, the innermost first.
  function Wrapped(levels: seq<Level>, f: Failure): Failure {
    if levels == [] then f
    else
      var inner, top := Wrapped(levels[..|levels| - 1], f), levels[|levels| - 1];
      inner.(message := Preamble(top.group, top.attempts) + inner.message)
  }

  // What an upstream error has become there.
  function Lifted(levels: seq<Level>, e: HostError): Failure {
    Wrapped(levels, UpstreamFailure(e, Classify(e.status, e.message)))
  }

  // The text the levels put in front.
  function Front(levels: seq<Level>): string {
    if levels == [] then ""
    else Preamble(levels[|levels| - 1].group, levels[|levels| - 1].attempts) + Front(levels[..|levels| - 1])
  }

  lemma {:induction false} WrappedHasFront(levels: seq<Level>, f: Failure)
    ensures var w := Wrapped(levels, f); w.status == f.status && w.code == f.code && w.message == Front(levels) + f.message
  {
    hide Preamble;
    if levels != [] { WrappedHasFront(levels[..|levels| - 1], f); }
  }

  lemma LiftedHasFront(levels: seq<Level>, e: HostError)
    ensures Lifted(levels, e).status == VisibleStatus(e.status, Classify(e.status, e.message))
    ensures Lifted(levels, e).message == Front(levels) + e.message
  {
    hide Classify, Wrapped, Front;
    WrappedHasFront(levels, UpstreamFailure(e, Classify(e.status, e.message)));
  }

  predicate Marked(levels: seq<Level>) {
    exists k | 0 <= k < |levels| :: Excuses(Escaped(levels[k].group))
  }

  lemma {:induction false} FrontExcusesIff(levels: seq<Level>)
    ensures Excuses(Front(levels)) <==> Marked(levels)
    ensures levels != [] ==> |Front(levels)| >= 2 && Front(levels)[|Front(levels)| - 2..] == ": "
  {
    hide Excuses, Preamble, Escaped;
    if levels == [] {
      NothingExcusesSilence();
    } else {
      var front, top := levels[..|levels| - 1], levels[|levels| - 1];
      FrontExcusesIff(front);
      var p, rest := Preamble(top.group, top.attempts), Front(front);
      PreambleParts(top.group, top.attempts);
      PreambleExcusesIff(top.group, top.attempts);
      ExcusesAcross(p, rest);
      assert levels == front + [top];
      assert Marked(levels) <==> Marked(front) || Excuses(Escaped(top.group)) by {
        assert forall k | 0 <= k < |front| :: levels[k] == front[k];
      }
      assert rest != "" ==> (p + rest)[|p + rest| - 2..] == rest[|rest| - 2..];
      assert rest == "" ==> p + rest == p;
    }
  }

  // A whole path of groups keeps every failover decision, at its top and for either setting there, exactly
  // when no group on it has a name whose quoted form holds a quota, not-found or price marker.
  lemma PathKeepsDecisionsIff(levels: seq<Level>)
    ensures (forall e: HostError, b: bool ::
               FailsOver(Lifted(levels, e), b) <==> Failover(Classify(e.status, e.message), b))
            <==> !Marked(levels)
  {
    hide Classify, Excuses, Front, Failover, Marked;
    FrontExcusesIff(levels);
    forall e: HostError { LiftedHasFront(levels, e); }
    if levels == [] {
      forall e: HostError, b: bool ensures FailsOver(Lifted(levels, e), b) <==> Failover(Classify(e.status, e.message), b) {
        AloneKeepsDecisions(e, b);
      }
      assert !Marked(levels) by { NothingIsMarked(); }
    } else {
      var p := Front(levels);
      DecisionIsStableIff(p);
      forall e: HostError, b: bool
        ensures (FailsOver(Lifted(levels, e), b) <==> Failover(Classify(e.status, e.message), b))
                <==> SameDecision(p, e.status, e.message, b)
      {
      }
      if Marked(levels) {
        var status, m, b :| !SameDecision(p, status, m, b);
        var e := HostError(status, "", m);
        assert !(FailsOver(Lifted(levels, e), b) <==> Failover(Classify(e.status, e.message), b));
      } else {
        forall e: HostError, b: bool
          ensures FailsOver(Lifted(levels, e), b) <==> Failover(Classify(e.status, e.message), b)
        {
          assert SameDecision(p, e.status, e.message, b);
        }
      }
    }
  }

  lemma NothingIsMarked()
    ensures !Marked([])
  {
  }

  lemma AloneKeepsDecisions(e: HostError, b: bool)
    ensures FailsOver(Lifted([], e), b) <==> Failover(Classify(e.status, e.message), b)
  {
    ClientErrorIff(e.status, e.message);
    ClientErrorIff(VisibleStatus(e.status, Classify(e.status, e.message)), e.message);
  }

  // A group level keeps every failover decision exactly when the quoted name holds no such marker.
  lemma LevelKeepsDecisionsIff(group: Name, attempts: nat)
    ensures (forall e: HostError, b: bool ::
               FailsOver(Lifted([Level(group, attempts)], e), b) <==> Failover(Classify(e.status, e.message), b))
            <==> !Excuses(Escaped(group))
  {
    hide Lifted, FailsOver, Failover, Classify, Excuses, Escaped;
    var levels := [Level(group, attempts)];
    PathKeepsDecisionsIff(levels);
    assert levels[0].group == group;
  }

  // For example: a malformed request that a member of "credit-pool" answered makes the group above fail over
  // even where it is told not to on client errors.
  lemma MarkedGroupNameFailsOver(attempts: nat)
    ensures var e := HostError(400, "", "syntax");
            && !Failover(Classify(e.status, e.message), false)
            && FailsOver(Lifted([Level("credit-pool", attempts)], e), false)
  {
    hide Lifted, Preamble, Escaped, Excuses, Front, Contains, UpstreamFailure;
    var levels, m := [Level("credit-pool", attempts)], "syntax";
    LiftedHasFront(levels, HostError(400, "", m));
    FrontExcusesIff(levels);
    CreditPoolIsMarked();
    assert levels[0].group == "credit-pool";
    ExcusesAcross(Front(levels), m);
    PlainTextDoesNotExcuse();
    ClientErrorIff(400, m);
    ClientErrorIff(400, Front(levels) + m);
  }

  lemma CreditPoolIsMarked()
    ensures Excuses(Escaped("credit-pool"))
  {
    hide Escaped;
    PlainNamesAreQuotedAsTheyAre("credit-pool");
    assert QUOTA_MARKERS[7] == ACCOUNT_MARKERS[7] == "credit";
    assert OccursAt("credit-pool", "credit", 0);
  }

  lemma {:induction false} EscapedConcat(s: string, t: string)
    ensures Escaped(s + t) == Escaped(s) + Escaped(t)
  {
    hide EscapedChar;
    if s == "" {
      assert s + t == t;
    } else {
      assert (s + t)[1..] == s[1..] + t;
      EscapedConcat(s[1..], t);
    }
  }

  // Quoting can make a marker of a name that holds none: a backspace is written as a backslash and a 'b'.
  lemma QuotingCanForgeAMarker()
    ensures var name := "pool" + [0x08 as char] + "alance"; !Excuses(name) && Excuses(Escaped(name))
  {
    hide Excuses, Escaped;
    PoolIsUnmarked();
    PoolIsQuoted();
    QuotedPoolIsMarked();
  }

  lemma PoolIsUnmarked()
    ensures !Excuses("pool" + [0x08 as char] + "alance")
  {
    hide Excuses;
    assert Harmless("pool" + [0x08 as char] + "alance");
    HarmlessTextDoesNotExcuse("pool" + [0x08 as char] + "alance");
  }

  lemma PoolIsQuoted()
    ensures Escaped("pool" + [0x08 as char] + "alance") == "pool" + "\\b" + "alance"
  {
    hide Escaped;
    var backspace := [0x08 as char];
    EscapedConcat("pool" + backspace, "alance");
    EscapedConcat("pool", backspace);
    PlainNamesAreQuotedAsTheyAre("pool");
    PlainNamesAreQuotedAsTheyAre("alance");
    BackspaceIsQuoted();
  }

  lemma BackspaceIsQuoted()
    ensures Escaped([0x08 as char]) == "\\b"
  {
    var backspace := [0x08 as char];
    assert backspace[1..] == "" && EscapedChar(backspace[0]) == "\\b" && Escaped("") == "";
  }

  lemma QuotedPoolIsMarked()
    ensures Excuses("pool" + "\\b" + "alance")
  {
    var quoted := "pool" + "\\b" + "alance";
    assert |ACCOUNT_MARKERS| == 8 && QUOTA_MARKERS[8] == LIMIT_MARKERS[0] == "balance";
    assert quoted[5..12] == "balance";
    assert OccursAt(quoted, "balance", 5);
  }

  lemma HarmlessTextDoesNotExcuse(s: string)
    requires Harmless(s)
    ensures !Excuses(s)
  {
    hide Decisive, Contains, Harmless;
    QuotaMarkersAreDecisive();
    NotFoundMarkersAreDecisive();
    PriceMarkersAreDecisive();
    forall m: string | Decisive(m) { HarmlessHoldsNone(s, m); }
  }

  lemma PlainTextDoesNotExcuse()
    ensures !Excuses("syntax")
  {
    assert Harmless("syntax");
    HarmlessTextDoesNotExcuse("syntax");
  }
}
