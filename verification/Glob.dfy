// The wildcard matcher of internal/config/config.go and the model-name helpers around it.
//
// Strings are taken after trimming and case folding, as the matcher itself folds both arguments first.
module Glob {

  // One non-star pattern character against one name character. A '*' in the pattern also
  // equals a literal '*' in the name: the matcher tests equality before it looks for a star.
  predicate CharMatch(p: char, c: char) {
    p == '?' || p == c
  }

  // What a wildcard pattern means: '*' stands for any run of characters, '?' for one.
  ghost predicate Wild(p: string, n: string) {
    if p == [] then n == []
    else if p[0] == '*' then exists k | 0 <= k <= |n| :: Wild(p[1..], n[k..])
    else n != [] && CharMatch(p[0], n[0]) && Wild(p[1..], n[1..])
  }

  // What the matcher computes: a '*' facing a '*' is consumed as an ordinary character.
  ghost predicate Scan(p: string, n: string) {
    if p == [] then n == []
    else if n != [] && CharMatch(p[0], n[0]) then Scan(p[1..], n[1..])
    else p[0] == '*' && exists k | 0 <= k <= |n| :: Scan(p[1..], n[k..])
  }

  ghost predicate Lockstep(q: string, n: string, m: nat) {
    m + |q| <= |n| && forall i | 0 <= i < |q| :: CharMatch(q[i], n[m + i])
  }

  lemma LockstepTail(q: string, n: string, m: nat)
    requires q != [] && Lockstep(q, n, m)
    ensures CharMatch(q[0], n[m]) && Lockstep(q[1..], n, m + 1)
  {
    assert forall i | 0 <= i < |q[1..]| :: q[1..][i] == q[i + 1];
  }

  // Why one backtracking point is enough: when q has matched character by character from m,
  // any other way of matching q that starts at m or later also ends at m + |q| or later.
  lemma {:induction false} LaterStartsEndLater(q: string, r: string, n: string, m: nat, a: nat) returns (j: nat)
    requires Lockstep(q, n, m)
    requires m <= a <= |n| && Scan(q + r, n[a..])
    ensures m + |q| <= j <= |n| && Scan(r, n[j..])
  {
    if q == [] {
      assert q + r == r;
      j := a;
    } else {
      hide Lockstep;
      assert (q + r)[1..] == q[1..] + r;
      LockstepTail(q, n, m);
      if a < |n| && CharMatch(q[0], n[a]) {
        assert n[a..][1..] == n[a + 1..];
        j := LaterStartsEndLater(q[1..], r, n, m + 1, a + 1);
      } else {
        var k :| 0 <= k <= |n[a..]| && Scan((q + r)[1..], n[a..][k..]);
        assert n[a..][k..] == n[a + k..];
        j := LaterStartsEndLater(q[1..], r, n, m + 1, a + k);
      }
    }
  }

  // The alternatives still open after the last star: its text may also end later than at mark.
  ghost predicate Later(p: string, n: string, star: int, mark: nat)
    requires -1 <= star < |p|
  {
    star >= 0 && exists k | mark < k <= |n| :: Scan(p[star + 1..], n[k..])
  }

  lemma AlternativesAreNoBetter(p: string, n: string, star: int, mark: nat, pi: nat, ni: nat)
    requires 0 <= star < pi <= |p| && mark <= ni <= |n|
    requires pi - (star + 1) == ni - mark && Lockstep(p[star + 1..pi], n, mark)
    requires Later(p, n, star, mark)
    ensures exists j | ni <= j <= |n| :: Scan(p[pi..], n[j..])
  {
    var k :| mark < k <= |n| && Scan(p[star + 1..], n[k..]);
    assert p[star + 1..] == p[star + 1..pi] + p[pi..];
    var j := LaterStartsEndLater(p[star + 1..pi], p[pi..], n, mark, k);
  }

  // A star that does not face a '*' in the name absorbs every alternative an older star offers.
  lemma NewStarSubsumes(p: string, n: string, pi: nat, ni: nat)
    requires pi < |p| && ni < |n| && p[pi] == '*' && n[ni] != '*'
    ensures Scan(p[pi..], n[ni..]) <==> exists k | ni <= k <= |n| :: Scan(p[pi + 1..], n[k..])
    ensures (exists j | ni <= j <= |n| :: Scan(p[pi..], n[j..])) ==> Scan(p[pi..], n[ni..])
  {
    var q := p[pi..];
    assert q[1..] == p[pi + 1..];
    forall j | ni <= j <= |n| && Scan(q, n[j..])
      ensures exists k | j <= k <= |n| :: Scan(p[pi + 1..], n[k..])
    {
      if j < |n| && CharMatch(q[0], n[j]) {
        assert n[j..][1..] == n[j + 1..];
      } else {
        var k :| 0 <= k <= |n[j..]| && Scan(q[1..], n[j..][k..]);
        assert n[j..][k..] == n[j + k..];
      }
    }
    if k :| ni <= k <= |n| && Scan(p[pi + 1..], n[k..]) {
      assert n[ni..][k - ni..] == n[k..];
    }
  }

  ghost predicate AllStars(p: string) {
    forall i | 0 <= i < |p| :: p[i] == '*'
  }

  lemma {:induction false} ScanEmptyName(p: string)
    ensures Scan(p, []) <==> AllStars(p)
  {
    if p != [] {
      ScanEmptyName(p[1..]);
      var none: string := [];
      assert none[0..] == none;
      assert Scan(p, none) <==> p[0] == '*' && Scan(p[1..], none);
      assert AllStars(p) <==> p[0] == '*' && AllStars(p[1..]) by {
        assert forall i | 1 <= i < |p| :: p[i] == p[1..][i - 1];
      }
    }
  }

  // What the loop knows: the answer is decided by the rest from here, or by the remembered star alone.
  ghost predicate Decides(p: string, n: string, pi: nat, ni: nat, star: int, mark: nat) {
    && pi <= |p| && mark <= ni <= |n| && -1 <= star < |p|
    && (star >= 0 ==> star < pi && pi - (star + 1) == ni - mark && Lockstep(p[star + 1..pi], n, mark))
    && (Scan(p, n) <==> Scan(p[pi..], n[ni..]) || Later(p, n, star, mark))
  }

  lemma ScanStep(p: string, n: string, pi: nat, ni: nat)
    requires pi < |p| && ni < |n| && CharMatch(p[pi], n[ni])
    ensures Scan(p[pi..], n[ni..]) <==> Scan(p[pi + 1..], n[ni + 1..])
  {
    assert p[pi..][1..] == p[pi + 1..] && n[ni..][1..] == n[ni + 1..];
  }

  lemma LockstepGrows(q: string, c: char, n: string, m: nat)
    requires Lockstep(q, n, m) && m + |q| < |n| && CharMatch(c, n[m + |q|])
    ensures Lockstep(q + [c], n, m)
  {
  }

  lemma MatchOne(p: string, n: string, pi: nat, ni: nat, star: int, mark: nat)
    requires Decides(p, n, pi, ni, star, mark)
    requires pi < |p| && ni < |n| && CharMatch(p[pi], n[ni])
    ensures Decides(p, n, pi + 1, ni + 1, star, mark)
  {
    hide Scan, Later, Lockstep;
    ScanStep(p, n, pi, ni);
    if star >= 0 {
      LockstepGrows(p[star + 1..pi], p[pi], n, mark);
      assert p[star + 1..pi + 1] == p[star + 1..pi] + [p[pi]];
    }
  }

  lemma RememberStar(p: string, n: string, pi: nat, ni: nat, star: int, mark: nat)
    requires Decides(p, n, pi, ni, star, mark)
    requires pi < |p| && ni < |n| && p[pi] == '*' && n[ni] != '*'
    ensures Decides(p, n, pi + 1, ni, pi, ni)
  {
    if Later(p, n, star, mark) { AlternativesAreNoBetter(p, n, star, mark, pi, ni); }
    NewStarSubsumes(p, n, pi, ni);
  }

  lemma BackToStar(p: string, n: string, pi: nat, ni: nat, star: int, mark: nat)
    requires Decides(p, n, pi, ni, star, mark) && star >= 0 && ni < |n|
    requires pi < |p| ==> !CharMatch(p[pi], n[ni]) && p[pi] != '*'
    ensures Decides(p, n, star + 1, mark + 1, star, mark + 1)
  {
    assert !Scan(p[pi..], n[ni..]);
  }

  lemma NoWay(p: string, n: string, pi: nat, ni: nat)
    requires Decides(p, n, pi, ni, -1, 0) && ni < |n|
    requires pi < |p| ==> !CharMatch(p[pi], n[ni]) && p[pi] != '*'
    ensures !Scan(p, n)
  {
  }

  lemma NameConsumed(p: string, n: string, pi: nat, star: int, mark: nat)
    requires Decides(p, n, pi, |n|, star, mark)
    ensures Scan(p, n) <==> AllStars(p[pi..])
  {
    if Later(p, n, star, mark) { AlternativesAreNoBetter(p, n, star, mark, pi, |n|); }
    assert n[|n|..] == [];
    ScanEmptyName(p[pi..]);
  }

  // The iterative matcher: one pass with a single remembered star.
  method Match(p: string, n: string) returns (matched: bool)
    ensures matched == Scan(p, n)
  {
    hide Scan, Decides;
    var pi, ni, star, mark := 0, 0, -1, 0;
    StartDecides(p, n);
    while ni < |n|
      invariant 0 <= pi <= |p| && 0 <= mark <= ni <= |n| && -1 <= star < pi
      invariant star < 0 ==> mark == 0
      invariant Decides(p, n, pi, ni, star, mark)
      decreases |n| - mark, |n| - ni + |p| - pi
    {
      if pi < |p| && (p[pi] == '?' || p[pi] == n[ni]) {
        MatchOne(p, n, pi, ni, star, mark);
        pi, ni := pi + 1, ni + 1;
      } else if pi < |p| && p[pi] == '*' {
        RememberStar(p, n, pi, ni, star, mark);
        star, mark, pi := pi, ni, pi + 1;
      } else if star >= 0 {
        BackToStar(p, n, pi, ni, star, mark);
        pi, mark, ni := star + 1, mark + 1, mark + 1;
      } else {
        NoWay(p, n, pi, ni);
        return false;
      }
    }
    NameConsumed(p, n, pi, star, mark);
    ghost var rest := p[pi..];
    while pi < |p| && p[pi] == '*'
      invariant 0 <= pi <= |p|
      invariant AllStars(rest) <==> AllStars(p[pi..])
    {
      assert p[pi..] == [p[pi]] + p[pi + 1..];
      pi := pi + 1;
    }
    assert pi < |p| ==> p[pi..][0] == p[pi];
    matched := pi == |p|;
  }

  lemma StartDecides(p: string, n: string)
    ensures Decides(p, n, 0, 0, -1, 0)
  {
    assert p[0..] == p && n[0..] == n;
  }

  // What the matcher accepts, the pattern means.
  lemma {:induction false} ScanIsSound(p: string, n: string)
    requires Scan(p, n)
    ensures Wild(p, n)
  {
    if p != [] {
      if n != [] && CharMatch(p[0], n[0]) {
        ScanIsSound(p[1..], n[1..]);
        if p[0] == '*' { assert Wild(p[1..], n[1..]); }
      } else {
        var k :| 0 <= k <= |n| && Scan(p[1..], n[k..]);
        ScanIsSound(p[1..], n[k..]);
      }
    }
  }

  lemma {:induction false} ScanIsComplete(p: string, n: string)
    requires '*' !in n && Wild(p, n)
    ensures Scan(p, n)
  {
    if p != [] {
      if p[0] == '*' {
        var k :| 0 <= k <= |n| && Wild(p[1..], n[k..]);
        ScanIsComplete(p[1..], n[k..]);
      } else {
        ScanIsComplete(p[1..], n[1..]);
      }
    }
  }

  // A common literal front is consumed character by character.
  lemma {:induction false} LiteralFront(u: string, p: string, n: string)
    ensures Scan(u + p, u + n) <==> Scan(p, n)
    ensures '*' !in u && Wild(p, n) ==> Wild(u + p, u + n)
  {
    if u == [] {
      assert u + p == p && u + n == n;
    } else {
      assert (u + p)[1..] == u[1..] + p && (u + n)[1..] == u[1..] + n;
      LiteralFront(u[1..], p, n);
    }
  }

  function Questions(k: nat): (q: string)
    ensures |q| == k && forall i | 0 <= i < k :: q[i] == '?'
  {
    seq(k, i => '?')
  }

  lemma {:induction false} QuestionsFit(k: nat, n: string)
    ensures Wild(Questions(k), n) <==> |n| == k
  {
    if k > 0 {
      assert Questions(k)[1..] == Questions(k - 1);
      if n != [] { QuestionsFit(k - 1, n[1..]); }
    }
  }

  lemma ShorterThanQuestions(n: string)
    requires n != []
    ensures !Scan(Questions(|n|), n[1..])
  {
    hide Scan, Wild, Questions;
    if Scan(Questions(|n|), n[1..]) {
      ScanIsSound(Questions(|n|), n[1..]);
      QuestionsFit(|n|, n[1..]);
    }
  }

  // Facing a literal '*', a star is used up, and what follows is one character too long.
  lemma StarredTailIsMisjudged(rest: string)
    requires rest != [] && rest[0] == '*'
    ensures Wild("*" + Questions(|rest|), rest) && !Scan("*" + Questions(|rest|), rest)
  {
    hide Questions;
    var tail := "*" + Questions(|rest|);
    assert tail[0] == '*' && tail[1..] == Questions(|rest|) && rest[0..] == rest;
    QuestionsFit(|rest|, rest);
    ShorterThanQuestions(rest);
    StarredTail(tail, rest);
  }

  lemma StarredTail(tail: string, rest: string)
    requires tail != [] && rest != [] && tail[0] == '*' == rest[0] && Wild(tail[1..], rest[0..]) && !Scan(tail[1..], rest[1..])
    ensures Wild(tail, rest) && !Scan(tail, rest)
  {
  }

  // The pattern a starred name is misjudged on: its own text before the first '*', then a star,
  // then one '?' for each remaining character.
  lemma StarredNameIsMisjudged(n: string, i: nat)
    requires i < |n| && n[i] == '*' && '*' !in n[..i]
    ensures var p := n[..i] + "*" + Questions(|n| - i); Wild(p, n) && !Scan(p, n)
  {
    hide Scan, Wild, Questions;
    var u, rest := n[..i], n[i..];
    var tail := "*" + Questions(|rest|);
    assert n == u + rest && u + "*" + Questions(|rest|) == u + tail;
    StarredTailIsMisjudged(rest);
    LiteralFront(u, tail, rest);
  }

  lemma FirstStar(n: string) returns (i: nat)
    requires '*' in n
    ensures i < |n| && n[i] == '*' && '*' !in n[..i]
  {
    i := 0;
    while n[i] != '*'
      invariant i < |n| && '*' !in n[..i]
      decreases |n| - i
    {
      assert n[..i + 1] == n[..i] + [n[i]];
      i := i + 1;
      if i == |n| { assert n[..i] == n; }
    }
  }

  // The matcher decides the wildcard meaning of every pattern on exactly the names without a '*'.
  lemma MatcherIsExactIff(n: string)
    ensures (forall p: string :: Scan(p, n) <==> Wild(p, n)) <==> '*' !in n
  {
    if '*' !in n {
      forall p: string ensures Scan(p, n) <==> Wild(p, n) {
        if Scan(p, n) { ScanIsSound(p, n); }
        if Wild(p, n) { ScanIsComplete(p, n); }
      }
    } else {
      var i := FirstStar(n);
      StarredNameIsMisjudged(n, i);
    }
  }

  // The model ID inside a routing namespace: the text after the last '/'.
  function ModelName(name: string): (id: string)
    ensures '/' !in id
  {
    if name == [] then []
    else if name[|name| - 1] == '/' then []
    else ModelName(name[..|name| - 1]) + [name[|name| - 1]]
  }

  lemma {:induction false} ModelNameOfExtension(a: string, id: string)
    requires '/' !in id
    ensures ModelName(a + id) == ModelName(a) + id
  {
    if id == [] {
      assert a + id == a && ModelName(a) + id == ModelName(a);
    } else {
      var k := |id| - 1;
      assert id == id[..k] + [id[k]] && (a + id)[..|a + id| - 1] == a + id[..k];
      ModelNameOfExtension(a, id[..k]);
      assert ModelName(a) + id == (ModelName(a) + id[..k]) + [id[k]];
    }
  }

  lemma ModelNameStripsNamespace(prefix: string, id: string)
    requires '/' !in id
    ensures ModelName(prefix + "/" + id) == id && ModelName(id) == id
  {
    ModelNameOfExtension(prefix + "/", id);
    ModelNameOfExtension([], id);
    assert [] + id == id;
  }

  // An unqualified pattern is also tried on the model ID inside the namespace.
  ghost predicate ModelScan(pattern: string, name: string) {
    Scan(pattern, name) || ('/' !in pattern && Scan(pattern, ModelName(name)))
  }

  method ModelMatch(pattern: string, name: string) returns (matched: bool)
    ensures matched == ModelScan(pattern, name)
  {
    matched := Match(pattern, name);
    if !matched && '/' !in pattern {
      matched := Match(pattern, ModelName(name));
    }
  }

  // Whatever namespace a name arrives under, an unqualified pattern that accepts its model ID accepts it.
  lemma UnqualifiedPatternsIgnoreNamespaces(pattern: string, prefix: string, id: string)
    requires '/' !in pattern && '/' !in id && Scan(pattern, id)
    ensures ModelScan(pattern, id) && ModelScan(pattern, prefix + "/" + id)
  {
    ModelNameStripsNamespace(prefix, id);
  }

  // A qualified pattern stays literal: no namespace is taken off the name for it.
  lemma QualifiedPatternsAreLiteral(pattern: string, name: string)
    requires '/' in pattern
    ensures ModelScan(pattern, name) <==> Scan(pattern, name)
  {
  }

  predicate HasWildcard(pattern: string) {
    '*' in pattern || '?' in pattern
  }

  lemma {:induction false} LiteralMeansItself(p: string, n: string)
    requires '*' !in p && '?' !in p
    ensures Wild(p, n) <==> n == p
  {
    if p != [] && n != [] { LiteralMeansItself(p[1..], n[1..]); }
  }

  // Read as itself, with 'x' and 'y' for each '?', a pattern means two different names.
  function Filled(p: string, c: char): string {
    if p == [] then [] else (if p[0] == '*' then [] else if p[0] == '?' then [c] else [p[0]]) + Filled(p[1..], c)
  }

  lemma {:induction false} FilledIsMeant(p: string, c: char)
    ensures Wild(p, Filled(p, c))
  {
    if p != [] {
      FilledIsMeant(p[1..], c);
      var n := Filled(p, c);
      if p[0] == '*' { assert n[0..] == Filled(p[1..], c); } else { assert n[1..] == Filled(p[1..], c); }
    }
  }

  lemma {:induction false} FillingsDiffer(p: string)
    requires '*' in p || '?' in p
    ensures Filled(p, 'x') != p || Filled(p, 'y') != p
    ensures |Filled(p, 'x')| <= |p|
  {
    if p[0] == '*' || p[0] == '?' {
      FilledIsNoLonger(p[1..], 'x');
      if p[0] == '?' { assert Filled(p, 'x')[0] == 'x'; }
    } else {
      FillingsDiffer(p[1..]);
      assert Filled(p, 'x')[1..] == Filled(p[1..], 'x') && Filled(p, 'y')[1..] == Filled(p[1..], 'y');
    }
  }

  lemma {:induction false} FilledIsNoLonger(p: string, c: char)
    ensures |Filled(p, c)| <= |p|
  {
    if p != [] { FilledIsNoLonger(p[1..], c); }
  }

  // A pattern has a wildcard exactly when it means some name other than itself.
  lemma HasWildcardIff(p: string)
    ensures HasWildcard(p) <==> exists n: string :: n != p && Wild(p, n)
  {
    if HasWildcard(p) {
      FillingsDiffer(p);
      FilledIsMeant(p, 'x');
      FilledIsMeant(p, 'y');
      var n := if Filled(p, 'x') != p then Filled(p, 'x') else Filled(p, 'y');
      assert n != p && Wild(p, n);
    } else {
      forall n: string | Wild(p, n) ensures n == p { LiteralMeansItself(p, n); }
    }
  }
}
