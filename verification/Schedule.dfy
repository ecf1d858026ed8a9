// The order in which a group's strategy wants to try its members (internal/engine/engine.go, order).
module Schedule {
  import opened Config

  const UINT64_LIMIT: nat := 0x1_0000_0000_0000_0000

  // The random draws made on one entry into a group: any values at all.
  datatype Draws = Draws(ints: nat -> nat, reals: nat -> real)

  function Rotated(members: seq<Member>, start: nat): seq<Member>
    requires start <= |members|
  {
    members[start..] + members[..start]
  }

  // Fisher-Yates from position i down: position i is exchanged with a drawn position at or below it.
  function Shuffled(members: seq<Member>, i: nat, ints: nat -> nat): seq<Member>
    requires i < |members| || i == 0
    decreases i
  {
    if i == 0 then members
    else
      var j := ints(i) % (i + 1);
      Shuffled(members[i := members[j]][j := members[i]], i - 1, ints)
  }

  function TotalWeight(members: seq<Member>): int {
    if members == [] then 0 else TotalWeight(members[..|members| - 1]) + members[|members| - 1].weight
  }

  // The member whose weight interval holds r: the first whose running total exceeds it, else the last.
  function Pick(members: seq<Member>, i: nat, r: real): (idx: nat)
    requires i < |members|
    ensures idx < |members|
    decreases |members| - i
  {
    if r - members[i].weight as real < 0.0 || i + 1 == |members| then
      (if r - members[i].weight as real < 0.0 then i else |members| - 1)
    else Pick(members, i + 1, r - members[i].weight as real)
  }

  // A draw from the unit interval, stretched over the total weight.
  function Scaled(draw: real, members: seq<Member>): real {
    draw * TotalWeight(members) as real
  }

  function Without(members: seq<Member>, idx: nat): seq<Member>
    requires idx < |members|
  {
    members[..idx] + members[idx + 1..]
  }

  function FirstPick(members: seq<Member>, round: nat, reals: nat -> real): (idx: nat)
    requires members != []
    ensures idx < |members|
  {
    Pick(members, 0, Scaled(reals(round), members))
  }

  // Weighted sampling without replacement.
  function Sampled(members: seq<Member>, round: nat, reals: nat -> real): seq<Member>
    decreases |members|
  {
    if members == [] then []
    else
      var idx := FirstPick(members, round, reals);
      [members[idx]] + Sampled(Without(members, idx), round + 1, reals)
  }

  function Selected(members: seq<Member>, name: Name): seq<Member> {
    if members == [] then []
    else if members[0].model == name then [members[0]]
    else Selected(members[1..], name)
  }

  // The order wanted on an entry that finds the group's counter at the given value.
  function Ordering(g: Group, counter: nat, draws: Draws): seq<Member>
    requires g.members != []
  {
    match g.strategy
    case Manual => Selected(g.members, g.manualMember)
    case RoundRobin => Rotated(g.members, counter % |g.members|)
    case Random => Shuffled(g.members, |g.members| - 1, draws.ints)
    case Weighted => Sampled(g.members, 0, draws.reals)
    case Fallback => g.members
  }

  // The counters after an entry: only a round-robin group advances, wrapping as a uint64 does.
  function Advance(counters: map<Name, nat>, g: Group): map<Name, nat> {
    if g.strategy == RoundRobin then counters[g.name := (CounterOf(counters, g) + 1) % UINT64_LIMIT] else counters
  }

  function CounterOf(counters: map<Name, nat>, g: Group): nat {
    if g.name in counters then counters[g.name] else 0
  }

  // ---- the algorithms ----

  method ShuffleInPlace(a: array<Member>, ints: nat -> nat)
    requires a.Length > 0
    modifies a
    ensures a[..] == Shuffled(old(a[..]), a.Length - 1, ints)
  {
    var i := a.Length - 1;
    while i > 0
      invariant 0 <= i < a.Length
      invariant Shuffled(a[..], i, ints) == Shuffled(old(a[..]), a.Length - 1, ints)
    {
      var j := ints(i) % (i + 1);
      ghost var before := a[..];
      a[i], a[j] := a[j], a[i];
      assert a[..] == before[i := before[j]][j := before[i]];
      i := i - 1;
    }
  }

  method PickWeighted(members: seq<Member>, draw: real) returns (idx: nat)
    requires members != []
    ensures idx < |members| && idx == Pick(members, 0, Scaled(draw, members))
  {
    var total := 0;
    for i := 0 to |members|
      invariant total == TotalWeight(members[..i])
    {
      assert members[..i + 1][..i] == members[..i];
      total := total + members[i].weight;
    }
    assert members[..|members|] == members;
    var r := draw * total as real;
    assert r == Scaled(draw, members);
    ghost var wanted := Pick(members, 0, r);
    idx := |members| - 1;
    for i := 0 to |members|
      invariant idx == |members| - 1
      invariant if i < |members| then Pick(members, i, r) == wanted else |members| - 1 == wanted
    {
      r := r - members[i].weight as real;
      if r < 0.0 { return i; }
    }
  }

  method SampleWeighted(pool: seq<Member>, reals: nat -> real) returns (out: seq<Member>)
    ensures out == Sampled(pool, 0, reals)
  {
    var members, round := pool, 0;
    out := [];
    while |members| > 0
      invariant Sampled(pool, 0, reals) == out + Sampled(members, round, reals)
      decreases |members|
    {
      var idx := PickWeighted(members, reals(round));
      assert idx == FirstPick(members, round, reals);
      ghost var before, chosen := out, members[idx];
      assert Sampled(members, round, reals) == [chosen] + Sampled(Without(members, idx), round + 1, reals);
      out := out + [members[idx]];
      members := members[..idx] + members[idx + 1..];
      round := round + 1;
      assert out + Sampled(members, round, reals) == before + ([chosen] + Sampled(members, round, reals));
    }
  }

  method Select(members: seq<Member>, name: Name) returns (out: seq<Member>)
    ensures out == Selected(members, name)
  {
    for i := 0 to |members|
      invariant Selected(members[i..], name) == Selected(members, name)
    {
      if members[i].model == name { return [members[i]]; }
    }
    return [];
  }

  class Scheduler {
    var counters: map<Name, nat>

    constructor ()
      ensures counters == map[]
    {
      counters := map[];
    }

    method Order(g: Group, draws: Draws) returns (members: seq<Member>)
      requires g.members != []
      modifies this
      ensures members == Ordering(g, CounterOf(old(counters), g), draws)
      ensures counters == Advance(old(counters), g)
    {
      hide Shuffled, Sampled, Selected;
      members := g.members;
      var n := |members|;
      match g.strategy
      case Manual =>
        members := Select(members, g.manualMember);
      case RoundRobin =>
        var counter := if g.name in counters then counters[g.name] else 0;
        counters := counters[g.name := (counter + 1) % UINT64_LIMIT];
        var start := counter % n;
        return members[start..] + members[..start];
      case Random =>
        var a := new Member[n](i requires 0 <= i < n => members[i]);
        assert a[..] == members;
        ShuffleInPlace(a, draws.ints);
        return a[..];
      case Weighted =>
        members := SampleWeighted(members, draws.reals);
      case Fallback =>
    }
  }

  // ---- nobody is lost and nobody is repeated ----

  lemma SwapIsPermutation(members: seq<Member>, i: nat, j: nat)
    requires j <= i < |members|
    ensures multiset(members[i := members[j]][j := members[i]]) == multiset(members)
  {
  }

  lemma {:induction false} ShuffleIsPermutation(members: seq<Member>, i: nat, ints: nat -> nat)
    requires i < |members| || i == 0
    ensures multiset(Shuffled(members, i, ints)) == multiset(members)
    decreases i
  {
    if i > 0 {
      var j := ints(i) % (i + 1);
      SwapIsPermutation(members, i, j);
      ShuffleIsPermutation(members[i := members[j]][j := members[i]], i - 1, ints);
    }
  }

  lemma RemovalIsPermutation(members: seq<Member>, idx: nat)
    requires idx < |members|
    ensures multiset(Without(members, idx)) + multiset{members[idx]} == multiset(members)
  {
    assert members == members[..idx] + ([members[idx]] + members[idx + 1..]);
  }

  lemma {:induction false} SamplingIsPermutation(members: seq<Member>, round: nat, reals: nat -> real)
    ensures multiset(Sampled(members, round, reals)) == multiset(members)
    decreases |members|
  {
    if members != [] {
      var idx := FirstPick(members, round, reals);
      SamplingIsPermutation(Without(members, idx), round + 1, reals);
      RemovalIsPermutation(members, idx);
    }
  }

  lemma {:induction false} SelectedIsTheMember(members: seq<Member>, name: Name)
    ensures (forall i | 0 <= i < |members| :: members[i].model != name) ==> Selected(members, name) == []
    ensures (exists i | 0 <= i < |members| :: members[i].model == name) ==>
              |Selected(members, name)| == 1 && Selected(members, name)[0] in members
              && Selected(members, name)[0].model == name
  {
    if members != [] {
      SelectedIsTheMember(members[1..], name);
      if members[0].model != name {
        assert forall i | 1 <= i < |members| :: members[i] == members[1..][i - 1];
      }
    }
  }

  // Every strategy but manual tries all the members, each as often as it is listed; manual tries one
  // member at most, the selected one.
  lemma OrderKeepsMembers(g: Group, counter: nat, draws: Draws)
    requires g.members != []
    ensures g.strategy != Manual ==> multiset(Ordering(g, counter, draws)) == multiset(g.members)
    ensures g.strategy == Manual ==> |Ordering(g, counter, draws)| <= 1
    ensures forall m | m in Ordering(g, counter, draws) :: m in g.members && g.Eligible(m)
  {
    hide Rotated, Shuffled, Sampled, Selected;
    var out := Ordering(g, counter, draws);
    match g.strategy {
      case Manual =>
        SelectedIsTheMember(g.members, g.manualMember);
        assert out != [] ==> |out| == 1 && out[0] in g.members;
      case RoundRobin => RotationIsPermutation(g.members, counter % |g.members|);
      case Random => ShuffleIsPermutation(g.members, |g.members| - 1, draws.ints);
      case Weighted => SamplingIsPermutation(g.members, 0, draws.reals);
      case Fallback =>
    }
    if g.strategy != Manual { PermutationsKeepMembers(out, g.members); }
  }

  lemma RotationIsPermutation(members: seq<Member>, start: nat)
    requires start <= |members|
    ensures multiset(Rotated(members, start)) == multiset(members)
  {
    assert members == members[..start] + members[start..];
  }

  lemma PermutationsKeepMembers(out: seq<Member>, members: seq<Member>)
    requires multiset(out) == multiset(members)
    ensures forall m | m in out :: m in members
  {
    forall m | m in out ensures m in members { assert m in multiset(out); }
  }

  // ---- every order can come out ----

  // Fallback keeps the configured order, and round-robin turns it to the counter's remainder.
  lemma FixedOrders(g: Group, counter: nat, draws: Draws, k: nat)
    requires k < |g.members|
    ensures g.strategy == Fallback ==> |Ordering(g, counter, draws)| == |g.members| && Ordering(g, counter, draws)[k] == g.members[k]
    ensures g.strategy == RoundRobin ==>
              |Ordering(g, counter, draws)| == |g.members|
              && Ordering(g, counter, draws)[k] == g.members[(counter + k) % |g.members|]
  {
    if g.strategy == RoundRobin {
      var n, start := |g.members|, counter % |g.members|;
      DivModOfSum(counter, k, n);
      DivModIs(k, n, 0, k);
      assert Rotated(g.members, start)[k] == if start + k < n then g.members[start + k] else g.members[start + k - n];
    }
  }

  // What stands above position i is not touched any more.
  lemma {:induction false} ShuffleKeepsAbove(members: seq<Member>, i: nat, ints: nat -> nat, k: nat)
    requires (i < |members| || i == 0) && i < k < |members|
    ensures |Shuffled(members, i, ints)| == |members| && Shuffled(members, i, ints)[k] == members[k]
    decreases i
  {
    if i > 0 {
      var j := ints(i) % (i + 1);
      ShuffleKeepsAbove(members[i := members[j]][j := members[i]], i - 1, ints, k);
    }
  }

  lemma SameCount(a: seq<Member>, b: seq<Member>)
    requires multiset(a) == multiset(b)
    ensures |a| == |b|
  {
    assert |multiset(a)| == |a| && |multiset(b)| == |b|;
  }

  // Two arrangements that agree above position i are permutations of each other up to i.
  lemma PermutationsBelow(a: seq<Member>, b: seq<Member>, i: nat)
    requires multiset(a) == multiset(b) && |a| == |b| && i < |a| && forall k | i < k < |a| :: a[k] == b[k]
    ensures multiset(a[..i + 1]) == multiset(b[..i + 1])
  {
    assert a == a[..i + 1] + a[i + 1..] && b == b[..i + 1] + b[i + 1..];
    assert a[i + 1..] == b[i + 1..];
    Cancels(multiset(a[..i + 1]), multiset(b[..i + 1]), multiset(a[i + 1..]));
  }

  lemma Cancels(a: multiset<Member>, b: multiset<Member>, c: multiset<Member>)
    requires a + c == b + c
    ensures a == b
  {
    forall m ensures a[m] == b[m] { assert (a + c)[m] == (b + c)[m]; }
  }

  lemma RestIsPermutation(members: seq<Member>, q: seq<Member>, k: nat)
    requires q != [] && k < |members| && members[k] == q[0] && multiset(q) == multiset(members)
    ensures multiset(q[1..]) == multiset(Without(members, k))
  {
    RemovalIsPermutation(members, k);
    assert q == [q[0]] + q[1..];
    Cancels(multiset(q[1..]), multiset(Without(members, k)), multiset{q[0]});
  }

  // The same draws but for one.
  function Redrawn<T>(draws: nat -> T, at: nat, v: T): nat -> T {
    (n: nat) => if n == at then v else draws(n)
  }

  // Where the member wanted at position i is, at or below it.
  lemma WantedIsBelow(members: seq<Member>, q: seq<Member>, i: nat) returns (j: nat)
    requires i < |members| && multiset(q) == multiset(members) && |q| == |members|
    requires forall k | i < k < |members| :: members[k] == q[k]
    ensures j <= i && members[j] == q[i]
  {
    PermutationsBelow(members, q, i);
    assert q[i] == q[..i + 1][i];
    assert q[i] in multiset(members[..i + 1]);
    j :| 0 <= j <= i && members[j] == q[i];
  }

  lemma OnlyOneLeft(members: seq<Member>, q: seq<Member>)
    requires members != [] && multiset(q) == multiset(members) && |q| == |members|
    requires forall k | 0 < k < |members| :: members[k] == q[k]
    ensures members == q
  {
    var j := WantedIsBelow(members, q, 0);
  }

  // The draws that turn one arrangement into another that agrees above position i.
  lemma {:induction false} ShuffleReaches(members: seq<Member>, q: seq<Member>, i: nat) returns (ints: nat -> nat)
    requires i < |members| && multiset(q) == multiset(members) && |q| == |members|
    requires forall k | i < k < |members| :: members[k] == q[k]
    ensures Shuffled(members, i, ints) == q
    decreases i
  {
    if i == 0 {
      ints := (n: nat) => 0;
      OnlyOneLeft(members, q);
    } else {
      var j := WantedIsBelow(members, q, i);
      var swapped := members[i := members[j]][j := members[i]];
      SwapIsPermutation(members, i, j);
      var below := ShuffleReaches(swapped, q, i - 1);
      ints := Redrawn(below, i, j);
      DivModIs(j, i + 1, 0, j);
      SameDrawsSameShuffle(swapped, i - 1, ints, below);
    }
  }

  // Only the draws for positions up to i matter.
  lemma {:induction false} SameDrawsSameShuffle(members: seq<Member>, i: nat, ints: nat -> nat, ints': nat -> nat)
    requires (i < |members| || i == 0) && forall n | 0 < n <= i :: ints(n) == ints'(n)
    ensures Shuffled(members, i, ints) == Shuffled(members, i, ints')
    decreases i
  {
    if i > 0 {
      var j := ints(i) % (i + 1);
      SameDrawsSameShuffle(members[i := members[j]][j := members[i]], i - 1, ints, ints');
    }
  }

  // A random group can try its members in every order: for each there are draws that lead to it.
  lemma RandomReachesEveryOrder(g: Group, counter: nat, q: seq<Member>) returns (draws: Draws)
    requires g.strategy == Random && g.members != [] && multiset(q) == multiset(g.members)
    ensures Ordering(g, counter, draws) == q
  {
    SameCount(q, g.members);
    var ints := ShuffleReaches(g.members, q, |g.members| - 1);
    draws := Draws(ints, (n: nat) => 0.0);
  }

  // In particular the draws decide, and no two of them that exchange differently give the same order of
  // distinct members: the last position goes to the member that is drawn for it.
  lemma RandomLastIsDrawn(g: Group, counter: nat, draws: Draws)
    requires g.strategy == Random && g.members != []
    ensures var last := |g.members| - 1;
            |Ordering(g, counter, draws)| == |g.members|
            && Ordering(g, counter, draws)[last] == g.members[draws.ints(last) % (last + 1)]
  {
    var last := |g.members| - 1;
    OrderKeepsMembers(g, counter, draws);
    SameCount(Ordering(g, counter, draws), g.members);
    if last > 0 {
      var j := draws.ints(last) % (last + 1);
      ShuffleKeepsAbove(g.members[last := g.members[j]][j := g.members[last]], last - 1, draws.ints, last);
    } else {
      DivModIs(draws.ints(0), 1, draws.ints(0), 0);
    }
  }

  lemma PrefixBelowTotal(members: seq<Member>, k: nat)
    requires k < |members| && forall x | 0 <= x < |members| :: members[x].weight >= 1
    ensures 0 <= TotalWeight(members[..k]) < TotalWeight(members[..k + 1]) <= TotalWeight(members)
  {
    hide TotalWeight;
    NoWeight(members);
    AllWeights(members);
    WeightsGrow(members, 0, k);
    if k + 1 < |members| { WeightsGrow(members, k + 1, |members| - 1); }
    WeightsGrow(members, k, |members| - 1);
  }

  lemma NoWeight(members: seq<Member>)
    ensures TotalWeight(members[..0]) == 0
  {
  }

  // A draw that picks a given member: the start of its interval.
  lemma PickableDraw(members: seq<Member>, k: nat) returns (draw: real)
    requires k < |members| && forall x | 0 <= x < |members| :: members[x].weight >= 1
    ensures 0.0 <= draw < 1.0 && Pick(members, 0, Scaled(draw, members)) == k
  {
    hide TotalWeight, Pick, Scaled;
    PrefixBelowTotal(members, k);
    var a, total := TotalWeight(members[..k]) as real, TotalWeight(members) as real;
    draw := a / total;
    Fraction(a, total);
    ScaledIs(draw, members, total);
    WeightedFirstIff(members, draw, k);
  }

  lemma ScaledIs(draw: real, members: seq<Member>, total: real)
    requires total == TotalWeight(members) as real
    ensures Scaled(draw, members) == draw * total
  {
  }

  lemma Fraction(a: real, total: real)
    requires 0.0 <= a < total
    ensures (a / total) * total == a && 0.0 <= a / total < 1.0
  {
  }

  // Weighted sampling can bring the members out in every order, too, with draws from the unit interval: each
  // member has its chance at each place.
  lemma {:induction false} SamplingReaches(members: seq<Member>, q: seq<Member>, round: nat) returns (reals: nat -> real)
    requires multiset(q) == multiset(members) && forall x | 0 <= x < |members| :: members[x].weight >= 1
    ensures Sampled(members, round, reals) == q && forall n: nat :: 0.0 <= reals(n) < 1.0
    decreases |members|
  {
    hide Pick, Scaled, TotalWeight;
    SameCount(q, members);
    if members == [] {
      reals := (n: nat) => 0.0;
    } else {
      assert q[0] in multiset(members);
      var k :| 0 <= k < |members| && members[k] == q[0];
      var draw := PickableDraw(members, k);
      var rest := Without(members, k);
      RestIsPermutation(members, q, k);
      var later := SamplingReaches(rest, q[1..], round + 1);
      reals := Redrawn(later, round, draw);
      SameDrawsSameSample(rest, round + 1, reals, later);
      assert FirstPick(members, round, reals) == k;
    }
  }

  lemma {:induction false} SameDrawsSameSample(members: seq<Member>, round: nat, reals: nat -> real, reals': nat -> real)
    requires forall n | n >= round :: reals(n) == reals'(n)
    ensures Sampled(members, round, reals) == Sampled(members, round, reals')
    decreases |members|
  {
    if members != [] { SameDrawsSameSample(Without(members, FirstPick(members, round, reals)), round + 1, reals, reals'); }
  }

  lemma WeightedReachesEveryOrder(g: Group, counter: nat, q: seq<Member>) returns (draws: Draws)
    requires g.strategy == Weighted && g.members != [] && multiset(q) == multiset(g.members)
    requires forall x | 0 <= x < |g.members| :: g.members[x].weight >= 1
    ensures Ordering(g, counter, draws) == q && forall n: nat :: 0.0 <= draws.reals(n) < 1.0
  {
    var reals := SamplingReaches(g.members, q, 0);
    draws := Draws((n: nat) => 0, reals);
  }

  // ---- who comes first ----

  // A weighted pick is the member whose interval of the running total holds the scaled draw.
  lemma {:induction false} PickIff(members: seq<Member>, i: nat, r: real, k: nat)
    requires i < |members| && k < |members| && i <= k
    requires forall x | 0 <= x < |members| :: members[x].weight >= 1
    requires 0.0 <= r < (TotalWeight(members) - TotalWeight(members[..i])) as real
    ensures Pick(members, i, r) == k <==>
              (TotalWeight(members[..k]) - TotalWeight(members[..i])) as real <= r
              < (TotalWeight(members[..k + 1]) - TotalWeight(members[..i])) as real
    ensures Pick(members, i, r) >= i
    decreases |members| - i
  {
    hide TotalWeight;
    OneMoreWeight(members, i);
    WeightsGrow(members, i, k);
    if r - members[i].weight as real >= 0.0 {
      AllWeights(members);
      assert i + 1 < |members|;
      PickIff(members, i + 1, r - members[i].weight as real, if k > i then k else i + 1);
    } else if k > i {
      WeightsGrow(members, i + 1, k);
    }
  }

  lemma OneMoreWeight(members: seq<Member>, i: nat)
    requires i < |members|
    ensures TotalWeight(members[..i + 1]) == TotalWeight(members[..i]) + members[i].weight
  {
    assert members[..i + 1][..i] == members[..i];
  }

  lemma AllWeights(members: seq<Member>)
    ensures TotalWeight(members[..|members|]) == TotalWeight(members)
  {
    assert members[..|members|] == members;
  }

  lemma {:induction false} WeightsGrow(members: seq<Member>, i: nat, k: nat)
    requires i <= k < |members|
    requires forall x | 0 <= x < |members| :: members[x].weight >= 1
    ensures TotalWeight(members[..i]) <= TotalWeight(members[..k]) < TotalWeight(members[..k + 1])
  {
    assert members[..k + 1][..k] == members[..k];
    if i < k {
      WeightsGrow(members, i, k - 1);
      assert members[..k][..k - 1] == members[..k - 1];
    }
  }

  // With weights of at least 1, member k is tried first exactly when the draw, scaled to the total weight,
  // falls in k's own interval: its chance is its share of the weight.
  lemma WeightedFirstIff(members: seq<Member>, draw: real, k: nat)
    requires k < |members| && 0.0 <= draw < 1.0
    requires forall x | 0 <= x < |members| :: members[x].weight >= 1
    ensures Pick(members, 0, Scaled(draw, members)) == k
            <==> TotalWeight(members[..k]) as real <= Scaled(draw, members) < TotalWeight(members[..k + 1]) as real
  {
    TotalIsPositive(members);
    ScaledInRange(draw, members, TotalWeight(members) as real);
    FirstPickIff(members, Scaled(draw, members), k);
  }

  lemma FirstPickIff(members: seq<Member>, r: real, k: nat)
    requires k < |members| && 0.0 <= r < TotalWeight(members) as real
    requires forall x | 0 <= x < |members| :: members[x].weight >= 1
    ensures Pick(members, 0, r) == k <==> TotalWeight(members[..k]) as real <= r < TotalWeight(members[..k + 1]) as real
  {
    assert members[..0] == [];
    PickIff(members, 0, r, k);
  }

  lemma ScaledInRange(draw: real, members: seq<Member>, total: real)
    requires 0.0 <= draw < 1.0 && total == TotalWeight(members) as real && total > 0.0
    ensures 0.0 <= Scaled(draw, members) < total
  {
    ScaledDraw(draw, total);
    assert Scaled(draw, members) == draw * total;
  }

  lemma TotalIsPositive(members: seq<Member>)
    requires members != [] && forall x | 0 <= x < |members| :: members[x].weight >= 1
    ensures TotalWeight(members) >= 1
  {
    WeightsGrow(members, 0, |members| - 1);
    assert members[..|members| - 1 + 1] == members && members[..0] == [];
  }

  lemma WeightedHead(g: Group, counter: nat, draws: Draws)
    requires g.strategy == Weighted && g.members != []
    ensures Ordering(g, counter, draws)[0] == g.members[Pick(g.members, 0, Scaled(draws.reals(0), g.members))]
  {
    var idx := FirstPick(g.members, 0, draws.reals);
    assert Sampled(g.members, 0, draws.reals)[0] == g.members[idx];
  }

  lemma ScaledDraw(u: real, total: real)
    requires 0.0 <= u < 1.0 && total > 0.0
    ensures 0.0 <= u * total < total
  {
    assert (1.0 - u) * total > 0.0;
  }

  // How many of `entries` consecutive round-robin entries, from a given counter value, put member i first.
  function FirstCount(counter: nat, entries: nat, n: nat, i: nat): nat
    requires n > 0
  {
    if entries == 0 then 0
    else FirstCount(counter, entries - 1, n, i) + if (counter + entries - 1) % n == i then 1 else 0
  }

  lemma DivModIs(x: nat, n: nat, q: nat, r: nat)
    requires r < n && x == q * n + r
    ensures x / n == q && x % n == r
  {
    var k := x / n - q;
    assert k * n == r - x % n;
    assert k >= 1 ==> k * n >= n;
    assert k <= -1 ==> k * n + n <= 0;
  }

  lemma DivModOfSum(a: nat, b: nat, n: nat)
    requires n > 0
    ensures var r := a % n + b % n;
            (a + b) / n == a / n + b / n + (if r < n then 0 else 1) && (a + b) % n == if r < n then r else r - n
  {
    var qa, ra, qb, rb := a / n, a % n, b / n, b % n;
    SumOfParts(qa, ra, qb, rb, n);
    if ra + rb < n {
      DivModIs(a + b, n, qa + qb, ra + rb);
    } else {
      DivModIs(a + b, n, qa + qb + 1, ra + rb - n);
    }
  }

  lemma SumOfParts(qa: nat, ra: nat, qb: nat, rb: nat, n: nat)
    ensures (qa * n + ra) + (qb * n + rb) == (qa + qb) * n + (ra + rb)
    ensures (qa + qb) * n + (ra + rb) == (qa + qb + 1) * n + (ra + rb - n)
  {
  }

  // The number of values below x that leave remainder i.
  function Below(x: nat, n: nat, i: nat): nat
    requires i < n
  {
    x / n + if x % n > i then 1 else 0
  }

  lemma {:induction false} FirstCountIs(counter: nat, entries: nat, n: nat, i: nat)
    requires i < n
    ensures FirstCount(counter, entries, n, i) == Below(counter + entries, n, i) - Below(counter, n, i)
  {
    if entries > 0 {
      FirstCountIs(counter, entries - 1, n, i);
      var x := counter + entries - 1;
      if n == 1 {
        DivModIs(x, 1, x, 0);
        DivModIs(x + 1, 1, x + 1, 0);
      } else {
        DivModIs(1, n, 0, 1);
        DivModOfSum(x, 1, n);
      }
    }
  }

  lemma ConsecutiveIsFair(counter: nat, entries: nat, n: nat, i: nat)
    requires i < n
    ensures entries / n <= FirstCount(counter, entries, n, i) <= entries / n + if entries % n == 0 then 0 else 1
  {
    FirstCountIs(counter, entries, n, i);
    DivModOfSum(counter, entries, n);
  }

  // The counter a round-robin group shows after k entries.
  function CounterAfter(start: nat, k: nat): nat {
    if k == 0 then start else (CounterAfter(start, k - 1) + 1) % UINT64_LIMIT
  }

  lemma {:induction false} CountersAreConsecutive(start: nat, k: nat)
    requires start + k < UINT64_LIMIT
    ensures CounterAfter(start, k) == start + k
  {
    if k > 0 { CountersAreConsecutive(start, k - 1); }
  }

  // How many of the group's next `entries` entries put member m first.
  function TimesFirst(g: Group, start: nat, entries: nat, draws: nat -> Draws, m: Member): nat
    requires g.members != []
  {
    if entries == 0 then 0
    else
      var order := Ordering(g, CounterAfter(start, entries - 1), draws(entries - 1));
      TimesFirst(g, start, entries - 1, draws, m) + if order != [] && order[0] == m then 1 else 0
  }

  // The member at the counter's remainder comes first.
  lemma RoundRobinHead(g: Group, counter: nat, draws: Draws, i: nat)
    requires g.strategy == RoundRobin && i < |g.members| && CleanMembers(g.members, g.name)
    ensures Ordering(g, counter, draws) != []
    ensures Ordering(g, counter, draws)[0] == g.members[i] <==> counter % |g.members| == i
  {
    var start := counter % |g.members|;
    assert Rotated(g.members, start)[0] == g.members[start];
    assert start < i ==> g.members[start].model != g.members[i].model;
    assert i < start ==> g.members[i].model != g.members[start].model;
  }

  lemma {:induction false} TimesFirstIs(g: Group, start: nat, entries: nat, draws: nat -> Draws, i: nat)
    requires g.strategy == RoundRobin && i < |g.members| && CleanMembers(g.members, g.name)
    requires start + entries <= UINT64_LIMIT
    ensures TimesFirst(g, start, entries, draws, g.members[i]) == FirstCount(start, entries, |g.members|, i)
  {
    hide CounterAfter, Ordering, CleanMembers;
    if entries > 0 {
      TimesFirstIs(g, start, entries - 1, draws, i);
      CountersAreConsecutive(start, entries - 1);
      RoundRobinHead(g, start + entries - 1, draws(entries - 1), i);
    }
  }

  // Round-robin is fair: over any number of entries, from any counter value, each member is tried first as
  // often as every other, up to one.
  lemma RoundRobinIsFair(g: Group, start: nat, entries: nat, draws: nat -> Draws, i: nat)
    requires g.strategy == RoundRobin && i < |g.members| && CleanMembers(g.members, g.name)
    requires start + entries <= UINT64_LIMIT
    ensures var n, times := |g.members|, TimesFirst(g, start, entries, draws, g.members[i]);
            entries / n <= times <= entries / n + if entries % n == 0 then 0 else 1
  {
    TimesFirstIs(g, start, entries, draws, i);
    ConsecutiveIsFair(start, entries, |g.members|, i);
  }

  // ---- the same under any interleaving ----

  // The values that concurrent requests draw, in whatever order the requests go on: the counter hands out each
  // value of a stretch once, as far as a uint64 counts.
  predicate DrawnFrom(drawn: seq<nat>, start: nat) {
    && start + |drawn| <= UINT64_LIMIT
    && (forall k | 0 <= k < |drawn| :: start <= drawn[k] < start + |drawn|)
    && forall j, k | 0 <= j < k < |drawn| :: drawn[j] != drawn[k]
  }

  // How many of these requests put member m first.
  function HeadsAmong(g: Group, drawn: seq<nat>, draws: nat -> Draws, m: Member): nat
    requires g.members != []
  {
    if drawn == [] then 0
    else
      var last := |drawn| - 1;
      var order := Ordering(g, drawn[last], draws(last));
      HeadsAmong(g, drawn[..last], draws, m) + if order != [] && order[0] == m then 1 else 0
  }

  function WithRemainder(values: set<nat>, n: nat, i: nat): set<nat>
    requires n > 0
  {
    set v | v in values && v % n == i
  }

  function ValuesOf(drawn: seq<nat>): set<nat> {
    set v | v in drawn
  }

  function Stretch(start: nat, count: nat): set<nat> {
    if count == 0 then {} else Stretch(start, count - 1) + {start + count - 1}
  }

  lemma {:induction false} InStretch(start: nat, count: nat)
    ensures forall v :: v in Stretch(start, count) <==> start <= v < start + count
  {
    if count > 0 { InStretch(start, count - 1); }
  }

  lemma WithOneMore(values: set<nat>, v: nat, n: nat, i: nat)
    requires n > 0 && v !in values
    ensures |WithRemainder(values + {v}, n, i)| == |WithRemainder(values, n, i)| + if v % n == i then 1 else 0
  {
    assert WithRemainder(values + {v}, n, i) == WithRemainder(values, n, i) + if v % n == i then {v} else {};
  }

  lemma {:induction false} HeadsAreCounted(g: Group, drawn: seq<nat>, draws: nat -> Draws, i: nat)
    requires g.strategy == RoundRobin && i < |g.members| && CleanMembers(g.members, g.name)
    requires forall j, k | 0 <= j < k < |drawn| :: drawn[j] != drawn[k]
    ensures HeadsAmong(g, drawn, draws, g.members[i]) == |WithRemainder(ValuesOf(drawn), |g.members|, i)|
  {
    hide Ordering, CleanMembers, WithRemainder;
    if drawn == [] {
      NoRemainders(|g.members|, i);
      assert ValuesOf(drawn) == {};
    } else {
      var front, last := drawn[..|drawn| - 1], drawn[|drawn| - 1];
      HeadsAreCounted(g, front, draws, i);
      RoundRobinHead(g, last, draws(|front|), i);
      assert drawn == front + [last] && last !in front;
      assert ValuesOf(drawn) == ValuesOf(front) + {last};
      WithOneMore(ValuesOf(front), last, |g.members|, i);
    }
  }

  lemma NoRemainders(n: nat, i: nat)
    requires n > 0
    ensures WithRemainder({}, n, i) == {}
  {
  }

  lemma {:induction false} StretchIsCounted(start: nat, count: nat, n: nat, i: nat)
    requires n > 0
    ensures |WithRemainder(Stretch(start, count), n, i)| == FirstCount(start, count, n, i) && |Stretch(start, count)| == count
  {
    hide WithRemainder;
    if count == 0 {
      NoRemainders(n, i);
    } else {
      StretchIsCounted(start, count - 1, n, i);
      InStretch(start, count - 1);
      WithOneMore(Stretch(start, count - 1), start + count - 1, n, i);
    }
  }

  lemma {:induction false} DistinctValues(drawn: seq<nat>)
    requires forall j, k | 0 <= j < k < |drawn| :: drawn[j] != drawn[k]
    ensures |ValuesOf(drawn)| == |drawn|
  {
    if drawn != [] {
      var front, last := drawn[..|drawn| - 1], drawn[|drawn| - 1];
      DistinctValues(front);
      assert drawn == front + [last] && last !in front;
      assert ValuesOf(drawn) == ValuesOf(front) + {last};
    }
  }

  lemma {:induction false} FullSubset(a: set<nat>, b: set<nat>)
    requires a <= b && |a| == |b|
    ensures a == b
  {
    if v :| v in b && v !in a {
      SmallerSubset(a, b - {v});
    }
  }

  lemma {:induction false} SmallerSubset(a: set<nat>, b: set<nat>)
    requires a <= b
    ensures |a| <= |b|
  {
    if v :| v in a { SmallerSubset(a - {v}, b - {v}); }
  }

  // Fairness does not depend on how concurrent requests interleave: of any requests that drew the values of a
  // stretch, in any order, each member heads as many as every other, up to one.
  lemma ConcurrentRoundRobinIsFair(g: Group, start: nat, drawn: seq<nat>, draws: nat -> Draws, i: nat)
    requires g.strategy == RoundRobin && i < |g.members| && CleanMembers(g.members, g.name) && DrawnFrom(drawn, start)
    ensures var n, heads := |g.members|, HeadsAmong(g, drawn, draws, g.members[i]);
            |drawn| / n <= heads <= |drawn| / n + if |drawn| % n == 0 then 0 else 1
  {
    HeadsAreCounted(g, drawn, draws, i);
    DistinctValues(drawn);
    StretchIsCounted(start, |drawn|, |g.members|, i);
    InStretch(start, |drawn|);
    FullSubset(ValuesOf(drawn), Stretch(start, |drawn|));
    ConsecutiveIsFair(start, |drawn|, |g.members|, i);
  }
}
