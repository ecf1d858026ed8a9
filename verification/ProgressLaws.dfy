// A group does not give up early: before it reports a failure it would itself fail over from, every planned
// leaf has been tried to the end or the group's attempts are spent.
module ProgressLaws {
  import opened Config
  import opened Errors
  import opened Cooldown
  import opened Schedule
  import opened Planning
  import opened Transport
  import opened Routing
  import opened BudgetLaws
  import opened TraceLaws

  predicate CallTo(e: Event, path: seq<Name>, leaf: Name) {
    e.Called? && e.leaf == leaf && e.path == path
  }

  // From position i the leaf was called k times in a row.
  predicate CallsAt(tr: seq<Event>, i: nat, k: nat, path: seq<Name>, leaf: Name) {
    i + k <= |tr| && forall j | i <= j < i + k :: CallTo(tr[j], path, leaf)
  }

  predicate EndsInError(tr: seq<Event>, i: nat, k: nat) {
    0 < k && i + k <= |tr| && tr[i + k - 1].Called? && tr[i + k - 1].attempt.outcome.Erred?
  }

  // Those calls used up all the leaf's tries, or ended in an upstream error.
  predicate UsedUpAt(tr: seq<Event>, i: nat, k: nat, path: seq<Name>, leaf: Name, tries: int) {
    && k > 0 && CallsAt(tr, i, k, path, leaf)
    && (k == tries || EndsInError(tr, i, k))
  }

  predicate EntryTo(e: Event, path: seq<Name>, g: Group) {
    e.Drafted? && e.path == path + [g.name] && e.group == Some(g)
  }

  // A leaf has been called for all its tries; a group has been entered, and planned for.
  ghost predicate UsedUp(cfg: Config, tr: seq<Event>, from: nat, path: seq<Name>, name: Name, tries: int) {
    match FindVirtual(cfg, name)
    case None => exists i: nat, k: nat :: from <= i && UsedUpAt(tr, i, k, path, name, tries)
    case Some(g) => exists i :: from <= i < |tr| && EntryTo(tr[i], path, g)
  }

  ghost predicate AllUsedUp(cfg: Config, tr: seq<Event>, from: nat, path: seq<Name>, targets: seq<Target>) {
    forall j | 0 <= j < |targets| :: UsedUp(cfg, tr, from, path, targets[j].model, targets[j].tries)
  }

  lemma UsedUpStays(cfg: Config, tr: seq<Event>, tr': seq<Event>, from: nat, from': nat, path: seq<Name>, name: Name, tries: int)
    requires UsedUp(cfg, tr, from, path, name, tries) && tr <= tr' && from' <= from
    ensures UsedUp(cfg, tr', from', path, name, tries)
  {
    hide FindVirtual;
    match FindVirtual(cfg, name)
    case None =>
      var i: nat, k: nat :| from <= i && UsedUpAt(tr, i, k, path, name, tries);
      assert UsedUpAt(tr', i, k, path, name, tries);
    case Some(g) =>
      var i :| from <= i < |tr| && EntryTo(tr[i], path, g);
      assert EntryTo(tr'[i], path, g);
  }

  // ---- one leaf ----

  // An upstream error that ends the whole group is one the group does not fail over from.
  lemma StoppingErrorsDoNotFailOver(e: HostError, onClientError: bool)
    requires !Failover(Classify(e.status, e.message), onClientError)
    ensures !FailsOver(UpstreamFailure(e, Classify(e.status, e.message)), onClientError)
  {
    ClientErrorIff(e.status, e.message);
  }

  // The tries on a leaf from a given one on: k further calls in a row, as many as were left unless the last
  // one failed upstream or the attempts ran out.
  ghost predicate Progressed(p: Plan, t: Target, path: seq<Name>, try: nat, attempts: nat, w: World, x: LeafResult, w': World, k: nat) {
    && w.trace <= w'.trace
    && match x
       case Go(n, _) =>
         && n == attempts + k && w'.calls == w.calls + k && CallsAt(w'.trace, |w.trace|, k, path, t.model)
         && (try <= t.tries ==> try + k <= t.tries)
         && (try + k >= t.tries || n >= p.maxAttempts || EndsInError(w'.trace, |w.trace|, k))
       case Stop(r) =>
         r.Rejected? && !Terminal(r.failure) ==>
           && (p.isGroup ==> !FailsOver(r.failure, p.failoverClient))
           && w'.calls == w.calls + k && CallsAt(w'.trace, |w.trace|, k, path, t.model) && EndsInError(w'.trace, |w.trace|, k)
  }

  lemma OneMoreCall(p: Plan, t: Target, path: seq<Name>, try: nat, attempts: nat, w: World, w1: World, e: Event,
                    x: LeafResult, w': World, k: nat)
    requires w1.trace == w.trace + [e] && w1.calls == w.calls + 1 && CallTo(e, path, t.model)
    requires try < t.tries && Progressed(p, t, path, try + 1, attempts + 1, w1, x, w', k)
    ensures Progressed(p, t, path, try, attempts, w, x, w', k + 1)
  {
    hide FailsOver, TerminalCode;
    assert w'.trace[|w.trace|] == e;
  }

  lemma OnlyCall(p: Plan, t: Target, path: seq<Name>, try: nat, attempts: nat, w: World, w1: World, call: Event, record: Event,
                 x: LeafResult, w': World)
    requires w1.trace == w.trace + [call] && w1.calls == w.calls + 1 && CallTo(call, path, t.model)
    requires w'.trace == w1.trace + [record] && w'.calls == w1.calls && try < t.tries
    requires match x
             case Go(n, _) => n == attempts + 1 && call.attempt.outcome.Erred?
             case Stop(r) =>
               r.Rejected? && !Terminal(r.failure) ==>
                 call.attempt.outcome.Erred? && (p.isGroup ==> !FailsOver(r.failure, p.failoverClient))
    ensures Progressed(p, t, path, try, attempts, w, x, w', 1)
  {
    hide FailsOver, TerminalCode;
    assert w'.trace[|w.trace|] == call;
  }

  lemma NoMoreCalls(p: Plan, t: Target, path: seq<Name>, try: nat, attempts: nat, w: World, x: LeafResult, w': World)
    requires w.trace <= w'.trace && w'.calls == w.calls
    requires match x
             case Go(n, _) => n == attempts && (try >= t.tries || n >= p.maxAttempts)
             case Stop(r) => r.Rejected? && Terminal(r.failure)
    ensures Progressed(p, t, path, try, attempts, w, x, w', 0)
  {
    hide FailsOver, TerminalCode;
  }

  lemma {:induction false} TriesProgress(env: Env, cfg: Config, req: Req, p: Plan, t: Target, try: nat, attempts: nat,
                                         last: Option<Failure>, mismatch: Option<string>, w: World) returns (k: nat)
    ensures var (x, w') := Tries(env, cfg, req, p, t, try, attempts, last, mismatch, w);
            Progressed(p, t, req.path, try, attempts, w, x, w', k)
    decreases t.tries - try
  {
    hide Tries, NextAttempt, Classify, MismatchMessage, MismatchFailure, UpstreamFailure, FailureEvent, Refusal, FailsOver,
         TerminalCode, Progressed, AncestorExhausted, Failover;
    k := 0;
    if try < t.tries && attempts < p.maxAttempts {
      TriesStep(env, cfg, req, p, t, try, attempts, last, mismatch, w);
    } else {
      TriesEnd(env, cfg, req, p, t, try, attempts, last, mismatch, w);
    }
    var (x, w') := Tries(env, cfg, req, p, t, try, attempts, last, mismatch, w);
    if try < t.tries && attempts < p.maxAttempts && Refusal(w, req.path) == None {
      var a, w1 := NextAttempt(env, w, t), Call(env, req, t, w);
      var call := Called(w.calls, t.model, req.path, t.expectation, a);
      if a.outcome.Mismatched? {
        k := TriesProgress(env, cfg, req, p, t, try + 1, attempts + 1, last, Some(OrUnknown(a.outcome.actual)), w1);
        OneMoreCall(p, t, req.path, try, attempts, w, w1, call, x, w', k);
      } else {
        if a.outcome.Erred? {
          var e := a.outcome.error;
          if !Failover(Classify(e.status, e.message), p.failoverClient) { StoppingErrorsDoNotFailOver(e, p.failoverClient); }
        }
        if a.outcome.Cancelled? { CancellationIsTerminal(a.outcome.message); }
        OnlyCall(p, t, req.path, try, attempts, w, w1, call, w'.trace[|w.trace| + 1], x, w');
      }
      k := if a.outcome.Mismatched? then k + 1 else 1;
    } else {
      RefusalsAreTerminal(w, req.path);
      NoMoreCalls(p, t, req.path, try, attempts, w, x, w');
    }
  }

  lemma RefusalsAreTerminal(w: World, path: seq<Name>)
    ensures Refusal(w, path).Some? ==> Terminal(Refusal(w, path).value)
  {
  }

  lemma CancellationIsTerminal(m: string)
    ensures Terminal(RequestCancelled(m))
  {
  }

  // ---- one group ----

  lemma TotalFromFront(targets: seq<Target>, i: nat)
    requires i < |targets|
    ensures TotalTries(targets[i..]) == targets[i].tries + TotalTries(targets[i + 1..])
    decreases |targets|
  {
    var rest := targets[i..];
    if |rest| == 1 {
      assert rest[..0] == [] && targets[i + 1..] == [];
    } else {
      var front := targets[..|targets| - 1];
      TotalFromFront(front, i);
      assert rest[..|rest| - 1] == front[i..] && targets[i + 1..][..|targets[i + 1..]| - 1] == front[i + 1..];
    }
  }

  lemma {:induction false} TriesAddUp(targets: seq<Target>)
    requires forall t | t in targets :: t.tries >= 1
    ensures TotalTries(targets) >= |targets|
  {
    if targets != [] { TriesAddUp(targets[..|targets| - 1]); }
  }

  // The group ran out of attempts before it ran out of tries.
  predicate Spent(p: Plan, i: nat, attempts: nat, w: World, w': World)
    requires i <= |p.targets|
  {
    p.maxAttempts <= attempts + (w'.calls - w.calls) && p.maxAttempts < attempts + TotalTries(p.targets[i..])
  }

  // What an ordinary failure of the targets from the i-th on means, where the group itself would go on.
  ghost predicate TriedAll(cfg: Config, req: Req, p: Plan, i: nat, attempts: nat, w: World, r: Result, w': World)
    requires i <= |p.targets|
  {
    r.Rejected? && !Terminal(r.failure) && FailsOver(r.failure, p.failoverClient) ==>
      && (Spent(p, i, attempts, w, w') || AllUsedUp(cfg, w'.trace, |w.trace|, req.path, p.targets[i..]))
      && (|req.path| > 1 ==> NoneSpent(w'.budgets))
  }

  predicate NoneSpent(budgets: seq<int>) {
    forall k | 0 <= k < |budgets| :: budgets[k] != 0
  }

  lemma FinishProgress(req: Req, p: Plan, attempts: nat, last: Option<Failure>, w: World)
    ensures var (r, w') := Finish(req, p, attempts, last, w);
            && w.trace <= w'.trace && w'.calls == w.calls && w'.budgets == w.budgets && r.Rejected?
            && (!Terminal(r.failure) && |req.path| > 1 ==> NoneSpent(w'.budgets))
  {
    hide FinalFailure;
  }

  lemma {:induction false} TargetsProgress(env: Env, cfg: Config, req: Req, p: Plan, i: nat, attempts: nat,
                                           last: Option<Failure>, w: World)
    requires Usable(cfg) && |req.path| <= MAX_GROUP_DEPTH && i <= |p.targets|
    requires p.isGroup && attempts < p.maxAttempts && forall t | t in p.targets :: t.tries >= 1
    ensures var (r, w') := Targets(env, cfg, req, p, i, attempts, last, w);
            w.trace <= w'.trace && w.calls <= w'.calls && TriedAll(cfg, req, p, i, attempts, w, r, w')
    decreases |p.targets| - i
  {
    hide Tries, Run, FailsOver, Finish, Guarded, UsedUp, TerminalCode, NoneSpent;
    TargetsPay(env, cfg, req, p, i, attempts, last, w);
    if i == |p.targets| {
      FinishProgress(req, p, attempts, last, w);
    } else {
      TotalFromFront(p.targets, i);
      TriesAddUp(p.targets[i + 1..]);
      if IsGroup(cfg, p.targets[i].model) {
        GroupTargetProgress(env, cfg, req, p, i, attempts, last, w);
      } else {
        LeafTargetProgress(env, cfg, req, p, i, attempts, last, w);
      }
    }
  }

  lemma RestUsedUp(cfg: Config, tr: seq<Event>, from: nat, from': nat, path: seq<Name>, targets: seq<Target>, i: nat)
    requires i < |targets| && from' <= from && AllUsedUp(cfg, tr, from, path, targets[i + 1..])
    requires UsedUp(cfg, tr, from', path, targets[i].model, targets[i].tries)
    ensures AllUsedUp(cfg, tr, from', path, targets[i..])
  {
    hide UsedUp;
    forall j | 0 <= j < |targets[i..]| ensures UsedUp(cfg, tr, from', path, targets[i..][j].model, targets[i..][j].tries) {
      if j > 0 {
        assert targets[i..][j] == targets[i + 1..][j - 1];
        UsedUpStays(cfg, tr, tr, from, from', path, targets[i..][j].model, targets[i..][j].tries);
      }
    }
  }

  // Unless it ends the whole request, a run of a group has entered it.
  lemma GroupIsEntered(env: Env, cfg: Config, req: Req, w: World, g: Group, tries: int)
    requires Usable(cfg) && |req.path| <= MAX_GROUP_DEPTH && FindVirtual(cfg, req.model) == Some(g)
    requires var r := Run(env, cfg, req, w).0; r.Rejected? ==> !Terminal(r.failure)
    ensures UsedUp(cfg, Run(env, cfg, req, w).1.trace, |w.trace|, req.path, req.model, tries)
  {
    hide PlanFor, Targets, FindVirtual;
    var inner, w1 := Entered(g, req), WithBudget(g, w);
    var plan, w2 := PlanFor(env, cfg, inner, w1), AfterPlanning(env, cfg, inner, w1);
    if plan.Planned? {
      TargetsTrace(env, cfg, inner, plan.plan, 0, 0, None, w2);
      LoggedExtends(w2, Targets(env, cfg, inner, plan.plan, 0, 0, None, w2).1);
    }
    var tr := Run(env, cfg, req, w).1.trace;
    assert tr[|w.trace|] == w2.trace[|w.trace|];
    assert EntryTo(tr[|w.trace|], req.path, g);
  }

  lemma {:induction false} GroupTargetProgress(env: Env, cfg: Config, req: Req, p: Plan, i: nat, attempts: nat,
                                               last: Option<Failure>, w: World)
    requires Usable(cfg) && |req.path| <= MAX_GROUP_DEPTH && i < |p.targets| && IsGroup(cfg, p.targets[i].model)
    requires p.isGroup && attempts < p.maxAttempts && forall t | t in p.targets :: t.tries >= 1
    ensures var (r, w') := Targets(env, cfg, req, p, i, attempts, last, w);
            w.trace <= w'.trace && w.calls <= w'.calls && TriedAll(cfg, req, p, i, attempts, w, r, w')
    decreases |p.targets| - i, 0
  {
    hide Run, FailsOver, UsedUp, AllUsedUp, Logged, Orderly, Announces, TerminalCode, FindVirtual, NoneSpent, Finish;
    var child := req.(model := p.targets[i].model);
    var (r1, w1) := Run(env, cfg, child, w);
    RunTrace(env, cfg, child, w);
    LoggedExtends(w, w1);
    RunPays(env, cfg, child, w);
    if r1.Rejected? && !Terminal(r1.failure) && FailsOver(r1.failure, p.failoverClient) {
      TargetsProgress(env, cfg, req, p, i + 1, attempts, Some(r1.failure), w1);
      var (r, w') := Targets(env, cfg, req, p, i, attempts, last, w);
      TotalFromFront(p.targets, i);
      if AllUsedUp(cfg, w'.trace, |w1.trace|, req.path, p.targets[i + 1..]) {
        var t := p.targets[i];
        GroupIsEntered(env, cfg, child, w, FindVirtual(cfg, t.model).value, t.tries);
        UsedUpStays(cfg, w1.trace, w'.trace, |w.trace|, |w.trace|, req.path, t.model, t.tries);
        RestUsedUp(cfg, w'.trace, |w1.trace|, |w.trace|, req.path, p.targets, i);
      }
    }
  }

  lemma {:induction false} LeafTargetProgress(env: Env, cfg: Config, req: Req, p: Plan, i: nat, attempts: nat,
                                              last: Option<Failure>, w: World)
    requires Usable(cfg) && |req.path| <= MAX_GROUP_DEPTH && i < |p.targets| && !IsGroup(cfg, p.targets[i].model)
    requires p.isGroup && attempts < p.maxAttempts && forall t | t in p.targets :: t.tries >= 1
    ensures var (r, w') := Targets(env, cfg, req, p, i, attempts, last, w);
            w.trace <= w'.trace && w.calls <= w'.calls && TriedAll(cfg, req, p, i, attempts, w, r, w')
    decreases |p.targets| - i, 0
  {
    hide Tries, FailsOver, UsedUp, AllUsedUp, Finish, CallsAt, TerminalCode, NoneSpent;
    var t := Guarded(cfg, req, p.targets[i]);
    var (r, w') := Targets(env, cfg, req, p, i, attempts, last, w);
    var (x, w1) := Tries(env, cfg, req, p, t, 0, attempts, last, None, w);
    var k := TriesProgress(env, cfg, req, p, t, 0, attempts, last, None, w);
    TotalFromFront(p.targets, i);
    TriesAddUp(p.targets[i + 1..]);
    TargetsPay(env, cfg, req, p, i, attempts, last, w);
    TriesPay(env, cfg, req, p, t, 0, attempts, last, None, w);
    if x.Go? {
      FinishProgress(req, p, x.attempts, x.last, w1);
      var done := k == t.tries || EndsInError(w1.trace, |w.trace|, k);
      if done {
        UsedUpHere(cfg, w1.trace, |w.trace|, k, req.path, t.model, t.tries);
      }
      if x.attempts < p.maxAttempts {
        TargetsProgress(env, cfg, req, p, i + 1, x.attempts, x.last, w1);
        UsedUpStays(cfg, w1.trace, w'.trace, |w.trace|, |w.trace|, req.path, t.model, t.tries);
        if AllUsedUp(cfg, w'.trace, |w1.trace|, req.path, p.targets[i + 1..]) {
          RestUsedUp(cfg, w'.trace, |w1.trace|, |w.trace|, req.path, p.targets, i);
        }
      } else if done && i + 1 == |p.targets| {
        UsedUpStays(cfg, w1.trace, w'.trace, |w.trace|, |w.trace|, req.path, t.model, t.tries);
        OnlyOneLeft(cfg, w'.trace, |w.trace|, req.path, p.targets, i);
      }
    }
  }

  lemma UsedUpHere(cfg: Config, tr: seq<Event>, i: nat, k: nat, path: seq<Name>, leaf: Name, tries: int)
    requires !IsGroup(cfg, leaf) && UsedUpAt(tr, i, k, path, leaf, tries)
    ensures UsedUp(cfg, tr, i, path, leaf, tries)
  {
  }

  lemma OnlyOneLeft(cfg: Config, tr: seq<Event>, from: nat, path: seq<Name>, targets: seq<Target>, i: nat)
    requires i + 1 == |targets| && UsedUp(cfg, tr, from, path, targets[i].model, targets[i].tries)
    ensures AllUsedUp(cfg, tr, from, path, targets[i..])
  {
    hide UsedUp;
  }

  // ---- any entry into a group ----

  // What the plan of an entry has to try: the members that are ready then or, when none is, all of them.
  ghost predicate ToTry(cfg: Config, t: Table, now: Instant, ordered: seq<Member>, m: Member) {
    && m in ordered
    && (MemberState(cfg, t, now, m.model).0 || forall x | x in ordered :: !MemberState(cfg, t, now, x.model).0)
  }

  // Each of them has been: a leaf 1 + max_retries times in a row, unless an upstream error cut that short.
  ghost predicate MembersUsedUp(cfg: Config, t: Table, now: Instant, ordered: seq<Member>, tr: seq<Event>, from: nat, path: seq<Name>) {
    forall m | ToTry(cfg, t, now, ordered, m) :: UsedUp(cfg, tr, from, path, m.model, 1 + m.maxRetries)
  }

  lemma MembersAreTargets(cfg: Config, t: Table, now: Instant, g: Group, ordered: seq<Member>, m: Member)
    requires ToTry(cfg, t, now, ordered, m) && GroupPlan(cfg, t, now, g, ordered).Planned?
    ensures exists j :: var xs := GroupPlan(cfg, t, now, g, ordered).plan.targets;
                        0 <= j < |xs| && xs[j].model == m.model && xs[j].tries == 1 + m.maxRetries
  {
    hide MemberState, WithState, StableSort, MemberExpectation, TotalTries, Capped, Names;
    var ready, cooling := WithState(cfg, t, now, ordered, true), WithState(cfg, t, now, ordered, false);
    StateOfKept(cfg, t, now, ordered, true);
    StateOfKept(cfg, t, now, ordered, false);
    var xs := GroupPlan(cfg, t, now, g, ordered).plan.targets;
    var kept := if ready != [] then ready else cooling;
    assert ready != [] ==> ready[0] in ready;
    var i :| 0 <= i < |kept| && kept[i] == m;
    var all := AsTargets(cfg, g, kept);
    assert all[i] == MemberTarget(cfg, g, m) && all[i] in multiset(all);
    if ready == [] { StableSortSorts(n => MemberState(cfg, t, now, n).1, all); }
    assert all[i] in xs;
  }

  lemma TargetsCoverMembers(cfg: Config, t: Table, now: Instant, g: Group, ordered: seq<Member>, tr: seq<Event>, from: nat,
                            path: seq<Name>)
    requires GroupPlan(cfg, t, now, g, ordered).Planned?
    requires AllUsedUp(cfg, tr, from, path, GroupPlan(cfg, t, now, g, ordered).plan.targets)
    ensures MembersUsedUp(cfg, t, now, ordered, tr, from, path)
  {
    hide GroupPlan, ToTry, UsedUp;
    forall m | ToTry(cfg, t, now, ordered, m) ensures UsedUp(cfg, tr, from, path, m.model, 1 + m.maxRetries) {
      MembersAreTargets(cfg, t, now, g, ordered, m);
    }
  }

  lemma MembersHaveTries(cfg: Config, g: Group, members: seq<Member>)
    requires forall m | m in members :: m.maxRetries >= 0
    ensures forall t | t in AsTargets(cfg, g, members) :: t.tries >= 1
  {
    hide MemberExpectation;
    forall i | 0 <= i < |members| ensures AsTargets(cfg, g, members)[i].tries >= 1 { assert members[i] in members; }
  }

  lemma PlannedTargetsHaveTries(cfg: Config, t: Table, now: Instant, g: Group, counter: nat, draws: Draws)
    requires g.members != [] && forall m | m in g.members :: m.maxRetries >= 0
    requires GroupPlan(cfg, t, now, g, Ordering(g, counter, draws)).Planned?
    ensures var p := GroupPlan(cfg, t, now, g, Ordering(g, counter, draws)).plan;
            (forall x | x in p.targets :: x.tries >= 1) && p.maxAttempts == Capped(g, TotalTries(p.targets))
  {
    hide MemberState, WithState, AsTargets, Ordering, StableSort;
    var ordered := Ordering(g, counter, draws);
    OrderKeepsMembers(g, counter, draws);
    StateOfKept(cfg, t, now, ordered, true);
    StateOfKept(cfg, t, now, ordered, false);
    var ready, cooling := WithState(cfg, t, now, ordered, true), WithState(cfg, t, now, ordered, false);
    MembersHaveTries(cfg, g, ready);
    MembersHaveTries(cfg, g, cooling);
    var key := (n: Name) => MemberState(cfg, t, now, n).1;
    SortDependsOnKeysOnly(key, key, AsTargets(cfg, g, cooling));
  }

  lemma AttemptsAreLeft(g: Group, targets: seq<Target>)
    requires targets != [] && forall t | t in targets :: t.tries >= 1
    ensures Capped(g, TotalTries(targets)) >= 1
  {
    TriesAddUp(targets);
  }

  lemma UsedUpSince(cfg: Config, tr: seq<Event>, from: nat, from': nat, path: seq<Name>, targets: seq<Target>)
    requires from' <= from && AllUsedUp(cfg, tr, from, path, targets)
    ensures AllUsedUp(cfg, tr, from', path, targets)
  {
    hide UsedUp;
    forall j | 0 <= j < |targets| ensures UsedUp(cfg, tr, from', path, targets[j].model, targets[j].tries) {
      UsedUpStays(cfg, tr, tr, from, from', path, targets[j].model, targets[j].tries);
    }
  }

  // The same for the targets that an entry has planned.
  ghost predicate PlanTriedOut(cfg: Config, g: Group, path: seq<Name>, t: Table, now: Instant, ordered: seq<Member>,
                               w: World, r: Result, w': World) {
    r.Rejected? && !Terminal(r.failure) && FailsOver(r.failure, g.failoverClient) ==>
      && (|path| > 1 ==> NoneSpent(w'.budgets))
      && ((g.maxAttempts > 0 && w'.calls - w.calls >= g.maxAttempts)
          || MembersUsedUp(cfg, t, now, ordered, w'.trace, |w.trace|, path))
  }

  lemma TargetsTryAllTheyCan(env: Env, cfg: Config, req: Req, w: World, g: Group)
    requires Usable(cfg) && |req.path| <= MAX_GROUP_DEPTH && FindVirtual(cfg, req.model) == Some(g)
    requires forall m | m in g.members :: m.maxRetries >= 0
    requires PlanFor(env, cfg, req, w).Planned?
    ensures var plan, w1 := PlanFor(env, cfg, req, w), AfterPlanning(env, cfg, req, w);
            var (r, w') := Targets(env, cfg, req, plan.plan, 0, 0, None, w1);
            && w'.calls >= w.calls
            && PlanTriedOut(cfg, g, req.path, w.store, env.clock(w.ticks),
                            Ordering(g, CounterOf(w.counters, g), env.draws(w.ticks)), w, r, w')
  {
    hide Targets, FailsOver, TerminalCode, UsedUp, Ordering, StableSort, WithState, AsTargets, MembersUsedUp, TotalTries, NoneSpent;
    var now, ordered := env.clock(w.ticks), Ordering(g, CounterOf(w.counters, g), env.draws(w.ticks));
    var plan := GroupPlan(cfg, w.store, now, g, ordered);
    var p, w1 := plan.plan, AfterPlanning(env, cfg, req, w);
    PlannedTargetsHaveTries(cfg, w.store, now, g, CounterOf(w.counters, g), env.draws(w.ticks));
    var (r, w') := Targets(env, cfg, req, p, 0, 0, None, w1);
    PlansHaveTargets(cfg, w.store, now, g, CounterOf(w.counters, g), env.draws(w.ticks));
    AttemptsAreLeft(g, p.targets);
    TargetsProgress(env, cfg, req, p, 0, 0, None, w1);
    assert p.targets[0..] == p.targets;
    if AllUsedUp(cfg, w'.trace, |w1.trace|, req.path, p.targets) {
      UsedUpSince(cfg, w'.trace, |w1.trace|, |w.trace|, req.path, p.targets);
      TargetsCoverMembers(cfg, w.store, now, g, ordered, w'.trace, |w.trace|, req.path);
    }
  }

  lemma PlansHaveTargets(cfg: Config, t: Table, now: Instant, g: Group, counter: nat, draws: Draws)
    requires g.members != [] && GroupPlan(cfg, t, now, g, Ordering(g, counter, draws)).Planned?
    ensures GroupPlan(cfg, t, now, g, Ordering(g, counter, draws)).plan.targets != []
  {
    hide MemberState, WithState, Ordering, StableSort, TotalTries, Capped, Names, MemberTarget;
    var ordered := Ordering(g, counter, draws);
    OrderKeepsMembers(g, counter, draws);
    assert g.members[0] in multiset(g.members);
    StateOfKept(cfg, t, now, ordered, true);
    StateOfKept(cfg, t, now, ordered, false);
    var ready, cooling := WithState(cfg, t, now, ordered, true), WithState(cfg, t, now, ordered, false);
    if ready == [] {
      assert ordered[0] in ordered && ordered[0] in cooling;
      StableSortSorts(n => MemberState(cfg, t, now, n).1, AsTargets(cfg, g, cooling));
      assert AsTargets(cfg, g, cooling)[0] in multiset(AsTargets(cfg, g, cooling));
    }
  }

  lemma NestedGroupHasAttemptsLeft(env: Env, cfg: Config, req: Req, w: World, g: Group)
    requires Usable(cfg) && |req.path| < MAX_GROUP_DEPTH && g.maxAttempts > 0
    ensures var w' := Execute(env, cfg, Entered(g, req), WithBudget(g, w)).1;
            NoneSpent(w'.budgets) ==> w'.calls - w.calls != g.maxAttempts
  {
    hide Execute;
    var inner := WithBudget(g, w);
    ExecutePays(env, cfg, Entered(g, req), inner);
    assert inner.budgets[|w.budgets|] == g.maxAttempts;
  }

  // Failover goes all the way: when an entry into a group, at whatever depth, ends in an ordinary failure that
  // the group itself would fail over from, then its plan was refused with that failure, or the group was the
  // first to be entered and its max_attempts are spent to the last call, or each member that it had to try has
  // been tried for all its tries. Nested in another group, it then has attempts left, too: when it has not,
  // the failure is a terminal one. A group without max_attempts therefore tries every member.
  lemma GroupTriesAllItCan(env: Env, cfg: Config, req: Req, w: World, g: Group)
    requires Usable(cfg) && |req.path| < MAX_GROUP_DEPTH && g.name !in req.path
    requires FindVirtual(cfg, req.model) == Some(g) && forall m | m in g.members :: m.maxRetries >= 0
    ensures var (r, w') := Run(env, cfg, req, w);
            var now, ordered := env.clock(w.ticks), Ordering(g, CounterOf(w.counters, g), env.draws(w.ticks));
            r.Rejected? && !Terminal(r.failure) && FailsOver(r.failure, g.failoverClient) ==>
              || GroupPlan(cfg, w.store, now, g, ordered) == Refused(r.failure)
              || (req.path == [] && g.maxAttempts > 0 && w'.calls - w.calls == g.maxAttempts)
              || (MembersUsedUp(cfg, w.store, now, ordered, w'.trace, |w.trace|, req.path + [g.name])
                  && (req.path != [] && g.maxAttempts > 0 ==> w'.calls - w.calls < g.maxAttempts))
  {
    hide Targets, FailsOver, TerminalCode, MembersUsedUp, GroupPlan, Ordering, NoneSpent;
    var inner, w1 := Entered(g, req), WithBudget(g, w);
    if PlanFor(env, cfg, inner, w1).Planned? {
      TargetsTryAllTheyCan(env, cfg, inner, w1, g);
      if g.maxAttempts > 0 {
        GroupBudgetHolds(env, cfg, req, w, g);
        NestedGroupHasAttemptsLeft(env, cfg, req, w, g);
      }
    }
  }

  // ---- a direct request ----

  lemma DirectTargets(env: Env, cfg: Config, req: Req, w: World)
    requires Usable(cfg) && req.path == [] && !req.guard && !IsGroup(cfg, req.model)
    ensures var p, w1 := DirectPlan(cfg, req.model), AfterPlanning(env, cfg, req, w);
            && PlanFor(env, cfg, req, w) == Planned(p) && |p.targets| == 1 && p.targets[0].model == req.model
            && p.maxAttempts == p.targets[0].tries
            && var (x, w2) := Tries(env, cfg, req, p, p.targets[0], 0, 0, None, None, w1);
               Run(env, cfg, req, w) == match x
                                        case Stop(r) => (r, w2)
                                        case Go(n, last) => (Rejected(FinalFailure(req, p, last, n)), w2)
  {
    hide Tries, FindRule, FinalFailure, RuleExpectation;
    var p, w1 := DirectPlan(cfg, req.model), AfterPlanning(env, cfg, req, w);
    assert Guarded(cfg, req, p.targets[0]) == p.targets[0];
    assert Run(env, cfg, req, w) == Execute(env, cfg, req, w);
    var (x, w2) := Tries(env, cfg, req, p, p.targets[0], 0, 0, None, None, w1);
    if x.Go? { assert Targets(env, cfg, req, p, 0, 0, None, w1) == Finish(req, p, x.attempts, x.last, w2); }
  }

  // So does a model that is called directly: when its request ends in an ordinary failure, it has been called
  // once and once more for each retry that its guard rule, or else the configuration, allows, unless an
  // upstream error cut that short. Without a rule that is a single call.
  lemma DirectRequestsTryAllTheyCan(env: Env, cfg: Config, model: Name, found: Found)
    requires Usable(cfg) && !IsGroup(cfg, model)
    ensures var (r, w') := Run(env, cfg, RootRequest(model), RootWorld(found));
            var rule := FindRule(cfg.rules, model);
            var tries := if rule == None then 1 else 1 + (if rule.value.maxRetries.Some? then rule.value.maxRetries.value else cfg.guardRetries);
            r.Rejected? && !Terminal(r.failure) && tries >= 1 ==>
              w'.calls >= found.calls && UsedUpAt(w'.trace, 1, w'.calls - found.calls, [], model, tries)
  {
    hide Tries, FindRule, FinalFailure, TerminalCode, CallsAt, RuleExpectation, Run;
    var req, w := RootRequest(model), RootWorld(found);
    var p, w1 := DirectPlan(cfg, model), AfterPlanning(env, cfg, req, w);
    DirectTargets(env, cfg, req, w);
    var k := TriesProgress(env, cfg, req, p, p.targets[0], 0, 0, None, None, w1);
  }
}
