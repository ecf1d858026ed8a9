// Plans govern calls: every leaf call is for a target of the plan its group made on that entry, in the order of
// the plan, and the plan is the one that the cooldown table asked for when it was made.
module PlanLaws {
  import opened Config
  import opened Errors
  import opened Cooldown
  import opened Schedule
  import opened Planning
  import opened Transport
  import opened Routing
  import opened TraceLaws
  import opened PathLaws
  import opened RunLaws
  import History = CooldownHistory

  // ---- reading a log ----

  // The plan in force on a path, and the position in it that the last call was for.
  datatype Stand = Stand(plan: PlanResult, at: nat)

  datatype Scene = Scene(stands: map<seq<Name>, Stand>, ledger: Ledger)

  // The call is for this target, under its expectation and the guard of the path.
  ghost predicate Fits(cfg: Config, e: Event, t: Target)
    requires e.Called?
  {
    && t.model == e.leaf
    && e.expectation == if Protected(cfg, e.path) && t.expectation == None then Some(DefaultExpectation(cfg, e.leaf)) else t.expectation
  }

  // The first target from position i on that the call can be for.
  ghost function NextFit(cfg: Config, e: Event, targets: seq<Target>, i: nat): (k: Option<nat>)
    requires e.Called?
    ensures k.Some? ==> i <= k.value < |targets| && Fits(cfg, e, targets[k.value])
    decreases |targets| - i
  {
    if i >= |targets| then None else if Fits(cfg, e, targets[i]) then Some(i) else NextFit(cfg, e, targets, i + 1)
  }

  lemma {:induction false} FitIsFound(cfg: Config, e: Event, targets: seq<Target>, i: nat, k: nat)
    requires e.Called? && i <= k < |targets| && Fits(cfg, e, targets[k])
    ensures NextFit(cfg, e, targets, i).Some? && NextFit(cfg, e, targets, i).value <= k
    decreases k - i
  {
    hide Fits;
    if !Fits(cfg, e, targets[i]) { FitIsFound(cfg, e, targets, i + 1, k); }
  }

  // A plan drafted from the state that the ledger shows: for the last group on the path, or a direct request.
  ghost predicate RightDraft(env: Env, cfg: Config, l: Ledger, e: Event)
    requires Usable(cfg) && e.Drafted?
  {
    && e.group == FindVirtual(cfg, e.model)
    && (if e.path == [] then e.group.None? else e.group.Some? && e.model == e.path[|e.path| - 1])
    && e.plan == BuildPlan(cfg, l.store, env.clock(l.ticks), e.model, CounterFor(cfg, l.counters, e.model), env.draws(l.ticks))
  }

  ghost predicate Right(env: Env, cfg: Config, s: Scene, e: Event)
    requires Usable(cfg)
  {
    match e
    case Called(k, _, path, expectation, attempt) =>
      && attempt == AttemptOf(env.transport, env.model, k, expectation, |s.ledger.sink|)
      && path in s.stands && s.stands[path].plan.Planned?
      && NextFit(cfg, e, s.stands[path].plan.plan.targets, s.stands[path].at).Some?
    case Drafted(_, _, _, _) => RightDraft(env, cfg, s.ledger, e)
    case _ => true
  }

  ghost function StandsAfter(cfg: Config, stands: map<seq<Name>, Stand>, e: Event): map<seq<Name>, Stand> {
    match e
    case Drafted(path, _, _, plan) => stands[path := Stand(plan, 0)]
    case Called(_, _, path, _, _) =>
      if path in stands && stands[path].plan.Planned? then
        var k := NextFit(cfg, e, stands[path].plan.plan.targets, stands[path].at);
        if k.Some? then stands[path := Stand(stands[path].plan, k.value)] else stands
      else stands
    case _ => stands
  }

  ghost function Next(cfg: Config, s: Scene, e: Event): Scene {
    Scene(StandsAfter(cfg, s.stands, e), Post(s.ledger, e))
  }

  ghost function After(cfg: Config, s: Scene, tr: seq<Event>): Scene {
    if tr == [] then s else Next(cfg, After(cfg, s, tr[..|tr| - 1]), tr[|tr| - 1])
  }

  ghost predicate AllRight(env: Env, cfg: Config, s: Scene, tr: seq<Event>)
    requires Usable(cfg)
  {
    forall i | 0 <= i < |tr| :: RightAt(env, cfg, s, tr, i)
  }

  ghost predicate RightAt(env: Env, cfg: Config, s: Scene, tr: seq<Event>, i: int)
    requires Usable(cfg) && 0 <= i < |tr|
  {
    Right(env, cfg, After(cfg, s, tr[..i]), tr[i])
  }

  lemma {:induction false} AfterConcat(cfg: Config, s: Scene, a: seq<Event>, b: seq<Event>)
    ensures After(cfg, s, a + b) == After(cfg, After(cfg, s, a), b)
  {
    hide Next;
    if b == [] {
      assert a + b == a;
    } else {
      assert (a + b)[..|a + b| - 1] == a + b[..|b| - 1];
      AfterConcat(cfg, s, a, b[..|b| - 1]);
    }
  }

  lemma RightInFront(env: Env, cfg: Config, s: Scene, a: seq<Event>, b: seq<Event>, i: nat)
    requires Usable(cfg) && i < |a| && RightAt(env, cfg, s, a, i)
    ensures RightAt(env, cfg, s, a + b, i)
  {
    hide Right, After;
    assert (a + b)[..i] == a[..i];
  }

  lemma RightBehind(env: Env, cfg: Config, s: Scene, a: seq<Event>, b: seq<Event>, i: nat)
    requires Usable(cfg) && i < |b| && RightAt(env, cfg, After(cfg, s, a), b, i)
    ensures RightAt(env, cfg, s, a + b, |a| + i)
  {
    hide Right, After;
    assert (a + b)[..|a| + i] == a + b[..i];
    AfterConcat(cfg, s, a, b[..i]);
  }

  lemma AllRightConcat(env: Env, cfg: Config, s: Scene, a: seq<Event>, b: seq<Event>)
    requires Usable(cfg) && AllRight(env, cfg, s, a) && AllRight(env, cfg, After(cfg, s, a), b)
    ensures AllRight(env, cfg, s, a + b)
  {
    hide RightAt, After;
    forall i | 0 <= i < |a + b| ensures RightAt(env, cfg, s, a + b, i) {
      if i < |a| { RightInFront(env, cfg, s, a, b, i); } else { RightBehind(env, cfg, s, a, b, i - |a|); }
    }
  }

  lemma {:induction false} LedgerAfter(cfg: Config, s: Scene, tr: seq<Event>)
    ensures After(cfg, s, tr).ledger == Posted(s.ledger, tr)
  {
    hide Post, StandsAfter;
    if tr != [] { LedgerAfter(cfg, s, tr[..|tr| - 1]); }
  }

  // ---- one step after the other ----

  ghost predicate Goes(env: Env, cfg: Config, s: Scene, w: World, w': World)
    requires Usable(cfg)
  {
    Logged(w, w') && s.ledger == LedgerOf(w) && AllRight(env, cfg, s, New(w, w'))
  }

  ghost function There(cfg: Config, s: Scene, w: World, w': World): Scene {
    After(cfg, s, New(w, w'))
  }

  lemma GoesOn(env: Env, cfg: Config, s: Scene, w: World, w1: World, w2: World)
    requires Usable(cfg) && Goes(env, cfg, s, w, w1) && Goes(env, cfg, There(cfg, s, w, w1), w1, w2)
    ensures Goes(env, cfg, s, w, w2) && There(cfg, s, w, w2) == There(cfg, There(cfg, s, w, w1), w1, w2)
  {
    hide AllRight, After, New, Logged;
    LoggedOn(w, w1, w2);
    AllRightConcat(env, cfg, s, New(w, w1), New(w1, w2));
    AfterConcat(cfg, s, New(w, w1), New(w1, w2));
  }

  lemma GoesNowhere(env: Env, cfg: Config, s: Scene, w: World)
    requires Usable(cfg) && s.ledger == LedgerOf(w)
    ensures Goes(env, cfg, s, w, w) && There(cfg, s, w, w) == s
  {
    NothingNew(w);
  }

  lemma LedgerThere(env: Env, cfg: Config, s: Scene, w: World, w': World)
    requires Usable(cfg) && Goes(env, cfg, s, w, w')
    ensures There(cfg, s, w, w').ledger == LedgerOf(w')
  {
    hide AllRight, New;
    LedgerAfter(cfg, s, New(w, w'));
  }

  lemma OneStep(env: Env, cfg: Config, s: Scene, w: World, w': World, e: Event)
    requires Usable(cfg) && s.ledger == LedgerOf(w) && Right(env, cfg, s, e)
    requires Logged(w, w') && New(w, w') == [e]
    ensures Goes(env, cfg, s, w, w') && There(cfg, s, w, w') == Next(cfg, s, e)
  {
    hide Right, Next, Logged, New;
    assert [e][..0] == [];
    assert After(cfg, s, []) == s;
  }

  // ---- who moves where ----

  ghost predicate Same(a: map<seq<Name>, Stand>, b: map<seq<Name>, Stand>, q: seq<Name>) {
    (q in a <==> q in b) && (q in a ==> b[q] == a[q])
  }

  ghost predicate KeptExcept(a: map<seq<Name>, Stand>, b: map<seq<Name>, Stand>, path: seq<Name>) {
    forall q | q != path :: Same(a, b, q)
  }

  ghost predicate KeptOutside(a: map<seq<Name>, Stand>, b: map<seq<Name>, Stand>, path: seq<Name>) {
    forall q | !(path <= q) :: Same(a, b, q)
  }

  ghost predicate KeptUpTo(a: map<seq<Name>, Stand>, b: map<seq<Name>, Stand>, path: seq<Name>) {
    forall q | !(path <= q) || q == path :: Same(a, b, q)
  }

  // On this path plan p is in force, and no call yet was for a target past position i.
  ghost predicate Stands(stands: map<seq<Name>, Stand>, path: seq<Name>, p: Plan, i: nat) {
    path in stands && stands[path].plan == Planned(p) && stands[path].at <= i
  }

  lemma CallMoves(env: Env, cfg: Config, s: Scene, e: Event, p: Plan, i: nat)
    requires Usable(cfg) && e.Called? && Stands(s.stands, e.path, p, i) && i < |p.targets| && Fits(cfg, e, p.targets[i])
    requires e.attempt == AttemptOf(env.transport, env.model, e.index, e.expectation, |s.ledger.sink|)
    ensures Right(env, cfg, s, e)
    ensures var after := Next(cfg, s, e).stands; Stands(after, e.path, p, i) && KeptExcept(s.stands, after, e.path)
  {
    hide Fits, Post, AttemptOf;
    FitIsFound(cfg, e, p.targets, s.stands[e.path].at, i);
  }

  // ---- one leaf ----

  lemma CallGoes(env: Env, cfg: Config, req: Req, p: Plan, i: nat, w: World, s: Scene)
    requires Usable(cfg) && s.ledger == LedgerOf(w) && Stands(s.stands, req.path, p, i) && i < |p.targets|
    requires req.guard == Protected(cfg, req.path)
    ensures var w1 := Call(env, req, Guarded(cfg, req, p.targets[i]), w); var s1 := There(cfg, s, w, w1);
            Goes(env, cfg, s, w, w1) && Stands(s1.stands, req.path, p, i) && KeptExcept(s.stands, s1.stands, req.path)
  {
    hide AttemptOf, Protected, Stands, KeptExcept, Next, Right, Logged, New, There, Goes;
    var t := Guarded(cfg, req, p.targets[i]);
    var call := Called(w.calls, t.model, req.path, t.expectation, NextAttempt(env, w, t));
    CallIsLogged(env, req, t, w);
    CallMoves(env, cfg, s, call, p, i);
    OneStep(env, cfg, s, w, Call(env, req, t, w), call);
  }

  // Records and halts move nothing.
  lemma RecordGoes(env: Env, cfg: Config, s: Scene, w: World, w': World, e: Event)
    requires Usable(cfg) && s.ledger == LedgerOf(w) && (e.Stored? || e.Halted?) && Logged(w, w') && New(w, w') == [e]
    ensures Goes(env, cfg, s, w, w') && There(cfg, s, w, w').stands == s.stands
  {
    hide Logged, New, There, Goes, Post;
    OneStep(env, cfg, s, w, w', e);
  }

  lemma KeptOn(a: map<seq<Name>, Stand>, b: map<seq<Name>, Stand>, c: map<seq<Name>, Stand>, path: seq<Name>)
    requires KeptExcept(a, b, path) && KeptExcept(b, c, path)
    ensures KeptExcept(a, c, path)
  {
    forall q | q != path ensures Same(a, c, q) { assert Same(a, b, q) && Same(b, c, q); }
  }

  lemma KeptAsWas(a: map<seq<Name>, Stand>, path: seq<Name>)
    ensures KeptExcept(a, a, path)
  {
  }

  // On this leaf the log reads right, and only the position in this group's plan moves, up to i at most.
  ghost predicate GoesOnLeaf(env: Env, cfg: Config, s: Scene, w: World, w': World, path: seq<Name>, p: Plan, i: nat)
    requires Usable(cfg)
  {
    var s' := There(cfg, s, w, w');
    Goes(env, cfg, s, w, w') && Stands(s'.stands, path, p, i) && KeptExcept(s.stands, s'.stands, path)
  }

  lemma {:induction false} TriesGo(env: Env, cfg: Config, req: Req, p: Plan, i: nat, try: nat, attempts: nat,
                                   last: Option<Failure>, mismatch: Option<string>, w: World, s: Scene)
    requires Usable(cfg) && s.ledger == LedgerOf(w) && Stands(s.stands, req.path, p, i) && i < |p.targets|
    requires req.guard == Protected(cfg, req.path)
    ensures var w' := Tries(env, cfg, req, p, Guarded(cfg, req, p.targets[i]), try, attempts, last, mismatch, w).1;
            GoesOnLeaf(env, cfg, s, w, w', req.path, p, i)
    decreases p.targets[i].tries - try
  {
    hide NextAttempt, Call, Classify, Strike, Settle, Halt, Refusal, MismatchMessage, MismatchFailure, UpstreamFailure, OrUnknown,
         Tries, Protected, Stands, KeptExcept, There, Goes, Guarded, LedgerOf;
    var t := Guarded(cfg, req, p.targets[i]);
    assert t.tries == p.targets[i].tries by { GuardKeepsTries(cfg, req, p.targets[i]); }
    KeptAsWas(s.stands, req.path);
    var w' := Tries(env, cfg, req, p, t, try, attempts, last, mismatch, w).1;
    if try < t.tries && attempts < p.maxAttempts {
      TriesStep(env, cfg, req, p, t, try, attempts, last, mismatch, w);
      var refusal := Refusal(w, req.path);
      if refusal.Some? {
        HaltGoes(env, cfg, s, w, refusal.value);
      } else {
        var a, w1 := NextAttempt(env, w, t), Call(env, req, t, w);
        var s1 := There(cfg, s, w, w1);
        CallGoes(env, cfg, req, p, i, w, s);
        LedgerThere(env, cfg, s, w, w1);
        match a.outcome {
          case Served(_) => SettleGoes(env, cfg, s1, w1, t.model);
          case Broke(e) => StrikeGoes(env, cfg, s1, w1, t.model, Classify(e.status, e.message), e.message);
          case Erred(e) => StrikeGoes(env, cfg, s1, w1, t.model, Classify(e.status, e.message), e.message);
          case Cancelled(m) => HaltGoes(env, cfg, s1, w1, RequestCancelled(m));
          case Mismatched(actual) => TriesGo(env, cfg, req, p, i, try + 1, attempts + 1, last, Some(OrUnknown(actual)), w1, s1);
        }
        GoesOn(env, cfg, s, w, w1, w');
        KeptAsWas(s1.stands, req.path);
        KeptOn(s.stands, s1.stands, There(cfg, s, w, w').stands, req.path);
      }
    } else {
      TriesEnd(env, cfg, req, p, t, try, attempts, last, mismatch, w);
      if mismatch.Some? {
        StrikeGoes(env, cfg, s, w, t.model, ModelMismatch, MismatchMessage(t.model, mismatch.value));
      } else {
        GoesNowhere(env, cfg, s, w);
      }
    }
  }

  lemma GuardKeepsTries(cfg: Config, req: Req, t: Target)
    ensures Guarded(cfg, req, t).tries == t.tries
  {
  }

  lemma HaltGoes(env: Env, cfg: Config, s: Scene, w: World, f: Failure)
    requires Usable(cfg) && s.ledger == LedgerOf(w)
    ensures Goes(env, cfg, s, w, Halt(w, f)) && There(cfg, s, w, Halt(w, f)).stands == s.stands
  {
    hide Logged, New, There, Goes, LedgerOf;
    HaltIsLogged(w, f);
    RecordGoes(env, cfg, s, w, Halt(w, f), Halted(f));
  }

  lemma SettleGoes(env: Env, cfg: Config, s: Scene, w: World, model: Name)
    requires Usable(cfg) && s.ledger == LedgerOf(w)
    ensures Goes(env, cfg, s, w, Settle(w, model)) && There(cfg, s, w, Settle(w, model)).stands == s.stands
  {
    hide Logged, New, There, Goes, LedgerOf;
    SettleIsLogged(w, model);
    RecordGoes(env, cfg, s, w, Settle(w, model), Stored(History.Success(model)));
  }

  lemma StrikeGoes(env: Env, cfg: Config, s: Scene, w: World, model: Name, kind: Kind, message: string)
    requires Usable(cfg) && s.ledger == LedgerOf(w)
    ensures var w' := Strike(env, cfg, w, model, kind, message);
            Goes(env, cfg, s, w, w') && There(cfg, s, w, w').stands == s.stands
  {
    hide Logged, New, There, Goes, LedgerOf, FailureEvent;
    StrikeIsLogged(env, cfg, w, model, kind, message);
    RecordGoes(env, cfg, s, w, Strike(env, cfg, w, model, kind, message),
               Stored(FailureEvent(env, cfg, env.clock(w.ticks), model, kind, message)));
  }

  // ---- the whole recursion ----

  lemma FinishGoes(env: Env, cfg: Config, req: Req, p: Plan, attempts: nat, last: Option<Failure>, w: World, s: Scene)
    requires Usable(cfg) && s.ledger == LedgerOf(w)
    ensures var w' := Finish(req, p, attempts, last, w).1;
            Goes(env, cfg, s, w, w') && There(cfg, s, w, w').stands == s.stands
  {
    hide Goes, There, FinalFailure, LedgerOf, Halt;
    HaltGoes(env, cfg, s, w, NESTED_EXHAUSTED);
    GoesNowhere(env, cfg, s, w);
  }

  lemma OutsideOn(a: map<seq<Name>, Stand>, b: map<seq<Name>, Stand>, c: map<seq<Name>, Stand>, path: seq<Name>)
    requires (KeptExcept(a, b, path) || KeptUpTo(a, b, path)) && KeptOutside(b, c, path)
    ensures KeptOutside(a, c, path)
  {
    forall q | !(path <= q) ensures Same(a, c, q) { assert Same(a, b, q) && Same(b, c, q); }
  }

  lemma StandsStill(a: map<seq<Name>, Stand>, b: map<seq<Name>, Stand>, path: seq<Name>, p: Plan, i: nat)
    requires KeptUpTo(a, b, path) && Stands(a, path, p, i)
    ensures Stands(b, path, p, i)
  {
    assert Same(a, b, path);
  }

  lemma KeptAll(a: map<seq<Name>, Stand>, path: seq<Name>)
    ensures KeptOutside(a, a, path) && KeptUpTo(a, a, path)
  {
  }

  lemma StandsLater(stands: map<seq<Name>, Stand>, path: seq<Name>, p: Plan, i: nat)
    requires Stands(stands, path, p, i)
    ensures Stands(stands, path, p, i + 1)
  {
  }

  lemma {:induction false} TargetsGo(env: Env, cfg: Config, req: Req, p: Plan, i: nat, attempts: nat, last: Option<Failure>,
                                     w: World, s: Scene)
    requires Usable(cfg) && |req.path| <= MAX_GROUP_DEPTH && i <= |p.targets|
    requires s.ledger == LedgerOf(w) && Stands(s.stands, req.path, p, i) && req.guard == Protected(cfg, req.path)
    ensures var w' := Targets(env, cfg, req, p, i, attempts, last, w).1;
            Goes(env, cfg, s, w, w') && KeptOutside(s.stands, There(cfg, s, w, w').stands, req.path)
    decreases MAX_GROUP_DEPTH - |req.path|, 1, |p.targets| - i
  {
    hide Tries, Run, Finish, FailsOver, Guarded, Protected, Stands, KeptExcept, KeptOutside, KeptUpTo, There, Goes, TerminalCode, LedgerOf;
    var w' := Targets(env, cfg, req, p, i, attempts, last, w).1;
    KeptAll(s.stands, req.path);
    if i == |p.targets| {
      FinishGoes(env, cfg, req, p, attempts, last, w, s);
    } else if IsGroup(cfg, p.targets[i].model) {
      var child := req.(model := p.targets[i].model);
      RunGoes(env, cfg, child, w, s);
      var (r1, w1) := Run(env, cfg, child, w);
      var s1 := There(cfg, s, w, w1);
      LedgerThere(env, cfg, s, w, w1);
      StandsStill(s.stands, s1.stands, req.path, p, i);
      StandsLater(s1.stands, req.path, p, i);
      if r1.Rejected? && !Terminal(r1.failure) && FailsOver(r1.failure, p.failoverClient) {
        TargetsGo(env, cfg, req, p, i + 1, attempts, Some(r1.failure), w1, s1);
        GoesOn(env, cfg, s, w, w1, w');
      } else {
        KeptAll(s1.stands, req.path);
      }
      OutsideOn(s.stands, s1.stands, There(cfg, s, w, w').stands, req.path);
    } else {
      var t := Guarded(cfg, req, p.targets[i]);
      TriesGo(env, cfg, req, p, i, 0, attempts, last, None, w, s);
      var (x, w1) := Tries(env, cfg, req, p, t, 0, attempts, last, None, w);
      var s1 := There(cfg, s, w, w1);
      LedgerThere(env, cfg, s, w, w1);
      StandsLater(s1.stands, req.path, p, i);
      KeptAll(s1.stands, req.path);
      if x.Go? {
        if x.attempts >= p.maxAttempts {
          FinishGoes(env, cfg, req, p, x.attempts, x.last, w1, s1);
        } else {
          TargetsGo(env, cfg, req, p, i + 1, x.attempts, x.last, w1, s1);
        }
        GoesOn(env, cfg, s, w, w1, w');
      }
      OutsideOn(s.stands, s1.stands, There(cfg, s, w, w').stands, req.path);
    }
  }

  lemma DraftGoes(env: Env, cfg: Config, req: Req, w: World, s: Scene)
    requires Usable(cfg) && s.ledger == LedgerOf(w)
    requires if req.path == [] then !IsGroup(cfg, req.model) else IsGroup(cfg, req.model) && req.model == req.path[|req.path| - 1]
    ensures var w1 := AfterPlanning(env, cfg, req, w);
            && Goes(env, cfg, s, w, w1)
            && There(cfg, s, w, w1).stands == s.stands[req.path := Stand(PlanFor(env, cfg, req, w), 0)]
  {
    hide BuildPlan, Logged, New, There, Goes, Post;
    var e := Drafted(req.path, req.model, FindVirtual(cfg, req.model), PlanFor(env, cfg, req, w));
    DraftIsLogged(env, cfg, req, w);
    DraftIsNew(env, cfg, req, w);
    OneStep(env, cfg, s, w, AfterPlanning(env, cfg, req, w), e);
  }

  lemma DraftIsNew(env: Env, cfg: Config, req: Req, w: World)
    requires Usable(cfg)
    ensures New(w, AfterPlanning(env, cfg, req, w)) == [Drafted(req.path, req.model, FindVirtual(cfg, req.model), PlanFor(env, cfg, req, w))]
  {
    hide PlanFor;
  }

  lemma {:induction false} ExecuteGoes(env: Env, cfg: Config, req: Req, w: World, s: Scene)
    requires Usable(cfg) && |req.path| <= MAX_GROUP_DEPTH && s.ledger == LedgerOf(w) && req.guard == Protected(cfg, req.path)
    requires if req.path == [] then !IsGroup(cfg, req.model) else IsGroup(cfg, req.model) && req.model == req.path[|req.path| - 1]
    ensures var w' := Execute(env, cfg, req, w).1;
            Goes(env, cfg, s, w, w') && KeptOutside(s.stands, There(cfg, s, w, w').stands, req.path)
    decreases MAX_GROUP_DEPTH - |req.path|, 2, 0
  {
    hide PlanFor, Targets, Protected, There, Goes, LedgerOf, AfterPlanning, KeptOutside;
    var plan, w1, w' := PlanFor(env, cfg, req, w), AfterPlanning(env, cfg, req, w), Execute(env, cfg, req, w).1;
    var s1 := There(cfg, s, w, w1);
    DraftGoes(env, cfg, req, w, s);
    LedgerThere(env, cfg, s, w, w1);
    KeptAll(s1.stands, req.path);
    if plan.Planned? {
      TargetsGo(env, cfg, req, plan.plan, 0, 0, None, w1, s1);
      GoesOn(env, cfg, s, w, w1, w');
    }
    OutsideOn(s.stands, s1.stands, There(cfg, s, w, w').stands, req.path);
  }

  lemma EnteredGuard(cfg: Config, req: Req, g: Group)
    requires req.guard == Protected(cfg, req.path) && FindVirtual(cfg, req.model) == Some(g)
    ensures Entered(g, req).guard == Protected(cfg, Entered(g, req).path)
  {
    var path := req.path + [g.name];
    if Protected(cfg, req.path) {
      var i :| 0 <= i < |req.path| && GuardOn(cfg, req.path[i]);
      assert GuardOn(cfg, path[i]);
    }
    assert GuardOn(cfg, path[|req.path|]) == g.guard;
  }

  lemma BelowIsUpTo(a: map<seq<Name>, Stand>, b: map<seq<Name>, Stand>, path: seq<Name>, name: Name)
    requires KeptOutside(a, b, path + [name])
    ensures KeptUpTo(a, b, path)
  {
    forall q | !(path <= q) || q == path ensures Same(a, b, q) { assert !(path + [name] <= q); }
  }

  // Frames share the ledger; budgets are not in it.
  lemma FramesGo(env: Env, cfg: Config, s: Scene, w: World, w1: World, w2: World, w': World)
    requires Usable(cfg) && SameBooks(w, w1) && Goes(env, cfg, s, w1, w2) && SameBooks(w2, w')
    ensures Goes(env, cfg, s, w, w') && There(cfg, s, w, w') == There(cfg, s, w1, w2)
  {
    hide AllRight, After, Posted;
    assert New(w, w') == New(w1, w2);
  }

  // Along every run, from any world and at any depth, the log reads right.
  lemma {:induction false} RunGoes(env: Env, cfg: Config, req: Req, w: World, s: Scene)
    requires Usable(cfg) && |req.path| <= MAX_GROUP_DEPTH && s.ledger == LedgerOf(w) && req.guard == Protected(cfg, req.path)
    requires req.path != [] ==> IsGroup(cfg, req.model)
    ensures var w' := Run(env, cfg, req, w).1;
            && Goes(env, cfg, s, w, w')
            && (IsGroup(cfg, req.model) ==> KeptUpTo(s.stands, There(cfg, s, w, w').stands, req.path))
    decreases MAX_GROUP_DEPTH - |req.path|, if IsGroup(cfg, req.model) then 0 else 3, 0
  {
    hide Execute, Protected, There, Goes, KeptOutside, KeptUpTo;
    var g := FindVirtual(cfg, req.model);
    KeptAll(s.stands, req.path);
    if g.None? {
      ExecuteGoes(env, cfg, req, w, s);
    } else if g.value.name in req.path {
      HaltGoes(env, cfg, s, w, GROUP_CYCLE);
    } else if |req.path| + 1 > MAX_GROUP_DEPTH {
      HaltGoes(env, cfg, s, w, TOO_DEEP);
    } else {
      var inner, w1 := Entered(g.value, req), WithBudget(g.value, w);
      EnteredGuard(cfg, req, g.value);
      ExecuteGoes(env, cfg, inner, w1, s);
      var w2 := Execute(env, cfg, inner, w1).1;
      FramesGo(env, cfg, s, w, w1, w2, Left(|w.budgets|, w2));
      BelowIsUpTo(s.stands, There(cfg, s, w1, w2).stands, req.path, g.value.name);
    }
  }

  // ---- what the log of a request shows ----

  ghost function Opening(found: Found): Scene {
    Scene(map[], LedgerOf(RootWorld(found)))
  }

  // The cooldown table and the time at the j-th event, from what the request found and its own log.
  function TableAt(found: Found, tr: seq<Event>, j: nat): Table
    requires j <= |tr|
  {
    History.Replay(found.store, StoreChanges(tr[..j]))
  }

  function TickAt(found: Found, tr: seq<Event>, j: nat): nat
    requires j <= |tr|
  {
    found.ticks + Readings(tr[..j])
  }

  function ClockAt(env: Env, found: Found, tr: seq<Event>, j: nat): Instant
    requires j <= |tr|
  {
    env.clock(TickAt(found, tr, j))
  }

  // The plan is the one that table, time, counters and draws gave when it was made.
  ghost predicate DraftedThen(env: Env, cfg: Config, found: Found, tr: seq<Event>, j: int)
    requires Usable(cfg) && 0 <= j < |tr| && tr[j].Drafted?
  {
    && tr[j].group == FindVirtual(cfg, tr[j].model)
    && (if tr[j].path == [] then tr[j].group.None? else tr[j].group.Some? && tr[j].model == tr[j].path[|tr[j].path| - 1])
    && tr[j].plan == BuildPlan(cfg, TableAt(found, tr, j), ClockAt(env, found, tr, j), tr[j].model,
                               CounterFor(cfg, CountersAfter(found.counters, tr[..j]), tr[j].model), env.draws(TickAt(found, tr, j)))
  }

  // The j-th event drafts the plan in force for the call at i.
  predicate EntryOf(tr: seq<Event>, j: int, i: int) {
    && 0 <= j < i < |tr| && tr[i].Called? && tr[j].Drafted? && tr[j].path == tr[i].path
    && forall x | j < x < i :: tr[x].Drafted? ==> tr[x].path != tr[i].path
  }

  // The call at i is for the k-th target of the plan drafted at j.
  ghost predicate CalledFor(cfg: Config, tr: seq<Event>, j: int, i: int, k: nat) {
    EntryOf(tr, j, i) && tr[j].plan.Planned? && k < |tr[j].plan.plan.targets| && Fits(cfg, tr[i], tr[j].plan.plan.targets[k])
  }

  // Which target of its plan the call at i is for.
  ghost function Position(cfg: Config, found: Found, tr: seq<Event>, i: int): nat
    requires 0 <= i < |tr| && tr[i].Called?
  {
    var stands := After(cfg, Opening(found), tr[..i + 1]).stands;
    if tr[i].path in stands then stands[tr[i].path].at else 0
  }

  // A stand is the plan of the last draft on its path.
  predicate LastDraft(tr: seq<Event>, j: int, path: seq<Name>) {
    && 0 <= j < |tr| && tr[j].Drafted? && tr[j].path == path
    && forall x | j < x < |tr| :: tr[x].Drafted? ==> tr[x].path != path
  }

  lemma {:induction false} StandIsDraft(cfg: Config, s: Scene, tr: seq<Event>, path: seq<Name>) returns (j: nat)
    requires path !in s.stands && path in After(cfg, s, tr).stands
    ensures LastDraft(tr, j, path) && After(cfg, s, tr).stands[path].plan == tr[j].plan
  {
    hide Post, NextFit;
    var front, e := tr[..|tr| - 1], tr[|tr| - 1];
    if e.Drafted? && e.path == path {
      j := |front|;
    } else {
      j := StandIsDraft(cfg, s, front, path);
    }
  }

  lemma CallIsPlanned(env: Env, cfg: Config, found: Found, tr: seq<Event>, i: nat) returns (j: nat)
    requires Usable(cfg) && AllRight(env, cfg, Opening(found), tr) && i < |tr| && tr[i].Called?
    ensures CalledFor(cfg, tr, j, i, Position(cfg, found, tr, i))
  {
    hide Fits, Post, After;
    var s, before := Opening(found), tr[..i];
    assert RightAt(env, cfg, s, tr, i);
    j := StandIsDraft(cfg, s, before, tr[i].path);
    assert tr[..i + 1][..i] == before && tr[..i + 1][i] == tr[i];
    AfterOneMore(cfg, s, tr, i);
  }

  lemma AfterOneMore(cfg: Config, s: Scene, tr: seq<Event>, i: nat)
    requires i < |tr|
    ensures After(cfg, s, tr[..i + 1]) == Next(cfg, After(cfg, s, tr[..i]), tr[i])
  {
    hide Next;
    assert tr[..i + 1][..i] == tr[..i];
  }

  // Calls of one entry go forward in its plan.
  lemma {:induction false} StandsGoForward(cfg: Config, s: Scene, tr: seq<Event>, path: seq<Name>, a: nat, b: nat)
    requires a <= b <= |tr| && path in After(cfg, s, tr[..a]).stands
    requires forall x | a <= x < b :: tr[x].Drafted? ==> tr[x].path != path
    ensures path in After(cfg, s, tr[..b]).stands
    ensures After(cfg, s, tr[..a]).stands[path].at <= After(cfg, s, tr[..b]).stands[path].at
    decreases b
  {
    hide After, Fits, Post;
    if a < b {
      StandsGoForward(cfg, s, tr, path, a, b - 1);
      AfterOneMore(cfg, s, tr, b - 1);
    }
  }

  lemma CallsGoForward(env: Env, cfg: Config, found: Found, tr: seq<Event>, j: nat, i: nat, i': nat)
    requires Usable(cfg) && AllRight(env, cfg, Opening(found), tr) && i < i' && EntryOf(tr, j, i) && EntryOf(tr, j, i')
    ensures Position(cfg, found, tr, i) <= Position(cfg, found, tr, i')
  {
    hide After, Right, Next, Fits;
    var s, path := Opening(found), tr[i].path;
    assert RightAt(env, cfg, s, tr, i);
    AfterOneMore(cfg, s, tr, i);
    CallStands(env, cfg, After(cfg, s, tr[..i]), tr[i]);
    StandsGoForward(cfg, s, tr, path, i + 1, i' + 1);
  }

  lemma CallStands(env: Env, cfg: Config, s: Scene, e: Event)
    requires Usable(cfg) && e.Called? && Right(env, cfg, s, e)
    ensures e.path in Next(cfg, s, e).stands
  {
    hide Post, NextFit;
  }

  lemma DraftIsRight(env: Env, cfg: Config, found: Found, tr: seq<Event>, j: nat)
    requires Usable(cfg) && AllRight(env, cfg, Opening(found), tr) && j < |tr| && tr[j].Drafted?
    ensures DraftedThen(env, cfg, found, tr, j)
  {
    hide After, Posted, BuildPlan, StoreChanges, Readings, CountersAfter, CounterFor, History.Replay;
    var s := Opening(found);
    assert RightAt(env, cfg, s, tr, j);
    LedgerAfter(cfg, s, tr[..j]);
    PostedParts(LedgerOf(RootWorld(found)), tr[..j]);
  }

  // ---- what a plan says of its targets ----

  ghost predicate NoMemberReady(cfg: Config, t: Table, now: Instant, g: Group) {
    forall m | m in g.members && g.Eligible(m) :: !MemberState(cfg, t, now, m.model).0
  }

  // Each target was ready when the plan was made, or no member the group may use was, and then the targets
  // stand in the order of their recovery.
  lemma PlanRespectsCooldowns(cfg: Config, t: Table, now: Instant, g: Group, counter: nat, draws: Draws)
    requires g.members != [] && GroupPlan(cfg, t, now, g, Ordering(g, counter, draws)).Planned?
    ensures var targets := GroupPlan(cfg, t, now, g, Ordering(g, counter, draws)).plan.targets;
            || (forall x | x in targets :: MemberState(cfg, t, now, x.model).0)
            || (NoMemberReady(cfg, t, now, g) && g.strategy != Manual && !g.failWhenAllCooling
                && SortedByKey(n => MemberState(cfg, t, now, n).1, targets))
  {
    hide MemberState, WithState, AsTargets, Ordering, StableSort, SortedByKey, GroupPlan;
    var ordered := Ordering(g, counter, draws);
    if m :| m in ordered && MemberState(cfg, t, now, m.model).0 {
      ReadyMembersArePlanned(cfg, t, now, g, ordered);
    } else {
      CoolingMembersAreSorted(cfg, t, now, g, ordered, 0);
      OrderKeepsMembers(g, counter, draws);
      forall m | m in g.members ensures m in ordered { assert m in multiset(g.members); assert m in multiset(ordered); }
    }
  }

  // ---- cooldowns and whole requests ----

  // Of the call at i, planned at j on entry into a group: its leaf was not cooling down then, or no member the
  // group may use was ready, and the group is one that then tries all the same.
  ghost predicate Respectful(env: Env, cfg: Config, found: Found, tr: seq<Event>, j: int, i: int)
    requires Usable(cfg) && EntryOf(tr, j, i)
  {
    var t, now := TableAt(found, tr, j), ClockAt(env, found, tr, j);
    tr[i].path != [] ==>
      && tr[j].group.Some?
      && var g := tr[j].group.value;
         CoolingUntil(t, tr[i].leaf, now) == 0
         || (NoMemberReady(cfg, t, now, g) && g.strategy != Manual && !g.failWhenAllCooling)
  }

  // In the latter case, a call does not come before one whose leaf recovers sooner.
  ghost predicate SoonestFirst(env: Env, cfg: Config, found: Found, tr: seq<Event>, j: int, i: int, i': int)
    requires Usable(cfg) && EntryOf(tr, j, i) && EntryOf(tr, j, i')
  {
    var t, now := TableAt(found, tr, j), ClockAt(env, found, tr, j);
    i < i' && tr[j].group.Some? && NoMemberReady(cfg, t, now, tr[j].group.value) ==>
      CoolingUntil(t, tr[i].leaf, now) <= CoolingUntil(t, tr[i'].leaf, now)
  }

  // Every call is for a target of the plan made on its entry, in the order of the plan; the plan was made from
  // the table and the time of that moment; and it keeps the calls off leaves that cool down.
  ghost predicate Disciplined(env: Env, cfg: Config, found: Found, tr: seq<Event>)
    requires Usable(cfg)
  {
    && (forall j | 0 <= j < |tr| && tr[j].Drafted? :: DraftedThen(env, cfg, found, tr, j))
    && (forall i | 0 <= i < |tr| && tr[i].Called? :: exists j :: CalledFor(cfg, tr, j, i, Position(cfg, found, tr, i)))
    && (forall j, i, i' | i < i' && EntryOf(tr, j, i) && EntryOf(tr, j, i') ::
          Position(cfg, found, tr, i) <= Position(cfg, found, tr, i'))
    && (forall j, i | EntryOf(tr, j, i) :: Respectful(env, cfg, found, tr, j, i))
    && (forall j, i, i' | EntryOf(tr, j, i) && EntryOf(tr, j, i') :: SoonestFirst(env, cfg, found, tr, j, i, i'))
  }

  // The entry of a call is unique.
  lemma OneEntry(tr: seq<Event>, j: int, j': int, i: int)
    requires EntryOf(tr, j, i) && EntryOf(tr, j', i)
    ensures j == j'
  {
  }

  lemma LeavesAreNoGroups(cfg: Config, t: Table, now: Instant, leaf: Name)
    requires !IsGroup(cfg, leaf)
    ensures MemberState(cfg, t, now, leaf) == (CoolingUntil(t, leaf, now) == 0, CoolingUntil(t, leaf, now))
  {
  }

  lemma EntryIsRight(env: Env, cfg: Config, found: Found, tr: seq<Event>, j: int, i: int)
    requires Usable(cfg) && AllRight(env, cfg, Opening(found), tr) && EntryOf(tr, j, i)
    ensures CalledFor(cfg, tr, j, i, Position(cfg, found, tr, i)) && DraftedThen(env, cfg, found, tr, j)
  {
    hide AllRight, Opening, DraftedThen, Position, Fits;
    var j' := CallIsPlanned(env, cfg, found, tr, i);
    OneEntry(tr, j, j', i);
    DraftIsRight(env, cfg, found, tr, j);
  }

  lemma EntryRespects(env: Env, cfg: Config, found: Found, tr: seq<Event>, j: int, i: int)
    requires Usable(cfg) && AllRight(env, cfg, Opening(found), tr) && EntryOf(tr, j, i) && !IsGroup(cfg, tr[i].leaf)
    ensures Respectful(env, cfg, found, tr, j, i)
  {
    hide AllRight, Opening, GroupPlan, Ordering, MemberState, TableAt, TickAt, CountersAfter, Position, NoMemberReady;
    EntryIsRight(env, cfg, found, tr, j, i);
    if tr[i].path != [] {
      var g, t, now := tr[j].group.value, TableAt(found, tr, j), ClockAt(env, found, tr, j);
      PlanRespectsCooldowns(cfg, t, now, g, CounterFor(cfg, CountersAfter(found.counters, tr[..j]), tr[j].model), env.draws(TickAt(found, tr, j)));
      LeavesAreNoGroups(cfg, t, now, tr[i].leaf);
      var x := tr[j].plan.plan.targets[Position(cfg, found, tr, i)];
      assert x in tr[j].plan.plan.targets && x.model == tr[i].leaf;
    }
  }

  lemma EntryGoesSoonestFirst(env: Env, cfg: Config, found: Found, tr: seq<Event>, j: int, i: int, i': int)
    requires Usable(cfg) && AllRight(env, cfg, Opening(found), tr) && i < i' && EntryOf(tr, j, i) && EntryOf(tr, j, i')
    requires !IsGroup(cfg, tr[i].leaf) && !IsGroup(cfg, tr[i'].leaf)
    ensures SoonestFirst(env, cfg, found, tr, j, i, i')
  {
    hide AllRight, Opening, GroupPlan, Ordering, MemberState, TableAt, TickAt, CountersAfter, Position, NoMemberReady;
    EntryIsRight(env, cfg, found, tr, j, i);
    EntryIsRight(env, cfg, found, tr, j, i');
    CallsGoForward(env, cfg, found, tr, j, i, i');
    if tr[j].group.Some? {
      var g, t, now := tr[j].group.value, TableAt(found, tr, j), ClockAt(env, found, tr, j);
      var targets := tr[j].plan.plan.targets;
      PlanRespectsCooldowns(cfg, t, now, g, CounterFor(cfg, CountersAfter(found.counters, tr[..j]), tr[j].model), env.draws(TickAt(found, tr, j)));
      LeavesAreNoGroups(cfg, t, now, tr[i].leaf);
      LeavesAreNoGroups(cfg, t, now, tr[i'].leaf);
      assert targets[Position(cfg, found, tr, i)] in targets;
    }
  }

  lemma RightLogsAreDisciplined(env: Env, cfg: Config, found: Found, tr: seq<Event>)
    requires Usable(cfg) && AllRight(env, cfg, Opening(found), tr)
    requires forall i | 0 <= i < |tr| && tr[i].Called? :: !IsGroup(cfg, tr[i].leaf)
    ensures Disciplined(env, cfg, found, tr)
  {
    hide AllRight, Opening, DraftedThen, Position, Respectful, SoonestFirst, Fits;
    forall j | 0 <= j < |tr| && tr[j].Drafted? ensures DraftedThen(env, cfg, found, tr, j) { DraftIsRight(env, cfg, found, tr, j); }
    forall i | 0 <= i < |tr| && tr[i].Called? ensures exists j :: CalledFor(cfg, tr, j, i, Position(cfg, found, tr, i)) {
      var j := CallIsPlanned(env, cfg, found, tr, i);
    }
    forall j, i | EntryOf(tr, j, i) ensures Respectful(env, cfg, found, tr, j, i) { EntryRespects(env, cfg, found, tr, j, i); }
    forall j, i, i' | EntryOf(tr, j, i) && EntryOf(tr, j, i')
      ensures i < i' ==> Position(cfg, found, tr, i) <= Position(cfg, found, tr, i')
      ensures SoonestFirst(env, cfg, found, tr, j, i, i')
    {
      if i < i' {
        CallsGoForward(env, cfg, found, tr, j, i, i');
        EntryGoesSoonestFirst(env, cfg, found, tr, j, i, i');
      } else {
        NotLater(env, cfg, found, tr, j, i, i');
      }
    }
  }

  lemma NotLater(env: Env, cfg: Config, found: Found, tr: seq<Event>, j: int, i: int, i': int)
    requires Usable(cfg) && EntryOf(tr, j, i) && EntryOf(tr, j, i') && i >= i'
    ensures SoonestFirst(env, cfg, found, tr, j, i, i')
  {
  }

  lemma LogReadsRight(env: Env, cfg: Config, model: Name, found: Found)
    requires Usable(cfg)
    ensures AllRight(env, cfg, Opening(found), Handled(env, cfg, model, found).1.trace)
  {
    hide Run, AllRight, Posted;
    var req, root, w' := RootRequest(model), RootWorld(found), Handled(env, cfg, model, found).1;
    NothingGuardsTheRoot(cfg);
    RunGoes(env, cfg, req, root, Opening(found));
    assert New(root, w') == w'.trace;
  }

  // Whatever the request, the configuration and the outside world, no leaf is called that its group's plan did
  // not ask for, and none that was cooling down when the plan was made while another member was ready.
  lemma CallsFollowPlans(env: Env, cfg: Config, model: Name, found: Found)
    requires Usable(cfg)
    ensures Disciplined(env, cfg, found, Handled(env, cfg, model, found).1.trace)
  {
    hide Run, AllRight, Disciplined, Orderly, Announces, Descent, StepsTo, Expected, Posted;
    var w' := Handled(env, cfg, model, found).1;
    LogReadsRight(env, cfg, model, found);
    RequestParts(env, cfg, model, found);
    forall i | 0 <= i < |w'.trace| && w'.trace[i].Called? ensures !IsGroup(cfg, w'.trace[i].leaf) {
      assert Proper(env, cfg, [], model, w'.trace[i]);
    }
    RightLogsAreDisciplined(env, cfg, found, w'.trace);
  }

  // Each entry into a round-robin group whose members are all ready plans them from the next one on: the first
  // member planned is found by the counter as the request found it and the entries made since.
  lemma EntriesTakeTurns(env: Env, cfg: Config, model: Name, found: Found, j: nat, g: Group)
    requires Usable(cfg) && CounterNamed(found.counters, g.name) < UINT64_LIMIT && g.strategy == RoundRobin
    requires var tr := Handled(env, cfg, model, found).1.trace;
             && j < |tr| && tr[j].Drafted? && tr[j].group == Some(g)
             && forall m | m in g.members :: MemberState(cfg, TableAt(found, tr, j), ClockAt(env, found, tr, j), m.model).0
    ensures var tr := Handled(env, cfg, model, found).1.trace;
            var start := (CounterNamed(found.counters, g.name) + EntriesOf(tr[..j], g.name)) % UINT64_LIMIT;
            && g.members != [] && tr[j].plan.Planned? && |tr[j].plan.plan.targets| == |g.members|
            && tr[j].plan.plan.targets[0].model == g.members[start % |g.members|].model
  {
    hide Run, Disciplined, MemberState, BuildPlan, CountersAfter, EntriesOf;
    var tr := Handled(env, cfg, model, found).1.trace;
    CallsFollowPlans(env, cfg, model, found);
    DraftsAreRight(env, cfg, found, tr, j);
    EntriesAreCounted(found.counters, tr[..j], g.name);
    var counter := CounterFor(cfg, CountersAfter(found.counters, tr[..j]), tr[j].model);
    assert counter == CounterNamed(CountersAfter(found.counters, tr[..j]), g.name);
    ReadyPlansKeepTheOrder(cfg, TableAt(found, tr, j), ClockAt(env, found, tr, j), tr[j].model, g, counter,
                           env.draws(TickAt(found, tr, j)), 0);
  }

  lemma DraftsAreRight(env: Env, cfg: Config, found: Found, tr: seq<Event>, j: nat)
    requires Usable(cfg) && Disciplined(env, cfg, found, tr) && j < |tr| && tr[j].Drafted?
    ensures DraftedThen(env, cfg, found, tr, j)
  {
    hide DraftedThen, CalledFor, EntryOf, Respectful, SoonestFirst, Position;
  }
}
