// What a configured guard means: which names a member, a rule or a guarded group lets a leaf be served by, in
// terms of the configured lists alone.
module ExpectationLaws {
  import opened Config
  import opened Glob
  import opened Identity
  import opened Planning

  // ---- which rule ----

  ghost predicate IsFirstRule(rules: seq<GuardRule>, name: Name, i: nat) {
    && i < |rules| && ModelScan(rules[i].model, name)
    && forall j | 0 <= j < i :: !ModelScan(rules[j].model, name)
  }

  // The earliest rule whose pattern takes the name; none at all for an empty name.
  lemma {:induction false} FirstRuleWins(rules: seq<GuardRule>, name: Name)
    ensures match FindRule(rules, name)
            case None => name == "" || forall i | 0 <= i < |rules| :: !ModelScan(rules[i].model, name)
            case Some(rule) => name != "" && exists i: nat :: IsFirstRule(rules, name, i) && rule == rules[i]
  {
    hide ModelScan;
    if rules != [] && name != "" {
      var rest := rules[1..];
      if ModelScan(rules[0].model, name) {
        assert IsFirstRule(rules, name, 0);
      } else {
        FirstRuleWins(rest, name);
        if FindRule(rest, name).Some? {
          var i: nat :| IsFirstRule(rest, name, i) && FindRule(rest, name).value == rest[i];
          forall j | 0 <= j < i + 1 ensures !ModelScan(rules[j].model, name) {
            if j > 0 { assert rules[j] == rest[j - 1]; }
          }
          assert IsFirstRule(rules, name, i + 1);
        } else {
          forall j | 0 <= j < |rules| ensures !ModelScan(rules[j].model, name) {
            if j > 0 { assert rules[j] == rest[j - 1]; }
          }
        }
      }
    }
  }

  // ---- what it lets through ----

  // One configured entry: a pattern where it holds a wildcard, otherwise a model name.
  ghost predicate EntryTakes(entry: string, served: string) {
    if '*' in entry || '?' in entry then ModelScan(entry, served) else Matches(entry, served)
  }

  // Some entry of the list; where there is none, the model's own name.
  ghost predicate ListTakes(entries: seq<string>, own: Name, served: string) {
    if entries == [] then EntryTakes(own, served) else exists entry :: entry in entries && EntryTakes(entry, served)
  }

  ghost predicate ListDenies(entries: seq<string>, served: string) {
    exists entry :: entry in entries && ModelScan(entry, served)
  }

  // A reported name passes exactly when no denied entry takes it and some accepted one does. A name that was
  // not reported is never accepted; it is a mismatch exactly where missing names are rejected.
  ghost predicate Admits(e: Expectation, accept: seq<string>, own: Name, deny: seq<string>, rejectMissing: bool) {
    && VerdictOn(e, "") == (if rejectMissing then Mismatch else Unknown)
    && forall served :: served != "" ==>
         VerdictOn(e, served) == (if !ListDenies(deny, served) && ListTakes(accept, own, served) then Accepted else Mismatch)
  }

  lemma DeniedIff(e: Expectation, served: string)
    ensures Denied(e, served) <==> ListDenies(e.deny, served)
  {
    hide ModelScan;
    if entry :| entry in e.deny && ModelScan(entry, served) {
      var i :| 0 <= i < |e.deny| && e.deny[i] == entry;
      assert ModelScan(e.deny[i], served);
    }
  }

  lemma AcceptedIff(e: Expectation, served: string)
    ensures (exists i | 0 <= i < |Accepts(e)| :: AcceptedBy(Accepts(e)[i], served)) <==> ListTakes(e.accept, e.default, served)
  {
    hide ModelScan, Matches;
    var entries := Accepts(e);
    if i :| 0 <= i < |entries| && AcceptedBy(entries[i], served) {
      assert entries[i] in entries && EntryTakes(entries[i], served);
    }
    if ListTakes(e.accept, e.default, served) {
      var entry :| entry in entries && EntryTakes(entry, served);
      var i :| 0 <= i < |entries| && entries[i] == entry;
      assert AcceptedBy(entries[i], served);
    }
  }

  lemma ExpectationAdmits(accept: seq<string>, deny: seq<string>, own: Name, rejectMissing: bool)
    ensures Admits(Expectation(accept, deny, own, rejectMissing), accept, own, deny, rejectMissing)
  {
    hide ModelScan, AcceptedBy, ListTakes, Denied, ListDenies, Accepts;
    var e := Expectation(accept, deny, own, rejectMissing);
    forall served | served != ""
      ensures VerdictOn(e, served) == (if !ListDenies(deny, served) && ListTakes(accept, own, served) then Accepted else Mismatch)
    {
      DeniedIff(e, served);
      AcceptedIff(e, served);
    }
  }

  // A member's own lists come before any rule; the rule of its model only adds its denials to them, and the
  // configured setting for missing names holds.
  lemma MemberListsDecide(cfg: Config, g: Group, m: Member)
    requires m.accept != [] || m.deny != []
    ensures var e, rule := MemberExpectation(cfg, g, m), FindRule(cfg.rules, m.model);
            e.Some? && Admits(e.value, m.accept, m.model, m.deny + (if rule.Some? then rule.value.deny else []), cfg.rejectMissing)
  {
    hide FindRule, Admits;
    var rule := FindRule(cfg.rules, m.model);
    ExpectationAdmits(m.accept, m.deny + (if rule.Some? then rule.value.deny else []), m.model, cfg.rejectMissing);
  }

  // Without lists of its own a member goes by the rule of its model, with that rule's lists and setting.
  lemma RuleDecides(cfg: Config, g: Group, m: Member)
    requires m.accept == [] && m.deny == [] && FindRule(cfg.rules, m.model).Some?
    ensures var e, rule := MemberExpectation(cfg, g, m), FindRule(cfg.rules, m.model).value;
            e.Some? && Admits(e.value, rule.accept, m.model, rule.deny, rule.rejectMissing)
  {
    hide FindRule, Admits;
    var rule := FindRule(cfg.rules, m.model).value;
    ExpectationAdmits(rule.accept, rule.deny, m.model, rule.rejectMissing);
  }

  // With neither, it is checked exactly where the group is guarded, and then against its own name.
  lemma OwnNameDecides(cfg: Config, g: Group, m: Member)
    requires m.accept == [] && m.deny == [] && FindRule(cfg.rules, m.model).None?
    ensures var e := MemberExpectation(cfg, g, m);
            (e.Some? <==> g.guard) && (e.Some? ==> Admits(e.value, [], m.model, [], cfg.rejectMissing))
  {
    hide FindRule, Admits;
    ExpectationAdmits([], [], m.model, cfg.rejectMissing);
  }

  // A model called directly is checked exactly where some rule takes its name, by that rule, and then tried once
  // more for each retry that the rule, or else the configuration, allows.
  lemma DirectRequestsGoByTheirRule(cfg: Config, requested: Name)
    ensures var p, rule := DirectPlan(cfg, requested), FindRule(cfg.rules, requested);
            && !p.isGroup && |p.targets| == 1 && p.targets[0].model == requested && p.maxAttempts == p.targets[0].tries
            && (p.targets[0].expectation.Some? <==> rule.Some?)
            && (match rule
                case None => p.targets[0].tries == 1
                case Some(r) =>
                  && p.targets[0].tries == 1 + (if r.maxRetries == None then cfg.guardRetries else r.maxRetries.value)
                  && Admits(p.targets[0].expectation.value, r.accept, requested, r.deny, r.rejectMissing))
  {
    hide FindRule, Admits;
    var rule := FindRule(cfg.rules, requested);
    if rule.Some? { ExpectationAdmits(rule.value.accept, rule.value.deny, requested, rule.value.rejectMissing); }
  }
}
