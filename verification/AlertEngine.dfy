/** Deciding, for one drift report, which rules fire and what each look costs. */
module AlertEngine {
  import opened Results
  import opened Keys

  datatype SequentialControl = SequentialControl(window: int, alphaBudget: real)

  datatype DriftReport = DriftReport(combinedPValue: real)

  datatype AlertRule = AlertRule(id: Id, probeId: Id, targetFpr: real, active: bool)

  datatype AlertEvent = AlertEvent(id: Id, ruleId: Id, report: DriftReport, firedAt: int, acknowledged: bool)

  datatype RuleSpend = RuleSpend(ruleId: Id, alpha: real)

  datatype AlertOutcome = AlertOutcome(events: seq<AlertEvent>, spends: seq<RuleSpend>)

  function Min(a: real, b: real): real {
    if a <= b then a else b
  }

  function Max(a: real, b: real): real {
    if a >= b then a else b
  }

  datatype Engine = Engine(cooldown: int, sequential: Option<SequentialControl>) {
    /** A budget that is not positive switches the control off. */
    function WithSequential(s: Option<SequentialControl>): (e: Engine)
      ensures e.cooldown == cooldown
      ensures e.sequential == s <==> s.None? || s.value.alphaBudget > 0.0
      ensures s.Some? && s.value.alphaBudget <= 0.0 ==> e.sequential.None?
    {
      this.(sequential := if s.Some? && s.value.alphaBudget > 0.0 then s else None)
    }

    function EffectiveAlpha(rule: AlertRule, spentAlpha: map<Id, real>): real {
      match sequential
      case None => rule.targetFpr
      case Some(control) =>
        var spent := if rule.id in spentAlpha then spentAlpha[rule.id] else 0.0;
        Min(rule.targetFpr, Max(control.alphaBudget - spent, 0.0))
    }

    predicate InCooldown(rule: AlertRule, lastFired: map<Id, int>, now: int) {
      cooldown > 0 && rule.id in lastFired && now - lastFired[rule.id] < cooldown
    }
  }

  /** What one look at one rule does. */
  datatype Look = Look(level: real, spend: Option<RuleSpend>, event: Option<AlertEvent>)

  function LookAt(
    e: Engine, report: DriftReport, rule: AlertRule, lastFired: map<Id, int>, spentAlpha: map<Id, real>, now: int,
    id: Id): Look {
    var level := e.EffectiveAlpha(rule, spentAlpha);
    Look(level,
         if rule.active && e.sequential.Some? && level > 0.0 then Some(RuleSpend(rule.id, level)) else None,
         if rule.active && report.combinedPValue < level && !e.InCooldown(rule, lastFired, now)
         then Some(AlertEvent(id, rule.id, report, now, false)) else None)
  }

  function AsSeq<T>(x: Option<T>): seq<T> {
    match x case Some(v) => [v] case None => []
  }

  /** The values present in a list of options, in order. */
  function Present<T>(s: seq<Option<T>>): seq<T>
    decreases |s|
  {
    if s == [] then [] else Present(s[..|s| - 1]) + AsSeq(s[|s| - 1])
  }

  lemma PresentNext<T>(s: seq<Option<T>>, k: nat)
    requires k < |s|
    ensures Present(s[..k + 1]) == Present(s[..k]) + AsSeq(s[k])
  {
    assert s[..k + 1][..k] == s[..k];
  }

  lemma {:induction false} InPresent<T>(s: seq<Option<T>>, x: T)
    ensures x in Present(s) <==> Some(x) in s
    decreases |s|
  {
    if s != [] {
      assert s == s[..|s| - 1] + [s[|s| - 1]];
      InPresent(s[..|s| - 1], x);
    }
  }

  function Looks(
    e: Engine, report: DriftReport, rules: seq<AlertRule>, lastFired: map<Id, int>, spentAlpha: map<Id, real>,
    now: int, ids: seq<Id>): (s: seq<Look>)
    requires |ids| == |rules|
    ensures |s| == |rules|
    ensures forall k :: 0 <= k < |rules| ==> s[k] == LookAt(e, report, rules[k], lastFired, spentAlpha, now, ids[k])
  {
    seq(|rules|, k requires 0 <= k < |rules| => LookAt(e, report, rules[k], lastFired, spentAlpha, now, ids[k]))
  }

  function Spends(looks: seq<Look>): (s: seq<Option<RuleSpend>>)
    ensures |s| == |looks| && forall k :: 0 <= k < |looks| ==> s[k] == looks[k].spend
  {
    seq(|looks|, k requires 0 <= k < |looks| => looks[k].spend)
  }

  function Events(looks: seq<Look>): (s: seq<Option<AlertEvent>>)
    ensures |s| == |looks| && forall k :: 0 <= k < |looks| ==> s[k] == looks[k].event
  {
    seq(|looks|, k requires 0 <= k < |looks| => looks[k].event)
  }

  /** `now` is the one clock reading of the call; `ids` are the fresh ids its events may take. */
  method EvaluateAndFire(
    e: Engine, report: DriftReport, rules: seq<AlertRule>, lastFired: map<Id, int>, spentAlpha: map<Id, real>,
    now: int, ids: seq<Id>)
    returns (outcome: AlertOutcome)
    requires |ids| == |rules|
    ensures var looks := Looks(e, report, rules, lastFired, spentAlpha, now, ids);
            outcome == AlertOutcome(Present(Events(looks)), Present(Spends(looks)))
  {
    ghost var looks := Looks(e, report, rules, lastFired, spentAlpha, now, ids);
    ghost var events, spends := Events(looks), Spends(looks);
    assert events[..0] == [] && spends[..0] == [];
    outcome := AlertOutcome([], []);
    for k := 0 to |rules|
      invariant outcome == AlertOutcome(Present(events[..k]), Present(spends[..k]))
    {
      var rule := rules[k];
      PresentNext(events, k);
      PresentNext(spends, k);
      hide Present, Looks, Events, Spends;
      if !rule.active {
        continue;
      }
      var alpha := e.EffectiveAlpha(rule, spentAlpha);
      if e.sequential.Some? && alpha > 0.0 {
        outcome := outcome.(spends := outcome.spends + [RuleSpend(rule.id, alpha)]);
      }
      if report.combinedPValue >= alpha {
        continue;
      }
      if e.InCooldown(rule, lastFired, now) {
        continue;
      }
      outcome := outcome.(events := outcome.events + [AlertEvent(ids[k], rule.id, report, now, false)]);
    }
    assert events[..|rules|] == events && spends[..|rules|] == spends;
  }

  // ---------- What a look means ----------

  function SpentBy(spentAlpha: map<Id, real>, rule: Id): real {
    if rule in spentAlpha then spentAlpha[rule] else 0.0
  }

  /** The rule is significant at its own rate, still covered by its budget, and not cooling down. */
  predicate Fires(e: Engine, p: real, rule: AlertRule, lastFired: map<Id, int>, spent: real, now: int) {
    && rule.active && p < rule.targetFpr
    && (e.sequential.Some? ==> spent + p < e.sequential.value.alphaBudget)
    && (rule.id in lastFired && e.cooldown > 0 ==> now >= lastFired[rule.id] + e.cooldown)
  }

  /** The debit takes the rule to its target rate, or to the end of its budget where that comes first. */
  predicate Debits(e: Engine, rule: AlertRule, spent: real, spend: RuleSpend) {
    && e.sequential.Some?
    && var budget := e.sequential.value.alphaBudget;
       && rule.active && spend.ruleId == rule.id && spent < budget
       && 0.0 < spend.alpha <= rule.targetFpr && spent + spend.alpha <= budget
       && (spend.alpha < rule.targetFpr ==> spent + spend.alpha == budget)
  }

  lemma LookMeaning(
    e: Engine, report: DriftReport, rule: AlertRule, lastFired: map<Id, int>, spentAlpha: map<Id, real>, now: int,
    id: Id, spend: RuleSpend)
    requires report.combinedPValue >= 0.0
    ensures var look := LookAt(e, report, rule, lastFired, spentAlpha, now, id);
            var spent := SpentBy(spentAlpha, rule.id);
            && (look.event.Some? <==> Fires(e, report.combinedPValue, rule, lastFired, spent, now))
            && (look.event.Some? ==> look.event.value == AlertEvent(id, rule.id, report, now, false))
            && (look.spend == Some(spend) <==> Debits(e, rule, spent, spend))
            && (e.sequential.Some? && look.event.Some? ==>
                look.spend.Some? && report.combinedPValue < look.spend.value.alpha)
  {
  }

  /** The outcome holds an event for exactly the rules that fire, and a debit for exactly the active rules
      with budget left. */
  lemma OutcomeMeaning(
    e: Engine, report: DriftReport, rules: seq<AlertRule>, lastFired: map<Id, int>, spentAlpha: map<Id, real>,
    now: int, ids: seq<Id>, event: AlertEvent, spend: RuleSpend)
    requires |ids| == |rules| && report.combinedPValue >= 0.0
    ensures var looks := Looks(e, report, rules, lastFired, spentAlpha, now, ids);
            && (event in Present(Events(looks)) <==>
                (exists k :: 0 <= k < |rules| && event == AlertEvent(ids[k], rules[k].id, report, now, false)
                   && Fires(e, report.combinedPValue, rules[k], lastFired, SpentBy(spentAlpha, rules[k].id), now)))
            && (spend in Present(Spends(looks)) <==>
                (exists k :: 0 <= k < |rules| && Debits(e, rules[k], SpentBy(spentAlpha, rules[k].id), spend)))
  {
    var looks := Looks(e, report, rules, lastFired, spentAlpha, now, ids);
    InPresent(Events(looks), event);
    InPresent(Spends(looks), spend);
    forall k | 0 <= k < |rules|
      ensures Events(looks)[k] == Some(event) <==>
              event == AlertEvent(ids[k], rules[k].id, report, now, false)
              && Fires(e, report.combinedPValue, rules[k], lastFired, SpentBy(spentAlpha, rules[k].id), now)
      ensures Spends(looks)[k] == Some(spend) <==> Debits(e, rules[k], SpentBy(spentAlpha, rules[k].id), spend)
    {
      LookMeaning(e, report, rules[k], lastFired, spentAlpha, now, ids[k], spend);
    }
    hide Fires, Debits, Looks, LookAt, Present;
  }
}
