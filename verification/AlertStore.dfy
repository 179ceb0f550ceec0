/** Alert rules, alert events, and the index of each rule's latest fire. */
module AlertStore {
  import opened Results
  import opened Keys
  import opened AlertEngine

  datatype Tables = Tables(rules: map<Id, AlertRule>, events: map<Id, AlertEvent>, lastFired: map<Id, int>)

  const EMPTY: Tables := Tables(map[], map[], map[])

  datatype Op =
    | InsertRule(rule: AlertRule)
    | DeleteRule(ruleId: Id)
    | InsertEvent(event: AlertEvent)
    | Acknowledge(eventId: Id)

  function Later(a: int, b: int): int {
    if a >= b then a else b
  }

  function Apply(t: Tables, op: Op): Tables {
    match op
    case InsertRule(rule) => t.(rules := t.rules[rule.id := rule])
    case DeleteRule(id) => t.(rules := t.rules - {id}, lastFired := t.lastFired - {id})
    case InsertEvent(e) =>
      var newest := if e.ruleId in t.lastFired then Later(t.lastFired[e.ruleId], e.firedAt) else e.firedAt;
      t.(events := t.events[e.id := e], lastFired := t.lastFired[e.ruleId := newest])
    case Acknowledge(id) =>
      if id in t.events then t.(events := t.events[id := t.events[id].(acknowledged := true)]) else t
  }

  function LastFiredOf(t: Tables, rule: Id): Option<int> {
    if rule in t.lastFired then Some(t.lastFired[rule]) else None
  }

  class AlertRuleStore {
    var rules: map<Id, AlertRule>
    var events: map<Id, AlertEvent>
    var lastFired: map<Id, int>

    ghost function Contents(): Tables
      reads this
    {
      Tables(rules, events, lastFired)
    }

    constructor ()
      ensures Contents() == EMPTY
    {
      rules, events, lastFired := map[], map[], map[];
    }

    method PutRule(rule: AlertRule)
      modifies this
      ensures Contents() == Apply(old(Contents()), InsertRule(rule))
    {
      rules := rules[rule.id := rule];
    }

    method RemoveRule(id: Id) returns (existed: bool)
      modifies this
      ensures existed <==> id in old(rules)
      ensures Contents() == Apply(old(Contents()), DeleteRule(id))
    {
      existed := id in rules;
      rules := rules - {id};
      lastFired := lastFired - {id};
    }

    method PutEvent(e: AlertEvent)
      modifies this
      ensures Contents() == Apply(old(Contents()), InsertEvent(e))
    {
      events := events[e.id := e];
      var newest := e.firedAt;
      if e.ruleId in lastFired {
        newest := Later(lastFired[e.ruleId], e.firedAt);
      }
      lastFired := lastFired[e.ruleId := newest];
    }

    method LastFiredForRule(rule: Id) returns (at: Option<int>)
      ensures at == LastFiredOf(Contents(), rule)
    {
      if rule in lastFired {
        return Some(lastFired[rule]);
      }
      return None;
    }

    method AcknowledgeEvent(id: Id) returns (updated: bool)
      modifies this
      ensures updated <==> id in old(events)
      ensures Contents() == Apply(old(Contents()), Acknowledge(id))
    {
      if id !in events {
        return false;
      }
      events := events[id := events[id].(acknowledged := true)];
      return true;
    }
  }

  // ---------- Whole runs ----------

  function Replay(ops: seq<Op>): Tables
    decreases |ops|
  {
    if ops == [] then EMPTY else Apply(Replay(ops[..|ops| - 1]), ops[|ops| - 1])
  }

  /** The rule fired at step `i` and was not deleted since. */
  predicate FiredSince(ops: seq<Op>, rule: Id, i: int) {
    && 0 <= i < |ops| && ops[i].InsertEvent? && ops[i].event.ruleId == rule
    && forall j :: i < j < |ops| ==> ops[j] != DeleteRule(rule)
  }

  ghost predicate Latest(ops: seq<Op>, rule: Id, at: Option<int>) {
    match at
    case None => forall i :: !FiredSince(ops, rule, i)
    case Some(t) =>
      && (exists i :: FiredSince(ops, rule, i) && ops[i].event.firedAt == t)
      && (forall i :: FiredSince(ops, rule, i) ==> ops[i].event.firedAt <= t)
  }

  lemma FiredStep(ops: seq<Op>, rule: Id, i: int)
    requires ops != []
    ensures var op := ops[|ops| - 1];
            FiredSince(ops, rule, i) <==>
            if i == |ops| - 1 then op.InsertEvent? && op.event.ruleId == rule
            else op != DeleteRule(rule) && FiredSince(ops[..|ops| - 1], rule, i)
  {
    var before := ops[..|ops| - 1];
    assert forall j :: 0 <= j < |before| ==> before[j] == ops[j];
  }

  /** The index holds the latest of the fires stored since the rule was last deleted, in whatever order they came. */
  lemma {:induction false} LastFiredIsLatest(ops: seq<Op>, rule: Id)
    ensures Latest(ops, rule, LastFiredOf(Replay(ops), rule))
    decreases |ops|
  {
    if ops != [] {
      var before, last := ops[..|ops| - 1], |ops| - 1;
      LastFiredIsLatest(before, rule);
      forall i ensures FiredSince(ops, rule, i) <==>
                       if i == last then ops[last].InsertEvent? && ops[last].event.ruleId == rule
                       else ops[last] != DeleteRule(rule) && FiredSince(before, rule, i)
      {
        FiredStep(ops, rule, i);
      }
      hide FiredSince;
      LatestStep(ops, rule);
    }
  }

  lemma LatestStep(ops: seq<Op>, rule: Id)
    requires ops != []
    requires var before, last := ops[..|ops| - 1], |ops| - 1;
      && Latest(before, rule, LastFiredOf(Replay(before), rule))
      && forall i :: FiredSince(ops, rule, i) <==>
                       if i == last then ops[last].InsertEvent? && ops[last].event.ruleId == rule
                       else ops[last] != DeleteRule(rule) && FiredSince(before, rule, i)
    ensures Latest(ops, rule, LastFiredOf(Replay(ops), rule))
  {
    var before, last := ops[..|ops| - 1], |ops| - 1;
    assert forall i :: FiredSince(before, rule, i) ==> before[i] == ops[i] && i != last;
    hide FiredSince;
    var was, now := LastFiredOf(Replay(before), rule), LastFiredOf(Replay(ops), rule);
    if ops[last].InsertEvent? && ops[last].event.ruleId == rule {
      assert FiredSince(ops, rule, last);
      if was.Some? {
        var i :| FiredSince(before, rule, i) && before[i].event.firedAt == was.value;
        assert FiredSince(ops, rule, i);
      }
    } else if now.Some? {
      assert now == was;
      var i :| FiredSince(before, rule, i) && before[i].event.firedAt == was.value;
      assert FiredSince(ops, rule, i);
    }
  }

  /** Step `i` stored this rule, and no later step stored another under its id or deleted it. */
  predicate RuleStands(ops: seq<Op>, id: Id, i: int) {
    && 0 <= i < |ops| && ops[i].InsertRule? && ops[i].rule.id == id
    && forall j :: i < j < |ops| ==> ops[j] != DeleteRule(id) && !(ops[j].InsertRule? && ops[j].rule.id == id)
  }

  /** The table of rules holds each rule as it was last stored, and none that was deleted since. */
  lemma {:induction false} RulesAreLatest(ops: seq<Op>, id: Id)
    ensures id in Replay(ops).rules <==> exists i :: RuleStands(ops, id, i)
    ensures forall i :: RuleStands(ops, id, i) ==> id in Replay(ops).rules && Replay(ops).rules[id] == ops[i].rule
    decreases |ops|
  {
    if ops != [] {
      var before, last := ops[..|ops| - 1], |ops| - 1;
      RulesAreLatest(before, id);
      forall i ensures RuleStands(ops, id, i) <==> StandsAfter(before, ops[last], id, i) {
        RuleStep(ops, id, i);
      }
      hide RuleStands;
      if id in Replay(before).rules && ops[last] != DeleteRule(id) {
        var i :| RuleStands(before, id, i);
        assert StandsAfter(before, ops[last], id, i) || StandsAfter(before, ops[last], id, last);
      }
      if ops[last].InsertRule? && ops[last].rule.id == id {
        assert StandsAfter(before, ops[last], id, last);
      }
    }
  }

  predicate StandsAfter(before: seq<Op>, op: Op, id: Id, i: int) {
    if i == |before| then op.InsertRule? && op.rule.id == id
    else RuleStands(before, id, i) && op != DeleteRule(id) && !(op.InsertRule? && op.rule.id == id)
  }

  lemma RuleStep(ops: seq<Op>, id: Id, i: int)
    requires ops != []
    ensures RuleStands(ops, id, i) <==> StandsAfter(ops[..|ops| - 1], ops[|ops| - 1], id, i)
  {
    var before := ops[..|ops| - 1];
    assert forall j :: 0 <= j < |before| ==> before[j] == ops[j];
  }

  // ---------- The events themselves ----------

  predicate AckedSince(ops: seq<Op>, id: Id, i: int) {
    exists j :: i < j < |ops| && j >= 0 && ops[j] == Acknowledge(id)
  }

  /** Step `i` is the last to store an event under this id. */
  predicate StoredLast(ops: seq<Op>, id: Id, i: int) {
    && 0 <= i < |ops| && ops[i].InsertEvent? && ops[i].event.id == id
    && forall j :: i < j < |ops| ==> !(ops[j].InsertEvent? && ops[j].event.id == id)
  }

  /** An event is never dropped, not even with its rule; the only thing that changes in it is the flag, and
      only by its own acknowledgement. */
  lemma {:induction false} EventKept(ops: seq<Op>, id: Id, i: int)
    requires StoredLast(ops, id, i)
    ensures id in Replay(ops).events
    ensures Replay(ops).events[id] == ops[i].event.(acknowledged := ops[i].event.acknowledged || AckedSince(ops, id, i))
    decreases |ops|
  {
    var before, op := ops[..|ops| - 1], ops[|ops| - 1];
    if i < |ops| - 1 {
      assert StoredLast(before, id, i);
      EventKept(before, id, i);
      assert AckedSince(before, id, i) ==> AckedSince(ops, id, i) by {
        if AckedSince(before, id, i) {
          var j :| i < j < |before| && j >= 0 && before[j] == Acknowledge(id);
          assert ops[j] == Acknowledge(id);
        }
      }
      if op == Acknowledge(id) {
        assert AckedSince(ops, id, i);
      } else if AckedSince(ops, id, i) {
        var j :| i < j < |ops| && j >= 0 && ops[j] == Acknowledge(id);
        assert before[j] == Acknowledge(id);
      }
    }
  }

  /** Every event in the table was stored by some step, and none later under its id. */
  lemma {:induction false} EventHasStep(ops: seq<Op>, id: Id) returns (i: int)
    requires id in Replay(ops).events
    ensures StoredLast(ops, id, i)
    decreases |ops|
  {
    var before, op := ops[..|ops| - 1], ops[|ops| - 1];
    if op.InsertEvent? && op.event.id == id {
      i := |ops| - 1;
    } else {
      i := EventHasStep(before, id);
      assert ops[i] == before[i];
    }
  }

  predicate DistinctIds(ops: seq<Op>) {
    forall i, j :: 0 <= i < j < |ops| && ops[i].InsertEvent? && ops[j].InsertEvent? ==>
        ops[i].event.id != ops[j].event.id
  }

  /** While a rule is never deleted, the point lookup gives what a scan of the whole event table would. */
  lemma LookupRefinesScan(ops: seq<Op>, rule: Id)
    requires DistinctIds(ops) && forall j :: 0 <= j < |ops| ==> ops[j] != DeleteRule(rule)
    ensures var t := Replay(ops);
            match LastFiredOf(t, rule)
            case None => forall id :: id in t.events ==> t.events[id].ruleId != rule
            case Some(at) =>
              && (exists id :: id in t.events && t.events[id].ruleId == rule && t.events[id].firedAt == at)
              && (forall id :: id in t.events && t.events[id].ruleId == rule ==> t.events[id].firedAt <= at)
  {
    LastFiredIsLatest(ops, rule);
    var t := Replay(ops);
    hide Replay;
    forall id | id in t.events && t.events[id].ruleId == rule
      ensures exists i :: FiredSince(ops, rule, i) && ops[i].event.firedAt == t.events[id].firedAt
    {
      var i := EventHasStep(ops, id);
      EventKept(ops, id, i);
      assert FiredSince(ops, rule, i);
    }
    if at: int :| LastFiredOf(t, rule) == Some(at) {
      var i :| FiredSince(ops, rule, i) && ops[i].event.firedAt == at;
      assert StoredLast(ops, ops[i].event.id, i);
      EventKept(ops, ops[i].event.id, i);
    }
  }
}
