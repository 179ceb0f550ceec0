/** The alerting part of one probe job, and why it is a run of the protocol. */
module AlertJob {
  import opened Keys
  import opened SpendStore
  import opened Ledger
  import opened AlertEngine
  import opened AlertStore
  import opened AlertProtocol

  ghost function SpentAt(e: Engine, ledger: Table, id: Id, readAt: int): real {
    if e.sequential.Some? then Spent(ledger, id, readAt - e.sequential.value.window) else 0.0
  }

  /** The look at one rule, from what the stores hold for that rule alone. */
  ghost function JobLook(
    e: Engine, t: Tables, ledger: Table, report: DriftReport, rule: AlertRule, readAt: int, evalAt: int, id: Id): Look {
    LookAt(e, report, rule, AsMap(rule.id, LastFiredOf(t, rule.id)),
        SpentMap(rule.id, SpentAt(e, ledger, rule.id, readAt)), evalAt, id)
  }

  ghost function JobLooks(
    e: Engine, t: Tables, ledger: Table, report: DriftReport, rules: seq<AlertRule>, readAt: int, evalAt: int,
    ids: seq<Id>): (s: seq<Look>)
    requires |ids| == |rules|
    ensures |s| == |rules|
    ensures forall k :: 0 <= k < |s| ==> s[k] == JobLook(e, t, ledger, report, rules[k], readAt, evalAt, ids[k])
  {
    seq(|rules|, k requires 0 <= k < |rules| => JobLook(e, t, ledger, report, rules[k], readAt, evalAt, ids[k]))
  }

  function StoreAll(t: Tables, events: seq<AlertEvent>): Tables
    decreases |events|
  {
    if events == [] then t else Apply(StoreAll(t, events[..|events| - 1]), InsertEvent(events[|events| - 1]))
  }

  function DebitAll(ledger: Table, spends: seq<RuleSpend>, at: int, pruneBefore: int): Table
    decreases |spends|
  {
    if spends == [] then ledger
    else
      var spend := spends[|spends| - 1];
      Spend(DebitAll(ledger, spends[..|spends| - 1], at, pruneBefore), spend.ruleId, at, spend.alpha, pruneBefore)
  }

  lemma StoreNext(t: Tables, events: seq<AlertEvent>, k: nat)
    requires k < |events|
    ensures StoreAll(t, events[..k + 1]) == Apply(StoreAll(t, events[..k]), InsertEvent(events[k]))
  {
    assert events[..k + 1][..k] == events[..k];
  }

  lemma DebitNext(ledger: Table, spends: seq<RuleSpend>, at: int, pruneBefore: int, k: nat)
    requires k < |spends|
    ensures DebitAll(ledger, spends[..k + 1], at, pruneBefore)
              == Spend(DebitAll(ledger, spends[..k], at, pruneBefore), spends[k].ruleId, at, spends[k].alpha,
                  pruneBefore)
  {
    assert spends[..k + 1][..k] == spends[..k];
  }

  /** What was loaded for a rule is what the store holds for it. */
  ghost predicate LoadedFires(t: Tables, rules: seq<AlertRule>, lastFired: map<Id, int>) {
    forall k :: 0 <= k < |rules| ==>
        LastFiredOf(Tables(map[], map[], lastFired), rules[k].id) == LastFiredOf(t, rules[k].id)
  }

  ghost predicate LoadedSpends(
    e: Engine, ledger: Table, rules: seq<AlertRule>, readAt: int, spentAlpha: map<Id, real>) {
    forall k :: 0 <= k < |rules| ==>
      var id := rules[k].id;
      var spent := SpentAt(e, ledger, id, readAt);
      if spent > 0.0 then id in spentAlpha && spentAlpha[id] == spent else id !in spentAlpha
  }

  method LoadLastFired(alerts: AlertRuleStore, rules: seq<AlertRule>) returns (lastFired: map<Id, int>)
    ensures LoadedFires(alerts.Contents(), rules, lastFired)
  {
    lastFired := map[];
    for k := 0 to |rules|
      invariant forall id :: id in lastFired ==> id in alerts.lastFired && lastFired[id] == alerts.lastFired[id]
      invariant forall j :: 0 <= j < k && rules[j].id in alerts.lastFired ==> rules[j].id in lastFired
    {
      var at := alerts.LastFiredForRule(rules[k].id);
      if at.Some? {
        lastFired := lastFired[rules[k].id := at.value];
      }
    }
  }

  /** What has been loaded for the first `k` rules. */
  ghost predicate SpendsSoFar(ledger: Table, rules: seq<AlertRule>, k: nat, since: int, spentAlpha: map<Id, real>)
    requires k <= |rules|
  {
    && (forall id :: id in spentAlpha ==> spentAlpha[id] == Spent(ledger, id, since) > 0.0)
    && (forall j :: 0 <= j < k && Spent(ledger, rules[j].id, since) > 0.0 ==> rules[j].id in spentAlpha)
  }

  lemma SpendsNext(ledger: Table, rules: seq<AlertRule>, k: nat, since: int, spentAlpha: map<Id, real>)
    requires k < |rules| && SpendsSoFar(ledger, rules, k, since, spentAlpha)
    ensures var id := rules[k].id; var spent := Spent(ledger, id, since);
            SpendsSoFar(ledger, rules, k + 1, since, if spent > 0.0 then spentAlpha[id := spent] else spentAlpha)
  {
    hide Spent;
  }

  lemma SpendsLoaded(e: Engine, ledger: Table, rules: seq<AlertRule>, readAt: int, spentAlpha: map<Id, real>)
    requires if e.sequential.Some? then SpendsSoFar(ledger, rules, |rules|, readAt - Window(e), spentAlpha)
        else spentAlpha == map[]
    ensures LoadedSpends(e, ledger, rules, readAt, spentAlpha)
  {
    hide Spent;
  }

  method LoadSpent(
    e: Engine, spends: AlphaSpendStore, rules: seq<AlertRule>, readAt: int)
    returns (spentAlpha: map<Id, real>)
    requires WellKeyed(spends.table)
    ensures LoadedSpends(e, spends.table, rules, readAt, spentAlpha)
  {
    hide Spent, WellKeyed, LoadedSpends;
    spentAlpha := map[];
    if e.sequential.Some? {
      var since := readAt - e.sequential.value.window;
      for k := 0 to |rules|
        invariant SpendsSoFar(spends.table, rules, k, since, spentAlpha)
      {
        SpendsNext(spends.table, rules, k, since, spentAlpha);
        hide SpendsSoFar;
        var spent := spends.SpentSince(rules[k].id, since);
        if spent > 0.0 {
          spentAlpha := spentAlpha[rules[k].id := spent];
        }
      }
    }
    SpendsLoaded(e, spends.table, rules, readAt, spentAlpha);
  }

  method StoreEvents(alerts: AlertRuleStore, events: seq<AlertEvent>)
    modifies alerts
    ensures alerts.Contents() == StoreAll(old(alerts.Contents()), events)
  {
    hide Apply;
    for k := 0 to |events|
      invariant alerts.Contents() == StoreAll(old(alerts.Contents()), events[..k])
    {
      StoreNext(old(alerts.Contents()), events, k);
      alerts.PutEvent(events[k]);
    }
    assert events[..|events|] == events;
  }

  method RecordSpends(spends: AlphaSpendStore, debits: seq<RuleSpend>, at: int, window: int)
    requires WellKeyed(spends.table)
    modifies spends
    ensures spends.table == DebitAll(old(spends.table), debits, at, at - window) && WellKeyed(spends.table)
  {
    hide Spend, WellKeyed, IsAfterSpend;
    for k := 0 to |debits|
      invariant spends.table == DebitAll(old(spends.table), debits[..k], at, at - window)
      invariant WellKeyed(spends.table)
    {
      DebitNext(old(spends.table), debits, at, at - window, k);
      spends.RecordSpend(debits[k].ruleId, at, debits[k].alpha, at - window);
    }
    assert debits[..|debits|] == debits;
  }

  /** One job's alerting: load, evaluate, store the events, record the debits. */
  method AlertSection(e: Engine, alerts: AlertRuleStore, spends: AlphaSpendStore, report: DriftReport,
      rules: seq<AlertRule>,
                      readAt: int, evalAt: int, debitAt: int, ids: seq<Id>)
    requires |ids| == |rules| && WellKeyed(spends.table)
    modifies alerts, spends
    ensures var looks := JobLooks(e, old(alerts.Contents()), old(spends.table), report, rules, readAt, evalAt, ids);
            && alerts.Contents() == StoreAll(old(alerts.Contents()), Present(Events(looks)))
            && spends.table == if e.sequential.None? then old(spends.table)
                 else DebitAll(old(spends.table), Present(Spends(looks)), debitAt,
                          debitAt - e.sequential.value.window)
    ensures WellKeyed(spends.table)
  {
    hide LoadedFires, LoadedSpends, WellKeyed, Apply, Spend, LookAt, SpentAt;
    ghost var looks := JobLooks(e, alerts.Contents(), spends.table, report, rules, readAt, evalAt, ids);
    var lastFired := LoadLastFired(alerts, rules);
    var spentAlpha := LoadSpent(e, spends, rules, readAt);
    var outcome := EvaluateAndFire(e, report, rules, lastFired, spentAlpha, evalAt, ids);
    LooksLoaded(e, alerts.Contents(), spends.table, report, rules, lastFired, spentAlpha, readAt, evalAt, ids);
    hide JobLooks, Looks, Present, Events, Spends;
    StoreEvents(alerts, outcome.events);
    if e.sequential.Some? {
      RecordSpends(spends, outcome.spends, debitAt, e.sequential.value.window);
    } else {
      NoSpends(looks);
    }
  }

  lemma LooksLoaded(e: Engine, t: Tables, ledger: Table, report: DriftReport, rules: seq<AlertRule>,
      lastFired: map<Id, int>,
                    spentAlpha: map<Id, real>, readAt: int, evalAt: int, ids: seq<Id>)
    requires |ids| == |rules| && LoadedFires(t, rules, lastFired) && LoadedSpends(e, ledger, rules, readAt, spentAlpha)
    ensures Looks(e, report, rules, lastFired, spentAlpha, evalAt, ids)
        == JobLooks(e, t, ledger, report, rules, readAt, evalAt, ids)
    ensures e.sequential.None? ==> forall k :: 0 <= k < |rules| ==>
        JobLooks(e, t, ledger, report, rules, readAt, evalAt, ids)[k].spend.None?
  {
    hide Spent;
  }

  lemma {:induction false} NoSpends(looks: seq<Look>)
    requires forall k :: 0 <= k < |looks| ==> looks[k].spend.None?
    ensures Present(Spends(looks)) == []
    decreases |looks|
  {
    if looks != [] {
      NoSpends(looks[..|looks| - 1]);
      assert Spends(looks)[..|looks| - 1] == Spends(looks[..|looks| - 1]);
    }
  }

  // ---------- The job as a run of the protocol ----------

  lemma {:induction false} TakesMore(e: Engine, s: State, first: seq<Step>, mid: State, second: seq<Step>, s': State)
    requires Takes(e, s, first, mid) && Takes(e, mid, second, s')
    ensures Takes(e, s, first + second, s')
    decreases |first|
  {
    hide Enabled, Next;
    if first == [] {
      assert first + second == second;
    } else {
      assert (first + second)[1..] == first[1..] + second;
      TakesMore(e, Next(e, s, first[0]), first[1..], mid, second, s');
    }
  }

  lemma TakesOne(e: Engine, s: State, step: Step)
    requires Enabled(e, s, step)
    ensures Takes(e, s, [step], Next(e, s, step))
  {
    hide Enabled, Next;
    assert [step][1..] == [];
  }

  /** The rule can start a look at `readAt` and debit it at `debitAt`. */
  ghost predicate Ready(e: Engine, s: State, id: Id, readAt: int, debitAt: int) {
    PhaseOf(s, id).Idle? && NotBefore(s.clocks, id, readAt) && FreshStamp(DebitsOf(e, s.looks), id, debitAt)
  }

  /** What one whole look does to the tables. */
  ghost predicate LookTables(e: Engine, s: State, s': State, id: Id, look: Look, debitAt: int) {
    && s'.tables == (if look.event.Some? then Apply(s.tables, InsertEvent(look.event.value)) else s.tables)
    && s'.ledger == (if look.spend.Some?
        then Spend(s.ledger, id, debitAt, look.spend.value.alpha, debitAt - Window(e)) else s.ledger)
  }

  ghost predicate LookDone(e: Engine, s: State, s': State, id: Id, look: Look, debitAt: int) {
    && LookTables(e, s, s', id, look, debitAt)
    && (forall x: Id, r, d :: x != id && Ready(e, s, x, r, d) ==> Ready(e, s', x, r, d))
  }

  lemma OneLook(
    e: Engine, s: State, report: DriftReport, rule: AlertRule, readAt: int, evalAt: int, debitAt: int, id: Id)
    returns (steps: seq<Step>, s': State)
    requires readAt <= evalAt <= debitAt && debitAt <= MAX_NANOS && report.combinedPValue >= 0.0
    requires Ready(e, s, rule.id, readAt, debitAt)
    ensures Takes(e, s, steps, s')
    ensures LookDone(e, s, s', rule.id, JobLook(e, s.tables, s.ledger, report, rule, readAt, evalAt, id), debitAt)
  {
    var look := JobLook(e, s.tables, s.ledger, report, rule, readAt, evalAt, id);
    hide DebitsOf, Spent, Apply, Spend, LookAt, FreshStamp, LookDone;
    var s1 := Next(e, s, ReadLastFired(rule.id));
    var s2 := Next(e, s1, ReadSpent(rule.id, readAt));
    var s3 := Next(e, s2, Evaluate(rule, report, evalAt, id));
    assert PhaseOf(s3, rule.id) == Judged(rule, readAt, SpentAt(e, s.ledger, rule.id, readAt), look, false);
    TakesOne(e, s, ReadLastFired(rule.id));
    TakesOne(e, s1, ReadSpent(rule.id, readAt));
    TakesOne(e, s2, Evaluate(rule, report, evalAt, id));
    var store := if look.event.Some? then [StoreEvent(rule.id)] else [];
    var s4 := if look.event.Some? then Next(e, s3, StoreEvent(rule.id)) else s3;
    if look.event.Some? {
      TakesOne(e, s3, StoreEvent(rule.id));
    }
    s' := Next(e, s4, Finish(rule.id, debitAt));
    TakesOne(e, s4, Finish(rule.id, debitAt));
    hide Enabled, Next;
    TakesMore(e, s, [ReadLastFired(rule.id)], s1, [ReadSpent(rule.id, readAt)], s2);
    var loads := [ReadLastFired(rule.id)] + [ReadSpent(rule.id, readAt)];
    TakesMore(e, s, loads, s2, [Evaluate(rule, report, evalAt, id)], s3);
    steps := [ReadLastFired(rule.id)] + [ReadSpent(rule.id, readAt)] + [Evaluate(rule, report, evalAt, id)];
    TakesMore(e, s, steps, s3, store, s4);
    TakesMore(e, s, steps + store, s4, [Finish(rule.id, debitAt)], s');
    steps := steps + store + [Finish(rule.id, debitAt)];
    LookIsDone(e, s, report, rule, readAt, evalAt, debitAt, id, s4);
  }

  lemma LookIsDone(
    e: Engine, s: State, report: DriftReport, rule: AlertRule, readAt: int, evalAt: int, debitAt: int, id: Id,
    s4: State)
    requires var look := JobLook(e, s.tables, s.ledger, report, rule, readAt, evalAt, id);
      && s4.tables == (if look.event.Some? then Apply(s.tables, InsertEvent(look.event.value)) else s.tables)
      && s4.ledger == s.ledger && s4.looks == s.looks && Enabled(e, s4, Finish(rule.id, debitAt))
      && PhaseOf(s4, rule.id).look == look && PhaseOf(s4, rule.id).rule == rule
      && forall x: Id :: x != rule.id ==>
          PhaseOf(s4, x) == PhaseOf(s, x) && (x in s4.clocks <==> x in s.clocks)
          && (x in s.clocks ==> s4.clocks[x] == s.clocks[x])
    ensures LookDone(e, s, Next(e, s4, Finish(rule.id, debitAt)), rule.id,
        JobLook(e, s.tables, s.ledger, report, rule, readAt, evalAt, id), debitAt)
  {
    hide DebitsOf, JobLook, Apply, Spend;
    var s' := Next(e, s4, Finish(rule.id, debitAt));
    assert forall x: Id :: x != rule.id ==>
        PhaseOf(s', x) == PhaseOf(s4, x) && (x in s'.clocks <==> x in s4.clocks)
        && (x in s4.clocks ==> s'.clocks[x] == s4.clocks[x]);
    OthersReady(e, s, s', s'.looks[|s.looks|]);
    hide Ready;
  }

  lemma OthersReady(e: Engine, s: State, s': State, r: LookRecord)
    requires s'.looks == s.looks + [r]
    requires forall x: Id :: x != r.rule.id ==>
        PhaseOf(s', x) == PhaseOf(s, x) && (x in s'.clocks <==> x in s.clocks)
        && (x in s.clocks ==> s'.clocks[x] == s.clocks[x])
    ensures forall x: Id, t, d :: x != r.rule.id && Ready(e, s, x, t, d) ==> Ready(e, s', x, t, d)
  {
    DebitsNext(e, s.looks, r);
    hide DebitsOf, PhaseOf;
  }

  /** A look at one rule changes nothing that a look at another rule reads. */
  lemma OtherRule(e: Engine, s: State, s': State, id: Id, look: Look, debitAt: int, x: Id, readAt: int)
    requires LookTables(e, s, s', id, look, debitAt) && WellKeyed(s.ledger) && x != id
    requires look.event.Some? ==> look.event.value.ruleId == id
    ensures LastFiredOf(s'.tables, x) == LastFiredOf(s.tables, x)
        && SpentAt(e, s'.ledger, x, readAt) == SpentAt(e, s.ledger, x, readAt)
  {
    hide Spend, WellKeyed, Ready;
    assert LastFiredOf(s'.tables, x) == LastFiredOf(s.tables, x);
    hide Apply, SumFrom, Stamp, LastFiredOf;
    if look.spend.Some? && e.sequential.Some? {
      OtherSpent(e, s.ledger, id, look.spend.value.alpha, debitAt, x, readAt);
    }
  }

  lemma OtherSpent(e: Engine, ledger: Table, id: Id, alpha: real, at: int, x: Id, readAt: int)
    requires WellKeyed(ledger) && x != id
    ensures Spent(Spend(ledger, id, at, alpha, at - Window(e)), x, readAt - Window(e))
        == Spent(ledger, x, readAt - Window(e))
  {
    hide Spend, WellKeyed, SumFrom;
    SumAfterSpend(ledger, Debit(id, at, alpha, at - Window(e)), x, Stamp(readAt - Window(e)));
  }

  lemma StillKeyed(e: Engine, s: State, s': State, id: Id, look: Look, debitAt: int)
    requires LookTables(e, s, s', id, look, debitAt) && WellKeyed(s.ledger)
    ensures WellKeyed(s'.ledger)
  {
    if look.spend.Some? {
      SpendEntries(s.ledger, id, debitAt, look.spend.value.alpha, debitAt - Window(e));
    }
    hide Spend, WellKeyed, Ready, IsAfterSpend;
  }

  lemma StoredNext(t: Tables, looks: seq<Look>, k: nat)
    requires k < |looks|
    ensures var events := Events(looks);
            StoreAll(t, Present(events[..k + 1])) ==
              if looks[k].event.Some? then Apply(StoreAll(t, Present(events[..k])), InsertEvent(looks[k].event.value))
                  else StoreAll(t, Present(events[..k]))
  {
    hide Apply, StoreAll, Present;
    var events := Events(looks);
    PresentNext(events, k);
    var before := Present(events[..k]);
    if looks[k].event.Some? {
      var after := before + [looks[k].event.value];
      assert after[..|before|] == before && after[..|before| + 1] == after;
      StoreNext(t, after, |before|);
    } else {
      assert before + [] == before;
    }
  }

  lemma DebitedNext(ledger: Table, looks: seq<Look>, k: nat, at: int, pruneBefore: int)
    requires k < |looks|
    ensures var spends := Spends(looks);
            DebitAll(ledger, Present(spends[..k + 1]), at, pruneBefore) ==
              if looks[k].spend.Some?
              then Spend(DebitAll(ledger, Present(spends[..k]), at, pruneBefore), looks[k].spend.value.ruleId, at,
                  looks[k].spend.value.alpha, pruneBefore)
              else DebitAll(ledger, Present(spends[..k]), at, pruneBefore)
  {
    hide Spend, DebitAll, Present;
    var spends := Spends(looks);
    PresentNext(spends, k);
    var before := Present(spends[..k]);
    if looks[k].spend.Some? {
      var after := before + [looks[k].spend.value];
      assert after[..|before|] == before && after[..|before| + 1] == after;
      DebitNext(ledger, after, at, pruneBefore, |before|);
    } else {
      assert before + [] == before;
    }
  }

  ghost predicate CanStart(
    e: Engine, s: State, report: DriftReport, rules: seq<AlertRule>, readAt: int, evalAt: int, debitAt: int,
    ids: seq<Id>) {
    && |ids| == |rules| && WellKeyed(s.ledger)
    && readAt <= evalAt <= debitAt && debitAt <= MAX_NANOS && report.combinedPValue >= 0.0
    && (forall i, j :: 0 <= i < j < |rules| ==> rules[i].id != rules[j].id)
    && (forall j :: 0 <= j < |rules| ==> Ready(e, s, rules[j].id, readAt, debitAt))
  }

  /** The rules from `k` on see what they would have seen at the start. */
  ghost predicate Untouched(e: Engine, s: State, s': State, rules: seq<AlertRule>, k: nat, readAt: int, debitAt: int) {
    forall j :: k <= j < |rules| ==>
      && Ready(e, s', rules[j].id, readAt, debitAt)
      && LastFiredOf(s'.tables, rules[j].id) == LastFiredOf(s.tables, rules[j].id)
      && SpentAt(e, s'.ledger, rules[j].id, readAt) == SpentAt(e, s.ledger, rules[j].id, readAt)
  }

  lemma UntouchedNext(
    e: Engine, s: State, mid: State, s': State, rules: seq<AlertRule>, k: nat, readAt: int, debitAt: int, look: Look)
    requires k < |rules| && Untouched(e, s, mid, rules, k, readAt, debitAt) && WellKeyed(mid.ledger)
    requires LookDone(e, mid, s', rules[k].id, look, debitAt)
        && (look.event.Some? ==> look.event.value.ruleId == rules[k].id)
    requires forall i, j :: 0 <= i < j < |rules| ==> rules[i].id != rules[j].id
    ensures Untouched(e, s, s', rules, k + 1, readAt, debitAt)
  {
    hide SpentAt, Ready, Apply, Spend, WellKeyed;
    forall j | k + 1 <= j < |rules|
      ensures LastFiredOf(s'.tables, rules[j].id) == LastFiredOf(s.tables, rules[j].id)
      ensures SpentAt(e, s'.ledger, rules[j].id, readAt) == SpentAt(e, s.ledger, rules[j].id, readAt)
    {
      hide LastFiredOf, LookDone;
      OtherRule(e, mid, s', rules[k].id, look, debitAt, rules[j].id, readAt);
    }
  }

  lemma SameLook(
    e: Engine, s: State, mid: State, report: DriftReport, rules: seq<AlertRule>, readAt: int, evalAt: int,
    debitAt: int, ids: seq<Id>, k: nat)
    requires |ids| == |rules| && k < |rules| && Untouched(e, s, mid, rules, k, readAt, debitAt)
    ensures var look := JobLooks(e, s.tables, s.ledger, report, rules, readAt, evalAt, ids)[k];
            && look == JobLook(e, mid.tables, mid.ledger, report, rules[k], readAt, evalAt, ids[k])
            && (look.event.Some? ==> look.event.value.ruleId == rules[k].id)
                && (look.spend.Some? ==> look.spend.value.ruleId == rules[k].id)
  {
    hide SpentAt, Ready;
  }

  /** The tables after the first `k` looks, as the job leaves them. */
  ghost predicate TablesAfter(e: Engine, s: State, looks: seq<Look>, k: nat, debitAt: int, s': State)
    requires k <= |looks|
  {
    && s'.tables == StoreAll(s.tables, Present(Events(looks)[..k]))
    && s'.ledger == DebitAll(s.ledger, Present(Spends(looks)[..k]), debitAt, debitAt - Window(e))
  }

  lemma TablesNext(e: Engine, s: State, looks: seq<Look>, k: nat, debitAt: int, mid: State, s': State, id: Id)
    requires k < |looks| && TablesAfter(e, s, looks, k, debitAt, mid) && LookTables(e, mid, s', id, looks[k], debitAt)
    requires looks[k].spend.Some? ==> looks[k].spend.value.ruleId == id
    ensures TablesAfter(e, s, looks, k + 1, debitAt, s')
  {
    hide Spend, Apply, Present, Events, Spends, StoreAll, DebitAll;
    StoredNext(s.tables, looks, k);
    DebitedNext(s.ledger, looks, k, debitAt, debitAt - Window(e));
  }

  /**
   * A job that loads everything for all its rules, then evaluates them, then stores every event and
   * then every debit, leaves the tables as looks made one rule after the other would: it is a run.
   */
  lemma {:induction false} JobIsRun(
    e: Engine, s: State, report: DriftReport, rules: seq<AlertRule>, readAt: int, evalAt: int, debitAt: int,
    ids: seq<Id>, k: nat)
    returns (steps: seq<Step>, s': State)
    requires CanStart(e, s, report, rules, readAt, evalAt, debitAt, ids) && k <= |rules|
    ensures Takes(e, s, steps, s') && WellKeyed(s'.ledger) && Untouched(e, s, s', rules, k, readAt, debitAt)
    ensures var looks := JobLooks(e, s.tables, s.ledger, report, rules, readAt, evalAt, ids);
            TablesAfter(e, s, looks, k, debitAt, s')
  {
    var looks := JobLooks(e, s.tables, s.ledger, report, rules, readAt, evalAt, ids);
    if k == 0 {
      steps, s' := [], s;
      hide Ready, JobLook, SpentAt, WellKeyed;
    } else {
      hide CanStart, Untouched, JobLook, JobLooks, WellKeyed, Takes, TablesAfter;
      var before, mid := JobIsRun(e, s, report, rules, readAt, evalAt, debitAt, ids, k - 1);
      var one: seq<Step>;
      one, s' := JobStep(e, s, mid, report, rules, readAt, evalAt, debitAt, ids, k - 1);
      TakesMore(e, s, before, mid, one, s');
      steps := before + one;
    }
  }

  lemma JobStep(
    e: Engine, s: State, mid: State, report: DriftReport, rules: seq<AlertRule>, readAt: int, evalAt: int,
    debitAt: int, ids: seq<Id>, k: nat)
    returns (steps: seq<Step>, s': State)
    requires CanStart(e, s, report, rules, readAt, evalAt, debitAt, ids) && k < |rules|
    requires WellKeyed(mid.ledger) && Untouched(e, s, mid, rules, k, readAt, debitAt)
    requires TablesAfter(e, s, JobLooks(e, s.tables, s.ledger, report, rules, readAt, evalAt, ids), k, debitAt, mid)
    ensures Takes(e, mid, steps, s') && WellKeyed(s'.ledger) && Untouched(e, s, s', rules, k + 1, readAt, debitAt)
    ensures TablesAfter(e, s, JobLooks(e, s.tables, s.ledger, report, rules, readAt, evalAt, ids), k + 1, debitAt, s')
  {
    hide Untouched, JobLook, JobLooks, WellKeyed, Takes, LookDone, TablesAfter, Ready, LookTables;
    var looks := JobLooks(e, s.tables, s.ledger, report, rules, readAt, evalAt, ids);
    var look, rule := looks[k], rules[k];
    SameLook(e, s, mid, report, rules, readAt, evalAt, debitAt, ids, k);
    StillReady(e, s, mid, rules, k, readAt, debitAt);
    steps, s' := OneLook(e, mid, report, rule, readAt, evalAt, debitAt, ids[k]);
    DoneTables(e, mid, s', rule.id, look, debitAt);
    TablesNext(e, s, looks, k, debitAt, mid, s', rule.id);
    UntouchedNext(e, s, mid, s', rules, k, readAt, debitAt, look);
    StillKeyed(e, mid, s', rule.id, look, debitAt);
  }

  lemma DoneTables(e: Engine, s: State, s': State, id: Id, look: Look, debitAt: int)
    requires LookDone(e, s, s', id, look, debitAt)
    ensures LookTables(e, s, s', id, look, debitAt)
  {
  }

  lemma StillReady(e: Engine, s: State, mid: State, rules: seq<AlertRule>, k: nat, readAt: int, debitAt: int)
    requires k < |rules| && Untouched(e, s, mid, rules, k, readAt, debitAt)
    ensures Ready(e, mid, rules[k].id, readAt, debitAt)
  {
  }
}
