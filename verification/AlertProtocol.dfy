/**
 * Whole runs of the alerting protocol. A look at a rule loads the rule's latest fire, loads what
 * it has spent in the window, judges the report, stores the event if there is one, and records
 * its debit. The looks of one rule follow each other; looks at different rules interleave freely,
 * with each other and with edits, deletions and acknowledgements.
 */
module AlertProtocol {
  import opened Results
  import opened Keys
  import opened SpendStore
  import opened Ledger
  import opened AlertEngine
  import opened AlertStore

  datatype Phase =
    | Idle
    | LastLoaded(last: Option<int>)
    | Loaded(last: Option<int>, readAt: int, spent: real)
    | Judged(rule: AlertRule, readAt: int, spent: real, look: Look, stored: bool)

  /** A look that ran to its end; `level` is what it debited, 0 for nothing. */
  datatype LookRecord = LookRecord(rule: AlertRule, readAt: int, at: int, level: real, event: Option<AlertEvent>)

  /** The tables, where each rule's look stands, the latest clock reading of each rule, and the logs of what
      happened. */
  datatype State = State(
    tables: Tables, ledger: Table, phases: map<Id, Phase>, clocks: map<Id, int>, ops: seq<Op>, looks: seq<LookRecord>)

  const INIT: State := State(EMPTY, map[], map[], map[], [], [])

  datatype Step =
    | ReadLastFired(id: Id)
    | ReadSpent(id: Id, now: int)
    | Evaluate(rule: AlertRule, report: DriftReport, now: int, eventId: Id)
    | StoreEvent(id: Id)
    | Finish(id: Id, now: int)
    | Abandon(id: Id)
    | External(op: Op)

  predicate ValidEngine(e: Engine) {
    e.sequential.Some? ==> e.sequential.value.alphaBudget > 0.0 && e.sequential.value.window >= 0
  }

  function Window(e: Engine): int {
    if e.sequential.Some? then e.sequential.value.window else 0
  }

  function Budget(e: Engine): real {
    if e.sequential.Some? then e.sequential.value.alphaBudget else 0.0
  }

  function PhaseOf(s: State, id: Id): Phase {
    if id in s.phases then s.phases[id] else Idle
  }

  predicate NotBefore(clocks: map<Id, int>, id: Id, now: int) {
    id in clocks ==> clocks[id] <= now
  }

  /** The debits that the looks recorded. */
  function DebitsOf(e: Engine, looks: seq<LookRecord>): seq<Debit>
    decreases |looks|
  {
    if looks == [] then []
    else
      var r := looks[|looks| - 1];
      var before := DebitsOf(e, looks[..|looks| - 1]);
      if r.level > 0.0 then before + [Debit(r.rule.id, r.at, r.level, r.at - Window(e))] else before
  }

  predicate FreshStamp(debits: seq<Debit>, id: Id, now: int) {
    0 <= now <= MAX_NANOS && forall i :: 0 <= i < |debits| && debits[i].rule == id ==> debits[i].at != now
  }

  ghost predicate Enabled(e: Engine, s: State, step: Step) {
    match step
    case ReadLastFired(id) => PhaseOf(s, id).Idle?
    case ReadSpent(id, now) => PhaseOf(s, id).LastLoaded? && NotBefore(s.clocks, id, now) && now <= MAX_NANOS
    case Evaluate(rule, report, now, _) => PhaseOf(s, rule.id).Loaded? && NotBefore(s.clocks, rule.id, now)
        && report.combinedPValue >= 0.0
    case StoreEvent(id) => PhaseOf(s, id).Judged? && PhaseOf(s, id).look.event.Some? && !PhaseOf(s, id).stored
    case Finish(id, now) =>
      && PhaseOf(s, id).Judged? && (PhaseOf(s, id).look.event.Some? ==> PhaseOf(s, id).stored)
      && NotBefore(s.clocks, id, now)
      && (PhaseOf(s, id).look.spend.Some? ==> FreshStamp(DebitsOf(e, s.looks), id, now))
    case Abandon(id) => PhaseOf(s, id).Judged? ==> PhaseOf(s, id).look.event.None?
    case External(op) => !op.InsertEvent?
  }

  function AsMap<T>(id: Id, x: Option<T>): map<Id, T> {
    if x.Some? then map[id := x.value] else map[]
  }

  /** The engine is handed a total only where it is positive. */
  function SpentMap(id: Id, spent: real): map<Id, real> {
    if spent > 0.0 then map[id := spent] else map[]
  }

  ghost function Next(e: Engine, s: State, step: Step): State
    requires Enabled(e, s, step)
  {
    match step
    case ReadLastFired(id) => s.(phases := s.phases[id := LastLoaded(LastFiredOf(s.tables, id))])
    case ReadSpent(id, now) =>
      var spent := if e.sequential.Some? then Spent(s.ledger, id, now - Window(e)) else 0.0;
      s.(phases := s.phases[id := Loaded(PhaseOf(s, id).last, now, spent)], clocks := s.clocks[id := now])
    case Evaluate(rule, report, now, eventId) =>
      var ph := PhaseOf(s, rule.id);
      var look := LookAt(e, report, rule, AsMap(rule.id, ph.last), SpentMap(rule.id, ph.spent), now, eventId);
      s.(phases := s.phases[rule.id := Judged(rule, ph.readAt, ph.spent, look, false)],
          clocks := s.clocks[rule.id := now])
    case StoreEvent(id) =>
      var ph := PhaseOf(s, id);
      var op := InsertEvent(ph.look.event.value);
      s.(tables := Apply(s.tables, op), ops := s.ops + [op], phases := s.phases[id := ph.(stored := true)])
    case Finish(id, now) =>
      var ph := PhaseOf(s, id);
      var level := if ph.look.spend.Some? then ph.look.spend.value.alpha else 0.0;
      s.(ledger := if ph.look.spend.Some? then Spend(s.ledger, id, now, level, now - Window(e)) else s.ledger,
         looks := s.looks + [LookRecord(ph.rule, ph.readAt, now, level, ph.look.event)],
         phases := s.phases[id := Idle], clocks := s.clocks[id := now])
    case Abandon(id) => s.(phases := s.phases[id := Idle])
    case External(op) => s.(tables := Apply(s.tables, op), ops := s.ops + [op])
  }

  /** A run: the steps lead from one state to the other. */
  ghost predicate Takes(e: Engine, s: State, steps: seq<Step>, s': State)
    decreases |steps|
  {
    if steps == [] then s == s' else Enabled(e, s, steps[0]) && Takes(e, Next(e, s, steps[0]), steps[1..], s')
  }

  // ---------- What every step keeps ----------

  /** Every fire stored since the last deletion is covered by what was loaded. */
  ghost predicate CoversFires(ops: seq<Op>, id: Id, last: Option<int>) {
    forall i :: FiredSince(ops, id, i) ==> last.Some? && ops[i].event.firedAt <= last.value
  }

  /** No fire stored since the last deletion is within the cooldown of `at`. */
  ghost predicate Cool(e: Engine, ops: seq<Op>, id: Id, at: int) {
    e.cooldown > 0 ==> forall i :: FiredSince(ops, id, i) ==> ops[i].event.firedAt + e.cooldown <= at
  }

  /** `spent` is still all that the rule has spent since the start of the window it was read for. */
  ghost predicate SpentKnown(e: Engine, debits: seq<Debit>, clocks: map<Id, int>, id: Id, readAt: int, spent: real) {
    && spent == WindowSum(debits, id, readAt - Window(e), MAX_NANOS)
    && (forall i :: 0 <= i < |debits| && debits[i].rule == id ==> debits[i].at <= readAt)
    && id in clocks && readAt <= clocks[id]
  }

  /** The level that the budget leaves. */
  function Level(e: Engine, rule: AlertRule, spent: real): real {
    Min(rule.targetFpr, Max(Budget(e) - spent, 0.0))
  }

  predicate LookSound(e: Engine, id: Id, rule: AlertRule, spent: real, look: Look) {
    && rule.id == id
    && (look.event.Some? ==> look.event.value.ruleId == id)
    && (e.sequential.Some? ==>
          && look.level == Level(e, rule, spent)
          && look.spend == (if rule.active && look.level > 0.0 then Some(RuleSpend(id, look.level)) else None)
          && (look.event.Some? ==> look.spend.Some? && look.event.value.report.combinedPValue < look.level))
    && (e.sequential.None? ==> look.spend.None?)
  }

  ghost predicate PhaseSound(e: Engine, ph: Phase, ops: seq<Op>, debits: seq<Debit>, clocks: map<Id, int>, id: Id) {
    match ph
    case Idle => true
    case LastLoaded(last) => CoversFires(ops, id, last)
    case Loaded(last, readAt, spent) =>
      CoversFires(ops, id, last) && (e.sequential.Some? ==> SpentKnown(e, debits, clocks, id, readAt, spent))
    case Judged(rule, readAt, spent, look, stored) =>
      && LookSound(e, id, rule, spent, look)
      && (look.event.Some? && !stored ==> Cool(e, ops, id, look.event.value.firedAt))
      && (e.sequential.Some? ==> SpentKnown(e, debits, clocks, id, readAt, spent))
  }

  ghost predicate DebitsSound(e: Engine, debits: seq<Debit>, clocks: map<Id, int>) {
    && NonNegative(debits) && Timely(debits)
    && forall i :: 0 <= i < |debits| ==>
         debits[i].pruneBefore == debits[i].at - Window(e) && debits[i].rule in clocks
             && debits[i].at <= clocks[debits[i].rule]
  }

  /** What a rule spent in the window that ends at `t`. */
  function WindowSpend(e: Engine, debits: seq<Debit>, id: Id, t: int): real {
    WindowSum(debits, id, t - Window(e), t)
  }

  ghost predicate WithinBudget(e: Engine, debits: seq<Debit>) {
    forall id: Id, t: int :: WindowSpend(e, debits, id, t) <= Budget(e)
  }

  /** Two fires of a rule that was not deleted in between are a cooldown apart. */
  ghost predicate Spaced(e: Engine, ops: seq<Op>) {
    forall j :: 0 <= j < |ops| && ops[j].InsertEvent? ==> Cool(e, ops[..j], ops[j].event.ruleId, ops[j].event.firedAt)
  }

  /** The look that produced the event debited its rule, at a level above the p-value and no higher than the
      rule's rate. */
  predicate Paid(e: Engine, look: LookRecord, event: AlertEvent) {
    && look.event == Some(event) && look.rule.id == event.ruleId
    && event.report.combinedPValue < look.level <= look.rule.targetFpr && look.level > 0.0
  }

  predicate InFlight(s: State, event: AlertEvent) {
    && PhaseOf(s, event.ruleId).Judged? && PhaseOf(s, event.ruleId).stored
    && PhaseOf(s, event.ruleId).look.event == Some(event)
  }

  ghost predicate EventsPaid(e: Engine, s: State) {
    forall i :: 0 <= i < |s.ops| && s.ops[i].InsertEvent? ==>
      InFlight(s, s.ops[i].event) || exists k :: 0 <= k < |s.looks| && Paid(e, s.looks[k], s.ops[i].event)
  }

  /** Each look took the level that the debits before it left. */
  ghost predicate LevelsExact(e: Engine, looks: seq<LookRecord>) {
    && (forall k :: 0 <= k < |looks| ==> looks[k].level >= 0.0)
    && forall k :: 0 <= k < |looks| && looks[k].rule.active && looks[k].rule.targetFpr > 0.0 ==>
      looks[k].level == Level(e, looks[k].rule,
          WindowSum(DebitsOf(e, looks[..k]), looks[k].rule.id, looks[k].readAt - Window(e), MAX_NANOS))
  }

  ghost predicate PhasesSound(e: Engine, s: State) {
    forall id: Id :: PhaseSound(e, PhaseOf(s, id), s.ops, DebitsOf(e, s.looks), s.clocks, id)
  }

  /** The tables are what the logged operations make of empty ones. */
  ghost predicate Replayed(e: Engine, s: State) {
    s.tables == AlertStore.Replay(s.ops) && s.ledger == Ledger.Replay(DebitsOf(e, s.looks))
  }

  ghost predicate Inv(e: Engine, s: State) {
    && Replayed(e, s)
    && DebitsSound(e, DebitsOf(e, s.looks), s.clocks)
    && PhasesSound(e, s)
    && Spaced(e, s.ops)
    && (e.sequential.Some? ==> WithinBudget(e, DebitsOf(e, s.looks)) && EventsPaid(e, s) && LevelsExact(e, s.looks))
  }

  // ---------- Frames: what a step leaves alone ----------

  lemma OtherOp(e: Engine, ph: Phase, ops: seq<Op>, op: Op, debits: seq<Debit>, clocks: map<Id, int>, id: Id)
    requires PhaseSound(e, ph, ops, debits, clocks, id)
    requires op.InsertEvent? ==> op.event.ruleId != id
    ensures PhaseSound(e, ph, ops + [op], debits, clocks, id)
  {
    forall i | FiredSince(ops + [op], id, i)
      ensures FiredSince(ops, id, i) && (ops + [op])[i] == ops[i]
    {
      FiredStep(ops + [op], id, i);
      assert (ops + [op])[..|ops|] == ops;
    }
    hide FiredSince, SpentKnown, LookSound;
  }

  lemma OtherDebit(e: Engine, ph: Phase, ops: seq<Op>, debits: seq<Debit>, d: Debit, clocks: map<Id, int>, id: Id)
    requires PhaseSound(e, ph, ops, debits, clocks, id) && d.rule != id
    ensures PhaseSound(e, ph, ops, debits + [d], clocks, id)
  {
    forall lo, hi ensures WindowSum(debits + [d], id, lo, hi) == WindowSum(debits, id, lo, hi) {
      WindowSnoc(debits, d, id, lo, hi);
    }
    hide WindowSum, CoversFires, Cool, LookSound;
  }

  lemma WindowSnoc(debits: seq<Debit>, d: Debit, id: Id, lo: int, hi: int)
    ensures WindowSum(debits + [d], id, lo, hi)
         == WindowSum(debits, id, lo, hi) + if d.rule == id && lo <= d.at <= hi then d.alpha else 0.0
  {
    assert (debits + [d])[..|debits|] == debits;
  }

  lemma OtherClock(
    e: Engine, ph: Phase, ops: seq<Op>, debits: seq<Debit>, clocks: map<Id, int>, id: Id, who: Id, now: int)
    requires PhaseSound(e, ph, ops, debits, clocks, id) && NotBefore(clocks, who, now)
    ensures PhaseSound(e, ph, ops, debits, clocks[who := now], id)
  {
    hide WindowSum, CoversFires, Cool, LookSound;
  }

  lemma SpacedNext(e: Engine, ops: seq<Op>, op: Op)
    requires Spaced(e, ops) && (op.InsertEvent? ==> Cool(e, ops, op.event.ruleId, op.event.firedAt))
    ensures Spaced(e, ops + [op])
  {
    var ops' := ops + [op];
    hide Cool;
    forall j | 0 <= j < |ops'| && ops'[j].InsertEvent?
      ensures Cool(e, ops'[..j], ops'[j].event.ruleId, ops'[j].event.firedAt) {
      assert ops'[..j] == ops[..j];
    }
    assert ops'[..|ops|] == ops[..|ops|] == ops;
  }

  lemma ReplayNext(ops: seq<Op>, op: Op)
    ensures AlertStore.Replay(ops + [op]) == Apply(AlertStore.Replay(ops), op)
  {
    assert (ops + [op])[..|ops|] == ops;
  }

  /** Events stay paid for while no look that stored one moves on. */
  lemma StillPaid(e: Engine, s: State, s': State, id: Id)
    requires EventsPaid(e, s) && s'.ops == s.ops && s'.looks == s.looks
    requires forall x: Id :: x != id ==> PhaseOf(s', x) == PhaseOf(s, x)
    requires PhaseOf(s, id).Judged? ==> !PhaseOf(s, id).stored || PhaseOf(s, id).look.event.None?
    ensures EventsPaid(e, s')
  {
    hide Paid, PhaseOf;
    forall i | 0 <= i < |s.ops| && s.ops[i].InsertEvent? && InFlight(s, s.ops[i].event)
      ensures InFlight(s', s.ops[i].event) {
      assert s.ops[i].event.ruleId != id;
    }
  }

  lemma OnePhase(e: Engine, s: State, s': State, id: Id)
    requires PhasesSound(e, s) && s'.ops == s.ops && s'.looks == s.looks && s'.clocks == s.clocks
    requires forall x: Id :: x != id ==> PhaseOf(s', x) == PhaseOf(s, x)
    requires PhaseSound(e, PhaseOf(s', id), s.ops, DebitsOf(e, s.looks), s.clocks, id)
    ensures PhasesSound(e, s')
  {
    hide PhaseSound, PhaseOf, DebitsOf;
  }

  lemma OnePhaseOneClock(e: Engine, s: State, s': State, id: Id, now: int)
    requires PhasesSound(e, s) && s'.ops == s.ops && s'.looks == s.looks && s'.clocks == s.clocks[id := now]
    requires NotBefore(s.clocks, id, now)
    requires forall x: Id :: x != id ==> PhaseOf(s', x) == PhaseOf(s, x)
    requires PhaseSound(e, PhaseOf(s', id), s'.ops, DebitsOf(e, s'.looks), s'.clocks, id)
    ensures PhasesSound(e, s')
  {
    hide PhaseSound, PhaseOf, DebitsOf, NotBefore;
    forall x: Id ensures PhaseSound(e, PhaseOf(s', x), s'.ops, DebitsOf(e, s'.looks), s'.clocks, x) {
      OtherClock(e, PhaseOf(s, x), s.ops, DebitsOf(e, s.looks), s.clocks, x, id, now);
    }
  }

  // ---------- Each step ----------

  lemma CoversLatest(ops: seq<Op>, id: Id)
    ensures CoversFires(ops, id, LastFiredOf(AlertStore.Replay(ops), id))
  {
    LastFiredIsLatest(ops, id);
    hide FiredSince;
  }

  lemma KeepReadLastFired(e: Engine, s: State, id: Id)
    requires Inv(e, s) && Enabled(e, s, ReadLastFired(id))
    ensures Inv(e, Next(e, s, ReadLastFired(id)))
  {
    var s' := Next(e, s, ReadLastFired(id));
    CoversLatest(s.ops, id);
    hide CoversFires, DebitsSound, Spaced, WithinBudget, EventsPaid, LevelsExact, Cool, SpentKnown, LookSound;
    OnePhase(e, s, s', id);
    hide PhasesSound;
    if e.sequential.Some? {
      StillPaid(e, s, s', id);
    }
  }

  lemma SpentIsKnown(e: Engine, debits: seq<Debit>, clocks: map<Id, int>, id: Id, now: int)
    requires ValidEngine(e) && DebitsSound(e, debits, clocks) && NotBefore(clocks, id, now) && now <= MAX_NANOS
    ensures SpentKnown(e, debits, clocks[id := now], id, now, Spent(Ledger.Replay(debits), id, now - Window(e)))
  {
    hide Timely;
    LedgerRefinesHistory(debits, id, now - Window(e));
  }

  lemma KeepReadSpent(e: Engine, s: State, id: Id, now: int)
    requires ValidEngine(e) && Inv(e, s) && Enabled(e, s, ReadSpent(id, now))
    ensures Inv(e, Next(e, s, ReadSpent(id, now)))
  {
    hide Spaced, WithinBudget, EventsPaid, LevelsExact, Spent, SpentKnown, CoversFires, Cool, LookSound, DebitsOf,
      DebitsSound;
    var s' := Next(e, s, ReadSpent(id, now));
    SpentIsKnown(e, DebitsOf(e, s.looks), s.clocks, id, now);
    assert PhaseSound(e, PhaseOf(s, id), s.ops, DebitsOf(e, s.looks), s.clocks, id);
    OnePhaseOneClock(e, s, s', id, now);
    KeptSound(e, DebitsOf(e, s.looks), s.clocks, id, now);
    hide PhasesSound;
    if e.sequential.Some? {
      StillPaid(e, s, s', id);
    }
  }

  lemma KeptSound(e: Engine, debits: seq<Debit>, clocks: map<Id, int>, id: Id, now: int)
    requires DebitsSound(e, debits, clocks) && NotBefore(clocks, id, now)
    ensures DebitsSound(e, debits, clocks[id := now])
  {
  }

  lemma LookIsSound(
    e: Engine, report: DriftReport, rule: AlertRule, last: Option<int>, spent: real, now: int, eventId: Id,
    ops: seq<Op>)
    requires report.combinedPValue >= 0.0 && (e.sequential.Some? ==> spent >= 0.0) && CoversFires(ops, rule.id, last)
    ensures var look := LookAt(e, report, rule, AsMap(rule.id, last), SpentMap(rule.id, spent), now, eventId);
            LookSound(e, rule.id, rule, spent, look)
                && (look.event.Some? ==> Cool(e, ops, rule.id, look.event.value.firedAt))
  {
    hide FiredSince;
  }

  lemma KeepEvaluate(e: Engine, s: State, rule: AlertRule, report: DriftReport, now: int, eventId: Id)
    requires ValidEngine(e) && Inv(e, s) && Enabled(e, s, Evaluate(rule, report, now, eventId))
    ensures Inv(e, Next(e, s, Evaluate(rule, report, now, eventId)))
  {
    hide Spaced, WithinBudget, EventsPaid, LevelsExact, LookAt, CoversFires, Cool, LookSound, DebitsOf, WindowSum;
    var debits, id := DebitsOf(e, s.looks), rule.id;
    var ph, s' := PhaseOf(s, id), Next(e, s, Evaluate(rule, report, now, eventId));
    assert PhaseSound(e, ph, s.ops, debits, s.clocks, id);
    WindowWithin(debits, id, ph.readAt - Window(e), MAX_NANOS, ph.readAt - Window(e), MAX_NANOS);
    LookIsSound(e, report, rule, ph.last, ph.spent, now, eventId, s.ops);
    KeptSound(e, debits, s.clocks, id, now);
    hide DebitsSound;
    OnePhaseOneClock(e, s, s', id, now);
    hide PhasesSound, PhaseSound;
    if e.sequential.Some? {
      StillPaid(e, s, s', id);
    }
  }

  /** A stored event is paid for as long as its look is under way. */
  lemma StoredInFlight(e: Engine, s: State, s': State, id: Id, event: AlertEvent)
    requires EventsPaid(e, s) && s'.ops == s.ops + [InsertEvent(event)] && s'.looks == s.looks && event.ruleId == id
    requires forall x: Id :: x != id ==> PhaseOf(s', x) == PhaseOf(s, x)
    requires PhaseOf(s, id).Judged? && !PhaseOf(s, id).stored && PhaseOf(s, id).look.event == Some(event)
    requires PhaseOf(s', id) == PhaseOf(s, id).(stored := true)
    ensures EventsPaid(e, s')
  {
    hide PhaseOf, Paid;
  }

  lemma KeepStoreEvent(e: Engine, s: State, id: Id)
    requires Inv(e, s) && Enabled(e, s, StoreEvent(id))
    ensures Inv(e, Next(e, s, StoreEvent(id)))
  {
    var debits, ph, s' := DebitsOf(e, s.looks), PhaseOf(s, id), Next(e, s, StoreEvent(id));
    var op := InsertEvent(ph.look.event.value);
    assert PhaseSound(e, ph, s.ops, debits, s.clocks, id);
    assert LookSound(e, id, ph.rule, ph.spent, ph.look);
    ReplayNext(s.ops, op);
    SpacedNext(e, s.ops, op);
    hide CoversFires, Cool, SpentKnown, LookSound, DebitsSound, Spaced, WithinBudget, EventsPaid, LevelsExact, DebitsOf;
    assert PhasesSound(e, s') by {
      forall x: Id ensures PhaseSound(e, PhaseOf(s', x), s'.ops, debits, s'.clocks, x) {
        if x != id {
          OtherOp(e, PhaseOf(s, x), s.ops, op, debits, s.clocks, x);
        }
      }
    }
    hide PhasesSound, PhaseSound;
    if e.sequential.Some? {
      StoredInFlight(e, s, s', id, ph.look.event.value);
    }
  }

  lemma KeepAbandon(e: Engine, s: State, id: Id)
    requires Inv(e, s) && Enabled(e, s, Abandon(id))
    ensures Inv(e, Next(e, s, Abandon(id)))
  {
    var s' := Next(e, s, Abandon(id));
    hide DebitsSound, Spaced, WithinBudget, EventsPaid, LevelsExact, CoversFires, Cool, SpentKnown, LookSound;
    OnePhase(e, s, s', id);
    hide PhasesSound;
    if e.sequential.Some? {
      StillPaid(e, s, s', id);
    }
  }

  lemma OutsidePaid(e: Engine, s: State, s': State, op: Op)
    requires EventsPaid(e, s) && !op.InsertEvent? && s'.ops == s.ops + [op] && s'.looks == s.looks
        && s'.phases == s.phases
    ensures EventsPaid(e, s')
  {
    hide Paid;
    assert forall event :: InFlight(s', event) == InFlight(s, event);
    hide InFlight;
  }

  lemma ExternalPhases(e: Engine, s: State, s': State, op: Op)
    requires PhasesSound(e, s) && !op.InsertEvent? && s'.ops == s.ops + [op]
    requires s'.looks == s.looks && s'.phases == s.phases && s'.clocks == s.clocks
    ensures PhasesSound(e, s')
  {
    hide PhaseSound, DebitsOf;
    forall x: Id ensures PhaseSound(e, PhaseOf(s', x), s'.ops, DebitsOf(e, s'.looks), s'.clocks, x) {
      OtherOp(e, PhaseOf(s, x), s.ops, op, DebitsOf(e, s.looks), s.clocks, x);
    }
  }

  lemma ExternalFacts(e: Engine, s: State, op: Op)
    requires Enabled(e, s, External(op))
    ensures var s' := Next(e, s, External(op));
            && !op.InsertEvent? && s'.ops == s.ops + [op] && s'.tables == Apply(s.tables, op) && s'.ledger == s.ledger
            && s'.looks == s.looks && s'.phases == s.phases && s'.clocks == s.clocks
  {
    hide Apply;
  }

  lemma KeepExternal(e: Engine, s: State, op: Op)
    requires Inv(e, s) && Enabled(e, s, External(op))
    ensures Inv(e, Next(e, s, External(op)))
  {
    ExternalFacts(e, s, op);
    var s' := Next(e, s, External(op));
    hide Next, Enabled, PhasesSound, DebitsSound, Spaced, WithinBudget, LevelsExact, DebitsOf, EventsPaid, Apply;
    ReplayNext(s.ops, op);
    hide AlertStore.Replay;
    SpacedNext(e, s.ops, op);
    ExternalPhases(e, s, s', op);
    if e.sequential.Some? {
      OutsidePaid(e, s, s', op);
    }
  }

  // ---------- The end of a look ----------

  lemma DebitsNext(e: Engine, looks: seq<LookRecord>, r: LookRecord)
    ensures DebitsOf(e, looks + [r]) ==
              if r.level > 0.0 then DebitsOf(e, looks) + [Debit(r.rule.id, r.at, r.level, r.at - Window(e))]
                  else DebitsOf(e, looks)
  {
    assert (looks + [r])[..|looks|] == looks;
  }

  lemma LedgerNext(debits: seq<Debit>, d: Debit)
    ensures Ledger.Replay(debits + [d]) == Spend(Ledger.Replay(debits), d.rule, d.at, d.alpha, d.pruneBefore)
  {
    assert (debits + [d])[..|debits|] == debits;
  }

  lemma SoundNext(e: Engine, debits: seq<Debit>, clocks: map<Id, int>, id: Id, now: int, level: real)
    requires DebitsSound(e, debits, clocks) && NotBefore(clocks, id, now) && FreshStamp(debits, id, now) && level >= 0.0
    ensures DebitsSound(e, debits + [Debit(id, now, level, now - Window(e))], clocks[id := now])
  {
  }

  /** The new debit fits the window that ends at any `t`, since that window reaches no further back than the
      one that was read. */
  lemma BudgetNext(
    e: Engine, debits: seq<Debit>, clocks: map<Id, int>, id: Id, readAt: int, spent: real, now: int, level: real)
    requires WithinBudget(e, debits) && SpentKnown(e, debits, clocks, id, readAt, spent) && NonNegative(debits)
    requires spent + level <= Budget(e) && readAt <= now <= MAX_NANOS && level >= 0.0
    ensures WithinBudget(e, debits + [Debit(id, now, level, now - Window(e))])
  {
    var d := Debit(id, now, level, now - Window(e));
    forall x: Id, t: int ensures WindowSpend(e, debits + [d], x, t) <= Budget(e) {
      WindowSnoc(debits, d, x, t - Window(e), t);
      assert WindowSpend(e, debits, x, t) <= Budget(e);
      hide WindowSum;
      if x == id && t - Window(e) <= now <= t {
        UpTo(debits, id, t - Window(e), t, readAt);
        WindowWithin(debits, id, t - Window(e), readAt, readAt - Window(e), MAX_NANOS);
      }
    }
  }

  lemma {:induction false} UpTo(debits: seq<Debit>, id: Id, lo: int, hi: int, readAt: int)
    requires forall i :: 0 <= i < |debits| && debits[i].rule == id ==> debits[i].at <= readAt
    requires readAt <= hi
    ensures WindowSum(debits, id, lo, hi) == WindowSum(debits, id, lo, readAt)
    decreases |debits|
  {
    if debits != [] {
      UpTo(debits[..|debits| - 1], id, lo, hi, readAt);
    }
  }

  lemma LevelsNext(e: Engine, looks: seq<LookRecord>, r: LookRecord)
    requires LevelsExact(e, looks) && r.level >= 0.0
    requires r.rule.active && r.rule.targetFpr > 0.0 ==>
      r.level == Level(e, r.rule, WindowSum(DebitsOf(e, looks), r.rule.id, r.readAt - Window(e), MAX_NANOS))
    ensures LevelsExact(e, looks + [r])
  {
    hide DebitsOf, WindowSum, Level;
    forall k | 0 <= k <= |looks| ensures (looks + [r])[..k] == looks[..k] {
    }
    assert looks[..|looks|] == looks;
  }

  /** A look that ends pays for the event it stored. */
  lemma PaidNext(e: Engine, s: State, s': State, id: Id, r: LookRecord)
    requires EventsPaid(e, s) && s'.ops == s.ops && s'.looks == s.looks + [r]
    requires forall x: Id :: x != id ==> PhaseOf(s', x) == PhaseOf(s, x)
    requires PhaseOf(s, id).Judged? && r.rule.id == id && r.event == PhaseOf(s, id).look.event
    requires r.event.Some? ==> r.event.value.report.combinedPValue < r.level <= r.rule.targetFpr && r.level > 0.0
    ensures EventsPaid(e, s')
  {
    hide PhaseOf;
    forall i | 0 <= i < |s.ops| && s.ops[i].InsertEvent?
      ensures InFlight(s', s.ops[i].event) || exists k :: 0 <= k < |s'.looks| && Paid(e, s'.looks[k], s.ops[i].event)
    {
      var ev := s.ops[i].event;
      if InFlight(s, ev) {
        if ev.ruleId == id {
          assert Paid(e, s'.looks[|s.looks|], ev);
        }
      } else {
        var k :| 0 <= k < |s.looks| && Paid(e, s.looks[k], ev);
        assert s'.looks[k] == s.looks[k];
      }
    }
  }

  /** The record that a finished look leaves, and what it owes. */
  lemma FinishFacts(e: Engine, s: State, id: Id, now: int) returns (r: LookRecord, d: Debit)
    requires ValidEngine(e) && Inv(e, s) && Enabled(e, s, Finish(id, now))
    ensures var ph, s' := PhaseOf(s, id), Next(e, s, Finish(id, now));
            && r.rule == ph.rule && r.rule.id == id && r.readAt == ph.readAt && r.event == ph.look.event
            && s'.looks == s.looks + [r] && d == Debit(id, now, r.level, now - Window(e))
            && DebitsOf(e, s'.looks) == (if ph.look.spend.Some? then DebitsOf(e, s.looks) + [d]
                else DebitsOf(e, s.looks))
            && (e.sequential.None? ==> ph.look.spend.None?)
            && s'.clocks == s.clocks[id := now] && s'.tables == s.tables && s'.ops == s.ops
            && s'.ledger == (if ph.look.spend.Some? then Spend(s.ledger, id, now, r.level, now - Window(e))
                else s.ledger)
            && (ph.look.spend.Some? ==> FreshStamp(DebitsOf(e, s.looks), id, now) && r.level > 0.0)
            && PhaseOf(s', id) == Idle && forall x: Id :: x != id ==> PhaseOf(s', x) == PhaseOf(s, x)
    ensures var ph := PhaseOf(s, id);
            e.sequential.Some? ==>
              && SpentKnown(e, DebitsOf(e, s.looks), s.clocks, id, ph.readAt, ph.spent) && ph.readAt <= now
              && (ph.look.spend.Some? ==> ph.spent + r.level <= Budget(e) && r.level > 0.0)
              && (r.rule.active && r.rule.targetFpr > 0.0 ==> r.level == Level(e, r.rule, ph.spent))
              && (r.event.Some? ==> r.event.value.report.combinedPValue < r.level <= r.rule.targetFpr && r.level > 0.0)
              && r.level >= 0.0
  {
    hide EventsPaid, LevelsExact, WithinBudget, DebitsSound, Spaced, Replayed, Spend, DebitsOf, WindowSum, FreshStamp,
      Cool;
    var debits, ph := DebitsOf(e, s.looks), PhaseOf(s, id);
    var level := if ph.look.spend.Some? then ph.look.spend.value.alpha else 0.0;
    r := LookRecord(ph.rule, ph.readAt, now, level, ph.look.event);
    d := Debit(id, now, level, now - Window(e));
    assert PhaseSound(e, ph, s.ops, debits, s.clocks, id);
    assert LookSound(e, id, ph.rule, ph.spent, ph.look);
    hide PhasesSound;
    DebitsNext(e, s.looks, r);
  }

  lemma FinishLedger(e: Engine, s: State, id: Id, now: int)
    requires ValidEngine(e) && Inv(e, s) && Enabled(e, s, Finish(id, now))
    ensures var s' := Next(e, s, Finish(id, now));
            Replayed(e, s') && DebitsSound(e, DebitsOf(e, s'.looks), s'.clocks)
  {
    hide PhasesSound, EventsPaid, LevelsExact, WithinBudget, NonNegative, Timely, Spaced, SpentKnown, DebitsOf,
      FreshStamp;
    var debits, ph, s' := DebitsOf(e, s.looks), PhaseOf(s, id), Next(e, s, Finish(id, now));
    var r, d := FinishFacts(e, s, id, now);
    assert ph.Judged? && NotBefore(s.clocks, id, now);
    hide Next, PhaseOf, Enabled, NotBefore, Level, Window, Spend;
    assert Replayed(e, s') by {
      if ph.look.spend.Some? {
        LedgerNext(debits, d);
      }
    }
    hide Replayed;
    assert DebitsSound(e, DebitsOf(e, s'.looks), s'.clocks) by {
      if ph.look.spend.Some? {
        SoundNext(e, debits, s.clocks, id, now, r.level);
        hide DebitsSound;
      }
    }
  }

  lemma FinishBudget(e: Engine, s: State, id: Id, now: int)
    requires ValidEngine(e) && Inv(e, s) && Enabled(e, s, Finish(id, now)) && e.sequential.Some?
    ensures WithinBudget(e, DebitsOf(e, Next(e, s, Finish(id, now)).looks))
  {
    var debits, ph := DebitsOf(e, s.looks), PhaseOf(s, id);
    var r, d := FinishFacts(e, s, id, now);
    hide PhasesSound, EventsPaid, LevelsExact, WithinBudget, NonNegative, Timely, Spaced, Replayed, SpentKnown,
      DebitsOf;
    if ph.look.spend.Some? {
      BudgetNext(e, debits, s.clocks, id, ph.readAt, ph.spent, now, r.level);
    }
  }

  lemma FinishPhases(e: Engine, s: State, id: Id, now: int)
    requires ValidEngine(e) && Inv(e, s) && Enabled(e, s, Finish(id, now))
    ensures PhasesSound(e, Next(e, s, Finish(id, now)))
  {
    var debits, s' := DebitsOf(e, s.looks), Next(e, s, Finish(id, now));
    var r, d := FinishFacts(e, s, id, now);
    hide EventsPaid, LevelsExact, WithinBudget, DebitsSound, Spaced, Replayed, DebitsOf, CoversFires, Cool,
      SpentKnown, LookSound;
    forall x: Id ensures PhaseSound(e, PhaseOf(s', x), s'.ops, DebitsOf(e, s'.looks), s'.clocks, x) {
      assert PhaseSound(e, PhaseOf(s, x), s.ops, debits, s.clocks, x);
      OtherClock(e, PhaseOf(s, x), s.ops, debits, s.clocks, x, id, now);
      if x != id {
        hide PhaseSound;
        OtherDebit(e, PhaseOf(s, x), s.ops, debits, d, s.clocks[id := now], x);
      }
    }
  }

  lemma FinishLooks(e: Engine, s: State, id: Id, now: int)
    requires ValidEngine(e) && Inv(e, s) && Enabled(e, s, Finish(id, now)) && e.sequential.Some?
    ensures var s' := Next(e, s, Finish(id, now)); EventsPaid(e, s') && LevelsExact(e, s'.looks)
  {
    hide EventsPaid, LevelsExact, WithinBudget, DebitsSound, Spaced, Replayed, PhasesSound, DebitsOf, WindowSum,
      FreshStamp, Level;
    var ph, s' := PhaseOf(s, id), Next(e, s, Finish(id, now));
    var r, d := FinishFacts(e, s, id, now);
    assert ph.Judged?;
    hide Next, Enabled, PhaseOf, Window, Spend;
    LevelsNext(e, s.looks, r);
    PaidNext(e, s, s', id, r);
  }

  lemma KeepFinish(e: Engine, s: State, id: Id, now: int)
    requires ValidEngine(e) && Inv(e, s) && Enabled(e, s, Finish(id, now))
    ensures Inv(e, Next(e, s, Finish(id, now)))
  {
    hide EventsPaid, LevelsExact, WithinBudget, DebitsSound, Spaced, Replayed, PhasesSound, DebitsOf;
    FinishLedger(e, s, id, now);
    FinishPhases(e, s, id, now);
    if e.sequential.Some? {
      FinishBudget(e, s, id, now);
      FinishLooks(e, s, id, now);
    }
  }

  // ---------- Whole runs ----------

  lemma KeepStep(e: Engine, s: State, step: Step)
    requires ValidEngine(e) && Inv(e, s) && Enabled(e, s, step)
    ensures Inv(e, Next(e, s, step))
  {
    hide Inv, Enabled, Next;
    match step
    case ReadLastFired(id) => KeepReadLastFired(e, s, id);
    case ReadSpent(id, now) => KeepReadSpent(e, s, id, now);
    case Evaluate(rule, report, now, eventId) => KeepEvaluate(e, s, rule, report, now, eventId);
    case StoreEvent(id) => KeepStoreEvent(e, s, id);
    case Finish(id, now) => KeepFinish(e, s, id, now);
    case Abandon(id) => KeepAbandon(e, s, id);
    case External(op) => KeepExternal(e, s, op);
  }

  lemma InitInv(e: Engine)
    requires ValidEngine(e)
    ensures Inv(e, INIT)
  {
  }

  lemma {:induction false} RunKeepsInv(e: Engine, s: State, steps: seq<Step>, s': State)
    requires ValidEngine(e) && Inv(e, s) && Takes(e, s, steps, s')
    ensures Inv(e, s')
    decreases |steps|
  {
    hide Inv, Enabled, Next;
    if steps != [] {
      KeepStep(e, s, steps[0]);
      RunKeepsInv(e, Next(e, s, steps[0]), steps[1..], s');
    }
  }

  /** Some run from the empty tables ends in this state. */
  ghost predicate Reachable(e: Engine, s: State) {
    exists steps :: Takes(e, INIT, steps, s)
  }

  lemma ReachableInv(e: Engine, s: State)
    requires ValidEngine(e) && Reachable(e, s)
    ensures Inv(e, s)
  {
    InitInv(e);
    hide Inv, Takes;
    var steps :| Takes(e, INIT, steps, s);
    RunKeepsInv(e, INIT, steps, s);
  }

  /** No rule spends more than its budget in any window, and the ledger never reports more to a later look. */
  lemma BudgetHolds(e: Engine, s: State, id: Id, t: int)
    requires ValidEngine(e) && e.sequential.Some? && Reachable(e, s)
    ensures WindowSum(DebitsOf(e, s.looks), id, t - e.sequential.value.window, t) <= e.sequential.value.alphaBudget
    ensures NotBefore(s.clocks, id, t) && t <= MAX_NANOS ==>
              Spent(s.ledger, id, t - e.sequential.value.window) <= e.sequential.value.alphaBudget
  {
    var debits, since := DebitsOf(e, s.looks), t - e.sequential.value.window;
    BudgetFacts(e, s, id, t);
    hide Reachable, DebitsOf, WindowSum, Spent, Timely, NonNegative;
    if NotBefore(s.clocks, id, t) && t <= MAX_NANOS {
      LedgerRefinesHistory(debits, id, since);
      UpTo(debits, id, since, MAX_NANOS, t);
    }
  }

  lemma BudgetFacts(e: Engine, s: State, id: Id, t: int)
    requires ValidEngine(e) && e.sequential.Some? && Reachable(e, s)
    ensures var debits := DebitsOf(e, s.looks);
            && WindowSum(debits, id, t - e.sequential.value.window, t) <= e.sequential.value.alphaBudget
            && s.ledger == Ledger.Replay(debits) && NonNegative(debits) && Timely(debits)
            && forall i :: 0 <= i < |debits| && debits[i].rule == id ==>
                 && debits[i].pruneBefore == debits[i].at - e.sequential.value.window
                 && id in s.clocks && debits[i].at <= s.clocks[id]
  {
    hide Reachable;
    ReachableInv(e, s);
    hide PhasesSound, Spaced, EventsPaid, LevelsExact, DebitsOf, WindowSum, Timely, NonNegative, WithinBudget, Replayed;
    WithinIs(e, DebitsOf(e, s.looks), id, t);
    ReplayedIs(e, s);
  }

  lemma WithinIs(e: Engine, debits: seq<Debit>, id: Id, t: int)
    requires e.sequential.Some? && WithinBudget(e, debits)
    ensures WindowSum(debits, id, t - e.sequential.value.window, t) <= e.sequential.value.alphaBudget
  {
    hide WindowSum;
    assert WindowSpend(e, debits, id, t) <= Budget(e);
  }

  lemma ReplayedIs(e: Engine, s: State)
    requires Replayed(e, s)
    ensures s.ledger == Ledger.Replay(DebitsOf(e, s.looks))
  {
  }

  /** Every stored event belongs to a look at a level above its p-value and no higher than the rule's rate,
      debited or about to be. */
  lemma EveryFirePays(e: Engine, s: State, j: nat)
    requires ValidEngine(e) && e.sequential.Some? && Reachable(e, s)
    requires j < |s.ops| && s.ops[j].InsertEvent?
    ensures var event := s.ops[j].event;
            || (exists k :: 0 <= k < |s.looks| && Paid(e, s.looks[k], event)
                  && Debit(event.ruleId, s.looks[k].at, s.looks[k].level,
                         s.looks[k].at - e.sequential.value.window) in DebitsOf(e, s.looks))
            || (&& InFlight(s, event) && PhaseOf(s, event.ruleId).look.spend.Some?
                && var level := PhaseOf(s, event.ruleId).look.spend.value.alpha;
                   event.report.combinedPValue < level <= PhaseOf(s, event.ruleId).rule.targetFpr)
  {
    ReachableInv(e, s);
    PaidOrInFlight(e, s, j);
  }

  lemma PaidOrInFlight(e: Engine, s: State, j: nat)
    requires Inv(e, s) && e.sequential.Some? && j < |s.ops| && s.ops[j].InsertEvent?
    ensures var event := s.ops[j].event;
            || (exists k :: 0 <= k < |s.looks| && Paid(e, s.looks[k], event)
                  && Debit(event.ruleId, s.looks[k].at, s.looks[k].level, s.looks[k].at - Window(e))
                      in DebitsOf(e, s.looks))
            || (&& InFlight(s, event) && PhaseOf(s, event.ruleId).look.spend.Some?
                && var level := PhaseOf(s, event.ruleId).look.spend.value.alpha;
                   event.report.combinedPValue < level <= PhaseOf(s, event.ruleId).rule.targetFpr)
  {
    hide Spaced, WithinBudget, LevelsExact, DebitsOf, DebitsSound, Replayed, Paid, SpentKnown, Cool, CoversFires;
    var event := s.ops[j].event;
    if InFlight(s, event) {
      hide EventsPaid;
      var ph := PhaseOf(s, event.ruleId);
      assert PhaseSound(e, ph, s.ops, DebitsOf(e, s.looks), s.clocks, event.ruleId);
      assert LookSound(e, event.ruleId, ph.rule, ph.spent, ph.look);
    } else {
      hide PhasesSound, InFlight;
      var k :| 0 <= k < |s.looks| && Paid(e, s.looks[k], event);
      PaidHasDebit(e, s.looks, k, event);
    }
  }

  lemma PaidHasDebit(e: Engine, looks: seq<LookRecord>, k: nat, event: AlertEvent)
    requires k < |looks| && Paid(e, looks[k], event)
    ensures Debit(event.ruleId, looks[k].at, looks[k].level, looks[k].at - Window(e)) in DebitsOf(e, looks)
  {
    LevelHasDebit(e, looks, k);
  }

  lemma {:induction false} LevelHasDebit(e: Engine, looks: seq<LookRecord>, k: nat)
    requires k < |looks| && looks[k].level > 0.0
    ensures Debit(looks[k].rule.id, looks[k].at, looks[k].level, looks[k].at - Window(e)) in DebitsOf(e, looks)
    decreases |looks|
  {
    if k < |looks| - 1 {
      LevelHasDebit(e, looks[..|looks| - 1], k);
    }
  }

  /** Two stored events of a rule that was not deleted in between are at least a cooldown apart. */
  lemma FiresAreSpaced(e: Engine, s: State, first: nat, second: nat)
    requires ValidEngine(e) && e.cooldown > 0 && Reachable(e, s)
    requires first < second < |s.ops| && s.ops[first].InsertEvent? && s.ops[second].InsertEvent?
    requires var ops := s.ops; var id := ops[first].event.ruleId;
             ops[second].event.ruleId == id && forall j :: first < j < second ==> ops[j] != DeleteRule(id)
    ensures s.ops[second].event.firedAt >= s.ops[first].event.firedAt + e.cooldown
  {
    ReachableInv(e, s);
    var ops := s.ops;
    assert Cool(e, ops[..second], ops[second].event.ruleId, ops[second].event.firedAt);
    hide Reachable, Inv;
    assert FiredSince(ops[..second], ops[first].event.ruleId, first);
  }

  // ---------- How fast the budget goes ----------

  function CountLooks(looks: seq<LookRecord>, id: Id): nat
    decreases |looks|
  {
    if looks == [] then 0
    else CountLooks(looks[..|looks| - 1], id) + if looks[|looks| - 1].rule.id == id then 1 else 0
  }

  /** All of the rule's looks so far were at one rate, and `start` opens a window that holds them all. */
  predicate OneWindow(e: Engine, looks: seq<LookRecord>, id: Id, rate: real, start: int) {
    forall k :: 0 <= k < |looks| && looks[k].rule.id == id ==>
      && looks[k].rule.active && looks[k].rule.targetFpr == rate
      && looks[k].readAt - Window(e) <= start <= looks[k].at <= MAX_NANOS
  }

  function Repeated(n: nat, rate: real): real {
    n as real * rate
  }

  lemma {:induction false} SameStart(e: Engine, looks: seq<LookRecord>, id: Id, lo: int, start: int)
    requires lo <= start && forall k :: 0 <= k < |looks| && looks[k].rule.id == id ==> start <= looks[k].at
    ensures WindowSum(DebitsOf(e, looks), id, lo, MAX_NANOS) == WindowSum(DebitsOf(e, looks), id, start, MAX_NANOS)
    decreases |looks|
  {
    if looks != [] {
      var before, r := looks[..|looks| - 1], looks[|looks| - 1];
      SameStart(e, before, id, lo, start);
      assert looks == before + [r];
      DebitsNext(e, before, r);
      var d := Debit(r.rule.id, r.at, r.level, r.at - Window(e));
      WindowSnoc(DebitsOf(e, before), d, id, lo, MAX_NANOS);
      WindowSnoc(DebitsOf(e, before), d, id, start, MAX_NANOS);
      hide DebitsOf, WindowSum;
    }
  }

  /** What holds of all looks holds of those before the last, whose level is that of its rule. */
  lemma EarlierLooks(e: Engine, before: seq<LookRecord>, r: LookRecord, id: Id, rate: real, start: int)
    requires LevelsExact(e, before + [r]) && OneWindow(e, before + [r], id, rate, start) && rate > 0.0
    ensures LevelsExact(e, before) && OneWindow(e, before, id, rate, start) && r.level >= 0.0
    ensures r.rule.id == id ==>
              && r.readAt - Window(e) <= start <= r.at <= MAX_NANOS
              && r.level == Level(e, r.rule, WindowSum(DebitsOf(e, before), id, r.readAt - Window(e), MAX_NANOS))
    ensures forall k :: 0 <= k < |before| && before[k].rule.id == id ==> start <= before[k].at
  {
    hide DebitsOf, WindowSum, Level;
    var looks := before + [r];
    assert forall k :: 0 <= k < |before| ==> looks[k] == before[k] && looks[..k] == before[..k];
    assert looks[..|before|] == before && looks[|before|] == r;
  }

  /** What one more look adds, in a window that holds all of them. */
  lemma SpendOfLook(e: Engine, before: seq<LookRecord>, r: LookRecord, id: Id, rate: real, start: int)
    requires LevelsExact(e, before + [r]) && OneWindow(e, before + [r], id, rate, start) && rate > 0.0
    ensures LevelsExact(e, before) && OneWindow(e, before, id, rate, start)
    ensures var spent := WindowSum(DebitsOf(e, before), id, start, MAX_NANOS);
            WindowSum(DebitsOf(e, before + [r]), id, start, MAX_NANOS) ==
              if r.rule.id == id then spent + Level(e, r.rule, spent) else spent
  {
    hide *;
    EarlierLooks(e, before, r, id, rate, start);
    DebitsNext(e, before, r);
    var d := Debit(r.rule.id, r.at, r.level, r.at - Window(e));
    WindowSnoc(DebitsOf(e, before), d, id, start, MAX_NANOS);
    if r.rule.id == id {
      SameStart(e, before, id, r.readAt - Window(e), start);
    }
  }

  lemma {:induction false} SpendOfLooks(e: Engine, looks: seq<LookRecord>, id: Id, rate: real, start: int)
    requires LevelsExact(e, looks) && OneWindow(e, looks, id, rate, start) && rate > 0.0
    requires Budget(e) > 0.0
    ensures WindowSum(DebitsOf(e, looks), id, start, MAX_NANOS) == Min(Repeated(CountLooks(looks, id), rate), Budget(e))
    decreases |looks|
  {
    if looks != [] {
      var before, r := looks[..|looks| - 1], looks[|looks| - 1];
      assert looks == before + [r];
      SpendOfLook(e, before, r, id, rate, start);
      SpendOfLooks(e, before, id, rate, start);
      assert r.rule.id == id ==> r.rule.targetFpr == rate;
      OneMore(CountLooks(before, id), rate);
      hide DebitsOf, WindowSum, Repeated, LevelsExact, OneWindow;
    }
  }

  lemma OneMore(n: nat, rate: real)
    ensures Repeated(n + 1, rate) == Repeated(n, rate) + rate
  {
  }

  lemma {:induction false} CountIsSize(looks: seq<LookRecord>, id: Id)
    ensures CountLooks(looks, id) == |set k | 0 <= k < |looks| && looks[k].rule.id == id|
    decreases |looks|
  {
    if looks != [] {
      var last := |looks| - 1;
      var before := set k | 0 <= k < |looks[..last]| && looks[..last][k].rule.id == id;
      CountIsSize(looks[..last], id);
      assert (set k | 0 <= k < |looks| && looks[k].rule.id == id)
          == before + (if looks[last].rule.id == id then {last} else {});
    }
  }

  /** While all its looks fall in one window, a rule that looked n times has spent exactly min(n * rate, budget). */
  lemma SpendIsExact(e: Engine, s: State, id: Id, rate: real, start: int)
    requires ValidEngine(e) && e.sequential.Some? && Reachable(e, s) && rate > 0.0
    requires forall k :: 0 <= k < |s.looks| && s.looks[k].rule.id == id ==>
        && s.looks[k].rule.active && s.looks[k].rule.targetFpr == rate
        && s.looks[k].readAt - e.sequential.value.window <= start <= s.looks[k].at <= MAX_NANOS
    ensures var n := |set k | 0 <= k < |s.looks| && s.looks[k].rule.id == id|;
            WindowSum(DebitsOf(e, s.looks), id, start, MAX_NANOS)
              == if n as real * rate <= e.sequential.value.alphaBudget then n as real * rate
                 else e.sequential.value.alphaBudget
  {
    hide *;
    ReachableLevels(e, s);
    InOneWindow(e, s.looks, id, rate, start);
    CountIsSize(s.looks, id);
    SpendOfLooks(e, s.looks, id, rate, start);
    SmallerOf(CountLooks(s.looks, id), rate, e);
  }

  lemma ReachableLevels(e: Engine, s: State)
    requires ValidEngine(e) && e.sequential.Some? && Reachable(e, s)
    ensures LevelsExact(e, s.looks) && Budget(e) > 0.0
  {
    hide Reachable, LevelsExact;
    ReachableInv(e, s);
  }

  lemma InOneWindow(e: Engine, looks: seq<LookRecord>, id: Id, rate: real, start: int)
    requires e.sequential.Some?
    requires forall k :: 0 <= k < |looks| && looks[k].rule.id == id ==>
        && looks[k].rule.active && looks[k].rule.targetFpr == rate
        && looks[k].readAt - e.sequential.value.window <= start <= looks[k].at <= MAX_NANOS
    ensures OneWindow(e, looks, id, rate, start)
  {
  }

  lemma SmallerOf(n: nat, rate: real, e: Engine)
    requires e.sequential.Some?
    ensures Min(Repeated(n, rate), Budget(e)) == if n as real * rate <= e.sequential.value.alphaBudget
        then n as real * rate else e.sequential.value.alphaBudget
  {
  }
}
