/** The promise of sequential control: the expected number of false alarms of a rule in any window is at
    most its budget. It holds where every look's test is exact, and up to the tests' resolution where not. */
module FalseAlarms {
  import opened Arithmetic
  import opened Keys
  import opened Counting
  import opened Distances
  import opened Gram
  import opened PermutationTest
  import opened GateExactness
  import opened OnePrompt
  import opened FourPoints
  import opened ManyPrompts
  import opened Ledger
  import opened AlertEngine
  import opened AlertProtocol

  /** What a look tests when nothing has drifted: a run with one sample a prompt, through the gate, two pooled
      samples, through the permutation test, or one prompt or more with several run samples, through the gate. All
      labellings, shuffles and draws are equally likely. */
  datatype Trial =
    | GateTrial(augs: seq<seq<Point>>, rounds: nat)
    | PooledTrial(kernel: Kernel, points: seq<Point>, m: nat, rounds: nat)
    | SeveralTrial(points: seq<Point>, m: nat, rounds: nat)
    | ManyTrial(points: seq<Point>, m: nat, rounds: nat, prompts: nat)

  ghost predicate ValidTrial(trial: Trial) {
    match trial
    case GateTrial(augs, _) => Augmented(augs)
    case PooledTrial(_, points, m, _) => 2 <= m <= |points| - 2
    case SeveralTrial(points, m, _) => 2 <= m <= |points| - 2
    case ManyTrial(points, m, _, _) => 2 <= m <= |points| - 2
  }

  /** The tests whose false alarms do not exceed the level. */
  predicate ExactTest(trial: Trial) {
    trial.GateTrial? || trial.PooledTrial?
  }

  /** How far the probability of a false alarm can exceed the level: not at all for an exact test, by one step of the
      p-value's grid for one prompt with several samples, and without useful limit for several such prompts. */
  function Excess(trial: Trial): (x: real)
    ensures x >= 0.0
  {
    if trial.SeveralTrial? then OneIn(trial.rounds + 1) else if trial.ManyTrial? then 1.0 else 0.0
  }

  function OneIn(n: nat): (x: real)
    requires n > 0
    ensures x > 0.0
  {
    1.0 / n as real
  }

  /** The share of the trial's experiments that report `alpha` or less: the probability that a look at this
      level alarms. */
  ghost function AlarmShare(fns: Analysis, trial: Trial, alpha: real): real
    requires ValidTrial(trial)
  {
    match trial
    case GateTrial(augs, rounds) => Portion(|GateSignificant(fns, augs, rounds, alpha)|,
        |GateExperiments(augs, rounds)|)
    case PooledTrial(kernel, points, m, rounds) =>
      Portion(|Significant(fns, kernel, points, m, rounds, alpha)|, |Experiments(|points|, rounds)|)
    case SeveralTrial(points, m, rounds) =>
      Portion(|Passing(fns, points, m, rounds, alpha)|, |PromptExperiments(|points|, m, rounds)|)
    case ManyTrial(points, m, rounds, prompts) =>
      Portion(|RunsPassing(fns, points, m, rounds, alpha, prompts)|, |RunExperiments(|points|, m, rounds, prompts)|)
  }

  function Portion(k: nat, n: nat): real {
    if n == 0 then 0.0 else k as real / n as real
  }

  lemma PortionAtMost(k: nat, n: nat, alpha: real)
    requires AtMostShare(k, n, alpha) && alpha >= 0.0
    ensures Portion(k, n) <= alpha
  {
    if n > 0 {
      var q := Portion(k, n);
      assert q * n as real == k as real;
      if q > alpha {
        assert (q - alpha) * n as real > 0.0;
      }
    }
  }

  lemma WithinStep(alpha: real, b: nat)
    requires alpha >= 0.0
    ensures 0.0 <= (1.0 + alpha * b as real) / (b + 1) as real <= alpha + OneIn(b + 1)
  {
    var n, q := (b + 1) as real, (1.0 + alpha * b as real) / (b + 1) as real;
    assert alpha * b as real >= 0.0;
    assert q * n == 1.0 + alpha * b as real && OneIn(b + 1) * n == 1.0;
    CancelDivisor(q, alpha + OneIn(b + 1), n);
  }

  lemma SeveralAtMost(fns: Analysis, points: seq<Point>, m: nat, b: nat, alpha: real)
    requires 2 <= m <= |points| - 2 && alpha >= 0.0
    ensures Portion(|Passing(fns, points, m, b, alpha)|, |PromptExperiments(|points|, m, b)|) <= alpha + OneIn(b + 1)
  {
    hide Portion, Passing, PromptExperiments, AtMostShare, OneIn;
    var level := (1.0 + alpha * b as real) / (b + 1) as real;
    WithinStep(alpha, b);
    SeveralSamplesBound(fns, points, m, b, alpha);
    PortionAtMost(|Passing(fns, points, m, b, alpha)|, |PromptExperiments(|points|, m, b)|, level);
  }

  /** A look's probability of a false alarm is at most its level, and its test's excess. */
  lemma AlarmAtMostLevel(fns: Analysis, trial: Trial, alpha: real)
    requires ValidTrial(trial) && alpha >= 0.0
    ensures AlarmShare(fns, trial, alpha) <= alpha + Excess(trial)
  {
    hide Portion, GateSignificant, GateExperiments, Significant, Experiments, AtMostShare, Passing, PromptExperiments,
      RunsPassing, RunExperiments;
    match trial
    case GateTrial(augs, rounds) =>
      GateExact(fns, augs, rounds, alpha);
      PortionAtMost(|GateSignificant(fns, augs, rounds, alpha)|, |GateExperiments(augs, rounds)|, alpha);
    case PooledTrial(kernel, points, m, rounds) =>
      PermutationTestExact(fns, kernel, points, m, rounds, alpha);
      PortionAtMost(|Significant(fns, kernel, points, m, rounds, alpha)|, |Experiments(|points|, rounds)|, alpha);
    case SeveralTrial(points, m, rounds) =>
      SeveralAtMost(fns, points, m, rounds, alpha);
    case ManyTrial(points, m, rounds, prompts) =>
      ManyAtMost(fns, points, m, rounds, alpha, prompts);
  }

  lemma ManyAtMost(fns: Analysis, points: seq<Point>, m: nat, b: nat, alpha: real, prompts: nat)
    requires 2 <= m <= |points| - 2 && alpha >= 0.0
    ensures Portion(|RunsPassing(fns, points, m, b, alpha, prompts)|, |RunExperiments(|points|, m, b, prompts)|)
        <= alpha + 1.0
  {
    hide RunExperiments, RunPasses, Portion;
    SubsetBound(RunsPassing(fns, points, m, b, alpha, prompts), RunExperiments(|points|, m, b, prompts));
    hide RunsPassing;
    PortionAtMostOne(
      |RunsPassing(fns, points, m, b, alpha, prompts)|, |RunExperiments(|points|, m, b, prompts)|);
  }

  lemma PortionAtMostOne(k: nat, n: nat)
    requires k <= n
    ensures Portion(k, n) <= 1.0
  {
  }

  /** No excess below 1 would do for several prompts: a look at level one half raises a false alarm with a
      probability of at least `1 - (2/3)^k`. */
  lemma ManyPromptsAlarm(fns: Analysis, k: nat)
    requires IsRoot(fns)
    ensures |CORNERS| == 4 && Pow(3, k) > 0
    ensures ValidTrial(ManyTrial(CORNERS, 2, 1, k))
    ensures AlarmShare(fns, ManyTrial(CORNERS, 2, 1, k), 0.5) >= 1.0 - Portion(Pow(2, k), Pow(3, k))
  {
    hide *;
    ManyPromptsPass(fns, k);
    RunCount(k);
    PowPositive(3, k);
    PowPositive(576, k);
    ManyShareIs(fns, k);
    var all, passing := RunExperiments(4, 2, 1, k), RunsPassing(fns, CORNERS, 2, 1, 0.5, k);
    assert |all - passing| == |all| - |passing|;
    Complement(|passing|, |all|, Pow(2, k), Pow(3, k));
  }

  lemma ManyShareIs(fns: Analysis, k: nat)
    requires |CORNERS| == 4
    ensures ValidTrial(ManyTrial(CORNERS, 2, 1, k))
    ensures AlarmShare(fns, ManyTrial(CORNERS, 2, 1, k), 0.5)
        == Portion(|RunsPassing(fns, CORNERS, 2, 1, 0.5, k)|, |RunExperiments(4, 2, 1, k)|)
  {
    hide RunsPassing, RunExperiments, Portion, CORNERS;
  }

  lemma {:induction false} PowPositive(b: nat, k: nat)
    requires b > 0
    ensures Pow(b, k) > 0
  {
    if k > 0 {
      PowPositive(b, k - 1);
    }
  }

  lemma Complement(k: nat, n: nat, a: nat, b: nat)
    requires n > 0 && b > 0 && k <= n && b * (n - k) <= a * n
    ensures Portion(k, n) >= 1.0 - Portion(a, b)
  {
    var p, q := Portion(k, n), Portion(a, b);
    assert p * n as real == k as real && q * b as real == a as real;
    assert (b * (n - k)) as real == b as real * (n as real - k as real);
    assert (a * n) as real == a as real * n as real;
    hide Portion;
    ComplementOf(p, q, n as real, b as real, k as real, a as real);
  }

  lemma ComplementOf(p: real, q: real, n: real, b: real, k: real, a: real)
    requires n > 0.0 && b > 0.0 && p * n == k && q * b == a && b * (n - k) <= a * n
    ensures p >= 1.0 - q
  {
    assert b * (n - k) == (1.0 - p) * (b * n);
    assert a * n == q * (b * n);
    CancelDivisor(1.0 - p, q, b * n);
  }

  /** The expected number of false alarms of a rule from `lo` to `hi`, each debit being a look at its level. */
  ghost function ExpectedAlarms(fns: Analysis, debits: seq<Debit>, trials: seq<Trial>, id: Id, lo: int, hi: int): real
    requires |trials| == |debits| && forall i :: 0 <= i < |trials| ==> ValidTrial(trials[i])
    decreases |debits|
  {
    if debits == [] then 0.0
    else
      var last := |debits| - 1;
      var d := debits[last];
      ExpectedAlarms(fns, debits[..last], trials[..last], id, lo, hi)
      + if d.rule == id && lo <= d.at <= hi then AlarmShare(fns, trials[last], d.alpha) else 0.0
  }

  /** The excesses of the looks at a rule from `lo` to `hi`. */
  function TotalExcess(debits: seq<Debit>, trials: seq<Trial>, id: Id, lo: int, hi: int): real
    requires |trials| == |debits|
    decreases |debits|
  {
    if debits == [] then 0.0
    else
      var last := |debits| - 1;
      TotalExcess(debits[..last], trials[..last], id, lo, hi)
      + if debits[last].rule == id && lo <= debits[last].at <= hi then Excess(trials[last]) else 0.0
  }

  lemma {:induction false} NoExcess(debits: seq<Debit>, trials: seq<Trial>, id: Id, lo: int, hi: int)
    requires |trials| == |debits| && forall i :: 0 <= i < |trials| ==> ExactTest(trials[i])
    ensures TotalExcess(debits, trials, id, lo, hi) == 0.0
    decreases |debits|
  {
    if debits != [] {
      NoExcess(debits[..|debits| - 1], trials[..|debits| - 1], id, lo, hi);
    }
  }

  lemma {:induction false} AlarmsAtMostSpend(
    fns: Analysis, debits: seq<Debit>, trials: seq<Trial>, id: Id, lo: int, hi: int)
    requires |trials| == |debits| && forall i :: 0 <= i < |trials| ==> ValidTrial(trials[i])
    requires NonNegative(debits)
    ensures ExpectedAlarms(fns, debits, trials, id, lo, hi)
         <= WindowSum(debits, id, lo, hi) + TotalExcess(debits, trials, id, lo, hi)
    decreases |debits|
  {
    if debits != [] {
      var last := |debits| - 1;
      AlarmsAtMostSpend(fns, debits[..last], trials[..last], id, lo, hi);
      AlarmAtMostLevel(fns, trials[last], debits[last].alpha);
    }
    hide AlarmShare, Excess;
  }

  /** In every reachable state and for every `t`, whatever each look tested, the expected number of false
      alarms of a rule in the window that ends at `t` is at most its budget, when every look's test is exact;
      otherwise the looks' excesses are added. */
  lemma FalseAlarmsWithinBudget(e: Engine, s: State, fns: Analysis, trials: seq<Trial>, id: Id, t: int)
    requires ValidEngine(e) && e.sequential.Some? && Reachable(e, s)
    requires |trials| == |DebitsOf(e, s.looks)| && forall i :: 0 <= i < |trials| ==> ValidTrial(trials[i])
    ensures var debits, budget := DebitsOf(e, s.looks), e.sequential.value.alphaBudget;
            var lo := t - e.sequential.value.window;
            var expected := ExpectedAlarms(fns, debits, trials, id, lo, t);
            && expected <= budget + TotalExcess(debits, trials, id, lo, t)
            && ((forall i :: 0 <= i < |trials| ==> ExactTest(trials[i])) ==> expected <= budget)
  {
    hide Reachable, DebitsOf, WindowSum, ExpectedAlarms, TotalExcess;
    BudgetHolds(e, s, id, t);
    DebitsNonNegative(e, s);
    AlarmsAtMostSpend(fns, DebitsOf(e, s.looks), trials, id, t - Window(e), t);
    if forall i :: 0 <= i < |trials| ==> ExactTest(trials[i]) {
      NoExcess(DebitsOf(e, s.looks), trials, id, t - Window(e), t);
    }
  }

  lemma DebitsNonNegative(e: Engine, s: State)
    requires ValidEngine(e) && Reachable(e, s)
    ensures NonNegative(DebitsOf(e, s.looks))
  {
    ReachableInv(e, s);
    hide DebitsOf, Timely, PhasesSound, Replayed, Spaced, WithinBudget, EventsPaid, LevelsExact, Reachable;
  }
}
