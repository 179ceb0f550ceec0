/** A probe that the default configuration can never alert on: one prompt, a cloud of 20 points, one run sample. */
module DefaultSeed {
  import opened Results
  import opened Keys
  import opened SplitMix
  import opened MonteCarlo
  import opened Distances
  import opened Gate
  import opened Assessment
  import opened Assess
  import opened Floors
  import opened AlertEngine
  import opened AlertResolution

  const CLOUD: nat := 20

  const SHAPE: Shape := [(CLOUD, 1)]

  const STRATUM: Stratum := Stratum(0, CLOUD, 1)

  predicate IsDefault(config: AssessmentConfig) {
    config.targetFpr == 0.01 && config.nPermutations == 200 && config.seed == 0
  }

  // ---------- The draws of one stratum ----------

  lemma {:induction false} DrawAt(state: bv64, size: nat, rounds: nat, b: nat)
    requires size > 0 && b < rounds
    ensures DrawRows(state, [seq(size, _ => 0.0)], rounds)[b] == [Draw(After(state, b), size)]
    decreases rounds
  {
    hide Draw;
    var pools := [seq(size, _ => 0.0)];
    assert pools[1..] == [];
    assert DrawRow(state, pools) == [Draw(state, size)];
    assert AfterRow(state, pools) == After(state, 1);
    if b > 0 {
      DrawAt(After(state, 1), size, rounds - 1, b - 1);
      AfterOne(state, b - 1);
    }
  }

  lemma AfterOne(state: bv64, n: nat)
    ensures After(After(state, 1), n) == After(state, n + 1)
  {
  }

  /** `n` draws move the generator's state by `c`. */
  ghost predicate Jumps(n: nat, c: bv64) {
    forall state :: JumpsFrom(state, n, c)
  }

  predicate JumpsFrom(state: bv64, n: nat, c: bv64) {
    After(state, n) == state + c
  }

  lemma AddTwice(state: bv64, c: bv64, d: bv64)
    ensures state + c + d == state + (c + d)
  {
  }

  lemma {:induction false} AfterBoth(state: bv64, n: nat, m: nat)
    ensures After(After(state, n), m) == After(state, n + m)
    decreases n
  {
    if n > 0 {
      AfterBoth(state + GAMMA, n - 1, m);
    }
  }

  lemma JumpTwice(n: nat, c: bv64, m: nat, d: bv64)
    requires Jumps(n, c) && Jumps(m, d)
    ensures Jumps(n + m, c + d)
  {
    var total, shift := n + m, c + d;
    forall state ensures JumpsFrom(state, total, shift) {
      assert JumpsFrom(state, n, c) && JumpsFrom(state + c, m, d);
      AfterBoth(state, n, m);
      hide After;
      AddTwice(state, c, d);
    }
  }

  lemma JumpPowers()
    ensures Jumps(1, 0x9E37_79B9_7F4A_7C15) && Jumps(2, 0x3C6E_F372_FE94_F82A)
    ensures Jumps(4, 0x78DD_E6E5_FD29_F054) && Jumps(8, 0xF1BB_CDCB_FA53_E0A8)
    ensures Jumps(16, 0xE377_9B97_F4A7_C150) && Jumps(32, 0xC6EF_372F_E94F_82A0)
    ensures Jumps(64, 0x8DDE_6E5F_D29F_0540) && Jumps(128, 0x1BBC_DCBF_A53E_0A80)
  {
    forall state ensures JumpsFrom(state, 1, GAMMA) {
      assert After(state + GAMMA, 0) == state + GAMMA;
    }
    hide Jumps;
    JumpTwice(1, 0x9E37_79B9_7F4A_7C15, 1, 0x9E37_79B9_7F4A_7C15);
    JumpTwice(2, 0x3C6E_F372_FE94_F82A, 2, 0x3C6E_F372_FE94_F82A);
    JumpTwice(4, 0x78DD_E6E5_FD29_F054, 4, 0x78DD_E6E5_FD29_F054);
    JumpTwice(8, 0xF1BB_CDCB_FA53_E0A8, 8, 0xF1BB_CDCB_FA53_E0A8);
    JumpTwice(16, 0xE377_9B97_F4A7_C150, 16, 0xE377_9B97_F4A7_C150);
    JumpTwice(32, 0xC6EF_372F_E94F_82A0, 32, 0xC6EF_372F_E94F_82A0);
    JumpTwice(64, 0x8DDE_6E5F_D29F_0540, 64, 0x8DDE_6E5F_D29F_0540);
  }

  lemma JumpLands(n: nat, c: bv64)
    requires Jumps(n, c)
    ensures After(0, n) == c
  {
    assert JumpsFrom(0, n, c);
  }

  lemma SmallWord(state: bv64, word: bv64)
    requires Mix(state + GAMMA) == word && word < 0x0C30_C30C_30C3_0C30
    ensures Draw(state, 21) == 0
  {
    hide Mix;
    assert (word as nat) < 0x0C30_C30C_30C3_0C30;
    Quotient(word as nat);
  }

  lemma Quotient(word: nat)
    requires word < 0x0C30_C30C_30C3_0C30
    ensures word * 21 / WORDS == 0
  {
  }

  lemma Row2()
    ensures Draw(After(0, 2), 21) == 0
  {
    JumpPowers();
    hide Jumps, After;
    JumpLands(2, 0x3C6E_F372_FE94_F82A);
    SmallWord(0x3C6E_F372_FE94_F82A, 0x06C4_5D18_8009_454F);
  }

  lemma Row33()
    ensures Draw(After(0, 33), 21) == 0
  {
    JumpPowers();
    hide Jumps, After;
    JumpTwice(1, 0x9E37_79B9_7F4A_7C15, 32, 0xC6EF_372F_E94F_82A0);
    JumpLands(33, 0x6526_B0E9_6899_FEB5);
    SmallWord(0x6526_B0E9_6899_FEB5, 0x0558_2D37_111A_C529);
  }

  lemma Row42()
    ensures Draw(After(0, 42), 21) == 0
  {
    JumpPowers();
    hide Jumps, After;
    JumpTwice(2, 0x3C6E_F372_FE94_F82A, 8, 0xF1BB_CDCB_FA53_E0A8);
    JumpTwice(10, 0x2E2A_C13E_F8E8_D8D2, 32, 0xC6EF_372F_E94F_82A0);
    JumpLands(42, 0xF519_F86E_E238_5B72);
    SmallWord(0xF519_F86E_E238_5B72, 0x07DC_930B_3022_78A8);
  }

  lemma Row53()
    ensures Draw(After(0, 53), 21) == 0
  {
    JumpPowers();
    hide Jumps, After;
    JumpTwice(1, 0x9E37_79B9_7F4A_7C15, 4, 0x78DD_E6E5_FD29_F054);
    JumpTwice(5, 0x1715_609F_7C74_6C69, 16, 0xE377_9B97_F4A7_C150);
    JumpTwice(21, 0xFA8C_FC37_711C_2DB9, 32, 0xC6EF_372F_E94F_82A0);
    JumpLands(53, 0xC17C_3367_5A6B_B059);
    SmallWord(0xC17C_3367_5A6B_B059, 0x03D6_8453_23CE_3C71);
  }

  lemma Row94()
    ensures Draw(After(0, 94), 21) == 0
  {
    JumpPowers();
    hide Jumps, After;
    JumpTwice(2, 0x3C6E_F372_FE94_F82A, 4, 0x78DD_E6E5_FD29_F054);
    JumpTwice(6, 0xB54C_DA58_FBBE_E87E, 8, 0xF1BB_CDCB_FA53_E0A8);
    JumpTwice(14, 0xA708_A824_F612_C926, 16, 0xE377_9B97_F4A7_C150);
    JumpTwice(30, 0x8A80_43BC_EABA_8A76, 64, 0x8DDE_6E5F_D29F_0540);
    JumpLands(94, 0x185E_B21C_BD59_8FB6);
    SmallWord(0x185E_B21C_BD59_8FB6, 0x05B8_ABE2_6DD3_AEE7);
  }

  lemma Row142()
    ensures Draw(After(0, 142), 21) == 0
  {
    JumpPowers();
    hide Jumps, After;
    JumpTwice(2, 0x3C6E_F372_FE94_F82A, 4, 0x78DD_E6E5_FD29_F054);
    JumpTwice(6, 0xB54C_DA58_FBBE_E87E, 8, 0xF1BB_CDCB_FA53_E0A8);
    JumpTwice(14, 0xA708_A824_F612_C926, 128, 0x1BBC_DCBF_A53E_0A80);
    JumpLands(142, 0xC2C5_84E4_9B50_D3A6);
    SmallWord(0xC2C5_84E4_9B50_D3A6, 0x0A3F_C775_F4EC_F37F);
  }

  lemma Row147()
    ensures Draw(After(0, 147), 21) == 0
  {
    JumpPowers();
    hide Jumps, After;
    JumpTwice(1, 0x9E37_79B9_7F4A_7C15, 2, 0x3C6E_F372_FE94_F82A);
    JumpTwice(3, 0xDAA6_6D2C_7DDF_743F, 16, 0xE377_9B97_F4A7_C150);
    JumpTwice(19, 0xBE1E_08C4_7287_358F, 128, 0x1BBC_DCBF_A53E_0A80);
    JumpLands(147, 0xD9DA_E584_17C5_400F);
    SmallWord(0xD9DA_E584_17C5_400F, 0x093F_DC76_776E_37E1);
  }

  // ---------- The probe ----------

  /** The draws whose pick is the test point itself. */
  const ROWS: seq<nat> := [2, 33, 42, 53, 94, 142, 147]

  lemma RowsOfZero()
    ensures forall j :: 0 <= j < |ROWS| ==> Draw(After(0, ROWS[j]), CLOUD + 1) == 0
  {
    hide Draw, After;
    Row2();
    Row33();
    Row42();
    Row53();
    Row94();
    Row142();
    Row147();
  }

  /** Entries that match, listed in order. */
  lemma {:induction false} ListedMatch<T>(p: T -> bool, xs: seq<T>, rows: seq<nat>)
    requires forall j :: 0 <= j < |rows| ==> rows[j] < |xs| && p(xs[rows[j]])
    requires forall j, k :: 0 <= j < k < |rows| ==> rows[j] < rows[k]
    ensures Matches(p, xs) >= |rows|
    decreases |xs|
  {
    if xs != [] {
      var last := |xs| - 1;
      if rows != [] && rows[|rows| - 1] == last {
        ListedMatch(p, xs[..last], rows[..|rows| - 1]);
      } else {
        ListedMatch(p, xs[..last], rows);
      }
    }
  }

  lemma DefaultPermutations(config: AssessmentConfig)
    requires IsDefault(config)
    ensures Permutations(config) == 200 && Threshold(config.targetFpr) == 0.01
  {
    assert 1.0 / 0.01 == 100.0;
  }

  lemma BlankIs(config: AssessmentConfig)
    ensures Blank(config, [STRATUM]) == [seq(CLOUD + 1, _ => 0.0)]
  {
    hide Permutations;
  }

  lemma DefaultRow(config: AssessmentConfig, b: nat)
    requires IsDefault(config) && b < 200 && Draw(After(0, b), CLOUD + 1) == 0
    ensures |GateRows(config, [STRATUM])| == 200 && GateRows(config, [STRATUM])[b] == [0]
  {
    DefaultPermutations(config);
    BlankIs(config);
    DrawAt(0, CLOUD + 1, 200, b);
    hide Permutations, Draw, After, DrawRows, Blank;
  }

  lemma ZeroRestores(config: AssessmentConfig)
    ensures RowRestores(config, [STRATUM], [0])
  {
  }

  lemma DefaultRows(config: AssessmentConfig, j: nat)
    requires IsDefault(config) && j < |ROWS|
    ensures ROWS[j] < |GateRows(config, [STRATUM])|
    ensures RowRestores(config, [STRATUM], GateRows(config, [STRATUM])[ROWS[j]])
  {
    RowsOfZero();
    hide Draw, After, GateRows, RowRestores;
    DefaultRow(config, ROWS[j]);
    ZeroRestores(config);
  }

  /** Seven of the 200 draws repeat the observed arrangement. */
  lemma DefaultTies(config: AssessmentConfig)
    requires IsDefault(config)
    ensures GateTies(config, [STRATUM]) >= 7
  {
    hide GateRows, RowRestores, Matches;
    forall j | 0 <= j < |ROWS|
      ensures ROWS[j] < |GateRows(config, [STRATUM])|
      ensures RowRestores(config, [STRATUM], GateRows(config, [STRATUM])[ROWS[j]])
    {
      DefaultRows(config, j);
    }
    ListedMatch((row: seq<nat>) => RowRestores(config, [STRATUM], row), GateRows(config, [STRATUM]), ROWS);
  }

  lemma DefaultStrata()
    ensures StrataOf(SHAPE) == [STRATUM] && UsesGate([STRATUM])
  {
    assert StrataOf(SHAPE[..0]) == [];
  }

  lemma DefaultLeastP(config: AssessmentConfig)
    requires IsDefault(config)
    ensures LeastP(config, StrataOf(SHAPE)) >= 8.0 / 201.0
  {
    hide *;
    DefaultTies(config);
    DefaultPermutations(config);
    DefaultStrata();
    LeastPOfGate(config, [STRATUM]);
    ShareMonotone(8, 1 + GateTies(config, [STRATUM]), 201);
    ShareIs(8, 201);
  }

  lemma LeastPOfGate(config: AssessmentConfig, strata: seq<Stratum>)
    requires UsesGate(strata)
    ensures LeastP(config, strata) == Share(1 + GateTies(config, strata), 1 + Permutations(config))
  {
    hide UsesGate, GateTies, PooledTies, CloudTotal, SampleTotal, Permutations, Share;
  }

  lemma ShareIs(k: nat, n: nat)
    requires n > 0
    ensures Share(k, n) == k as real / n as real
  {
  }

  lemma NoLevel(config: AssessmentConfig, p: real)
    requires IsDefault(config) && p >= 8.0 / 201.0
    ensures SeverityFromP(p, config.targetFpr) == NoDrift
  {
  }

  lemma DefaultFloor(
    fns: Analysis, baseline: seq<seq<Point>>, run: seq<seq<Point>>, config: AssessmentConfig, p: real)
    requires IsDefault(config) && HasShape(baseline, run, SHAPE) && RunP(fns, baseline, run, config) == Ok(p)
    ensures p >= 8.0 / 201.0
  {
    DefaultLeastP(config);
    hide *;
    ShapeFloor(fns, baseline, run, config, SHAPE);
  }

  lemma LevelAtMostRate(e: Engine, rule: AlertRule, spentAlpha: map<Id, real>)
    ensures e.EffectiveAlpha(rule, spentAlpha) <= rule.targetFpr
  {
  }

  lemma DefaultResolution(config: AssessmentConfig)
    requires IsDefault(config)
    ensures Resolution(config) == 1.0 / 201.0 < Threshold(config.targetFpr)
  {
    DefaultPermutations(config);
    hide Permutations, Threshold;
  }

  lemma NoAlert(
    fns: Analysis, baseline: seq<seq<Point>>, run: seq<seq<Point>>, config: AssessmentConfig,
    e: Engine, rule: AlertRule, lastFired: map<Id, int>, spentAlpha: map<Id, real>, now: int, id: Id)
    requires IsDefault(config) && HasShape(baseline, run, SHAPE) && rule.targetFpr <= 0.01
    ensures !FiresOn(fns, baseline, run, config, e, rule, lastFired, spentAlpha, now, id)
  {
    hide *;
    if FiresOn(fns, baseline, run, config, e, rule, lastFired, spentAlpha, now, id) {
      FiresOnlyAbove(fns, baseline, run, SHAPE, config, e, rule, lastFired, spentAlpha, now, id);
      DefaultLeastP(config);
      LevelAtMostRate(e, rule, spentAlpha);
      assert false;
    }
  }

  /** With the defaults of 1%, 200 permutations and seed 0, one prompt with 20 baseline points and one run sample
      never gets a level, and a rule at 1% never an alert, whatever the data: the p-value stays at 8/201 or more,
      although 1/201 is below the target. */
  lemma NeverAlerts(
    fns: Analysis, baseline: seq<seq<Point>>, run: seq<seq<Point>>, config: AssessmentConfig,
    e: Engine, rule: AlertRule, lastFired: map<Id, int>, spentAlpha: map<Id, real>, now: int, id: Id)
    requires IsDefault(config) && HasShape(baseline, run, SHAPE) && rule.targetFpr <= 0.01
    ensures Resolution(config) == 1.0 / 201.0 < Threshold(config.targetFpr)
    ensures var p := RunP(fns, baseline, run, config);
            p.Ok? ==> p.value >= 8.0 / 201.0 && SeverityFromP(p.value, config.targetFpr) == NoDrift
    ensures !FiresOn(fns, baseline, run, config, e, rule, lastFired, spentAlpha, now, id)
  {
    hide *;
    DefaultResolution(config);
    var p := RunP(fns, baseline, run, config);
    if p.Ok? {
      DefaultFloor(fns, baseline, run, config, p.value);
      NoLevel(config, p.value);
    }
    NoAlert(fns, baseline, run, config, e, rule, lastFired, spentAlpha, now, id);
  }
}
