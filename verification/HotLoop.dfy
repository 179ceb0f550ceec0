/** What failed writes of the next run do to a loop whose stored run is over. */
module HotLoop {
  import opened Schedule
  import opened Scheduler
  import opened Daemon

  /** The loop is about to plan, its stored run is due, and a permit is free. */
  predicate Due(s: System, h: nat) {
    InPhase(s, h, Starting) && s.free > 0 && s.l.tasks[h].probe.id in s.l.stored
        && s.l.stored[s.l.tasks[h].probe.id] <= s.clock
  }

  lemma TakesFirst(cron: CronLibrary, s: System, step: Step, rest: seq<Step>, s': System)
    requires Enabled(s, step) && Takes(cron, Next(cron, s, step), rest, s')
    ensures Takes(cron, s, [step] + rest, s')
  {
    hide Next, Enabled;
    assert ([step] + rest)[1..] == rest;
  }

  lemma {:induction false} TakesMore(
    cron: CronLibrary, s: System, first: seq<Step>, mid: System, second: seq<Step>, s': System)
    requires Takes(cron, s, first, mid) && Takes(cron, mid, second, s')
    ensures Takes(cron, s, first + second, s')
    decreases |first|
  {
    hide Enabled, Next;
    if first == [] {
      assert first + second == second;
    } else {
      assert (first + second)[1..] == first[1..] + second;
      TakesMore(cron, Next(cron, s, first[0]), first[1..], mid, second, s');
    }
  }

  /** Planning for a run that is due, and waking for it at once. */
  lemma PlanAndWake(cron: CronLibrary, s: System, h: nat) returns (s': System)
    requires Due(s, h)
    ensures Takes(cron, s, [Plan(h, true, true)] + ([Wake(h)] + []), s')
    ensures var t := s.l.tasks[h]; s' == WithTask(s, h, t.(phase := Resolving, wakes := t.wakes + [s.clock]))
  {
    hide NextRunAfter;
    var s1 := Next(cron, s, Plan(h, true, true));
    s' := Next(cron, s1, Wake(h));
    TakesFirst(cron, s1, Wake(h), [], s');
    TakesFirst(cron, s, Plan(h, true, true), [Wake(h)] + [], s');
  }

  lemma ResolveAndStart(cron: CronLibrary, s: System, h: nat) returns (s': System)
    requires InPhase(s, h, Resolving) && s.free > 0
    ensures Takes(cron, s, [Resolve(h, true)] + ([Acquire(h)] + []), s')
    ensures var t := s.l.tasks[h];
            s' == WithTask(s, h, t.(phase := Running, starts := t.starts + [s.clock])).(free := s.free - 1)
  {
    hide NextRunAfter;
    var s1 := Next(cron, s, Resolve(h, true));
    s' := Next(cron, s1, Acquire(h));
    TakesFirst(cron, s1, Acquire(h), [], s');
    TakesFirst(cron, s, Resolve(h, true), [Acquire(h)] + [], s');
  }

  lemma CompleteAndFail(cron: CronLibrary, s: System, h: nat) returns (s': System)
    requires InPhase(s, h, Running)
    ensures Takes(cron, s, [Complete(h)] + ([Advance(h, false)] + []), s')
    ensures s' == WithTask(s, h, s.l.tasks[h].(phase := Starting)).(free := s.free + 1)
  {
    hide NextRunAfter;
    var s1 := Next(cron, s, Complete(h));
    s' := Next(cron, s1, Advance(h, false));
    TakesFirst(cron, s1, Advance(h, false), [], s');
    TakesFirst(cron, s, Complete(h), [Advance(h, false)] + [], s');
  }

  /** A run that starts at once and whose next run is not written leaves the loop as due as before, at the
      same instant. */
  lemma OneRound(cron: CronLibrary, s: System, h: nat) returns (steps: seq<Step>, s': System)
    requires Due(s, h)
    ensures Takes(cron, s, steps, s') && Due(s', h) && s'.clock == s.clock
        && s'.l.tasks[h].starts == s.l.tasks[h].starts + [s.clock]
  {
    var s2 := PlanAndWake(cron, s, h);
    var s4 := ResolveAndStart(cron, s2, h);
    s' := CompleteAndFail(cron, s4, h);
    hide Takes;
    var first, second := [Plan(h, true, true)] + ([Wake(h)] + []), [Resolve(h, true)] + ([Acquire(h)] + []);
    var third := [Complete(h)] + ([Advance(h, false)] + []);
    TakesMore(cron, s, first, s2, second, s4);
    TakesMore(cron, s, first + second, s4, third, s');
    steps := first + second + third;
  }

  /** As long as the write fails, the loop runs again and again at one instant, any number of times. */
  lemma {:induction false} FailedWritesSpin(
    cron: CronLibrary, s: System, h: nat, k: nat)
    returns (steps: seq<Step>, s': System)
    requires Due(s, h)
    ensures Takes(cron, s, steps, s') && Due(s', h) && s'.clock == s.clock
    ensures s'.l.tasks[h].starts == s.l.tasks[h].starts + seq(k, _ => s.clock)
  {
    if k == 0 {
      steps, s' := [], s;
    } else {
      hide Takes, Due;
      var before, mid := FailedWritesSpin(cron, s, h, k - 1);
      var round: seq<Step>;
      round, s' := OneRound(cron, mid, h);
      TakesMore(cron, s, before, mid, round, s');
      steps := before + round;
      assert seq(k, _ => s.clock) == seq(k - 1, _ => s.clock) + [s.clock];
    }
  }
}
