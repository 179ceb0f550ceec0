/** When a probe runs next, and what is stored about it. */
module Schedule {
  import opened Keys

  const MINUTE: int := 60000000000
  const HOUR: int := 3600000000000

  datatype ProbeSchedule = EveryMinutes(minutes: nat) | Cron(expression: string)

  /** What the cron library says about an expression: it does not parse, it never fires again, or it next
      fires at an instant. */
  datatype CronAnswer = Unparsable | NoMore | FiresAt(at: int)

  type CronLibrary = (string, int) -> CronAnswer

  /** The answers come from a fixed set of firings: the next one strictly later, for as long as it is still to come. */
  ghost predicate Lawful(cron: CronLibrary) {
    forall e: string, from: int :: Answers(cron, e, from)
  }

  ghost predicate Answers(cron: CronLibrary, e: string, from: int) {
    match cron(e, from)
    case Unparsable => forall later: int :: cron(e, later) == Unparsable
    case NoMore => forall later: int :: later >= from ==> cron(e, later) == NoMore
    case FiresAt(at) =>
      && at > from
      && (forall later: int :: from <= later < at ==> cron(e, later) == FiresAt(at))
      && (forall later: int :: cron(e, later) != Unparsable)
  }

  function AtLeastOne(m: nat): nat {
    if m == 0 then 1 else m
  }

  function NextRunAfter(cron: CronLibrary, schedule: ProbeSchedule, from: int): int {
    match schedule
    case EveryMinutes(m) => from + AtLeastOne(m) * MINUTE
    case Cron(e) =>
      match cron(e, from)
      case Unparsable => from + HOUR
      case NoMore => from + HOUR
      case FiresAt(at) => at
  }

  /** Every so many minutes, and at least one; when the cron library says; and in an hour where it cannot say. */
  lemma NextRunIs(cron: CronLibrary, schedule: ProbeSchedule, from: int)
    ensures match schedule
            case EveryMinutes(m) =>
              NextRunAfter(cron, schedule, from) == from + (if m >= 1 then m else 1) * 60_000_000_000
            case Cron(e) =>
              && (cron(e, from).FiresAt? ==> cron(e, from) == FiresAt(NextRunAfter(cron, schedule, from)))
              && (!cron(e, from).FiresAt? ==> NextRunAfter(cron, schedule, from) == from + 3_600_000_000_000)
  {
  }

  /** The next run is strictly later, and computing it later never gives an earlier one. */
  lemma NextRunIsLater(cron: CronLibrary, schedule: ProbeSchedule, from: int, later: int)
    requires Lawful(cron) && from <= later
    ensures NextRunAfter(cron, schedule, from) > from
    ensures NextRunAfter(cron, schedule, later) >= NextRunAfter(cron, schedule, from)
    ensures schedule.EveryMinutes? ==> NextRunAfter(cron, schedule, from) >= from + MINUTE
  {
    if schedule.Cron? {
      assert Answers(cron, schedule.expression, from) && Answers(cron, schedule.expression, later);
    } else {
      assert AtLeastOne(schedule.minutes) * MINUTE >= MINUTE;
    }
  }

  // ---------- The stored next run ----------

  datatype Probe = Probe(id: Id, updatedAt: int, schedule: ProbeSchedule)

  type Stored = map<Id, int>

  /** The stored instant, or a fresh one where there is none or it cannot be read. */
  function PlannedAt(cron: CronLibrary, stored: Stored, probe: Probe, now: int, readable: bool): int {
    if readable && probe.id in stored then stored[probe.id] else NextRunAfter(cron, probe.schedule, now)
  }

  class ScheduleStore {
    var stored: Stored

    constructor ()
      ensures stored == map[]
    {
      stored := map[];
    }

    /** `writable` says whether the store accepts the write; a failed one is only logged. */
    method AdvanceTo(id: Id, next: int, writable: bool)
      modifies this
      ensures stored == if writable then old(stored)[id := next] else old(stored)
    {
      if writable {
        stored := stored[id := next];
      }
    }

    method Advance(cron: CronLibrary, probe: Probe, now: int, writable: bool)
      modifies this
      ensures stored == if writable then old(stored)[probe.id := NextRunAfter(cron, probe.schedule, now)]
          else old(stored)
      ensures writable && probe.schedule.EveryMinutes? ==>
          stored[probe.id] == now + (if probe.schedule.minutes >= 1 then probe.schedule.minutes else 1) * 60_000_000_000
    {
      AdvanceTo(probe.id, NextRunAfter(cron, probe.schedule, now), writable);
    }

    method ScheduledNextRun(
      cron: CronLibrary, probe: Probe, now: int, readable: bool, writable: bool)
      returns (next: int)
      modifies this
      ensures next == PlannedAt(cron, old(stored), probe, now, readable)
      ensures stored == if writable && !(readable && probe.id in old(stored)) then old(stored)[probe.id := next]
          else old(stored)
      ensures readable && writable ==> probe.id in stored && stored[probe.id] == next
      ensures readable && probe.id in old(stored) ==> next == old(stored)[probe.id]
      ensures !(readable && probe.id in old(stored)) && probe.schedule.EveryMinutes? ==>
          next == now + (if probe.schedule.minutes >= 1 then probe.schedule.minutes else 1) * 60_000_000_000
    {
      if readable && probe.id in stored {
        next := stored[probe.id];
      } else {
        next := NextRunAfter(cron, probe.schedule, now);
        AdvanceTo(probe.id, next, writable);
      }
    }
  }

  /** After an overdue run at `now`, the loop waits again exactly when its new time could be written, or cannot be read
      back: otherwise the old, past one is read. */
  lemma WaitsIffWritten(cron: CronLibrary, stored: Stored, probe: Probe, now: int, readable: bool, writable: bool)
    requires Lawful(cron) && probe.id in stored && stored[probe.id] <= now
    ensures var after := if writable then stored[probe.id := NextRunAfter(cron, probe.schedule, now)] else stored;
            PlannedAt(cron, after, probe, now, readable) > now <==> writable || !readable
  {
    NextRunIsLater(cron, probe.schedule, now, now);
  }
}
