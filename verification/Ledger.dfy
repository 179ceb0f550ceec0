/** The pruned, string-keyed ledger against the unpruned history of the debits recorded in it. */
module Ledger {
  import opened Results
  import opened Keys
  import opened SpendStore

  datatype Debit = Debit(rule: Id, at: int, alpha: real, pruneBefore: int)

  /** The ledger after a run of debits, from an empty one. */
  function Replay(h: seq<Debit>): Table
    decreases |h|
  {
    if h == [] then map[]
    else
      var d := h[|h| - 1];
      Spend(Replay(h[..|h| - 1]), d.rule, d.at, d.alpha, d.pruneBefore)
  }

  /** The levels of all the rule's debits filed under `from` or later, none pruned. */
  function HistorySum(h: seq<Debit>, rule: Id, from: nat): real
    decreases |h|
  {
    if h == [] then 0.0
    else
      var d := h[|h| - 1];
      HistorySum(h[..|h| - 1], rule, from) + if d.rule == rule && Stamp(d.at) >= from then d.alpha else 0.0
  }

  predicate NonNegative(h: seq<Debit>) {
    forall i :: 0 <= i < |h| ==> h[i].alpha >= 0.0
  }

  /** No debit of the rule pruned anything filed under `from` or later. */
  predicate PrunedBefore(h: seq<Debit>, rule: Id, from: nat) {
    forall i :: 0 <= i < |h| && h[i].rule == rule ==> Stamp(h[i].pruneBefore) <= from
  }

  predicate Clash(h: seq<Debit>, rule: Id, i: nat, j: nat)
    requires i < |h| && j < |h|
  {
    h[i].rule == rule && h[j].rule == rule && Stamp(h[i].at) == Stamp(h[j].at)
  }

  /** No debit that carries a level shares its rule and stamp with a later one. */
  ghost predicate NothingLost(h: seq<Debit>, rule: Id, from: nat) {
    forall i, j :: 0 <= i < j < |h| && Clash(h, rule, i, j) && Stamp(h[i].at) >= from ==> h[i].alpha == 0.0
  }

  lemma {:induction false} ReplayKeyed(h: seq<Debit>)
    ensures WellKeyed(Replay(h))
  {
    if h != [] {
      var d := h[|h| - 1];
      ReplayKeyed(h[..|h| - 1]);
      SpendEntries(Replay(h[..|h| - 1]), d.rule, d.at, d.alpha, d.pruneBefore);
      hide Spend, IsAfterSpend, WellKeyed;
    }
  }

  // ---------- One debit ----------

  /** A debit adds its level to its rule's sum, less the level filed under the same stamp before. */
  lemma {:induction false} SumAfterSpend(t: Table, d: Debit, rule: Id, from: nat)
    requires WellKeyed(t) && from <= MAX_NANOS + 1
    requires d.rule == rule ==> Stamp(d.pruneBefore) <= from
    ensures SumFrom(Spend(t, d.rule, d.at, d.alpha, d.pruneBefore), rule, from) ==
              SumFrom(t, rule, from)
              + if d.rule == rule && Stamp(d.at) >= from then d.alpha - EntryAlpha(t, rule, Stamp(d.at)) else 0.0
    decreases MAX_NANOS + 1 - from
  {
    if from <= MAX_NANOS {
      SpendEntry(t, d.rule, d.at, d.alpha, d.pruneBefore, rule, from);
      SumAfterSpend(t, d, rule, from + 1);
      hide Spend, Entry, Stamp, WellKeyed;
    }
  }

  ghost predicate LastAt(h: seq<Debit>, rule: Id, n: nat, i: int) {
    && 0 <= i < |h| && h[i].rule == rule && Stamp(h[i].at) == n
    && forall j :: i < j < |h| ==> !(h[j].rule == rule && Stamp(h[j].at) == n)
  }

  ghost predicate NoneAt(h: seq<Debit>, rule: Id, n: nat) {
    forall j :: 0 <= j < |h| ==> !(h[j].rule == rule && Stamp(h[j].at) == n)
  }

  lemma LastStep(h: seq<Debit>, rule: Id, n: nat, i: int)
    requires h != []
    ensures var d, before := h[|h| - 1], h[..|h| - 1];
            if d.rule == rule && Stamp(d.at) == n then LastAt(h, rule, n, |h| - 1)
            else
              && (LastAt(h, rule, n, i) <==> LastAt(before, rule, n, i))
              && (NoneAt(before, rule, n) ==> NoneAt(h, rule, n))
  {
    hide Stamp;
    var before := h[..|h| - 1];
    assert forall j :: 0 <= j < |before| ==> before[j] == h[j];
  }

  /** What the ledger holds for a stamp that was never pruned is the last debit filed under it. */
  lemma {:induction false} HeldLevel(h: seq<Debit>, rule: Id, n: StampNat) returns (i: int)
    requires PrunedBefore(h, rule, n)
    ensures if LastAt(h, rule, n, i) then Entry(Replay(h), rule, n) == Some(Alpha(h[i].alpha))
            else NoneAt(h, rule, n) && Entry(Replay(h), rule, n) == None
    decreases |h|
  {
    if h == [] {
      i := -1;
    } else {
      var d, before := h[|h| - 1], h[..|h| - 1];
      SpendEntry(Replay(before), d.rule, d.at, d.alpha, d.pruneBefore, rule, n);
      hide Spend, Entry, Stamp;
      i := HeldLevel(before, rule, n);
      LastStep(h, rule, n, i);
      hide LastAt, NoneAt;
      if d.rule == rule && Stamp(d.at) == n {
        i := |h| - 1;
      }
    }
  }

  lemma LossStep(h: seq<Debit>, rule: Id, from: nat)
    requires h != [] && NonNegative(h) && PrunedBefore(h, rule, from)
    ensures var d, before := h[|h| - 1], h[..|h| - 1];
            NothingLost(h, rule, from) <==>
            NothingLost(before, rule, from)
                && (d.rule == rule && Stamp(d.at) >= from ==> EntryAlpha(Replay(before), rule, Stamp(d.at)) == 0.0)
    ensures var d, before := h[|h| - 1], h[..|h| - 1];
            d.rule == rule && Stamp(d.at) >= from ==> EntryAlpha(Replay(before), rule, Stamp(d.at)) >= 0.0
  {
    var d, before := h[|h| - 1], h[..|h| - 1];
    var n := Stamp(d.at);
    if d.rule == rule && n >= from {
      var i := HeldLevel(before, rule, n);
      hide Replay, Entry, Stamp;
      LossAt(h, rule, from, i);
    } else {
      hide Replay, Stamp;
      assert forall i :: 0 <= i < |h| - 1 && Clash(h, rule, i, |h| - 1) ==> Stamp(h[i].at) < from;
      LossPrefix(h, rule, from);
    }
  }

  lemma LossPrefix(h: seq<Debit>, rule: Id, from: nat)
    requires h != []
    ensures NothingLost(h, rule, from) <==>
            && NothingLost(h[..|h| - 1], rule, from)
            && forall i :: 0 <= i < |h| - 1 && Clash(h, rule, i, |h| - 1) && Stamp(h[i].at) >= from ==>
                h[i].alpha == 0.0
  {
    var before := h[..|h| - 1];
    assert forall i, j :: 0 <= i < j < |before| ==> Clash(before, rule, i, j) == Clash(h, rule, i, j);
    hide Stamp;
    if NothingLost(h, rule, from) {
      forall i, j | 0 <= i < j < |before| && Clash(before, rule, i, j) && Stamp(before[i].at) >= from
        ensures before[i].alpha == 0.0 {
        assert Clash(h, rule, i, j);
      }
    }
  }

  /** Only the last of the debits filed under the new one's stamp can still be lost. */
  lemma LossAt(h: seq<Debit>, rule: Id, from: nat, i: int)
    requires h != [] && h[|h| - 1].rule == rule && Stamp(h[|h| - 1].at) >= from
    requires var n := Stamp(h[|h| - 1].at); var before := h[..|h| - 1];
             LastAt(before, rule, n, i) || NoneAt(before, rule, n)
    ensures NothingLost(h, rule, from) <==>
            NothingLost(h[..|h| - 1], rule, from)
                && (LastAt(h[..|h| - 1], rule, Stamp(h[|h| - 1].at), i) ==> h[i].alpha == 0.0)
  {
    hide Stamp;
    LossPrefix(h, rule, from);
    var n, before := Stamp(h[|h| - 1].at), h[..|h| - 1];
    if LastAt(before, rule, n, i) {
      assert Clash(h, rule, i, |h| - 1);
      if NothingLost(before, rule, from) && h[i].alpha == 0.0 {
        forall j | 0 <= j < |h| - 1 && Clash(h, rule, j, |h| - 1) ensures h[j].alpha == 0.0 {
          if j != i {
            assert before[j].rule == rule && Stamp(before[j].at) == n;
            assert Clash(before, rule, j, i);
          }
        }
      }
    } else {
      assert forall j :: 0 <= j < |before| ==> before[j] == h[j];
    }
  }

  // ---------- All debits ----------

  /** The ledger never reports more than the history, and the same exactly when no level was overwritten. */
  lemma {:induction false} LedgerAgainstHistory(h: seq<Debit>, rule: Id, from: nat)
    requires NonNegative(h) && PrunedBefore(h, rule, from) && from <= MAX_NANOS
    ensures SumFrom(Replay(h), rule, from) <= HistorySum(h, rule, from)
    ensures SumFrom(Replay(h), rule, from) == HistorySum(h, rule, from) <==> NothingLost(h, rule, from)
    decreases |h|
  {
    if h == [] {
      EmptySum(rule, from);
    } else {
      var d, before := h[|h| - 1], h[..|h| - 1];
      LedgerAgainstHistory(before, rule, from);
      ReplayKeyed(before);
      SumAfterSpend(Replay(before), d, rule, from);
      LossStep(h, rule, from);
      hide Spend, Stamp, NothingLost, EntryAlpha, WellKeyed, SumFrom;
    }
  }

  lemma {:induction false} EmptySum(rule: Id, from: nat)
    requires from <= MAX_NANOS + 1
    ensures SumFrom(map[], rule, from) == 0.0
    decreases MAX_NANOS + 1 - from
  {
    if from <= MAX_NANOS {
      EmptySum(rule, from + 1);
    }
  }

  // ---------- By time ----------

  /** The levels of the rule's debits made from `lo` to `hi`. */
  function WindowSum(h: seq<Debit>, rule: Id, lo: int, hi: int): real
    decreases |h|
  {
    if h == [] then 0.0
    else
      var d := h[|h| - 1];
      WindowSum(h[..|h| - 1], rule, lo, hi) + if d.rule == rule && lo <= d.at <= hi then d.alpha else 0.0
  }

  /** Every instant is one that a key can tell apart, and no rule is debited twice in the same instant. */
  ghost predicate Timely(h: seq<Debit>) {
    && (forall i :: 0 <= i < |h| ==> 0 <= h[i].at <= MAX_NANOS)
    && (forall i, j :: 0 <= i < j < |h| && h[i].rule == h[j].rule ==> h[i].at != h[j].at)
  }

  /** A query from no earlier than any cut reads the whole history of the rule's debits from then on. */
  lemma LedgerRefinesHistory(h: seq<Debit>, rule: Id, since: int)
    requires NonNegative(h) && Timely(h) && since <= MAX_NANOS
    requires forall i :: 0 <= i < |h| && h[i].rule == rule ==> h[i].pruneBefore <= since
    ensures Spent(Replay(h), rule, since) == WindowSum(h, rule, since, MAX_NANOS)
  {
    var from := Stamp(since);
    LedgerAgainstHistory(h, rule, from);
    HistoryByTime(h, rule, since);
  }

  lemma {:induction false} HistoryByTime(h: seq<Debit>, rule: Id, since: int)
    requires since <= MAX_NANOS && forall i :: 0 <= i < |h| ==> 0 <= h[i].at <= MAX_NANOS
    ensures HistorySum(h, rule, Stamp(since)) == WindowSum(h, rule, since, MAX_NANOS)
    decreases |h|
  {
    if h != [] {
      HistoryByTime(h[..|h| - 1], rule, since);
    }
  }

  /** A shorter window holds no more. */
  lemma {:induction false} WindowWithin(h: seq<Debit>, rule: Id, lo: int, hi: int, lo': int, hi': int)
    requires NonNegative(h) && lo' <= lo && hi <= hi'
    ensures 0.0 <= WindowSum(h, rule, lo, hi) <= WindowSum(h, rule, lo', hi')
    decreases |h|
  {
    if h != [] {
      WindowWithin(h[..|h| - 1], rule, lo, hi, lo', hi');
    }
  }
}
