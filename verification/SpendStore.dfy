/** The ledger of testing levels spent by each alert rule: a table sorted by string key. */
module SpendStore {
  import opened Results
  import opened Keys

  /** What a ledger value decodes to: eight bytes give a level, anything else does not. */
  datatype Stored = Alpha(value: real) | Malformed

  type Table = map<string, Stored>

  function DecodeAlpha(v: Stored): real {
    match v
    case Alpha(a) => a
    case Malformed => 0.0
  }

  function NanosOf(at: int): Nanos {
    match TimestampNanosOpt(at)
    case Some(n) => n
    case None => if at >= 0 then MAX_NANOS else 0
  }

  function KeyAt(rule: Id, nanos: Nanos): string {
    rule + "|" + Padded(if nanos < 0 then 0 else nanos, NANOS_WIDTH)
  }

  // ---------- What the ledger holds ----------

  /** The number an instant is filed under. */
  function Stamp(at: int): (n: nat)
    ensures n <= MAX_NANOS
  {
    if at < 0 then 0 else if at > MAX_NANOS then MAX_NANOS else at
  }

  /** Filing keeps the order of instants, and an instant that fits the key is filed under itself. */
  lemma StampKeepsOrder(at: int, later: int)
    requires at <= later
    ensures Stamp(at) <= Stamp(later)
    ensures 0 <= at <= 9_223_372_036_854_775_807 ==> Stamp(at) == at
    ensures at < 0 ==> Stamp(at) == 0
  {
  }

  type StampNat = n: nat | n <= MAX_NANOS

  lemma KeyOfInstant(rule: Id, at: int)
    ensures KeyAt(rule, NanosOf(at)) == KeyAt(rule, Stamp(at))
  {
  }

  /** Numeric order within a rule, and no rule between another one's keys. */
  lemma KeyOrder(r: Id, q: Id, n: StampNat, m: StampNat)
    ensures Less(KeyAt(r, n), KeyAt(q, m)) <==> Less(r, q) || (r == q && n < m)
    ensures KeyAt(r, n) == KeyAt(q, m) <==> r == q && n == m
  {
    StampedOrder(r, q, n, m, "", "");
    var a, b := Padded(n, NANOS_WIDTH), Padded(m, NANOS_WIDTH);
    assert r + "|" + a + "" == r + "|" + a && q + "|" + b + "" == q + "|" + b;
    if KeyAt(r, n) == KeyAt(q, m) {
      StampedEqual(r, q, n, m, "", "");
    }
  }

  ghost predicate IsKey(k: string) {
    exists r: Id, n: StampNat :: k == KeyAt(r, n)
  }

  ghost predicate WellKeyed(table: Table) {
    forall k :: k in table ==> IsKey(k)
  }

  function Entry(table: Table, rule: Id, n: StampNat): Option<Stored> {
    var k := KeyAt(rule, n);
    if k in table then Some(table[k]) else None
  }

  function EntryAlpha(table: Table, rule: Id, n: StampNat): real {
    match Entry(table, rule, n)
    case Some(v) => DecodeAlpha(v)
    case None => 0.0
  }

  /** The sum of all the rule's entries filed under `from` or later. */
  ghost function SumFrom(table: Table, rule: Id, from: nat): real
    decreases MAX_NANOS + 1 - from
  {
    if from > MAX_NANOS then 0.0 else EntryAlpha(table, rule, from) + SumFrom(table, rule, from + 1)
  }

  ghost function Spent(table: Table, rule: Id, since: int): real {
    SumFrom(table, rule, Stamp(since))
  }

  /** Malformed entries spend nothing. */
  lemma {:induction false} MalformedSpendsNothing(table: Table, rule: Id, from: nat)
    requires forall n: StampNat :: from <= n ==>
        Entry(table, rule, n) == None || Entry(table, rule, n) == Some(Malformed)
    ensures SumFrom(table, rule, from) == 0.0
    decreases MAX_NANOS + 1 - from
  {
    if from <= MAX_NANOS {
      MalformedSpendsNothing(table, rule, from + 1);
      hide Entry;
      assert Entry(table, rule, from) == None || Entry(table, rule, from) == Some(Malformed);
    }
  }

  // ---------- Range scans ----------

  /** `k` is one of the rule's keys, filed from `lo` up to and not including `hi`. */
  ghost predicate Filed(rule: Id, lo: nat, hi: nat, k: string) {
    exists n: StampNat :: lo <= n < hi && k == KeyAt(rule, n)
  }

  /** A key between two keys of one rule is a key of that rule, filed between the two. */
  lemma BetweenKeys(rule: Id, lo: StampNat, hi: StampNat, k: string)
    requires IsKey(k) && lo <= hi
    ensures !Less(k, KeyAt(rule, lo)) && Less(k, KeyAt(rule, hi)) <==> Filed(rule, lo, hi, k)
    ensures !Less(k, KeyAt(rule, lo)) && (Less(k, KeyAt(rule, hi)) || k == KeyAt(rule, hi)) <==>
        Filed(rule, lo, hi + 1, k)
  {
    var r: Id, n: StampNat :| k == KeyAt(r, n);
    KeyOrder(r, rule, n, lo);
    KeyOrder(r, rule, n, hi);
    forall m: StampNat | k == KeyAt(rule, m) ensures r == rule && m == n {
      KeyOrder(r, rule, n, m);
    }
    LessTotal(r, rule);
    if Less(r, rule) && Less(rule, r) {
      LessTransitive(r, rule, r);
      LessIrreflexive(r);
    }
  }

  /** `keys` lists, in order, the rule's entries filed under `from` or later. */
  ghost predicate Lists(keys: seq<string>, table: Table, rule: Id, from: nat) {
    && Increasing(keys)
    && (forall k :: k in keys <==> k in table && Filed(rule, from, MAX_NANOS + 1, k))
  }

  function SumKeys(table: Table, keys: seq<string>): real
    requires forall k :: k in keys ==> k in table
    decreases |keys|
  {
    if keys == [] then 0.0 else DecodeAlpha(table[keys[0]]) + SumKeys(table, keys[1..])
  }

  lemma FirstKey(keys: seq<string>, table: Table, rule: Id, from: StampNat)
    requires Lists(keys, table, rule, from) && KeyAt(rule, from) in keys
    ensures keys[0] == KeyAt(rule, from)
  {
    var key := KeyAt(rule, from);
    var i :| 0 <= i < |keys| && keys[i] == key;
    assert i > 0 ==> Less(keys[0], keys[i]);
    assert keys[0] in keys;
    var n: StampNat :| from <= n && keys[0] == KeyAt(rule, n);
    KeyOrder(rule, rule, n, from);
    LessIrreflexive(rule);
  }

  lemma NextFiled(rule: Id, from: StampNat, k: string)
    ensures Filed(rule, from, MAX_NANOS + 1, k) <==> k == KeyAt(rule, from) || Filed(rule, from + 1, MAX_NANOS + 1, k)
    ensures !Filed(rule, from + 1, MAX_NANOS + 1, KeyAt(rule, from))
  {
    forall n: StampNat | KeyAt(rule, n) == KeyAt(rule, from) ensures n == from {
      KeyOrder(rule, rule, n, from);
    }
    hide KeyAt;
  }

  lemma FirstListed(keys: seq<string>, table: Table, rule: Id, from: StampNat)
    requires Lists(keys, table, rule, from)
    ensures KeyAt(rule, from) in table ==>
        keys != [] && keys[0] == KeyAt(rule, from) && Lists(keys[1..], table, rule, from + 1)
    ensures KeyAt(rule, from) !in table ==> Lists(keys, table, rule, from + 1)
  {
    var key := KeyAt(rule, from);
    var next, end := from + 1, MAX_NANOS + 1;
    forall k ensures Filed(rule, from, end, k) <==> k == key || Filed(rule, next, end, k) {
      NextFiled(rule, from, k);
    }
    NextFiled(rule, from, key);
    if key in table {
      FirstKey(keys, table, rule, from);
      forall k ensures k in keys[1..] <==> k in keys && k != key {
        TailKey(keys, k);
      }
      TailIncreasing(keys);
    }
    hide Increasing, KeyAt, Filed;
  }

  lemma TailIncreasing(keys: seq<string>)
    requires Increasing(keys) && keys != []
    ensures Increasing(keys[1..])
  {
  }

  /** Adding up a scan gives the sum of the entries it is meant to select. */
  lemma {:induction false} ScanSums(keys: seq<string>, table: Table, rule: Id, from: nat)
    requires Lists(keys, table, rule, from) && from <= MAX_NANOS + 1
    ensures SumKeys(table, keys) == SumFrom(table, rule, from)
    decreases MAX_NANOS + 1 - from
  {
    if from <= MAX_NANOS {
      FirstListed(keys, table, rule, from);
      ScanSums(if KeyAt(rule, from) in table then keys[1..] else keys, table, rule, from + 1);
    } else {
      HasMember(keys);
    }
  }

  // ---------- The store ----------

  /** The keys that a debit prunes: the rule's, filed before the window's start. */
  function Stale(table: Table, rule: Id, pruneBefore: int): seq<string> {
    Scan(table.Keys, KeyAt(rule, 0), KeyAt(rule, NanosOf(pruneBefore)), false)
  }

  /** The ledger after a debit: it overwrites its own key, and every older entry than the cut is dropped. */
  ghost predicate IsAfterSpend(before: Table, after: Table, rule: Id, at: int, alpha: real, pruneBefore: int) {
    forall r: Id, n: StampNat ::
      Entry(after, r, n) ==
        if r != rule then Entry(before, r, n)
        else if n < Stamp(pruneBefore) then None
        else if n == Stamp(at) then Some(Alpha(alpha))
        else Entry(before, r, n)
  }

  class AlphaSpendStore {
    var table: Table

    constructor ()
      ensures table == map[]
    {
      table := map[];
    }

    method SpentSince(rule: Id, since: int) returns (total: real)
      requires WellKeyed(table)
      ensures total == Spent(table, rule, since)
    {
      var lo, hi := KeyAt(rule, NanosOf(since)), KeyAt(rule, MAX_NANOS);
      var keys := Scan(table.Keys, lo, hi, true);
      total := 0.0;
      var i := 0;
      while i < |keys|
        invariant 0 <= i <= |keys|
        invariant total + SumKeys(table, keys[i..]) == SumKeys(table, keys)
      {
        total := total + DecodeAlpha(table[keys[i]]);
        assert keys[i..][1..] == keys[i + 1..];
        i := i + 1;
      }
      ScanLists(table, rule, since);
      ScanSums(keys, table, rule, Stamp(since));
    }

    method RecordSpend(rule: Id, at: int, alpha: real, pruneBefore: int)
      requires WellKeyed(table)
      modifies this
      ensures table == Spend(old(table), rule, at, alpha, pruneBefore)
      ensures WellKeyed(table) && IsAfterSpend(old(table), table, rule, at, alpha, pruneBefore)
    {
      SpendEntries(table, rule, at, alpha, pruneBefore);
      KeyOfInstant(rule, at);
      hide KeyAt, NanosOf, Stamp, Scan, Stale, WellKeyed, IsAfterSpend, Without;
      var key := KeyAt(rule, NanosOf(at));
      table := table[key := Alpha(alpha)];
      ghost var inserted := table;
      var stale := Stale(table, rule, pruneBefore);   // read before removing
      assert Without(table, stale[..0]) == table by { WithoutNone(table, stale); }
      var i := 0;
      while i < |stale|
        invariant 0 <= i <= |stale|
        invariant table == Without(inserted, stale[..i])
      {
        WithoutNext(inserted, stale, i);
        table := table - {stale[i]};
        i := i + 1;
      }
      assert stale[..|stale|] == stale;
    }
  }

  lemma ScanLists(table: Table, rule: Id, since: int)
    requires WellKeyed(table)
    ensures Lists(Scan(table.Keys, KeyAt(rule, NanosOf(since)), KeyAt(rule, MAX_NANOS), true), table, rule,
        Stamp(since))
  {
    KeyOfInstant(rule, since);
    var from := Stamp(since);
    var lo, hi := KeyAt(rule, from), KeyAt(rule, MAX_NANOS);
    forall k | k in table
      ensures !Less(k, lo) && (Less(k, hi) || k == hi) <==> Filed(rule, from, MAX_NANOS + 1, k)
    {
      BetweenKeys(rule, from, MAX_NANOS, k);
    }
    hide KeyAt, Increasing, Less, Stamp, NanosOf, WellKeyed, Filed;
  }

  function Spend(table: Table, rule: Id, at: int, alpha: real, pruneBefore: int): Table {
    var inserted := table[KeyAt(rule, Stamp(at)) := Alpha(alpha)];
    Without(inserted, Stale(inserted, rule, pruneBefore))
  }

  function Without(table: Table, keys: seq<string>): Table {
    table - (set k | k in keys)
  }

  lemma WithoutNone(table: Table, keys: seq<string>)
    ensures Without(table, keys[..0]) == table
  {
  }

  lemma WithoutNext(table: Table, keys: seq<string>, i: nat)
    requires i < |keys|
    ensures Without(table, keys[..i + 1]) == Without(table, keys[..i]) - {keys[i]}
  {
    assert keys[..i + 1] == keys[..i] + [keys[i]];
  }

  lemma SpendEntry(table: Table, rule: Id, at: int, alpha: real, pruneBefore: int, r: Id, n: StampNat)
    ensures Entry(Spend(table, rule, at, alpha, pruneBefore), r, n) ==
              if r != rule then Entry(table, r, n)
              else if n < Stamp(pruneBefore) then None
              else if n == Stamp(at) then Some(Alpha(alpha))
              else Entry(table, r, n)
  {
    var inserted := table[KeyAt(rule, Stamp(at)) := Alpha(alpha)];
    KeyOrder(r, rule, n, Stamp(at));
    StaleKey(inserted, rule, pruneBefore, r, n);
    hide KeyAt, Stamp, NanosOf, Stale, Less;
  }

  lemma SpendEntries(table: Table, rule: Id, at: int, alpha: real, pruneBefore: int)
    requires WellKeyed(table)
    ensures var after := Spend(table, rule, at, alpha, pruneBefore);
            WellKeyed(after) && IsAfterSpend(table, after, rule, at, alpha, pruneBefore)
  {
    forall r: Id, n: StampNat {
      SpendEntry(table, rule, at, alpha, pruneBefore, r, n);
    }
    hide KeyAt, Stamp, NanosOf, Stale, Entry;
  }

  lemma StaleKey(table: Table, rule: Id, pruneBefore: int, r: Id, n: StampNat)
    ensures KeyAt(r, n) in Stale(table, rule, pruneBefore) <==>
        r == rule && n < Stamp(pruneBefore) && KeyAt(r, n) in table
  {
    KeyOfInstant(rule, pruneBefore);
    var k := KeyAt(r, n);
    assert IsKey(k);
    BetweenKeys(rule, 0, Stamp(pruneBefore), k);
    forall m: StampNat | k == KeyAt(rule, m) ensures r == rule && m == n {
      KeyOrder(r, rule, n, m);
    }
    hide KeyAt, NanosOf, Stamp, Less, IsKey;
  }
}
