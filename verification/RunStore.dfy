/** Probe runs, split over three tables: metadata, embeddings, and an index ordered newest first. */
module RunStore {
  import opened Results
  import opened Keys

  type Cloud = seq<seq<seq<real>>>

  /** `details` stands for the fields that the store only carries along. */
  datatype ProbeRun = ProbeRun(id: Id, probeId: Id, startedAt: int, embeddings: Cloud, details: string)

  datatype Tables = Tables(runs: map<Id, ProbeRun>, embeddings: map<Id, Cloud>, index: map<string, Id>)

  const EMPTY: Tables := Tables(map[], map[], map[])

  /** Instants that do not fit count as the epoch. */
  function Nanos0(at: int): (n: nat)
    ensures n <= MAX_NANOS
  {
    var n := match TimestampNanosOpt(at) case Some(x) => x case None => 0;
    if n < 0 then 0 else n
  }

  function IndexKey(probe: Id, startedAt: int, run: Id): string {
    var rev: nat := MAX_NANOS - Nanos0(startedAt);
    probe + "|" + Padded(rev, NANOS_WIDTH) + ("|" + run)
  }

  function KeyOf(run: ProbeRun): string {
    IndexKey(run.probeId, run.startedAt, run.id)
  }

  /** Newer runs have smaller keys; the run id decides between runs of one instant. */
  predicate Newer(a: ProbeRun, b: ProbeRun) {
    Nanos0(a.startedAt) > Nanos0(b.startedAt) || (Nanos0(a.startedAt) == Nanos0(b.startedAt) && Less(a.id, b.id))
  }

  lemma KeyOrder(a: ProbeRun, b: ProbeRun)
    ensures a.probeId == b.probeId ==> (Less(KeyOf(a), KeyOf(b)) <==> Newer(a, b))
    ensures a.probeId == b.probeId && 0 <= a.startedAt <= MAX_NANOS && 0 <= b.startedAt <= MAX_NANOS ==>
        (Less(KeyOf(a), KeyOf(b)) <==>
            a.startedAt > b.startedAt || (a.startedAt == b.startedAt && Less(a.id, b.id)))
    ensures KeyOf(a) == KeyOf(b) <==>
        a.probeId == b.probeId && Nanos0(a.startedAt) == Nanos0(b.startedAt) && a.id == b.id
  {
    var n, m := MAX_NANOS - Nanos0(a.startedAt), MAX_NANOS - Nanos0(b.startedAt);
    StampedOrder(a.probeId, b.probeId, n, m, "|" + a.id, "|" + b.id);
    if KeyOf(a) == KeyOf(b) {
      StampedEqual(a.probeId, b.probeId, n, m, "|" + a.id, "|" + b.id);
      assert ("|" + a.id)[1..] == a.id && ("|" + b.id)[1..] == b.id;
    }
    BarIrreflexive();
    LessIrreflexive(a.probeId);
    LessConcat("|", "|", a.id, b.id);
  }

  // ---------- Blocks of the index ----------

  predicate StartsWith(k: string, prefix: string) {
    |prefix| <= |k| && k[..|prefix|] == prefix
  }

  function Prefix(probe: Id): string {
    probe + "|"
  }

  lemma KeyStarts(run: ProbeRun, probe: Id)
    ensures StartsWith(KeyOf(run), Prefix(probe)) <==> run.probeId == probe
  {
    var rest := Padded(MAX_NANOS - Nanos0(run.startedAt), NANOS_WIDTH) + ("|" + run.id);
    assert KeyOf(run) == Prefix(run.probeId) + rest;
    assert KeyOf(run)[..ID_LENGTH + 1] == Prefix(run.probeId);
    assert Prefix(run.probeId)[..ID_LENGTH] == run.probeId && Prefix(probe)[..ID_LENGTH] == probe;
  }

  /** The keys that start with a prefix are contiguous, and the prefix itself comes before them. */
  lemma {:induction false} PrefixBlock(a: string, b: string, prefix: string)
    requires StartsWith(b, prefix)
    ensures !Less(b, prefix)
    ensures !Less(a, prefix) && Less(a, b) ==> StartsWith(a, prefix)
    decreases |prefix|
  {
    if prefix != "" {
      PrefixBlock(if a == "" then "" else a[1..], b[1..], prefix[1..]);
    }
  }

  /** The probe's keys, in order. */
  function Block(keys: set<string>, probe: Id): seq<string> {
    Ordered(set k | k in keys && StartsWith(k, Prefix(probe)))
  }

  function ScanFrom(keys: set<string>, lo: string): (s: seq<string>)
    ensures Increasing(s) && forall k :: k in s <==> k in keys && !Less(k, lo)
  {
    Ordered(set k | k in keys && !Less(k, lo))
  }

  /** A scan that stops at the first foreign key has read the probe's block. */
  lemma ScanReadsBlock(keys: set<string>, probe: Id, n: nat)
    requires var scan := ScanFrom(keys, Prefix(probe));
      && n <= |scan| && (forall i :: 0 <= i < n ==> StartsWith(scan[i], Prefix(probe)))
      && (n < |scan| ==> !StartsWith(scan[n], Prefix(probe)))
    ensures ScanFrom(keys, Prefix(probe))[..n] == Block(keys, probe)
  {
    var scan, prefix := ScanFrom(keys, Prefix(probe)), Prefix(probe);
    forall k ensures k in scan[..n] <==> k in Block(keys, probe) {
      if k in Block(keys, probe) {
        PrefixBlock("", k, prefix);
        var i :| 0 <= i < |scan| && scan[i] == k;
        if n < i {
          PrefixBlock(scan[n], k, prefix);
        }
      }
    }
    hide ScanFrom, Prefix;
    IncreasingPrefix(scan, n);
    IncreasingUnique(scan[..n], Block(keys, probe));
  }

  lemma IncreasingPrefix(s: seq<string>, n: nat)
    requires Increasing(s) && n <= |s|
    ensures Increasing(s[..n])
  {
  }

  // ---------- The three tables ----------

  /** The index files each run under its own key, and nothing else. */
  ghost predicate Indexed(runs: map<Id, ProbeRun>, index: map<string, Id>) {
    && (forall id :: id in runs ==> KeyOf(runs[id]) in index && index[KeyOf(runs[id])] == id)
    && (forall k :: k in index ==> index[k] in runs && k == KeyOf(runs[index[k]]))
  }

  /** All three tables name the same runs. */
  ghost predicate Consistent(t: Tables) {
    && t.runs.Keys == t.embeddings.Keys
    && (forall id :: id in t.runs ==> t.runs[id].id == id && t.runs[id].embeddings == [])
    && Indexed(t.runs, t.index)
  }

  datatype Op = Insert(run: ProbeRun) | DeleteForProbe(probe: Id)

  function Targets(t: Tables, probe: Id): set<Id> {
    set k | k in t.index && StartsWith(k, Prefix(probe)) :: t.index[k]
  }

  function Apply(t: Tables, op: Op): Tables {
    match op
    case Insert(run) =>
      Tables(t.runs[run.id := run.(embeddings := [])], t.embeddings[run.id := run.embeddings],
          t.index[KeyOf(run) := run.id])
    case DeleteForProbe(probe) =>
      var gone := Targets(t, probe);
      Tables(t.runs - gone, t.embeddings - gone, t.index - (set k | k in t.index && StartsWith(k, Prefix(probe))))
  }

  predicate Resolves(t: Tables, keys: seq<string>) {
    forall i :: 0 <= i < |keys| ==> keys[i] in t.index && t.index[keys[i]] in t.runs
  }

  /** The metadata that a list of index keys leads to. */
  function Resolve(t: Tables, keys: seq<string>): (s: seq<ProbeRun>)
    requires Resolves(t, keys)
    ensures |s| == |keys| && forall i :: 0 <= i < |s| ==> s[i] == t.runs[t.index[keys[i]]]
  {
    seq(|keys|, i requires 0 <= i < |keys| => t.runs[t.index[keys[i]]])
  }

  /** All runs of a probe, newest first. */
  ghost function Listing(t: Tables, probe: Id): seq<ProbeRun>
    requires Consistent(t)
  {
    var keys := Block(t.index.Keys, probe);
    assert forall i :: 0 <= i < |keys| ==> keys[i] in keys;
    Resolve(t, keys)
  }

  function First<T>(s: seq<T>, limit: nat): seq<T> {
    if |s| <= limit then s else s[..limit]
  }

  class RunStore {
    var runs: map<Id, ProbeRun>
    var embeddings: map<Id, Cloud>
    var index: map<string, Id>

    ghost function Contents(): Tables
      reads this
    {
      Tables(runs, embeddings, index)
    }

    constructor ()
      ensures Contents() == EMPTY
    {
      runs, embeddings, index := map[], map[], map[];
    }

    method Put(run: ProbeRun)
      modifies this
      ensures Contents() == Apply(old(Contents()), Insert(run))
    {
      var meta := run.(embeddings := []);
      runs := runs[run.id := meta];
      embeddings := embeddings[run.id := run.embeddings];
      index := index[IndexKey(run.probeId, run.startedAt, run.id) := run.id];
    }

    method Get(id: Id) returns (run: Option<ProbeRun>)
      ensures run == if id in runs then Some(runs[id]) else None
    {
      if id in runs {
        return Some(runs[id]);
      }
      return None;
    }

    /** The entry is pushed before the limit is tested, so a limit of 0 still yields one run. */
    method ListForProbe(probe: Id, limit: nat) returns (out: seq<ProbeRun>)
      requires Consistent(Contents())
      ensures out == First(Listing(Contents(), probe), if limit == 0 then 1 else limit)
      ensures NewestFirst(out) && out <= Listing(Contents(), probe)
      ensures |out| == if 0 < |RunsOf(Contents(), probe)| && limit == 0 then 1
                       else if |RunsOf(Contents(), probe)| <= limit then |RunsOf(Contents(), probe)| else limit
    {
      AllResolve(Contents(), Prefix(probe));
      hide Consistent, ScanFrom, StartsWith, Listing, First, Prefix, NewestFirst, RunsOf;
      ghost var t := Contents();
      var prefix := Prefix(probe);
      var scan := ScanFrom(index.Keys, prefix);
      out := [];
      var i := 0;
      while i < |scan| && StartsWith(scan[i], prefix)
        invariant i == |out| <= |scan| && (out == [] || |out| < limit)
        invariant Listed(t, prefix, scan, out)
      {
        ListedNext(t, prefix, scan, out);
        if index[scan[i]] in runs {
          out := out + [runs[index[scan[i]]]];
        }
        i := i + 1;
        if |out| >= limit {
          break;
        }
      }
      FirstListed(t, probe, out, if limit == 0 then 1 else limit);
      FirstMeaning(t, probe, if limit == 0 then 1 else limit);
    }

    /** The first pass: each key of the probe's block with the run it leads to. */
    method Collect(probe: Id) returns (targets: seq<(string, Id)>)
      ensures var block := Block(index.Keys, probe);
        |targets| == |block| && forall j :: 0 <= j < |block| ==>
            block[j] in index && targets[j] == (block[j], index[block[j]])
    {
      hide ScanFrom, Block, StartsWith, Prefix;
      var prefix := Prefix(probe);
      var scan := ScanFrom(index.Keys, prefix);
      assert forall j :: 0 <= j < |scan| ==> scan[j] in index by {
        assert forall j :: 0 <= j < |scan| ==> scan[j] in scan;
      }
      targets := [];
      while |targets| < |scan| && StartsWith(scan[|targets|], prefix)
        invariant |targets| <= |scan|
        invariant forall j :: 0 <= j < |targets| ==>
            StartsWith(scan[j], prefix) && targets[j] == (scan[j], index[scan[j]])
      {
        targets := targets + [(scan[|targets|], index[scan[|targets|]])];
      }
      ScanReadsBlock(index.Keys, probe, |targets|);
    }

    method Remove(probe: Id) returns (count: nat)
      modifies this
      ensures Contents() == Apply(old(Contents()), DeleteForProbe(probe))
      ensures count == |Block(old(index).Keys, probe)|
    {
      hide Block, Apply, StartsWith;
      ghost var block, before := Block(index.Keys, probe), Contents();
      var targets := Collect(probe);
      count := |targets|;
      RemovedAll(before, probe);
      if count == 0 {
        return;
      }
      for i := 0 to |targets|
        invariant Contents() == Without(before, block[..i])
      {
        WithoutNext(before, block, i);
        hide Without;
        runs := runs - {targets[i].1};
        embeddings := embeddings - {targets[i].1};
        index := index - {targets[i].0};
      }
      assert block[..|targets|] == block;
    }
  }

  lemma ScanHoldsBlock(keys: set<string>, probe: Id, i: nat) returns (n: nat)
    requires var scan := ScanFrom(keys, Prefix(probe)); i <= |scan| && forall j :: 0 <= j < i ==>
        StartsWith(scan[j], Prefix(probe))
    ensures i <= n <= |ScanFrom(keys, Prefix(probe))| && ScanFrom(keys, Prefix(probe))[..n] == Block(keys, probe)
  {
    var scan := ScanFrom(keys, Prefix(probe));
    n := i;
    while n < |scan| && StartsWith(scan[n], Prefix(probe))
      invariant i <= n <= |scan| && forall j :: 0 <= j < n ==> StartsWith(scan[j], Prefix(probe))
    {
      n := n + 1;
    }
    ScanReadsBlock(keys, probe, n);
  }

  /** A scan cut at the limit, or at the end of the block, has read the first part of the block. */
  lemma FirstKeys(keys: set<string>, probe: Id, i: nat, cap: nat)
    requires var scan := ScanFrom(keys, Prefix(probe));
      && i <= |scan| && i <= cap && (forall j :: 0 <= j < i ==> StartsWith(scan[j], Prefix(probe)))
      && (i == |scan| || !StartsWith(scan[i], Prefix(probe)) || i == cap)
    ensures First(Block(keys, probe), cap) == ScanFrom(keys, Prefix(probe))[..i]
  {
    var scan := ScanFrom(keys, Prefix(probe));
    var n := ScanHoldsBlock(keys, probe, i);
    if i == |scan| || !StartsWith(scan[i], Prefix(probe)) {
      ScanReadsBlock(keys, probe, i);
    }
    hide ScanFrom, StartsWith, Block;
  }

  lemma AllResolve(t: Tables, prefix: string)
    requires Consistent(t)
    ensures Resolves(t, ScanFrom(t.index.Keys, prefix))
  {
    var scan := ScanFrom(t.index.Keys, prefix);
    assert forall i :: 0 <= i < |scan| ==> scan[i] in scan;
  }

  /** `out` is what the first keys of the scan, all of them in the block, lead to. */
  ghost predicate Listed(t: Tables, prefix: string, scan: seq<string>, out: seq<ProbeRun>)
    requires |out| <= |scan| && Resolves(t, scan)
  {
    forall j :: 0 <= j < |out| ==> StartsWith(scan[j], prefix) && out[j] == t.runs[t.index[scan[j]]]
  }

  lemma ListedNext(t: Tables, prefix: string, scan: seq<string>, out: seq<ProbeRun>)
    requires |out| < |scan| && Resolves(t, scan) && Listed(t, prefix, scan, out) && StartsWith(scan[|out|], prefix)
    ensures Listed(t, prefix, scan, out + [t.runs[t.index[scan[|out|]]]])
  {
  }

  lemma FirstListed(t: Tables, probe: Id, out: seq<ProbeRun>, cap: nat)
    requires Consistent(t)
    requires var scan := ScanFrom(t.index.Keys, Prefix(probe));
      && Resolves(t, scan) && |out| <= |scan| && |out| <= cap && Listed(t, Prefix(probe), scan, out)
      && (|out| == |scan| || !StartsWith(scan[|out|], Prefix(probe)) || |out| == cap)
    ensures out == First(Listing(t, probe), cap)
  {
    hide Consistent, Block, ScanFrom, StartsWith;
    var block, scan := Block(t.index.Keys, probe), ScanFrom(t.index.Keys, Prefix(probe));
    FirstKeys(t.index.Keys, probe, |out|, cap);
    assert forall j :: 0 <= j < |out| ==> block[j] == First(block, cap)[j] == scan[j];
  }

  /** The tables without the runs that a list of index keys leads to. */
  function Without(t: Tables, keys: seq<string>): Tables {
    var gone := set k | k in keys && k in t.index :: t.index[k];
    Tables(t.runs - gone, t.embeddings - gone, t.index - (set k | k in keys))
  }

  lemma WithoutNext(t: Tables, keys: seq<string>, i: nat)
    requires i < |keys| && keys[i] in t.index
    ensures var w := Without(t, keys[..i]); var id := t.index[keys[i]];
            Without(t, keys[..i + 1]) == Tables(w.runs - {id}, w.embeddings - {id}, w.index - {keys[i]})
  {
    assert keys[..i + 1] == keys[..i] + [keys[i]];
  }

  lemma RemovedAll(t: Tables, probe: Id)
    ensures Without(t, Block(t.index.Keys, probe)) == Apply(t, DeleteForProbe(probe))
    ensures Without(t, Block(t.index.Keys, probe)[..0]) == t
    ensures Block(t.index.Keys, probe) == [] ==> Apply(t, DeleteForProbe(probe)) == t
  {
    hide StartsWith;
    var block := Block(t.index.Keys, probe);
    assert forall k :: k in block <==> k in t.index && StartsWith(k, Prefix(probe));
    hide Block, Prefix;
    assert (set k | k in block) == (set k | k in t.index && StartsWith(k, Prefix(probe)));
    assert (set k | k in block && k in t.index :: t.index[k]) == Targets(t, probe);
    assert block[..0] == [];
    WithoutNothing(t);
    if block == [] {
      assert Without(t, block) == t;
    }
  }

  lemma WithoutNothing(t: Tables)
    ensures Without(t, []) == t
  {
  }

  // ---------- What a listing is ----------

  predicate Sorted(s: seq<ProbeRun>) {
    forall i, j :: 0 <= i < j < |s| ==> Newer(s[i], s[j])
  }

  lemma ListedRun(t: Tables, probe: Id, i: nat)
    requires Consistent(t) && i < |Listing(t, probe)|
    ensures var block, r := Block(t.index.Keys, probe), Listing(t, probe)[i];
            |block| == |Listing(t, probe)| && block[i] == KeyOf(r) && r.id in t.runs && t.runs[r.id] == r
                && r.probeId == probe
  {
    var block, r := Block(t.index.Keys, probe), Listing(t, probe)[i];
    assert block[i] in block;
    assert t.index[block[i]] in t.runs;
    KeyStarts(r, probe);
    hide KeyOf, StartsWith;
  }

  lemma RunIsListed(t: Tables, r: ProbeRun) returns (i: nat)
    requires Consistent(t) && r.id in t.runs && t.runs[r.id] == r
    ensures i < |Listing(t, r.probeId)| && Listing(t, r.probeId)[i] == r
  {
    var block := Block(t.index.Keys, r.probeId);
    KeyStarts(r, r.probeId);
    assert KeyOf(r) in block;
    i :| 0 <= i < |block| && block[i] == KeyOf(r);
    hide KeyOf, StartsWith;
  }

  /** Later starts come first, and smaller ids where two runs started at once. A start before the epoch, or one that
      does not fit 64 bits, counts as the epoch. */
  ghost predicate NewestFirst(s: seq<ProbeRun>) {
    var nanos := (at: int) => if 0 <= at <= 9_223_372_036_854_775_807 then at else 0;
    forall i, j :: 0 <= i < j < |s| ==>
      nanos(s[i].startedAt) > nanos(s[j].startedAt)
      || (nanos(s[i].startedAt) == nanos(s[j].startedAt) && Less(s[i].id, s[j].id))
  }

  lemma SortedIs(s: seq<ProbeRun>)
    ensures Sorted(s) <==> NewestFirst(s)
  {
  }

  /** A listing is strictly ordered newest first and holds exactly the probe's runs. */
  lemma ListingMeaning(t: Tables, probe: Id)
    requires Consistent(t)
    ensures Sorted(Listing(t, probe))
    ensures NewestFirst(Listing(t, probe))
    ensures forall i, j :: 0 <= i < j < |Listing(t, probe)| ==>
        var a, b := Listing(t, probe)[i], Listing(t, probe)[j];
        0 <= a.startedAt <= MAX_NANOS && 0 <= b.startedAt <= MAX_NANOS ==>
            a.startedAt > b.startedAt || (a.startedAt == b.startedAt && Less(a.id, b.id))
    ensures forall r :: r in Listing(t, probe) <==> r.id in t.runs && t.runs[r.id] == r && r.probeId == probe
  {
    var block, listing := Block(t.index.Keys, probe), Listing(t, probe);
    hide Listing, Block, KeyOf, Newer;
    forall i, j | 0 <= i < j < |listing| ensures Newer(listing[i], listing[j]) {
      ListedRun(t, probe, i);
      ListedRun(t, probe, j);
      assert Less(block[i], block[j]) by { BlockIncreases(t.index.Keys, probe); }
      KeyOrder(listing[i], listing[j]);
    }
    SortedIs(listing);
    InRange(listing);
    forall r ensures r in listing <==> r.id in t.runs && t.runs[r.id] == r && r.probeId == probe {
      if r in listing {
        var i :| 0 <= i < |listing| && listing[i] == r;
        ListedRun(t, probe, i);
      }
      if r.id in t.runs && t.runs[r.id] == r && r.probeId == probe {
        var i := RunIsListed(t, r);
      }
    }
  }

  lemma InRange(s: seq<ProbeRun>)
    requires NewestFirst(s)
    ensures forall i, j :: 0 <= i < j < |s| && 0 <= s[i].startedAt <= MAX_NANOS && 0 <= s[j].startedAt <= MAX_NANOS ==>
        s[i].startedAt > s[j].startedAt || (s[i].startedAt == s[j].startedAt && Less(s[i].id, s[j].id))
  {
  }

  /** The first part of a listing: the newest runs, as many as there are up to the limit. */
  lemma FirstMeaning(t: Tables, probe: Id, cap: nat)
    requires Consistent(t)
    ensures var out, n := First(Listing(t, probe), cap), |RunsOf(t, probe)|;
            out <= Listing(t, probe) && NewestFirst(out) && |out| == if n <= cap then n else cap
  {
    ListingMeaning(t, probe);
    SameSize(t, probe);
    DeleteCount(t, probe);
    hide Listing, Consistent, RunsOf, Block, Sorted;
  }

  lemma BlockIncreases(keys: set<string>, probe: Id)
    ensures Increasing(Block(keys, probe))
  {
  }

  /** Two lists with the same runs in this order are the same list. */
  lemma {:induction false} SortedUnique(s: seq<ProbeRun>, t: seq<ProbeRun>)
    requires Sorted(s) && Sorted(t) && forall r :: r in s <==> r in t
    ensures s == t
    decreases |s|
  {
    if s == [] || t == [] {
      assert s == [] <==> t == [] by { HasRun(s); HasRun(t); }
    } else {
      assert s[0] in t && t[0] in s;
      var i :| 0 <= i < |t| && t[i] == s[0];
      var j :| 0 <= j < |s| && s[j] == t[0];
      NewerOnce(s[0], t[0]);
      assert s[0] == t[0];
      forall r ensures r in s[1..] <==> r in t[1..] {
        InTail(s, r);
        InTail(t, r);
      }
      SortedUnique(s[1..], t[1..]);
      assert s == [s[0]] + s[1..] && t == [t[0]] + t[1..];
    }
  }

  lemma HasRun(s: seq<ProbeRun>)
    ensures s == [] || exists r :: r in s
  {
    assert s == [] || s[0] in s;
  }

  lemma NewerOnce(a: ProbeRun, b: ProbeRun)
    ensures !(Newer(a, b) && Newer(b, a)) && !Newer(a, a)
  {
    LessIrreflexive(a.id);
    if Less(a.id, b.id) && Less(b.id, a.id) {
      LessTransitive(a.id, b.id, a.id);
    }
  }

  lemma InTail(s: seq<ProbeRun>, r: ProbeRun)
    requires Sorted(s) && s != []
    ensures r in s[1..] <==> r in s && r != s[0]
  {
    NewerOnce(r, r);
    hide Newer;
    assert s == [s[0]] + s[1..];
    if r in s[1..] {
      var i :| 0 <= i < |s[1..]| && s[1..][i] == r;
      assert Newer(s[0], s[i + 1]);
    }
  }

  // ---------- What the operations keep ----------

  lemma IndexKept(runs: map<Id, ProbeRun>, index: map<string, Id>, run: ProbeRun)
    requires Indexed(runs, index) && forall id :: id in runs ==> runs[id].id == id
    requires run.id !in runs || KeyOf(runs[run.id]) == KeyOf(run)
    ensures Indexed(runs[run.id := run], index[KeyOf(run) := run.id])
  {
    var runs', index' := runs[run.id := run], index[KeyOf(run) := run.id];
    forall id | id in runs' ensures KeyOf(runs'[id]) in index' && index'[KeyOf(runs'[id])] == id {
      if id != run.id {
        KeyOrder(runs[id], run);
      }
      hide KeyOf;
    }
    hide KeyOf;
    forall k | k in index' ensures index'[k] in runs' && k == KeyOf(runs'[index'[k]]) {
      if k != KeyOf(run) {
        assert index'[k] == index[k];
      }
    }
  }

  lemma IndexBroken(runs: map<Id, ProbeRun>, index: map<string, Id>, run: ProbeRun)
    requires Indexed(runs, index) && run.id in runs && KeyOf(runs[run.id]) != KeyOf(run)
    ensures !Indexed(runs[run.id := run], index[KeyOf(run) := run.id])
  {
    var k, index' := KeyOf(runs[run.id]), index[KeyOf(run) := run.id];
    hide KeyOf;
    assert k in index' && index'[k] == run.id;
  }

  /** Storing a run keeps the tables consistent exactly when its id is new, or files the run where it already is. */
  lemma InsertKeepsIff(t: Tables, run: ProbeRun)
    requires Consistent(t)
    ensures Consistent(Apply(t, Insert(run))) <==> run.id !in t.runs || KeyOf(t.runs[run.id]) == KeyOf(run)
  {
    var meta := run.(embeddings := []);
    assert KeyOf(meta) == KeyOf(run);
    hide KeyOf;
    if run.id !in t.runs || KeyOf(t.runs[run.id]) == KeyOf(run) {
      IndexKept(t.runs, t.index, meta);
    } else {
      IndexBroken(t.runs, t.index, meta);
    }
    ConsistentWith(t, meta, run.embeddings);
    hide Consistent, Indexed;
  }

  lemma ConsistentWith(t: Tables, meta: ProbeRun, cloud: Cloud)
    requires Consistent(t) && meta.embeddings == []
    ensures var t' := Tables(t.runs[meta.id := meta], t.embeddings[meta.id := cloud], t.index[KeyOf(meta) := meta.id]);
            Consistent(t') <==> Indexed(t'.runs, t'.index)
  {
    hide Indexed, KeyOf;
    assert t.runs[meta.id := meta].Keys == t.runs.Keys + {meta.id}
        && t.embeddings[meta.id := cloud].Keys == t.embeddings.Keys + {meta.id};
  }

  lemma TargetOf(t: Tables, probe: Id, id: Id)
    requires Consistent(t)
    ensures id in Targets(t, probe) <==> id in t.runs && t.runs[id].probeId == probe
  {
    if id in t.runs {
      KeyStarts(t.runs[id], probe);
      assert KeyOf(t.runs[id]) in t.index;
    }
    if id in Targets(t, probe) {
      var k :| k in t.index && StartsWith(k, Prefix(probe)) && t.index[k] == id;
    }
    hide KeyOf, StartsWith;
  }

  function RunsOf(t: Tables, probe: Id): set<Id> {
    set id | id in t.runs && t.runs[id].probeId == probe
  }

  function WithoutRuns(t: Tables, gone: set<Id>): Tables {
    Tables(t.runs - gone, t.embeddings - gone, t.index - (set k | k in t.index && t.index[k] in gone))
  }

  /** Deleting a probe's runs takes exactly those out of all three tables, and leaves the tables consistent. */
  lemma DeleteMeaning(t: Tables, probe: Id)
    requires Consistent(t)
    ensures Apply(t, DeleteForProbe(probe)) == WithoutRuns(t, RunsOf(t, probe))
        && Consistent(Apply(t, DeleteForProbe(probe)))
  {
    var gone := RunsOf(t, probe);
    assert Targets(t, probe) == gone by {
      forall id ensures id in Targets(t, probe) <==> id in gone {
        TargetOf(t, probe, id);
      }
    }
    assert (set k | k in t.index && StartsWith(k, Prefix(probe))) == (set k | k in t.index && t.index[k] in gone) by {
      forall k | k in t.index ensures StartsWith(k, Prefix(probe)) <==> t.index[k] in gone {
        KeyStarts(t.runs[t.index[k]], probe);
      }
      hide StartsWith, KeyOf;
    }
    hide Targets, KeyOf, StartsWith, Indexed, RunsOf, Consistent;
    ConsistentWithout(t, gone);
  }

  lemma ConsistentWithout(t: Tables, gone: set<Id>)
    requires Consistent(t)
    ensures Consistent(WithoutRuns(t, gone))
  {
    IndexWithout(t.runs, t.index, gone);
    hide Indexed;
    assert (t.runs - gone).Keys == t.runs.Keys - gone && (t.embeddings - gone).Keys == t.embeddings.Keys - gone;
  }

  lemma IndexWithout(runs: map<Id, ProbeRun>, index: map<string, Id>, gone: set<Id>)
    requires Indexed(runs, index)
    ensures Indexed(runs - gone, index - (set k | k in index && index[k] in gone))
  {
    hide KeyOf;
  }

  /** The number of deleted runs that is reported is the number of the probe's runs. */
  lemma DeleteCount(t: Tables, probe: Id)
    requires Consistent(t)
    ensures |Block(t.index.Keys, probe)| == |RunsOf(t, probe)|
  {
    var listing := Listing(t, probe);
    ListingMeaning(t, probe);
    SameSize(t, probe);
    assert forall id :: id in t.runs ==> t.runs[id].id == id;
    hide Consistent, Listing, Block, Sorted;
    forall id | id in RunsOf(t, probe) ensures exists r :: r in listing && r.id == id {
      assert t.runs[id] in listing;
    }
    CountIds(listing, RunsOf(t, probe));
  }

  lemma SameSize(t: Tables, probe: Id)
    requires Consistent(t)
    ensures |Block(t.index.Keys, probe)| == |Listing(t, probe)|
  {
  }

  lemma {:induction false} CountIds(s: seq<ProbeRun>, ids: set<Id>)
    requires Sorted(s) && (forall r :: r in s ==> r.id in ids)
        && (forall id :: id in ids ==> exists r :: r in s && r.id == id)
    requires forall q, r :: q in s && r in s && q.id == r.id ==> q == r
    ensures |s| == |ids|
    decreases |s|
  {
    if s == [] {
    } else {
      forall r ensures r in s[1..] <==> r in s && r != s[0] {
        InTail(s, r);
      }
      hide Newer;
      assert s[0] in s;
      CountIds(s[1..], ids - {s[0].id});
    }
  }

  /** Deleting one probe's runs, or storing one probe's run, leaves every other probe's listing alone. */
  lemma OtherListing(t: Tables, op: Op, probe: Id)
    requires Consistent(t) && Consistent(Apply(t, op))
    requires match op case Insert(run) => run.probeId != probe && run.id !in t.runs case DeleteForProbe(p) => p != probe
    ensures Listing(Apply(t, op), probe) == Listing(t, probe)
  {
    var t' := Apply(t, op);
    forall r: ProbeRun | r.probeId == probe
      ensures r.id in t'.runs && t'.runs[r.id] == r <==> r.id in t.runs && t.runs[r.id] == r {
      OtherRuns(t, op, r);
    }
    hide Consistent, Listing, Apply, Sorted;
    ListingMeaning(t, probe);
    ListingMeaning(t', probe);
    SortedUnique(Listing(t', probe), Listing(t, probe));
  }

  lemma OtherRuns(t: Tables, op: Op, r: ProbeRun)
    requires Consistent(t)
    requires match op
             case Insert(run) => run.probeId != r.probeId && run.id !in t.runs
             case DeleteForProbe(p) => p != r.probeId
    ensures var t' := Apply(t, op); r.id in t'.runs && t'.runs[r.id] == r <==> r.id in t.runs && t.runs[r.id] == r
  {
    if op.DeleteForProbe? {
      DeleteMeaning(t, op.probe);
      hide Apply;
    }
    hide Consistent;
  }

  // ---------- Whole runs ----------

  function Replay(ops: seq<Op>): Tables
    decreases |ops|
  {
    if ops == [] then EMPTY else Apply(Replay(ops[..|ops| - 1]), ops[|ops| - 1])
  }

  predicate FreshIds(ops: seq<Op>) {
    forall i, j :: 0 <= i < j < |ops| && ops[i].Insert? && ops[j].Insert? ==> ops[i].run.id != ops[j].run.id
  }

  /** Step `i` stored this run, and no later step deleted its probe's runs. */
  predicate Kept(ops: seq<Op>, i: int, run: ProbeRun) {
    && 0 <= i < |ops| && ops[i] == Insert(run)
    && forall j :: i < j < |ops| ==> ops[j] != DeleteForProbe(run.probeId)
  }

  ghost predicate IsKept(ops: seq<Op>, run: ProbeRun) {
    exists i :: Kept(ops, i, run)
  }

  /** The run as it was stored: its metadata with its embeddings put back. */
  function Whole(t: Tables, id: Id): Option<ProbeRun> {
    if id in t.runs && id in t.embeddings then Some(t.runs[id].(embeddings := t.embeddings[id])) else None
  }

  lemma KeptNext(ops: seq<Op>, run: ProbeRun)
    requires ops != []
    ensures var op := ops[|ops| - 1];
            IsKept(ops, run) <==>
            op == Insert(run) || (IsKept(ops[..|ops| - 1], run) && op != DeleteForProbe(run.probeId))
  {
    var before, last := ops[..|ops| - 1], |ops| - 1;
    if IsKept(ops, run) {
      var i :| Kept(ops, i, run);
      if i < last {
        assert Kept(before, i, run);
      }
    }
    if ops[last] == Insert(run) {
      assert Kept(ops, last, run);
    } else if IsKept(before, run) && ops[last] != DeleteForProbe(run.probeId) {
      var i :| Kept(before, i, run);
      assert Kept(ops, i, run);
    }
  }

  lemma WholeNext(t: Tables, op: Op, run: ProbeRun)
    requires Consistent(t) && (op.Insert? ==> op.run.id !in t.runs)
    ensures Whole(Apply(t, op), run.id) == Some(run) <==>
        op == Insert(run) || (Whole(t, run.id) == Some(run) && op != DeleteForProbe(run.probeId))
  {
    if op.DeleteForProbe? {
      DeleteMeaning(t, op.probe);
      hide Apply;
    }
    hide KeyOf, Indexed;
  }

  /** The tables are consistent and hold exactly the runs that were stored and not deleted, each of them whole. */
  lemma {:induction false} TablesHoldKept(ops: seq<Op>)
    requires FreshIds(ops)
    ensures Consistent(Replay(ops))
    ensures forall run: ProbeRun :: Whole(Replay(ops), run.id) == Some(run) <==> IsKept(ops, run)
    decreases |ops|
  {
    if ops == [] {
      hide KeyOf;
    } else {
      var before, op := ops[..|ops| - 1], ops[|ops| - 1];
      var t := Replay(before);
      TablesHoldKept(before);
      if op.Insert? {
        IdsAreStored(before, t);
        assert op.run.id !in t.runs;
        InsertKeepsIff(t, op.run);
      } else {
        DeleteMeaning(t, op.probe);
      }
      hide Apply, Consistent, IsKept, Whole;
      forall run: ProbeRun ensures Whole(Replay(ops), run.id) == Some(run) <==> IsKept(ops, run) {
        KeptNext(ops, run);
        WholeNext(t, op, run);
      }
    }
  }

  lemma IdsAreStored(ops: seq<Op>, t: Tables)
    requires Consistent(t) && forall run: ProbeRun :: Whole(t, run.id) == Some(run) <==> IsKept(ops, run)
    ensures forall id :: id in t.runs ==> exists i :: 0 <= i < |ops| && ops[i].Insert? && ops[i].run.id == id
  {
    forall id | id in t.runs ensures exists i :: 0 <= i < |ops| && ops[i].Insert? && ops[i].run.id == id {
      var run := Whole(t, id).value;
      assert Whole(t, run.id) == Some(run);
      var i :| Kept(ops, i, run);
    }
    hide Indexed;
  }

  /** After any operations, a listing is the probe's stored and undeleted runs, strictly newest first,
      without their embeddings. */
  lemma ListingIsHistory(ops: seq<Op>, probe: Id)
    requires FreshIds(ops)
    ensures Consistent(Replay(ops))
    ensures var t := Replay(ops); var listing := Listing(t, probe);
            && NewestFirst(listing)
            && (forall meta :: meta in listing ==>
                  && Whole(t, meta.id).Some? && Whole(t, meta.id).value.(embeddings := []) == meta
                  && meta.probeId == probe && IsKept(ops, Whole(t, meta.id).value))
            && (forall run :: IsKept(ops, run) && run.probeId == probe ==>
                run.(embeddings := []) in listing && Whole(t, run.id) == Some(run))
  {
    TablesHoldKept(ops);
    var t := Replay(ops);
    ListingMeaning(t, probe);
    var listing := Listing(t, probe);
    hide Listing, Indexed, IsKept, Sorted, NewestFirst, Replay;
    forall meta | meta in listing ensures Whole(t, meta.id).Some?
        && Whole(t, meta.id).value.(embeddings := []) == meta && IsKept(ops, Whole(t, meta.id).value) {
      var run := Whole(t, meta.id).value;
      assert Whole(t, run.id) == Some(run);
    }
    forall run | IsKept(ops, run) && run.probeId == probe ensures run.(embeddings := []) in listing {
      assert Whole(t, run.id) == Some(run);
      assert t.runs[run.id] == run.(embeddings := []);
    }
  }
}
