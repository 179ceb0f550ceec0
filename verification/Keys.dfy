/** String keys of the store's tables: their order, and the zero-padded numbers inside them. */
module Keys {
  import opened Results

  /** The order in which a table keeps its keys. */
  predicate Less(a: string, b: string) {
    if b == "" then false
    else if a == "" then true
    else if a[0] != b[0] then a[0] < b[0]
    else Less(a[1..], b[1..])
  }

  lemma {:induction false} LessIrreflexive(a: string)
    ensures !Less(a, a)
  {
    if a != "" {
      LessIrreflexive(a[1..]);
    }
  }

  lemma {:induction false} LessTransitive(a: string, b: string, c: string)
    requires Less(a, b) && Less(b, c)
    ensures Less(a, c)
  {
    if a != "" && a[0] == b[0] == c[0] {
      LessTransitive(a[1..], b[1..], c[1..]);
    }
  }

  lemma {:induction false} LessTotal(a: string, b: string)
    ensures a == b || Less(a, b) || Less(b, a)
  {
    if a != "" && b != "" && a[0] == b[0] {
      LessTotal(a[1..], b[1..]);
      assert a == [a[0]] + a[1..] && b == [b[0]] + b[1..];
    }
  }

  /** Heads of equal length decide first. */
  lemma {:induction false} LessConcat(p: string, q: string, x: string, y: string)
    requires |p| == |q|
    ensures Less(p + x, q + y) <==> Less(p, q) || (p == q && Less(x, y))
  {
    if p == "" {
      assert p + x == x && q + y == y;
    } else {
      assert (p + x)[1..] == p[1..] + x && (q + y)[1..] == q[1..] + y;
      LessConcat(p[1..], q[1..], x, y);
      assert p == [p[0]] + p[1..] && q == [q[0]] + q[1..];
    }
  }

  lemma {:induction false} LessExtends(p: string, x: string)
    requires x != ""
    ensures Less(p, p + x)
  {
    if p != "" {
      assert (p + x)[1..] == p[1..] + x;
      LessExtends(p[1..], x);
    }
  }

  // ---------- Numbers ----------

  function Digit(d: nat): char
    requires d < 10
  {
    ['0', '1', '2', '3', '4', '5', '6', '7', '8', '9'][d]
  }

  /** The decimal form of a number. */
  function Decimal(n: nat): (s: string)
    ensures s != ""
  {
    if n < 10 then [Digit(n)] else Decimal(n / 10) + [Digit(n % 10)]
  }

  function Zeros(k: nat): (s: string)
    ensures |s| == k
  {
    if k == 0 then "" else ['0'] + Zeros(k - 1)
  }

  /** The decimal form, padded with zeros on the left to at least `width`. */
  function Padded(n: nat, width: nat): string {
    var s := Decimal(n);
    if |s| >= width then s else Zeros(width - |s|) + s
  }

  /** Exactly `width` digits. */
  function Digits(n: nat, width: nat): (s: string)
    ensures |s| == width
    decreases width
  {
    if width == 0 then "" else Digits(n / 10, width - 1) + [Digit(n % 10)]
  }

  function Power10(k: nat): nat {
    if k == 0 then 1 else 10 * Power10(k - 1)
  }

  lemma {:induction false} DigitsOfZero(width: nat)
    ensures Digits(0, width) == Zeros(width)
  {
    if width > 0 {
      DigitsOfZero(width - 1);
      ZerosSnoc(width - 1);
    }
  }

  lemma {:induction false} ZerosSnoc(k: nat)
    ensures ['0'] + Zeros(k) == Zeros(k) + ['0']
  {
    if k > 0 {
      ZerosSnoc(k - 1);
      assert ['0'] + Zeros(k) == ['0'] + (['0'] + Zeros(k - 1));
      assert Zeros(k) + ['0'] == ['0'] + (Zeros(k - 1) + ['0']);
    }
  }

  /** A number that fits its width is written with exactly that many digits. */
  lemma {:induction false} PaddedIsDigits(n: nat, width: nat)
    requires width > 0 && n < Power10(width)
    ensures |Decimal(n)| <= width && Padded(n, width) == Digits(n, width)
    decreases width
  {
    if n < 10 {
      assert n / 10 == 0 && n % 10 == n;
      DigitsOfZero(width - 1);
      assert Zeros(0) + [Digit(n)] == [Digit(n)];
    } else {
      assert Power10(width) == 10 * Power10(width - 1);
      assert width > 1;
      PaddedIsDigits(n / 10, width - 1);
      var z, s := Zeros(width - |Decimal(n)|), Decimal(n / 10);
      assert z + (s + [Digit(n % 10)]) == z + s + [Digit(n % 10)];
      assert Zeros(0) + s == s;
    }
  }

  lemma {:induction false} DigitsOrder(a: nat, b: nat, width: nat)
    requires a < Power10(width) && b < Power10(width)
    ensures Less(Digits(a, width), Digits(b, width)) <==> a < b
    ensures Digits(a, width) == Digits(b, width) <==> a == b
    decreases width
  {
    if width > 0 {
      DigitsOrder(a / 10, b / 10, width - 1);
      var p, q := Digits(a / 10, width - 1), Digits(b / 10, width - 1);
      var c, d := Digit(a % 10), Digit(b % 10);
      LessConcat(p, q, [c], [d]);
      assert (p + [c])[..width - 1] == p && (q + [d])[..width - 1] == q;
      assert (p + [c])[width - 1] == c && (q + [d])[width - 1] == d;
      DigitOrder(a % 10, b % 10);
    }
  }

  lemma DigitOrder(x: nat, y: nat)
    requires x < 10 && y < 10
    ensures Less([Digit(x)], [Digit(y)]) <==> x < y
    ensures Digit(x) == Digit(y) <==> x == y
  {
  }

  // ---------- Scans ----------

  ghost predicate Increasing(keys: seq<string>) {
    forall i, j :: 0 <= i < j < |keys| ==> Less(keys[i], keys[j])
  }

  lemma {:induction false} LeastKey(keys: set<string>) returns (k: string)
    requires keys != {}
    ensures k in keys && forall x :: x in keys && x != k ==> Less(k, x)
  {
    k :| k in keys;
    if keys != {k} {
      var rest := LeastKey(keys - {k});
      LessTotal(k, rest);
      if Less(rest, k) {
        k := rest;
      } else {
        forall x | x in keys && x != k ensures Less(k, x) {
          if x != rest {
            LessTransitive(k, rest, x);
          }
        }
      }
    }
  }

  /** The keys in the order a cursor yields them. */
  function Ordered(keys: set<string>): (s: seq<string>)
    ensures Increasing(s)
    ensures forall k :: k in s <==> k in keys
  {
    if keys == {} then []
    else
      assert exists k :: k in keys && forall x :: x in keys && x != k ==> Less(k, x) by {
        var k := LeastKey(keys);
      }
      assert forall j, k :: Less(j, k) ==> !Less(k, j) by {
        forall j, k | Less(j, k) ensures !Less(k, j) {
          if Less(k, j) {
            LessTransitive(j, k, j);
            LessIrreflexive(j);
          }
        }
      }
      var k :| k in keys && forall x :: x in keys && x != k ==> Less(k, x);
      [k] + Ordered(keys - {k})
  }

  /** There is only one way to list a set of keys in order. */
  lemma {:induction false} IncreasingUnique(s: seq<string>, t: seq<string>)
    requires Increasing(s) && Increasing(t) && forall k :: k in s <==> k in t
    ensures s == t
  {
    if s == [] {
      HasMember(t);
    } else {
      assert s[0] in t;
      assert t != [] && t[0] in s;
      FirstIsFirst(s, t);
      TailKeys(s, t);
      IncreasingUnique(s[1..], t[1..]);
      assert s == [s[0]] + s[1..] && t == [t[0]] + t[1..];
    }
  }

  lemma HasMember(t: seq<string>)
    ensures t == [] || exists k :: k in t
  {
    assert t == [] || t[0] in t;
  }

  lemma FirstIsFirst(s: seq<string>, t: seq<string>)
    requires Increasing(s) && Increasing(t) && s != [] && t != [] && s[0] in t && t[0] in s
    ensures s[0] == t[0]
  {
    if s[0] != t[0] {
      var i :| 0 <= i < |t| && t[i] == s[0];
      var j :| 0 <= j < |s| && s[j] == t[0];
      LessTransitive(s[0], t[0], s[0]);
      LessIrreflexive(s[0]);
    }
  }

  lemma TailKey(s: seq<string>, k: string)
    requires Increasing(s) && s != []
    ensures k in s[1..] <==> k in s && k != s[0]
  {
    LessIrreflexive(s[0]);
    assert s == [s[0]] + s[1..];
    if k in s[1..] {
      var i :| 0 <= i < |s[1..]| && s[1..][i] == k;
      assert Less(s[0], s[i + 1]);
    }
  }

  lemma TailKeys(s: seq<string>, t: seq<string>)
    requires Increasing(s) && Increasing(t) && s != [] && t != [] && s[0] == t[0]
    requires forall k :: k in s <==> k in t
    ensures Increasing(s[1..]) && Increasing(t[1..]) && forall k :: k in s[1..] <==> k in t[1..]
  {
    forall k ensures k in s[1..] <==> k in t[1..] {
      TailKey(s, k);
      TailKey(t, k);
    }
  }

  /** The keys of a table from `lo` up to `hi`, with or without `hi` itself, in order. */
  function Scan(keys: set<string>, lo: string, hi: string, inclusive: bool): (s: seq<string>)
    ensures Increasing(s)
    ensures forall k :: k in s <==> k in keys && !Less(k, lo) && (Less(k, hi) || (inclusive && k == hi))
  {
    Ordered(set k | k in keys && !Less(k, lo) && (Less(k, hi) || (inclusive && k == hi)))
  }

  // ---------- Instants ----------

  const MIN_NANOS: int := -9223372036854775808
  const MAX_NANOS: int := 9223372036854775807

  /** The decimal digits of `MAX_NANOS`. */
  const NANOS_WIDTH: nat := 19

  type Nanos = n: int | MIN_NANOS <= n <= MAX_NANOS

  /** Instants are unbounded counts of nanoseconds since the epoch; only some fit 64 bits. */
  function TimestampNanosOpt(at: int): Option<Nanos> {
    if MIN_NANOS <= at <= MAX_NANOS then Some(at) else None
  }

  /** Ids are printed with a fixed number of characters. */
  const ID_LENGTH: nat := 36

  type Id = s: string | |s| == ID_LENGTH witness Zeros(ID_LENGTH)

  lemma NanosFit(n: nat)
    requires n <= MAX_NANOS
    ensures n < Power10(NANOS_WIDTH) && Padded(n, NANOS_WIDTH) == Digits(n, NANOS_WIDTH)
  {
    assert Power10(5) == 100000;
    assert Power10(10) == 10000000000;
    assert Power10(15) == 1000000000000000;
    assert Power10(19) == 10000000000000000000;
    PaddedIsDigits(n, NANOS_WIDTH);
  }

  /** An id, a bar and a number order by id, then by the number, then by what follows. */
  lemma StampedOrder(r: Id, q: Id, n: nat, m: nat, x: string, y: string)
    requires n <= MAX_NANOS && m <= MAX_NANOS
    ensures var a, b := r + "|" + Padded(n, NANOS_WIDTH) + x, q + "|" + Padded(m, NANOS_WIDTH) + y;
            Less(a, b) <==> Less(r, q) || (r == q && (n < m || (n == m && Less(x, y))))
  {
    NanosFit(n);
    NanosFit(m);
    DigitsOrder(n, m, NANOS_WIDTH);
    BarIrreflexive();
    hide *;
    var d, e := Digits(n, NANOS_WIDTH), Digits(m, NANOS_WIDTH);
    var bar := "|";
    LessConcat(d, e, x, y);
    LessConcat(bar, bar, d + x, e + y);
    LessConcat(r, q, bar + (d + x), bar + (e + y));
    Regroup(r, bar, d, x);
    Regroup(q, bar, e, y);
  }

  lemma StampedEqual(r: Id, q: Id, n: nat, m: nat, x: string, y: string)
    requires n <= MAX_NANOS && m <= MAX_NANOS
    requires r + "|" + Padded(n, NANOS_WIDTH) + x == q + "|" + Padded(m, NANOS_WIDTH) + y
    ensures r == q && n == m && x == y
  {
    NanosFit(n);
    NanosFit(m);
    DigitsOrder(n, m, NANOS_WIDTH);
    hide *;
    var d, e := Digits(n, NANOS_WIDTH), Digits(m, NANOS_WIDTH);
    Parts(r, "|", d, x);
    Parts(q, "|", e, y);
  }

  lemma Parts(a: string, b: string, c: string, d: string)
    ensures var s := a + b + c + d;
            s[..|a|] == a && s[|a| + |b|..][..|c|] == c && s[|a| + |b|..][|c|..] == d
  {
    var s := a + b + c + d;
    assert s[|a| + |b|..] == c + d;
  }

  lemma Regroup(a: string, b: string, c: string, d: string)
    ensures a + b + c + d == a + (b + (c + d))
  {
  }

  lemma BarIrreflexive()
    ensures !Less("|", "|")
  {
    LessIrreflexive("|");
  }
}
