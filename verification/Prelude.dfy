/** Shared vocabulary: optional values and lists, Go's clock, and node identifiers. */
module Prelude {
  datatype Option<+T> = None | Some(value: T) {
    function GetOr(default: T): T {
      match this
      case None => default
      case Some(v) => v
    }
  }

  function RemoveAt<T(==)>(s: seq<T>, i: nat): (r: seq<T>)
    requires i < |s|
    ensures |r| == |s| - 1
    ensures forall x :: x in s && x != s[i] ==> x in r
    ensures forall x :: x in r ==> x in s
  {
    s[..i] + s[i + 1..]
  }
}

/** Instants are nanoseconds since the Unix epoch, as `time.Time` orders them. */
module GoTime {
  type Time = int

  const SECOND: int := 1_000_000_000

  /** The zero `time.Time`, 1 January of year 1. */
  const ZERO_TIME: Time := -62_135_596_800 * SECOND

  /** `t.Unix()`: whole seconds, rounded towards the past. */
  function Unix(t: Time): (s: int)
    ensures s * SECOND <= t < (s + 1) * SECOND
  {
    t / SECOND
  }

  /** `time.Unix(s, 0)`. */
  function FromUnix(s: int): Time {
    s * SECOND
  }

  /** A whole second survives the trip through a heartbeat unchanged. */
  lemma UnixOfWholeSecond(s: int)
    ensures Unix(FromUnix(s)) == s
  {
    assert s * SECOND / SECOND == s;
  }
}

/** Node identifiers: Go strings, compared byte by byte. */
module Ids {
  newtype Byte = b: int | 0 <= b < 256

  type ID = seq<Byte>

  /** Go's `<` on strings: lexicographic, a proper prefix being smaller. */
  predicate Less(a: ID, b: ID) {
    if b == [] then false
    else if a == [] then true
    else if a[0] != b[0] then a[0] < b[0]
    else Less(a[1..], b[1..])
  }

  predicate AtMost(a: ID, b: ID) {
    !Less(b, a)
  }

  /** Exactly one of a < b, a == b, b < a. */
  lemma {:induction false} Trichotomy(a: ID, b: ID)
    ensures Less(a, b) || a == b || Less(b, a)
    ensures !(Less(a, b) && Less(b, a))
    ensures a == b ==> !Less(a, b)
  {
    if a != [] && b != [] && a[0] == b[0] {
      Trichotomy(a[1..], b[1..]);
      assert a == [a[0]] + a[1..] && b == [b[0]] + b[1..];
    }
  }

  /** At position k the two differ for the first time, and a is the smaller there or ends. */
  predicate SmallerAt(a: ID, b: ID, k: int) {
    0 <= k <= |a| && k < |b| && a[..k] == b[..k] && (k == |a| || a[k] < b[k])
  }

  /** The first difference decides; a smaller byte, or the end, comes first. */
  lemma {:induction false} FirstDifferenceDecides(a: ID, b: ID)
    ensures Less(a, b) <==> exists k :: SmallerAt(a, b, k)
  {
    if a == [] || b == [] {
      assert b != [] ==> SmallerAt(a, b, 0);
    } else if a[0] != b[0] {
      assert a[0] < b[0] ==> SmallerAt(a, b, 0);
      assert forall k :: k > 0 && SmallerAt(a, b, k) ==> a[..k][0] == b[..k][0];
    } else {
      var s, t := a[1..], b[1..];
      FirstDifferenceDecides(s, t);
      if k :| SmallerAt(s, t, k) {
        assert a[..k + 1] == [a[0]] + s[..k] && b[..k + 1] == [b[0]] + t[..k];
        assert SmallerAt(a, b, k + 1);
      }
      if k :| SmallerAt(a, b, k) {
        assert k > 0 && s[..k - 1] == a[..k][1..] && t[..k - 1] == b[..k][1..];
        assert SmallerAt(s, t, k - 1);
      }
    }
  }

  lemma {:induction false} Transitive(a: ID, b: ID, c: ID)
    requires Less(a, b) && Less(b, c)
    ensures Less(a, c)
  {
    if a != [] && a[0] == b[0] && b[0] == c[0] {
      Transitive(a[1..], b[1..], c[1..]);
    }
  }

  lemma AtMostTransitive(a: ID, b: ID, c: ID)
    requires AtMost(a, b) && AtMost(b, c)
    ensures AtMost(a, c)
  {
    Trichotomy(a, b);
    Trichotomy(b, c);
    if Less(c, a) {
      if b == c {
        assert false;
      } else {
        Transitive(b, c, a);
      }
    }
  }

  /** m is the least element of s. */
  ghost predicate IsMin(m: ID, s: set<ID>) {
    m in s && forall x :: x in s ==> AtMost(m, x)
  }

  /** A set has at most one least identifier, so electing it needs no order of enumeration. */
  lemma MinIsUnique(m: ID, n: ID, s: set<ID>)
    requires IsMin(m, s) && IsMin(n, s)
    ensures m == n
  {
    Trichotomy(m, n);
  }

  lemma {:induction false} MinExists(s: set<ID>) returns (m: ID)
    requires s != {}
    ensures IsMin(m, s)
  {
    var x :| x in s;
    if s == {x} {
      Trichotomy(x, x);
      m := x;
    } else {
      assert s - {x} != {};
      var n := MinExists(s - {x});
      Trichotomy(x, n);
      Trichotomy(x, x);
      m := if Less(x, n) then x else n;
      forall y | y in s
        ensures AtMost(m, y)
      {
        if y != x {
          Trichotomy(m, n);
          Trichotomy(n, n);
          AtMostTransitive(m, n, y);
        }
      }
    }
  }

  /** The least identifier of a set. */
  ghost function Least(s: set<ID>): (m: ID)
    requires s != {}
    ensures IsMin(m, s)
  {
    assert exists m :: IsMin(m, s) by {
      var m := MinExists(s);
    }
    var m :| IsMin(m, s);
    m
  }
}
