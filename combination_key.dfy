/** The canonical combination key: the two ids sorted as JavaScript's default
    `Array.prototype.sort` orders strings, then joined with a dash. */
module CombinationKey {

  /** Default string order of `sort()`: `a` is a prefix of `b`, or `a` has the
      smaller character at the first position where the two differ. */
  predicate LessEq(a: string, b: string) {
    if a == [] then true
    else if b == [] then false
    else if a[0] != b[0] then a[0] < b[0]
    else LessEq(a[1..], b[1..])
  }

  lemma {:induction false} LessEqTotal(a: string, b: string)
    ensures LessEq(a, b) || LessEq(b, a)
  {
    if a != [] && b != [] && a[0] == b[0] {
      LessEqTotal(a[1..], b[1..]);
    }
  }

  lemma {:induction false} LessEqAntisymmetric(a: string, b: string)
    requires LessEq(a, b) && LessEq(b, a)
    ensures a == b
  {
    if a != [] && b != [] {
      LessEqAntisymmetric(a[1..], b[1..]);
      assert a == [a[0]] + a[1..] && b == [b[0]] + b[1..];
    }
  }

  /** `[x, y].sort()` on two strings: the same two strings, smaller first. */
  function SortPair(x: string, y: string): (r: (string, string))
    ensures LessEq(r.0, r.1)
    ensures (r.0 == x && r.1 == y) || (r.0 == y && r.1 == x)
  {
    LessEqTotal(x, y);
    if LessEq(x, y) then (x, y) else (y, x)
  }

  /** The id a combination of the two ids gets: `${id1}-${id2}` after sorting. */
  function Key(a: string, b: string): string {
    var (lo, hi) := SortPair(a, b);
    lo + "-" + hi
  }

  /** Combining A with B and B with A yields the same key. */
  lemma KeyCommutative(a: string, b: string)
    ensures Key(a, b) == Key(b, a)
  {
    LessEqTotal(a, b);
    if LessEq(a, b) && LessEq(b, a) {
      LessEqAntisymmetric(a, b);
    }
  }

  /** A key is the smaller id, a dash, then the larger id. */
  lemma KeyIsOrderedJoin(a: string, b: string)
    ensures exists lo, hi :: Key(a, b) == lo + "-" + hi && LessEq(lo, hi)
                             && ((lo == a && hi == b) || (lo == b && hi == a))
  {
    var (lo, hi) := SortPair(a, b);
    assert Key(a, b) == lo + "-" + hi;
  }

  /** In `x + "-" + y` with a dash-free `x`, the first dash sits right after `x`. */
  lemma FirstDashAfter(x: string, y: string)
    requires '-' !in x
    ensures (x + "-" + y)[|x|] == '-'
    ensures forall k :: 0 <= k < |x| ==> (x + "-" + y)[k] != '-'
  {
  }

  /** Splitting a joined key at its first dash gives back both parts. */
  lemma JoinSplit(x: string, y: string, u: string, v: string)
    requires '-' !in x && '-' !in u
    requires x + "-" + y == u + "-" + v
    ensures x == u && y == v
  {
    var s := x + "-" + y;
    FirstDashAfter(x, y);
    FirstDashAfter(u, v);
    assert |x| == |u|;
    assert x == s[..|x|] == u;
    assert y == s[|x| + 1..] == v;
  }

  /** For dash-free ids the key identifies the unordered pair. */
  lemma KeyDeterminesPair(a: string, b: string, c: string, d: string)
    requires '-' !in a && '-' !in b && '-' !in c && '-' !in d
    requires Key(a, b) == Key(c, d)
    ensures (a == c && b == d) || (a == d && b == c)
  {
    var (lo1, hi1) := SortPair(a, b);
    var (lo2, hi2) := SortPair(c, d);
    JoinSplit(lo1, hi1, lo2, hi2);
  }

  /** Ids that already contain a dash (every derived id does) can collide:
      Air with Earth-Water and Air-Earth with Water share one key. */
  lemma DashedIdsCollide()
    ensures ("air", "earth-water") != ("air-earth", "water")
    ensures Key("air", "earth-water") == Key("air-earth", "water") == "air-earth-water"
  {
    assert LessEq("air", "earth-water");
    assert LessEq("air-earth", "water");
  }
}
