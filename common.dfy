/** Small shared vocabulary of the game model: an optional value, a 3-vector
    of reals, JavaScript's `String.prototype.includes`, and the two random
    draws of the three.js math utilities with the random number made a
    parameter `r` in [0, 1). */
module Common {

  datatype Option<+T> = None | Some(value: T)

  /** A position or direction in world space (physics-engine units). */
  datatype Vec3 = Vec3(x: real, y: real, z: real)

  function Abs(x: real): (r: real)
    ensures r >= 0.0 && (r == x || r == -x)
  {
    if x < 0.0 then -x else x
  }

  function Min(a: real, b: real): (r: real)
    ensures r <= a && r <= b && (r == a || r == b)
  {
    if a <= b then a else b
  }

  /** `s.includes(t)`: `t` occurs in `s` starting at some position. */
  predicate Contains(s: string, t: string)
    decreases |s|
  {
    (|t| <= |s| && s[..|t|] == t) || (|s| > 0 && Contains(s[1..], t))
  }

  /** An occurrence of `t` at offset `k` of `s` is found by `Contains`. */
  lemma {:induction false} ContainsAt(s: string, t: string, k: nat)
    requires k + |t| <= |s| && s[k..k + |t|] == t
    ensures Contains(s, t)
  {
    if k > 0 {
      assert s[1..][k - 1..k - 1 + |t|] == s[k..k + |t|];
      ContainsAt(s[1..], t, k - 1);
    }
  }

  /** Conversely, whatever `Contains` finds occurs at some offset of `s`:
      with `ContainsAt`, `Contains` is "occurs at some offset". */
  lemma {:induction false} ContainsSomewhere(s: string, t: string) returns (k: nat)
    requires Contains(s, t)
    ensures k + |t| <= |s| && s[k..k + |t|] == t
  {
    if |t| <= |s| && s[..|t|] == t {
      k := 0;
    } else {
      var j := ContainsSomewhere(s[1..], t);
      assert s[1..][j..j + |t|] == s[j + 1..j + 1 + |t|];
      k := j + 1;
    }
  }

  /** A string contains each of its prefixes. */
  lemma PrefixContained(t: string, u: string)
    ensures Contains(t + u, t)
  {
    assert (t + u)[..|t|] == t;
  }

  /** Every occurrence `Contains` reports lies inside `s`, so a string
      shorter than `t` never contains it. */
  lemma ContainsNeedsRoom(s: string, t: string)
    requires Contains(s, t)
    ensures |t| <= |s|
  {
    var _ := ContainsSomewhere(s, t);
  }

  /** The contrapositive: a string shorter than a pattern cannot contain it. */
  lemma ContainsNeedsRoomContra(s: string, t: string)
    requires |s| < |t|
    ensures !Contains(s, t)
  {
    if Contains(s, t) {
      ContainsNeedsRoom(s, t);
    }
  }

  /** three.js `MathUtils.randInt(low, high)`, that is
      `low + Math.floor(Math.random() * (high - low + 1))`, on integral bounds:
      an integer of the closed range [low, high]. */
  function RandInt(low: int, high: int, r: real): (n: int)
    requires low <= high && 0.0 <= r < 1.0
    ensures low <= n <= high
  {
    ScaledBelow(r, 0.0, (high - low + 1) as real);
    low + (r * (high - low + 1) as real).Floor
  }

  lemma PositiveProduct(a: real, b: real)
    requires a > 0.0 && b > 0.0
    ensures a * b > 0.0
  {
  }

  /** A fraction `r` of the way from `low` to `high` stays in [low, high). */
  lemma ScaledBelow(r: real, low: real, high: real)
    requires 0.0 <= r < 1.0 && low < high
    ensures low <= low + r * (high - low) < high
  {
    var w := high - low;
    var p := r * w;
    var q := (1.0 - r) * w;
    PositiveProduct(1.0 - r, w);
    assert q > 0.0 && q == w - p;
    assert p < w;
    assert p >= 0.0 by { if r > 0.0 { PositiveProduct(r, w); } }
  }

  /** The same randInt formula evaluated on bounds that are not integers, as
      JavaScript does with its floating-point numbers: the result is `low`
      plus a whole number, whatever the bounds. */
  function RandIntOnReals(low: real, high: real, r: real): (x: real)
    requires 0.0 <= r < 1.0
    ensures (x - low).Floor as real == x - low
    ensures low - 1.0 < high ==> low <= x < high + 1.0
  {
    var n := WholePart(r, high - low + 1.0);
    low + n as real
  }

  /** The whole part of the fraction `r` of `w`: for a positive `w`, a
      natural number below `w`. */
  function WholePart(r: real, w: real): (n: int)
    requires 0.0 <= r < 1.0
    ensures w > 0.0 ==> 0 <= n && (n as real) < w
  {
    if w > 0.0 then ScaledBelow(r, 0.0, w); (r * w).Floor
    else (r * w).Floor
  }

  /** three.js `MathUtils.randFloat(low, high)`, that is
      `low + Math.random() * (high - low)`: a real of [low, high). */
  function RandFloat(low: real, high: real, r: real): (x: real)
    requires low < high && 0.0 <= r < 1.0
    ensures low <= x < high
  {
    ScaledBelow(r, low, high);
    low + r * (high - low)
  }
}
