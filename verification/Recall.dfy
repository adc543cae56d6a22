/**
 Recall of long-term memories: the byte form of embeddings, cosine similarity, and the ranking. Floating
 point is taken as exact: a 32-bit word stands for a real number, and square roots are exact.
 */
module Recall {
  import opened Wrappers
  import opened Seqs
  import opened StableSort
  import opened Crypto

  type Byte = b: int | 0 <= b < 0x100

  /** The bits of a float32. */
  type Word = w: int | 0 <= w < 0x1_0000_0000

  // ----- embeddings as bytes -----

  function LittleEndian(w: Word): (r: seq<Byte>)
    ensures |r| == 4
  {
    [w % 0x100, w / 0x100 % 0x100, w / 0x1_0000 % 0x100, w / 0x100_0000]
  }

  function WordAt(b: seq<Byte>, i: nat): Word
    requires i + 4 <= |b|
  {
    b[i] as int + 0x100 * b[i + 1] as int + 0x1_0000 * b[i + 2] as int + 0x100_0000 * b[i + 3] as int
  }

  function Encoded(v: seq<Word>): (r: seq<Byte>)
    ensures |r| == 4 * |v|
  {
    if v == [] then [] else Encoded(v[..|v| - 1]) + LittleEndian(v[|v| - 1])
  }

  function Decoded(b: seq<Byte>): (r: seq<Word>)
    ensures |r| == |b| / 4
  {
    if |b| < 4 then [] else [WordAt(b, 0)] + Decoded(b[4..])
  }

  method EncodeVector(v: seq<Word>) returns (b: array<Byte>)
    ensures fresh(b) && b[..] == Encoded(v)
  {
    b := new Byte[|v| * 4](_ => 0);
    for i := 0 to |v|
      invariant b[..i * 4] == Encoded(v[..i])
    {
      var le := LittleEndian(v[i]);
      b[i * 4], b[i * 4 + 1], b[i * 4 + 2], b[i * 4 + 3] := le[0], le[1], le[2], le[3];
      assert v[..i + 1][..i] == v[..i];
      assert b[..(i + 1) * 4] == b[..i * 4] + le;
    }
    assert v[..|v|] == v;
    assert b[..|v| * 4] == b[..];
  }

  method DecodeVector(b: array<Byte>) returns (v: array<Word>)
    ensures fresh(v) && v[..] == Decoded(b[..])
  {
    hide WordAt, Decoded;
    var n := b.Length / 4;
    v := new Word[n](_ => 0);
    ghost var bytes := b[..];
    assert bytes[0 * 4..] == bytes;
    for i := 0 to n
      invariant v[..i] + Decoded(bytes[i * 4..]) == Decoded(bytes)
    {
      DecodeOneMore(bytes, i);
      v[i] := WordAt(b[..], i * 4);
      assert v[..i + 1] == v[..i] + [v[i]];
    }
    assert v[..n] == v[..] && |Decoded(bytes[n * 4..])| == 0;
  }

  lemma DecodeOneMore(b: seq<Byte>, i: nat)
    requires (i + 1) * 4 <= |b|
    ensures Decoded(b[i * 4..]) == [WordAt(b, i * 4)] + Decoded(b[(i + 1) * 4..])
  {
    assert b[i * 4..][4..] == b[(i + 1) * 4..];
  }

  lemma WordRoundTrip(w: Word)
    ensures WordAt(LittleEndian(w), 0) == w
  {
    var q1: int, q2: int, q3: int := w / 0x100, w / 0x1_0000, w / 0x100_0000;
    assert w == 0x100 * q1 + w % 0x100;
    assert q1 == 0x100 * q2 + q1 % 0x100;
    assert q2 == 0x100 * q3 + q2 % 0x100;
  }

  lemma BytesRoundTrip(b: seq<Byte>, i: nat)
    requires i + 4 <= |b|
    ensures LittleEndian(WordAt(b, i)) == b[i..i + 4]
  {
    var w := WordAt(b, i);
    var b1: int, b2: int, b3: int := b[i + 1], b[i + 2], b[i + 3];
    assert w / 0x100 == b1 + 0x100 * b2 + 0x1_0000 * b3;
    assert w / 0x1_0000 == b2 + 0x100 * b3;
    assert w / 0x100_0000 == b3;
  }

  lemma {:induction false} DecodeConcat(a: seq<Byte>, b: seq<Byte>)
    requires |a| % 4 == 0
    ensures Decoded(a + b) == Decoded(a) + Decoded(b)
  {
    if a == [] {
      assert a + b == b;
    } else {
      assert (a + b)[4..] == a[4..] + b;
      DecodeConcat(a[4..], b);
    }
  }

  lemma {:induction false} EncodeConcat(a: seq<Word>, b: seq<Word>)
    ensures Encoded(a + b) == Encoded(a) + Encoded(b)
  {
    if b == [] {
      assert a + b == a;
    } else {
      var n := |b| - 1;
      assert (a + b)[..|a| + n] == a + b[..n];
      EncodeConcat(a, b[..n]);
    }
  }

  /** Every embedding comes back from its bytes. */
  lemma {:induction false} DecodeEncode(v: seq<Word>)
    ensures Decoded(Encoded(v)) == v
  {
    if v != [] {
      var n := |v| - 1;
      DecodeEncode(v[..n]);
      var le := LittleEndian(v[n]);
      WordRoundTrip(v[n]);
      DecodeConcat(Encoded(v[..n]), le);
      assert Decoded(le[4..]) == [];
      assert v == v[..n] + [v[n]];
    }
  }

  /** And every blob of whole words comes back from its embedding; a ragged end is dropped. */
  lemma {:induction false} EncodeDecode(b: seq<Byte>)
    ensures Encoded(Decoded(b)) == b[..|b| / 4 * 4]
  {
    if |b| >= 4 {
      BytesRoundTrip(b, 0);
      EncodeDecode(b[4..]);
      EncodeConcat([WordAt(b, 0)], Decoded(b[4..]));
      assert [WordAt(b, 0)][..0] == [];
      assert Encoded([WordAt(b, 0)]) == b[..4];
      assert b[4..][..|b[4..]| / 4 * 4] == b[4..|b| / 4 * 4];
    }
  }

  /** Least significant byte first. */
  lemma {:induction false} EncodedTells(v: seq<Word>, i: nat)
    requires i < |v|
    ensures var b := Encoded(v);
      && b[4 * i] == v[i] % 256 && b[4 * i + 1] == v[i] / 256 % 256
      && b[4 * i + 2] == v[i] / 65536 % 256 && b[4 * i + 3] == v[i] / 16777216
  {
    var n := |v| - 1;
    if i < n {
      EncodedTells(v[..n], i);
      assert forall j :: 0 <= j < 4 * n ==> Encoded(v)[j] == Encoded(v[..n])[j];
    }
  }

  // ----- cosine similarity -----

  type Vector = seq<real>

  function Times(x: real, y: real): real {
    x * y
  }

  function Dot(a: Vector, b: Vector): real
    requires |a| == |b|
  {
    if a == [] then 0.0 else Dot(a[..|a| - 1], b[..|b| - 1]) + Times(a[|a| - 1], b[|b| - 1])
  }

  ghost predicate IsRoot(sqrt: real -> real) {
    forall x :: x >= 0.0 ==> sqrt(x) >= 0.0 && Times(sqrt(x), sqrt(x)) == x
  }

  /** Zero for empty, unequally long, or zero vectors. */
  function Cos(sqrt: real -> real, a: Vector, b: Vector): real
    requires IsRoot(sqrt)
  {
    if a == [] || |a| != |b| || Dot(a, a) == 0.0 || Dot(b, b) == 0.0 then 0.0
    else
      NormsArePositive(sqrt, a, b);
      Normalized(Dot(a, b), sqrt(Dot(a, a)), sqrt(Dot(b, b)))
  }

  function Normalized(d: real, x: real, y: real): real
    requires x > 0.0 && y > 0.0
  {
    PositiveProduct(x, y);
    d / (x * y)
  }

  method Cosine(sqrt: real -> real, a: Vector, b: Vector) returns (c: real)
    requires IsRoot(sqrt)
    ensures c == Cos(sqrt, a, b)
  {
    if |a| == 0 || |a| != |b| {
      return 0.0;
    }
    var dot, na, nb := 0.0, 0.0, 0.0;
    for i := 0 to |a|
      invariant dot == Dot(a[..i], b[..i]) && na == Dot(a[..i], a[..i]) && nb == Dot(b[..i], b[..i])
    {
      assert a[..i + 1][..i] == a[..i] && b[..i + 1][..i] == b[..i];
      dot := dot + a[i] * b[i];
      na := na + a[i] * a[i];
      nb := nb + b[i] * b[i];
    }
    assert a[..|a|] == a && b[..|b|] == b;
    if na == 0.0 || nb == 0.0 {
      return 0.0;
    }
    NormsArePositive(sqrt, a, b);
    PositiveProduct(sqrt(na), sqrt(nb));
    return dot / (sqrt(na) * sqrt(nb));
  }

  /** The similarity of two vectors is their inner product over the product of their lengths. */
  lemma CosineTells(sqrt: real -> real, a: Vector, b: Vector)
    requires IsRoot(sqrt)
    ensures a == [] || |a| != |b| ==> Cos(sqrt, a, b) == 0.0
    ensures |a| == |b| && (Dot(a, a) == 0.0 || Dot(b, b) == 0.0) ==> Cos(sqrt, a, b) == 0.0
    ensures |a| == |b| && Dot(a, a) != 0.0 && Dot(b, b) != 0.0 ==>
              Cos(sqrt, a, b) * (sqrt(Dot(a, a)) * sqrt(Dot(b, b))) == Dot(a, b)
  {
    if |a| == |b| && Dot(a, a) != 0.0 && Dot(b, b) != 0.0 {
      NormsArePositive(sqrt, a, b);
      assert Cos(sqrt, a, b) == Normalized(Dot(a, b), sqrt(Dot(a, a)), sqrt(Dot(b, b)));
      hide Normalized, Dot, Times, Cos;
      NormalizedTells(Dot(a, b), sqrt(Dot(a, a)), sqrt(Dot(b, b)));
    }
  }

  lemma NormalizedTells(d: real, x: real, y: real)
    requires x > 0.0 && y > 0.0
    ensures Normalized(d, x, y) * (x * y) == d
  {
    PositiveProduct(x, y);
    var n := x * y;
    assert Normalized(d, x, y) == d / n && d / n * n == d;
  }

  lemma DotTells(a: Vector, x: real, b: Vector, y: real)
    requires |a| == |b|
    ensures Dot(a + [x], b + [y]) == Dot(a, b) + x * y
    ensures Dot([], []) == 0.0
  {
    var a', b' := a + [x], b + [y];
    assert a'[..|a|] == a && b'[..|b|] == b && a'[|a|] == x && b'[|b|] == y;
    assert Dot(a', b') == Dot(a, b) + Times(x, y);
  }

  // ----- arithmetic -----

  lemma PositiveProduct(x: real, y: real)
    requires x > 0.0 && y > 0.0
    ensures x * y > 0.0 && Times(x, y) > 0.0
  {}

  lemma Square(x: real)
    ensures Times(x, x) >= 0.0
    ensures x == 0.0 ==> Times(x, x) == 0.0
    ensures x != 0.0 ==> Times(x, x) > 0.0
  {
    var y := -x;
    assert Times(y, y) == Times(x, x);
    if x > 0.0 {
      PositiveProduct(x, x);
    } else if y > 0.0 {
      PositiveProduct(y, y);
    }
  }

  lemma RootIsPositive(sqrt: real -> real, x: real)
    requires IsRoot(sqrt) && x > 0.0
    ensures sqrt(x) > 0.0
  {
    assert Times(sqrt(x), sqrt(x)) == x;
    Square(sqrt(x));
    hide Times;
  }

  lemma Strictly(x: real, y: real)
    requires 0.0 <= x < y
    ensures Times(x, x) < Times(y, y)
  {
    PositiveProduct(y - x, y + x);
    assert (y - x) * (y + x) == y * y - x * x;
  }

  lemma RootIsUnique(sqrt: real -> real, x: real, r: real)
    requires IsRoot(sqrt) && r >= 0.0 && x == Times(r, r)
    ensures sqrt(x) == r
  {
    Square(r);
    hide Times;
    var q := sqrt(x);
    assert Times(q, q) == x;
    if q < r {
      Strictly(q, r);
    } else if r < q {
      Strictly(r, q);
    }
  }

  lemma SquareOfProduct(x: real, y: real)
    ensures Times(Times(x, y), Times(x, y)) == Times(Times(x, x), Times(y, y))
    ensures Times(Times(x, y), Times(x, y)) == Times(x, Times(x, Times(y, y)))
  {}

  predicate Within(d: real, aa: real, bb: real) {
    d * d <= aa * bb
  }

  predicate Tight(d: real, aa: real, bb: real) {
    d * d == aa * bb
  }

  lemma NormalizedIsBounded(d: real, x: real, y: real, xx: real, yy: real)
    requires x > 0.0 && y > 0.0 && Times(x, x) == xx && Times(y, y) == yy && Within(d, xx, yy)
    ensures -1.0 <= Normalized(d, x, y) <= 1.0
    ensures Normalized(d, x, y) == 1.0 <==> Tight(d, xx, yy) && d > 0.0
  {
    SquareOfProduct(x, y);
    PositiveProduct(x, y);
    var n := x * y;
    assert n == Times(x, y) && Times(d, d) <= Times(n, n) && (Tight(d, xx, yy) <==> Times(d, d) == Times(n, n));
    assert Normalized(d, x, y) == d / n;
    hide *;
    Ratio(d, n);
  }

  lemma Ratio(d: real, n: real)
    requires n > 0.0 && Times(d, d) <= Times(n, n)
    ensures -1.0 <= d / n <= 1.0
    ensures d / n == 1.0 <==> Times(d, d) == Times(n, n) && d > 0.0
  {
    Magnitude(d, n);
    hide Times;
    Divide(d, n);
  }

  lemma Magnitude(d: real, n: real)
    requires n > 0.0 && Times(d, d) <= Times(n, n)
    ensures -n <= d <= n
    ensures d > 0.0 ==> (Times(d, d) == Times(n, n) <==> d == n)
  {
    assert Times(-d, -d) == Times(d, d);
    hide Times;
    if d > n {
      Strictly(n, d);
    } else if -d > n {
      Strictly(n, -d);
    } else if 0.0 < d < n {
      Strictly(d, n);
    }
  }

  lemma Divide(d: real, n: real)
    requires n > 0.0
    ensures -n <= d <= n ==> -1.0 <= d / n <= 1.0
    ensures d / n == 1.0 <==> d == n
    ensures d > 0.0 ==> d / n > 0.0
  {
    var q := d / n;
    assert q * n == d;
    if q > 1.0 {
      PositiveProduct(q - 1.0, n);
    } else if q < -1.0 {
      PositiveProduct(-1.0 - q, n);
    }
    if q < 0.0 {
      PositiveProduct(-q, n);
    }
  }

  // ----- inner products -----

  lemma {:induction false} SquaresAreNonNegative(a: Vector)
    ensures Dot(a, a) >= 0.0
    ensures Dot(a, a) == 0.0 <==> IsZero(a)
  {
    hide Times;
    if a != [] {
      var n := |a| - 1;
      SquaresAreNonNegative(a[..n]);
      Square(a[n]);
      assert a == a[..n] + [a[n]];
      assert IsZero(a) <==> IsZero(a[..n]) && a[n] == 0.0;
    }
  }

  predicate IsZero(m: Vector) {
    forall i :: 0 <= i < |m| ==> m[i] == 0.0
  }

  lemma NormsArePositive(sqrt: real -> real, a: Vector, b: Vector)
    requires IsRoot(sqrt) && Dot(a, a) != 0.0 && Dot(b, b) != 0.0
    ensures Dot(a, a) > 0.0 && Dot(b, b) > 0.0
    ensures sqrt(Dot(a, a)) > 0.0 && sqrt(Dot(b, b)) > 0.0
  {
    SquaresAreNonNegative(a);
    SquaresAreNonNegative(b);
    RootIsPositive(sqrt, Dot(a, a));
    RootIsPositive(sqrt, Dot(b, b));
  }

  function Residue(s: real, x: real, t: real, y: real): real {
    s * x - t * y
  }

  /** The vector s*a - t*b. */
  function Mixed(s: real, a: Vector, t: real, b: Vector): (r: Vector)
    requires |a| == |b|
    ensures |r| == |a|
  {
    if a == [] then [] else Mixed(s, a[..|a| - 1], t, b[..|b| - 1]) + [Residue(s, a[|a| - 1], t, b[|b| - 1])]
  }

  function Quadratic(s: real, t: real, aa: real, ab: real, bb: real): real {
    s * s * aa - 2.0 * s * t * ab + t * t * bb
  }

  lemma {:induction false} MixedSquare(s: real, a: Vector, t: real, b: Vector)
    requires |a| == |b|
    ensures Dot(Mixed(s, a, t, b), Mixed(s, a, t, b)) == Quadratic(s, t, Dot(a, a), Dot(a, b), Dot(b, b))
  {
    if a != [] {
      var n := |a| - 1;
      var m, r := Mixed(s, a[..n], t, b[..n]), Residue(s, a[n], t, b[n]);
      hide Residue, Quadratic, Times;
      MixedSquare(s, a[..n], t, b[..n]);
      assert (m + [r])[..n] == m && Mixed(s, a, t, b) == m + [r];
      assert Dot(m + [r], m + [r]) == Dot(m, m) + Times(r, r);
      OneMoreSquare(s, t, Dot(a[..n], a[..n]), Dot(a[..n], b[..n]), Dot(b[..n], b[..n]), a[n], b[n]);
    } else {
      assert Quadratic(s, t, 0.0, 0.0, 0.0) == 0.0;
    }
  }

  lemma OneMoreSquare(s: real, t: real, aa: real, ab: real, bb: real, x: real, y: real)
    ensures Quadratic(s, t, aa, ab, bb) + Times(Residue(s, x, t, y), Residue(s, x, t, y))
         == Quadratic(s, t, aa + Times(x, x), ab + Times(x, y), bb + Times(y, y))
  {
    Expand(s, x, t, y);
    Distribute(s, t, aa, ab, bb, x * x, x * y, y * y);
  }

  lemma Expand(s: real, x: real, t: real, y: real)
    ensures Times(Residue(s, x, t, y), Residue(s, x, t, y)) == Quadratic(s, t, x * x, x * y, y * y)
  {}

  lemma Distribute(s: real, t: real, aa: real, ab: real, bb: real, x: real, z: real, y: real)
    ensures Quadratic(s, t, aa, ab, bb) + Quadratic(s, t, x, z, y) == Quadratic(s, t, aa + x, ab + z, bb + y)
  {}

  /** Cauchy-Schwarz, with equality exactly when the residue of a along b vanishes. */
  lemma CauchySchwarz(a: Vector, b: Vector)
    requires |a| == |b| && Dot(b, b) > 0.0
    ensures Within(Dot(a, b), Dot(a, a), Dot(b, b))
    ensures Tight(Dot(a, b), Dot(a, a), Dot(b, b)) <==> IsZero(Mixed(Dot(b, b), a, Dot(a, b), b))
  {
    hide *;
    var s, t := Dot(b, b), Dot(a, b);
    var m := Mixed(s, a, t, b);
    MixedSquare(s, a, t, b);
    SquaresAreNonNegative(m);
    Factor(s, t, Dot(a, a), Dot(m, m));
  }

  lemma Factor(s: real, t: real, a: real, m: real)
    requires s > 0.0 && m == Quadratic(s, t, a, t, s) && m >= 0.0
    ensures Within(t, a, s) && (Tight(t, a, s) <==> m == 0.0)
  {
    var gap := a * s - t * t;
    assert m == s * gap;
    if gap > 0.0 {
      PositiveProduct(s, gap);
    } else if gap < 0.0 {
      PositiveProduct(s, -gap);
    }
  }

  lemma {:induction false} MixedAt(s: real, a: Vector, t: real, b: Vector, i: nat)
    requires |a| == |b| && i < |a|
    ensures Mixed(s, a, t, b)[i] == Residue(s, a[i], t, b[i])
  {
    hide Residue;
    if i < |a| - 1 {
      MixedAt(s, a[..|a| - 1], t, b[..|b| - 1], i);
    }
  }

  lemma {:induction false} DotIsSymmetric(a: Vector, b: Vector)
    requires |a| == |b|
    ensures Dot(a, b) == Dot(b, a)
  {
    if a != [] {
      DotIsSymmetric(a[..|a| - 1], b[..|b| - 1]);
      assert Times(a[|a| - 1], b[|b| - 1]) == Times(b[|b| - 1], a[|a| - 1]);
    }
  }

  function Scaled(c: real, a: Vector): (r: Vector)
    ensures |r| == |a|
  {
    if a == [] then [] else Scaled(c, a[..|a| - 1]) + [Times(c, a[|a| - 1])]
  }

  lemma {:induction false} ScaledAt(c: real, a: Vector, i: nat)
    requires i < |a|
    ensures Scaled(c, a)[i] == Times(c, a[i])
  {
    hide Times;
    if i < |a| - 1 {
      ScaledAt(c, a[..|a| - 1], i);
    }
  }

  lemma ScaleSum(c: real, d: real, x: real, y: real)
    ensures Times(c, d) + Times(Times(c, x), y) == Times(c, d + Times(x, y))
    ensures Times(c, 0.0) == 0.0
  {}

  lemma {:induction false} DotScales(c: real, a: Vector, b: Vector)
    requires |a| == |b|
    ensures Dot(Scaled(c, a), b) == Times(c, Dot(a, b))
  {
    hide Times;
    if a != [] {
      var n := |a| - 1;
      DotScales(c, a[..n], b[..n]);
      var sa, x := Scaled(c, a[..n]), Times(c, a[n]);
      assert Scaled(c, a) == sa + [x] && (sa + [x])[..n] == sa;
      ScaleSum(c, Dot(a[..n], b[..n]), a[n], b[n]);
    } else {
      ScaleSum(c, 0.0, 0.0, 0.0);
    }
  }

  // ----- what cosine promises -----

  /** The promised range, for all inputs. */
  lemma CosineIsBounded(sqrt: real -> real, a: Vector, b: Vector)
    requires IsRoot(sqrt)
    ensures -1.0 <= Cos(sqrt, a, b) <= 1.0
  {
    hide Times, Dot, Within, Tight, Normalized;
    if a != [] && |a| == |b| && Dot(a, a) != 0.0 && Dot(b, b) != 0.0 {
      NormsArePositive(sqrt, a, b);
      CauchySchwarz(a, b);
      NormalizedIsBounded(Dot(a, b), sqrt(Dot(a, a)), sqrt(Dot(b, b)), Dot(a, a), Dot(b, b));
    }
  }

  lemma CosineIsSymmetric(sqrt: real -> real, a: Vector, b: Vector)
    requires IsRoot(sqrt)
    ensures Cos(sqrt, a, b) == Cos(sqrt, b, a)
  {
    hide Times, Dot;
    if a != [] && |a| == |b| && Dot(a, a) != 0.0 && Dot(b, b) != 0.0 {
      DotIsSymmetric(a, b);
      NormsArePositive(sqrt, a, b);
      Swap(Dot(a, b), sqrt(Dot(a, a)), sqrt(Dot(b, b)));
      hide Normalized;
    }
  }

  lemma Swap(d: real, x: real, y: real)
    requires x > 0.0 && y > 0.0
    ensures Normalized(d, x, y) == Normalized(d, y, x)
  {
    assert x * y == y * x;
  }

  /** Only the direction counts. */
  lemma CosineIgnoresScale(sqrt: real -> real, c: real, a: Vector, b: Vector)
    requires IsRoot(sqrt) && c > 0.0
    ensures Cos(sqrt, Scaled(c, a), b) == Cos(sqrt, a, b)
  {
    hide Times, Dot, Scaled, Normalized;
    if a != [] && |a| == |b| {
      var sa := Scaled(c, a);
      DotScales(c, a, b);
      DotScales(c, a, sa);
      DotIsSymmetric(a, sa);
      DotScales(c, a, a);
      SquaresAreNonNegative(a);
      NormScales(sqrt, c, Dot(a, a), Dot(sa, sa));
      if Dot(a, a) != 0.0 && Dot(b, b) != 0.0 {
        NormsArePositive(sqrt, a, b);
        Cancel(c, Dot(a, b), sqrt(Dot(a, a)), sqrt(Dot(b, b)));
      }
    }
  }

  lemma NormScales(sqrt: real -> real, c: real, x: real, y: real)
    requires IsRoot(sqrt) && c > 0.0 && x >= 0.0 && y == Times(c, Times(c, x))
    ensures sqrt(y) == Times(c, sqrt(x))
    ensures x == 0.0 <==> y == 0.0
  {
    var r := sqrt(x);
    assert Times(r, r) == x;
    assert Times(c, 0.0) == 0.0;
    assert r >= 0.0 && Times(c, r) >= 0.0;
    hide Times;
    SquareOfProduct(c, r);
    RootIsUnique(sqrt, y, Times(c, r));
    if x > 0.0 {
      PositiveProduct(c, x);
      PositiveProduct(c, Times(c, x));
    }
  }

  lemma Cancel(c: real, d: real, x: real, y: real)
    requires c > 0.0 && x > 0.0 && y > 0.0
    ensures Times(c, x) > 0.0 && Normalized(Times(c, d), Times(c, x), y) == Normalized(d, x, y)
  {
    PositiveProduct(c, x);
    PositiveProduct(x, y);
    PositiveProduct(c, x * y);
    var n := x * y;
    assert Times(c, x) * y == c * n;
    var q := d / n;
    assert q * n == d;
    assert Times(c, d) == q * (c * n);
    Quotient(Times(c, d), q, c * n);
  }

  lemma Quotient(d: real, q: real, n: real)
    requires n > 0.0 && d == q * n
    ensures d / n == q
  {}

  lemma CosineOfItself(sqrt: real -> real, a: Vector)
    requires IsRoot(sqrt) && Dot(a, a) != 0.0
    ensures Cos(sqrt, a, a) == 1.0
  {
    NormsArePositive(sqrt, a, a);
    hide Times, Dot, Normalized;
    NormalizedIsBounded(Dot(a, a), sqrt(Dot(a, a)), sqrt(Dot(a, a)), Dot(a, a), Dot(a, a));
  }

  /** Full similarity means the same direction, and only that. */
  lemma CosineIsOne(sqrt: real -> real, a: Vector, b: Vector)
    requires IsRoot(sqrt) && |a| == |b|
    ensures Cos(sqrt, a, b) == 1.0 <==> Dot(b, b) > 0.0 && exists c :: c > 0.0 && a == Scaled(c, b)
  {
    hide Times, Dot, Normalized, Within, Tight, Mixed, Scaled, IsZero;
    SquaresAreNonNegative(b);
    if Cos(sqrt, a, b) == 1.0 {
      NormsArePositive(sqrt, a, b);
      CauchySchwarz(a, b);
      NormalizedIsBounded(Dot(a, b), sqrt(Dot(a, a)), sqrt(Dot(b, b)), Dot(a, a), Dot(b, b));
      var c := Proportional(a, Dot(a, b), b, Dot(b, b));
    }
    if Dot(b, b) > 0.0 && exists c :: c > 0.0 && a == Scaled(c, b) {
      var c :| c > 0.0 && a == Scaled(c, b);
      CosineIgnoresScale(sqrt, c, b, b);
      CosineOfItself(sqrt, b);
    }
  }

  lemma Proportional(a: Vector, d: real, b: Vector, bb: real) returns (c: real)
    requires |a| == |b| && bb > 0.0 && d > 0.0
    requires IsZero(Mixed(bb, a, d, b))
    ensures c > 0.0 && a == Scaled(c, b)
  {
    hide Times, Residue, Mixed, Scaled;
    Divide(d, bb);
    c := d / bb;
    forall i | 0 <= i < |a| ensures a[i] == Scaled(c, b)[i] {
      MixedAt(bb, a, d, b, i);
      ScaledAt(c, b, i);
      assert Mixed(bb, a, d, b)[i] == 0.0;
      Solve(a[i], d, b[i], bb);
    }
  }

  lemma Solve(x: real, d: real, y: real, n: real)
    requires n > 0.0 && Residue(n, x, d, y) == 0.0
    ensures x == Times(d / n, y)
  {
    var q := d / n;
    assert q * n == d;
    var gap := x - q * y;
    assert n * gap == n * x - (q * n) * y;
    if gap > 0.0 {
      PositiveProduct(n, gap);
    } else if gap < 0.0 {
      PositiveProduct(n, -gap);
    }
  }

  // ----- recall -----

  datatype Memory = Memory(id: string, sessionId: string, kind: string, text: string, embedding: seq<Word>)

  /** A stored memory; its session may be NULL, which equals no session. */
  datatype MemoryRow = MemoryRow(id: string, sessionId: Option<string>, kind: string, text: string, blob: seq<Byte>, createdAt: int)

  /** The reals that words stand for, and the square root. */
  datatype Floats = Floats(valueOf: Word -> real, sqrt: real -> real)

  function Values(f: Floats, v: seq<Word>): (r: Vector)
    ensures |r| == |v|
  {
    if v == [] then [] else Values(f, v[..|v| - 1]) + [f.valueOf(v[|v| - 1])]
  }

  datatype Scored = Scored(memory: Memory, score: real)

  function Score(f: Floats, query: seq<Word>, m: Memory): Scored
    requires IsRoot(f.sqrt)
  {
    Scored(m, if query == [] then 0.0 else Cos(f.sqrt, Values(f, query), Values(f, m.embedding)))
  }

  function ScoreAll(f: Floats, query: seq<Word>, ms: seq<Memory>): (r: seq<Scored>)
    requires IsRoot(f.sqrt)
    ensures |r| == |ms|
  {
    if ms == [] then [] else ScoreAll(f, query, ms[..|ms| - 1]) + [Score(f, query, ms[|ms| - 1])]
  }

  predicate Better(a: Scored, b: Scored) {
    a.score > b.score
  }

  /** By falling score; without a query the order of retrieval stays. */
  function Ranked(query: seq<Word>, all: seq<Scored>): seq<Scored> {
    if query == [] then all else ByScore(all)
  }

  function ByScore(all: seq<Scored>): seq<Scored> {
    Sort((a: Scored, b: Scored) => Better(a, b), all)
  }

  function Cut<T>(s: seq<T>, k: int): (r: seq<T>)
    ensures r <= s && |r| == if 0 < k < |s| then k else |s|
  {
    if k > 0 && |s| > k then s[..k] else s
  }

  function Memories(all: seq<Scored>): (r: seq<Memory>)
    ensures |r| == |all| && forall i :: 0 <= i < |r| ==> r[i] == all[i].memory
  {
    if all == [] then [] else Memories(all[..|all| - 1]) + [all[|all| - 1].memory]
  }

  /** The reference: rank the memories as they were saved, and keep the first k. */
  function TopK(f: Floats, query: seq<Word>, ms: seq<Memory>, k: int): seq<Memory>
    requires IsRoot(f.sqrt)
  {
    Memories(Cut(Ranked(query, ScoreAll(f, query, ms)), k))
  }

  /** A row as it is read back; the session asked for stands in for its own. */
  function Read(cipher: Option<Cipher>, sessionId: string, r: MemoryRow): Result<Memory, string> {
    match Dec(cipher, r.text)
    case Err(e) => Err(e)
    case Ok(text) => Ok(Memory(r.id, sessionId, r.kind, text, Decoded(r.blob)))
  }

  function ReadAll(cipher: Option<Cipher>, sessionId: string, rows: seq<MemoryRow>): Result<seq<Memory>, string> {
    if rows == [] then Ok([])
    else match ReadAll(cipher, sessionId, rows[..|rows| - 1])
      case Err(e) => Err(e)
      case Ok(before) => match Read(cipher, sessionId, rows[|rows| - 1])
        case Err(e) => Err(e)
        case Ok(m) => Ok(before + [m])
  }

  function Row(cipher: Option<Cipher>, nonce: string, m: Memory, freshId: string, now: int): MemoryRow {
    MemoryRow(if m.id == "" then freshId else m.id, if m.sessionId == "" then None else Some(m.sessionId), m.kind,
              Enc(cipher, nonce, m.text), Encoded(m.embedding), now)
  }

  function AskedFor(sessionId: string): MemoryRow -> bool {
    (r: MemoryRow) => sessionId == "" || r.sessionId == Some(sessionId)
  }

  predicate Newer(a: MemoryRow, b: MemoryRow) {
    a.createdAt > b.createdAt
  }

  /** What the query may retrieve: the rows asked for, newest first, equally new ones in any order. */
  ghost predicate Retrieves(rows: seq<MemoryRow>, sessionId: string, found: seq<MemoryRow>) {
    && multiset(found) == multiset(Filter(AskedFor(sessionId), rows))
    && Sorted((a: MemoryRow, b: MemoryRow) => Newer(a, b), found)
  }

  class MemoryStore {
    const cipher: Option<Cipher>
    const floats: Floats
    var rows: seq<MemoryRow>
    ghost var saved: seq<Memory>    // what each row stands for

    ghost predicate Valid()
      reads this
    {
      && IsRoot(floats.sqrt) && (cipher.Some? ==> Sound(cipher.value))
      && |saved| == |rows| && forall i :: 0 <= i < |rows| ==> StandsFor(cipher, rows[i], saved[i])
    }

    constructor (cipher: Option<Cipher>, floats: Floats)
      requires IsRoot(floats.sqrt) && (cipher.Some? ==> Sound(cipher.value))
      ensures Valid() && rows == [] && saved == []
    {
      this.cipher, this.floats, rows, saved := cipher, floats, [], [];
    }

    method SaveMemory(m: Memory, freshId: string, nonce: string, now: int, fails: bool) returns (ok: bool)
      requires Valid()
      modifies this
      ensures Valid() && ok == !fails
      ensures rows == if ok then old(rows) + [Row(cipher, nonce, m, freshId, now)] else old(rows)
      ensures ok ==> rows[|old(rows)|].createdAt == now && rows[|old(rows)|].id == if m.id == "" then freshId else m.id
      ensures saved == if ok then old(saved) + [m.(id := rows[|old(rows)|].id)] else old(saved)
    {
      if fails { return false; }
      var blob := EncodeVector(m.embedding);
      var r := MemoryRow(if m.id == "" then freshId else m.id, if m.sessionId == "" then None else Some(m.sessionId), m.kind,
                         Enc(cipher, nonce, m.text), blob[..], now);
      DecUndoesEnc(cipher, nonce, m.text);
      DecodeEncode(m.embedding);
      rows := rows + [r];
      saved := saved + [m.(id := r.id)];
      return true;
    }

    /** Every retrieved row with its score, unless one cannot be read. */
    method ScoreRows(sessionId: string, query: seq<Word>, found: seq<MemoryRow>) returns (all: Result<seq<Scored>, string>)
      requires Valid()
      ensures var read := ReadAll(cipher, sessionId, found);
        if read.Err? then all == Err(read.error) else all == Ok(ScoreAll(floats, query, read.value))
    {
      hide StandsFor, Decoded, Cos, Values, Dec;
      var scored: seq<Scored> := [];
      ghost var ms: seq<Memory> := [];
      for i := 0 to |found|
        invariant ReadAll(cipher, sessionId, found[..i]) == Ok(ms)
        invariant scored == ScoreAll(floats, query, ms)
      {
        assert found[..i + 1][..i] == found[..i];
        var text := Dec(cipher, found[i].text);
        if text.Err? {
          FirstUnreadable(cipher, sessionId, found, i);
          return Err(text.error);
        }
        var mem := Memory(found[i].id, sessionId, found[i].kind, text.value, Decoded(found[i].blob));
        var sc := 0.0;
        if |query| > 0 {
          sc := Cosine(floats.sqrt, Values(floats, query), Values(floats, mem.embedding));
        }
        assert (ms + [mem])[..|ms|] == ms;
        ms := ms + [mem];
        scored := scored + [Scored(mem, sc)];
      }
      assert found[..|found|] == found;
      return Ok(scored);
    }

    /** Found is what the query retrieves. */
    method RecallMemories(sessionId: string, query: seq<Word>, k: int, found: seq<MemoryRow>) returns (out: Result<seq<Memory>, string>)
      requires Valid() && Retrieves(rows, sessionId, found)
      ensures var read := ReadAll(cipher, sessionId, found);
        if read.Err? then out == Err(read.error) else out == Ok(TopK(floats, query, read.value, k))
      ensures var read := ReadAll(cipher, sessionId, found);
        read.Ok? ==> Recalls(floats, query, read.value, k, out.value)
    {
      hide ReadAll, ScoreAll, Retrieves, ByScore, Recalls;
      var scored := ScoreRows(sessionId, query, found);
      if scored.Err? {
        return Err(scored.error);
      }
      var result := FirstOf(scored.value, query, k);
      TopKRecalls(floats, query, ReadAll(cipher, sessionId, found).value, k);
      return Ok(result);
    }
  }

  /** Rank the scored memories when a query is given, and keep the first k. */
  method FirstOf(scored: seq<Scored>, query: seq<Word>, k: int) returns (result: seq<Memory>)
    ensures result == Memories(Cut(Ranked(query, scored), k))
  {
    hide ByScore;
    var all := scored;
    if |query| > 0 {
      all := ByScore(all);
    }
    if k > 0 && |all| > k {
      all := all[..k];
    }
    result := [];
    for i := 0 to |all|
      invariant result == Memories(all)[..i]
    {
      result := result + [all[i].memory];
    }
    assert Memories(all)[..|all|] == Memories(all);
  }

  predicate StandsFor(cipher: Option<Cipher>, r: MemoryRow, m: Memory) {
    r.id == m.id && r.kind == m.kind && Dec(cipher, r.text) == Ok(m.text) && Decoded(r.blob) == m.embedding
    && r.sessionId == if m.sessionId == "" then None else Some(m.sessionId)
  }

  lemma {:induction false} FirstUnreadable(cipher: Option<Cipher>, sessionId: string, rows: seq<MemoryRow>, i: nat)
    requires i < |rows| && ReadAll(cipher, sessionId, rows[..i]).Ok? && Read(cipher, sessionId, rows[i]).Err?
    ensures ReadAll(cipher, sessionId, rows) == Err(Read(cipher, sessionId, rows[i]).error)
  {
    var n := |rows| - 1;
    if i < n {
      assert rows[..n][..i] == rows[..i];
      FirstUnreadable(cipher, sessionId, rows[..n], i);
    }
  }

  function Shown(sessionId: string, ms: seq<Memory>): (r: seq<Memory>)
    ensures |r| == |ms| && forall i :: 0 <= i < |r| ==> r[i] == ms[i].(sessionId := sessionId)
  {
    if ms == [] then [] else Shown(sessionId, ms[..|ms| - 1]) + [ms[|ms| - 1].(sessionId := sessionId)]
  }

  /** What was saved is what is ranked: the byte form and the encryption leave no trace. */
  lemma {:induction false} SavedIsRead(cipher: Option<Cipher>, sessionId: string, rows: seq<MemoryRow>, ms: seq<Memory>)
    requires |rows| == |ms| && forall i :: 0 <= i < |rows| ==> StandsFor(cipher, rows[i], ms[i])
    ensures ReadAll(cipher, sessionId, rows) == Ok(Shown(sessionId, ms))
  {
    if rows != [] {
      var n := |rows| - 1;
      SavedIsRead(cipher, sessionId, rows[..n], ms[..n]);
    }
  }

  // ----- what is recalled, in terms of similarity alone -----

  lemma {:induction false} ValuesTell(f: Floats, v: seq<Word>, i: nat)
    requires i < |v|
    ensures Values(f, v)[i] == f.valueOf(v[i])
  {
    if i < |v| - 1 {
      ValuesTell(f, v[..|v| - 1], i);
    }
  }

  /** The memories whose cosine with the query is x. */
  function SimilarBy(f: Floats, query: seq<Word>, x: real): Memory -> bool
    requires IsRoot(f.sqrt)
  {
    (m: Memory) => Cos(f.sqrt, Values(f, query), Values(f, m.embedding)) == x
  }

  /** An arrangement of the memories by falling cosine with the query; equal ones keep their order. */
  ghost predicate BySimilarity(f: Floats, query: seq<Word>, ms: seq<Memory>, ranked: seq<Memory>)
    requires IsRoot(f.sqrt)
  {
    && multiset(ranked) == multiset(ms)
    && (forall i, j :: 0 <= i < j < |ranked| ==>
          Cos(f.sqrt, Values(f, query), Values(f, ranked[j].embedding)) <= Cos(f.sqrt, Values(f, query), Values(f, ranked[i].embedding)))
    && (forall x: real :: Filter(SimilarBy(f, query, x), ranked) == Filter(SimilarBy(f, query, x), ms))
  }

  /** The first k of the most similar memories, or of the memories as they were retrieved when nothing is asked. */
  ghost predicate Recalls(f: Floats, query: seq<Word>, ms: seq<Memory>, k: int, out: seq<Memory>)
    requires IsRoot(f.sqrt)
  {
    && |out| == (if 0 < k < |ms| then k else |ms|)
    && (query == [] ==> out <= ms)
    && (query != [] ==> exists ranked :: out <= ranked && BySimilarity(f, query, ms, ranked))
  }

  predicate Honest(f: Floats, query: seq<Word>, s: Scored)
    requires IsRoot(f.sqrt)
  {
    s.score == Cos(f.sqrt, Values(f, query), Values(f, s.memory.embedding))
  }

  predicate AllHonest(f: Floats, query: seq<Word>, all: seq<Scored>)
    requires IsRoot(f.sqrt)
  {
    forall i :: 0 <= i < |all| ==> Honest(f, query, all[i])
  }

  lemma {:induction false} ScoresAreHonest(f: Floats, query: seq<Word>, ms: seq<Memory>)
    requires IsRoot(f.sqrt)
    ensures Memories(ScoreAll(f, query, ms)) == ms
    ensures query != [] ==> AllHonest(f, query, ScoreAll(f, query, ms))
  {
    if ms != [] {
      var n := |ms| - 1;
      ScoresAreHonest(f, query, ms[..n]);
      assert query != [] ==> Honest(f, query, Score(f, query, ms[n]));
      var all := ScoreAll(f, query, ms[..n]);
      hide Cos, Values, Honest;
      assert ScoreAll(f, query, ms) == all + [Score(f, query, ms[n])];
      assert (all + [Score(f, query, ms[n])])[..n] == all;
      assert ms == ms[..n] + [ms[n]];
    }
  }

  function MemoryOf(s: Scored): Memory {
    s.memory
  }

  lemma MemoriesIsMap(all: seq<Scored>)
    ensures Memories(all) == Map(MemoryOf, all)
  {
    forall i | 0 <= i < |all| ensures Memories(all)[i] == Map(MemoryOf, all)[i] {
      MapAt(MemoryOf, all, i);
    }
  }

  lemma {:induction false} SimilarMemories(f: Floats, query: seq<Word>, all: seq<Scored>, x: real)
    requires IsRoot(f.sqrt) && AllHonest(f, query, all)
    ensures Filter(SimilarBy(f, query, x), Map(MemoryOf, all)) == Map(MemoryOf, Filter(Scoring(x), all))
  {
    if all != [] {
      var first, rest := all[0], all[1..];
      SimilarMemories(f, query, rest, x);
      assert Honest(f, query, first);
      assert SimilarBy(f, query, x)(first.memory) <==> Scoring(x)(first);
      assert Map(MemoryOf, all) == [first.memory] + Map(MemoryOf, rest);
      var p, q := SimilarBy(f, query, x), Scoring(x);
      assert all == [first] + rest;
      hide SimilarBy, Scoring, Honest, Cos, Values, Filter;
      FilterMapCons(p, q, MemoryOf, first, rest);
    }
  }

  lemma TopKRecalls(f: Floats, query: seq<Word>, ms: seq<Memory>, k: int)
    requires IsRoot(f.sqrt)
    ensures Recalls(f, query, ms, k, TopK(f, query, ms, k))
  {
    var all := ScoreAll(f, query, ms);
    var ranked := Ranked(query, all);
    ScoresAreHonest(f, query, ms);
    SortPermutes((a: Scored, b: Scored) => Better(a, b), all);
    CutMemories(ranked, k);
    if query != [] {
      RankingIsBySimilarity(f, query, ms);
      hide BySimilarity, Cos, Values, ScoreAll, Ranked;
      assert Memories(Cut(ranked, k)) <= Memories(ranked);
    }
  }

  lemma CutMemories(all: seq<Scored>, k: int)
    ensures Memories(Cut(all, k)) <= Memories(all)
  {}

  lemma RankingIsBySimilarity(f: Floats, query: seq<Word>, ms: seq<Memory>)
    requires IsRoot(f.sqrt) && query != []
    ensures BySimilarity(f, query, ms, Memories(Ranked(query, ScoreAll(f, query, ms))))
  {
    var all := ScoreAll(f, query, ms);
    var ranked := Ranked(query, all);
    ScoresAreHonest(f, query, ms);
    RankingIsBest(f, query, ms, 0);
    hide ScoreAll, Ranked, Cos, Values, Score, Filter, Map, Memories, Cut, SimilarBy, Scoring, AllHonest;
    StaysHonest(f, query, all, ranked);
    MemoriesIsMap(all);
    MemoriesIsMap(ranked);
    MapPermutes(MemoryOf, all, ranked);
    forall x: real ensures Filter(SimilarBy(f, query, x), Memories(ranked)) == Filter(SimilarBy(f, query, x), ms) {
      SimilarMemories(f, query, all, x);
      SimilarMemories(f, query, ranked, x);
    }
    FallingSimilarity(f, query, ranked);
  }

  lemma FallingSimilarity(f: Floats, query: seq<Word>, ranked: seq<Scored>)
    requires IsRoot(f.sqrt) && AllHonest(f, query, ranked)
    requires forall i, j :: 0 <= i < j < |ranked| ==> ranked[j].score <= ranked[i].score
    ensures var out := Memories(ranked);
      forall i, j :: 0 <= i < j < |out| ==>
        Cos(f.sqrt, Values(f, query), Values(f, out[j].embedding)) <= Cos(f.sqrt, Values(f, query), Values(f, out[i].embedding))
  {
    hide Cos, Values;
    forall i | 0 <= i < |ranked|
      ensures Cos(f.sqrt, Values(f, query), Values(f, Memories(ranked)[i].embedding)) == ranked[i].score {
      assert Honest(f, query, ranked[i]);
    }
  }

  lemma StaysHonest(f: Floats, query: seq<Word>, all: seq<Scored>, ranked: seq<Scored>)
    requires IsRoot(f.sqrt) && AllHonest(f, query, all) && multiset(all) == multiset(ranked)
    ensures AllHonest(f, query, ranked)
  {
    hide Honest;
    forall i | 0 <= i < |ranked| ensures Honest(f, query, ranked[i]) {
      assert ranked[i] in multiset(ranked) && ranked[i] in multiset(all);
      var j :| 0 <= j < |all| && all[j] == ranked[i];
    }
  }

  /** The memory that a readable row stands for. */
  function Original(cipher: Option<Cipher>): MemoryRow -> Memory {
    (r: MemoryRow) => Memory(r.id, if r.sessionId.Some? then r.sessionId.value else "", r.kind,
                             if Dec(cipher, r.text).Ok? then Dec(cipher, r.text).value else "", Decoded(r.blob))
  }

  function Wanted(sessionId: string): Memory -> bool {
    (m: Memory) => sessionId == "" || m.sessionId == sessionId
  }

  lemma {:induction false} FilteredOriginals(cipher: Option<Cipher>, sessionId: string, rows: seq<MemoryRow>, ms: seq<Memory>)
    requires |rows| == |ms| && forall i :: 0 <= i < |rows| ==> StandsFor(cipher, rows[i], ms[i])
    ensures Map(Original(cipher), Filter(AskedFor(sessionId), rows)) == Filter(Wanted(sessionId), ms)
  {
    hide Decoded, Dec;
    if rows != [] {
      FilteredOriginals(cipher, sessionId, rows[1..], ms[1..]);
      assert StandsFor(cipher, rows[0], ms[0]);
      SavedIsOriginal(cipher, rows[0], ms[0]);
      assert AskedFor(sessionId)(rows[0]) <==> Wanted(sessionId)(ms[0]);
      hide AskedFor, Wanted, Original, StandsFor;
      var rest := Filter(AskedFor(sessionId), rows[1..]);
      if AskedFor(sessionId)(rows[0]) {
        assert Filter(AskedFor(sessionId), rows) == [rows[0]] + rest;
        assert ([rows[0]] + rest)[1..] == rest;
      } else {
        assert Filter(AskedFor(sessionId), rows) == rest;
      }
    }
  }

  /**
   Whatever order the query retrieves equally new rows in: what is ranked is an arrangement of exactly the
   memories that were saved for the session, with the embeddings and texts they were saved with.
   */
  lemma RecallSeesWhatWasSaved(cipher: Option<Cipher>, rows: seq<MemoryRow>, saved: seq<Memory>, sessionId: string, found: seq<MemoryRow>)
    requires |rows| == |saved| && forall i :: 0 <= i < |rows| ==> StandsFor(cipher, rows[i], saved[i])
    requires Retrieves(rows, sessionId, found)
    ensures ReadAll(cipher, sessionId, found) == Ok(Shown(sessionId, Map(Original(cipher), found)))
    ensures multiset(Map(Original(cipher), found)) == multiset(Filter(Wanted(sessionId), saved))
    ensures forall m :: m in Filter(Wanted(sessionId), saved) <==> m in saved && (sessionId == "" || m.sessionId == sessionId)
  {
    var own := Filter(AskedFor(sessionId), rows);
    FilteredOriginals(cipher, sessionId, rows, saved);
    MapPermutes(Original(cipher), found, own);
    hide Original, AskedFor;
    forall i | 0 <= i < |found| ensures StandsFor(cipher, found[i], Map(Original(cipher), found)[i]) {
      assert found[i] in multiset(own);
      assert found[i] in rows;
      var j :| 0 <= j < |rows| && rows[j] == found[i];
      SavedIsOriginal(cipher, rows[j], saved[j]);
      MapAt(Original(cipher), found, i);
    }
    hide StandsFor;
    SavedIsRead(cipher, sessionId, found, Map(Original(cipher), found));
  }

  lemma SavedIsOriginal(cipher: Option<Cipher>, r: MemoryRow, m: Memory)
    requires StandsFor(cipher, r, m)
    ensures m == Original(cipher)(r)
  {}

  function Scoring(x: real): Scored -> bool {
    (s: Scored) => s.score == x
  }

  lemma BetterOrder()
    ensures StrictWeakOrder((a: Scored, b: Scored) => Better(a, b))
  {}

  /**
   The ranking is a permutation of all scored memories in falling order, in which equal scores keep the
   order of retrieval; so whatever a cut drops scores no more than what it keeps.
   */
  lemma RankingIsBest(f: Floats, query: seq<Word>, ms: seq<Memory>, k: int)
    requires IsRoot(f.sqrt) && query != []
    ensures var all := ScoreAll(f, query, ms);
      var ranked := Ranked(query, all);
      && multiset(ranked) == multiset(all)
      && (forall i, j :: 0 <= i < |Cut(ranked, k)| <= j < |ranked| ==> ranked[j].score <= ranked[i].score)
      && (forall i, j :: 0 <= i < j < |ranked| ==> ranked[j].score <= ranked[i].score)
      && (forall x: real :: Filter(Scoring(x), ranked) == Filter(Scoring(x), all))
  {
    hide Score, ScoreAll;
    var all := ScoreAll(f, query, ms);
    var less := (a: Scored, b: Scored) => Better(a, b);
    BetterOrder();
    SortPermutes(less, all);
    SortSorts(less, all);
    forall x: real ensures Filter(Scoring(x), Ranked(query, all)) == Filter(Scoring(x), all) {
      SortStable(less, Scoring(x), all);
    }
    forall i, j | 0 <= i < j < |Ranked(query, all)| ensures Ranked(query, all)[j].score <= Ranked(query, all)[i].score {
      assert !less(Ranked(query, all)[j], Ranked(query, all)[i]);
    }
  }
}
