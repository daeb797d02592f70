/**
  Exact (real-valued) vector and matrix arithmetic used by the portfolio code:
  the numpy operations `sum`, `dot`, `@`, elementwise `+`, `-` and scaling.
  A matrix is a sequence of rows.
 */
module Linalg {

  /** Sum of the entries, left to right. */
  function Sum(s: seq<real>): real
  {
    if |s| == 0 then 0.0 else s[0] + Sum(s[1..])
  }

  lemma {:induction false} SumConcat(a: seq<real>, b: seq<real>)
    ensures Sum(a + b) == Sum(a) + Sum(b)
  {
    if |a| == 0 {
      assert a + b == b;
    } else {
      assert (a + b)[1..] == a[1..] + b;
      SumConcat(a[1..], b);
    }
  }

  /** A sum of non-negative entries is non-negative. */
  lemma {:induction false} SumNonNegative(s: seq<real>)
    requires forall i :: 0 <= i < |s| ==> s[i] >= 0.0
    ensures Sum(s) >= 0.0
  {
    if |s| > 0 {
      SumNonNegative(s[1..]);
    }
  }

  function Max(a: real, b: real): real
  {
    if a >= b then a else b
  }

  function Dot(a: seq<real>, b: seq<real>): real
    requires |a| == |b|
  {
    if |a| == 0 then 0.0 else a[0] * b[0] + Dot(a[1..], b[1..])
  }

  function Add(a: seq<real>, b: seq<real>): (r: seq<real>)
    requires |a| == |b|
    ensures |r| == |a|
  {
    seq(|a|, i requires 0 <= i < |a| => a[i] + b[i])
  }

  function Sub(a: seq<real>, b: seq<real>): (r: seq<real>)
    requires |a| == |b|
    ensures |r| == |a|
  {
    seq(|a|, i requires 0 <= i < |a| => a[i] - b[i])
  }

  function Scale(c: real, a: seq<real>): (r: seq<real>)
    ensures |r| == |a|
  {
    seq(|a|, i requires 0 <= i < |a| => c * a[i])
  }

  /** Every entry of `a` divided by `d`. */
  function Divide(a: seq<real>, d: real): (r: seq<real>)
    requires d != 0.0
    ensures |r| == |a|
  {
    seq(|a|, i requires 0 <= i < |a| => a[i] / d)
  }

  function Zeros(n: nat): (r: seq<real>)
    ensures |r| == n
  {
    seq(n, i => 0.0)
  }

  lemma {:induction false} DotComm(a: seq<real>, b: seq<real>)
    requires |a| == |b|
    ensures Dot(a, b) == Dot(b, a)
  {
    if |a| > 0 {
      DotComm(a[1..], b[1..]);
    }
  }

  lemma {:induction false} DotAddLeft(u: seq<real>, v: seq<real>, w: seq<real>)
    requires |u| == |v| == |w|
    ensures Dot(Add(u, v), w) == Dot(u, w) + Dot(v, w)
  {
    if |u| > 0 {
      assert Add(u, v)[1..] == Add(u[1..], v[1..]);
      DotAddLeft(u[1..], v[1..], w[1..]);
    }
  }

  lemma DotAddRight(w: seq<real>, u: seq<real>, v: seq<real>)
    requires |u| == |v| == |w|
    ensures Dot(w, Add(u, v)) == Dot(w, u) + Dot(w, v)
  {
    DotComm(w, Add(u, v));
    DotAddLeft(u, v, w);
    DotComm(u, w);
    DotComm(v, w);
  }

  lemma {:induction false} DotSubRight(w: seq<real>, u: seq<real>, v: seq<real>)
    requires |u| == |v| == |w|
    ensures Dot(w, Sub(u, v)) == Dot(w, u) - Dot(w, v)
  {
    if |u| > 0 {
      assert Sub(u, v)[1..] == Sub(u[1..], v[1..]);
      DotSubRight(w[1..], u[1..], v[1..]);
      calc {
        Dot(w, Sub(u, v));
        w[0] * (u[0] - v[0]) + Dot(w[1..], Sub(u[1..], v[1..]));
        (w[0] * u[0] + Dot(w[1..], u[1..])) - (w[0] * v[0] + Dot(w[1..], v[1..]));
      }
    }
  }

  lemma DotSubLeft(u: seq<real>, v: seq<real>, w: seq<real>)
    requires |u| == |v| == |w|
    ensures Dot(Sub(u, v), w) == Dot(u, w) - Dot(v, w)
  {
    DotComm(Sub(u, v), w);
    DotSubRight(w, u, v);
    DotComm(u, w);
    DotComm(v, w);
  }

  lemma {:induction false} DotScaleLeft(c: real, a: seq<real>, b: seq<real>)
    requires |a| == |b|
    ensures Dot(Scale(c, a), b) == c * Dot(a, b)
  {
    if |a| > 0 {
      ScaleTail(c, a);
      DotScaleLeft(c, a[1..], b[1..]);
      calc {
        Dot(Scale(c, a), b);
        (c * a[0]) * b[0] + c * Dot(a[1..], b[1..]);
        c * (a[0] * b[0] + Dot(a[1..], b[1..]));
      }
    }
  }

  lemma ScaleTail(c: real, a: seq<real>)
    requires |a| > 0
    ensures Scale(c, a)[1..] == Scale(c, a[1..])
  {
    forall i | 0 <= i < |a| - 1
      ensures Scale(c, a)[1..][i] == Scale(c, a[1..])[i]
    {
    }
  }

  lemma {:induction false} DotScaleRight(w: seq<real>, c: real, v: seq<real>)
    requires |w| == |v|
    ensures Dot(w, Scale(c, v)) == c * Dot(w, v)
  {
    if |w| > 0 {
      ScaleTail(c, v);
      DotScaleRight(w[1..], c, v[1..]);
      var x := Dot(w[1..], v[1..]);
      calc {
        Dot(w, Scale(c, v));
        w[0] * (c * v[0]) + c * x;
        c * (w[0] * v[0] + x);
      }
    }
  }

  lemma {:induction false} DotZeros(w: seq<real>)
    ensures Dot(w, Zeros(|w|)) == 0.0
  {
    if |w| > 0 {
      assert Zeros(|w|)[1..] == Zeros(|w| - 1);
      DotZeros(w[1..]);
    }
  }

  /** Every row of `m` has `cols` entries. */
  predicate IsTable(m: seq<seq<real>>, cols: nat)
  {
    forall i :: 0 <= i < |m| ==> |m[i]| == cols
  }

  /** An n-by-n matrix. */
  predicate IsSquare(m: seq<seq<real>>, n: nat)
  {
    |m| == n && IsTable(m, n)
  }

  /** numpy `M @ v`. */
  function MatVec(m: seq<seq<real>>, v: seq<real>): (r: seq<real>)
    requires IsTable(m, |v|)
    ensures |r| == |m|
  {
    seq(|m|, i requires 0 <= i < |m| => Dot(m[i], v))
  }

  function MatAdd(a: seq<seq<real>>, b: seq<seq<real>>, n: nat): (r: seq<seq<real>>)
    requires IsSquare(a, n) && IsSquare(b, n)
    ensures IsSquare(r, n)
  {
    seq(n, i requires 0 <= i < n => Add(a[i], b[i]))
  }

  function MatScale(c: real, a: seq<seq<real>>, n: nat): (r: seq<seq<real>>)
    requires IsSquare(a, n)
    ensures IsSquare(r, n)
  {
    seq(n, i requires 0 <= i < n => Scale(c, a[i]))
  }

  function ZeroMatrix(n: nat): (r: seq<seq<real>>)
    ensures IsSquare(r, n)
  {
    seq(n, i => Zeros(n))
  }

  /** The matrix whose row i is a_i · d (the outer product a dᵀ). */
  function OuterWith(a: seq<real>, d: seq<real>): (r: seq<seq<real>>)
    ensures |r| == |a| && IsTable(r, |d|)
  {
    if |a| == 0 then [] else [Scale(a[0], d)] + OuterWith(a[1..], d)
  }

  /** The outer product d dᵀ. */
  function Outer(d: seq<real>): (r: seq<seq<real>>)
    ensures IsSquare(r, |d|)
  {
    OuterWith(d, d)
  }

  /** The quadratic form wᵀ M w, computed as (M w) · w. */
  function Quad(m: seq<seq<real>>, w: seq<real>): real
    requires IsSquare(m, |w|)
  {
    Dot(MatVec(m, w), w)
  }

  lemma QuadAdd(a: seq<seq<real>>, b: seq<seq<real>>, w: seq<real>)
    requires IsSquare(a, |w|) && IsSquare(b, |w|)
    ensures Quad(MatAdd(a, b, |w|), w) == Quad(a, w) + Quad(b, w)
  {
    var n := |w|;
    forall i | 0 <= i < n
      ensures MatVec(MatAdd(a, b, n), w)[i] == Add(MatVec(a, w), MatVec(b, w))[i]
    {
      DotAddLeft(a[i], b[i], w);
    }
    assert MatVec(MatAdd(a, b, n), w) == Add(MatVec(a, w), MatVec(b, w));
    DotAddLeft(MatVec(a, w), MatVec(b, w), w);
  }

  lemma QuadScale(c: real, a: seq<seq<real>>, w: seq<real>)
    requires IsSquare(a, |w|)
    ensures Quad(MatScale(c, a, |w|), w) == c * Quad(a, w)
  {
    var n := |w|;
    forall i | 0 <= i < n
      ensures MatVec(MatScale(c, a, n), w)[i] == Scale(c, MatVec(a, w))[i]
    {
      DotScaleLeft(c, a[i], w);
    }
    assert MatVec(MatScale(c, a, n), w) == Scale(c, MatVec(a, w));
    DotScaleLeft(c, MatVec(a, w), w);
  }

  lemma DivideStep(a: real, b: real, rest: real, d: real)
    requires d != 0.0
    ensures (a / d) * b + rest / d == (a * b + rest) / d
  {
  }

  lemma {:induction false} DotDivideLeft(a: seq<real>, b: seq<real>, d: real)
    requires |a| == |b| && d != 0.0
    ensures Dot(Divide(a, d), b) == Dot(a, b) / d
  {
    if |a| > 0 {
      assert Divide(a, d)[1..] == Divide(a[1..], d);
      DotDivideLeft(a[1..], b[1..], d);
      DivideStep(a[0], b[0], Dot(a[1..], b[1..]), d);
    }
  }

  /** Every entry of the square matrix `a` divided by `d`. */
  function MatDivide(a: seq<seq<real>>, d: real, n: nat): (r: seq<seq<real>>)
    requires IsSquare(a, n) && d != 0.0
    ensures IsSquare(r, n)
  {
    seq(n, i requires 0 <= i < n => Divide(a[i], d))
  }

  lemma QuadDivide(a: seq<seq<real>>, d: real, w: seq<real>)
    requires IsSquare(a, |w|) && d != 0.0
    ensures Quad(MatDivide(a, d, |w|), w) == Quad(a, w) / d
  {
    var n := |w|;
    forall i | 0 <= i < n
      ensures MatVec(MatDivide(a, d, n), w)[i] == Divide(MatVec(a, w), d)[i]
    {
      DotDivideLeft(a[i], w, d);
    }
    assert MatVec(MatDivide(a, d, n), w) == Divide(MatVec(a, w), d);
    DotDivideLeft(MatVec(a, w), w, d);
  }

  lemma MatVecTail(m: seq<seq<real>>, v: seq<real>)
    requires IsTable(m, |v|) && |m| > 0
    ensures MatVec(m, v)[1..] == MatVec(m[1..], v)
  {
  }

  /** uᵀ (a dᵀ) w = (a·u)(d·w), stated on the scalars b = a·u and c = d·w. */
  lemma {:induction false} RankOneForm(u: seq<real>, a: seq<real>, d: seq<real>, w: seq<real>, b: real, c: real)
    requires |u| == |a| && |d| == |w| && b == Dot(a, u) && c == Dot(d, w)
    ensures Dot(MatVec(OuterWith(a, d), w), u) == b * c
  {
    if |a| > 0 {
      var m := OuterWith(a, d);
      var mv := MatVec(m, w);
      assert m[1..] == OuterWith(a[1..], d);
      MatVecTail(m, w);
      RankOneForm(u[1..], a[1..], d, w, Dot(a[1..], u[1..]), c);
      assert mv[0] == Dot(Scale(a[0], d), w);
      DotScaleLeft(a[0], d, w);
      FactorRight(a[0], u[0], c, Dot(a[1..], u[1..]));
    }
  }

  lemma FactorRight(x: real, y: real, c: real, z: real)
    ensures (x * c) * y + z * c == (x * y + z) * c
  {
  }

  lemma QuadOfOuter(d: seq<real>, w: seq<real>)
    requires |d| == |w|
    ensures Quad(Outer(d), w) == Dot(MatVec(OuterWith(d, d), w), w)
  {
  }

  /** wᵀ (d dᵀ) w = c² where c = d·w. */
  lemma QuadOuter(d: seq<real>, w: seq<real>, c: real)
    requires |d| == |w| && c == Dot(d, w)
    ensures Quad(Outer(d), w) == c * c
  {
    QuadOfOuter(d, w);
    DotComm(d, w);
    RankOneForm(w, d, d, w, c, c);
  }

  lemma QuadZero(w: seq<real>)
    ensures Quad(ZeroMatrix(|w|), w) == 0.0
  {
    forall i | 0 <= i < |w|
      ensures MatVec(ZeroMatrix(|w|), w)[i] == 0.0
    {
      DotZeros(w);
      DotComm(w, Zeros(|w|));
    }
    assert MatVec(ZeroMatrix(|w|), w) == Zeros(|w|);
    DotZeros(w);
    DotComm(w, Zeros(|w|));
  }

  /** Column sums of a table with `cols` columns (numpy `sum(axis=0)`). */
  function VecSum(rows: seq<seq<real>>, cols: nat): (r: seq<real>)
    requires IsTable(rows, cols)
    ensures |r| == cols
  {
    if |rows| == 0 then Zeros(cols) else Add(rows[0], VecSum(rows[1..], cols))
  }

  /** Sum of the outer products of the rows, Σ_t d_t d_tᵀ. */
  function OuterSum(rows: seq<seq<real>>, cols: nat): (r: seq<seq<real>>)
    requires IsTable(rows, cols)
    ensures IsSquare(r, cols)
  {
    if |rows| == 0 then ZeroMatrix(cols) else MatAdd(Outer(rows[0]), OuterSum(rows[1..], cols), cols)
  }

  /** The series x_t·w, one entry per row x_t. */
  function RowDots(w: seq<real>, rows: seq<seq<real>>): (r: seq<real>)
    requires IsTable(rows, |w|)
    ensures |r| == |rows|
  {
    seq(|rows|, t requires 0 <= t < |rows| => Dot(rows[t], w))
  }

  function Squares(s: seq<real>): (r: seq<real>)
    ensures |r| == |s|
  {
    seq(|s|, t requires 0 <= t < |s| => s[t] * s[t])
  }

  /** (Σ_t x_t) · w = Σ_t (x_t · w): summing rows commutes with a dot product. */
  lemma {:induction false} DotVecSum(w: seq<real>, rows: seq<seq<real>>)
    requires IsTable(rows, |w|)
    ensures Dot(VecSum(rows, |w|), w) == Sum(RowDots(w, rows))
  {
    if |rows| == 0 {
      DotZeros(w);
      DotComm(w, Zeros(|w|));
    } else {
      assert RowDots(w, rows)[1..] == RowDots(w, rows[1..]);
      DotVecSum(w, rows[1..]);
      DotAddLeft(rows[0], VecSum(rows[1..], |w|), w);
    }
  }

  /** wᵀ (Σ_t d_t d_tᵀ) w = Σ_t (w · d_t)². */
  lemma {:induction false} QuadOuterSum(rows: seq<seq<real>>, w: seq<real>)
    requires IsTable(rows, |w|)
    ensures Quad(OuterSum(rows, |w|), w) == Sum(Squares(RowDots(w, rows)))
  {
    if |rows| == 0 {
      QuadZero(w);
    } else {
      var s := RowDots(w, rows);
      assert s[1..] == RowDots(w, rows[1..]);
      SumSquaresCons(s);
      QuadOuterSum(rows[1..], w);
      assert OuterSum(rows, |w|) == MatAdd(Outer(rows[0]), OuterSum(rows[1..], |w|), |w|);
      QuadAdd(Outer(rows[0]), OuterSum(rows[1..], |w|), w);
      QuadOuter(rows[0], w, s[0]);
    }
  }

  lemma {:induction false} SumSquaresCons(s: seq<real>)
    requires |s| > 0
    ensures Sum(Squares(s)) == s[0] * s[0] + Sum(Squares(s[1..]))
  {
    var q := Squares(s);
    forall t | 0 <= t < |s| - 1
      ensures q[1..][t] == Squares(s[1..])[t]
    {
      assert q[1..][t] == s[t + 1] * s[t + 1];
    }
    assert q[1..] == Squares(s[1..]);
  }

  /** A sum of squares is never negative. */
  lemma SumSquaresNonNegative(s: seq<real>)
    ensures Sum(Squares(s)) >= 0.0
  {
    SumNonNegative(Squares(s));
  }
}
