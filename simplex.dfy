/**
  `project_to_simplex`: the Euclidean projection of a weight vector onto the
  probability simplex by the sort / prefix-sum / threshold method of Duchi,
  Shalev-Shwartz, Singer and Chandra (2008).  The vector is sorted in
  descending order, its running totals are taken, the largest index `rho`
  passing the threshold test fixes `theta`, and the result is
  `max(w[i] - theta, 0)` in the original index order.
 */
module Simplex {
  import opened Results
  import opened Linalg

  /** The two `ValueError`s the projection can raise. */
  datatype ProjError = EmptyInput | NoValidProjection

  /** Non-negative entries summing to 1: a long-only, fully invested weight vector. */
  predicate OnSimplex(w: seq<real>)
  {
    (forall i :: 0 <= i < |w| ==> w[i] >= 0.0) && Sum(w) == 1.0
  }

  /** `np.ones(n) / n`: the equal-weight portfolio. */
  function Uniform(n: nat): (r: seq<real>)
    ensures |r| == n
  {
    seq(n, i requires 0 <= i < n => 1.0 / n as real)
  }

  predicate SortedDesc(u: seq<real>)
  {
    forall i, j :: 0 <= i <= j < |u| ==> u[i] >= u[j]
  }

  /** Inserts `x` in front of the first entry it is at least as large as. */
  function Insert(x: real, s: seq<real>): (r: seq<real>)
    ensures |r| == |s| + 1
  {
    if |s| == 0 || x >= s[0] then [x] + s
    else [s[0]] + Insert(x, s[1..])
  }

  /** `np.sort(w)[::-1]`: the entries of `w` in descending order (see SortDescSorted). */
  function SortDesc(w: seq<real>): (u: seq<real>)
    ensures |u| == |w|
  {
    if |w| == 0 then [] else Insert(w[0], SortDesc(w[1..]))
  }

  lemma {:induction false} InsertAddsOne(x: real, s: seq<real>)
    ensures multiset(Insert(x, s)) == multiset(s) + multiset{x}
  {
    if |s| > 0 && x < s[0] {
      InsertAddsOne(x, s[1..]);
      assert s == [s[0]] + s[1..];
    }
  }

  /** The sort only reorders: it returns the same entries with the same multiplicities. */
  lemma {:induction false} SortDescPermutes(w: seq<real>)
    ensures multiset(SortDesc(w)) == multiset(w)
  {
    if |w| > 0 {
      SortDescPermutes(w[1..]);
      InsertAddsOne(w[0], SortDesc(w[1..]));
      assert w == [w[0]] + w[1..];
    }
  }

  /** Putting an entry no smaller than the head in front keeps a sequence descending. */
  lemma ConsSorted(a: real, t: seq<real>)
    requires SortedDesc(t) && (|t| > 0 ==> a >= t[0])
    ensures SortedDesc([a] + t)
  {
  }

  /** Inserting into a descending sequence keeps it descending, and the head becomes the larger of `x` and the old head. */
  lemma {:induction false} InsertSorted(x: real, s: seq<real>)
    requires SortedDesc(s)
    ensures SortedDesc(Insert(x, s))
    ensures Insert(x, s)[0] == if |s| == 0 then x else Max(x, s[0])
  {
    if |s| == 0 || x >= s[0] {
      ConsSorted(x, s);
    } else {
      InsertSorted(x, s[1..]);
      ConsSorted(s[0], Insert(x, s[1..]));
    }
  }

  /** The sort is descending. */
  lemma {:induction false} SortDescSorted(w: seq<real>)
    ensures SortedDesc(SortDesc(w))
  {
    if |w| > 0 {
      SortDescSorted(w[1..]);
      InsertSorted(w[0], SortDesc(w[1..]));
    }
  }

  /** `np.cumsum`: entry k is the total of the first k + 1 entries. */
  function CumSum(u: seq<real>): (c: seq<real>)
    ensures |c| == |u|
  {
    seq(|u|, k requires 0 <= k < |u| => Sum(u[..k + 1]))
  }

  /** Each running total adds one entry to the previous one, starting from u[0]. */
  lemma CumSumStep(u: seq<real>, k: nat)
    requires k < |u|
    ensures CumSum(u)[k] == (if k == 0 then 0.0 else CumSum(u)[k - 1]) + u[k]
  {
    if k == 0 {
      assert u[..1] == [u[0]];
      assert Sum([u[0]]) == u[0] + Sum([]);
    } else {
      assert u[..k + 1] == u[..k] + [u[k]];
      SumConcat(u[..k], [u[k]]);
    }
  }

  /**
    n · x, written as n-fold addition so that the test below stays linear
    for the solver (MultipleIsProduct relates it to the product).
   */
  function Multiple(n: nat, x: real): real
  {
    if n == 0 then 0.0 else Multiple(n - 1, x) + x
  }

  lemma {:induction false} MultipleIsProduct(n: nat, x: real)
    ensures Multiple(n, x) == n as real * x
  {
    if n > 0 {
      MultipleIsProduct(n - 1, x);
      assert n as real * x == (n - 1) as real * x + x;
    }
  }

  /** The test of the algorithm, elementwise: (k + 1) · u[k] > cssv[k] − 1. */
  function Passes(u: seq<real>, cssv: seq<real>): (m: seq<bool>)
    requires |u| == |cssv|
    ensures |m| == |u|
  {
    seq(|u|, k requires 0 <= k < |u| => Multiple(k + 1, u[k]) > cssv[k] - 1.0)
  }

  /** `np.nonzero` of a boolean vector: the indices of its true entries. */
  function Nonzero(m: seq<bool>): (nz: seq<nat>)
    ensures forall i :: 0 <= i < |nz| ==> nz[i] < |m| && m[nz[i]]
    ensures forall k :: 0 <= k < |m| && m[k] ==> k in nz
    ensures forall i, j :: 0 <= i < j < |nz| ==> nz[i] < nz[j]
  {
    if |m| == 0 then []
    else
      var p := m[..|m| - 1];
      assert forall k :: 0 <= k < |p| ==> p[k] == m[k];
      Nonzero(p) + (if m[|m| - 1] then [|m| - 1] else [])
  }

  /** The last index numpy `nonzero` reports is the last true entry. */
  lemma LastNonzero(m: seq<bool>)
    requires |Nonzero(m)| > 0
    ensures var nz := Nonzero(m); m[nz[|nz| - 1]]
    ensures var nz := Nonzero(m); forall k :: nz[|nz| - 1] < k < |m| ==> !m[k]
  {
    var nz := Nonzero(m);
    assert forall i :: 0 <= i < |nz| ==> nz[i] <= nz[|nz| - 1];
  }

  /** The indices passing the test, for the descending sort of `w`. */
  function PassingIndices(w: seq<real>): seq<nat>
  {
    var u := SortDesc(w);
    Nonzero(Passes(u, CumSum(u)))
  }

  /** theta = (cssv[rho] − 1) / (rho + 1), where rho is the last passing index. */
  function Threshold(w: seq<real>): (r: Result<real, ProjError>)
    ensures |w| == 0 ==> r == Err(EmptyInput)
  {
    if |w| == 0 then Err(EmptyInput)
    else
      var u := SortDesc(w);
      var cssv := CumSum(u);
      var nz := PassingIndices(w);
      if |nz| == 0 then Err(NoValidProjection)
      else
        var rho := nz[|nz| - 1];
        Ok((cssv[rho] - 1.0) / (rho as real + 1.0))
  }

  /** `np.maximum(w - theta, 0.0)`. */
  function Clip(w: seq<real>, theta: real): (r: seq<real>)
    ensures |r| == |w|
    ensures forall i :: 0 <= i < |w| ==> r[i] >= 0.0 && r[i] >= w[i] - theta
  {
    seq(|w|, i requires 0 <= i < |w| => Max(w[i] - theta, 0.0))
  }

  /** `project_to_simplex`. */
  function ProjectToSimplex(w: seq<real>): (r: Result<seq<real>, ProjError>)
    ensures |w| == 0 ==> r == Err(EmptyInput)
    ensures r.Ok? ==> |r.value| == |w| && forall i :: 0 <= i < |w| ==> r.value[i] >= 0.0
  {
    match Threshold(w)
    case Err(e) => Err(e)
    case Ok(theta) => Ok(Clip(w, theta))
  }

  // ---------------------------------------------------------------------
  // Where the sorted entries stand relative to theta

  /** An entry passing the test lies above the threshold it defines. */
  lemma PassingAboveTheta(x: real, c: real, rho: nat, theta: real)
    requires Multiple(rho + 1, x) > c - 1.0
    requires theta == (c - 1.0) / (rho as real + 1.0)
    ensures x > theta
  {
    MultipleIsProduct(rho + 1, x);
    var r := (rho + 1) as real;
    assert r * x > c - 1.0;
    assert r == rho as real + 1.0;
    assert theta * r == c - 1.0;
    if x <= theta {
      MulLeq(x, theta, r);
    }
  }

  /** The entry after rho, failing the test, lies at or below rho's threshold. */
  lemma FailingNextBelowTheta(y: real, c: real, rho: nat, theta: real)
    requires Multiple(rho + 1 + 1, y) <= (c + y) - 1.0
    requires theta == (c - 1.0) / (rho as real + 1.0)
    ensures y <= theta
  {
    assert Multiple(rho + 1 + 1, y) == Multiple(rho + 1, y) + y;
    MultipleIsProduct(rho + 1, y);
    var r := (rho + 1) as real;
    assert r * y <= c - 1.0;
    assert r == rho as real + 1.0;
    assert theta * r == c - 1.0;
    if y > theta {
      MulLess(theta, y, r);
    }
  }

  /** Multiplying by a positive factor keeps a non-strict order. */
  lemma MulLeq(a: real, b: real, r: real)
    requires a <= b && r > 0.0
    ensures r * a <= r * b
  {
  }

  /** Multiplying by a positive factor keeps a strict order. */
  lemma MulLess(a: real, b: real, r: real)
    requires a < b && r > 0.0
    ensures r * a < r * b
  {
  }

  /**
    Index 0 always passes the test, so a non-empty vector has a passing
    index and the "no valid projection" error cannot be raised.
   */
  lemma ZeroPasses(w: seq<real>)
    requires |w| > 0
    ensures 0 in PassingIndices(w)
    ensures |PassingIndices(w)| > 0
  {
    var u := SortDesc(w);
    CumSumStep(u, 0);
    assert Multiple(1, u[0]) == u[0];
    assert Passes(u, CumSum(u))[0];
  }

  /** The projection fails exactly on the empty vector. */
  lemma ProjectionSucceeds(w: seq<real>)
    ensures ProjectToSimplex(w).Ok? <==> |w| > 0
    ensures ProjectToSimplex(w).Err? ==> ProjectToSimplex(w).error == EmptyInput
  {
    if |w| > 0 {
      ZeroPasses(w);
    }
  }

  /**
    In a descending sequence, if index rho passes the test and index rho + 1
    fails it, exactly the entries up to rho exceed theta.
   */
  lemma ThresholdSplitsSorted(u: seq<real>, rho: nat, theta: real)
    requires SortedDesc(u) && rho < |u|
    requires Passes(u, CumSum(u))[rho]
    requires rho + 1 < |u| ==> !Passes(u, CumSum(u))[rho + 1]
    requires theta == (CumSum(u)[rho] - 1.0) / (rho as real + 1.0)
    ensures forall k :: 0 <= k < |u| ==> (u[k] > theta <==> k <= rho)
  {
    var cssv := CumSum(u);
    PassingAboveTheta(u[rho], cssv[rho], rho, theta);
    if rho + 1 < |u| {
      CumSumStep(u, rho + 1);
      FailingNextBelowTheta(u[rho + 1], cssv[rho], rho, theta);
    }
  }

  /** The threshold makes the top rho + 1 running total, less rho + 1 times theta, exactly 1. */
  lemma ThetaLeavesOne(c: real, rho: nat, theta: real)
    requires theta == (c - 1.0) / (rho as real + 1.0)
    ensures c - (rho + 1) as real * theta == 1.0
  {
    assert (rho + 1) as real == rho as real + 1.0;
  }

  /**
    Exactly the top rho + 1 sorted entries exceed theta, where rho is the
    last index passing the test and theta the threshold it defines.
   */
  lemma TopEntriesExceedTheta(w: seq<real>) returns (rho: nat, theta: real)
    requires |w| > 0
    ensures |PassingIndices(w)| > 0 && rho == PassingIndices(w)[|PassingIndices(w)| - 1]
    ensures rho < |w| && Threshold(w) == Ok(theta)
    ensures CumSum(SortDesc(w))[rho] - (rho + 1) as real * theta == 1.0
    ensures forall k :: 0 <= k < |w| ==> (SortDesc(w)[k] > theta <==> k <= rho)
  {
    rho, theta := ThresholdParts(w);
    var u := SortDesc(w);
    SortDescSorted(w);
    ThresholdSplitsSorted(u, rho, theta);
    ThetaLeavesOne(CumSum(u)[rho], rho, theta);
  }

  /** rho is the last passing index, the one after it fails, and theta is the threshold rho defines. */
  lemma ThresholdParts(w: seq<real>) returns (rho: nat, theta: real)
    requires |w| > 0
    ensures |PassingIndices(w)| > 0 && rho == PassingIndices(w)[|PassingIndices(w)| - 1]
    ensures rho < |w| && Threshold(w) == Ok(theta)
    ensures Passes(SortDesc(w), CumSum(SortDesc(w)))[rho]
    ensures rho + 1 < |w| ==> !Passes(SortDesc(w), CumSum(SortDesc(w)))[rho + 1]
    ensures theta == (CumSum(SortDesc(w))[rho] - 1.0) / (rho as real + 1.0)
  {
    ZeroPasses(w);
    var u := SortDesc(w);
    var cssv := CumSum(u);
    var m := Passes(u, cssv);
    var nz := Nonzero(m);
    assert nz == PassingIndices(w);
    rho := nz[|nz| - 1];
    theta := (cssv[rho] - 1.0) / (rho as real + 1.0);
    assert Threshold(w) == Ok(theta);
    LastNonzero(m);
  }

  // ---------------------------------------------------------------------
  // The clipped sum

  lemma ClipTail(w: seq<real>, theta: real)
    requires |w| > 0
    ensures Clip(w, theta)[1..] == Clip(w[1..], theta)
  {
  }

  lemma ClipSumCons(w: seq<real>, theta: real)
    requires |w| > 0
    ensures Sum(Clip(w, theta)) == Max(w[0] - theta, 0.0) + Sum(Clip(w[1..], theta))
  {
    ClipTail(w, theta);
  }

  /** Inserting x adds its clipped value to the clipped sum. */
  lemma {:induction false} ClipSumInsert(x: real, s: seq<real>, theta: real)
    ensures Sum(Clip(Insert(x, s), theta)) == Max(x - theta, 0.0) + Sum(Clip(s, theta))
  {
    var r := Insert(x, s);
    if |s| > 0 && x < s[0] {
      assert r[1..] == Insert(x, s[1..]);
      ClipSumCons(r, theta);
      ClipSumCons(s, theta);
      ClipSumInsert(x, s[1..], theta);
    } else {
      assert r[1..] == s;
      ClipSumCons(r, theta);
    }
  }

  /** Sorting does not change the clipped sum. */
  lemma {:induction false} ClipSumSort(w: seq<real>, theta: real)
    ensures Sum(Clip(SortDesc(w), theta)) == Sum(Clip(w, theta))
  {
    if |w| > 0 {
      var rest := SortDesc(w[1..]);
      assert SortDesc(w) == Insert(w[0], rest);
      ClipSumInsert(w[0], rest, theta);
      ClipSumSort(w[1..], theta);
      ClipSumCons(w, theta);
    }
  }

  lemma ScaleStep(p: nat, t: real)
    requires p > 0
    ensures p as real * t == (p - 1) as real * t + t
  {
  }

  /** When exactly the first p entries exceed theta, the clipped sum is their sum less p·theta. */
  lemma {:induction false} ClipSumSplit(u: seq<real>, theta: real, p: nat)
    requires p <= |u|
    requires forall k :: 0 <= k < |u| ==> (u[k] > theta <==> k < p)
    ensures Sum(Clip(u, theta)) == Sum(u[..p]) - p as real * theta
  {
    if |u| > 0 {
      var q := if p > 0 then p - 1 else 0;
      var t := u[1..];
      forall k | 0 <= k < |t|
        ensures t[k] > theta <==> k < q
      {
        assert t[k] == u[k + 1];
      }
      ClipSumSplit(t, theta, q);
      ClipSumCons(u, theta);
      if p > 0 {
        assert u[..p][1..] == t[..q];
        ScaleStep(p, theta);
      }
    }
  }

  /** Raising the threshold never raises the clipped sum. */
  lemma {:induction false} ClipSumMonotone(w: seq<real>, a: real, b: real)
    requires a <= b
    ensures Sum(Clip(w, b)) <= Sum(Clip(w, a))
  {
    if |w| > 0 {
      ClipTail(w, a);
      ClipTail(w, b);
      ClipSumMonotone(w[1..], a, b);
    }
  }

  /** Raising the threshold strictly lowers the clipped sum while some entry is above the lower one. */
  lemma {:induction false} ClipSumStrictlyDecreasing(w: seq<real>, a: real, b: real, i: nat)
    requires a < b && i < |w| && w[i] > a
    ensures Sum(Clip(w, b)) < Sum(Clip(w, a))
  {
    ClipTail(w, a);
    ClipTail(w, b);
    if i == 0 {
      ClipSumMonotone(w[1..], a, b);
    } else {
      ClipSumStrictlyDecreasing(w[1..], a, b, i - 1);
    }
  }

  // ---------------------------------------------------------------------
  // The contract of the projection

  /** With the top rho + 1 entries of a reordering of w above theta, and theta chosen to leave 1, the clipped sum of w is 1. */
  lemma ClipSumIsOne(w: seq<real>, u: seq<real>, theta: real, rho: nat)
    requires rho < |u|
    requires Sum(Clip(u, theta)) == Sum(Clip(w, theta))
    requires forall k :: 0 <= k < |u| ==> (u[k] > theta <==> k <= rho)
    requires CumSum(u)[rho] - (rho + 1) as real * theta == 1.0
    ensures Sum(Clip(w, theta)) == 1.0
  {
    ClipSumSplit(u, theta, rho + 1);
  }

  /**
    For a non-empty input the projection succeeds, returns
    `max(w[i] - theta, 0)` in the original order, and lands on the simplex.
   */
  lemma ProjectionOnSimplex(w: seq<real>)
    requires |w| > 0
    ensures Threshold(w).Ok?
    ensures ProjectToSimplex(w) == Ok(Clip(w, Threshold(w).value))
    ensures OnSimplex(ProjectToSimplex(w).value)
  {
    var rho, theta := TopEntriesExceedTheta(w);
    ClipSumSort(w, theta);
    ClipSumIsOne(w, SortDesc(w), theta, rho);
  }

  lemma {:induction false} SumPositiveHasPositive(s: seq<real>) returns (i: nat)
    requires Sum(s) > 0.0
    ensures i < |s| && s[i] > 0.0
  {
    if s[0] > 0.0 {
      i := 0;
    } else {
      var j := SumPositiveHasPositive(s[1..]);
      i := j + 1;
    }
  }

  lemma ClipAtZero(w: seq<real>)
    requires forall i :: 0 <= i < |w| ==> w[i] >= 0.0
    ensures Clip(w, 0.0) == w
  {
  }

  /** A vector already on the simplex is its own projection (theta = 0). */
  lemma ProjectionIdempotent(w: seq<real>)
    requires OnSimplex(w)
    ensures ProjectToSimplex(w) == Ok(w)
  {
    var i := SumPositiveHasPositive(w);
    ProjectionOnSimplex(w);
    var theta := Threshold(w).value;
    ClipAtZero(w);
    if theta > 0.0 {
      ClipSumStrictlyDecreasing(w, 0.0, theta, i);
    } else if theta < 0.0 {
      ClipSumStrictlyDecreasing(w, theta, 0.0, 0);
    }
  }

  lemma {:induction false} SumConstant(s: seq<real>, v: real)
    requires forall i :: 0 <= i < |s| ==> s[i] == v
    ensures Sum(s) == |s| as real * v
  {
    if |s| > 0 {
      SumConstant(s[1..], v);
    }
  }

  /** The equal-weight portfolio is on the simplex. */
  lemma UniformOnSimplex(n: nat)
    requires n > 0
    ensures OnSimplex(Uniform(n))
  {
    SumConstant(Uniform(n), 1.0 / n as real);
  }

  /** The only constant vector on the simplex is the equal-weight portfolio. */
  lemma ConstantOnSimplexIsUniform(r: seq<real>)
    requires |r| > 0 && OnSimplex(r)
    requires forall i :: 0 <= i < |r| ==> r[i] == r[0]
    ensures r == Uniform(|r|)
  {
    SumConstant(r, r[0]);
    assert |r| as real * r[0] == 1.0;
    assert r[0] == 1.0 / |r| as real;
  }

  /** A vector whose entries are all equal projects to the equal-weight portfolio. */
  lemma AllEqualToUniform(w: seq<real>)
    requires |w| > 0
    requires forall i :: 0 <= i < |w| ==> w[i] == w[0]
    ensures ProjectToSimplex(w) == Ok(Uniform(|w|))
  {
    ProjectionOnSimplex(w);
    var r := ProjectToSimplex(w).value;
    assert r == Clip(w, Threshold(w).value);
    ConstantOnSimplexIsUniform(r);
  }

  /** The projection keeps the order of the weights: a larger input weight never gets a smaller output weight. */
  lemma ProjectionKeepsOrder(w: seq<real>, i: nat, j: nat)
    requires i < |w| && j < |w| && w[i] >= w[j]
    ensures ProjectToSimplex(w).Ok? && ProjectToSimplex(w).value[i] >= ProjectToSimplex(w).value[j]
  {
    ProjectionOnSimplex(w);
  }
}
