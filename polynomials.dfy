/**
 * Polynomials: coefficient views, Newton divided-difference
 * representations (`PolyDD`) built by native routines after length
 * checks, and the decoding of the root counts the native quadratic and
 * cubic solvers return.
 *
 * `poly_dd_hermite_init` as written passes `dd.len()` to the native
 * routine as the number of points; the routine expects the number of
 * points of `x` and then stores twice that many values into `dd` and `z`.
 * `HermiteSizeAsWritten` is that choice; `HermiteInit` uses the corrected
 * size `|x|` and checks the documented lengths of `dd` and `z`.
 */
module Polynomials {
  import N = Native
  import opened GslError

  /** A borrowed coefficient slice `c_0 .. c_{n-1}`. */
  datatype Poly = Poly(coeffs: seq<real>)
  {
    function Len(): nat
    {
      |coeffs|
    }

    function IsEmpty(): (e: bool)
      ensures e <==> Len() == 0
    {
      coeffs == []
    }
  }

  /** Divided differences `dd` over the abscissae `x`. */
  datatype PolyDD = PolyDD(dd: seq<real>, x: seq<real>)
  {
    function Len(): nat
    {
      |dd|
    }

    function IsEmpty(): (e: bool)
      ensures e <==> Len() == 0
    {
      dd == []
    }

    /** One abscissa per divided difference, as `New`, `Init` and the
        corrected `HermiteInit` produce. */
    predicate Valid()
    {
      |dd| == |x|
    }
  }

  /** `PolyDD::new`: panics unless `x` and `y` have the same length; the
      differences are computed into an owned copy of `x`, of which the
      native routine overwrites every entry; `x` itself is copied. */
  method New(x: seq<real>, y: seq<real>, status: N.CInt, ddOut: nat -> real)
    returns (r: N.Outcome<Result<PolyDD>>)
    ensures r.Panic? <==> |x| != |y|
    ensures r.Returned? ==> r.value == Handle(status, PolyDD(N.Written(|x|, ddOut), x))
    ensures r.Returned? && r.value.Ok? ==> r.value.value.Valid() && r.value.value.Len() == |x|
  {
    if |x| != |y| {
      return N.Panic;
    }
    var dd := new real[|x|](k requires 0 <= k < |x| => x[k]);
    N.Fill(dd, dd.Length, ddOut);
    assert dd[..] == N.Written(|x|, ddOut);
    r := N.Returned(Handle(status, PolyDD(dd[..], x)));
  }

  /** `PolyDD::init`: panics unless `dd`, `x` and `y` all have the same
      length; the native routine then overwrites all of `dd`, and the
      result borrows `dd` and `x`. */
  method Init(dd: array<real>, x: seq<real>, y: seq<real>, status: N.CInt, ddOut: nat -> real)
    returns (r: N.Outcome<Result<PolyDD>>)
    modifies dd
    ensures r.Panic? <==> dd.Length != |x| || |x| != |y|
    ensures r.Panic? ==> unchanged(dd)
    ensures r.Returned? ==> forall k :: 0 <= k < dd.Length ==> dd[k] == ddOut(k)
    ensures r.Returned? ==> r.value == Handle(status, PolyDD(dd[..], x))
    ensures r.Returned? && r.value.Ok? ==> r.value.value.Valid()
  {
    if dd.Length != |x| || |x| != |y| {
      return N.Panic;
    }
    N.Fill(dd, dd.Length, ddOut);
    r := N.Returned(Handle(status, PolyDD(dd[..], x)));
  }

  /** `PolyDD::taylor`: panics unless `c` and the workspace `w` both have
      `self.len()` entries; the native routine rewrites both.  It also
      reads `Len()` abscissae, so `p` must hold at least that many; every
      `PolyDD` built without an earlier overrun does (`New` and `Init`
      make them equal, and `poly_dd_hermite_init` as written stays in
      bounds only for an empty `dd`). */
  method Taylor(p: PolyDD, c: array<real>, w: array<real>, status: N.CInt, cOut: nat -> real, wOut: nat -> real)
    returns (r: N.Outcome<Result<()>>)
    requires |p.dd| <= |p.x|
    requires c != w
    modifies c, w
    ensures r.Panic? <==> p.Len() != c.Length || p.Len() != w.Length
    ensures r.Panic? ==> unchanged(c) && unchanged(w)
    ensures r.Returned? ==> r.value == Handle(status, ())
    ensures r.Returned? ==> forall k :: 0 <= k < p.Len() ==> c[k] == cOut(k) && w[k] == wOut(k)
  {
    if p.Len() != c.Length || p.Len() != w.Length {
      return N.Panic;
    }
    N.Fill(c, c.Length, cOut);
    N.Fill(w, w.Length, wOut);
    r := N.Returned(Handle(status, ()));
  }

  /** The accesses of the native Hermite routine told there are `size`
      points: it reads `size` entries of `x`, `y`, `dy` and writes
      `2 * size` entries of `dd` and `z`. */
  predicate HermiteInBounds(size: nat, ddLen: nat, zLen: nat, xLen: nat)
  {
    size <= xLen && 2 * size <= ddLen && 2 * size <= zLen
  }

  /** The point count `poly_dd_hermite_init` hands the native routine, as written. */
  function HermiteSizeAsWritten(dd: seq<real>, x: seq<real>): nat
  {
    |dd|
  }

  /** The intended point count: one per entry of `x`, the largest count
      whose accesses stay inside slices of the documented lengths. */
  function HermiteSize(x: seq<real>): (n: nat)
    ensures HermiteInBounds(n, 2 * |x|, 2 * |x|, |x|)
    ensures forall m: nat :: HermiteInBounds(m, 2 * |x|, 2 * |x|, |x|) ==> m <= n
  {
    |x|
  }

  /** As written, the native routine stays in bounds only for an empty
      `dd`, whatever the lengths of `z` and `x`. */
  lemma HermiteAsWrittenOverruns(dd: seq<real>, zLen: nat, x: seq<real>)
    ensures HermiteInBounds(HermiteSizeAsWritten(dd, x), |dd|, zLen, |x|) <==> |dd| == 0
  {
  }

  /** One point, with `dd` and `z` of the documented length 2: the size
      passed is 2, so the native routine reads two points from one-entry
      slices and writes four values into two-entry slices. */
  lemma HermiteOnePointOverruns()
    ensures HermiteSizeAsWritten([0.0, 0.0], [1.0]) == 2
    ensures !HermiteInBounds(HermiteSizeAsWritten([0.0, 0.0], [1.0]), 2, 2, 1)
  {
  }

  /** `poly_dd_hermite_init` with the corrected size: panics unless `x`,
      `y` and `dy` have the same length and `dd` and `z` have the documented
      `2 * x.len()` entries; the native routine then overwrites all of
      `dd` and `z`, and the result borrows `dd` over the abscissae `z`. */
  method HermiteInit(dd: array<real>, z: array<real>, x: seq<real>, y: seq<real>, dy: seq<real>,
                     status: N.CInt, ddOut: nat -> real, zOut: nat -> real)
    returns (r: N.Outcome<Result<PolyDD>>)
    requires dd != z
    modifies dd, z
    ensures r.Panic? <==> !(|x| == |y| == |dy| && dd.Length == 2 * |x| && z.Length == 2 * |x|)
    ensures r.Panic? ==> unchanged(dd) && unchanged(z)
    ensures r.Returned? ==> forall k :: 0 <= k < 2 * |x| ==> dd[k] == ddOut(k) && z[k] == zOut(k)
    ensures r.Returned? ==> r.value == Handle(status, PolyDD(dd[..], z[..]))
    ensures r.Returned? && r.value.Ok? ==> r.value.value.Valid() && r.value.value.Len() == 2 * |x|
  {
    if !(|x| == |y| == |dy| && dd.Length == 2 * |x| && z.Length == 2 * |x|) {
      return N.Panic;
    }
    var size := HermiteSize(x);
    N.Fill(dd, 2 * size, ddOut);
    N.Fill(z, 2 * size, zOut);
    r := N.Returned(Handle(status, PolyDD(dd[..], z[..])));
  }

  /** `a x^2 + b x + c`. */
  datatype Quadratic = Quadratic(a: real, b: real, c: real)

  /** `x^3 + a x^2 + b x + c`. */
  datatype Cubic = Cubic(a: real, b: real, c: real)

  datatype Complex = Complex(re: real, im: real)

  datatype QuadraticRoots<T> = None | One(T) | Two(T, T)

  datatype CubicRoots<T> = One(T) | Three(T, T, T)

  /** The roots carried by a quadratic answer, in order. */
  function QuadraticRootList<T>(r: QuadraticRoots<T>): seq<T>
  {
    match r
    case None => []
    case One(x0) => [x0]
    case Two(x0, x1) => [x0, x1]
  }

  /** The roots carried by a cubic answer, in order. */
  function CubicRootList<T>(r: CubicRoots<T>): seq<T>
  {
    match r
    case One(x0) => [x0]
    case Three(x0, x1, x2) => [x0, x1, x2]
  }

  /** The `match n` of both quadratic solvers: the native count `n`
      selects how many of the slots `x0`, `x1` hold roots; any other count
      is `unreachable!`. */
  function QuadraticFromCount<T>(n: N.CInt, x0: T, x1: T): (r: N.Outcome<QuadraticRoots<T>>)
    ensures r.Returned? <==> 0 <= n <= 2
    ensures r.Returned? ==> QuadraticRootList(r.value) == [x0, x1][..n]
  {
    if n == 0 then N.Returned(None)
    else if n == 1 then N.Returned(QuadraticRoots.One(x0))
    else if n == 2 then N.Returned(Two(x0, x1))
    else N.Panic
  }

  /** The `match n` of the real cubic solver: one or three roots. */
  function CubicFromCount<T>(n: N.CInt, x0: T, x1: T, x2: T): (r: N.Outcome<CubicRoots<T>>)
    ensures r.Returned? <==> n == 1 || n == 3
    ensures r.Returned? ==> CubicRootList(r.value) == [x0, x1, x2][..n]
  {
    if n == 1 then N.Returned(CubicRoots.One(x0))
    else if n == 3 then N.Returned(Three(x0, x1, x2))
    else N.Panic
  }

  /** `Quadratic::real_roots`: `solve` is the native solver's count and
      the two slots it writes, for the given coefficients. */
  function QuadraticRealRoots(q: Quadratic, solve: (real, real, real) -> (N.CInt, real, real))
    : (r: N.Outcome<QuadraticRoots<real>>)
    ensures var (n, x0, x1) := solve(q.a, q.b, q.c);
      && (r.Returned? <==> 0 <= n <= 2)
      && (r.Returned? ==> QuadraticRootList(r.value) == [x0, x1][..n])
  {
    var (n, x0, x1) := solve(q.a, q.b, q.c);
    QuadraticFromCount(n, x0, x1)
  }

  /** `Quadratic::roots`: the complex solver, decoded by the same mapping. */
  function QuadraticComplexRoots(q: Quadratic, solve: (real, real, real) -> (N.CInt, Complex, Complex))
    : (r: N.Outcome<QuadraticRoots<Complex>>)
    ensures var (n, z0, z1) := solve(q.a, q.b, q.c);
      && (r.Returned? <==> 0 <= n <= 2)
      && (r.Returned? ==> QuadraticRootList(r.value) == [z0, z1][..n])
  {
    var (n, z0, z1) := solve(q.a, q.b, q.c);
    QuadraticFromCount(n, z0, z1)
  }

  /** `Cubic::real_roots`. */
  function CubicRealRoots(q: Cubic, solve: (real, real, real) -> (N.CInt, real, real, real))
    : (r: N.Outcome<CubicRoots<real>>)
    ensures var (n, x0, x1, x2) := solve(q.a, q.b, q.c);
      && (r.Returned? <==> n == 1 || n == 3)
      && (r.Returned? ==> CubicRootList(r.value) == [x0, x1, x2][..n])
  {
    var (n, x0, x1, x2) := solve(q.a, q.b, q.c);
    CubicFromCount(n, x0, x1, x2)
  }

  /** The decoded answer records the count: no quadratic answer has more
      than two roots, and distinct counts give distinct variants. */
  lemma QuadraticCountFaithful<T>(n: N.CInt, m: N.CInt, x0: T, x1: T)
    requires QuadraticFromCount(n, x0, x1).Returned? && QuadraticFromCount(m, x0, x1).Returned?
    ensures |QuadraticRootList(QuadraticFromCount(n, x0, x1).value)| == n
    ensures n != m ==> QuadraticFromCount(n, x0, x1) != QuadraticFromCount(m, x0, x1)
  {
    assert |QuadraticRootList(QuadraticFromCount(m, x0, x1).value)| == m;
  }
}
