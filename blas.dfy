/**
 * The CBLAS option enums of the `blas` module and their two-way mapping to
 * the native CBLAS constants, plus the `rotm` wrappers whose only safe-layer
 * logic is a length check before the native call.
 *
 * Every `Into` is total.  Every `From` panics on a constant outside its
 * enum; that panic is the `None` of the decoding functions below.
 */
module Blas {
  import opened Native
  import opened GslError

  // Native CBLAS constants.
  const CblasRowMajor: CInt := 101
  const CblasColMajor: CInt := 102
  const CblasNoTrans: CInt := 111
  const CblasTrans: CInt := 112
  const CblasConjTrans: CInt := 113
  const CblasUpper: CInt := 121
  const CblasLower: CInt := 122
  const CblasNonUnit: CInt := 131
  const CblasUnit: CInt := 132
  const CblasLeft: CInt := 141
  const CblasRight: CInt := 142

  const TransposeCodes: set<CInt> := {CblasNoTrans, CblasTrans, CblasConjTrans}
  const UploCodes: set<CInt> := {CblasUpper, CblasLower}
  const OrderCodes: set<CInt> := {CblasRowMajor, CblasColMajor}
  const SideCodes: set<CInt> := {CblasLeft, CblasRight}
  const DiagCodes: set<CInt> := {CblasNonUnit, CblasUnit}

  datatype Transpose = NoTranspose | Transpose | ConjugateTranspose
  datatype Uplo = Upper | Lower
  datatype Order = RowMajor | ColumnMajor
  datatype Side = Left | Right
  datatype Diag = NonUnit | Unit

  function TransposeToNative(t: Transpose): (c: CInt)
    ensures c in TransposeCodes
  {
    match t
    case NoTranspose => CblasNoTrans
    case Transpose => CblasTrans
    case ConjugateTranspose => CblasConjTrans
  }

  function TransposeFromNative(c: CInt): (r: Option<Transpose>)
    ensures r.Some? <==> c in TransposeCodes
  {
    if c == CblasNoTrans then Some(NoTranspose)
    else if c == CblasTrans then Some(Transpose)
    else if c == CblasConjTrans then Some(ConjugateTranspose)
    else None
  }

  function UploToNative(u: Uplo): (c: CInt)
    ensures c in UploCodes
  {
    match u
    case Upper => CblasUpper
    case Lower => CblasLower
  }

  function UploFromNative(c: CInt): (r: Option<Uplo>)
    ensures r.Some? <==> c in UploCodes
  {
    if c == CblasUpper then Some(Upper)
    else if c == CblasLower then Some(Lower)
    else None
  }

  function OrderToNative(o: Order): (c: CInt)
    ensures c in OrderCodes
  {
    match o
    case RowMajor => CblasRowMajor
    case ColumnMajor => CblasColMajor
  }

  function OrderFromNative(c: CInt): (r: Option<Order>)
    ensures r.Some? <==> c in OrderCodes
  {
    if c == CblasRowMajor then Some(RowMajor)
    else if c == CblasColMajor then Some(ColumnMajor)
    else None
  }

  function SideToNative(s: Side): (c: CInt)
    ensures c in SideCodes
  {
    match s
    case Left => CblasLeft
    case Right => CblasRight
  }

  function SideFromNative(c: CInt): (r: Option<Side>)
    ensures r.Some? <==> c in SideCodes
  {
    if c == CblasLeft then Some(Left)
    else if c == CblasRight then Some(Right)
    else None
  }

  /** `Diag` is declared against the `CBLAS_SIDE` integer type but uses the
      `CblasNonUnit`/`CblasUnit` constants; both native types are the same
      C integer, so only the constants matter. */
  function DiagToNative(d: Diag): (c: CInt)
    ensures c in DiagCodes
  {
    match d
    case NonUnit => CblasNonUnit
    case Unit => CblasUnit
  }

  function DiagFromNative(c: CInt): (r: Option<Diag>)
    ensures r.Some? <==> c in DiagCodes
  {
    if c == CblasNonUnit then Some(NonUnit)
    else if c == CblasUnit then Some(Unit)
    else None
  }

  lemma TransposeRoundTrip()
    ensures IsTranscoder(TransposeToNative, TransposeFromNative, TransposeCodes)
  {
  }

  lemma UploRoundTrip()
    ensures IsTranscoder(UploToNative, UploFromNative, UploCodes)
  {
  }

  lemma OrderRoundTrip()
    ensures IsTranscoder(OrderToNative, OrderFromNative, OrderCodes)
  {
  }

  lemma SideRoundTrip()
    ensures IsTranscoder(SideToNative, SideFromNative, SideCodes)
  {
  }

  lemma DiagRoundTrip()
    ensures IsTranscoder(DiagToNative, DiagFromNative, DiagCodes)
  {
  }

  /** Although `Diag` borrows the `CBLAS_SIDE` type, its constants never
      decode as a `Side` and a `Side` constant never decodes as a `Diag`:
      reading one as the other panics. */
  lemma DiagIsNotSide(d: Diag, s: Side)
    ensures SideFromNative(DiagToNative(d)).None?
    ensures DiagFromNative(SideToNative(s)).None?
  {
  }

  /** The five encodings never share a constant, so no value of one enum
      can be mistaken for a value of another. */
  lemma CodeSetsDisjoint()
    ensures TransposeCodes !! UploCodes !! OrderCodes !! SideCodes !! DiagCodes
  {
  }

  /** The five-entry parameter block of a modified Givens rotation. */
  type Params = p: seq<real> | |p| == 5 witness [0.0, 0.0, 0.0, 0.0, 0.0]

  /** `s::rotm` (single precision): panics unless `x` and `y` have the same
      length; otherwise the native routine rewrites both vectors in full
      with values that depend on the block `p` it is handed (`xOut(p, k)`,
      `yOut(p, k)`), and its status is handed to `Handle`. */
  method SRotm(x: array<real>, y: array<real>, p: Params, status: CInt, xOut: (Params, nat) -> real, yOut: (Params, nat) -> real)
    returns (r: Outcome<Result<()>>)
    requires x != y
    modifies x, y
    ensures r.Panic? <==> x.Length != y.Length
    ensures r.Panic? ==> unchanged(x) && unchanged(y)
    ensures r.Returned? ==> r.value == Handle(status, ())
    ensures r.Returned? ==> forall k :: 0 <= k < x.Length ==> x[k] == xOut(p, k) && y[k] == yOut(p, k)
  {
    if x.Length != y.Length {
      return Panic;
    }
    Fill(x, x.Length, (k: nat) => xOut(p, k));
    Fill(y, y.Length, (k: nat) => yOut(p, k));
    r := Returned(Handle(status, ()));
  }

  /** `d::drotm` (double precision): the same length check as `SRotm`. */
  method DRotm(x: array<real>, y: array<real>, p: Params, status: CInt, xOut: (Params, nat) -> real, yOut: (Params, nat) -> real)
    returns (r: Outcome<Result<()>>)
    requires x != y
    modifies x, y
    ensures r.Panic? <==> x.Length != y.Length
    ensures r.Panic? ==> unchanged(x) && unchanged(y)
    ensures r.Returned? ==> r.value == Handle(status, ())
    ensures r.Returned? ==> forall k :: 0 <= k < x.Length ==> x[k] == xOut(p, k) && y[k] == yOut(p, k)
  {
    if x.Length != y.Length {
      return Panic;
    }
    Fill(x, x.Length, (k: nat) => xOut(p, k));
    Fill(y, y.Length, (k: nat) => yOut(p, k));
    r := Returned(Handle(status, ()));
  }
}
