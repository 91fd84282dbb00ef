/**
 * The modified-Givens matrix `H` of the `cblas` module, its encoding into
 * the five-entry parameter block of `rotm` and its decoding from the block
 * `rotmg` fills, and the length guards of the level-1 wrappers.
 *
 * The single- and double-precision modules (`s`, `d`) have the same logic;
 * both are modelled once, over `real`.
 */
module Cblas {
  import opened Native
  import Blas

  /** A 2x2 matrix, row by row. */
  datatype Mat2 = Mat2(m11: real, m12: real, m21: real, m22: real)

  /** The modified matrix transformation; the variants other than `Full`
      fix some entries to constants. */
  datatype H =
    | Full(h11: real, h21: real, h12: real, h22: real)
    | OffDiag(h21: real, h12: real)
    | Diag(h11: real, h22: real)
    | Id

  /** The matrix each variant of `H` stands for. */
  function HMatrix(h: H): Mat2
  {
    match h
    case Full(h11, h21, h12, h22) => Mat2(h11, h12, h21, h22)
    case OffDiag(h21, h12) => Mat2(1.0, h12, h21, 1.0)
    case Diag(h11, h22) => Mat2(h11, 1.0, -1.0, h22)
    case Id => Mat2(1.0, 0.0, 0.0, 1.0)
  }

  /** How a BLAS `rotm` reads its parameter block: flag -2 is the identity,
      a negative flag a full matrix, flag 0 fixed unit diagonal, a positive
      flag fixed off-diagonal. Entries the flag does not use are ignored. */
  function ParamMatrix(p: Blas.Params): Mat2
  {
    if p[0] == -2.0 then Mat2(1.0, 0.0, 0.0, 1.0)
    else if p[0] < 0.0 then Mat2(p[1], p[3], p[2], p[4])
    else if p[0] == 0.0 then Mat2(1.0, p[3], p[2], 1.0)
    else Mat2(p[1], 1.0, -1.0, p[4])
  }

  /** The flag values `rotmg` may produce. */
  const Flags: set<real> := {-1.0, 0.0, 1.0, -2.0}

  /** The decoding inside `rotmg`: panics (`unreachable!`) on any other flag. */
  function DecodeH(p: Blas.Params): (r: Outcome<H>)
    ensures r.Panic? <==> p[0] !in Flags
    ensures r.Returned? ==> HMatrix(r.value) == ParamMatrix(p)
  {
    if p[0] == -1.0 then Returned(Full(p[1], p[2], p[3], p[4]))
    else if p[0] == 0.0 then Returned(OffDiag(p[2], p[3]))
    else if p[0] == 1.0 then Returned(Diag(p[1], p[4]))
    else if p[0] == -2.0 then Returned(Id)
    else Panic
  }

  /** The encoding inside `rotm`: the block it hands to BLAS stands for the
      same matrix as `h`, and decoding it gives `h` back. */
  function EncodeH(h: H): (p: Blas.Params)
    ensures p[0] in Flags
    ensures ParamMatrix(p) == HMatrix(h)
    ensures DecodeH(p) == Returned(h)
  {
    match h
    case Full(h11, h21, h12, h22) => [-1.0, h11, h21, h12, h22]
    case OffDiag(h21, h12) => [0.0, 1.0, h21, h12, 1.0]
    case Diag(h11, h22) => [1.0, h11, -1.0, 1.0, h22]
    case Id => [-2.0, 1.0, 0.0, 0.0, 1.0]
  }

  /** Decoding a block and encoding the result again keeps the flag and
      the matrix, though not the entries the flag leaves unused. */
  lemma DecodeEncode(p: Blas.Params)
    requires p[0] in Flags
    ensures DecodeH(p).Returned?
    ensures EncodeH(DecodeH(p).value)[0] == p[0]
    ensures ParamMatrix(EncodeH(DecodeH(p).value)) == ParamMatrix(p)
  {
  }

  /** The entries of a block that the flag in `p[0]` makes `rotm` read:
      all four for -1, the off-diagonal pair for 0, the diagonal pair
      for 1, none for -2. */
  predicate SameUsedEntries(p: Blas.Params, q: Blas.Params)
  {
    && p[0] == q[0]
    && (p[0] == -1.0 ==> p[1..] == q[1..])
    && (p[0] == 0.0 ==> p[2] == q[2] && p[3] == q[3])
    && (p[0] == 1.0 ==> p[1] == q[1] && p[4] == q[4])
  }

  /** Decoding reads exactly the used entries: two blocks with a valid
      flag decode to the same `H` if and only if they agree on the flag
      and on the entries it makes `rotm` read. */
  lemma DecodeSeesUsedEntries(p: Blas.Params, q: Blas.Params)
    requires p[0] in Flags
    ensures DecodeH(p) == DecodeH(q) <==> SameUsedEntries(p, q)
  {
    if SameUsedEntries(p, q) && p[0] == -1.0 {
      assert p[1..][0] == p[1] && p[1..][1] == p[2] && p[1..][2] == p[3] && p[1..][3] == p[4];
    }
    if DecodeH(p) == DecodeH(q) && p[0] == -1.0 {
      assert p[1..] == [p[1], p[2], p[3], p[4]];
      assert q[1..] == [q[1], q[2], q[3], q[4]];
    }
  }

  /** Decoding is not injective: blocks that differ only in unused
      entries decode to the same `H`. */
  lemma DecodeForgetsUnusedEntries()
    ensures DecodeH([-2.0, 5.0, 6.0, 7.0, 8.0]) == DecodeH(EncodeH(Id))
    ensures [-2.0, 5.0, 6.0, 7.0, 8.0] != EncodeH(Id)
  {
  }

  /** `sdot`, `ddot`, `dot` (both precisions): panic (`expect` on
      `check_equal_len`) unless the lengths agree, then return what the
      native routine computed. */
  function Dot(x: seq<real>, y: seq<real>, native: real): (r: Outcome<real>)
    ensures r.Panic? <==> |x| != |y|
    ensures r.Returned? ==> r.value == native
  {
    if |x| != |y| then Panic else Returned(native)
  }

  /** `swap` and `rot`: both vectors are rewritten by the native routine
      once their lengths are known to agree. */
  method UpdatePair(x: array<real>, y: array<real>, xOut: nat -> real, yOut: nat -> real)
    returns (r: Outcome<()>)
    requires x != y
    modifies x, y
    ensures r.Panic? <==> x.Length != y.Length
    ensures r.Panic? ==> unchanged(x) && unchanged(y)
    ensures r.Returned? ==> forall k :: 0 <= k < x.Length ==> x[k] == xOut(k) && y[k] == yOut(k)
  {
    if x.Length != y.Length {
      return Panic;
    }
    Fill(x, x.Length, xOut);
    Fill(y, y.Length, yOut);
    r := Returned(());
  }

  /** `copy` and `axpy`: `x` is only read; `y` is rewritten by the native
      routine once the lengths are known to agree. */
  method UpdateSecond(x: seq<real>, y: array<real>, yOut: nat -> real) returns (r: Outcome<()>)
    modifies y
    ensures r.Panic? <==> |x| != y.Length
    ensures r.Panic? ==> unchanged(y)
    ensures r.Returned? ==> forall k :: 0 <= k < y.Length ==> y[k] == yOut(k)
  {
    if |x| != y.Length {
      return Panic;
    }
    Fill(y, y.Length, yOut);
    r := Returned(());
  }

  /** `rotm`: the length guard, then the native routine is handed the
      encoding of `h`, and what it writes depends on that block only. */
  method Rotm(x: array<real>, y: array<real>, h: H, xOut: (Blas.Params, nat) -> real, yOut: (Blas.Params, nat) -> real)
    returns (r: Outcome<()>)
    requires x != y
    modifies x, y
    ensures r.Panic? <==> x.Length != y.Length
    ensures r.Panic? ==> unchanged(x) && unchanged(y)
    ensures r.Returned? ==> forall k :: 0 <= k < x.Length ==>
      x[k] == xOut(EncodeH(h), k) && y[k] == yOut(EncodeH(h), k)
  {
    if x.Length != y.Length {
      return Panic;
    }
    var p := EncodeH(h);
    Fill(x, x.Length, (k: nat) => xOut(p, k));
    Fill(y, y.Length, (k: nat) => yOut(p, k));
    r := Returned(());
  }

  /** `scal`: no length condition; the native routine rewrites `x`. */
  method Scal(x: array<real>, xOut: nat -> real)
    modifies x
    ensures forall k :: 0 <= k < x.Length ==> x[k] == xOut(k)
  {
    Fill(x, x.Length, xOut);
  }
}
