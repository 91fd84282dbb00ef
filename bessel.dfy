/**
 * The array routines of the Bessel special functions: each checks with an
 * `assert!` that the values it is about to store fit the caller's slice,
 * then lets the native routine fill the front of the slice.
 *
 * Range routines (`In_array`, `In_scaled_array`, `Jn_array`, `Kn_array`,
 * `Kn_scaled_array`, `Yn_array`) store the orders `nmin..nmax` inclusive;
 * degree routines (`il_scaled_array`, `jl_array`, `jl_steed_array`,
 * `kl_scaled_array`, `yl_array`) store the degrees `0..lmax` inclusive.
 * Both checks compare against the slice length cast to `u32`, which keeps
 * its low 32 bits.
 */
module SfBessel {
  import opened Native
  import opened GslError

  const U32Modulus: nat := 0x1_0000_0000

  /** `assert!(nmax - nmin < result_array.len() as _)` in `u32`: the
      subtraction panics when `nmax < nmin`, and the assertion panics when
      the difference is not below the truncated length. */
  function RangeCheck(nmin: U32, nmax: U32, len: nat): (r: Outcome<()>)
    ensures nmax < nmin ==> r.Panic?
    ensures r.Returned? ==> nmin <= nmax && nmax - nmin + 1 <= len
    ensures len < U32Modulus ==> (r.Returned? <==> nmin <= nmax && nmax - nmin + 1 <= len)
  {
    match SubU32(nmax, nmin)
    case Panic => Panic
    case Returned(d) => if d < TruncateToU32(len) then Returned(()) else Panic
  }

  /** `assert!(lmax < result_array.len() as _)` in `u32`. */
  function DegreeCheck(lmax: U32, len: nat): (r: Outcome<()>)
    ensures r.Returned? ==> lmax + 1 <= len
    ensures len < U32Modulus ==> (r.Returned? <==> lmax + 1 <= len)
  {
    if lmax < TruncateToU32(len) then Returned(()) else Panic
  }

  /** The truncating cast makes a slice of exactly 2^32 slots look empty,
      so even a single order is refused although it would fit. */
  lemma TruncationRefusesHugeSlice()
    ensures RangeCheck(0, 0, U32Modulus).Panic?
    ensures DegreeCheck(0, U32Modulus).Panic?
  {
  }

  /** Successive slice lengths 2^32 apart are treated alike by both checks. */
  lemma ChecksSeeLengthModulo(nmin: U32, nmax: U32, lmax: U32, len: nat)
    ensures RangeCheck(nmin, nmax, len + U32Modulus).Panic? == RangeCheck(nmin, nmax, len).Panic?
    ensures DegreeCheck(lmax, len + U32Modulus).Panic? == DegreeCheck(lmax, len).Panic?
  {
    assert TruncateToU32(len + U32Modulus) == TruncateToU32(len);
  }

  /** A range routine: once the check passes, the native routine stores
      one value per order at the front of `result` and its status decides
      the result; a failed check panics before anything is written.
      `x` only reaches the native routine. */
  method StoreRange(nmin: U32, nmax: U32, result: array<real>, status: CInt, values: nat -> real)
    returns (r: Outcome<Result<()>>)
    modifies result
    ensures r.Panic? <==> RangeCheck(nmin, nmax, result.Length).Panic?
    ensures r.Panic? ==> unchanged(result)
    ensures r.Returned? ==>
      && r.value == Handle(status, ())
      && (forall k :: 0 <= k <= nmax - nmin ==> result[k] == values(k))
      && (forall k :: nmax - nmin < k < result.Length ==> result[k] == old(result[k]))
  {
    if RangeCheck(nmin, nmax, result.Length).Panic? {
      return Panic;
    }
    Fill(result, nmax - nmin + 1, values);
    r := Returned(Handle(status, ()));
  }

  /** A degree routine: once the check passes, the native routine stores
      the values for degrees `0..lmax` at the front of `result`. */
  method StoreDegrees(lmax: U32, result: array<real>, status: CInt, values: nat -> real)
    returns (r: Outcome<Result<()>>)
    modifies result
    ensures r.Panic? <==> DegreeCheck(lmax, result.Length).Panic?
    ensures r.Panic? ==> unchanged(result)
    ensures r.Returned? ==>
      && r.value == Handle(status, ())
      && (forall k :: 0 <= k <= lmax ==> result[k] == values(k))
      && (forall k :: lmax < k < result.Length ==> result[k] == old(result[k]))
  {
    if DegreeCheck(lmax, result.Length).Panic? {
      return Panic;
    }
    Fill(result, lmax + 1, values);
    r := Returned(Handle(status, ()));
  }

  /** `sequence_Jnu`: the native routine is told the slice's own length,
      so it overwrites exactly the whole slice; no check is needed.
      `nu` and the precision mode only reach the native routine. */
  method SequenceJnu(v: array<real>, status: CInt, values: nat -> real) returns (r: Result<()>)
    modifies v
    ensures r == Handle(status, ())
    ensures forall k :: 0 <= k < v.Length ==> v[k] == values(k)
  {
    Fill(v, v.Length, values);
    r := Handle(status, ());
  }
}
