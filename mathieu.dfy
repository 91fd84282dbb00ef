/**
 * The Mathieu workspace of the special-function module: allocation, and
 * the array routines that store one value per order `nmin..nmax`
 * (inclusive) into a caller-supplied slice after a range check.
 *
 * The range check as written (`len = nmax - nmin`, reject when
 * `len < 0 || len > capacity`) lets through `len == capacity`, when
 * `len + 1` values are stored.  `GuardAsWritten` is that check;
 * `Guard` is the corrected one, and the workspace methods use it.
 */
module SfMathieu {
  import opened Native
  import opened GslError

  /** How many orders `nmin..nmax` inclusive names. */
  function OrderCount(nmin: int, nmax: int): int
  {
    nmax - nmin + 1
  }

  /** The range check as written: the subtraction is checked `i32`
      arithmetic, then `Returned(true)` means the native call goes ahead. */
  function GuardAsWritten(nmin: CInt, nmax: CInt, capacity: nat): (r: Outcome<bool>)
    ensures r.Panic? <==> SubI32(nmax, nmin).Panic?
    ensures r == Returned(true) ==> nmin <= nmax && OrderCount(nmin, nmax) <= capacity + 1
  {
    match SubI32(nmax, nmin)
    case Panic => Panic
    case Returned(len) => Returned(!(len < 0 || len > capacity))
  }

  /** The corrected check: the call goes ahead exactly when the range is
      non-empty and all its values fit. */
  function Guard(nmin: CInt, nmax: CInt, capacity: nat): (r: Outcome<bool>)
    ensures r.Panic? <==> SubI32(nmax, nmin).Panic?
    ensures r.Returned? ==> (r.value <==> nmin <= nmax && OrderCount(nmin, nmax) <= capacity)
  {
    match SubI32(nmax, nmin)
    case Panic => Panic
    case Returned(len) => Returned(!(len < 0 || len >= capacity))
  }

  /** The check as written accepts everything the corrected one accepts,
      and exactly one range more per capacity: the one a slot too long. */
  lemma GuardAsWrittenOffByOne(nmin: CInt, nmax: CInt, capacity: nat)
    ensures GuardAsWritten(nmin, nmax, capacity) == Returned(true) <==>
      Guard(nmin, nmax, capacity) == Returned(true)
      || (GuardAsWritten(nmin, nmax, capacity).Returned? && OrderCount(nmin, nmax) == capacity + 1)
  {
  }

  /** Orders 0..1 into a one-slot slice: the check lets the call through,
      and the native routine stores two values. */
  lemma GuardAsWrittenOverruns()
    ensures GuardAsWritten(0, 1, 1) == Returned(true)
    ensures OrderCount(0, 1) > 1
  {
  }

  /** Orders far enough apart to overflow `i32` make the subtraction panic
      before any check. */
  lemma GuardOverflowPanics()
    ensures Guard(-1, 0x7fff_ffff, 0x1_0000_0000) == Panic
    ensures GuardAsWritten(-1, 0x7fff_ffff, 0x1_0000_0000) == Panic
  {
  }

  /** The native Mathieu workspace (`gsl_sf_mathieu_workspace`). */
  class Mathieu {
    /** The pointer to the native workspace; never null. */
    const handle: nat
    /** The scratch contents of the workspace, rewritten by each array routine. */
    var scratch: seq<real>

    constructor Wrap(handle: nat, scratch: seq<real>)
      ensures this.handle == handle && this.scratch == scratch
    {
      this.handle := handle;
      this.scratch := scratch;
    }

    /** `Mathieu::new`: `tmp` is what the native allocator returned for
        maximum order `n` and `qmax`; a null pointer gives `None`. */
    static method New(n: nat, qmax: real, tmp: Ptr, scratch: seq<real>) returns (r: Option<Mathieu>)
      ensures r.None? <==> tmp.Null?
      ensures r.Some? ==> fresh(r.value) && r.value.handle == tmp.address && r.value.scratch == scratch
    {
      if tmp.Null? {
        return None;
      }
      var m := new Mathieu.Wrap(tmp.address, scratch);
      r := Some(m);
    }

    /** `a_array`, `b_array`, `ce_array`, `se_array`, `Mc_array`,
        `Ms_array`, with the corrected range check: an invalid range is
        `Err(Invalid)` and touches nothing; otherwise the native routine
        stores one value per order at the front of `result`, rewrites the
        workspace to `ws`, and its status decides the result.  The other
        arguments (`q`, `x`, `j`) only reach the native routine. */
    method StoreOrders(nmin: CInt, nmax: CInt, result: array<real>, status: CInt, values: nat -> real, ws: seq<real>)
      returns (r: Outcome<Result<()>>)
      modifies this, result
      ensures r.Panic? <==> SubI32(nmax, nmin).Panic?
      ensures r.Panic? ==> unchanged(this) && unchanged(result)
      ensures Guard(nmin, nmax, result.Length) == Returned(false) ==>
        r == Returned(Err(Invalid)) && unchanged(this) && unchanged(result)
      ensures Guard(nmin, nmax, result.Length) == Returned(true) ==>
        && r == Returned(Handle(status, ()))
        && scratch == ws
        && (forall k :: 0 <= k < OrderCount(nmin, nmax) ==> result[k] == values(k))
        && (forall k :: OrderCount(nmin, nmax) <= k < result.Length ==> result[k] == old(result[k]))
    {
      var g := Guard(nmin, nmax, result.Length);
      if g.Panic? {
        return Panic;
      }
      if !g.value {
        return Returned(Err(Invalid));
      }
      Fill(result, nmax - nmin + 1, values);
      scratch := ws;
      r := Returned(Handle(status, ()));
    }
  }
}
