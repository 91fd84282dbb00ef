/**
 * The boundary between the safe Rust layer and the native GSL library:
 * machine integer widths, panics, allocation results, and the one thing a
 * foreign routine may do to memory -- overwrite a prefix of a buffer it was
 * handed.
 *
 * A foreign routine is never given a body of its own here.  Each wrapper
 * takes what the routine returned (its `c_int` status) and what it wrote (a
 * function from index to value) as parameters, so the wrapper's contract
 * holds for every possible behaviour of the native code.
 */
module Native {

  /** A C `int` (Rust `c_int`, `i32`). */
  type CInt = x: int | -0x8000_0000 <= x < 0x8000_0000

  /** A Rust `u32`. */
  type U32 = x: int | 0 <= x < 0x1_0000_0000

  datatype Option<T> = None | Some(value: T)

  /** A Rust call either panics (`panic!`, `assert!`, `expect`, `unreachable!`,
      an overflowing subtraction with overflow checks on) or returns a value. */
  datatype Outcome<T> = Panic | Returned(value: T)

  /** A native pointer as returned by an allocator. */
  datatype Ptr = Null | Addr(address: nat)

  /** `a - b` on `i32` with Rust's overflow checks: the subtraction
      panics when the exact difference does not fit in 32 bits. */
  function SubI32(a: CInt, b: CInt): (r: Outcome<CInt>)
    ensures r.Panic? <==> !(-0x8000_0000 <= a - b < 0x8000_0000)
    ensures r.Returned? ==> r.value == a - b
  {
    var d := a - b;
    if -0x8000_0000 <= d < 0x8000_0000 then Returned(d) else Panic
  }

  /** `a - b` on `u32` with Rust's overflow checks: panics when `b > a`. */
  function SubU32(a: U32, b: U32): (r: Outcome<U32>)
    ensures r.Panic? <==> a < b
    ensures r.Returned? ==> r.value + b == a
  {
    if a < b then Panic else Returned(a - b)
  }

  /** `n as u32` for a `usize` length: keeps the low 32 bits. */
  function TruncateToU32(n: nat): (r: U32)
    ensures r <= n
    ensures n < 0x1_0000_0000 ==> r == n
  {
    n % 0x1_0000_0000
  }

  /** The effect of a foreign routine that stores `count` values into the
      buffer it was handed: exactly the first `count` slots are overwritten
      with what the routine produced, and nothing else changes. */
  method Fill(buf: array<real>, count: nat, values: nat -> real)
    requires count <= buf.Length
    modifies buf
    ensures forall k :: 0 <= k < count ==> buf[k] == values(k)
    ensures forall k :: count <= k < buf.Length ==> buf[k] == old(buf[k])
  {
    forall k | 0 <= k < count {
      buf[k] := values(k);
    }
  }

  /** The first `n` values a foreign routine produced, as a sequence. */
  function Written(n: nat, values: nat -> real): (s: seq<real>)
    ensures |s| == n
    ensures forall k :: 0 <= k < n ==> s[k] == values(k)
  {
    seq(n, (k: int) requires 0 <= k < n => values(k))
  }

  /** A stateless two-way map between a closed set of variants and the
      native integer constants `codes`: encoding is total, decoding inverts
      it, and decoding recognises exactly `codes`. */
  ghost predicate IsTranscoder<V(!new)>(toNative: V -> CInt, fromNative: CInt -> Option<V>, codes: set<CInt>)
  {
    && (forall v :: fromNative(toNative(v)) == Some(v))
    && (forall c :: fromNative(c).Some? <==> c in codes)
    && (forall c :: fromNative(c).Some? ==> toNative(fromNative(c).value) == c)
  }

  /** A transcoder sends distinct variants to distinct constants, every
      constant it produces is recognised, and every recognised constant is
      produced by some variant. */
  lemma TranscoderBijective<V(!new)>(toNative: V -> CInt, fromNative: CInt -> Option<V>, codes: set<CInt>)
    requires IsTranscoder(toNative, fromNative, codes)
    ensures forall a, b :: toNative(a) == toNative(b) ==> a == b
    ensures forall v :: toNative(v) in codes
    ensures forall c :: c in codes ==> exists v :: toNative(v) == c
  {
    forall a, b | toNative(a) == toNative(b) ensures a == b {
      assert fromNative(toNative(a)) == Some(a);
      assert fromNative(toNative(b)) == Some(b);
    }
    forall c | c in codes ensures exists v :: toNative(v) == c {
      assert toNative(fromNative(c).value) == c;
    }
  }
}
