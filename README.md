# rust-GSL safe layer: status codes, transcoders and call guards

The `rgsl` crate is a thin safe Rust layer over the GNU Scientific Library.
Nearly every function makes one foreign call. This project models the glue
around those calls and proves properties of it:

- the status-code taxonomy (`Error`), with its decoder `Error::handle`, its
  encoder `Error::to_c` and its `Display` text;
- the enum ↔ native-constant transcoders of the BLAS, eigen, VEGAS,
  wavelet, Legendre and filter options;
- the modified-Givens matrix `H` and its five-entry parameter block, which
  `rotm` encodes and `rotmg` decodes;
- the checks that run before a foreign call: equal-length checks in the
  BLAS level-1 wrappers, range-versus-capacity checks in the Mathieu and
  Bessel array routines, length checks in the divided-difference
  polynomials, and the decoding of the root counts the polynomial solvers
  return;
- the physical-constant tables and the relations their documentation
  states.

Modelling conventions:

- A foreign routine has no body here. Each wrapper takes as parameters what
  the routine returns (its `c_int` status) and what it writes (a function
  from index to value).
- `Native.Fill` is the only way such a routine writes memory. It overwrites
  exactly the slots the routine is documented to write. Its precondition
  that those slots exist is the memory-safety proof obligation for each
  wrapper.
- A Rust panic (`panic!`, `assert!`, `expect`, `unreachable!`, or an
  overflowing subtraction in a build with overflow checks) is
  `Outcome.Panic`.
- `c_int` is the 32-bit subset type `CInt` and `u32` is `U32`. Floats are
  `real`. The `f32` and `f64` modules share one set of members.
- The numeric values of the native constants come from the GSL and CBLAS C
  headers, in which each constant is a distinct integer.
- A slice passed by shared reference is a `seq`. A slice passed by `&mut`
  is an `array`. Two `&mut` arguments are distinct arrays (`requires x != y`),
  as Rust's borrow rules guarantee.

Modules: `Native` (machine integers, panics, pointers, foreign writes, the
generic transcoder property), `GslError` (error.rs), `Blas` (blas.rs),
`Cblas` (cblas.rs), `Enums` (enums.rs), `Eigen` (eigen.rs), `SfMathieu`
(sf/mathieu.rs), `SfBessel` (sf/bessel.rs), `Polynomials`
(polynomials.rs), `PhysicalConstantMksa` and `PhysicalConstantNum`
(physical_constant.rs).

## Model

| member | source | states |
|---|---|---|
| GslError.Handle | src/error.rs:140-179 | `Ok` exactly for SUCCESS, carrying the payload unchanged; every named failure code gives a named variant; a code outside the 35 named ones gives `Err(Unknown(c))` with `c` unchanged, and only those do |
| GslError.ToC | src/error.rs:181-220 | `Ok(())` gives SUCCESS; `Unknown(x)` gives `x`; a named variant gives a named failure code other than SUCCESS; SUCCESS comes out only for `Ok` and `Unknown(0)` |
| GslError.HandleExamples | src/error.rs:153-168 | EMAXITER decodes to `MaxIteration` and EBADLEN to `BadLength`, and back to 11 and 19 |
| GslError.HandleToC | src/error.rs:140-220 | for every named variant `e`, `handle(to_c(Err(e)), ()) == Err(e)` |
| GslError.ToCHandle | src/error.rs:140-220 | for every named code `c`, `to_c(handle(c, ())) == c` |
| GslError.UnknownRoundTrip | src/error.rs:177-218 | a code without a name decodes to `Unknown(c)` and encodes back to `c` |
| GslError.HandleToCAll | src/error.rs:140-220 | for every unit result, decoding its code gives it back, except an `Unknown` that holds a named code, which never comes back as itself |
| GslError.UnknownZeroIsSuccess | src/error.rs:177-218 | `Unknown(0)` encodes to SUCCESS and so decodes to `Ok(())` |
| GslError.HandleInjective | src/error.rs:140-179 | distinct named codes decode to distinct results, so each named code has its own variant |
| GslError.ToCInjective | src/error.rs:181-220 | distinct named variants encode to distinct codes |
| GslError.UnknownMessage | src/error.rs:81-134 | every `Unknown(_)` displays as "Unknown error", whatever its code |
| GslError.Message | src/error.rs:81-134 | the `Display` text of each of the 35 variants, spelled as in the source; its properties are the lemmas below |
| GslError.MessageFingerprint | src/error.rs:81-134 | the length and two characters of a named variant's text identify that variant, and those of "Unknown error" identify none |
| GslError.MessageInjective | src/error.rs:81-134 | an error that displays the same text as a named variant is that variant |
| GslError.MessageDistinguishes | src/error.rs:81-134 | two errors display the same text exactly when they are the same variant, or both `Unknown` with any codes |
| Native.SubI32 | src/sf/mathieu.rs:98 | checked `i32` subtraction panics exactly when the difference leaves the 32-bit range, and otherwise is the exact difference |
| Native.SubU32 | src/sf/bessel.rs:58 | checked `u32` subtraction panics exactly when the result would be negative |
| Native.TruncateToU32 | src/sf/bessel.rs:58 | `len as u32` never exceeds `len`, and equals it below 2^32 |
| Native.TranscoderBijective | src/blas.rs:14-34 | a transcoder (decoding inverts encoding and recognises exactly its code set) encodes injectively and onto its code set |
| Blas.TransposeToNative | src/blas.rs:14-22 | every `Transpose` encodes to one of NoTrans/Trans/ConjTrans |
| Blas.TransposeFromNative | src/blas.rs:25-34 | decoding succeeds exactly on NoTrans/Trans/ConjTrans; any other code is the panic |
| Blas.TransposeRoundTrip | src/blas.rs:14-34 | `from(into(t)) == t` for every variant, and `into(from(c)) == c` for every recognised code |
| Blas.UploToNative | src/blas.rs:44-51 | every `Uplo` encodes to Upper/Lower |
| Blas.UploFromNative | src/blas.rs:54-62 | decoding succeeds exactly on Upper/Lower |
| Blas.UploRoundTrip | src/blas.rs:44-62 | `Uplo` round-trips in both directions |
| Blas.OrderToNative | src/blas.rs:72-79 | every `Order` encodes to RowMajor/ColMajor |
| Blas.OrderFromNative | src/blas.rs:82-90 | decoding succeeds exactly on RowMajor/ColMajor |
| Blas.OrderRoundTrip | src/blas.rs:72-90 | `Order` round-trips in both directions |
| Blas.SideToNative | src/blas.rs:100-107 | every `Side` encodes to Left/Right |
| Blas.SideFromNative | src/blas.rs:110-118 | decoding succeeds exactly on Left/Right |
| Blas.SideRoundTrip | src/blas.rs:100-118 | `Side` round-trips in both directions |
| Blas.DiagToNative | src/blas.rs:128-135 | every `Diag` encodes to NonUnit/Unit, although the declared native type is `CBLAS_SIDE` |
| Blas.DiagFromNative | src/blas.rs:138-146 | decoding succeeds exactly on NonUnit/Unit |
| Blas.DiagRoundTrip | src/blas.rs:128-146 | `Diag` round-trips in both directions through the NonUnit/Unit constants |
| Blas.DiagIsNotSide | src/blas.rs:100-146 | a `Diag` constant never decodes as a `Side`, and a `Side` constant never decodes as a `Diag` |
| Blas.CodeSetsDisjoint | src/blas.rs:14-146 | the five enums have pairwise disjoint code sets |
| Blas.SRotm | src/blas.rs:272-280 | panics exactly on unequal lengths, touching nothing; otherwise both vectors are what the native routine wrote for the block `p` it was handed, and the result is `handle` of its status |
| Blas.DRotm | src/blas.rs:731-739 | the same length check and result for the double-precision routine |
| Cblas.DecodeH | src/cblas.rs:172-193 | panics exactly on a flag outside {-1, 0, 1, -2}; otherwise the decoded `H` stands for the matrix a BLAS `rotm` reads from the block |
| Cblas.EncodeH | src/cblas.rs:235-240 | the encoder produces only the four flags, the block stands for the matrix `H` documents, and `decode(encode(h)) == h` for every `h` |
| Cblas.DecodeEncode | src/cblas.rs:172-240 | re-encoding a decoded block keeps its flag and the matrix it stands for |
| Cblas.DecodeSeesUsedEntries | src/cblas.rs:172-193 | for every block with a valid flag and every other block: they decode to the same `H` exactly when they agree on the flag and on the entries that flag makes `rotm` read |
| Cblas.DecodeForgetsUnusedEntries | src/cblas.rs:189-190 | one counterexample to injectivity: `[-2, 5, 6, 7, 8]` differs from `encode(Id)` yet decodes to `Id`, so encoding does not invert decoding |
| Cblas.Dot | src/cblas.rs:48-64 | `sdot`, `ddot` and `dot` panic exactly on unequal lengths, and otherwise return the native value |
| Cblas.UpdatePair | src/cblas.rs:87-94 | `swap` (and `rot`, lines 205-221) panic exactly on unequal lengths, touching nothing; otherwise both vectors are what the native routine wrote |
| Cblas.UpdateSecond | src/cblas.rs:98-125 | `copy` and `axpy` panic exactly on unequal lengths, touching nothing; otherwise `y` is what the native routine wrote |
| Cblas.Rotm | src/cblas.rs:230-251 | panics exactly on unequal lengths; otherwise the native routine receives `encode(h)` and the vectors are what it wrote for that block |
| Cblas.Scal | src/cblas.rs:255-260 | no length condition; `x` is what the native routine wrote |
| Enums.VegasModeToNative | src/enums.rs:38-46 | every mode encodes to one of the three VEGAS constants |
| Enums.VegasModeFromNative | src/enums.rs:49-58 | decoding succeeds exactly on the three VEGAS constants |
| Enums.VegasModeRoundTrip | src/enums.rs:38-58 | `VegasMode` round-trips in both directions |
| Enums.WaveletDirectionToNative | src/enums.rs:68-75 | both directions encode to the wavelet constants |
| Enums.WaveletDirectionFromNative | src/enums.rs:78-86 | decoding succeeds exactly on forward/backward |
| Enums.WaveletDirectionRoundTrip | src/enums.rs:68-86 | `WaveletDirection` round-trips in both directions |
| Enums.SfLegendreNormToNative | src/enums.rs:98-107 | every norm encodes to one of the four Legendre constants |
| Enums.SfLegendreNormFromNative | src/enums.rs:110-120 | decoding succeeds exactly on the four Legendre constants |
| Enums.SfLegendreNormRoundTrip | src/enums.rs:98-120 | `SfLegendreNorm` round-trips in both directions |
| Enums.FilterEndToNative | src/enums.rs:134-142 | every end mode encodes to one of the three filter-end constants |
| Enums.FilterEndFromNative | src/enums.rs:146-155 | decoding succeeds exactly on the three filter-end constants |
| Enums.FilterEndRoundTrip | src/enums.rs:134-155 | `FilterEnd` round-trips in both directions |
| Enums.FilterScaleToNative | src/enums.rs:170-179 | every scale encodes to one of the four filter-scale constants |
| Enums.FilterScaleFromNative | src/enums.rs:183-193 | decoding succeeds exactly on the four filter-scale constants |
| Enums.FilterScaleRoundTrip | src/enums.rs:170-193 | `FilterScale` round-trips in both directions |
| Eigen.SortToNative | src/eigen.rs:43-52 | every order encodes to one of the four sort constants |
| Eigen.SortFromNative | src/eigen.rs:55-65 | decoding succeeds exactly on the four sort constants |
| Eigen.SortRoundTrip | src/eigen.rs:43-65 | `Sort` round-trips in both directions; with `TranscoderBijective`, `into` is injective |
| Eigen.SortVectors | src/eigen.rs:72-77 | `symmv_sort` (and `hermv_sort` 85-94, `nonsymmv_sort` 104-113, `gensymmv_sort` 120-125, `genhermv_sort` 133-142, `genv_sort` 152-166) return `Ok(())` exactly when the native status is SUCCESS; otherwise the error encodes back to that status |
| SfMathieu.GuardAsWritten | src/sf/mathieu.rs:98-101 | the range check as written: panics on `i32` overflow, and when it passes the range is ordered and needs at most one slot more than the capacity |
| SfMathieu.Guard | src/sf/mathieu.rs:87-101 | the corrected check passes exactly when `nmin <= nmax` and all `nmax - nmin + 1` values fit |
| SfMathieu.GuardAsWrittenOffByOne | src/sf/mathieu.rs:98-101 | the check as written accepts what the corrected one accepts plus exactly the ranges one slot too long |
| SfMathieu.GuardAsWrittenOverruns | src/sf/mathieu.rs:87-101 | orders 0..1 into a one-slot slice pass the check as written, yet two values are stored |
| SfMathieu.GuardOverflowPanics | src/sf/mathieu.rs:98 | orders -1 and `i32::MAX` make the subtraction panic before any check |
| SfMathieu.Mathieu.New | src/sf/mathieu.rs:47-55 | `None` exactly when the allocator returned null; otherwise a fresh workspace wrapping that pointer |
| SfMathieu.Mathieu.StoreOrders | src/sf/mathieu.rs:91-112 | the six array methods with the corrected check: an invalid range is `Err(Invalid)` and changes nothing; otherwise exactly the first `nmax - nmin + 1` slots and the workspace are rewritten, and the result is `handle` of the status |
| SfBessel.RangeCheck | src/sf/bessel.rs:58 | panics when `nmax < nmin`; when it passes, all `nmax - nmin + 1` values fit; for slices shorter than 2^32 it passes exactly then |
| SfBessel.DegreeCheck | src/sf/bessel.rs:189 | when it passes, all `lmax + 1` values fit; for slices shorter than 2^32 it passes exactly then |
| SfBessel.TruncationRefusesHugeSlice | src/sf/bessel.rs:58 | a slice of exactly 2^32 slots is refused even for one value, because of the truncating cast |
| SfBessel.ChecksSeeLengthModulo | src/sf/bessel.rs:58 | both checks treat slice lengths 2^32 apart alike |
| SfBessel.StoreRange | src/sf/bessel.rs:57-62 | `In_array`, `In_scaled_array`, `Jn_array`, `Kn_array`, `Kn_scaled_array` and `Yn_array`: panic exactly when the check fails, touching nothing; otherwise only the first `nmax - nmin + 1` slots are rewritten and the result is `handle` of the status |
| SfBessel.StoreDegrees | src/sf/bessel.rs:188-193 | `il_scaled_array`, `jl_array`, `jl_steed_array`, `kl_scaled_array` and `yl_array`: the same, for the `lmax + 1` degrees |
| SfBessel.SequenceJnu | src/sf/bessel.rs:390-394 | exactly the whole of `v` is overwritten, and the result is `handle` of the status |
| Polynomials.Poly.Len | src/polynomials.rs:38-40 | `len()` is the number of coefficients |
| Polynomials.Poly.IsEmpty | src/polynomials.rs:38-44 | `is_empty()` holds exactly when `len() == 0` |
| Polynomials.PolyDD.Len | src/polynomials.rs:118-120 | `len()` is the number of divided differences |
| Polynomials.PolyDD.IsEmpty | src/polynomials.rs:118-124 | `is_empty()` holds exactly when `len() == 0` |
| Polynomials.New | src/polynomials.rs:126-144 | panics exactly when `x.len() != y.len()`; otherwise the result is `handle` of the status around the native differences over a copy of `x`, and on success `len() == x.len()` |
| Polynomials.Init | src/polynomials.rs:153-164 | panics exactly unless `dd`, `x` and `y` have one length; otherwise all of `dd` is rewritten and the result borrows `dd` and `x` |
| Polynomials.Taylor | src/polynomials.rs:180-199 | for any `PolyDD` holding at least `len()` abscissae (every one the constructors build without an earlier overrun): panics exactly unless `c` and `w` both have `self.len()` entries, touching nothing; otherwise both are rewritten and the result is `handle` of the status |
| Polynomials.HermiteSize | src/polynomials.rs:205-240 | the intended point count keeps every native access inside slices of the documented lengths, and it is the largest count that does |
| Polynomials.HermiteSizeAsWritten | src/polynomials.rs:223-232 | the point count the code hands the native routine, `dd.len()`; what it leads to is stated by the two lemmas below |
| Polynomials.HermiteAsWrittenOverruns | src/polynomials.rs:223-232 | with `dd.len()` as the point count, the native accesses stay in bounds only when `dd` is empty |
| Polynomials.HermiteOnePointOverruns | src/polynomials.rs:205-232 | one point with `dd` and `z` of the documented length 2 is already out of bounds |
| Polynomials.HermiteInit | src/polynomials.rs:216-240 | corrected: panics exactly unless `x`, `y`, `dy` share a length and `dd`, `z` have twice it; otherwise all of `dd` and `z` is rewritten and on success the result is a valid `PolyDD` of length `2 * x.len()` |
| Polynomials.QuadraticFromCount | src/polynomials.rs:290-296 | counts 0, 1 and 2 give `None`, `One(x0)` and `Two(x0, x1)`, that is, the first `n` slots in order; any other count panics |
| Polynomials.CubicFromCount | src/polynomials.rs:370-376 | counts 1 and 3 give `One(x0)` and `Three(x0, x1, x2)`; any other count panics |
| Polynomials.QuadraticRealRoots | src/polynomials.rs:287-297 | `real_roots` returns the first `n` slots the native solver wrote, for the count it returned |
| Polynomials.QuadraticComplexRoots | src/polynomials.rs:318-336 | `roots` uses the same count mapping for complex roots |
| Polynomials.CubicRealRoots | src/polynomials.rs:366-377 | `Cubic::real_roots` returns one or three of the slots, as the count says |
| Polynomials.QuadraticCountFaithful | src/polynomials.rs:290-296 | the decoded answer holds exactly `n` roots, so distinct counts give distinct answers |
| PhysicalConstantMksa.TimeUnits | src/physical_constant.rs:115-122 | MINUTE is 60 s, HOUR is 60 minutes, DAY is 24 hours, WEEK is 7 days |
| PhysicalConstantMksa.ImperialLengths | src/physical_constant.rs:125-144 | foot, yard and mile are 12 inches, 3 feet and 1760 yards; MIL is INCH / 1000; FATHOM is 2 yards |
| PhysicalConstantMksa.Speeds | src/physical_constant.rs:137-146 | MILES_PER_HOUR is exactly MILE / HOUR; kilometers per hour and knot are within 1e-12 of the exact quotient |
| PhysicalConstantMksa.PrinterPoints | src/physical_constant.rs:149-152 | POINT is 1/72 inch and TEXPOINT 1/72.27 inch, each to within 1e-15 m |
| PhysicalConstantMksa.MassesAndVolumes | src/physical_constant.rs:164-186 | pound is 16 ounces; ton is 2000 pounds and UK ton 2240 pounds; METRIC_TON is 1000 kg; pint is half a quart and cup half a pint; a quart is a quarter gallon, to within 1e-15 |
| PhysicalConstantMksa.ForcesAndPressures | src/physical_constant.rs:191-218 | gram-force is GRAV_ACCEL / 1000; a kilopound is 1000 pounds of force; a meter of mercury is 1000 torr |
| PhysicalConstantMksa.CgsUnits | src/physical_constant.rs:257-264 | DYNE is 10^-5 NEWTON and ERG is 10^-7 JOULE |
| PhysicalConstantNum.Pow10 | src/physical_constant.rs:267-301 | the reference power of ten for the prefixes, positive for every integer exponent |
| PhysicalConstantNum.PrefixValues | src/physical_constant.rs:269-300 | each prefix from YOTTA = 10^24 down to YOCTO = 10^-24 is the power of ten its doc comment names |
| PhysicalConstantNum.PrefixReciprocals | src/physical_constant.rs:269-300 | matching large and small prefixes multiply to 1 |
| PhysicalConstantNum.PrefixLadder | src/physical_constant.rs:269-300 | adjacent prefixes are a factor of 1000 apart |

## Left out

- Numerical results of every foreign routine (BLAS kernels, special functions, eigen sorts, polynomial evaluation and solvers): each is a parameter of its wrapper. The model does not say what those routines compute.
- The scalar special functions (`Mathieu::a`, `b`, `Mc`, `Ms`, `Jnu`, `Jnu_e` and the other Bessel scalars) are one foreign call plus `Error::handle`, which is modelled.
- `nrm2`, `asum`, `iamax` have no member. Each takes a single vector and returns what the native routine returns, so there is no length condition to state. `Scal` stands for the unguarded case.
- `rotg` and the `rotmg` in `blas.rs` have no member. They only call the native routine and hand back its outputs.
- `rotmg` in `cblas.rs`: the model covers its decoding (`DecodeH`). The native routine's updates to `d1`, `d2` and `x1` are not modelled.
- `Cubic::roots` ignores the count the complex solver returns and hands back all three slots. There is no logic to model.
- `eval_derivs`, `Poly::eval`, `Poly::complex_eval`, `PolyDD::eval`: call-throughs with no guard.
- `hermv_sort`, `nonsymmv_sort`, `genhermv_sort` and `genv_sort` have the same body as `symmv_sort`, apart from the types of their arguments, so `SortVectors` covers them. The overwrite of `eval`, `evec`, `alpha` and `beta` by the sort routines is left out; only the status path is modelled.
- The complex `c` and `z` BLAS modules: their guards are the same as the real ones.
- The `#[ctor]` that disables the native error handler mutates global native state. It is left out.
- The Mathieu workspace's ownership wrapper (`ffi_wrapper!`, `Drop`, `unwrap_unique`) is not part of this model. The model says nothing about freeing the workspace once.
- `check_equal_len` is not part of this model. It is taken to compare the two lengths.
- Vector strides are not modelled. A vector is the sequence of its logical elements.
- Release builds wrap on overflow instead of panicking. Only the overflow-checked behaviour is modelled.
- The `u32`→`c_int` casts of `nmin`, `nmax` and `lmax` on the way to the Bessel routines are not modelled. They only matter above 2^31.
- Floating-point rounding. The physical constants are exact decimal reals, so relations such as MIL = INCH / 1000 hold exactly in the model but not necessarily in binary64.
- SfMathieu.Mathieu.StoreOrders uses the corrected range check, not the one in the code (see Findings). `GuardAsWritten` models the code as written.
- Polynomials.HermiteInit uses the corrected point count and adds length checks on `dd` and `z` (see Findings). `HermiteSizeAsWritten` models the code as written.
- The rest of the crate (`types/filter.rs`, `types/mod.rs`, `power.rs`, the other `sf` modules, `multifit.rs`, `multiroot.rs` and the `gsl-sys` bindings) is outside this model. Those files are foreign-call wrappers and container types, and their enums and status handling already appear here.

## Findings

| source | as written | input that shows it | evidently intended | confidence | as-written member | corrected member |
|---|---|---|---|---|---|---|
| src/sf/mathieu.rs:98-101 (and lines 125-127, 171-173, 200-202, 258-260, 289-291) | `len = nmax - nmin`, rejected only when `len < 0 \|\| len > result_array.len()` | `order_min = 0`, `order_max = 1`, a one-slot `result_array`: the check passes and the native routine stores two values | reject when `len + 1 > result_array.len()`, since the range is inclusive | high for the arithmetic; not executed | SfMathieu.GuardAsWritten, SfMathieu.GuardAsWrittenOverruns | SfMathieu.Guard, SfMathieu.Mathieu.StoreOrders |
| src/polynomials.rs:223-232 | the native point count is `dd.len()` | one point (`x`, `y`, `dy` of length 1) with `dd` and `z` of the documented length 2: the native routine is told 2 points, reads 2 entries of each one-entry input and writes 4 entries into `dd` and `z` | the point count is `x.len()`, and `dd` and `z` hold `2 * x.len()` entries | medium: relies on the native routine's documented size parameter; not executed | Polynomials.HermiteSizeAsWritten, Polynomials.HermiteOnePointOverruns | Polynomials.HermiteSize, Polynomials.HermiteInit |
