/**
 * The option enums shared by several GSL modules (VEGAS integration,
 * wavelet transforms, Legendre normalisation, moving-window filters) and
 * their two-way mapping to the native constants.  Every `Into` is total;
 * every `From` panics outside its enum, which is `None` below.
 */
module Enums {
  import N = Native

  // Native constants of the GSL headers.
  const GSL_VEGAS_MODE_IMPORTANCE: N.CInt := 1
  const GSL_VEGAS_MODE_IMPORTANCE_ONLY: N.CInt := 0
  const GSL_VEGAS_MODE_STRATIFIED: N.CInt := -1
  const gsl_wavelet_forward: N.CInt := 1
  const gsl_wavelet_backward: N.CInt := -1
  const GSL_SF_LEGENDRE_SCHMIDT: N.CInt := 0
  const GSL_SF_LEGENDRE_SPHARM: N.CInt := 1
  const GSL_SF_LEGENDRE_FULL: N.CInt := 2
  const GSL_SF_LEGENDRE_NONE: N.CInt := 3
  const GSL_FILTER_END_PADZERO: N.CInt := 0
  const GSL_FILTER_END_PADVALUE: N.CInt := 1
  const GSL_FILTER_END_TRUNCATE: N.CInt := 2
  const GSL_FILTER_SCALE_MAD: N.CInt := 0
  const GSL_FILTER_SCALE_IQR: N.CInt := 1
  const GSL_FILTER_SCALE_SN: N.CInt := 2
  const GSL_FILTER_SCALE_QN: N.CInt := 3

  const VegasModeCodes: set<N.CInt> :=
    {GSL_VEGAS_MODE_IMPORTANCE, GSL_VEGAS_MODE_IMPORTANCE_ONLY, GSL_VEGAS_MODE_STRATIFIED}
  const WaveletDirectionCodes: set<N.CInt> := {gsl_wavelet_forward, gsl_wavelet_backward}
  const SfLegendreNormCodes: set<N.CInt> :=
    {GSL_SF_LEGENDRE_SCHMIDT, GSL_SF_LEGENDRE_SPHARM, GSL_SF_LEGENDRE_FULL, GSL_SF_LEGENDRE_NONE}
  const FilterEndCodes: set<N.CInt> :=
    {GSL_FILTER_END_PADZERO, GSL_FILTER_END_PADVALUE, GSL_FILTER_END_TRUNCATE}
  const FilterScaleCodes: set<N.CInt> :=
    {GSL_FILTER_SCALE_MAD, GSL_FILTER_SCALE_IQR, GSL_FILTER_SCALE_SN, GSL_FILTER_SCALE_QN}

  datatype VegasMode = Importance | ImportanceOnly | Stratified
  datatype WaveletDirection = Forward | Backward
  datatype SfLegendreNorm = Schmidt | SphericalHarmonic | Full | None
  datatype FilterEnd = PadZero | PadValue | Truncate
  datatype FilterScale = MedianAbsoluteDeviation | InterQuartileRange | SN | QN

  function VegasModeToNative(m: VegasMode): (c: N.CInt)
    ensures c in VegasModeCodes
  {
    match m
    case Importance => GSL_VEGAS_MODE_IMPORTANCE
    case ImportanceOnly => GSL_VEGAS_MODE_IMPORTANCE_ONLY
    case Stratified => GSL_VEGAS_MODE_STRATIFIED
  }

  function VegasModeFromNative(c: N.CInt): (r: N.Option<VegasMode>)
    ensures r.Some? <==> c in VegasModeCodes
  {
    if c == GSL_VEGAS_MODE_IMPORTANCE then N.Some(Importance)
    else if c == GSL_VEGAS_MODE_IMPORTANCE_ONLY then N.Some(ImportanceOnly)
    else if c == GSL_VEGAS_MODE_STRATIFIED then N.Some(Stratified)
    else N.None
  }

  function WaveletDirectionToNative(d: WaveletDirection): (c: N.CInt)
    ensures c in WaveletDirectionCodes
  {
    match d
    case Forward => gsl_wavelet_forward
    case Backward => gsl_wavelet_backward
  }

  function WaveletDirectionFromNative(c: N.CInt): (r: N.Option<WaveletDirection>)
    ensures r.Some? <==> c in WaveletDirectionCodes
  {
    if c == gsl_wavelet_forward then N.Some(Forward)
    else if c == gsl_wavelet_backward then N.Some(Backward)
    else N.None
  }

  function SfLegendreNormToNative(n: SfLegendreNorm): (c: N.CInt)
    ensures c in SfLegendreNormCodes
  {
    match n
    case Schmidt => GSL_SF_LEGENDRE_SCHMIDT
    case SphericalHarmonic => GSL_SF_LEGENDRE_SPHARM
    case Full => GSL_SF_LEGENDRE_FULL
    case None => GSL_SF_LEGENDRE_NONE
  }

  function SfLegendreNormFromNative(c: N.CInt): (r: N.Option<SfLegendreNorm>)
    ensures r.Some? <==> c in SfLegendreNormCodes
  {
    if c == GSL_SF_LEGENDRE_SCHMIDT then N.Some(Schmidt)
    else if c == GSL_SF_LEGENDRE_SPHARM then N.Some(SphericalHarmonic)
    else if c == GSL_SF_LEGENDRE_FULL then N.Some(Full)
    else if c == GSL_SF_LEGENDRE_NONE then N.Some(None)
    else N.None
  }

  function FilterEndToNative(e: FilterEnd): (c: N.CInt)
    ensures c in FilterEndCodes
  {
    match e
    case PadZero => GSL_FILTER_END_PADZERO
    case PadValue => GSL_FILTER_END_PADVALUE
    case Truncate => GSL_FILTER_END_TRUNCATE
  }

  function FilterEndFromNative(c: N.CInt): (r: N.Option<FilterEnd>)
    ensures r.Some? <==> c in FilterEndCodes
  {
    if c == GSL_FILTER_END_PADZERO then N.Some(PadZero)
    else if c == GSL_FILTER_END_PADVALUE then N.Some(PadValue)
    else if c == GSL_FILTER_END_TRUNCATE then N.Some(Truncate)
    else N.None
  }

  function FilterScaleToNative(s: FilterScale): (c: N.CInt)
    ensures c in FilterScaleCodes
  {
    match s
    case MedianAbsoluteDeviation => GSL_FILTER_SCALE_MAD
    case InterQuartileRange => GSL_FILTER_SCALE_IQR
    case SN => GSL_FILTER_SCALE_SN
    case QN => GSL_FILTER_SCALE_QN
  }

  function FilterScaleFromNative(c: N.CInt): (r: N.Option<FilterScale>)
    ensures r.Some? <==> c in FilterScaleCodes
  {
    if c == GSL_FILTER_SCALE_MAD then N.Some(MedianAbsoluteDeviation)
    else if c == GSL_FILTER_SCALE_IQR then N.Some(InterQuartileRange)
    else if c == GSL_FILTER_SCALE_SN then N.Some(SN)
    else if c == GSL_FILTER_SCALE_QN then N.Some(QN)
    else N.None
  }

  lemma VegasModeRoundTrip()
    ensures N.IsTranscoder(VegasModeToNative, VegasModeFromNative, VegasModeCodes)
  {
  }

  lemma WaveletDirectionRoundTrip()
    ensures N.IsTranscoder(WaveletDirectionToNative, WaveletDirectionFromNative, WaveletDirectionCodes)
  {
  }

  lemma SfLegendreNormRoundTrip()
    ensures N.IsTranscoder(SfLegendreNormToNative, SfLegendreNormFromNative, SfLegendreNormCodes)
  {
  }

  lemma FilterEndRoundTrip()
    ensures N.IsTranscoder(FilterEndToNative, FilterEndFromNative, FilterEndCodes)
  {
  }

  lemma FilterScaleRoundTrip()
    ensures N.IsTranscoder(FilterScaleToNative, FilterScaleFromNative, FilterScaleCodes)
  {
  }
}
