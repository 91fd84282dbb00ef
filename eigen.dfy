/**
 * The eigenvalue sort order of the `eigen` module, its mapping to the
 * native constants, and the sort wrappers' translation of the native
 * status into a `Result`.
 */
module Eigen {
  import opened Native
  import opened GslError

  const GSL_EIGEN_SORT_VAL_ASC: CInt := 0
  const GSL_EIGEN_SORT_VAL_DESC: CInt := 1
  const GSL_EIGEN_SORT_ABS_ASC: CInt := 2
  const GSL_EIGEN_SORT_ABS_DESC: CInt := 3

  const SortCodes: set<CInt> :=
    {GSL_EIGEN_SORT_VAL_ASC, GSL_EIGEN_SORT_VAL_DESC, GSL_EIGEN_SORT_ABS_ASC, GSL_EIGEN_SORT_ABS_DESC}

  datatype Sort = Asc | Desc | AbsAsc | AbsDesc

  function SortToNative(s: Sort): (c: CInt)
    ensures c in SortCodes
  {
    match s
    case Asc => GSL_EIGEN_SORT_VAL_ASC
    case Desc => GSL_EIGEN_SORT_VAL_DESC
    case AbsAsc => GSL_EIGEN_SORT_ABS_ASC
    case AbsDesc => GSL_EIGEN_SORT_ABS_DESC
  }

  function SortFromNative(c: CInt): (r: Option<Sort>)
    ensures r.Some? <==> c in SortCodes
  {
    if c == GSL_EIGEN_SORT_VAL_ASC then Some(Asc)
    else if c == GSL_EIGEN_SORT_VAL_DESC then Some(Desc)
    else if c == GSL_EIGEN_SORT_ABS_ASC then Some(AbsAsc)
    else if c == GSL_EIGEN_SORT_ABS_DESC then Some(AbsDesc)
    else None
  }

  lemma SortRoundTrip()
    ensures IsTranscoder(SortToNative, SortFromNative, SortCodes)
  {
  }

  /** `symmv_sort`, `hermv_sort`, `nonsymmv_sort`, `gensymmv_sort`,
      `genhermv_sort` and `genv_sort`: the native routine is handed the
      encoded order and its status decides the result, which is `Ok`
      exactly on success and otherwise the decoded error.  `native` is the
      status the routine returns for a given order constant. */
  function SortVectors(sort: Sort, native: CInt -> CInt): (r: Result<()>)
    ensures r.Ok? <==> native(SortToNative(sort)) == GSL_SUCCESS
    ensures r.Err? ==> ToC(r) == native(SortToNative(sort))
  {
    Handle(native(SortToNative(sort)), ())
  }
}
