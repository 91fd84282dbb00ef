/**
 * The status-code taxonomy of GSL and its two-way mapping to the native
 * `c_int` codes: `Handle` turns what a native routine returned into a
 * `Result`, `ToC` turns a `Result` back into the native code, and `Message`
 * is the human-readable text of each variant.
 */
module GslError {
  import opened Native

  // Native status codes of the GSL library.
  const GSL_SUCCESS: CInt := 0
  const GSL_FAILURE: CInt := -1
  const GSL_CONTINUE: CInt := -2
  const GSL_EDOM: CInt := 1
  const GSL_ERANGE: CInt := 2
  const GSL_EFAULT: CInt := 3
  const GSL_EINVAL: CInt := 4
  const GSL_EFAILED: CInt := 5
  const GSL_EFACTOR: CInt := 6
  const GSL_ESANITY: CInt := 7
  const GSL_ENOMEM: CInt := 8
  const GSL_EBADFUNC: CInt := 9
  const GSL_ERUNAWAY: CInt := 10
  const GSL_EMAXITER: CInt := 11
  const GSL_EZERODIV: CInt := 12
  const GSL_EBADTOL: CInt := 13
  const GSL_ETOL: CInt := 14
  const GSL_EUNDRFLW: CInt := 15
  const GSL_EOVRFLW: CInt := 16
  const GSL_ELOSS: CInt := 17
  const GSL_EROUND: CInt := 18
  const GSL_EBADLEN: CInt := 19
  const GSL_ENOTSQR: CInt := 20
  const GSL_ESING: CInt := 21
  const GSL_EDIVERGE: CInt := 22
  const GSL_EUNSUP: CInt := 23
  const GSL_EUNIMPL: CInt := 24
  const GSL_ECACHE: CInt := 25
  const GSL_ETABLE: CInt := 26
  const GSL_ENOPROG: CInt := 27
  const GSL_ENOPROGJ: CInt := 28
  const GSL_ETOLF: CInt := 29
  const GSL_ETOLX: CInt := 30
  const GSL_ETOLG: CInt := 31
  const GSL_EOF: CInt := 32

  /** Every code that has a name of its own: success and the 34 failures. */
  const NamedCodes: set<CInt> := {
    GSL_SUCCESS, GSL_FAILURE, GSL_CONTINUE, GSL_EDOM, GSL_ERANGE, GSL_EFAULT,
    GSL_EINVAL, GSL_EFAILED, GSL_EFACTOR, GSL_ESANITY, GSL_ENOMEM, GSL_EBADFUNC,
    GSL_ERUNAWAY, GSL_EMAXITER, GSL_EZERODIV, GSL_EBADTOL, GSL_ETOL, GSL_EUNDRFLW,
    GSL_EOVRFLW, GSL_ELOSS, GSL_EROUND, GSL_EBADLEN, GSL_ENOTSQR, GSL_ESING,
    GSL_EDIVERGE, GSL_EUNSUP, GSL_EUNIMPL, GSL_ECACHE, GSL_ETABLE, GSL_ENOPROG,
    GSL_ENOPROGJ, GSL_ETOLF, GSL_ETOLX, GSL_ETOLG, GSL_EOF
  }

  /** The failure variants; `Unknown` keeps any code without a name. */
  datatype Error =
    | Failure | Continue | Domain | Range | Fault | Invalid | Failed
    | Factorization | Sanity | NoMemory | BadFunction | RunAway | MaxIteration
    | ZeroDiv | BadTolerance | Tolerance | UnderFlow | OverFlow | Loss | Round
    | BadLength | NotSquare | Singularity | Diverge | Unsupported | Unimplemented
    | Cache | Table | NoProgress | NoProgressJacobian | ToleranceF | ToleranceX
    | ToleranceG | EOF
    | Unknown(code: CInt)

  datatype Result<T> = Ok(value: T) | Err(error: Error)

  /** `Error::handle`: success carries `x`; every other code becomes an error. */
  function Handle<T>(v: CInt, x: T): (r: Result<T>)
    ensures r.Ok? <==> v == GSL_SUCCESS
    ensures r.Ok? ==> r.value == x
    ensures v in NamedCodes && v != GSL_SUCCESS ==> r.Err? && !r.error.Unknown?
    ensures v !in NamedCodes <==> r == Err(Unknown(v))
  {
    if v == GSL_SUCCESS then Ok(x)
    else if v == GSL_FAILURE then Err(Failure)
    else if v == GSL_CONTINUE then Err(Continue)
    else if v == GSL_EDOM then Err(Domain)
    else if v == GSL_ERANGE then Err(Range)
    else if v == GSL_EFAULT then Err(Fault)
    else if v == GSL_EINVAL then Err(Invalid)
    else if v == GSL_EFAILED then Err(Failed)
    else if v == GSL_EFACTOR then Err(Factorization)
    else if v == GSL_ESANITY then Err(Sanity)
    else if v == GSL_ENOMEM then Err(NoMemory)
    else if v == GSL_EBADFUNC then Err(BadFunction)
    else if v == GSL_ERUNAWAY then Err(RunAway)
    else if v == GSL_EMAXITER then Err(MaxIteration)
    else if v == GSL_EZERODIV then Err(ZeroDiv)
    else if v == GSL_EBADTOL then Err(BadTolerance)
    else if v == GSL_ETOL then Err(Tolerance)
    else if v == GSL_EUNDRFLW then Err(UnderFlow)
    else if v == GSL_EOVRFLW then Err(OverFlow)
    else if v == GSL_ELOSS then Err(Loss)
    else if v == GSL_EROUND then Err(Round)
    else if v == GSL_EBADLEN then Err(BadLength)
    else if v == GSL_ENOTSQR then Err(NotSquare)
    else if v == GSL_ESING then Err(Singularity)
    else if v == GSL_EDIVERGE then Err(Diverge)
    else if v == GSL_EUNSUP then Err(Unsupported)
    else if v == GSL_EUNIMPL then Err(Unimplemented)
    else if v == GSL_ECACHE then Err(Cache)
    else if v == GSL_ETABLE then Err(Table)
    else if v == GSL_ENOPROG then Err(NoProgress)
    else if v == GSL_ENOPROGJ then Err(NoProgressJacobian)
    else if v == GSL_ETOLF then Err(ToleranceF)
    else if v == GSL_ETOLX then Err(ToleranceX)
    else if v == GSL_ETOLG then Err(ToleranceG)
    else if v == GSL_EOF then Err(EOF)
    else Err(Unknown(v))
  }

  /** `Error::to_c`: the native code of a unit result. */
  function ToC(x: Result<()>): (c: CInt)
    ensures c == GSL_SUCCESS <==> x.Ok? || x == Err(Unknown(GSL_SUCCESS))
    ensures x.Err? && x.error.Unknown? ==> c == x.error.code
    ensures x.Err? && !x.error.Unknown? ==> c in NamedCodes && c != GSL_SUCCESS
  {
    match x
    case Ok(_) => GSL_SUCCESS
    case Err(e) =>
      match e
      case Failure => GSL_FAILURE
      case Continue => GSL_CONTINUE
      case Domain => GSL_EDOM
      case Range => GSL_ERANGE
      case Fault => GSL_EFAULT
      case Invalid => GSL_EINVAL
      case Failed => GSL_EFAILED
      case Factorization => GSL_EFACTOR
      case Sanity => GSL_ESANITY
      case NoMemory => GSL_ENOMEM
      case BadFunction => GSL_EBADFUNC
      case RunAway => GSL_ERUNAWAY
      case MaxIteration => GSL_EMAXITER
      case ZeroDiv => GSL_EZERODIV
      case BadTolerance => GSL_EBADTOL
      case Tolerance => GSL_ETOL
      case UnderFlow => GSL_EUNDRFLW
      case OverFlow => GSL_EOVRFLW
      case Loss => GSL_ELOSS
      case Round => GSL_EROUND
      case BadLength => GSL_EBADLEN
      case NotSquare => GSL_ENOTSQR
      case Singularity => GSL_ESING
      case Diverge => GSL_EDIVERGE
      case Unsupported => GSL_EUNSUP
      case Unimplemented => GSL_EUNIMPL
      case Cache => GSL_ECACHE
      case Table => GSL_ETABLE
      case NoProgress => GSL_ENOPROG
      case NoProgressJacobian => GSL_ENOPROGJ
      case ToleranceF => GSL_ETOLF
      case ToleranceX => GSL_ETOLX
      case ToleranceG => GSL_ETOLG
      case EOF => GSL_EOF
      case Unknown(c) => c
  }

  /** The `Display` text of an error. */
  function Message(e: Error): (s: string)
  {
    match e
    case Failure => "Failure"
    case Continue => "The iteration has not converged yet"
    case Domain => "Input domain error"
    case Range => "Output range error"
    case Fault => "Invalid pointer"
    case Invalid => "Invalid argument supplied by user"
    case Failed => "generic failure"
    case Factorization => "Factorization failed"
    case Sanity => "Sanity check failed - shouldn't happen"
    case NoMemory => "Malloc failed"
    case BadFunction => "Problem with user-supplied function"
    case RunAway => "Iterative process is out of control"
    case MaxIteration => "Exceeded max number of iterations"
    case ZeroDiv => "Tried to divide by zero"
    case BadTolerance => "Specified tolerance is invalid or theoretically unattainable"
    case Tolerance => "Failed to reach the specified tolerance"
    case UnderFlow => "Underflow"
    case OverFlow => "Overflow"
    case Loss => "Loss of accuracy"
    case Round => "Roundoff error"
    case BadLength => "Matrix/vector sizes are not conformant"
    case NotSquare => "Matrix not square"
    case Singularity => "Singularity or extremely bad function behavior detected"
    case Diverge => "Integral or series is divergent"
    case Unsupported => "The required feature is not supported by this hardware platform"
    case Unimplemented => "The requested feature is not (yet) implemented"
    case Cache => "Cache limit exceeded"
    case Table => "Table limit exceeded"
    case NoProgress => "Iteration is not making progress towards solution"
    case NoProgressJacobian => "Jacobian evaluations are not improving the solution"
    case ToleranceF => "Cannot reach the specified tolerance in F"
    case ToleranceX => "Cannot reach the specified tolerance in X"
    case ToleranceG => "Cannot reach the specified tolerance in gradient"
    case EOF => "End of file"
    case Unknown(_) => "Unknown error"
  }

  /** Every unrecognised code prints the same text, whatever its value. */
  lemma UnknownMessage(a: CInt, b: CInt)
    ensures Message(Unknown(a)) == Message(Unknown(b)) == "Unknown error"
  {
  }

  /** The length of a text, its last character and its seventeenth
      character from the end (a space when it is shorter). */
  function Fingerprint(s: string): (nat, char, char)
  {
    if |s| == 0 then (0, ' ', ' ')
    else (|s|, s[|s| - 1], if |s| >= 17 then s[|s| - 17] else ' ')
  }

  /** The named variant whose text has fingerprint `f`, if any. */
  function VariantOf(f: (nat, char, char)): Option<Error>
  {
    var (n, last, back) := f;
    match n
    case 7 => if (last, back) == ('e', ' ') then Some(Failure) else None
    case 8 => if (last, back) == ('w', ' ') then Some(OverFlow) else None
    case 9 => if (last, back) == ('w', ' ') then Some(UnderFlow) else None
    case 11 => if (last, back) == ('e', ' ') then Some(EOF) else None
    case 13 => if (last, back) == ('d', ' ') then Some(NoMemory) else None
    case 14 => if (last, back) == ('r', ' ') then Some(Round) else None
    case 15 =>
      if (last, back) == ('r', ' ') then Some(Fault)
      else if (last, back) == ('e', ' ') then Some(Failed)
      else None
    case 16 => if (last, back) == ('y', ' ') then Some(Loss) else None
    case 17 => if (last, back) == ('e', 'M') then Some(NotSquare) else None
    case 18 =>
      if (last, back) == ('r', 'n') then Some(Domain)
      else if (last, back) == ('r', 'u') then Some(Range)
      else None
    case 20 =>
      if (last, back) == ('d', 't') then Some(Factorization)
      else if (last, back) == ('d', 'h') then Some(Cache)
      else if (last, back) == ('d', 'l') then Some(Table)
      else None
    case 23 => if (last, back) == ('o', 't') then Some(ZeroDiv) else None
    case 31 => if (last, back) == ('t', 'r') then Some(Diverge) else None
    case 33 =>
      if (last, back) == ('r', ' ') then Some(Invalid)
      else if (last, back) == ('s', 'b') then Some(MaxIteration)
      else None
    case 35 =>
      if (last, back) == ('t', 'n') then Some(Continue)
      else if (last, back) == ('n', 's') then Some(BadFunction)
      else if (last, back) == ('l', 'i') then Some(RunAway)
      else None
    case 38 =>
      if (last, back) == ('n', ' ') then Some(Sanity)
      else if (last, back) == ('t', 'r') then Some(BadLength)
      else None
    case 39 => if (last, back) == ('e', 'e') then Some(Tolerance) else None
    case 41 =>
      if (last, back) == ('F', 'e') then Some(ToleranceF)
      else if (last, back) == ('X', 'e') then Some(ToleranceX)
      else None
    case 46 => if (last, back) == ('d', '(') then Some(Unimplemented) else None
    case 48 => if (last, back) == ('t', 'r') then Some(ToleranceG) else None
    case 49 => if (last, back) == ('n', ' ') then Some(NoProgress) else None
    case 51 => if (last, back) == ('n', 'v') then Some(NoProgressJacobian) else None
    case 55 => if (last, back) == ('d', 'b') then Some(Singularity) else None
    case 60 => if (last, back) == ('e', 'a') then Some(BadTolerance) else None
    case 63 => if (last, back) == ('m', 'h') then Some(Unsupported) else None
    case _ => None
  }

  /** The fingerprint of a named variant's text identifies the variant,
      and that of `Unknown`'s text identifies none. */
  lemma MessageFingerprint(e: Error)
    ensures VariantOf(Fingerprint(Message(e))) == if e.Unknown? then None else Some(e)
  {
    match e
    case Failure | Continue | Domain | Range | Fault => MessageFingerprintPart0(e);
    case Invalid | Failed | Factorization | Sanity | NoMemory => MessageFingerprintPart1(e);
    case BadFunction | RunAway | MaxIteration => MessageFingerprintPart2(e);
    case ZeroDiv | BadTolerance => MessageFingerprintPart3(e);
    case Tolerance | UnderFlow | OverFlow | Loss | Round => MessageFingerprintPart4(e);
    case BadLength | NotSquare | Singularity => MessageFingerprintPart5(e);
    case Diverge | Unsupported => MessageFingerprintPart6(e);
    case Unimplemented | Cache | Table => MessageFingerprintPart7(e);
    case NoProgress | NoProgressJacobian => MessageFingerprintPart8(e);
    case ToleranceF | ToleranceX => MessageFingerprintPart9(e);
    case ToleranceG | EOF => MessageFingerprintPart10(e);
    case Unknown(_) =>
  }

  /* The cases of `MessageFingerprint`, a few variants at a time: the
     verifier reads a text's length and characters one character at a
     time, so each lemma covers only a few texts. */

  lemma MessageFingerprintPart0(e: Error)
    requires e == Failure || e == Continue || e == Domain || e == Range
      || e == Fault
    ensures VariantOf(Fingerprint(Message(e))) == Some(e)
  {
  }

  lemma MessageFingerprintPart1(e: Error)
    requires e == Invalid || e == Failed || e == Factorization || e == Sanity
      || e == NoMemory
    ensures VariantOf(Fingerprint(Message(e))) == Some(e)
  {
  }

  lemma MessageFingerprintPart2(e: Error)
    requires e == BadFunction || e == RunAway || e == MaxIteration
    ensures VariantOf(Fingerprint(Message(e))) == Some(e)
  {
  }

  lemma MessageFingerprintPart3(e: Error)
    requires e == ZeroDiv || e == BadTolerance
    ensures VariantOf(Fingerprint(Message(e))) == Some(e)
  {
  }

  lemma MessageFingerprintPart4(e: Error)
    requires e == Tolerance || e == UnderFlow || e == OverFlow || e == Loss
      || e == Round
    ensures VariantOf(Fingerprint(Message(e))) == Some(e)
  {
  }

  lemma MessageFingerprintPart5(e: Error)
    requires e == BadLength || e == NotSquare || e == Singularity
    ensures VariantOf(Fingerprint(Message(e))) == Some(e)
  {
  }

  lemma MessageFingerprintPart6(e: Error)
    requires e == Diverge || e == Unsupported
    ensures VariantOf(Fingerprint(Message(e))) == Some(e)
  {
  }

  lemma MessageFingerprintPart7(e: Error)
    requires e == Unimplemented || e == Cache || e == Table
    ensures VariantOf(Fingerprint(Message(e))) == Some(e)
  {
  }

  lemma MessageFingerprintPart8(e: Error)
    requires e == NoProgress || e == NoProgressJacobian
    ensures VariantOf(Fingerprint(Message(e))) == Some(e)
  {
  }

  lemma MessageFingerprintPart9(e: Error)
    requires e == ToleranceF || e == ToleranceX
    ensures VariantOf(Fingerprint(Message(e))) == Some(e)
  {
  }

  lemma MessageFingerprintPart10(e: Error)
    requires e == ToleranceG || e == EOF
    ensures VariantOf(Fingerprint(Message(e))) == Some(e)
  {
  }

  /** A named variant's text is its own: any error that displays the same
      text is that variant. */
  lemma MessageInjective(e1: Error, e2: Error)
    requires !e1.Unknown?
    requires Message(e1) == Message(e2)
    ensures e1 == e2
  {
    MessageFingerprint(e1);
    MessageFingerprint(e2);
  }

  /** The texts tell the errors apart: two errors display alike exactly
      when they are the same variant, or both `Unknown` (whatever codes
      they hold). */
  lemma MessageDistinguishes(e1: Error, e2: Error)
    ensures Message(e1) == Message(e2) <==> e1 == e2 || (e1.Unknown? && e2.Unknown?)
  {
    if e1.Unknown? && e2.Unknown? {
      UnknownMessage(e1.code, e2.code);
    } else if Message(e1) == Message(e2) {
      if e1.Unknown? {
        MessageInjective(e2, e1);
      } else {
        MessageInjective(e1, e2);
      }
    }
  }

  /** Two of the named codes, each decoded to its own variant. */
  lemma HandleExamples()
    ensures Handle(GSL_EMAXITER, ()) == Err(MaxIteration)
    ensures Handle(GSL_EBADLEN, ()) == Err(BadLength)
    ensures ToC(Err(MaxIteration)) == 11 && ToC(Err(BadLength)) == 19
  {
  }

  /** Decoding the code of a named error gives that error back. */
  lemma HandleToC(e: Error)
    requires !e.Unknown?
    ensures Handle(ToC(Err(e)), ()) == Err(e)
  {
  }

  /** Encoding the decoded form of a named code gives the code back. */
  lemma ToCHandle(c: CInt)
    requires c in NamedCodes
    ensures ToC(Handle(c, ())) == c
  {
  }

  /** A code without a name is kept in `Unknown` and comes back unchanged. */
  lemma UnknownRoundTrip(c: CInt)
    requires c !in NamedCodes
    ensures Handle(c, ()) == Err(Unknown(c))
    ensures ToC(Handle(c, ())) == c
  {
  }

  /** The whole round trip on unit results: decoding an encoded result
      gives it back, except for an `Unknown` that smuggles a named code,
      which decodes to that code's own variant (or to `Ok` for 0). */
  lemma HandleToCAll(x: Result<()>)
    ensures !(x.Err? && x.error.Unknown? && x.error.code in NamedCodes) ==> Handle(ToC(x), ()) == x
    ensures x.Err? && x.error.Unknown? && x.error.code in NamedCodes ==> Handle(ToC(x), ()) != x
  {
    match x
    case Ok(u) =>
      assert u == ();
    case Err(e) =>
      if e.Unknown? {
        if e.code !in NamedCodes {
          UnknownRoundTrip(e.code);
        }
      } else {
        HandleToC(e);
      }
  }

  /** `Unknown(0)` encodes to the success code and so decodes to `Ok`. */
  lemma UnknownZeroIsSuccess()
    ensures ToC(Err(Unknown(0))) == GSL_SUCCESS
    ensures Handle(ToC(Err(Unknown(0))), ()) == Ok(())
  {
  }

  /** Distinct named codes decode to distinct errors. */
  lemma HandleInjective(a: CInt, b: CInt)
    requires a in NamedCodes && b in NamedCodes && a != b
    ensures Handle(a, ()) != Handle(b, ())
  {
    ToCHandle(a);
    ToCHandle(b);
  }

  /** The named failures are exactly the codes that are neither success
      nor `Unknown`: the decoded variant fixes the code. */
  lemma ToCInjective(e1: Error, e2: Error)
    requires !e1.Unknown? && !e2.Unknown? && e1 != e2
    ensures ToC(Err(e1)) != ToC(Err(e2))
  {
    HandleToC(e1);
    HandleToC(e2);
  }
}
