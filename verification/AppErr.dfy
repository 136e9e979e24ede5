/**
 Application errors across gRPC: platform/apperr, the encoder in platform/grpc/interceptors/error.go and the decoder in
 platform/apperr/grpcerr/grpcerr.go.
 */
module AppErr {
  import opened Prelude
  import Json
  import Utf8

  /* ---------- code.go ---------- */

  /** The codes with a name of their own; a Code is any string. */
  datatype Known =
    | Canceled | Unknown | InvalidArgument | DeadlineExceeded | NotFound | AlreadyExists | PermissionDenied
    | ResourceExhausted | FailedPrecondition | Aborted | OutOfRange | Unimplemented | Internal | Unavailable
    | DataLoss | Unauthenticated

  /** A gRPC status code; `Other` stands for the numbers without a name. */
  datatype Grpc = OK | Code(known: Known) | Other(number: nat)

  /** The texts of the tables: not empty and ASCII. */
  type Label = s: bytes | s != [] && Utf8.Ascii(s) witness "?"

  const CODE_CANCELED: Label := "CANCELED"
  const CODE_UNKNOWN: Label := "UNKNOWN"
  const CODE_INVALID_ARGUMENT: Label := "INVALID_ARGUMENT"
  const CODE_DEADLINE_EXCEEDED: Label := "DEADLINE_EXCEEDED"
  const CODE_NOT_FOUND: Label := "NOT_FOUND"
  const CODE_ALREADY_EXISTS: Label := "ALREADY_EXISTS"
  const CODE_PERMISSION_DENIED: Label := "PERMISSION_DENIED"
  const CODE_RESOURCE_EXHAUSTED: Label := "RESOURCE_EXHAUSTED"
  const CODE_FAILED_PRECONDITION: Label := "FAILED_PRECONDITION"
  const CODE_ABORTED: Label := "ABORTED"
  const CODE_OUT_OF_RANGE: Label := "OUT_OF_RANGE"
  const CODE_UNIMPLEMENTED: Label := "UNIMPLEMENTED"
  const CODE_INTERNAL: Label := "INTERNAL"
  const CODE_UNAVAILABLE: Label := "UNAVAILABLE"
  const CODE_DATA_LOSS: Label := "DATA_LOSS"
  const CODE_UNAUTHENTICATED: Label := "UNAUTHENTICATED"

  function Name(k: Known): Label
  {
    match k
    case Canceled => CODE_CANCELED
    case Unknown => CODE_UNKNOWN
    case InvalidArgument => CODE_INVALID_ARGUMENT
    case DeadlineExceeded => CODE_DEADLINE_EXCEEDED
    case NotFound => CODE_NOT_FOUND
    case AlreadyExists => CODE_ALREADY_EXISTS
    case PermissionDenied => CODE_PERMISSION_DENIED
    case ResourceExhausted => CODE_RESOURCE_EXHAUSTED
    case FailedPrecondition => CODE_FAILED_PRECONDITION
    case Aborted => CODE_ABORTED
    case OutOfRange => CODE_OUT_OF_RANGE
    case Unimplemented => CODE_UNIMPLEMENTED
    case Internal => CODE_INTERNAL
    case Unavailable => CODE_UNAVAILABLE
    case DataLoss => CODE_DATA_LOSS
    case Unauthenticated => CODE_UNAUTHENTICATED
  }

  const ALL_KNOWN := [Canceled, Unknown, InvalidArgument, DeadlineExceeded, NotFound, AlreadyExists, PermissionDenied,
                     ResourceExhausted, FailedPrecondition, Aborted, OutOfRange, Unimplemented, Internal, Unavailable,
                     DataLoss, Unauthenticated]

  function Lookup(code: bytes, among: seq<Known>): Option<Known>
  {
    if among == [] then None
    else if Name(among[0]) == code then Some(among[0])
    else Lookup(code, among[1..])
  }

  /** The known code a string names, if it names one. */
  function KnownOf(code: bytes): Option<Known>
  {
    Lookup(code, ALL_KNOWN)
  }

  function GRPC(code: bytes): Grpc
  {
    match KnownOf(code) case None => Code(Internal) case Some(k) => Code(k)
  }

  function CodeFromGRPC(g: Grpc): bytes
  {
    match g
    case OK => ""
    case Code(k) => Name(k)
    case Other(_) => Name(Internal)
  }

  function HTTP(code: bytes): nat
  {
    StatusOf(KnownOf(code))
  }

  function StatusOf(k: Option<Known>): nat
  {
    match k
    case Some(InvalidArgument) => 400
    case Some(FailedPrecondition) => 400
    case Some(OutOfRange) => 400
    case Some(Unauthenticated) => 401
    case Some(PermissionDenied) => 403
    case Some(NotFound) => 404
    case Some(AlreadyExists) => 409
    case Some(Aborted) => 409
    case Some(ResourceExhausted) => 429
    case Some(Canceled) => 499
    case Some(Unimplemented) => 501
    case Some(Unavailable) => 503
    case Some(DeadlineExceeded) => 504
    case _ => 500
  }

  const MESSAGE_INVALID_ARGUMENT: Label := "invalid argument"
  const MESSAGE_NOT_FOUND: Label := "not found"
  const MESSAGE_ALREADY_EXISTS: Label := "already exists"
  const MESSAGE_ABORTED: Label := "aborted"
  const MESSAGE_CANCELED: Label := "canceled"
  const MESSAGE_RESOURCE_EXHAUSTED: Label := "resource exhausted"
  const MESSAGE_FAILED_PRECONDITION: Label := "failed precondition"
  const MESSAGE_OUT_OF_RANGE: Label := "out of range"
  const MESSAGE_UNIMPLEMENTED: Label := "unimplemented"
  const MESSAGE_UNAUTHENTICATED: Label := "unauthenticated"
  const MESSAGE_PERMISSION_DENIED: Label := "permission denied"
  const MESSAGE_DEADLINE_EXCEEDED: Label := "deadline exceeded"
  const MESSAGE_UNAVAILABLE: Label := "unavailable"
  const MESSAGE_INTERNAL: Label := "internal server error"

  function DefaultMessage(code: bytes): Label
  {
    MessageOf(KnownOf(code))
  }

  function MessageOf(k: Option<Known>): Label
  {
    match k
    case Some(InvalidArgument) => MESSAGE_INVALID_ARGUMENT
    case Some(NotFound) => MESSAGE_NOT_FOUND
    case Some(AlreadyExists) => MESSAGE_ALREADY_EXISTS
    case Some(Aborted) => MESSAGE_ABORTED
    case Some(Canceled) => MESSAGE_CANCELED
    case Some(ResourceExhausted) => MESSAGE_RESOURCE_EXHAUSTED
    case Some(FailedPrecondition) => MESSAGE_FAILED_PRECONDITION
    case Some(OutOfRange) => MESSAGE_OUT_OF_RANGE
    case Some(Unimplemented) => MESSAGE_UNIMPLEMENTED
    case Some(Unauthenticated) => MESSAGE_UNAUTHENTICATED
    case Some(PermissionDenied) => MESSAGE_PERMISSION_DENIED
    case Some(DeadlineExceeded) => MESSAGE_DEADLINE_EXCEEDED
    case Some(Unavailable) => MESSAGE_UNAVAILABLE
    case _ => MESSAGE_INTERNAL
  }

  lemma NamesDiffer(a: Known, b: Known)
    ensures Name(a) == Name(b) ==> a == b
  {
    var s, t := Name(a), Name(b);
    if s == t {
      assert |s| == |t| && s[0] == t[0] && s[1] == t[1] && s[2] == t[2];
    }
  }

  lemma {:induction false} LookupFinds(k: Known, among: seq<Known>)
    requires k in among
    ensures Lookup(Name(k), among) == Some(k)
  {
    NamesDiffer(among[0], k);
    if among[0] != k {
      LookupFinds(k, among[1..]);
    }
  }

  lemma {:induction false} LookupNames(code: bytes, among: seq<Known>)
    ensures Lookup(code, among).Some? ==> Name(Lookup(code, among).value) == code
  {
    if among != [] {
      LookupNames(code, among[1..]);
    }
  }

  lemma EveryCodeIsListed(k: Known)
    ensures k in ALL_KNOWN
  {
    var i := match k
      case Canceled => 0
      case Unknown => 1
      case InvalidArgument => 2
      case DeadlineExceeded => 3
      case NotFound => 4
      case AlreadyExists => 5
      case PermissionDenied => 6
      case ResourceExhausted => 7
      case FailedPrecondition => 8
      case Aborted => 9
      case OutOfRange => 10
      case Unimplemented => 11
      case Internal => 12
      case Unavailable => 13
      case DataLoss => 14
      case Unauthenticated => 15;
    assert ALL_KNOWN[i] == k;
  }

  lemma KnownOfName(k: Known)
    ensures KnownOf(Name(k)) == Some(k)
  {
    EveryCodeIsListed(k);
    LookupFinds(k, ALL_KNOWN);
  }

  lemma NameOfKnown(code: bytes)
    ensures KnownOf(code).Some? ==> Name(KnownOf(code).value) == code
  {
    LookupNames(code, ALL_KNOWN);
  }

  function ReadBack(k: Option<Known>): Known
  {
    match k case None => Internal case Some(known) => known
  }

  /** The tables undo each other on every named code, and any other code reads back as INTERNAL. */
  lemma GrpcRoundTrip(code: bytes)
    ensures CodeFromGRPC(GRPC(code)) == if KnownOf(code).Some? then code else Name(Internal)
    ensures KnownOf(CodeFromGRPC(GRPC(code))) == Some(ReadBack(KnownOf(code)))
    ensures HTTP(CodeFromGRPC(GRPC(code))) == HTTP(code)
  {
    var k := KnownOf(code);
    NameOfKnown(code);
    KnownOfName(ReadBack(k));
    assert CodeFromGRPC(GRPC(code)) == Name(ReadBack(k));
    SameStatus(k);
  }

  /** Every code travels under its own name, and the status a gateway answers with depends on the code alone. */
  lemma CodesOnTheWire(k: Known)
    ensures Name(k) ==
            match k
            case Canceled => "CANCELED"
            case Unknown => "UNKNOWN"
            case InvalidArgument => "INVALID_ARGUMENT"
            case DeadlineExceeded => "DEADLINE_EXCEEDED"
            case NotFound => "NOT_FOUND"
            case AlreadyExists => "ALREADY_EXISTS"
            case PermissionDenied => "PERMISSION_DENIED"
            case ResourceExhausted => "RESOURCE_EXHAUSTED"
            case FailedPrecondition => "FAILED_PRECONDITION"
            case Aborted => "ABORTED"
            case OutOfRange => "OUT_OF_RANGE"
            case Unimplemented => "UNIMPLEMENTED"
            case Internal => "INTERNAL"
            case Unavailable => "UNAVAILABLE"
            case DataLoss => "DATA_LOSS"
            case Unauthenticated => "UNAUTHENTICATED"
    ensures GRPC(Name(k)) == Code(k)
    ensures HTTP(Name(k)) == 400 <==> k in {InvalidArgument, FailedPrecondition, OutOfRange}
    ensures HTTP(Name(k)) == 401 <==> k == Unauthenticated
    ensures HTTP(Name(k)) == 403 <==> k == PermissionDenied
    ensures HTTP(Name(k)) == 404 <==> k == NotFound
    ensures HTTP(Name(k)) == 409 <==> k in {AlreadyExists, Aborted}
    ensures HTTP(Name(k)) == 429 <==> k == ResourceExhausted
    ensures HTTP(Name(k)) == 499 <==> k == Canceled
    ensures HTTP(Name(k)) == 501 <==> k == Unimplemented
    ensures HTTP(Name(k)) == 503 <==> k == Unavailable
    ensures HTTP(Name(k)) == 504 <==> k == DeadlineExceeded
    ensures HTTP(Name(k)) == 500 <==> k in {Internal, Unknown, DataLoss}
  {
    KnownOfName(k);
  }

  /** The message a caller sees of an error without a text of its own. */
  lemma DefaultMessages(k: Known)
    ensures DefaultMessage(Name(k)) ==
            match k
            case Canceled => "canceled"
            case Unknown => "internal server error"
            case InvalidArgument => "invalid argument"
            case DeadlineExceeded => "deadline exceeded"
            case NotFound => "not found"
            case AlreadyExists => "already exists"
            case PermissionDenied => "permission denied"
            case ResourceExhausted => "resource exhausted"
            case FailedPrecondition => "failed precondition"
            case Aborted => "aborted"
            case OutOfRange => "out of range"
            case Unimplemented => "unimplemented"
            case Internal => "internal server error"
            case Unavailable => "unavailable"
            case DataLoss => "internal server error"
            case Unauthenticated => "unauthenticated"
  {
    KnownOfName(k);
  }

  lemma UnnamedCode(code: bytes)
    requires forall k: Known :: Name(k) != code
    ensures GRPC(code) == Code(Internal) && HTTP(code) == 500
  {
    NameOfKnown(code);
  }

  lemma SameStatus(k: Option<Known>)
    ensures StatusOf(Some(ReadBack(k))) == StatusOf(k)
  {
  }

  /** What the tables produce is never empty and always valid UTF-8. */
  lemma TablesAreSound(code: bytes)
    ensures CodeFromGRPC(GRPC(code)) != [] && Utf8.Valid(CodeFromGRPC(GRPC(code)))
    ensures DefaultMessage(code) != [] && Utf8.Valid(DefaultMessage(code))
  {
    var k := ReadBack(KnownOf(code));
    Utf8.AsciiIsValid(Name(k));
    Utf8.AsciiIsValid(DefaultMessage(code));
  }

  /* ---------- error.go ---------- */

  datatype Violation = Violation(field: bytes, message: bytes)

  datatype AppError = AppError(code: bytes, reason: bytes, message: bytes, cause: Option<Err>,
    violations: seq<Violation>)
  {
    function Public(): bytes { if message != [] then message else DefaultMessage(code) }
  }

  /** A Go error; `Wraps` is anything that unwraps to other errors, `text` being its own Error(). */
  datatype Err =
    | App(e: AppError)
    | CtxCanceled
    | CtxDeadline
    | Plain(text: bytes)
    | Wraps(text: bytes, causes: seq<Err>)
    | StatusErr(st: Status)

  datatype Detail =
    | ErrorInfo(reason: bytes, domain: string, metadata: map<string, bytes>)
    | BadRequest(violations: seq<Violation>)
    | OtherDetail

  datatype Status = Status(code: Grpc, message: bytes, details: seq<Detail>)

  /** As: the application error errors.As finds. */
  function FindApp(err: Err): Option<AppError>
    decreases err
  {
    match err
    case App(e) => Some(e)
    case Wraps(_, causes) => FindIn(causes)
    case _ => None
  }

  function FindIn(causes: seq<Err>): Option<AppError>
    decreases causes
  {
    if causes == [] then None
    else if FindApp(causes[0]).Some? then FindApp(causes[0])
    else FindIn(causes[1..])
  }

  /** All errors of a tree, each before the errors it wraps. */
  function Preorder(err: Err): seq<Err>
    decreases err
  {
    [err] + match err
            case App(e) => if e.cause.Some? then Preorder(e.cause.value) else []
            case Wraps(_, causes) => PreorderAll(causes)
            case _ => []
  }

  function PreorderAll(causes: seq<Err>): seq<Err>
    decreases causes
  {
    if causes == [] then [] else Preorder(causes[0]) + PreorderAll(causes[1..])
  }

  function FirstApp(errs: seq<Err>): Option<AppError>
  {
    if errs == [] then None
    else if errs[0].App? then Some(errs[0].e)
    else FirstApp(errs[1..])
  }

  lemma {:induction false} FirstAppConcat(a: seq<Err>, b: seq<Err>)
    ensures FirstApp(a + b) == if FirstApp(a).Some? then FirstApp(a) else FirstApp(b)
  {
    if a == [] {
      assert a + b == b;
    } else {
      assert (a + b)[1..] == a[1..] + b;
      FirstAppConcat(a[1..], b);
    }
  }

  /** The application error of a chain is the first one in pre-order, whatever wraps it. */
  lemma {:induction false} FoundIsFirst(err: Err)
    ensures FindApp(err) == FirstApp(Preorder(err))
    decreases err
  {
    if err.Wraps? {
      assert Preorder(err)[1..] == PreorderAll(err.causes);
      FoundInIsFirst(err.causes);
    } else if !err.App? {
      assert Preorder(err)[1..] == [];
    }
  }

  lemma {:induction false} FoundInIsFirst(causes: seq<Err>)
    ensures FindIn(causes) == FirstApp(PreorderAll(causes))
    decreases causes
  {
    if causes != [] {
      FoundIsFirst(causes[0]);
      FoundInIsFirst(causes[1..]);
      FirstAppConcat(Preorder(causes[0]), PreorderAll(causes[1..]));
    }
  }

  function From(err: Err): AppError
  {
    match FindApp(err)
    case Some(e) => e
    case None =>
      AppError(Name(if CtxCanceled in Preorder(err) then Canceled
                    else if CtxDeadline in Preorder(err) then DeadlineExceeded
                    else Internal), [], [], Some(err), [])
  }

  /* ---------- encoding, transport, decoding ---------- */

  const DOMAIN := "apperr"

  predicate ViolationsValid(violations: seq<Violation>)
  {
    forall i :: 0 <= i < |violations| ==> Utf8.Valid(violations[i].field) && Utf8.Valid(violations[i].message)
  }

  /** A protobuf message with a string that is not valid UTF-8 cannot be marshalled. */
  predicate Marshals(d: Detail)
  {
    match d
    case ErrorInfo(reason, _, metadata) => Utf8.Valid(reason) &&
      forall key :: key in metadata ==> Utf8.Valid(metadata[key])
    case BadRequest(violations) => ViolationsValid(violations)
    case OtherDetail => true
  }

  predicate AllMarshal(details: seq<Detail>)
  {
    forall i :: 0 <= i < |details| ==> Marshals(details[i])
  }

  function InfoOf(e: AppError): Detail
  {
    ErrorInfo(e.code, DOMAIN, if e.reason != [] then map["reason" := e.reason] else map[])
  }

  function DetailsOf(e: AppError): seq<Detail>
  {
    [InfoOf(e)] + if e.violations != [] then [BadRequest(e.violations)] else []
  }

  /** WithDetails either attaches all details or fails and attaches none. */
  function WithDetails(st: Status, details: seq<Detail>): Option<Status>
  {
    if AllMarshal(details) then Some(st.(details := st.details + details)) else None
  }

  function Encode(err: Err): Status
  {
    var e := From(err);
    var st := Status(GRPC(e.code), e.Public(), []);
    match WithDetails(st, DetailsOf(e)) case Some(enriched) => enriched case None => st
  }

  /** The Error interceptor, applied to what the handler returned. */
  method ErrorInterceptor(handlerErr: Option<Err>) returns (st: Option<Status>)
    ensures st == match handlerErr case None => None case Some(err) => Some(Encode(err))
  {
    if handlerErr.None? {
      return None;
    }
    var e := From(handlerErr.value);
    var plain := Status(GRPC(e.code), e.Public(), []);
    var metadata: map<string, bytes> := map[];
    if e.reason != [] {
      metadata := map["reason" := e.reason];
    }
    var details := [ErrorInfo(e.code, DOMAIN, metadata)];
    if |e.violations| > 0 {
      var fields: seq<Violation> := [];
      for i := 0 to |e.violations|
        invariant fields == e.violations[..i]
      {
        fields := fields + [Violation(e.violations[i].field, e.violations[i].message)];
      }
      details := details + [BadRequest(fields)];
    }
    assert details == DetailsOf(e) by {
      assert e.violations[..|e.violations|] == e.violations;
    }
    var enriched := WithDetails(plain, details);
    st := if enriched.Some? then enriched else Some(plain);
  }

  /** The trailers of a gRPC response: the message is percent-encoded as UTF-8, and the details travel in a serialised
      status, which is left out when it cannot be marshalled. */
  function Transmit(st: Status): Status
  {
    if Utf8.Valid(st.message) && AllMarshal(st.details) then st
    else Status(st.code, Utf8.Sanitize(st.message), [])
  }

  datatype Gathered = Gathered(code: bytes, message: bytes, reason: bytes, violations: seq<Violation>)

  function Gather(st: Status, d: Detail, g: Gathered): Gathered
  {
    match d
    case ErrorInfo(r, domain, metadata) =>
      if domain != DOMAIN then g
      else Gathered(if r != [] then r else g.code, st.message,
                    if "reason" in metadata then metadata["reason"] else [], g.violations)
    case BadRequest(violations) => g.(violations := g.violations + violations)
    case OtherDetail => g
  }

  /** What Map knows after the first `n` details. */
  function GatherAll(st: Status, n: nat): Gathered
    requires n <= |st.details|
  {
    if n == 0 then Gathered(CodeFromGRPC(st.code), [], [], []) else Gather(st, st.details[n - 1], GatherAll(st, n - 1))
  }

  /** The name gRPC prints for a status code. */
  function CodeText(g: Grpc): bytes
  {
    match g
    case OK => "OK"
    case Other(n) => "Code(" + Json.Digits(n) + ")"
    case Code(Canceled) => "Canceled"
    case Code(Unknown) => "Unknown"
    case Code(InvalidArgument) => "InvalidArgument"
    case Code(DeadlineExceeded) => "DeadlineExceeded"
    case Code(NotFound) => "NotFound"
    case Code(AlreadyExists) => "AlreadyExists"
    case Code(PermissionDenied) => "PermissionDenied"
    case Code(ResourceExhausted) => "ResourceExhausted"
    case Code(FailedPrecondition) => "FailedPrecondition"
    case Code(Aborted) => "Aborted"
    case Code(OutOfRange) => "OutOfRange"
    case Code(Unimplemented) => "Unimplemented"
    case Code(Internal) => "Internal"
    case Code(Unavailable) => "Unavailable"
    case Code(DataLoss) => "DataLoss"
    case Code(Unauthenticated) => "Unauthenticated"
  }

  /** err.Error(). */
  function Text(err: Err): bytes
    decreases err
  {
    match err
    case App(e) => e.Public() + if e.cause.Some? then ": " + Text(e.cause.value) else []
    case CtxCanceled => "context canceled"
    case CtxDeadline => "context deadline exceeded"
    case Plain(text) => text
    case Wraps(text, _) => text
    case StatusErr(st) => "rpc error: code = " + CodeText(st.code) + " desc = " + st.message
  }

  /** The first gRPC status of a tree in pre-order, also below an application error. */
  function FindStatus(err: Err): Option<Status>
    decreases err
  {
    match err
    case App(e) => if e.cause.Some? then FindStatus(e.cause.value) else None
    case Wraps(_, causes) => FindStatusIn(causes)
    case StatusErr(st) => Some(st)
    case _ => None
  }

  function FindStatusIn(causes: seq<Err>): Option<Status>
    decreases causes
  {
    if causes == [] then None
    else if FindStatus(causes[0]).Some? then FindStatus(causes[0])
    else FindStatusIn(causes[1..])
  }

  /** status.FromError: a status wrapped inside another error takes that error's text as its message. */
  function FromError(err: Err): Option<Status>
  {
    if err.StatusErr? then Some(err.st)
    else match FindStatus(err)
      case None => None
      case Some(st) => Some(st.(message := Text(err)))
  }

  function Mapped(err: Err): AppError
  {
    match FromError(err)
    case None => AppError(Name(Internal), [], [], Some(err), [])
    case Some(st) =>
      var g := GatherAll(st, |st.details|);
      AppError(g.code, g.reason, g.message, Some(err), g.violations)
  }

  method Map(err: Option<Err>) returns (e: Option<AppError>)
    ensures e == match err case None => None case Some(cause) => Some(Mapped(cause))
  {
    if err.None? {
      return None;
    }
    var found := FromError(err.value);
    if found.None? {
      return Some(AppError(Name(Internal), [], [], err, []));
    }
    var st := found.value;
    var code, msg, reason := CodeFromGRPC(st.code), [], [];
    var violations: seq<Violation> := [];
    for i := 0 to |st.details|
      invariant Gathered(code, msg, reason, violations) == GatherAll(st, i)
    {
      match st.details[i] {
        case ErrorInfo(r, domain, metadata) =>
          if domain == DOMAIN {
            msg := st.message;
            if r != [] {
              code := r;
            }
            reason := if "reason" in metadata then metadata["reason"] else [];
          }
        case BadRequest(fields) =>
          ghost var before := violations;
          for j := 0 to |fields|
            invariant violations == before + fields[..j]
          {
            violations := violations + [Violation(fields[j].field, fields[j].message)];
          }
          assert fields[..|fields|] == fields;
        case OtherDetail =>
      }
    }
    var out := AppError(code, [], msg, err, []);
    if reason != [] {
      out := out.(reason := reason);
    }
    assert [] + violations == violations;
    if |violations| > 0 {
      out := out.(violations := out.violations + violations);
    }
    return Some(out);
  }

  /** What a caller can see of an error besides its cause. */
  datatype Visible = Visible(code: bytes, public: bytes, reason: bytes, violations: seq<Violation>)

  function See(e: AppError): Visible
  {
    Visible(e.code, e.Public(), e.reason, e.violations)
  }

  /** A detail that an application error of this system has put there. */
  predicate Own(d: Detail)
  {
    d.ErrorInfo? && d.domain == DOMAIN
  }

  /** The i-th detail is the last one, before the n-th, that is our own and, if asked, names a code. */
  ghost predicate LastOwn(details: seq<Detail>, n: nat, i: nat, coded: bool)
  {
    && i < n <= |details| && Own(details[i]) && (coded ==> details[i].reason != [])
    && forall j :: i < j < n ==> !(Own(details[j]) && (coded ==> details[j].reason != []))
  }

  ghost predicate NoOwn(details: seq<Detail>, n: nat, coded: bool)
  {
    n <= |details| && forall j :: 0 <= j < n ==> !(Own(details[j]) && (coded ==> details[j].reason != []))
  }

  function ViolationsIn(details: seq<Detail>): seq<Violation>
  {
    if details == [] then []
    else
      var last := details[|details| - 1];
      ViolationsIn(details[..|details| - 1]) + if last.BadRequest? then last.violations else []
  }

  /** What the loop over the details gathers: the code of the last own detail that names one ... */
  lemma {:induction false} GatheredCode(st: Status, n: nat, i: nat)
    requires n <= |st.details|
    ensures LastOwn(st.details, n, i, true) ==> GatherAll(st, n).code == st.details[i].reason
    ensures NoOwn(st.details, n, true) ==> GatherAll(st, n).code == CodeFromGRPC(st.code)
  {
    if n > 0 {
      GatheredCode(st, n - 1, i);
    }
  }

  /** ... the reason of the last own detail ... */
  lemma {:induction false} GatheredReason(st: Status, n: nat, i: nat)
    requires n <= |st.details|
    ensures LastOwn(st.details, n, i, false) ==>
              && GatherAll(st, n).message == st.message
              && GatherAll(st, n).reason ==
                 if "reason" in st.details[i].metadata then st.details[i].metadata["reason"] else []
    ensures NoOwn(st.details, n, false) ==> GatherAll(st, n).message == [] && GatherAll(st, n).reason == []
  {
    if n > 0 {
      GatheredReason(st, n - 1, i);
    }
  }

  /** ... and every violation in order; details of other systems count for nothing. */
  lemma {:induction false} GatheredViolations(st: Status, n: nat)
    requires n <= |st.details|
    ensures GatherAll(st, n).violations == ViolationsIn(st.details[..n])
  {
    if n > 0 {
      GatheredViolations(st, n - 1);
      assert st.details[..n][..n - 1] == st.details[..n - 1];
    }
  }

  function FirstStatus(errs: seq<Err>): Option<Status>
  {
    if errs == [] then None
    else if errs[0].StatusErr? then Some(errs[0].st)
    else FirstStatus(errs[1..])
  }

  lemma {:induction false} FirstStatusConcat(a: seq<Err>, b: seq<Err>)
    ensures FirstStatus(a + b) == if FirstStatus(a).Some? then FirstStatus(a) else FirstStatus(b)
  {
    if a == [] {
      assert a + b == b;
    } else {
      assert (a + b)[1..] == a[1..] + b;
      FirstStatusConcat(a[1..], b);
    }
  }

  lemma {:induction false} StatusIsFirst(err: Err)
    ensures FindStatus(err) == FirstStatus(Preorder(err))
    decreases err
  {
    if err.Wraps? {
      assert Preorder(err)[1..] == PreorderAll(err.causes);
      StatusInIsFirst(err.causes);
    } else if err.App? && err.e.cause.Some? {
      assert Preorder(err)[1..] == Preorder(err.e.cause.value);
      StatusIsFirst(err.e.cause.value);
    } else {
      assert Preorder(err)[1..] == [];
    }
  }

  lemma {:induction false} StatusInIsFirst(causes: seq<Err>)
    ensures FindStatusIn(causes) == FirstStatus(PreorderAll(causes))
    decreases causes
  {
    if causes != [] {
      StatusIsFirst(causes[0]);
      StatusInIsFirst(causes[1..]);
      FirstStatusConcat(Preorder(causes[0]), PreorderAll(causes[1..]));
    }
  }

  /** An error without a status in its tree is decoded as INTERNAL. */
  lemma {:induction false} WithoutStatusIsInternal(err: Err)
    requires FirstStatus(Preorder(err)).None?
    ensures Mapped(err) == AppError(Name(Internal), [], [], Some(err), [])
  {
    StatusIsFirst(err);
    assert !err.StatusErr?;
  }

  /** Any other is read off the details of its first status, whose message is the whole error's text when something
      wraps it. */
  lemma {:induction false} DecodedIs(err: Err, st: Status, i: nat)
    requires FirstStatus(Preorder(err)) == Some(st)
    ensures var e, n := Mapped(err), |st.details|;
            && e.cause == Some(err)
            && (LastOwn(st.details, n, i, true) ==> e.code == st.details[i].reason)
            && (NoOwn(st.details, n, true) ==> e.code == CodeFromGRPC(st.code))
            && (LastOwn(st.details, n, i, false) ==>
                  e.message == (if err.StatusErr? then st.message else Text(err)) &&
                  e.reason == if "reason" in st.details[i].metadata then st.details[i].metadata["reason"] else [])
            && (NoOwn(st.details, n, false) ==> e.message == [] && e.reason == [])
            && e.violations == ViolationsIn(st.details)
  {
    StatusIsFirst(err);
    var seen := if err.StatusErr? then st else st.(message := Text(err));
    assert FromError(err) == Some(seen) && seen.details == st.details;
    GatheredCode(seen, |st.details|, i);
    GatheredReason(seen, |st.details|, i);
    GatheredViolations(seen, |st.details|);
    assert st.details[..|st.details|] == st.details;
  }

  lemma {:induction false} MessageDoesNotDecide(a: Status, b: Status, n: nat)
    requires a.code == b.code && a.details == b.details && n <= |a.details|
    ensures GatherAll(a, n).code == GatherAll(b, n).code && GatherAll(a, n).reason == GatherAll(b, n).reason
    ensures GatherAll(a, n).violations == GatherAll(b, n).violations
  {
    if n > 0 {
      MessageDoesNotDecide(a, b, n - 1);
    }
  }

  /** A status wrapped inside other errors is mapped like the bare one, but for the message. */
  lemma WrappedStatusMapsAlike(err: Err, st: Status)
    requires FindStatus(err) == Some(st)
    ensures var m, bare := Mapped(err), Mapped(StatusErr(st));
            m.code == bare.code && m.reason == bare.reason && m.violations == bare.violations && m.cause == Some(err)
  {
    if !err.StatusErr? {
      MessageDoesNotDecide(st.(message := Text(err)), st, |st.details|);
    }
  }

  /* ---------- the round trip ---------- */

  /** A handler error as the calling service decodes it. */
  function Hop(err: Err): AppError
  {
    Mapped(StatusErr(Transmit(Encode(err))))
  }

  predicate StringsValid(e: AppError)
  {
    Utf8.Valid(e.code) && Utf8.Valid(e.message) && Utf8.Valid(e.reason) && ViolationsValid(e.violations)
  }

  lemma DetailsMarshalIff(e: AppError)
    ensures AllMarshal(DetailsOf(e)) <==> Utf8.Valid(e.code) && Utf8.Valid(e.reason) && ViolationsValid(e.violations)
  {
    var details := DetailsOf(e);
    assert details[0] == InfoOf(e);
    assert Utf8.Valid([]);
    if e.violations != [] {
      assert details[1] == BadRequest(e.violations);
    }
    if e.reason != [] {
      assert InfoOf(e).metadata["reason"] == e.reason;
    }
  }

  lemma PublicValidIff(e: AppError)
    ensures Utf8.Valid(e.Public()) <==> Utf8.Valid(e.message)
    ensures e.Public() != []
  {
    TablesAreSound(e.code);
  }

  /** What arrives when every string is valid UTF-8. */
  lemma HopOfValid(err: Err)
    requires StringsValid(From(err))
    ensures var e := From(err);
            See(Hop(err)) == Visible(if e.code != [] then e.code else CodeFromGRPC(GRPC(e.code)), e.Public(), e.reason,
                                     e.violations)
  {
    var e := From(err);
    DetailsMarshalIff(e);
    PublicValidIff(e);
    var st := Status(GRPC(e.code), e.Public(), DetailsOf(e));
    assert [] + DetailsOf(e) == DetailsOf(e);
    assert Transmit(Encode(err)) == st;
    ReadsDetails(e, st);
  }

  lemma ReadsDetails(e: AppError, st: Status)
    requires st == Status(GRPC(e.code), e.Public(), DetailsOf(e))
    ensures GatherAll(st, |st.details|) ==
            Gathered(if e.code != [] then e.code else CodeFromGRPC(st.code), e.Public(), e.reason, e.violations)
  {
    assert st.details[0] == InfoOf(e);
    var one := GatherAll(st, 1);
    assert one == Gather(st, InfoOf(e), GatherAll(st, 0));
    if e.violations != [] {
      assert st.details[1] == BadRequest(e.violations);
      assert [] + e.violations == e.violations;
    }
  }

  /** What arrives when some string is not: only the gRPC code. */
  lemma HopOfInvalid(err: Err)
    requires !StringsValid(From(err))
    ensures var code := CodeFromGRPC(GRPC(From(err).code));
            See(Hop(err)) == Visible(code, DefaultMessage(code), [], [])
  {
    DetailsMarshalIff(From(err));
    PublicValidIff(From(err));
    assert Transmit(Encode(err)).details == [];
  }

  /** A hop keeps code, public message, reason and violations exactly when the code is not empty and every string is
      valid UTF-8. */
  lemma HopKeepsIff(err: Err)
    ensures See(Hop(err)) == See(From(err)) <==> From(err).code != [] && StringsValid(From(err))
  {
    var e := From(err);
    TablesAreSound(e.code);
    TablesAreSound(CodeFromGRPC(GRPC(e.code)));
    assert Utf8.Valid([]);
    if StringsValid(e) {
      HopOfValid(err);
    } else {
      HopOfInvalid(err);
      if ViolationsValid(e.violations) && Utf8.Valid(e.reason) && Utf8.Valid(e.code) {
        PublicValidIff(e);
      }
    }
  }

  /** What a hop delivers can be sent on: its code is not empty and its strings are valid. */
  lemma HopIsSendable(err: Err)
    ensures Hop(err).code != [] && StringsValid(Hop(err))
  {
    var e := From(err);
    TablesAreSound(e.code);
    assert Utf8.Valid([]);
    if StringsValid(e) {
      HopOfValid(err);
      PublicValidIff(e);
      PublicValidIff(Hop(err));
    } else {
      HopOfInvalid(err);
      PublicValidIff(Hop(err));
      TablesAreSound(CodeFromGRPC(GRPC(e.code)));
    }
  }

  /* ---------- which error is delivered ---------- */

  /** The k-th error of the tree, in pre-order, is its first application error. */
  ghost predicate FirstAppAt(errs: seq<Err>, k: nat)
  {
    k < |errs| && errs[k].App? && forall i :: 0 <= i < k ==> !errs[i].App?
  }

  ghost predicate WithoutApp(errs: seq<Err>)
  {
    forall i :: 0 <= i < |errs| ==> !errs[i].App?
  }

  lemma {:induction false} FirstAppIs(errs: seq<Err>, k: nat)
    ensures FirstAppAt(errs, k) ==> FirstApp(errs) == Some(errs[k].e)
    ensures WithoutApp(errs) ==> FirstApp(errs) == None
  {
    if errs != [] {
      FirstAppIs(errs[1..], if k > 0 then k - 1 else 0);
    }
  }

  /** The code an error without an application error stands for. */
  ghost predicate StandsFor(errs: seq<Err>, k: Known)
  {
    match k
    case Canceled => CtxCanceled in errs
    case DeadlineExceeded => CtxDeadline in errs && CtxCanceled !in errs
    case Internal => CtxDeadline !in errs && CtxCanceled !in errs
    case _ => false
  }

  /** An error without an application error in its tree is answered as CANCELED if it comes from a cancelled context,
      else as DEADLINE_EXCEEDED if it comes from an expired one, else as INTERNAL, and tells the caller nothing else. */
  lemma ForeignErrorIsCoded(err: Err, k: Known)
    requires WithoutApp(Preorder(err))
    ensures Encode(err).code == Code(k) <==> StandsFor(Preorder(err), k)
    ensures StandsFor(Preorder(err), k) ==> See(Hop(err)) == Visible(Name(k), DefaultMessage(Name(k)), [], [])
  {
    FoundIsFirst(err);
    FirstAppIs(Preorder(err), 0);
    var known :=
      if CtxCanceled in Preorder(err) then Canceled
      else if CtxDeadline in Preorder(err) then DeadlineExceeded
      else Internal;
    assert From(err) == AppError(Name(known), [], [], Some(err), []);
    HopOfForeign(err, known);
  }

  lemma HopOfForeign(err: Err, k: Known)
    requires From(err) == AppError(Name(k), [], [], Some(err), [])
    ensures Encode(err).code == Code(k)
    ensures See(Hop(err)) == Visible(Name(k), DefaultMessage(Name(k)), [], [])
  {
    KnownOfName(k);
    Utf8.AsciiIsValid(Name(k));
    assert Utf8.Valid([]);
    HopOfValid(err);
  }

  /** An error with application errors in its tree is answered with the first of them: with its code as gRPC knows it,
      and with all that a caller can see of it when its code is not empty and its strings are valid. */
  lemma FirstAppIsDelivered(err: Err, k: nat)
    requires FirstAppAt(Preorder(err), k)
    ensures var e := Preorder(err)[k].e;
            && Encode(err).code == GRPC(e.code)
            && (e.code != [] && StringsValid(e) ==> See(Hop(err)) == See(e))
  {
    FoundIsFirst(err);
    FirstAppIs(Preorder(err), k);
    HopKeepsIff(err);
  }

  /** A call chain: each service fails with the error it decoded from the service it called, however it wraps it. */
  ghost predicate Chain(errs: seq<Err>)
  {
    forall i :: 0 < i < |errs| ==> FindApp(errs[i]) == Some(Hop(errs[i - 1]))
  }

  /** Any number of hops deliver what one hop delivers. */
  lemma {:induction false} HopsAreOneHop(errs: seq<Err>, n: nat)
    requires Chain(errs) && n < |errs|
    ensures See(Hop(errs[n])) == See(Hop(errs[0]))
  {
    if n > 0 {
      HopsAreOneHop(errs, n - 1);
      HopIsSendable(errs[n - 1]);
      assert FindApp(errs[n]) == Some(Hop(errs[n - 1]));
      HopKeepsIff(errs[n]);
    }
  }

  lemma HopKeepsHttp(err: Err)
    ensures HTTP(Hop(err).code) == HTTP(From(err).code)
  {
    GrpcRoundTrip(From(err).code);
    if StringsValid(From(err)) {
      HopOfValid(err);
    } else {
      HopOfInvalid(err);
    }
  }

  /** The HTTP status at the end of any chain is that of the original error, whatever the error is. */
  lemma {:induction false} GatewayStatus(errs: seq<Err>, n: nat)
    requires Chain(errs) && n < |errs|
    ensures HTTP(From(errs[n]).code) == HTTP(From(errs[0]).code)
  {
    if n > 0 {
      GatewayStatus(errs, n - 1);
      HopKeepsHttp(errs[n - 1]);
      assert FindApp(errs[n]) == Some(Hop(errs[n - 1]));
    }
  }
}
