/**
 * The error value of the model layer (next/misc/error.cc): a code, its
 * comparisons, its text, and the two ways a code is derived from what the
 * server answered (an HTTP status, or the text of an error message).
 */
module Errors {
  import opened Strings

  /**
   * The codes the model layer names. The header that declares and numbers
   * them is not part of this model; the order below is the numbering this
   * model assumes, and it is what `<` and the scan in FromServerError follow.
   */
  datatype Code =
    | NoError
    // derived from an HTTP status
    | BadRequest | Unauthorized | PaymentRequired | Forbidden | RequestIsNotPossible
    | EndpointGone | UnsupportedApp | CannotConnect | BackendIsDown
    // recognised in the text of a server error
    | TimeEntryNotFound | TimeEntryCreatedWithInvalid | CannotAccessProject | CannotAccessTask
    | OverMaxDuration | InvalidStartTime | StartNotBeforeStop | BillableIsAPremiumFeature
    // raised or inspected by the models and the database layer
    | CannotAccessWorkspace | ClientNameAlreadyExists
    | InvalidInput | AccessProhibited | DurationTooLong | StartTimeOutOfRange
    | EndTimeBeforeStartTime | PremiumFeature
    | MalformedData | BatchUpdateWithoutGuid | MissingArgument | InvalidUpdateChannel
    | DatabaseStoreError

  /** The number of a code, in declaration order. */
  function Ordinal(c: Code): nat {
    match c
    case NoError => 0
    case BadRequest => 1
    case Unauthorized => 2
    case PaymentRequired => 3
    case Forbidden => 4
    case RequestIsNotPossible => 5
    case EndpointGone => 6
    case UnsupportedApp => 7
    case CannotConnect => 8
    case BackendIsDown => 9
    case TimeEntryNotFound => 10
    case TimeEntryCreatedWithInvalid => 11
    case CannotAccessProject => 12
    case CannotAccessTask => 13
    case OverMaxDuration => 14
    case InvalidStartTime => 15
    case StartNotBeforeStop => 16
    case BillableIsAPremiumFeature => 17
    case CannotAccessWorkspace => 18
    case ClientNameAlreadyExists => 19
    case InvalidInput => 20
    case AccessProhibited => 21
    case DurationTooLong => 22
    case StartTimeOutOfRange => 23
    case EndTimeBeforeStartTime => 24
    case PremiumFeature => 25
    case MalformedData => 26
    case BatchUpdateWithoutGuid => 27
    case MissingArgument => 28
    case InvalidUpdateChannel => 29
    case DatabaseStoreError => 30
  }

  /** `operator<`: codes compare by their numbers. */
  predicate Less(a: Code, b: Code) {
    Ordinal(a) < Ordinal(b)
  }

  predicate IsNoError(c: Code) {
    c == NoError
  }

  /** Every code, in the order of its number. */
  const AllCodes: seq<Code> := [
    NoError,
    BadRequest, Unauthorized, PaymentRequired, Forbidden, RequestIsNotPossible,
    EndpointGone, UnsupportedApp, CannotConnect, BackendIsDown,
    TimeEntryNotFound, TimeEntryCreatedWithInvalid, CannotAccessProject, CannotAccessTask,
    OverMaxDuration, InvalidStartTime, StartNotBeforeStop, BillableIsAPremiumFeature,
    CannotAccessWorkspace, ClientNameAlreadyExists,
    InvalidInput, AccessProhibited, DurationTooLong, StartTimeOutOfRange,
    EndTimeBeforeStartTime, PremiumFeature,
    MalformedData, BatchUpdateWithoutGuid, MissingArgument, InvalidUpdateChannel,
    DatabaseStoreError]

  /** A code's number gives the code back, so no two codes share a number. */
  lemma OrdinalInjective(a: Code, b: Code)
    requires Ordinal(a) == Ordinal(b)
    ensures a == b
  {
    assert |AllCodes| == 31;
    assert AllCodes[Ordinal(a)] == a by { match a { case _ => } }
    assert AllCodes[Ordinal(b)] == b by { match b { case _ => } }
  }

  /** `operator<` is a strict order on codes: irreflexive, transitive and asymmetric. */
  lemma LessIsStrictOrder(a: Code, b: Code, c: Code)
    ensures !Less(a, a)
    ensures Less(a, b) && Less(b, c) ==> Less(a, c)
    ensures Less(a, b) ==> !Less(b, a)
  {
  }

  /** `operator<` is total: of two distinct codes, one is less than the other. */
  lemma LessIsTotal(a: Code, b: Code)
    requires a != b
    ensures Less(a, b) || Less(b, a)
  {
    if Ordinal(a) == Ordinal(b) {
      OrdinalInjective(a, b);
    }
  }

  /**
   * `String()` and `StringRef()`: the text the table `values` holds for the
   * code, or "Unknown error (n)" with the code's number when it holds none.
   * The table itself is not part of this model, so it is a parameter.
   */
  function Message(values: map<Code, string>, c: Code): (r: string)
    ensures c in values ==> r == values[c]
    ensures c !in values ==> r == "Unknown error (" + NatToString(Ordinal(c)) + ")"
  {
    if c in values then values[c] else "Unknown error (" + NatToString(Ordinal(c)) + ")"
  }

  /** The text of a code missing from the table names the code: its number reads back between the parentheses. */
  lemma UnknownMessageNamesCode(values: map<Code, string>, c: Code)
    requires c !in values
    ensures var r := Message(values, c);
            |r| >= 17 && r[..15] == "Unknown error (" && r[|r| - 1] == ')'
            && (forall i :: 15 <= i < |r| - 1 ==> IsDigit(r[i])) && ParseDigits(r[15..|r| - 1]) == Ordinal(c)
  {
    var r := Message(values, c);
    assert r[15..|r| - 1] == NatToString(Ordinal(c));
    NatToStringRoundTrip(Ordinal(c));
  }

  /** `fromString` ignores its message. */
  function FromString(message: string): (r: Code)
    ensures IsNoError(r)
  {
    NoError
  }

  /** The ten codes an HTTP status can map to. */
  predicate IsHttpCode(c: Code) {
    Ordinal(c) <= 9
  }

  /**
   * `fromHttpStatus`: 200, 201 and 202 succeed; each client error the
   * server documents has its own code; 500-505 mean the backend is down;
   * any other status reads as a failed connection.
   */
  function FromHttpStatus(status: int): (r: Code)
    ensures IsHttpCode(r)
    ensures r == NoError <==> status == 200 || status == 201 || status == 202
    ensures r == BackendIsDown <==> 500 <= status <= 505
    ensures r == CannotConnect <==> status == 429 || !IsKnownStatus(status)
    ensures r == BadRequest <==> status == 400
    ensures r == Unauthorized <==> status == 401
    ensures r == PaymentRequired <==> status == 402
    ensures r == Forbidden <==> status == 403
    ensures r == RequestIsNotPossible <==> status == 404
    ensures r == EndpointGone <==> status == 410
    ensures r == UnsupportedApp <==> status == 418
  {
    match status
    case 200 => NoError
    case 201 => NoError
    case 202 => NoError
    case 400 => BadRequest
    case 401 => Unauthorized
    case 402 => PaymentRequired
    case 403 => Forbidden
    case 404 => RequestIsNotPossible
    case 410 => EndpointGone
    case 418 => UnsupportedApp
    case 429 => CannotConnect
    case 500 => BackendIsDown
    case 501 => BackendIsDown
    case 502 => BackendIsDown
    case 503 => BackendIsDown
    case 504 => BackendIsDown
    case 505 => BackendIsDown
    case _ => CannotConnect
  }

  /** The statuses fromHttpStatus lists explicitly. */
  predicate IsKnownStatus(status: int) {
    status in {200, 201, 202, 400, 401, 402, 403, 404, 410, 418, 429, 500, 501, 502, 503, 504, 505}
  }

  /** Different statuses of the 4xx family that the server documents give different codes. */
  lemma ClientErrorsDistinct(s: int, t: int)
    requires s in {400, 401, 402, 403, 404, 410, 418} && t in {400, 401, 402, 403, 404, 410, 418}
    requires s != t
    ensures FromHttpStatus(s) != FromHttpStatus(t)
  {
  }

  /**
   * The codes fromServerError looks for, in the ascending order in which
   * it visits its `std::set`.
   */
  const ServerErrorCodes: seq<Code> := [
    TimeEntryNotFound, TimeEntryCreatedWithInvalid, CannotAccessProject, CannotAccessTask,
    OverMaxDuration, InvalidStartTime, StartNotBeforeStop, BillableIsAPremiumFeature
  ]

  /**
   * `fromServerError`: the first code, in ascending order, whose text occurs
   * in the server's message; NoError when none does.
   */
  method FromServerError(values: map<Code, string>, message: string) returns (r: Code)
    ensures r == NoError <==>
              forall k :: 0 <= k < |ServerErrorCodes| ==> !Contains(message, Message(values, ServerErrorCodes[k]))
    ensures r != NoError ==>
              exists k :: 0 <= k < |ServerErrorCodes| && r == ServerErrorCodes[k]
                          && Contains(message, Message(values, r))
                          && forall j :: 0 <= j < k ==> !Contains(message, Message(values, ServerErrorCodes[j]))
  {
    var i := 0;
    while i < |ServerErrorCodes|
      invariant 0 <= i <= |ServerErrorCodes|
      invariant forall j :: 0 <= j < i ==> !Contains(message, Message(values, ServerErrorCodes[j]))
    {
      var c := ServerErrorCodes[i];
      if Contains(message, Message(values, c)) {
        return c;
      }
      i := i + 1;
    }
    return NoError;
  }
}

/**
 * The older error value of next/misc/error.h and next/misc/error.cpp: ten
 * codes, a fixed table of texts, and the same HTTP status mapping.
 */
module LegacyErrors {
  import opened Strings
  import Errors

  datatype Code =
    | NoError | Unauthorized | BadRequest | PaymentRequired | Forbidden
    | RequestImpossible | EndpointGone | UnsupportedApp | CannotConnect | BackendOffline

  /** The enumerator values, in declaration order. */
  function Ordinal(c: Code): (n: nat)
    ensures n < 10
  {
    match c
    case NoError => 0
    case Unauthorized => 1
    case BadRequest => 2
    case PaymentRequired => 3
    case Forbidden => 4
    case RequestImpossible => 5
    case EndpointGone => 6
    case UnsupportedApp => 7
    case CannotConnect => 8
    case BackendOffline => 9
  }

  /** The code whose enumerator value is `n`, if there is one. */
  function CodeOf(n: int): (c: Code)
    requires 0 <= n < 10
    ensures Ordinal(c) == n
  {
    [NoError, Unauthorized, BadRequest, PaymentRequired, Forbidden,
     RequestImpossible, EndpointGone, UnsupportedApp, CannotConnect, BackendOffline][n]
  }

  /** The fixed table of `String()`. */
  function TableText(c: Code): string {
    match c
    case NoError => ""
    case Unauthorized => "Please log in again"
    case BadRequest => "BAD_REQUEST"
    case PaymentRequired => "PAYMENT_REQUIRED"
    case Forbidden => "FORBIDDEN"
    case RequestImpossible => "REQUEST_IMPOSSIBLE"
    case EndpointGone => "ENDPOINT_GONE"
    case UnsupportedApp => "UNSUPPORTED_APP"
    case CannotConnect => "CANNOT_CONNECT"
    case BackendOffline => "BACKEND_OFFLINE"
  }

  /**
   * `String()` of an error whose stored code has the value `n`: the table's
   * text for the ten enumerators, "Unknown error (n)" for any other value.
   */
  function Message(n: int): (r: string)
    ensures 0 <= n < 10 ==> r == TableText(CodeOf(n))
    ensures r == "" <==> n == 0
    ensures !(0 <= n < 10) ==> |r| > 15 && r[..15] == "Unknown error ("
  {
    if 0 <= n < 10 then TableText(CodeOf(n)) else "Unknown error (" + IntToString(n) + ")"
  }

  /** Only the successful code has an empty text, and no two codes share a text. */
  lemma MessagesDistinct(a: Code, b: Code)
    requires a != b
    ensures TableText(a) != TableText(b)
  {
  }

  /** `operator==` and `operator!=` against a code. */
  predicate Equals(c: Code, d: Code) {
    c == d
  }

  /** `fromHttpStatus` of error.cpp. */
  function FromHttpStatus(status: int): (r: Code)
    ensures r == NoError <==> status == 200 || status == 201 || status == 202
    ensures r == BackendOffline <==> 500 <= status <= 505
    ensures r == CannotConnect <==> status == 429 || !Errors.IsKnownStatus(status)
    ensures r == BadRequest <==> status == 400
    ensures r == Unauthorized <==> status == 401
    ensures r == PaymentRequired <==> status == 402
    ensures r == Forbidden <==> status == 403
    ensures r == RequestImpossible <==> status == 404
    ensures r == EndpointGone <==> status == 410
    ensures r == UnsupportedApp <==> status == 418
  {
    match status
    case 200 => NoError
    case 201 => NoError
    case 202 => NoError
    case 400 => BadRequest
    case 401 => Unauthorized
    case 402 => PaymentRequired
    case 403 => Forbidden
    case 404 => RequestImpossible
    case 410 => EndpointGone
    case 418 => UnsupportedApp
    case 429 => CannotConnect
    case 500 => BackendOffline
    case 501 => BackendOffline
    case 502 => BackendOffline
    case 503 => BackendOffline
    case 504 => BackendOffline
    case 505 => BackendOffline
    case _ => CannotConnect
  }

  /** The corresponding code of the model layer. */
  function Modern(c: Code): Errors.Code {
    match c
    case NoError => Errors.NoError
    case Unauthorized => Errors.Unauthorized
    case BadRequest => Errors.BadRequest
    case PaymentRequired => Errors.PaymentRequired
    case Forbidden => Errors.Forbidden
    case RequestImpossible => Errors.RequestIsNotPossible
    case EndpointGone => Errors.EndpointGone
    case UnsupportedApp => Errors.UnsupportedApp
    case CannotConnect => Errors.CannotConnect
    case BackendOffline => Errors.BackendIsDown
  }

  /** The two status mappings agree on every status. */
  lemma FromHttpStatusAgrees(status: int)
    ensures Modern(FromHttpStatus(status)) == Errors.FromHttpStatus(status)
  {
  }
}
