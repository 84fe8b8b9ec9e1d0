/**
 * lib/utils/error.ts: turning an API error into the message shown to the
 * user, and classifying errors by message and by HTTP status.
 *
 * The message is taken from the first usable source in a fixed order: the
 * validation `errors` array (as a bullet list), `response.data.message`,
 * `response.data.error`, the error's own `message`, and finally the
 * fallback. Four exception-name prefixes are then removed, each at its
 * first occurrence only.
 */
module ErrorMessages {

  import opened Wrappers
  import opened JsString

  datatype ResponseData = ResponseData(message: Option<string>, error: Option<string>, errors: Option<seq<string>>)

  datatype ErrorResponse = ErrorResponse(data: Option<ResponseData>, status: Option<int>)

  /** The `ApiError` shape; `None` is a key that is missing or undefined. */
  datatype ApiError = ApiError(response: Option<ErrorResponse>, message: Option<string>)

  const DefaultFallback: string := "An error occurred"

  const VinPrefix: string := "VIN Validation Error: "
  const BadRequestPrefix: string := "BadRequestException: "
  const ConflictPrefix: string := "ConflictException: "
  const NotFoundPrefix: string := "NotFoundException: "

  function Data(e: ApiError): Option<ResponseData> {
    if e.response.Some? then e.response.value.data else None
  }

  /** `apiError?.response?.data?.errors`. */
  function Errors(e: ApiError): Option<seq<string>> {
    if Data(e).Some? then Data(e).value.errors else None
  }

  /** `apiError?.response?.data?.message`. */
  function DataMessage(e: ApiError): Option<string> {
    if Data(e).Some? then Data(e).value.message else None
  }

  /** `apiError?.response?.data?.error`. */
  function DataError(e: ApiError): Option<string> {
    if Data(e).Some? then Data(e).value.error else None
  }

  /** `error.response?.status`. */
  function Status(e: ApiError): Option<int> {
    if e.response.Some? then e.response.value.status else None
  }

  /** A string value that JavaScript treats as true: present and non-empty. */
  predicate IsTruthy(o: Option<string>) {
    o.Some? && o.value != ""
  }

  /** The error offers none of the four message sources. */
  predicate NoSource(e: ApiError) {
    Errors(e).None? && !IsTruthy(DataMessage(e)) && !IsTruthy(DataError(e)) && !IsTruthy(e.message)
  }

  /** Each validation error as a bullet point. */
  function Bullets(errors: seq<string>): (r: seq<string>)
    ensures |r| == |errors|
    ensures forall i :: 0 <= i < |errors| ==> r[i] == "• " + errors[i]
  {
    seq(|errors|, i requires 0 <= i < |errors| => "• " + errors[i])
  }

  /** `errors.map(err => "• " + err).join("\n")`. */
  function BulletList(errors: seq<string>): (r: string)
    ensures r == "" <==> errors == []
    ensures errors != [] ==> StartsWith(r, "• " + errors[0])
  {
    if errors == [] then ""
    else if |errors| == 1 then "• " + errors[0]
    else "• " + errors[0] + "\n" + BulletList(errors[1..])
  }

  /** `s.split("\n")`. */
  function Lines(s: string): (r: seq<string>)
    ensures |r| >= 1
    decreases |s|
  {
    match IndexOf(s, "\n")
    case None => [s]
    case Some(i) => [s[..i]] + Lines(s[i + 1..])
  }

  /** A line without a line feed is split off at the line feed that follows it. */
  lemma LinesOfJoined(a: string, b: string)
    requires !Includes(a, "\n")
    ensures Lines(a + "\n" + b) == [a] + Lines(b)
  {
    var s := a + "\n" + b;
    assert OccursAt(s, "\n", |a|) by { assert s[|a|..|a| + 1] == "\n"; }
    forall j | 0 <= j < |a|
      ensures !OccursAt(s, "\n", j)
    {
      if OccursAt(s, "\n", j) {
        assert a[j..j + 1] == s[j..j + 1];
        assert OccursAt(a, "\n", j);
      }
    }
    assert IndexOf(s, "\n") == Some(|a|);
    assert s[..|a|] == a;
    assert s[|a| + 1..] == b;
  }

  /**
   * When no validation error contains a line feed, the bullet list splits
   * back into exactly one bullet per error, in order.
   */
  lemma {:induction false} BulletListLines(errors: seq<string>)
    requires errors != []
    requires forall i :: 0 <= i < |errors| ==> !Includes(errors[i], "\n")
    ensures Lines(BulletList(errors)) == Bullets(errors)
  {
    var head := "• " + errors[0];
    assert !Includes(head, "\n") by {
      forall j | 0 <= j <= |head| && OccursAt(head, "\n", j)
        ensures false
      {
        assert head[j] == '\n';
        assert j >= 2;
        assert errors[0][j - 2..j - 1] == head[j..j + 1];
        assert OccursAt(errors[0], "\n", j - 2);
      }
    }
    if |errors| == 1 {
      assert IndexOf(head, "\n").None?;
    } else {
      BulletListLines(errors[1..]);
      LinesOfJoined(head, BulletList(errors[1..]));
    }
  }

  /** The message chosen before clean-up. */
  function SelectedMessage(e: ApiError, fallback: string): string {
    if Errors(e).Some? then BulletList(Errors(e).value)
    else if IsTruthy(DataMessage(e)) then DataMessage(e).value
    else if IsTruthy(DataError(e)) then DataError(e).value
    else if IsTruthy(e.message) then e.message.value
    else fallback
  }

  /** The four `replace` calls of the clean-up, in the source's order. */
  function StripPrefixes(m: string): (r: string)
    ensures |r| <= |m|
    ensures (!Includes(m, VinPrefix) && !Includes(m, BadRequestPrefix)
      && !Includes(m, ConflictPrefix) && !Includes(m, NotFoundPrefix)) ==> r == m
  {
    ReplaceFirst(ReplaceFirst(ReplaceFirst(ReplaceFirst(m, VinPrefix, ""), BadRequestPrefix, ""),
      ConflictPrefix, ""), NotFoundPrefix, "")
  }

  /** `extractErrorMessage(error, fallback)` as a value. */
  function ErrorMessage(e: ApiError, fallback: string): string {
    StripPrefixes(SelectedMessage(e, fallback))
  }

  /** `extractErrorMessage`, statement by statement. */
  method ExtractErrorMessage(e: ApiError, fallback: string) returns (msg: string)
    ensures msg == ErrorMessage(e, fallback)
  {
    msg := fallback;
    var data := Data(e);
    if data.Some? && data.value.errors.Some? {
      msg := BulletList(data.value.errors.value);
    } else if data.Some? && IsTruthy(data.value.message) {
      msg := data.value.message.value;
    } else if data.Some? && IsTruthy(data.value.error) {
      msg := data.value.error.value;
    } else if IsTruthy(e.message) {
      msg := e.message.value;
    }
    msg := ReplaceFirst(msg, VinPrefix, "");
    msg := ReplaceFirst(msg, BadRequestPrefix, "");
    msg := ReplaceFirst(msg, ConflictPrefix, "");
    msg := ReplaceFirst(msg, NotFoundPrefix, "");
  }

  /**
   * The fallback is the message exactly when the error offers no source:
   * otherwise the message does not depend on the fallback at all.
   */
  lemma FallbackOnlyWithoutSource(e: ApiError, f1: string, f2: string)
    ensures NoSource(e) ==> SelectedMessage(e, f1) == f1
    ensures !NoSource(e) ==> SelectedMessage(e, f1) == SelectedMessage(e, f2)
  {
  }

  /**
   * The chosen message is empty only for an empty validation-error array
   * (an empty array is still an array) or an empty fallback with no source.
   */
  lemma SelectedMessageEmpty(e: ApiError, fallback: string)
    ensures SelectedMessage(e, fallback) == "" <==>
      Errors(e) == Some([]) || (NoSource(e) && fallback == "")
  {
  }

  /** An empty validation-error array yields the empty message whatever the other fields say. */
  lemma EmptyErrorsArrayGivesEmptyMessage(e: ApiError, fallback: string)
    requires Errors(e) == Some([])
    ensures ErrorMessage(e, fallback) == ""
  {
  }

  /** A message made of the VIN prefix and a detail free of prefixes cleans up to the detail. */
  lemma StripVinPrefix(detail: string)
    requires !Includes(detail, VinPrefix) && !Includes(detail, BadRequestPrefix)
    requires !Includes(detail, ConflictPrefix) && !Includes(detail, NotFoundPrefix)
    ensures StripPrefixes(VinPrefix + detail) == detail
  {
    var s := VinPrefix + detail;
    assert OccursAt(s, VinPrefix, 0) by { assert s[..|VinPrefix|] == VinPrefix; }
    assert IndexOf(s, VinPrefix) == Some(0);
    assert s[|VinPrefix|..] == detail;
    assert ReplaceFirst(s, VinPrefix, "") == detail;
  }

  /** `isVinError`, as written: it looks at the message after clean-up. */
  predicate IsVinError(e: ApiError) {
    var m := ToLower(ErrorMessage(e, DefaultFallback));
    Includes(m, "vin") || Includes(m, "check digit")
  }

  /** `isVinError` as evidently intended: it looks at the message before clean-up. */
  predicate IsVinErrorCorrected(e: ApiError) {
    var m := ToLower(SelectedMessage(e, DefaultFallback));
    Includes(m, "vin") || Includes(m, "check digit")
  }

  /** An error whose response carries `message` and nothing else. */
  function MessageError(message: string): ApiError {
    ApiError(Some(ErrorResponse(Some(ResponseData(Some(message), None, None)), None)), None)
  }

  /**
   * As written, an error reported as "VIN Validation Error: <detail>" is
   * not recognised as a VIN error when the detail mentions neither "vin"
   * nor "check digit": the prefix that names the VIN is removed first.
   */
  lemma VinPrefixedErrorMissed(detail: string)
    requires !Includes(detail, VinPrefix) && !Includes(detail, BadRequestPrefix)
    requires !Includes(detail, ConflictPrefix) && !Includes(detail, NotFoundPrefix)
    requires !Includes(ToLower(detail), "vin") && !Includes(ToLower(detail), "check digit")
    ensures !IsVinError(MessageError(VinPrefix + detail))
  {
    StripVinPrefix(detail);
  }

  /** A pattern whose first character does not occur in `s` does not occur in `s`. */
  lemma AbsentFirstChar(s: string, pat: string)
    requires pat != [] && pat[0] !in s
    ensures !Includes(s, pat)
  {
    forall i | 0 <= i <= |s|
      ensures !OccursAt(s, pat, i)
    {
      if i < |s| {
        assert s[i] in s;
      }
    }
  }

  /** The concrete case "VIN Validation Error: Wrong length". */
  lemma VinPrefixedErrorMissedExample(message: string)
    requires message == "VIN Validation Error: Wrong length"
    ensures !IsVinError(MessageError(message))
  {
    var detail := "Wrong length";
    var low := ToLower(detail);
    assert low == "wrong length";
    AbsentFirstChar(low, "vin");
    AbsentFirstChar(low, "check digit");
    ShortDetailLacksPrefixes(detail);
    assert VinPrefix + detail == message;
    VinPrefixedErrorMissed(detail);
  }

  /** A detail shorter than every prefix contains none of them. */
  lemma ShortDetailLacksPrefixes(detail: string)
    requires |detail| < |NotFoundPrefix|
    ensures !Includes(detail, VinPrefix) && !Includes(detail, BadRequestPrefix)
    ensures !Includes(detail, ConflictPrefix) && !Includes(detail, NotFoundPrefix)
  {
  }

  /** Lower-casing keeps an occurrence of an upper-case pattern as its lower-case form. */
  lemma ToLowerKeepsOccurrence(s: string, pat: string, i: int)
    requires OccursAt(s, pat, i)
    ensures OccursAt(ToLower(s), ToLower(pat), i)
  {
    var low := ToLower(s);
    forall k | 0 <= k < |pat|
      ensures low[i + k] == ToLower(pat)[k]
    {
      assert s[i + k] == s[i..i + |pat|][k];
    }
  }

  /** Corrected: any message carrying the VIN prefix is a VIN error. */
  lemma CorrectedRecognisesVinPrefix(e: ApiError)
    requires Includes(SelectedMessage(e, DefaultFallback), VinPrefix)
    ensures IsVinErrorCorrected(e)
  {
    var m := SelectedMessage(e, DefaultFallback);
    var i :| 0 <= i <= |m| && OccursAt(m, VinPrefix, i);
    ToLowerKeepsOccurrence(m, VinPrefix, i);
    var low := ToLower(m);
    assert low[i..i + 3] == "vin" by {
      assert low[i..i + 3] == low[i..i + |VinPrefix|][..3];
    }
    assert OccursAt(low, "vin", i);
  }

  /** Corrected and as-written agree on every message that carries none of the prefixes. */
  lemma CorrectedAgreesWithoutPrefixes(e: ApiError)
    requires var m := SelectedMessage(e, DefaultFallback);
      !Includes(m, VinPrefix) && !Includes(m, BadRequestPrefix)
      && !Includes(m, ConflictPrefix) && !Includes(m, NotFoundPrefix)
    ensures IsVinErrorCorrected(e) == IsVinError(e)
  {
  }

  /** `isValidationError`. */
  predicate IsValidationError(e: ApiError) {
    Status(e) == Some(400)
  }

  /** `isConflictError`. */
  predicate IsConflictError(e: ApiError) {
    Status(e) == Some(409)
  }

  /**
   * No error is both a validation error and a conflict, and neither
   * classification depends on the message the user is shown: replacing
   * the top-level message or the response body changes neither.
   */
  lemma StatusClassifiers(e: ApiError, message: Option<string>, data: Option<ResponseData>)
    ensures !(IsValidationError(e) && IsConflictError(e))
    ensures IsValidationError(e.(message := message)) == IsValidationError(e)
    ensures IsConflictError(e.(message := message)) == IsConflictError(e)
    ensures e.response.Some? ==>
      IsValidationError(e.(response := Some(e.response.value.(data := data)))) == IsValidationError(e)
      && IsConflictError(e.(response := Some(e.response.value.(data := data)))) == IsConflictError(e)
  {
  }
}
