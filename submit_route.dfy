/**
 * The `POST /api/submit` endpoint: it turns the parsed request body into a
 * six-column row, appends the row to the first sheet of the survey
 * spreadsheet and answers with success, or with one fixed status-500 error
 * whatever went wrong.
 */
module SubmitRoute {
  import opened Wrappers
  import opened JsText
  import opened JsValue

  /** The row handed to the sheet: exactly the six columns of the survey sheet. */
  datatype Row = Row(
    timestamp: string,
    occupation: Value,
    interestReasons: string,
    detailedReason: Value,
    email: Value,
    socialSupport: string)

  /** The three TypeErrors building the row can throw. */
  datatype RowError =
    | PropertyOfNullish   // the body is null, so reading `data.occupation` throws
    | JoinNotCallable     // `interest_reasons` is not an array, so `join` is not a function
    | ElementNotStringable // an element of `interest_reasons` has no usable `toString`, so `join` throws

  /**
   * The object literal passed to `addRow`. The timestamp is the one given;
   * occupation and detailed reason are copied as they came (no trimming, no
   * checks); the reasons are joined with ", "; a falsy e-mail becomes "";
   * social support becomes "Y" or "N" by truthiness.
   */
  function BuildRow(data: Value, timestamp: string): (r: Result<Row, RowError>)
    ensures r == Failure(PropertyOfNullish) <==> Nullish(data)
    ensures r == Failure(JoinNotCallable) <==> !Nullish(data) && !Property(data, "interest_reasons").Arr?
    ensures r == Failure(ElementNotStringable) <==>
      !Nullish(data) && Property(data, "interest_reasons").Arr? && !JoinSucceeds(Property(data, "interest_reasons").items)
    ensures r.Success? ==> JoinSucceeds(Property(data, "interest_reasons").items)
    ensures r.Success? ==>
      && r.value.timestamp == timestamp
      && r.value.occupation == Property(data, "occupation")
      && r.value.detailedReason == Property(data, "detailed_reason")
      && r.value.interestReasons == ArrayJoin(Property(data, "interest_reasons").items, ", ")
    ensures r.Success? ==>
      var email := Property(data, "email");
      && (Truthy(email) ==> r.value.email == email)
      && (!Truthy(email) ==> r.value.email == Str(""))
    ensures r.Success? ==>
      && r.value.socialSupport in {"Y", "N"}
      && (r.value.socialSupport == "Y" <==> Truthy(Property(data, "social_support")))
  {
    if Nullish(data) then Failure(PropertyOfNullish)
    else
      var reasons := Property(data, "interest_reasons");
      if !reasons.Arr? then Failure(JoinNotCallable)
      else if !JoinSucceeds(reasons.items) then Failure(ElementNotStringable)
      else
        var email := Property(data, "email");
        Success(Row(
          timestamp,
          Property(data, "occupation"),
          ArrayJoin(reasons.items, ", "),
          Property(data, "detailed_reason"),
          if Truthy(email) then email else Str(""),
          if Truthy(Property(data, "social_support")) then "Y" else "N"))
  }

  datatype ResponseBody = SuccessBody | ErrorBody(error: string)

  datatype Response = Response(status: int, body: ResponseBody)

  const FailureMessage := "제출 중 오류가 발생했습니다."

  /** `{ success: true }` with the default status. */
  const SuccessResponse := Response(200, SuccessBody)

  /** The one failure answer: status 500 and a fixed message, never the error's detail. */
  const FailureResponse := Response(500, ErrorBody(FailureMessage))

  /**
   * The row one request appends, if any: `body` is the parsed body (None
   * when parsing failed), `reachable` whether loading the document and its
   * first sheet succeeded, `accepted` whether the spreadsheet service took
   * the row.
   */
  function AppendedRow(body: Option<Value>, timestamp: string, reachable: bool, accepted: bool): (r: Option<Row>)
    ensures r.Some? <==> body.Some? && reachable && accepted && BuildRow(body.value, timestamp).Success?
    ensures r.Some? ==> BuildRow(body.value, timestamp) == Success(r.value) && r.value.timestamp == timestamp
  {
    if body.Some? && reachable && BuildRow(body.value, timestamp).Success? && accepted
    then Some(BuildRow(body.value, timestamp).value)
    else None
  }

  /** The first sheet of the survey spreadsheet, as an append-only list of rows. */
  class Sheet {
    var rows: seq<Row>

    constructor (initial: seq<Row>)
      ensures rows == initial
    {
      rows := initial;
    }

    /** `addRow`: appends the row when the service accepts it, otherwise fails and leaves the sheet as it was. */
    method AddRow(row: Row, accepted: bool) returns (ok: bool)
      modifies this
      ensures ok == accepted
      ensures rows == if ok then old(rows) + [row] else old(rows)
    {
      ok := accepted;
      if ok {
        rows := rows + [row];
      }
    }
  }

  /**
   * `POST`: success exactly when a row was appended, and then exactly that
   * one row; every failure (unparsable body, unreachable document, a
   * TypeError while building the row, a refused append) gives the same
   * status-500 answer and leaves the sheet unchanged.
   */
  method Post(sheet: Sheet, body: Option<Value>, timestamp: string, reachable: bool, accepted: bool)
    returns (response: Response)
    modifies sheet
    ensures var appended := AppendedRow(body, timestamp, reachable, accepted);
      && response == (if appended.Some? then SuccessResponse else FailureResponse)
      && sheet.rows == old(sheet.rows) + (if appended.Some? then [appended.value] else [])
  {
    if body.None? {
      return FailureResponse;
    }
    var data := body.value;
    if !reachable {
      return FailureResponse;
    }
    var row := BuildRow(data, timestamp);
    if row.Failure? {
      return FailureResponse;
    }
    var ok := sheet.AddRow(row.value, accepted);
    if !ok {
      return FailureResponse;
    }
    return SuccessResponse;
  }

  /**
   * The same body posted twice, both times successfully, appends two rows
   * that differ at most in their timestamps: the endpoint does not
   * deduplicate.
   */
  method PostTwice(sheet: Sheet, body: Value, first: string, second: string) returns (r1: Response, r2: Response)
    requires BuildRow(body, first).Success?
    modifies sheet
    ensures r1 == SuccessResponse && r2 == SuccessResponse
    ensures |sheet.rows| == |old(sheet.rows)| + 2
    ensures sheet.rows[..|old(sheet.rows)|] == old(sheet.rows)
    ensures sheet.rows[|old(sheet.rows)|].(timestamp := second) == sheet.rows[|old(sheet.rows)| + 1]
  {
    r1 := Post(sheet, Some(body), first, true, true);
    r2 := Post(sheet, Some(body), second, true, true);
  }

  /**
   * The endpoint does not validate: a body with an empty occupation and no
   * reasons, which the page would never send, is still turned into a row.
   */
  lemma NoServerValidation(timestamp: string)
    ensures var data := Obj(map["occupation" := Str(""), "interest_reasons" := Arr([])]);
      BuildRow(data, timestamp) == Success(Row(timestamp, Str(""), "", Undefined, Str(""), "N"))
  {
    var data := Obj(map["occupation" := Str(""), "interest_reasons" := Arr([])]);
    assert Property(data, "interest_reasons") == Arr([]);
    assert "detailed_reason" !in data.fields;
  }

  /**
   * `join` converts each element with ToString, so an element object with
   * its own `toString` field makes the row fail, even inside a nested array.
   */
  lemma OwnToStringRejected(timestamp: string)
    ensures var element := Obj(map["toString" := Num(1)]);
      && BuildRow(Obj(map["interest_reasons" := Arr([element])]), timestamp) == Failure(ElementNotStringable)
      && BuildRow(Obj(map["interest_reasons" := Arr([Str("a"), Arr([element])])]), timestamp) == Failure(ElementNotStringable)
  {
    var element := Obj(map["toString" := Num(1)]);
    var flat := Obj(map["interest_reasons" := Arr([element])]);
    var nested := Obj(map["interest_reasons" := Arr([Str("a"), Arr([element])])]);
    assert Property(flat, "interest_reasons") == Arr([element]);
    assert !Stringable([element][0]);
    assert Property(nested, "interest_reasons") == Arr([Str("a"), Arr([element])]);
    assert !Stringable(Arr([element]));
    assert !Stringable(Arr([Str("a"), Arr([element])]).items[1]);
  }
}
