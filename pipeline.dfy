/**
 * The page and the endpoint together: what a form that passes validation
 * becomes in the spreadsheet.
 */
module Pipeline {
  import opened Wrappers
  import opened JsText
  import opened JsValue
  import opened FormValidation
  import opened SurveyPage
  import opened SubmitRoute

  /** The row a validated form should produce, column by column. */
  function ExpectedRow(fd: FormData, timestamp: string): Row
    requires Get(fd, "occupation").Some? && Get(fd, "detailed_reason").Some?
  {
    Row(
      timestamp,
      Str(Get(fd, "occupation").value),
      Join(GetAll(fd, "interest_reasons"), ", "),
      Str(Get(fd, "detailed_reason").value),
      Str(Get(fd, "email").GetOr("")),
      if Get(fd, "social_support") == Some("on") then "Y" else "N")
  }

  /** The endpoint turns any payload the page can send with both texts present into the row it describes. */
  lemma PayloadRow(p: Payload, timestamp: string)
    requires p.occupation.Some? && p.detailedReason.Some?
    ensures BuildRow(PayloadJson(p), timestamp) == Success(Row(
      timestamp,
      Str(p.occupation.value),
      Join(p.interestReasons, ", "),
      Str(p.detailedReason.value),
      Str(p.email.GetOr("")),
      if p.socialSupport then "Y" else "N"))
  {
    var data := PayloadJson(p);
    ArrayJoinStrings(p.interestReasons, ", ");
    assert Property(data, "occupation") == Str(p.occupation.value);
    assert Property(data, "detailed_reason") == Str(p.detailedReason.value);
    assert Property(data, "interest_reasons") == Arr(StrArray(p.interestReasons));
    assert Property(data, "email") == OptionJson(p.email);
    assert Property(data, "social_support") == Bool(p.socialSupport);
  }

  /**
   * A form that passes validation reaches the endpoint as a body the endpoint
   * can always turn into a row: the texts as typed, the ticked reasons
   * joined in order, "" for a missing or empty e-mail, and "Y" exactly when
   * the checkbox was ticked.
   */
  lemma ValidatedFormRow(fd: FormData, timestamp: string)
    requires ValidateForm(fd).IsEmpty()
    ensures Get(fd, "occupation").Some? && Get(fd, "detailed_reason").Some?
    ensures BuildRow(PayloadJson(BuildPayload(fd)), timestamp) == Success(ExpectedRow(fd, timestamp))
  {
    PayloadRow(BuildPayload(fd), timestamp);
  }

  /** None of the offered reasons holds a comma. */
  lemma OfferedReasonsCommaFree()
    ensures forall i :: 0 <= i < |OfferedReasons| ==> ',' !in OfferedReasons[i]
  {
    forall i | 0 <= i < |OfferedReasons| ensures ',' !in OfferedReasons[i] {
      var r := OfferedReasons[i];
      assert forall k :: 0 <= k < |r| ==> r[k] != ',';
    }
  }

  lemma OfferedSubsetCommaFree(reasons: seq<string>)
    requires forall i :: 0 <= i < |reasons| ==> reasons[i] in OfferedReasons
    ensures forall i :: 0 <= i < |reasons| ==> ',' !in reasons[i]
  {
    OfferedReasonsCommaFree();
    forall i | 0 <= i < |reasons| ensures ',' !in reasons[i] {
      var j :| 0 <= j < |OfferedReasons| && OfferedReasons[j] == reasons[i];
    }
  }

  /** The reasons column of a validated form built from the offered checkboxes reads back as the ticked reasons, in order. */
  lemma ReasonsReadBack(fd: FormData, timestamp: string)
    requires ValidateForm(fd).IsEmpty()
    requires forall i :: 0 <= i < |GetAll(fd, "interest_reasons")| ==> GetAll(fd, "interest_reasons")[i] in OfferedReasons
    ensures BuildRow(PayloadJson(BuildPayload(fd)), timestamp).Success?
    ensures SplitJoined(BuildRow(PayloadJson(BuildPayload(fd)), timestamp).value.interestReasons) == GetAll(fd, "interest_reasons")
  {
    var reasons := GetAll(fd, "interest_reasons");
    ValidatedFormRow(fd, timestamp);
    assert BuildRow(PayloadJson(BuildPayload(fd)), timestamp).value.interestReasons == Join(reasons, ", ");
    OfferedSubsetCommaFree(reasons);
    SplitJoinedJoin(reasons);
  }

  /** A detailed reason whose ends are not white space and which has at least ten characters passes. */
  lemma LongTextAccepted(s: string)
    requires |s| >= 10 && !IsSpace(s[0]) && !IsSpace(s[|s| - 1])
    ensures !DetailedReasonRejected(Some(s)) && !OccupationRejected(Some(s))
  {
    assert SkipSpace(s, 0) == 0;
    assert SkipSpaceBack(s, 0, |s|) == |s|;
    assert Trim(s) == s;
  }

  /** A form passes validation as soon as each of its four fields does. */
  lemma AcceptedForm(fd: FormData)
    requires !OccupationRejected(Get(fd, "occupation"))
    requires GetAll(fd, "interest_reasons") != []
    requires !DetailedReasonRejected(Get(fd, "detailed_reason"))
    requires !EmailRejected(Get(fd, "email"))
    ensures ValidateForm(fd) == NoErrors
  {
  }

  const StudentForm: FormData := map[
    "occupation" := ["학생"],
    "interest_reasons" := ["포트폴리오를 만들고싶어서"],
    "detailed_reason" := ["개인 프로젝트에 적용해보고 싶습니다"],
    "email" := [""],
    "social_support" := ["on"]]

  const StudentReason := "개인 프로젝트에 적용해보고 싶습니다"

  lemma StudentFields()
    ensures Get(StudentForm, "occupation") == Some("학생")
    ensures GetAll(StudentForm, "interest_reasons") == ["포트폴리오를 만들고싶어서"]
    ensures Get(StudentForm, "detailed_reason") == Some(StudentReason)
    ensures Get(StudentForm, "email") == Some("")
    ensures Get(StudentForm, "social_support") == Some("on")
  {
  }

  lemma StudentReasonAccepted()
    ensures !DetailedReasonRejected(Some(StudentReason))
  {
    var detail := StudentReason;
    assert !IsSpace(detail[0]) && !IsSpace(detail[|detail| - 1]);
    LongTextAccepted(detail);
  }

  /**
   * A student who ticks one reason, explains it, leaves the e-mail empty and
   * ticks the social-support box passes validation, and the row records "Y"
   * and an empty e-mail.
   */
  lemma StudentScenario(timestamp: string)
    ensures ValidateForm(StudentForm) == NoErrors
    ensures BuildRow(PayloadJson(BuildPayload(StudentForm)), timestamp) == Success(Row(
      timestamp, Str("학생"), "포트폴리오를 만들고싶어서", Str(StudentReason), Str(""), "Y"))
  {
    StudentFields();
    TwoSyllablesAccepted();
    StudentReasonAccepted();
    AcceptedForm(StudentForm);
    ValidatedFormRow(StudentForm, timestamp);
  }

  /** A form whose only failing field is the occupation gets the occupation message and nothing else. */
  lemma OnlyOccupationRejected(fd: FormData)
    requires OccupationRejected(Get(fd, "occupation"))
    requires GetAll(fd, "interest_reasons") != []
    requires !DetailedReasonRejected(Get(fd, "detailed_reason"))
    requires !EmailRejected(Get(fd, "email"))
    ensures ValidateForm(fd) == NoErrors.(occupation := Some(OccupationMessage))
  {
  }

  const NoOccupationForm: FormData := StudentForm["occupation" := [""]]

  lemma NoOccupationFields()
    ensures Get(NoOccupationForm, "occupation") == Some("")
    ensures GetAll(NoOccupationForm, "interest_reasons") == ["포트폴리오를 만들고싶어서"]
    ensures Get(NoOccupationForm, "detailed_reason") == Some(StudentReason)
    ensures Get(NoOccupationForm, "email") == Some("")
  {
  }

  /** The same form with an empty occupation fails on the occupation alone. */
  lemma EmptyOccupationScenario()
    ensures ValidateForm(NoOccupationForm) == NoErrors.(occupation := Some(OccupationMessage))
  {
    NoOccupationFields();
    StudentReasonAccepted();
    OnlyOccupationRejected(NoOccupationForm);
  }

  /** The endpoint appends the row of a validated form exactly when the spreadsheet is reachable and takes it. */
  lemma ValidatedAppendedRow(fd: FormData, timestamp: string, reachable: bool, accepted: bool)
    requires ValidateForm(fd).IsEmpty()
    ensures ExpectedRow.requires(fd, timestamp)
    ensures AppendedRow(Some(PayloadJson(BuildPayload(fd))), timestamp, reachable, accepted)
      == if reachable && accepted then Some(ExpectedRow(fd, timestamp)) else None
  {
    ValidatedFormRow(fd, timestamp);
  }

  /**
   * One press of the submit button carried through the endpoint and back: a
   * form that fails validation shows its errors and reaches nothing; one that
   * passes appends exactly its row when the spreadsheet is reachable and takes
   * the row, and the page navigates exactly then and alerts otherwise. The
   * button is enabled again at the end in every case.
   */
  method SubmitThroughEndpoint(page: Page, sheet: Sheet, fd: FormData, timestamp: string, reachable: bool, accepted: bool)
    returns (effect: Option<Effect>)
    requires page.Valid() && !page.awaiting
    modifies page, sheet
    ensures page.Valid() && !page.isSubmitting
    ensures !ValidateForm(fd).IsEmpty() ==>
      effect == None && page.errors == ValidateForm(fd) && sheet.rows == old(sheet.rows)
    ensures ValidateForm(fd).IsEmpty() ==>
      && page.errors == NoErrors
      && ExpectedRow.requires(fd, timestamp)
      && (if reachable && accepted
          then effect == Some(Navigate(LandingUrl)) && sheet.rows == old(sheet.rows) + [ExpectedRow(fd, timestamp)]
          else effect == Some(Alert(AlertMessage)) && sheet.rows == old(sheet.rows))
  {
    var request := page.HandleSubmit(fd);
    if request.None? {
      return None;
    }
    ValidatedAppendedRow(fd, timestamp, reachable, accepted);
    var response := Post(sheet, Some(PayloadJson(request.value)), timestamp, reachable, accepted);
    assert response == (if reachable && accepted then SuccessResponse else FailureResponse);
    var shown := page.Settle(Responded(response.status));
    effect := Some(shown);
  }
}
