/**
 * The survey page's submit flow (`handleSubmit` and the submit button of the
 * page component): the `errors` and `isSubmitting` state, the request it
 * sends after a clean validation, and what it does with the answer.
 */
module SurveyPage {
  import opened Wrappers
  import opened JsValue
  import opened FormValidation

  /** The values of the six reason checkboxes, in the order the page offers them. */
  const OfferedReasons: seq<string> := [
    "이미 개발을 할 줄 아는데 AI를 잘 써보고싶어서",
    "이미 개발을 할 줄 아는데 풀스택 개발자가 되고싶어서",
    "포트폴리오를 만들고싶어서",
    "만들고싶은 아이디어가 있어서",
    "업무에 도움이 될 것 같아서",
    "뭐든 배워두면 좋을 것 같아서"]

  /** The body of the request, before JSON serialisation. */
  datatype Payload = Payload(
    occupation: Option<string>,
    interestReasons: seq<string>,
    detailedReason: Option<string>,
    email: Option<string>,
    socialSupport: bool)

  /** The request body built from the form; the checkbox counts as ticked only when its value is "on". */
  function BuildPayload(fd: FormData): (p: Payload)
    ensures p.socialSupport <==> Get(fd, "social_support") == Some("on")
    ensures p.interestReasons == GetAll(fd, "interest_reasons")
  {
    Payload(
      Get(fd, "occupation"),
      GetAll(fd, "interest_reasons"),
      Get(fd, "detailed_reason"),
      Get(fd, "email"),
      Get(fd, "social_support") == Some("on"))
  }

  function OptionJson(v: Option<string>): Value {
    if v.Some? then Str(v.value) else Null
  }

  /** What `JSON.stringify` sends and the endpoint parses back. */
  function PayloadJson(p: Payload): (v: Value)
    ensures !Nullish(v)
    ensures Property(v, "occupation") == OptionJson(p.occupation)
    ensures Property(v, "interest_reasons") == Arr(StrArray(p.interestReasons))
    ensures Property(v, "detailed_reason") == OptionJson(p.detailedReason)
    ensures Property(v, "email") == OptionJson(p.email)
    ensures Property(v, "social_support") == Bool(p.socialSupport)
  {
    Obj(map[
      "occupation" := OptionJson(p.occupation),
      "interest_reasons" := Arr(StrArray(p.interestReasons)),
      "detailed_reason" := OptionJson(p.detailedReason),
      "email" := OptionJson(p.email),
      "social_support" := Bool(p.socialSupport)])
  }

  /** How the request ended: an HTTP status, or a failure of `fetch` itself. */
  datatype FetchOutcome = Responded(status: int) | NetworkFailure

  /** `response.ok`. */
  predicate IsOk(outcome: FetchOutcome): (ok: bool)
    ensures ok ==> outcome.Responded?
    ensures outcome == Responded(200) ==> ok
    ensures outcome == Responded(500) ==> !ok
  {
    outcome.Responded? && 200 <= outcome.status <= 299
  }

  /** What the page does once the request has settled. */
  datatype Effect = Navigate(url: string) | Alert(message: string)

  const LandingUrl := "https://sumins.notion.site/cursor?pvs=4"
  const AlertMessage := "제출 중 오류가 발생했습니다. 다시 시도해주세요."

  /** The page state after one `setIsSubmitting` or `setErrors` call. */
  datatype UiState = UiState(isSubmitting: bool, errors: FormErrors)

  /** The page component's form state. */
  class Page {
    var errors: FormErrors
    var isSubmitting: bool
    /** The state after each update, in the order the handler made them. */
    ghost var updates: seq<UiState>
    /** A request has been sent and has not settled yet. */
    ghost var awaiting: bool

    /** The flag is up exactly while a request is outstanding. */
    ghost predicate Valid()
      reads this
    {
      isSubmitting == awaiting
    }

    /** First render: no errors, not submitting. */
    constructor ()
      ensures Valid()
      ensures errors == NoErrors && !isSubmitting && updates == [] && !awaiting
    {
      errors := NoErrors;
      isSubmitting := false;
      updates := [];
      awaiting := false;
    }

    method SetIsSubmitting(b: bool)
      modifies this`isSubmitting, this`updates
      ensures isSubmitting == b
      ensures updates == old(updates) + [UiState(b, errors)]
    {
      isSubmitting := b;
      updates := updates + [UiState(b, errors)];
    }

    method SetErrors(e: FormErrors)
      modifies this`errors, this`updates
      ensures errors == e
      ensures updates == old(updates) + [UiState(isSubmitting, e)]
    {
      errors := e;
      updates := updates + [UiState(isSubmitting, e)];
    }

    /** `disabled={isSubmitting}`: the button is off exactly while a request is outstanding. */
    function SubmitDisabled(): (disabled: bool)
      reads this
      requires Valid()
      ensures disabled <==> awaiting
    {
      isSubmitting
    }

    /**
     * `handleSubmit` up to the request: raise the flag, clear the errors,
     * validate. Errors are shown as returned and the flag lowered with no
     * request sent; a clean form sends its payload and waits with the flag up.
     */
    method HandleSubmit(fd: FormData) returns (request: Option<Payload>)
      requires Valid() && !awaiting
      modifies this
      ensures Valid()
      ensures var found := ValidateForm(fd);
        if found.IsEmpty() then
          && request == Some(BuildPayload(fd))
          && awaiting && isSubmitting && errors == NoErrors
          && updates == old(updates) + [UiState(true, old(errors)), UiState(true, NoErrors)]
        else
          && request == None
          && !awaiting && !isSubmitting && errors == found
          && updates == old(updates) + [UiState(true, old(errors)), UiState(true, NoErrors),
                                        UiState(true, found), UiState(false, found)]
    {
      ghost var before := updates;
      ghost var started := [UiState(true, errors), UiState(true, NoErrors)];
      SetIsSubmitting(true);
      SetErrors(NoErrors);
      assert updates == before + started;
      var validationErrors := ValidateForm(fd);
      if |validationErrors.Keys()| > 0 {
        SetErrors(validationErrors);
        SetIsSubmitting(false);
        assert updates == before + started + [UiState(true, validationErrors), UiState(false, validationErrors)];
        return None;
      }
      awaiting := true;
      request := Some(BuildPayload(fd));
    }

    /**
     * `handleSubmit` after the request: navigate on an ok response, alert on
     * a bad status or a failed `fetch`, and lower the flag in every case.
     */
    method Settle(outcome: FetchOutcome) returns (effect: Effect)
      requires Valid() && awaiting
      modifies this
      ensures Valid() && !awaiting && !isSubmitting
      ensures errors == old(errors)
      ensures updates == old(updates) + [UiState(false, errors)]
      ensures effect == if IsOk(outcome) then Navigate(LandingUrl) else Alert(AlertMessage)
    {
      if IsOk(outcome) {
        effect := Navigate(LandingUrl);
      } else {
        effect := Alert(AlertMessage);
      }
      SetIsSubmitting(false);
      awaiting := false;
    }

    /**
     * A press of the submit button: ignored while it is disabled, otherwise
     * the form's submit handler runs. The browser's own check of the
     * `type="email"` input, which can stop the submit event first, is not
     * modelled.
     */
    method PressSubmit(fd: FormData) returns (request: Option<Payload>)
      requires Valid()
      modifies this
      ensures Valid()
      ensures old(awaiting) ==> request == None && unchanged(this)
      ensures request.Some? ==> request == Some(BuildPayload(fd)) && ValidateForm(fd).IsEmpty() && awaiting
      ensures !old(awaiting) ==> var found := ValidateForm(fd);
        if found.IsEmpty() then
          && request == Some(BuildPayload(fd))
          && awaiting && isSubmitting && errors == NoErrors
          && updates == old(updates) + [UiState(true, old(errors)), UiState(true, NoErrors)]
        else
          && request == None
          && !awaiting && !isSubmitting && errors == found
          && updates == old(updates) + [UiState(true, old(errors)), UiState(true, NoErrors),
                                        UiState(true, found), UiState(false, found)]
    {
      if SubmitDisabled() {
        return None;
      }
      request := HandleSubmit(fd);
    }
  }
}
