/**
 * The survey form's client-side validator (`validateForm` of the page
 * component): from the submitted form data to a record of at most four
 * error messages.
 */
module FormValidation {
  import opened Wrappers
  import opened JsText
  import opened EmailPattern

  /** Form data: each field name with the values submitted under it, in document order. */
  type FormData = map<string, seq<string>>

  /** `FormData.get`: the first value under `name`, or null. */
  function Get(fd: FormData, name: string): (r: Option<string>)
    ensures r.Some? <==> GetAll(fd, name) != []
    ensures r.Some? ==> r.value == GetAll(fd, name)[0]
  {
    if name in fd && fd[name] != [] then Some(fd[name][0]) else None
  }

  /** `FormData.getAll`: every value under `name`. */
  function GetAll(fd: FormData, name: string): (r: seq<string>)
    ensures name !in fd ==> r == []
    ensures name in fd ==> r == fd[name]
  {
    if name in fd then fd[name] else []
  }

  /** The four keys a `FormErrors` record may hold. */
  datatype Field = Occupation | InterestReasons | DetailedReason | Email

  /** The `FormErrors` record: one optional message per field. */
  datatype FormErrors = FormErrors(
    occupation: Option<string>,
    interestReasons: Option<string>,
    detailedReason: Option<string>,
    email: Option<string>)
  {
    /** `Object.keys` of the record. */
    function Keys(): (ks: set<Field>)
      ensures Occupation in ks <==> occupation.Some?
      ensures InterestReasons in ks <==> interestReasons.Some?
      ensures DetailedReason in ks <==> detailedReason.Some?
      ensures Email in ks <==> email.Some?
    {
      (if occupation.Some? then {Occupation} else {})
      + (if interestReasons.Some? then {InterestReasons} else {})
      + (if detailedReason.Some? then {DetailedReason} else {})
      + (if email.Some? then {Email} else {})
    }

    predicate IsEmpty() {
      Keys() == {}
    }
  }

  const NoErrors: FormErrors := FormErrors(None, None, None, None)

  const OccupationMessage := "직군을 2글자 이상 입력해주세요"
  const InterestReasonsMessage := "하나 이상의 이유를 선택해주세요"
  const DetailedReasonMessage := "10글자 이상 작성해주세요"
  const EmailMessage := "올바른 이메일 주소를 입력해주세요"

  /** `!v` for a string-or-null `v`: null and the empty string are falsy. */
  predicate Falsy(v: Option<string>) {
    v.None? || v.value == ""
  }

  /** The occupation is missing or has fewer than 2 UTF-16 code units once trimmed. */
  predicate OccupationRejected(v: Option<string>) {
    v.None? || Utf16Length(Trim(v.value)) < 2
  }

  /** The detailed reason is missing or has fewer than 10 UTF-16 code units once trimmed. */
  predicate DetailedReasonRejected(v: Option<string>) {
    v.None? || Utf16Length(Trim(v.value)) < 10
  }

  /** An e-mail was given (non-null, non-empty) and does not have the shape of an address. */
  predicate EmailRejected(v: Option<string>) {
    v.Some? && v.value != "" && !WellFormedEmail(v.value)
  }

  /** The occupation check: null, empty, or under 2 code units once trimmed. */
  function OccupationError(occupation: Option<string>): (message: Option<string>)
    ensures message.Some? <==> OccupationRejected(occupation)
    ensures message.Some? ==> message.value == OccupationMessage
  {
    if Falsy(occupation) || Utf16Length(Trim(occupation.value)) < 2
    then Some(OccupationMessage)
    else None
  }

  /** The reasons check: no checkbox value submitted at all. */
  function InterestReasonsError(interestReasons: seq<string>): (message: Option<string>)
    ensures message.Some? <==> interestReasons == []
    ensures message.Some? ==> message.value == InterestReasonsMessage
  {
    if |interestReasons| == 0 then Some(InterestReasonsMessage) else None
  }

  /** The detailed-reason check: null, empty, or under 10 code units once trimmed. */
  function DetailedReasonError(detailedReason: Option<string>): (message: Option<string>)
    ensures message.Some? <==> DetailedReasonRejected(detailedReason)
    ensures message.Some? ==> message.value == DetailedReasonMessage
  {
    if Falsy(detailedReason) || Utf16Length(Trim(detailedReason.value)) < 10
    then Some(DetailedReasonMessage)
    else None
  }

  /**
   * The e-mail check: only a non-null, non-empty value is tested against the
   * pattern. The result is stated by the address's shape (one '@', no white
   * space, a dot inside the domain) rather than by the pattern text.
   */
  function EmailError(email: Option<string>): (message: Option<string>)
    ensures message.Some? <==> EmailRejected(email)
    ensures message.Some? ==> message.value == EmailMessage
  {
    if email != Some("") && email != None then
      EmailPatternCharacterization(email.value);
      if Falsy(email) || !MatchesEmailPattern(email.value)
      then Some(EmailMessage)
      else None
    else None
  }

  /**
   * `validateForm`. Each entry is a function of its own field alone; an entry
   * is present exactly when its check fails, and then holds that field's
   * fixed message; the record is empty exactly when all four checks pass.
   */
  function ValidateForm(fd: FormData): (errors: FormErrors)
    ensures errors.occupation.Some? <==> OccupationRejected(Get(fd, "occupation"))
    ensures errors.interestReasons.Some? <==> GetAll(fd, "interest_reasons") == []
    ensures errors.detailedReason.Some? <==> DetailedReasonRejected(Get(fd, "detailed_reason"))
    ensures errors.email.Some? <==> EmailRejected(Get(fd, "email"))
    ensures errors.occupation.Some? ==> errors.occupation.value == OccupationMessage
    ensures errors.interestReasons.Some? ==> errors.interestReasons.value == InterestReasonsMessage
    ensures errors.detailedReason.Some? ==> errors.detailedReason.value == DetailedReasonMessage
    ensures errors.email.Some? ==> errors.email.value == EmailMessage
    ensures errors.IsEmpty() <==>
      && !OccupationRejected(Get(fd, "occupation"))
      && GetAll(fd, "interest_reasons") != []
      && !DetailedReasonRejected(Get(fd, "detailed_reason"))
      && !EmailRejected(Get(fd, "email"))
  {
    FormErrors(
      OccupationError(Get(fd, "occupation")),
      InterestReasonsError(GetAll(fd, "interest_reasons")),
      DetailedReasonError(Get(fd, "detailed_reason")),
      EmailError(Get(fd, "email")))
  }

  /**
   * A trimmed text is under 2 code units exactly when it is empty or one
   * character of the Basic Multilingual Plane; it is empty exactly when the
   * whole text is white space.
   */
  lemma BelowTwoCodeUnits(s: string)
    ensures Utf16Length(Trim(s)) < 2 <==>
      AllSpace(s) || (|Trim(s)| == 1 && Trim(s)[0] as int <= 0xFFFF)
  {
    var t := Trim(s);
    if |t| == 1 {
      assert t[1..] == [];
    }
  }

  /** White space alone never passes the occupation or detailed-reason checks. */
  lemma WhiteSpaceRejected(s: string)
    requires AllSpace(s)
    ensures OccupationRejected(Some(s)) && DetailedReasonRejected(Some(s))
  {
  }

  /** " a ", one letter inside spaces, fails the occupation check. */
  lemma OneLetterRejected()
    ensures OccupationRejected(Some(" a "))
  {
    var s := " a ";
    assert !IsSpace('a');
    assert SkipSpace(s, 1) == 1;
    assert SkipSpace(s, 0) == 1;
    assert SkipSpaceBack(s, 1, 2) == 2;
    assert SkipSpaceBack(s, 1, 3) == 2;
    assert Trim(s) == "a";
    assert Utf16Length("a") == 1;
  }

  /** "학생", two Hangul syllables, passes the occupation check. */
  lemma TwoSyllablesAccepted()
    ensures !OccupationRejected(Some("학생"))
  {
    var s := "학생";
    assert !IsSpace(s[0]) && !IsSpace(s[1]);
    assert SkipSpace(s, 0) == 0 && SkipSpaceBack(s, 0, 2) == 2;
    assert Trim(s) == s;
  }

  /** A single character outside the Basic Multilingual Plane passes too: `.length` counts it twice. */
  lemma AstralCharacterAccepted()
    ensures !OccupationRejected(Some("\U{1F600}"))
  {
    var s := "\U{1F600}";
    assert !IsSpace(s[0]);
    assert SkipSpace(s, 0) == 0 && SkipSpaceBack(s, 0, 1) == 1;
    assert Trim(s) == s;
    assert s[1..] == [];
  }

  /** Null or the empty string is never an e-mail error; a non-empty e-mail is one exactly when the pattern rejects it. */
  lemma EmailOptional(v: Option<string>)
    ensures Falsy(v) ==> !EmailRejected(v)
    ensures !Falsy(v) ==> (EmailRejected(v) <==> !MatchesEmailPattern(v.value))
  {
    if !Falsy(v) {
      EmailPatternCharacterization(v.value);
    }
  }
}
