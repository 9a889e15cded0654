/**
 * The create form: its field rules, the payload it submits, the message it
 * shows when submission fails, and the form state the modal keeps.
 */
module AddCandidateModal {
  import opened Wrappers
  import opened Strings
  import opened CandidateTypes
  import opened ApiErrors
  import UseCandidates

  datatype FormData = FormData(
    name: string,
    position: string,
    email: string,
    phone: string,
    description: string,
    status: Status,
    skillIds: seq<int>)

  /** Empty text fields, status active and no skills. */
  const INITIAL_FORM_DATA := FormData("", "", "", "", "", Active, [])

  /** One optional message per field, plus the general (submission) error. */
  datatype FormErrors = FormErrors(
    name: Option<string>,
    position: Option<string>,
    email: Option<string>,
    phone: Option<string>,
    description: Option<string>,
    status: Option<string>,
    skillIds: Option<string>,
    general: Option<string>)

  const NO_ERRORS := FormErrors(None, None, None, None, None, None, None, None)

  const NAME_REQUIRED := "Name is required"
  const NAME_LENGTH := "Name must be between 2 and 100 characters"
  const POSITION_REQUIRED := "Position is required"
  const POSITION_LENGTH := "Position must be between 2 and 100 characters"
  const EMAIL_REQUIRED := "Email is required"
  const EMAIL_FORMAT := "Invalid email format"
  const PHONE_REQUIRED := "Phone is required"
  const DESCRIPTION_LENGTH := "Description must be between 10 and 2000 characters"

  /**
   * The rule for name and position: blank (whitespace only) is "required";
   * otherwise the untrimmed length, in UTF-16 code units, must lie in [2, 100].
   */
  function RequiredLengthError(value: string, required: string, outOfRange: string): (e: Option<string>)
    ensures AllWhitespace(value) ==> e == Some(required)
    ensures !AllWhitespace(value) && (JsLength(value) < 2 || JsLength(value) > 100) ==> e == Some(outOfRange)
    ensures e.None? <==> !AllWhitespace(value) && 2 <= JsLength(value) <= 100
  {
    if Trim(value) == "" then Some(required)
    else if JsLength(value) < 2 || JsLength(value) > 100 then Some(outOfRange)
    else None
  }

  /** A name of one emoji is two UTF-16 code units long, so it passes the length rule. */
  lemma EmojiNameLength()
    ensures RequiredLengthError("\U{1F600}", NAME_REQUIRED, NAME_LENGTH) == None
  {
    assert !IsWhitespace("\U{1F600}"[0]);
    assert JsLength("\U{1F600}") == 2;
  }

  /** A character the class [^\s@] accepts. */
  predicate EmailChar(c: char) {
    !IsWhitespace(c) && c != '@'
  }

  predicate AllEmailChars(s: string) {
    forall k :: 0 <= k < |s| ==> EmailChar(s[k])
  }

  /**
   * The language of ^[^\s@]+@[^\s@]+\.[^\s@]+$ : no whitespace, exactly one
   * '@' with text before it, and a '.' after it with text on both sides.
   */
  ghost predicate MatchesEmailPattern(s: string) {
    exists i, j :: 0 < i && i + 1 < j && j + 1 < |s| && s[i] == '@' && s[j] == '.' &&
      AllEmailChars(s[..i]) && AllEmailChars(s[i + 1..])
  }

  /** The index of the first `c` in `s`, if any. */
  function IndexOf(s: string, c: char): (r: Option<nat>)
    ensures r.None? ==> c !in s
    ensures r.Some? ==> r.value < |s| && s[r.value] == c && c !in s[..r.value]
  {
    if s == [] then None
    else if s[0] == c then Some(0)
    else
      var r := IndexOf(s[1..], c);
      if r.None? then None
      else
        assert s[..r.value + 1] == [s[0]] + s[1..][..r.value];
        Some(r.value + 1)
  }

  /** The part after the '@': no whitespace or '@', and a '.' with text on both sides. */
  predicate ValidDomain(d: string) {
    AllEmailChars(d) && |d| >= 3 && '.' in d[1..|d| - 1]
  }

  /** The email check: split at the first '@' and scan both sides. */
  function IsEmail(s: string): bool {
    match IndexOf(s, '@')
    case None => false
    case Some(i) => 0 < i && AllEmailChars(s[..i]) && ValidDomain(s[i + 1..])
  }

  /** Every string the email check accepts matches the pattern. */
  lemma IsEmailSound(s: string)
    requires IsEmail(s)
    ensures MatchesEmailPattern(s)
  {
    var i := IndexOf(s, '@').value;
    var domain := s[i + 1..];
    var inner := domain[1..|domain| - 1];
    var k :| 0 <= k < |inner| && inner[k] == '.';
    assert s[i + 2 + k] == inner[k];
    assert 0 < i && i + 1 < i + 2 + k && i + 2 + k + 1 < |s|;
  }

  /** A '.' strictly inside a domain of email characters makes it valid. */
  lemma DotMakesValidDomain(d: string, k: int)
    requires AllEmailChars(d) && 0 < k < |d| - 1 && d[k] == '.'
    ensures ValidDomain(d)
  {
    assert d[1..|d| - 1][k - 1] == '.';
  }

  /** A `c` at `i` with none before it is the one IndexOf finds. */
  lemma IndexOfFirst(s: string, c: char, i: nat)
    requires i < |s| && s[i] == c && c !in s[..i]
    ensures IndexOf(s, c) == Some(i)
  {
  }

  lemma NoAtSign(t: string)
    requires AllEmailChars(t)
    ensures '@' !in t
  {
  }

  /** Every string the pattern matches passes the email check. */
  lemma IsEmailComplete(s: string)
    requires MatchesEmailPattern(s)
    ensures IsEmail(s)
  {
    var i, j :| 0 < i && i + 1 < j && j + 1 < |s| && s[i] == '@' && s[j] == '.' &&
      AllEmailChars(s[..i]) && AllEmailChars(s[i + 1..]);
    NoAtSign(s[..i]);
    IndexOfFirst(s, '@', i);
    assert s[i + 1..][j - i - 1] == s[j];
    DotMakesValidDomain(s[i + 1..], j - i - 1);
  }

  /** The email check accepts exactly the strings the pattern matches. */
  lemma IsEmailIffPattern(s: string)
    ensures IsEmail(s) <==> MatchesEmailPattern(s)
  {
    if IsEmail(s) { IsEmailSound(s); }
    if MatchesEmailPattern(s) { IsEmailComplete(s); }
  }

  /** An address the pattern matches starts and ends with a non-whitespace character, so trimming keeps it. */
  lemma PatternSurvivesTrim(s: string)
    ensures MatchesEmailPattern(s) ==> Trim(s) == s && !AllWhitespace(s)
  {
    if !MatchesEmailPattern(s) {
      return;
    }
    var i, j :| 0 < i && i + 1 < j && j + 1 < |s| && s[i] == '@' && s[j] == '.' &&
      AllEmailChars(s[..i]) && AllEmailChars(s[i + 1..]);
    assert EmailChar(s[..i][0]);
    assert EmailChar(s[i + 1..][|s| - i - 2]);
    TrimUnchanged(s);
  }

  /** The email rule: blank is "required"; otherwise the text must match the pattern. */
  function EmailError(email: string): (e: Option<string>)
    ensures AllWhitespace(email) ==> e == Some(EMAIL_REQUIRED)
    ensures !AllWhitespace(email) && !MatchesEmailPattern(email) ==> e == Some(EMAIL_FORMAT)
    ensures e.None? <==> MatchesEmailPattern(email)
  {
    IsEmailIffPattern(email);
    PatternSurvivesTrim(email);
    if Trim(email) == "" then Some(EMAIL_REQUIRED)
    else if !IsEmail(email) then Some(EMAIL_FORMAT)
    else None
  }

  /** The phone rule: only presence is checked. */
  function PhoneError(phone: string): (e: Option<string>)
    ensures e.None? <==> !AllWhitespace(phone)
    ensures e.Some? ==> e.value == PHONE_REQUIRED
  {
    if Trim(phone) == "" then Some(PHONE_REQUIRED) else None
  }

  /**
   * The description rule: optional, but when not blank its untrimmed length,
   * in UTF-16 code units, must lie in [10, 2000].
   */
  function DescriptionError(description: string): (e: Option<string>)
    ensures e.None? <==> AllWhitespace(description) || 10 <= JsLength(description) <= 2000
    ensures e.Some? ==> e.value == DESCRIPTION_LENGTH
  {
    if Trim(description) != "" && (JsLength(description) < 10 || JsLength(description) > 2000) then Some(DESCRIPTION_LENGTH)
    else None
  }

  /** The form rules stated directly on the field values. */
  ghost predicate Acceptable(f: FormData) {
    && !AllWhitespace(f.name) && 2 <= JsLength(f.name) <= 100
    && !AllWhitespace(f.position) && 2 <= JsLength(f.position) <= 100
    && MatchesEmailPattern(f.email)
    && !AllWhitespace(f.phone)
    && (AllWhitespace(f.description) || 10 <= JsLength(f.description) <= 2000)
  }

  /**
   * The field errors validateForm records: each text field has an error
   * exactly when its rule fails; status and skills are never checked.
   */
  function ValidationErrors(f: FormData): (r: FormErrors)
    ensures r.name.None? <==> !AllWhitespace(f.name) && 2 <= JsLength(f.name) <= 100
    ensures r.position.None? <==> !AllWhitespace(f.position) && 2 <= JsLength(f.position) <= 100
    ensures r.email.None? <==> MatchesEmailPattern(f.email)
    ensures r.phone.None? <==> !AllWhitespace(f.phone)
    ensures r.description.None? <==> AllWhitespace(f.description) || 10 <= JsLength(f.description) <= 2000
    ensures r.status.None? && r.skillIds.None? && r.general.None?
  {
    FormErrors(
      RequiredLengthError(f.name, NAME_REQUIRED, NAME_LENGTH),
      RequiredLengthError(f.position, POSITION_REQUIRED, POSITION_LENGTH),
      EmailError(f.email),
      PhoneError(f.phone),
      DescriptionError(f.description),
      None, None, None)
  }

  /** validateForm's verdict (no field error recorded): it passes exactly the forms the rules accept. */
  function ValidateForm(f: FormData): (ok: bool)
    ensures ok <==> Acceptable(f)
  {
    ValidationErrors(f) == NO_ERRORS
  }

  /**
   * The create request: trimmed name, position, email and phone, the status
   * and skill ids as chosen, and the trimmed description only when it is not blank.
   */
  function BuildPayload(f: FormData): (p: CreatePayload)
    ensures p.name == Trim(f.name) && p.position == Trim(f.position)
    ensures p.email == Trim(f.email) && p.phone == Trim(f.phone)
    ensures p.description.Some? <==> !AllWhitespace(f.description)
    ensures p.description.Some? ==> p.description.value == Trim(f.description)
    ensures p.status == Some(f.status) && p.skillIds == Some(f.skillIds)
  {
    var description := Trim(f.description);
    CreatePayload(
      Trim(f.name), Trim(f.position), Trim(f.email), Trim(f.phone),
      if description != "" then Some(description) else None,
      Some(f.status), Some(f.skillIds))
  }

  /**
   * A valid form yields a payload whose required fields are non-empty and
   * whose email is the one that passed the check, untouched by trimming.
   */
  lemma ValidFormPayload(f: FormData)
    requires ValidateForm(f)
    ensures var p := BuildPayload(f);
      p.name != "" && p.position != "" && p.phone != "" && p.email == f.email && MatchesEmailPattern(p.email)
  {
    PatternSurvivesTrim(f.email);
  }

  const DUPLICATE_TEXT := "Email or phone number already exists"
  const RATE_LIMIT_TEXT := "Too many requests. Please wait a moment and try again."
  const SERVER_ERROR_TEXT := "Server error occurred. Please try again later."
  const CREATE_FAILED_TEXT := "Failed to create candidate. Please try again."

  /**
   * The general error shown when submission fails: 409 shows the message or
   * a duplicate text, 429 the rate-limit text, 500 and above the server
   * text, any other ApiError its message or the default, and a non-ApiError
   * the default.
   */
  function SubmitErrorMessage(err: Thrown): (m: string)
    ensures IsApiError(err) && err.error.statusCode == 409 ==> m == OrElse(Some(err.error.message), DUPLICATE_TEXT)
    ensures IsApiError(err) && err.error.statusCode == 429 ==> m == RATE_LIMIT_TEXT
    ensures IsApiError(err) && err.error.statusCode != 409 && err.error.statusCode >= 500 ==> m == SERVER_ERROR_TEXT
    ensures IsApiError(err) && err.error.statusCode != 409 && err.error.statusCode != 429 && err.error.statusCode < 500
            ==> m == OrElse(Some(err.error.message), CREATE_FAILED_TEXT)
    ensures !IsApiError(err) ==> m == CREATE_FAILED_TEXT
    ensures m != ""
  {
    if IsApiError(err) then
      if err.error.statusCode == 409 then OrElse(Some(err.error.message), DUPLICATE_TEXT)
      else if err.error.statusCode == 429 then RATE_LIMIT_TEXT
      else if err.error.statusCode >= 500 then SERVER_ERROR_TEXT
      else OrElse(Some(err.error.message), CREATE_FAILED_TEXT)
    else CREATE_FAILED_TEXT
  }

  /**
   * The form and the list fetch word rate-limit and server failures alike,
   * and both show the message of any other non-network, non-conflict
   * ApiError that has one.
   */
  lemma SubmitAgreesWithFetchClassifier(err: Thrown)
    requires IsApiError(err) && err.error.statusCode != 0 && err.error.statusCode != 409
    requires err.error.statusCode >= 500 || err.error.statusCode == 429 || err.error.message != ""
    ensures SubmitErrorMessage(err) == UseCandidates.GetErrorMessage(err)
  {
  }

  /** The keys of the form data. */
  datatype Field = NameField | PositionField | EmailField | PhoneField | DescriptionField | StatusField | SkillIdsField

  datatype FieldValue = Text(text: string) | StatusValue(status: Status) | Ids(ids: seq<int>)

  /** The value has the type of the field. */
  predicate Fits(field: Field, value: FieldValue) {
    match field
    case StatusField => value.StatusValue?
    case SkillIdsField => value.Ids?
    case _ => value.Text?
  }

  function GetField(f: FormData, field: Field): (v: FieldValue)
    ensures Fits(field, v)
  {
    match field
    case NameField => Text(f.name)
    case PositionField => Text(f.position)
    case EmailField => Text(f.email)
    case PhoneField => Text(f.phone)
    case DescriptionField => Text(f.description)
    case StatusField => StatusValue(f.status)
    case SkillIdsField => Ids(f.skillIds)
  }

  /** `{ ...prev, [field]: value }`: the field takes the value and every other field stays. */
  function SetField(f: FormData, field: Field, value: FieldValue): (r: FormData)
    requires Fits(field, value)
    ensures GetField(r, field) == value
    ensures forall g :: g != field ==> GetField(r, g) == GetField(f, g)
  {
    match field
    case NameField => f.(name := value.text)
    case PositionField => f.(position := value.text)
    case EmailField => f.(email := value.text)
    case PhoneField => f.(phone := value.text)
    case DescriptionField => f.(description := value.text)
    case StatusField => f.(status := value.status)
    case SkillIdsField => f.(skillIds := value.ids)
  }

  function ErrorOf(e: FormErrors, field: Field): Option<string> {
    match field
    case NameField => e.name
    case PositionField => e.position
    case EmailField => e.email
    case PhoneField => e.phone
    case DescriptionField => e.description
    case StatusField => e.status
    case SkillIdsField => e.skillIds
  }

  /** `{ ...prev, [field]: undefined }`: that field's error goes and every other error stays. */
  function ClearError(e: FormErrors, field: Field): (r: FormErrors)
    ensures ErrorOf(r, field).None?
    ensures forall g :: g != field ==> ErrorOf(r, g) == ErrorOf(e, g)
    ensures r.general == e.general
  {
    match field
    case NameField => e.(name := None)
    case PositionField => e.(position := None)
    case EmailField => e.(email := None)
    case PhoneField => e.(phone := None)
    case DescriptionField => e.(description := None)
    case StatusField => e.(status := None)
    case SkillIdsField => e.(skillIds := None)
  }

  /** A recorded message that is not the empty string (JavaScript truthiness). */
  predicate Truthy(m: Option<string>) {
    m.Some? && m.value != ""
  }

  /** The modal's form state. */
  class AddCandidateForm {
    var formData: FormData
    var errors: FormErrors
    var isSubmitting: bool

    constructor ()
      ensures formData == INITIAL_FORM_DATA && errors == NO_ERRORS && !isSubmitting
    {
      formData := INITIAL_FORM_DATA;
      errors := NO_ERRORS;
      isSubmitting := false;
    }

    /** handleFieldChange: sets the one field and clears that field's error if one is shown. */
    method HandleFieldChange(field: Field, value: FieldValue)
      requires Fits(field, value)
      modifies this
      ensures formData == SetField(old(formData), field, value)
      ensures errors == if Truthy(ErrorOf(old(errors), field)) then ClearError(old(errors), field) else old(errors)
      ensures isSubmitting == old(isSubmitting)
    {
      formData := SetField(formData, field, value);
      if Truthy(ErrorOf(errors, field)) {
        errors := ClearError(errors, field);
      }
    }

    /**
     * handleSubmit up to the submit call: an invalid form records its field
     * errors and submits nothing; a valid one starts submitting with the
     * errors cleared and hands over its payload.
     */
    method BeginSubmit() returns (payload: Option<CreatePayload>)
      modifies this
      ensures payload.None? <==> !ValidateForm(formData)
      ensures payload.None? ==> errors == ValidationErrors(formData) && isSubmitting == old(isSubmitting)
      ensures payload.Some? ==> payload.value == BuildPayload(formData) && errors == NO_ERRORS && isSubmitting
      ensures formData == old(formData)
    {
      var data := formData;
      var valid := ValidateForm(data);
      errors := ValidationErrors(data);
      if !valid {
        return None;
      }
      isSubmitting := true;
      errors := NO_ERRORS;
      payload := Some(BuildPayload(data));
    }

    /**
     * handleSubmit after the submit call: success asks the parent to close
     * the modal; failure records only the general error. Submitting ends
     * either way.
     */
    method SettleSubmit(failure: Option<Thrown>) returns (close: bool)
      modifies this
      ensures close <==> failure.None?
      ensures failure.None? ==> errors == old(errors)
      ensures failure.Some? ==> errors == NO_ERRORS.(general := Some(SubmitErrorMessage(failure.value)))
      ensures !isSubmitting && formData == old(formData)
    {
      if failure.Some? {
        errors := NO_ERRORS.(general := Some(SubmitErrorMessage(failure.value)));
      }
      isSubmitting := false;
      close := failure.None?;
    }

    /** The effect run when the modal is closed: initial data, no errors, not submitting. */
    method ResetOnClose()
      modifies this
      ensures formData == INITIAL_FORM_DATA && errors == NO_ERRORS && !isSubmitting
    {
      formData := INITIAL_FORM_DATA;
      errors := NO_ERRORS;
      isSubmitting := false;
    }
  }
}
