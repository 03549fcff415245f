/** `POST /api/upload-jd`: ordered checks on the body, then the job description is stored and parsed. */
module UploadJdRoute {
  import opened Basics
  import opened Text
  import opened JsonRequest

  const MissingFields: string := "Missing required fields: email, title, jdText"
  const InvalidEmail: string := "Invalid email address"
  const InvalidTitle: string := "Invalid job title"
  const TextTooShort: string := "Job description text is too short (minimum 50 characters)"
  const DefaultFailure: string := "Failed to upload job description"

  /**
   * The `TypeError` raised when the too-short branch logs `jdText.trim().length`
   * for a `jdText` that is not a string (V8's wording).
   */
  const TrimNotAFunction: string := "jdText.trim is not a function"

  /** The shortest trimmed description accepted. */
  const MinTextLength: int := 50

  /** The arguments `getOrCreateUser` and `uploadJobDescription` receive once the checks pass. */
  datatype JdUpload = JdUpload(email: string, title: string, jdText: string)

  /** A check either passes, rejects the request (400) or throws into the handler's `catch` (500). */
  datatype Checked = Passed(upload: JdUpload) | Rejected(message: string) | Threw(message: string)

  /** A string that is long enough once trimmed. */
  predicate LongEnough(v: JsValue)
  {
    v.Str? && |Trim(v.s)| >= MinTextLength
  }

  /** The four checks in order, the first failure winning. */
  function Validate(email: JsValue, title: JsValue, jdText: JsValue): (r: Checked)
    ensures r.Passed? <==> EmailLike(email) && NonBlankString(title) && LongEnough(jdText)
    ensures r.Passed? ==> r.upload == JdUpload(email.s, title.s, jdText.s)
    ensures r.Threw? <==> Truthy(jdText) && !jdText.Str? && EmailLike(email) && NonBlankString(title)
    ensures r.Threw? ==> r.message == TrimNotAFunction
    ensures r.Rejected? ==> r.message in {MissingFields, InvalidEmail, InvalidTitle, TextTooShort}
    ensures r == Rejected(MissingFields) <==> !Truthy(email) || !Truthy(title) || !Truthy(jdText)
    ensures r == Rejected(InvalidEmail) <==> Truthy(email) && Truthy(title) && Truthy(jdText) && !EmailLike(email)
    ensures r == Rejected(InvalidTitle) <==> Truthy(title) && Truthy(jdText) && EmailLike(email) && !NonBlankString(title)
    ensures r == Rejected(TextTooShort) <==>
              EmailLike(email) && NonBlankString(title) && Truthy(jdText) && jdText.Str? && !LongEnough(jdText)
  {
    if !Truthy(email) || !Truthy(title) || !Truthy(jdText) then Rejected(MissingFields)
    else if !email.Str? || !Includes(email.s, "@") then Rejected(InvalidEmail)
    else if !title.Str? || |Trim(title.s)| == 0 then Rejected(InvalidTitle)
    else if !jdText.Str? then Threw(TrimNotAFunction)
    else if |Trim(jdText.s)| < MinTextLength then Rejected(TextTooShort)
    else Passed(JdUpload(email.s, title.s, jdText.s))
  }

  function ValidateBody(body: JsValue): Checked
    requires Destructurable(body)
  {
    Validate(Field(body, "email"), Field(body, "title"), Field(body, "jdText"))
  }

  /** The `data` of a created job description. */
  datatype Created<D> = Created(jdId: string, parsedData: D)

  /**
   * `POST`: a failed check answers 400, a throw anywhere (parsing, the
   * non-string `jdText`, the service) answers 500 with its message or the
   * fallback, and success answers 201 with the new id and the parsed data.
   * `upload` stands for `getOrCreateUser` followed by `uploadJobDescription`.
   */
  function Post<D>(body: Result<JsValue>, upload: JdUpload -> Result<Created<D>>): (r: Response<Created<D>>)
    ensures r.status in {201, 400, 500}
    ensures r.success <==> r.status == 201
    ensures r.status == 400 <==> body.Ok? && Destructurable(body.value) && ValidateBody(body.value).Rejected?
    ensures r.status == 400 ==> r.error == Some(ValidateBody(body.value).message)
    ensures body.Ok? && Destructurable(body.value) && ValidateBody(body.value).Threw? ==>
              r == Failure(500, TrimNotAFunction)
    ensures r.success <==> && body.Ok? && Destructurable(body.value) && ValidateBody(body.value).Passed?
                           && upload(ValidateBody(body.value).upload).Ok?
    ensures r.success ==> r.data == Some(upload(ValidateBody(body.value).upload).value)
    ensures !r.success ==> r.error.Some? && r.error.value != "" && r.data.None?
    ensures body.Err? ==> r == Failure(500, ThrownMessage(body.message, DefaultFailure))
    ensures body.Ok? && !Destructurable(body.value) ==> r == Failure(500, DestructureError(body.value, "email"))
    ensures body.Ok? && Destructurable(body.value) && ValidateBody(body.value).Passed?
            && upload(ValidateBody(body.value).upload).Err? ==>
              r == Failure(500, ThrownMessage(upload(ValidateBody(body.value).upload).message, DefaultFailure))
  {
    match body
    case Err(m) => Failure(500, ThrownMessage(m, DefaultFailure))
    case Ok(v) =>
      if !Destructurable(v) then Failure(500, DestructureError(v, "email"))
      else
        match ValidateBody(v)
        case Rejected(m) => Failure(400, m)
        case Threw(m) => Failure(500, ThrownMessage(m, DefaultFailure))
        case Passed(request) =>
          match upload(request)
          case Ok(created) => Success(201, created)
          case Err(m) => Failure(500, ThrownMessage(m, DefaultFailure))
  }

  /** A well-formed request with a numeric description crashes into the 500 branch instead of being rejected. */
  lemma NumericTextCrashes(email: string, title: string, n: real)
    requires Includes(email, "@") && !IsBlank(title) && n != 0.0
    ensures Validate(Str(email), Str(title), Number(n)) == Threw(TrimNotAFunction)
  {
    TrimEmptyIffBlank(title);
  }

  /** A description that is not long enough after trimming is rejected, however long it is before. */
  lemma PaddedShortTextRejected(email: string, title: string, text: string)
    requires Includes(email, "@") && !IsBlank(title) && text != "" && |Trim(text)| < MinTextLength
    ensures Validate(Str(email), Str(title), Str(text)) == Rejected(TextTooShort)
  {
    TrimEmptyIffBlank(title);
  }
}
