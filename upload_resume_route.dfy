/** `POST /api/upload-resume`: ordered checks on the body, then the resume is stored and parsed. */
module UploadResumeRoute {
  import opened Basics
  import opened Text
  import opened JsonRequest

  const MissingFields: string := "Missing required fields: email, fileName, resumeText"
  const InvalidEmail: string := "Invalid email address"
  const InvalidFileName: string := "Invalid file name"
  const TextTooShort: string := "Resume text is too short (minimum 50 characters)"
  const DefaultFailure: string := "Failed to upload resume"

  /** The shortest trimmed resume accepted. */
  const MinTextLength: int := 50

  /** The arguments `getOrCreateUser` and `uploadResume` receive; `name` is passed through unchecked. */
  datatype ResumeUpload = ResumeUpload(email: string, name: JsValue, fileName: string, resumeText: string)

  /** The four checks in order, the first failure winning. */
  function Validate(email: JsValue, name: JsValue, fileName: JsValue, resumeText: JsValue): (r: Result<ResumeUpload>)
    ensures r.Ok? <==> && EmailLike(email) && NonBlankString(fileName)
                       && resumeText.Str? && |Trim(resumeText.s)| >= MinTextLength
    ensures r.Ok? ==> r.value == ResumeUpload(email.s, name, fileName.s, resumeText.s)
    ensures r.Err? ==> r.message in {MissingFields, InvalidEmail, InvalidFileName, TextTooShort}
    ensures r == Err(MissingFields) <==> !Truthy(email) || !Truthy(fileName) || !Truthy(resumeText)
    ensures r == Err(InvalidEmail) <==>
              Truthy(email) && Truthy(fileName) && Truthy(resumeText) && !EmailLike(email)
    ensures r == Err(InvalidFileName) <==>
              Truthy(fileName) && Truthy(resumeText) && EmailLike(email) && !NonBlankString(fileName)
    ensures r == Err(TextTooShort) <==>
              EmailLike(email) && NonBlankString(fileName) && Truthy(resumeText)
              && !(resumeText.Str? && |Trim(resumeText.s)| >= MinTextLength)
  {
    if !Truthy(email) || !Truthy(fileName) || !Truthy(resumeText) then Err(MissingFields)
    else if !email.Str? || !Includes(email.s, "@") then Err(InvalidEmail)
    else if !fileName.Str? || |Trim(fileName.s)| == 0 then Err(InvalidFileName)
    else if !resumeText.Str? || |Trim(resumeText.s)| < MinTextLength then Err(TextTooShort)
    else Ok(ResumeUpload(email.s, name, fileName.s, resumeText.s))
  }

  function ValidateBody(body: JsValue): Result<ResumeUpload>
    requires Destructurable(body)
  {
    Validate(Field(body, "email"), Field(body, "name"), Field(body, "fileName"), Field(body, "resumeText"))
  }

  /** The `data` of a created resume. */
  datatype Created<D> = Created(resumeId: string, parsedData: D)

  /**
   * `POST`: a failed check answers 400, a throw answers 500 with its message or
   * the fallback, success answers 201. `upload` stands for `getOrCreateUser`
   * followed by `uploadResume`.
   */
  function Post<D>(body: Result<JsValue>, upload: ResumeUpload -> Result<Created<D>>): (r: Response<Created<D>>)
    ensures r.status in {201, 400, 500}
    ensures r.success <==> r.status == 201
    ensures r.status == 400 <==> body.Ok? && Destructurable(body.value) && ValidateBody(body.value).Err?
    ensures r.status == 400 ==> r.error == Some(ValidateBody(body.value).message)
    ensures r.success <==> && body.Ok? && Destructurable(body.value) && ValidateBody(body.value).Ok?
                           && upload(ValidateBody(body.value).value).Ok?
    ensures r.success ==> r.data == Some(upload(ValidateBody(body.value).value).value)
    ensures !r.success ==> r.error.Some? && r.error.value != "" && r.data.None?
    ensures body.Err? ==> r == Failure(500, ThrownMessage(body.message, DefaultFailure))
    ensures body.Ok? && !Destructurable(body.value) ==> r == Failure(500, DestructureError(body.value, "email"))
    ensures body.Ok? && Destructurable(body.value) && ValidateBody(body.value).Ok?
            && upload(ValidateBody(body.value).value).Err? ==>
              r == Failure(500, ThrownMessage(upload(ValidateBody(body.value).value).message, DefaultFailure))
  {
    match body
    case Err(m) => Failure(500, ThrownMessage(m, DefaultFailure))
    case Ok(v) =>
      if !Destructurable(v) then Failure(500, DestructureError(v, "email"))
      else
        var checked := ValidateBody(v);
        if checked.Err? then Failure(400, checked.message)
        else
          match upload(checked.value)
          case Ok(created) => Success(201, created)
          case Err(m) => Failure(500, ThrownMessage(m, DefaultFailure))
  }

  /** Unlike the job-description route, a truthy non-string text is rejected with 400, not a crash. */
  lemma NonStringTextRejected(email: string, fileName: string, name: JsValue, resumeText: JsValue)
    requires Includes(email, "@") && !IsBlank(fileName)
    requires Truthy(resumeText) && !resumeText.Str?
    ensures Validate(Str(email), name, Str(fileName), resumeText) == Err(TextTooShort)
  {
    TrimEmptyIffBlank(fileName);
  }
}
