/** `POST /api/interview/start`: ordered checks on the body, then a session is started. */
module StartRoute {
  import opened Basics
  import opened Text
  import opened JsonRequest

  const MissingFields: string := "Missing required fields: email, resumeId, jdId"
  const InvalidEmail: string := "Invalid email address"
  const InvalidResumeId: string := "Invalid resume ID"
  const InvalidJdId: string := "Invalid job description ID"
  const DefaultFailure: string := "Failed to start interview"

  /** The arguments `getOrCreateUser` and `startInterview` receive once the checks pass. */
  datatype StartRequest = StartRequest(email: string, resumeId: string, jdId: string)

  /** The four checks in order, the first failure winning. */
  function Validate(email: JsValue, resumeId: JsValue, jdId: JsValue): (r: Result<StartRequest>)
    ensures r.Ok? <==> EmailLike(email) && NonBlankString(resumeId) && NonBlankString(jdId)
    ensures r.Ok? ==> r.value == StartRequest(email.s, resumeId.s, jdId.s)
    ensures r.Err? ==> r.message in {MissingFields, InvalidEmail, InvalidResumeId, InvalidJdId}
    ensures r == Err(MissingFields) <==> !Truthy(email) || !Truthy(resumeId) || !Truthy(jdId)
    ensures r == Err(InvalidEmail) <==> Truthy(email) && Truthy(resumeId) && Truthy(jdId) && !EmailLike(email)
    ensures r == Err(InvalidResumeId) <==>
              Truthy(resumeId) && Truthy(jdId) && EmailLike(email) && !NonBlankString(resumeId)
    ensures r == Err(InvalidJdId) <==>
              Truthy(jdId) && EmailLike(email) && NonBlankString(resumeId) && !NonBlankString(jdId)
  {
    if !Truthy(email) || !Truthy(resumeId) || !Truthy(jdId) then Err(MissingFields)
    else if !email.Str? || !Includes(email.s, "@") then Err(InvalidEmail)
    else if !resumeId.Str? || |Trim(resumeId.s)| == 0 then Err(InvalidResumeId)
    else if !jdId.Str? || |Trim(jdId.s)| == 0 then Err(InvalidJdId)
    else Ok(StartRequest(email.s, resumeId.s, jdId.s))
  }

  function ValidateBody(body: JsValue): Result<StartRequest>
    requires Destructurable(body)
  {
    Validate(Field(body, "email"), Field(body, "resumeId"), Field(body, "jdId"))
  }

  /**
   * `POST`: a failed check answers 400, a throw answers 500 with its message or
   * the fallback, success answers 201 with what the service reports (session
   * id, status, difficulty). `start` stands for `getOrCreateUser` followed by
   * `startInterview`.
   */
  function Post<D>(body: Result<JsValue>, start: StartRequest -> Result<D>): (r: Response<D>)
    ensures r.status in {201, 400, 500}
    ensures r.success <==> r.status == 201
    ensures r.status == 400 <==> body.Ok? && Destructurable(body.value) && ValidateBody(body.value).Err?
    ensures r.status == 400 ==> r.error == Some(ValidateBody(body.value).message)
    ensures r.success <==> && body.Ok? && Destructurable(body.value) && ValidateBody(body.value).Ok?
                           && start(ValidateBody(body.value).value).Ok?
    ensures r.success ==> r.data == Some(start(ValidateBody(body.value).value).value)
    ensures !r.success ==> r.error.Some? && r.error.value != "" && r.data.None?
    ensures body.Err? ==> r == Failure(500, ThrownMessage(body.message, DefaultFailure))
    ensures body.Ok? && !Destructurable(body.value) ==> r == Failure(500, DestructureError(body.value, "email"))
    ensures body.Ok? && Destructurable(body.value) && ValidateBody(body.value).Ok?
            && start(ValidateBody(body.value).value).Err? ==>
              r == Failure(500, ThrownMessage(start(ValidateBody(body.value).value).message, DefaultFailure))
  {
    match body
    case Err(m) => Failure(500, ThrownMessage(m, DefaultFailure))
    case Ok(v) =>
      if !Destructurable(v) then Failure(500, DestructureError(v, "email"))
      else
        var checked := ValidateBody(v);
        if checked.Err? then Failure(400, checked.message)
        else
          match start(checked.value)
          case Ok(started) => Success(201, started)
          case Err(m) => Failure(500, ThrownMessage(m, DefaultFailure))
  }

  /** A service error with an empty message falls back to the route's own message. */
  lemma EmptyThrownMessageFallsBack<D>(body: JsValue, start: StartRequest -> Result<D>)
    requires Destructurable(body) && ValidateBody(body).Ok?
    requires start(ValidateBody(body).value) == Err("")
    ensures Post(Ok(body), start) == Failure(500, DefaultFailure)
  {
  }

  /** The ids are checked in order: with both blank, the resume id is reported. */
  lemma ResumeIdCheckedFirst(email: string, resumeId: string, jdId: string)
    requires Includes(email, "@") && resumeId != "" && IsBlank(resumeId) && jdId != ""
    ensures Validate(Str(email), Str(resumeId), Str(jdId)) == Err(InvalidResumeId)
  {
    TrimEmptyIffBlank(resumeId);
  }
}
