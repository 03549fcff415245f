/** `POST /api/interview/submit-answer`: ordered checks on the body, then the answer is handed to the service. */
module SubmitAnswerRoute {
  import opened Basics
  import opened Text
  import opened JsonRequest

  const MissingFields: string := "Missing required fields: questionId, responseText, timeTaken"
  const InvalidQuestionId: string := "Invalid question ID"
  const ResponseNotString: string := "Response text must be a string"
  const InvalidTimeTaken: string := "Time taken must be a positive number"
  const EmptyResponse: string := "Response text cannot be empty"
  const DefaultFailure: string := "Failed to submit answer"

  /** The arguments `submitAnswer` is called with once the checks pass. */
  datatype Submission = Submission(questionId: string, responseText: string, timeTaken: real)

  /**
   * The five checks in order, the first failure winning. The question id is
   * passed on as given, the response text trimmed.
   */
  function Validate(questionId: JsValue, responseText: JsValue, timeTaken: JsValue): (r: Result<Submission>)
    ensures r.Ok? <==> && NonBlankString(questionId) && responseText.Str? && !IsBlank(responseText.s)
                       && timeTaken.Number? && timeTaken.n >= 0.0
    ensures r.Ok? ==> r.value == Submission(questionId.s, Trim(responseText.s), timeTaken.n)
    ensures r.Err? ==> r.message in {MissingFields, InvalidQuestionId, ResponseNotString, InvalidTimeTaken, EmptyResponse}
    ensures r == Err(MissingFields) <==> !Truthy(questionId) || responseText.Undefined? || timeTaken.Undefined?
    ensures r == Err(InvalidQuestionId) <==>
              Truthy(questionId) && !responseText.Undefined? && !timeTaken.Undefined? && !NonBlankString(questionId)
    ensures r == Err(ResponseNotString) <==>
              NonBlankString(questionId) && !responseText.Undefined? && !timeTaken.Undefined? && !responseText.Str?
    ensures r == Err(InvalidTimeTaken) <==>
              NonBlankString(questionId) && responseText.Str? && !timeTaken.Undefined?
              && !(timeTaken.Number? && timeTaken.n >= 0.0)
    ensures r == Err(EmptyResponse) <==>
              NonBlankString(questionId) && responseText.Str? && timeTaken.Number? && timeTaken.n >= 0.0
              && IsBlank(responseText.s)
  {
    assert responseText.Str? ==> (|Trim(responseText.s)| == 0 <==> IsBlank(responseText.s)) by {
      if responseText.Str? {
        TrimEmptyIffBlank(responseText.s);
      }
    }
    if !Truthy(questionId) || responseText.Undefined? || timeTaken.Undefined? then Err(MissingFields)
    else if !questionId.Str? || |Trim(questionId.s)| == 0 then Err(InvalidQuestionId)
    else if !responseText.Str? then Err(ResponseNotString)
    else if !timeTaken.Number? || timeTaken.n < 0.0 then Err(InvalidTimeTaken)
    else if |Trim(responseText.s)| == 0 then Err(EmptyResponse)
    else Ok(Submission(questionId.s, Trim(responseText.s), timeTaken.n))
  }

  /** The checks applied to the destructured body. */
  function ValidateBody(body: JsValue): Result<Submission>
    requires Destructurable(body)
  {
    Validate(Field(body, "questionId"), Field(body, "responseText"), Field(body, "timeTaken"))
  }

  /**
   * `POST`: a body that does not parse or cannot be destructured, and an error
   * from the service, answer 500 with the thrown message; a failed check
   * answers 400 with its message; otherwise 200 with the evaluation.
   */
  function Post<D>(body: Result<JsValue>, submitAnswer: Submission -> Result<D>): (r: Response<D>)
    ensures r.status in {200, 400, 500}
    ensures r.success <==> r.status == 200
    ensures r.status == 400 <==> body.Ok? && Destructurable(body.value) && ValidateBody(body.value).Err?
    ensures r.status == 400 ==> r.error == Some(ValidateBody(body.value).message)
    ensures r.success <==> && body.Ok? && Destructurable(body.value) && ValidateBody(body.value).Ok?
                           && submitAnswer(ValidateBody(body.value).value).Ok?
    ensures r.success ==> r.data == Some(submitAnswer(ValidateBody(body.value).value).value)
    ensures !r.success ==> r.error.Some? && r.error.value != "" && r.data.None?
    ensures body.Err? ==> r == Failure(500, ThrownMessage(body.message, DefaultFailure))
    ensures body.Ok? && !Destructurable(body.value) ==> r == Failure(500, DestructureError(body.value, "questionId"))
    ensures body.Ok? && Destructurable(body.value) && ValidateBody(body.value).Ok?
            && submitAnswer(ValidateBody(body.value).value).Err? ==>
              r == Failure(500, ThrownMessage(submitAnswer(ValidateBody(body.value).value).message, DefaultFailure))
  {
    match body
    case Err(m) => Failure(500, ThrownMessage(m, DefaultFailure))
    case Ok(v) =>
      if !Destructurable(v) then Failure(500, DestructureError(v, "questionId"))
      else
        var checked := ValidateBody(v);
        if checked.Err? then Failure(400, checked.message)
        else
          match submitAnswer(checked.value)
          case Ok(evaluation) => Success(200, evaluation)
          case Err(m) => Failure(500, ThrownMessage(m, DefaultFailure))
  }

  /** An empty-string id is falsy, so it fails as a missing field, not as an invalid id. */
  lemma EmptyIdIsMissing(responseText: JsValue, timeTaken: JsValue)
    ensures Validate(Str(""), responseText, timeTaken) == Err(MissingFields)
  {
  }

  /** A whitespace-only id is truthy but blank. */
  lemma BlankIdIsInvalid(id: string, responseText: JsValue, timeTaken: JsValue)
    requires id != "" && IsBlank(id)
    requires !responseText.Undefined? && !timeTaken.Undefined?
    ensures Validate(Str(id), responseText, timeTaken) == Err(InvalidQuestionId)
  {
    TrimEmptyIffBlank(id);
  }

  /** `null` is not `undefined`: a null response text passes the presence check and fails the type check. */
  lemma NullResponseIsNotString(id: string, timeTaken: JsValue)
    requires !IsBlank(id) && !timeTaken.Undefined?
    ensures Validate(Str(id), Null, timeTaken) == Err(ResponseNotString)
  {
    TrimEmptyIffBlank(id);
  }

  /** Zero seconds is accepted, whatever the word "positive" in the message says. */
  lemma ZeroTimeAccepted(id: string, text: string)
    requires !IsBlank(id) && !IsBlank(text)
    ensures Validate(Str(id), Str(text), Number(0.0)) == Ok(Submission(id, Trim(text), 0.0))
  {
    TrimEmptyIffBlank(id);
  }

  /** The time is checked before the text is: a blank answer with a bad time fails on the time. */
  lemma TimeCheckedBeforeBlankText(id: string, text: string, timeTaken: JsValue)
    requires !IsBlank(id) && IsBlank(text)
    requires !timeTaken.Undefined?
    ensures timeTaken.Number? && timeTaken.n >= 0.0 ==> Validate(Str(id), Str(text), timeTaken) == Err(EmptyResponse)
    ensures !(timeTaken.Number? && timeTaken.n >= 0.0) ==> Validate(Str(id), Str(text), timeTaken) == Err(InvalidTimeTaken)
  {
    TrimEmptyIffBlank(id);
    TrimEmptyIffBlank(text);
  }
}
