/** Creating an AI prompt through the prompts endpoint: three validation stages, then the
    stored record. */
module PromptsApi {
  import opened Wrappers
  import opened Strings

  /** A stored prompt. */
  datatype Prompt = Prompt(
    id: string,
    name: string,
    gpt_model: string,
    prompt_message: string,
    created_date: string,
    updated_date: string)

  /** The JSON body; `None` is an absent or `null` member. */
  datatype PromptBody = PromptBody(name: Option<string>, gpt_model: Option<string>, prompt_message: Option<string>)

  /** The row handed to the insert. */
  datatype PromptInsert = PromptInsert(
    name: string,
    gpt_model: string,
    prompt_message: string,
    created_date: string,
    updated_date: string)

  const ValidModels: seq<string> := ["gpt-4.1"]

  const MissingFields := "All fields are required: name, gpt_model, prompt_message"
  const EmptyFields := "Name and GPT model cannot be empty, and prompt message is required"
  const InvalidModel := "Invalid GPT model. Allowed values: gpt-4.1"

  /** The error of the first failing validation stage: presence, then emptiness, then model. */
  function ValidationError(body: PromptBody): (e: Option<string>)
  {
    if !Truthy(body.name) || !Truthy(body.gpt_model) || body.prompt_message.None? then Some(MissingFields)
    else if IsBlank(body.name.value) || body.prompt_message.value == "" then Some(EmptyFields)
    else if body.gpt_model.value !in ValidModels then Some(InvalidModel)
    else None
  }

  /** A body passes exactly when it has a non-blank name, the model `gpt-4.1` and a non-empty
      message; whitespace in the message is fine. */
  lemma ValidationIff(body: PromptBody)
    ensures ValidationError(body).None? <==>
      body.name.Some? && !IsBlank(body.name.value) && body.gpt_model == Some("gpt-4.1") &&
      body.prompt_message.Some? && body.prompt_message.value != ""
  {
  }

  /** The stages run in order and the first failure decides the message. */
  lemma ValidationOrder(body: PromptBody)
    ensures (!Truthy(body.name) || !Truthy(body.gpt_model) || body.prompt_message.None?) ==>
      ValidationError(body) == Some(MissingFields)
    ensures (Truthy(body.name) && Truthy(body.gpt_model) && body.prompt_message.Some? &&
             (IsBlank(body.name.value) || body.prompt_message.value == "")) ==>
      ValidationError(body) == Some(EmptyFields)
    ensures (Truthy(body.name) && Truthy(body.gpt_model) && body.prompt_message.Some? &&
             !IsBlank(body.name.value) && body.prompt_message.value != "" && body.gpt_model.value != "gpt-4.1") ==>
      ValidationError(body) == Some(InvalidModel)
  {
  }

  /** The record stored for a valid body: the name trimmed, the message verbatim. */
  function PromptData(body: PromptBody, now: string): (row: PromptInsert)
    requires ValidationError(body).None?
    ensures row.name == Trim(body.name.value) && row.name != ""
    ensures row.gpt_model == "gpt-4.1"
    ensures row.prompt_message == body.prompt_message.value
    ensures row.created_date == now && row.updated_date == now
  {
    ValidationIff(body);
    PromptInsert(Trim(body.name.value), body.gpt_model.value, body.prompt_message.value, now, now)
  }

  /** What the insert returned. */
  datatype InsertOutcome = Inserted(prompt: Prompt) | InsertError(message: string, code: string)

  datatype PromptResponse =
    | BadRequest(error: string)
    | CreateFailed(details: string, code: string)
    | Created(data: Prompt)
    | InternalError   // the body could not be read as JSON

  function Status(r: PromptResponse): int {
    match r
    case BadRequest(_) => 400
    case CreateFailed(_, _) => 500
    case Created(_) => 200
    case InternalError => 500
  }

  /** `POST`: the body (`None` when it is not JSON), validation, then the insert, whose outcome
      is `insert`. The second result is the row handed to the insert, if the insert was
      reached. */
  function CreatePrompt(request: Option<PromptBody>, now: string, insert: InsertOutcome): (r: (PromptResponse, Option<PromptInsert>))
    ensures request.None? <==> r.0 == InternalError
    ensures request.Some? ==>
      (ValidationError(request.value).Some? <==> r.0.BadRequest?) &&
      (ValidationError(request.value).Some? ==> r.0 == BadRequest(ValidationError(request.value).value) && r.1.None?) &&
      (ValidationError(request.value).None? ==> r.1 == Some(PromptData(request.value, now)))
    ensures r.0.Created? <==> request.Some? && ValidationError(request.value).None? && insert.Inserted?
    ensures r.1.Some? ==> r.0.Created? || r.0.CreateFailed?
  {
    match request
    case None => (InternalError, None)
    case Some(body) =>
      match ValidationError(body)
      case Some(e) => (BadRequest(e), None)
      case None =>
        var row := PromptData(body, now);
        match insert
        case InsertError(message, code) => (CreateFailed(message, code), Some(row))
        case Inserted(prompt) => (Created(prompt), Some(row))
  }

  /** Only a body naming `gpt-4.1`, with a non-blank name and a message, ever reaches the
      database, and the client error status is given exactly for a failed validation. */
  lemma OnlyValidStored(request: Option<PromptBody>, now: string, insert: InsertOutcome)
    ensures var (response, row) := CreatePrompt(request, now, insert);
      (row.Some? ==> request.Some? && request.value.gpt_model == Some("gpt-4.1") &&
                     row.value.name != "" && row.value.prompt_message != "") &&
      (Status(response) == 400 <==> request.Some? && ValidationError(request.value).Some?)
  {
    if request.Some? {
      ValidationIff(request.value);
    }
  }
}
