/** The form that creates or edits an AI prompt: its fields, its per-field errors, validation on
    submit, and clearing a field's error as the user types. */
module PromptForm {
  import opened Wrappers
  import opened Strings
  import opened PromptsApi

  /** What the form submits. */
  datatype CreatePromptData = CreatePromptData(name: string, gpt_model: string, prompt_message: string)

  /** The initial data a caller may pass; every member is optional. */
  datatype InitialData = InitialData(name: Option<string>, gpt_model: Option<string>, prompt_message: Option<string>)

  datatype Field = Name | GptModel | PromptMessage

  /** The error shown under each field, if any. */
  datatype FormErrors = FormErrors(name: Option<string>, gpt_model: Option<string>, prompt_message: Option<string>)

  const NoErrors := FormErrors(None, None, None)

  /** The errors `validateForm` finds: a blank name, a blank model, an empty message. */
  function ErrorsFor(data: CreatePromptData): (e: FormErrors)
    ensures e.name.Some? <==> IsBlank(data.name)
    ensures e.gpt_model.Some? <==> IsBlank(data.gpt_model)
    ensures e.prompt_message.Some? <==> data.prompt_message == ""
    ensures e.name.Some? ==> e.name == Some("Name is required")
    ensures e.gpt_model.Some? ==> e.gpt_model == Some("GPT Model is required")
    ensures e.prompt_message.Some? ==> e.prompt_message == Some("Prompt message is required")
  {
    FormErrors(
      if IsBlank(data.name) then Some("Name is required") else None,
      if IsBlank(data.gpt_model) then Some("GPT Model is required") else None,
      if data.prompt_message == "" then Some("Prompt message is required") else None)
  }

  /** The request body the submitted data becomes. */
  function AsBody(data: CreatePromptData): PromptBody {
    PromptBody(Some(data.name), Some(data.gpt_model), Some(data.prompt_message))
  }

  /** The endpoint accepts exactly what the form accepts with the one model it allows: the form
      checks presence, the endpoint also the model. */
  lemma FormAgreesWithEndpoint(data: CreatePromptData)
    ensures ValidationError(AsBody(data)).None? <==> ErrorsFor(data) == NoErrors && data.gpt_model == "gpt-4.1"
  {
    ValidationIff(AsBody(data));
    if data.gpt_model == "gpt-4.1" {
      assert !IsBlank(data.gpt_model) by {
        assert !IsWhitespace(data.gpt_model[0]);
      }
    }
  }

  function Set(errors: FormErrors, field: Field, value: Option<string>): FormErrors {
    match field
    case Name => errors.(name := value)
    case GptModel => errors.(gpt_model := value)
    case PromptMessage => errors.(prompt_message := value)
  }

  function Get(errors: FormErrors, field: Field): Option<string> {
    match field
    case Name => errors.name
    case GptModel => errors.gpt_model
    case PromptMessage => errors.prompt_message
  }

  class PromptFormState {
    var formData: CreatePromptData
    var errors: FormErrors

    /** The form starts from the initial data, missing members as empty strings, and without
        errors. */
    constructor(initialData: InitialData)
      ensures formData == CreatePromptData(OrEmpty(initialData.name), OrEmpty(initialData.gpt_model),
                                           OrEmpty(initialData.prompt_message))
      ensures errors == NoErrors
    {
      formData := CreatePromptData(OrEmpty(initialData.name), OrEmpty(initialData.gpt_model),
                                   OrEmpty(initialData.prompt_message));
      errors := NoErrors;
    }

    /** `validateForm`: replaces the errors by those of the current data, and reports whether
        there are none. */
    method ValidateForm() returns (valid: bool)
      modifies this
      ensures formData == old(formData)
      ensures errors == ErrorsFor(formData)
      ensures valid <==> !IsBlank(formData.name) && !IsBlank(formData.gpt_model) && formData.prompt_message != ""
    {
      var newErrors := NoErrors;
      if IsBlank(formData.name) {
        newErrors := newErrors.(name := Some("Name is required"));
      }
      if IsBlank(formData.gpt_model) {
        newErrors := newErrors.(gpt_model := Some("GPT Model is required"));
      }
      if formData.prompt_message == "" {
        newErrors := newErrors.(prompt_message := Some("Prompt message is required"));
      }
      errors := newErrors;
      valid := newErrors == NoErrors;
    }

    /** `handleSubmit`: the data handed to `onSubmit`, which is called only for a valid form. */
    method HandleSubmit() returns (submitted: Option<CreatePromptData>)
      modifies this
      ensures formData == old(formData)
      ensures errors == ErrorsFor(formData)
      ensures submitted.Some? <==> errors == NoErrors
      ensures submitted.Some? ==> submitted.value == formData
    {
      var valid := ValidateForm();
      if !valid {
        return None;
      }
      return Some(formData);
    }

    /** `handleInputChange`: stores the value, and clears that field's error if it showed one;
        the other fields and errors stay. */
    method HandleInputChange(field: Field, value: string)
      modifies this
      ensures field == Name ==> formData == old(formData).(name := value)
      ensures field == GptModel ==> formData == old(formData).(gpt_model := value)
      ensures field == PromptMessage ==> formData == old(formData).(prompt_message := value)
      ensures Get(errors, field) == (if Truthy(Get(old(errors), field)) then None else Get(old(errors), field))
      ensures forall f :: f != field ==> Get(errors, f) == Get(old(errors), f)
    {
      match field {
        case Name => formData := formData.(name := value);
        case GptModel => formData := formData.(gpt_model := value);
        case PromptMessage => formData := formData.(prompt_message := value);
      }
      if Truthy(Get(errors, field)) {
        errors := Set(errors, field, None);
      }
    }
  }

  /** Every message validation shows is non-empty, so typing into a field always clears the
      error validation put there. */
  lemma ShownErrorsAreCleared(data: CreatePromptData, field: Field)
    requires Get(ErrorsFor(data), field).Some?
    ensures Truthy(Get(ErrorsFor(data), field))
    ensures Get(Set(ErrorsFor(data), field, None), field).None?
  {
  }
}
