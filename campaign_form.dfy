/** The three-step "create campaign" wizard: campaign details, then contacts, then a review
    screen that submits the campaign and its contacts. */
module CampaignForm {
  import opened Wrappers
  import opened Strings
  import opened Seqs
  import opened ContactParsing

  datatype Step = Details | Contacts | Review

  /** The details entered on the first step. */
  datatype CampaignData = CampaignData(
    name: string,
    description: string,
    template_name: string,
    template_language: string,
    scheduled_at: string)

  /** The first failing check of the details step, or `None` when the step may be left. */
  function DetailsError(d: CampaignData): (e: Option<string>)
  {
    if IsBlank(d.name) then Some("Campaign name is required")
    else if IsBlank(d.template_name) then Some("WhatsApp template is required")
    else None
  }

  /** The details step passes exactly when both the name and the template are non-blank, and
      a blank name is reported before a blank template. */
  lemma DetailsErrorIff(d: CampaignData)
    ensures DetailsError(d).None? <==> !IsBlank(d.name) && !IsBlank(d.template_name)
    ensures IsBlank(d.name) ==> DetailsError(d) == Some("Campaign name is required")
    ensures !IsBlank(d.name) && IsBlank(d.template_name) ==>
      DetailsError(d) == Some("WhatsApp template is required")
  {
  }

  /** The step a successful "next" leads to; the review step submits instead of moving on. */
  function Following(s: Step): (r: Option<Step>)
    ensures r.None? <==> s == Review
  {
    match s
    case Details => Some(Contacts)
    case Contacts => Some(Review)
    case Review => None
  }

  /** The step "back" leads to; from the details step it leaves the page instead. */
  function Preceding(s: Step): (r: Option<Step>)
    ensures r.None? <==> s == Details
  {
    match s
    case Details => None
    case Contacts => Some(Details)
    case Review => Some(Contacts)
  }

  /** "Back" undoes "next" and "next" undoes "back". */
  lemma StepsInverse(s: Step)
    ensures Following(s).Some? ==> Preceding(Following(s).value) == Some(s)
    ensures Preceding(s).Some? ==> Following(Preceding(s).value) == Some(s)
  {
  }

  /** The contacts without the one at `index`; any other index leaves them as they are. */
  function RemoveAt<T>(s: seq<T>, index: int): (r: seq<T>)
    ensures 0 <= index < |s| ==> r == s[..index] + s[index + 1..]
    ensures !(0 <= index < |s|) ==> r == s
    decreases |s|
  {
    if |s| == 0 then []
    else RemoveAt(s[..|s| - 1], index) + (if index == |s| - 1 then [] else [s[|s| - 1]])
  }

  /** Removing a contact shortens the list by one and keeps every other contact, in order. */
  lemma RemoveAtKeepsOthers<T>(s: seq<T>, index: nat)
    requires index < |s|
    ensures |RemoveAt(s, index)| == |s| - 1
    ensures forall k :: 0 <= k < index ==> RemoveAt(s, index)[k] == s[k]
    ensures forall k :: index <= k < |s| - 1 ==> RemoveAt(s, index)[k] == s[k + 1]
  {
  }

  predicate HasName(c: ImportContact) {
    Truthy(c.name)
  }

  predicate PhoneOnly(c: ImportContact) {
    !Truthy(c.name)
  }

  /** The review screen's "With Names" and "Phone Only" counts add up to "Total Contacts". */
  lemma ReviewCountsAddUp(contacts: seq<ImportContact>)
    ensures |Filter(contacts, HasName)| + |Filter(contacts, PhoneOnly)| == |contacts|
  {
    FilterComplementLength(contacts, HasName, PhoneOnly);
  }

  /** One contact of the creation request. */
  datatype RequestContact = RequestContact(name: Option<string>, phone_number: string, lead_id: string)

  /** The body posted to the campaign-creation endpoint. */
  datatype CampaignRequest = CampaignRequest(
    name: string,
    template_name: string,
    template_id: string,
    contacts: seq<RequestContact>)

  /** The request of the review step. `leadId(i)` stands for the generated lead id of the
      i-th contact. */
  function BuildRequest(d: CampaignData, templateId: string, contacts: seq<ImportContact>,
                        leadId: nat -> string): (r: CampaignRequest)
    ensures |r.contacts| == |contacts|
    ensures forall i :: 0 <= i < |contacts| ==>
      r.contacts[i].name == contacts[i].name && r.contacts[i].phone_number == contacts[i].phone_number
  {
    CampaignRequest(d.name, d.template_name, if templateId != "" then templateId else d.template_name,
      seq(|contacts|, i requires 0 <= i < |contacts| =>
        RequestContact(contacts[i].name, contacts[i].phone_number, leadId(i))))
  }

  /** The template id sent is the chosen id when there is one, the template name otherwise;
      so it is never empty while a template is chosen. */
  lemma RequestTemplateId(d: CampaignData, templateId: string, contacts: seq<ImportContact>,
                          leadId: nat -> string)
    ensures templateId == "" ==> BuildRequest(d, templateId, contacts, leadId).template_id == d.template_name
    ensures templateId != "" ==> BuildRequest(d, templateId, contacts, leadId).template_id == templateId
    ensures !IsBlank(d.template_name) ==> BuildRequest(d, templateId, contacts, leadId).template_id != ""
  {
  }

  /** What the creation endpoint answered: a JSON body with its HTTP status, or an exception
      (network failure or a body that is not JSON). */
  datatype SubmitOutcome =
    | Answered(ok: bool, error: Option<string>, success: bool, campaignId: string,
               webhookError: Option<string>)
    | Threw(message: string)

  /** The message the form shows after submitting. */
  datatype Feedback = Failed(message: string) | Succeeded(message: string)

  const FailurePrefix := "Failed to create campaign: "

  function SubmitFeedback(outcome: SubmitOutcome, campaignName: string): (f: Feedback)
  {
    match outcome
    case Threw(m) => Failed(FailurePrefix + m)
    case Answered(ok, error, success, id, webhookError) =>
      if !ok then
        Failed(FailurePrefix + (if Truthy(error) then error.value else "Failed to create campaign"))
      else if success then
        Succeeded("Campaign \"" + campaignName + "\" created successfully! Campaign ID: " + id +
          (if Truthy(webhookError) then "\n\nNote: " + webhookError.value
           else "\n\nMessages have been sent to n8n for processing."))
      else
        Failed(FailurePrefix + "Campaign creation failed")
  }

  /** Only an answer with a 2xx status and `success` set is reported as a success; every
      failure message carries the common prefix and a success message names the campaign. */
  lemma SubmitFeedbackCases(outcome: SubmitOutcome, campaignName: string)
    ensures SubmitFeedback(outcome, campaignName).Succeeded? <==>
      outcome.Answered? && outcome.ok && outcome.success
    ensures SubmitFeedback(outcome, campaignName).Failed? ==>
      FailurePrefix <= SubmitFeedback(outcome, campaignName).message
    ensures SubmitFeedback(outcome, campaignName).Succeeded? ==>
      "Campaign \"" + campaignName + "\"" <= SubmitFeedback(outcome, campaignName).message
  {
  }

  /** `file.type.includes('text')` or a `.csv`/`.txt` name. */
  predicate AcceptedFile(fileType: string, fileName: string) {
    Contains(fileType, "text") || EndsWith(fileName, ".csv") || EndsWith(fileName, ".txt")
  }

  class CreateCampaignForm {
    var campaignData: CampaignData
    var templateId: string
    var contacts: seq<ImportContact>
    var contactsInput: string
    var loading: bool
    var error: Option<string>
    var success: Option<string>
    var step: Step

    /** The template picker never reports an id, so no id is ever chosen. */
    predicate Valid()
      reads this
    {
      templateId == ""
    }

    constructor()
      ensures Valid()
      ensures campaignData == CampaignData("", "", "", "en_US", "")
      ensures contacts == [] && contactsInput == "" && !loading
      ensures error == None && success == None && step == Details
    {
      campaignData := CampaignData("", "", "", "en_US", "");
      templateId := "";
      contacts := [];
      contactsInput := "";
      loading := false;
      error := None;
      success := None;
      step := Details;
    }

    /** The template picker's callback: name and language only, the id falls back to `''`. */
    method OnTemplateChange(templateName: string, templateLanguage: string)
      modifies this
      ensures Valid()
      ensures campaignData == old(campaignData).(template_name := templateName,
                                                 template_language := templateLanguage)
      ensures contacts == old(contacts) && contactsInput == old(contactsInput)
      ensures loading == old(loading) && error == old(error) && success == old(success)
      ensures step == old(step)
    {
      campaignData := campaignData.(template_name := templateName, template_language := templateLanguage);
      templateId := "";
    }

    /** "Import Contacts": parse the pasted text into the contact list and clear the text box. */
    method HandleContactsImport()
      modifies this
      ensures contacts == ParseLines(SplitOn(Trim(old(contactsInput)), '\n'))
      ensures contactsInput == ""
      ensures campaignData == old(campaignData) && templateId == old(templateId)
      ensures loading == old(loading) && error == old(error) && success == old(success)
      ensures step == old(step)
    {
      var parsed := ParseContactsFromText(contactsInput);
      contacts := parsed;
      contactsInput := "";
    }

    /** An uploaded or dropped file. `text` is what the reader delivers, `None` when nothing. */
    method ProcessFile(fileType: string, fileName: string, text: Option<string>)
      modifies this
      ensures !AcceptedFile(fileType, fileName) ==>
        error == Some("Please upload a CSV or TXT file") && contacts == old(contacts)
      ensures AcceptedFile(fileType, fileName) && Truthy(text) ==>
        contacts == ParseLines(SplitOn(Trim(text.value), '\n')) && error == Some("")
      ensures AcceptedFile(fileType, fileName) && !Truthy(text) ==>
        contacts == old(contacts) && error == old(error)
      ensures campaignData == old(campaignData) && templateId == old(templateId)
      ensures contactsInput == old(contactsInput) && loading == old(loading)
      ensures success == old(success) && step == old(step)
    {
      if !AcceptedFile(fileType, fileName) {
        error := Some("Please upload a CSV or TXT file");
        return;
      }
      if Truthy(text) {
        var parsed := ParseContactsFromText(text.value);
        contacts := parsed;
        error := Some("");
      }
    }

    /** The remove button of the contact at `index`. */
    method RemoveContact(index: int)
      modifies this
      ensures contacts == RemoveAt(old(contacts), index)
      ensures campaignData == old(campaignData) && templateId == old(templateId)
      ensures contactsInput == old(contactsInput) && loading == old(loading)
      ensures error == old(error) && success == old(success) && step == old(step)
    {
      contacts := RemoveAt(contacts, index);
    }

    /** "Back": returns whether the page is left (only from the details step). */
    method GoBack() returns (leavesPage: bool)
      modifies this
      ensures leavesPage <==> old(step) == Details
      ensures step == Preceding(old(step)).GetOr(old(step))
      ensures campaignData == old(campaignData) && templateId == old(templateId)
      ensures contacts == old(contacts) && contactsInput == old(contactsInput)
      ensures loading == old(loading) && error == old(error) && success == old(success)
    {
      leavesPage := false;
      if step == Contacts {
        step := Details;
      } else if step == Review {
        step := Contacts;
      } else {
        leavesPage := true;
      }
    }

    /** "Next" on the first two steps, "Create" on the review step. On the review step the
        request built is returned and `outcome` is what the endpoint answered. */
    method HandleSubmit(outcome: SubmitOutcome, leadId: nat -> string)
      returns (request: Option<CampaignRequest>)
      modifies this
      ensures old(step) == Details ==>
        request.None? && contacts == old(contacts) &&
        match DetailsError(old(campaignData))
        case Some(message) => step == Details && error == Some(message)
        case None => step == Following(Details).value && error == old(error)
      ensures old(step) == Contacts ==>
        request.None? && step == Following(Contacts).value && error == old(error)
      ensures old(step) == Review ==>
        request == Some(BuildRequest(old(campaignData), old(templateId), old(contacts), leadId)) &&
        step == Review && !loading &&
        match SubmitFeedback(outcome, old(campaignData).name)
        case Failed(message) => error == Some(message) && success == old(success)
        case Succeeded(message) => error == None && success == Some(message)
      ensures old(step) != Review ==> success == old(success) && loading == old(loading)
      ensures campaignData == old(campaignData) && templateId == old(templateId)
      ensures contacts == old(contacts) && contactsInput == old(contactsInput)
    {
      request := None;
      if step == Details {
        if IsBlank(campaignData.name) {
          error := Some("Campaign name is required");
          return;
        }
        if IsBlank(campaignData.template_name) {
          error := Some("WhatsApp template is required");
          return;
        }
        step := Contacts;
        return;
      }
      if step == Contacts {
        step := Review;
        return;
      }
      loading := true;
      error := None;
      request := Some(BuildRequest(campaignData, templateId, contacts, leadId));
      var feedback := SubmitFeedback(outcome, campaignData.name);
      match feedback {
        case Failed(message) =>
          error := Some(message);
        case Succeeded(message) =>
          success := Some(message);
      }
      loading := false;
    }
  }

  /** While the form is in its valid state, the request always carries the template name as
      its template id. */
  lemma ValidFormSendsTemplateName(form: CreateCampaignForm, leadId: nat -> string)
    requires form.Valid()
    ensures BuildRequest(form.campaignData, form.templateId, form.contacts, leadId).template_id ==
      form.campaignData.template_name
  {
    RequestTemplateId(form.campaignData, form.templateId, form.contacts, leadId);
  }
}
