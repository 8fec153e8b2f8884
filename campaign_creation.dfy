/** Creating a campaign on the server: the campaign row, the submitted contacts normalised and
    reconciled with the contacts already stored, the per-contact template parameters, the
    webhook payload, and the response chosen by the stage at which the pipeline stopped.
    Database results, the template catalogue and the webhook's answer are inputs. */
module CampaignCreation {
  import opened Wrappers
  import opened Strings
  import opened Seqs
  import opened ParameterMapping

  /** A contact as the client submitted it; `None` is an absent or `null` member. Any of three
      members may carry the phone number. */
  datatype SubmittedContact = SubmittedContact(
    name: Option<string>,
    phone_number: Option<string>,
    phone: Option<string>,
    Phone: Option<string>,
    lead_id: Option<string>,
    custom_fields: Option<seq<CustomField>>)

  /** A normalised contact, as handed to the contact insert. */
  datatype ContactRow = ContactRow(
    name: string,
    lead_id: string,
    phone_number: string,
    custom_fields: seq<CustomField>,
    lead_status: string)

  /** A stored contact as the database returns it (existing or just inserted). */
  datatype StoredContact = StoredContact(
    name: Option<string>,
    lead_id: string,
    phone_number: string,
    custom_fields: Option<seq<CustomField>>)

  /** The request body. */
  datatype CampaignBody = CampaignBody(
    name: Option<string>,
    description: Option<string>,
    template_name: Option<string>,
    template_id: Option<string>,
    contacts: Option<seq<SubmittedContact>>,
    scheduled_at: Option<string>,
    prompt_id: Option<string>,
    auto_reply: Option<bool>,
    parameter_mappings: Option<seq<ParameterMapping>>)

  /** The row handed to the campaign insert; an optional member is left out of the object. */
  datatype CampaignRow = CampaignRow(
    name: Option<string>,
    description: Option<string>,
    template_name: Option<string>,
    status: string,
    created_date: string,
    scheduled_at: Option<string>,
    prompt_id: Option<string>,
    auto_reply: bool)

  /** The campaign row: always a draft, `scheduled_at` and `prompt_id` only when given and
      non-empty, and auto-reply off unless asked for. */
  function CampaignRowOf(body: CampaignBody, now: string): (row: CampaignRow)
    ensures row.status == "draft" && row.created_date == now
    ensures row.name == body.name && row.description == body.description && row.template_name == body.template_name
    ensures row.scheduled_at.Some? <==> Truthy(body.scheduled_at)
    ensures row.scheduled_at.Some? ==> row.scheduled_at == body.scheduled_at
    ensures row.prompt_id.Some? <==> Truthy(body.prompt_id)
    ensures row.prompt_id.Some? ==> row.prompt_id == body.prompt_id
    ensures row.auto_reply <==> body.auto_reply == Some(true)
  {
    CampaignRow(body.name, body.description, body.template_name, "draft", now,
                if Truthy(body.scheduled_at) then body.scheduled_at else None,
                if Truthy(body.prompt_id) then body.prompt_id else None,
                body.auto_reply == Some(true))
  }

  /** `phone_number || phone || Phone || ''`. */
  function PhoneOf(c: SubmittedContact): (p: string)
    ensures Truthy(c.phone_number) ==> p == c.phone_number.value
    ensures !Truthy(c.phone_number) && Truthy(c.phone) ==> p == c.phone.value
    ensures !Truthy(c.phone_number) && !Truthy(c.phone) ==> p == OrEmpty(c.Phone)
  {
    if Truthy(c.phone_number) then c.phone_number.value
    else if Truthy(c.phone) then c.phone.value
    else OrEmpty(c.Phone)
  }

  /** One contact normalised; `generated` is the lead id made up when none was submitted. */
  function Normalize(c: SubmittedContact, generated: string): (row: ContactRow)
    ensures row.name == OrEmpty(c.name)
    ensures row.lead_id == if Truthy(c.lead_id) then c.lead_id.value else generated
    ensures row.phone_number == PhoneOf(c)
    ensures row.custom_fields == if c.custom_fields.Some? then c.custom_fields.value else []
    ensures row.lead_status == "new"
  {
    ContactRow(OrEmpty(c.name), if Truthy(c.lead_id) then c.lead_id.value else generated,
               PhoneOf(c), if c.custom_fields.Some? then c.custom_fields.value else [], "new")
  }

  /** Every submitted contact normalised, in order; `generatedLeadId(i)` is the id made up for
      the i-th. */
  function NormalizeAll(contacts: seq<SubmittedContact>, generatedLeadId: nat -> string): (rows: seq<ContactRow>)
    ensures |rows| == |contacts|
    ensures forall i :: 0 <= i < |contacts| ==> rows[i] == Normalize(contacts[i], generatedLeadId(i))
  {
    seq(|contacts|, i requires 0 <= i < |contacts| => Normalize(contacts[i], generatedLeadId(i)))
  }

  /** A submitted lead id survives normalisation; a missing or empty one is replaced. */
  lemma LeadIdKept(contacts: seq<SubmittedContact>, generatedLeadId: nat -> string, i: nat)
    requires i < |contacts|
    ensures Truthy(contacts[i].lead_id) ==> NormalizeAll(contacts, generatedLeadId)[i].lead_id == contacts[i].lead_id.value
    ensures !Truthy(contacts[i].lead_id) ==> NormalizeAll(contacts, generatedLeadId)[i].lead_id == generatedLeadId(i)
  {
  }

  /** The phone numbers looked up among the stored contacts: the non-empty ones, in order. */
  function LookupPhones(rows: seq<ContactRow>): (phones: seq<string>)
    ensures |phones| <= |rows|
    ensures "" !in phones
    ensures forall p :: p in phones <==> p != "" && exists r :: r in rows && r.phone_number == p
    decreases |rows|
  {
    if rows == [] then []
    else
      var rest := LookupPhones(rows[..|rows| - 1]);
      var last := rows[|rows| - 1];
      assert forall r :: r in rows <==> r in rows[..|rows| - 1] || r == last by {
        assert rows == rows[..|rows| - 1] + [last];
      }
      if last.phone_number != "" then rest + [last.phone_number] else rest
  }

  /** The phone numbers of the stored contacts found. */
  function StoredPhones(existing: seq<StoredContact>): (phones: set<string>)
    ensures forall p :: p in phones <==> exists e :: e in existing && e.phone_number == p
  {
    set e | e in existing :: e.phone_number
  }

  /** The contacts to insert: those whose phone number is not already stored, in order. */
  function NewContacts(rows: seq<ContactRow>, existing: seq<StoredContact>): (toInsert: seq<ContactRow>)
    ensures forall r :: r in toInsert <==> r in rows && r.phone_number !in StoredPhones(existing)
  {
    var phones := StoredPhones(existing);
    Filter(rows, (r: ContactRow) => r.phone_number !in phones)
  }

  /** The contacts to insert keep the submitted order and are never more than submitted. */
  lemma NewContactsKeepOrder(rows: seq<ContactRow>, existing: seq<StoredContact>)
    ensures IsSubsequence(NewContacts(rows, existing), rows)
    ensures |NewContacts(rows, existing)| <= |rows|
  {
    var phones := StoredPhones(existing);
    FilterIsSubsequence(rows, (r: ContactRow) => r.phone_number !in phones);
  }

  /** The database only answers rows whose phone was looked up, and no empty phone is looked
      up; so a contact without a phone number is always inserted as new. */
  /** The stored contacts found answer the lookup: each has one of the phone numbers asked for. */
  predicate AnswersLookup(rows: seq<ContactRow>, existing: seq<StoredContact>) {
    forall e :: e in existing ==> e.phone_number in LookupPhones(rows)
  }

  lemma EmptyPhoneAlwaysNew(rows: seq<ContactRow>, existing: seq<StoredContact>, r: ContactRow)
    requires AnswersLookup(rows, existing)
    requires r in rows && r.phone_number == ""
    ensures r in NewContacts(rows, existing)
  {
  }

  /** One value sent for a template parameter. */
  datatype TemplateParam = TemplateParam(paramType: string, parameter_name: string, text: string)

  /** The value of a mapped field for a contact: the two built-in fields come from the contact
      itself, any other from its custom fields; a missing or empty value is `''`. */
  function ResolveValue(contact: StoredContact, field: string): (value: string)
    ensures field == "name" ==> value == OrEmpty(contact.name)
    ensures field == "phone_number" ==> value == contact.phone_number
    ensures field != "name" && field != "phone_number" ==>
      (value != "" <==> contact.custom_fields.Some? && Truthy(Lookup(contact.custom_fields.value, field)))
    ensures field != "name" && field != "phone_number" && value != "" ==>
      CustomField(field, value) in contact.custom_fields.value
  {
    if field == "name" then OrEmpty(contact.name)
    else if field == "phone_number" then contact.phone_number
    else if contact.custom_fields.Some? && Truthy(Lookup(contact.custom_fields.value, field)) then
      Lookup(contact.custom_fields.value, field).value
    else ""
  }

  /** A custom field named like a built-in one never shadows it. */
  lemma BuiltInFieldsWin(contact: StoredContact, value: string)
    requires contact.custom_fields.Some? && CustomField("name", value) in contact.custom_fields.value
    ensures ResolveValue(contact, "name") == OrEmpty(contact.name)
  {
  }

  /** `generateTemplateParams`: one text parameter per mapping, in order. */
  function GenerateTemplateParams(contact: StoredContact, mappings: seq<ParameterMapping>): (params: seq<TemplateParam>)
    ensures |params| == |mappings|
    ensures forall i :: 0 <= i < |mappings| ==>
      params[i] == TemplateParam("text", mappings[i].parameter_name, ResolveValue(contact, mappings[i].mapped_field))
  {
    if |mappings| == 0 then []
    else
      seq(|mappings|, i requires 0 <= i < |mappings| =>
        TemplateParam("text", mappings[i].parameter_name, ResolveValue(contact, mappings[i].mapped_field)))
  }

  /** An entry of the template catalogue. */
  datatype TemplateInfo = TemplateInfo(name: string, parameter_format: Option<string>)

  function IsNamed(name: Option<string>): TemplateInfo -> bool {
    (t: TemplateInfo) => name == Some(t.name)
  }

  /** The template type: the lower-cased parameter format of the first catalogue entry named
      like the campaign's template, or `''` when the catalogue could not be read, has no such
      entry, or the entry has no format. */
  function TemplateType(catalog: Option<seq<TemplateInfo>>, templateName: Option<string>): (t: string)
    ensures catalog.None? ==> t == ""
    ensures catalog.Some? ==>
      match Find(catalog.value, IsNamed(templateName))
      case None => t == ""
      case Some(info) => t == if Truthy(info.parameter_format) then ToLower(info.parameter_format.value) else ""
  {
    if catalog.None? then ""
    else
      match Find(catalog.value, IsNamed(templateName))
      case None => ""
      case Some(info) => if Truthy(info.parameter_format) then ToLower(info.parameter_format.value) else ""
  }

  /** One element of the webhook payload. */
  datatype WebhookItem = WebhookItem(
    name: Option<string>,
    Phone: string,
    campaign_id: string,
    template_name: Option<string>,
    lead_id: string,
    template_id: string,
    template_type: string,
    template_params: seq<TemplateParam>,
    schema_name: Option<string>,
    auth_user_id: string)

  /** What every element of one payload shares. */
  datatype Shared = Shared(
    campaign_id: string,
    template_name: Option<string>,
    template_id: string,
    template_type: string,
    mappings: seq<ParameterMapping>,
    schema_name: Option<string>,
    auth_user_id: string)

  function ItemOf(contact: StoredContact, s: Shared): WebhookItem {
    WebhookItem(contact.name, contact.phone_number, s.campaign_id, s.template_name, contact.lead_id,
                s.template_id, s.template_type, GenerateTemplateParams(contact, s.mappings),
                s.schema_name, s.auth_user_id)
  }

  /** The webhook payload: one element per contact, in order, each carrying its contact's
      identity and parameters and the campaign-wide values. */
  function Payload(contacts: seq<StoredContact>, s: Shared): (items: seq<WebhookItem>)
    ensures |items| == |contacts|
    ensures forall i :: 0 <= i < |contacts| ==>
      items[i].name == contacts[i].name && items[i].Phone == contacts[i].phone_number &&
      items[i].lead_id == contacts[i].lead_id &&
      items[i].template_params == GenerateTemplateParams(contacts[i], s.mappings)
    ensures forall i :: 0 <= i < |items| ==>
      items[i].campaign_id == s.campaign_id && items[i].template_name == s.template_name &&
      items[i].template_id == s.template_id && items[i].template_type == s.template_type &&
      items[i].schema_name == s.schema_name && items[i].auth_user_id == s.auth_user_id
  {
    seq(|contacts|, i requires 0 <= i < |contacts| => ItemOf(contacts[i], s))
  }

  /** The counts reported with the webhook outcome. */
  datatype ContactStats = ContactStats(total: nat, newContacts: nat, existing: nat)

  /** How the webhook call ended. */
  datatype WebhookReply =
    | Accepted(result: string)      // a 2xx answer and its JSON
    | Rejected(errorText: string)   // a non-2xx answer
    | Unreachable(message: string)  // `fetch` threw, or a 2xx answer whose body is not JSON

  /** The database and network results the route meets, in the order it meets them. */
  datatype Outcomes = Outcomes(
    campaignInsert: Result<string>,                      // the new campaign's id, or the error
    existingCheck: Result<Option<seq<StoredContact>>>,   // stored contacts with a looked-up phone
    contactsInsert: Result<Option<seq<StoredContact>>>,  // the rows inserted, if asked to insert
    catalog: Option<seq<TemplateInfo>>,                  // the template catalogue, if it was read
    webhook: WebhookReply)

  /** The configuration and session the route runs with. */
  datatype Context = Context(
    authUserId: Option<string>,   // `None` when no user session could be established
    webhookUrl: Option<string>,
    schemaName: Option<string>)

  datatype CampaignResponse =
    | Unauthenticated                                    // 401
    | CampaignInsertFailed(details: string)              // 500
    | ContactsCheckFailed(campaignId: string, contactsError: string)   // 500, success false
    | ContactsInsertFailed(campaignId: string, contactsError: string)  // 500, success false
    | WebhookNotConfigured(campaignId: string)           // success true, with webhookError
    | WebhookRejected(campaignId: string)                // success true, with webhookError
    | WebhookSent(campaignId: string, webhookResult: string, stats: ContactStats)
    | WebhookFailed(campaignId: string, stats: ContactStats)  // success true, with webhookError
    | Unexpected                                         // 500, the outer `catch`

  function Status(r: CampaignResponse): int {
    match r
    case Unauthenticated => 401
    case CampaignInsertFailed(_) => 500
    case ContactsCheckFailed(_, _) => 500
    case ContactsInsertFailed(_, _) => 500
    case Unexpected => 500
    case _ => 200
  }

  /** The `success` member, where the response has one. */
  function Success(r: CampaignResponse): Option<bool> {
    match r
    case ContactsCheckFailed(_, _) => Some(false)
    case ContactsInsertFailed(_, _) => Some(false)
    case WebhookNotConfigured(_) => Some(true)
    case WebhookRejected(_) => Some(true)
    case WebhookSent(_, _, _) => Some(true)
    case WebhookFailed(_, _) => Some(true)
    case _ => None
  }

  /** The `webhookError` member, where the response has one. */
  function WebhookError(r: CampaignResponse): Option<string> {
    match r
    case WebhookNotConfigured(_) => Some("Webhook URL not configured but campaign was created")
    case WebhookRejected(_) => Some("Webhook request failed but campaign was created")
    case WebhookFailed(_, _) => Some("Failed to send webhook request but campaign was created")
    case _ => None
  }

  /** The stored contacts a valid request ends with: the contacts found already stored, and
      those inserted, which are asked for only when there is something new. */
  function Existing(o: Outcomes): seq<StoredContact>
    requires o.existingCheck.Ok?
  {
    o.existingCheck.value.GetOr([])
  }

  function Inserted(toInsert: seq<ContactRow>, o: Outcomes): seq<StoredContact>
    requires |toInsert| > 0 ==> o.contactsInsert.Ok?
  {
    if |toInsert| > 0 then o.contactsInsert.value.GetOr([]) else []
  }

  /** The campaign is stored and the body has a contact list: the contacts are processed. */
  predicate ContactsReached(ctx: Context, request: Option<CampaignBody>, o: Outcomes) {
    ctx.authUserId.Some? && request.Some? && o.campaignInsert.Ok? && request.value.contacts.Some?
  }

  /** The contacts to insert for a valid request. */
  function ToInsert(body: CampaignBody, generatedLeadId: nat -> string, o: Outcomes): seq<ContactRow>
    requires body.contacts.Some? && o.existingCheck.Ok?
  {
    NewContacts(NormalizeAll(body.contacts.value, generatedLeadId), Existing(o))
  }

  /** Both contact stages succeeded (the insert is only asked for when there is something new). */
  predicate ContactsStored(ctx: Context, request: Option<CampaignBody>, generatedLeadId: nat -> string, o: Outcomes) {
    ContactsReached(ctx, request, o) && o.existingCheck.Ok? &&
    (|ToInsert(request.value, generatedLeadId, o)| > 0 ==> o.contactsInsert.Ok?)
  }

  /** `POST /api/campaigns`. Besides the response it reports what it handed to the campaign
      insert, to the contact insert and to the webhook, each `None` when that stage was not
      reached. */
  method CreateCampaign(ctx: Context, request: Option<CampaignBody>, now: string,
                        generatedLeadId: nat -> string, o: Outcomes)
    returns (response: CampaignResponse, campaignRow: Option<CampaignRow>,
             insertedRows: Option<seq<ContactRow>>, posted: Option<seq<WebhookItem>>)
    // No session: nothing happens.
    ensures ctx.authUserId.None? ==> response == Unauthenticated && campaignRow.None? && posted.None?
    // A body that is not JSON fails before any write.
    ensures ctx.authUserId.Some? && request.None? ==> response == Unexpected && campaignRow.None? && posted.None?
    // Otherwise the campaign row is always written first.
    ensures ctx.authUserId.Some? && request.Some? ==> campaignRow == Some(CampaignRowOf(request.value, now))
    ensures ctx.authUserId.Some? && request.Some? && o.campaignInsert.Err? ==>
      response == CampaignInsertFailed(o.campaignInsert.error) && insertedRows.None? && posted.None?
    // Missing contacts throw after the campaign was stored.
    ensures ctx.authUserId.Some? && request.Some? && o.campaignInsert.Ok? && request.value.contacts.None? ==>
      response == Unexpected && insertedRows.None? && posted.None?
    // The contacts are checked against the stored ones, and only new ones are inserted.
    ensures ContactsReached(ctx, request, o) && o.existingCheck.Err? ==>
      response == ContactsCheckFailed(o.campaignInsert.value, o.existingCheck.error) &&
      insertedRows.None? && posted.None?
    ensures ContactsReached(ctx, request, o) && o.existingCheck.Ok? ==>
      var toInsert := ToInsert(request.value, generatedLeadId, o);
      (insertedRows.Some? <==> |toInsert| > 0) && (insertedRows.Some? ==> insertedRows.value == toInsert)
    ensures ContactsReached(ctx, request, o) && o.existingCheck.Ok? &&
            |ToInsert(request.value, generatedLeadId, o)| > 0 && o.contactsInsert.Err? ==>
      response == ContactsInsertFailed(o.campaignInsert.value, o.contactsInsert.error) && posted.None?
    // When the stored contacts answer the lookup, every contact without a phone is inserted.
    ensures ContactsReached(ctx, request, o) && o.existingCheck.Ok? &&
            AnswersLookup(NormalizeAll(request.value.contacts.value, generatedLeadId), Existing(o)) ==>
      forall r :: r in NormalizeAll(request.value.contacts.value, generatedLeadId) && r.phone_number == "" ==>
        insertedRows.Some? && r in insertedRows.value
    // Once the contacts are stored, the webhook decides.
    ensures ContactsStored(ctx, request, generatedLeadId, o) && !Truthy(ctx.webhookUrl) ==>
      response == WebhookNotConfigured(o.campaignInsert.value) && posted.None?
    ensures ContactsStored(ctx, request, generatedLeadId, o) && Truthy(ctx.webhookUrl) ==>
      var body := request.value;
      var id := o.campaignInsert.value;
      var inserted := Inserted(ToInsert(body, generatedLeadId, o), o);
      var all := inserted + Existing(o);
      var stats := ContactStats(|all|, |inserted|, |Existing(o)|);
      posted == Some(Payload(all, Shared(id, body.template_name, OrEmpty(body.template_id),
                                         TemplateType(o.catalog, body.template_name),
                                         body.parameter_mappings.GetOr([]),
                                         ctx.schemaName, ctx.authUserId.value))) &&
      response == match o.webhook
        case Accepted(result) => WebhookSent(id, result, stats)
        case Rejected(_) => WebhookRejected(id)
        case Unreachable(_) => WebhookFailed(id, stats)
  {
    campaignRow, insertedRows, posted := None, None, None;
    if ctx.authUserId.None? {
      return Unauthenticated, campaignRow, insertedRows, posted;
    }
    if request.None? {
      return Unexpected, campaignRow, insertedRows, posted;
    }
    var body := request.value;
    campaignRow := Some(CampaignRowOf(body, now));
    if o.campaignInsert.Err? {
      return CampaignInsertFailed(o.campaignInsert.error), campaignRow, insertedRows, posted;
    }
    var campaignId := o.campaignInsert.value;
    if body.contacts.None? {
      return Unexpected, campaignRow, insertedRows, posted;
    }
    var contactsWithLeadIds := NormalizeAll(body.contacts.value, generatedLeadId);
    if o.existingCheck.Err? {
      return ContactsCheckFailed(campaignId, o.existingCheck.error), campaignRow, insertedRows, posted;
    }
    var existingContacts := o.existingCheck.value.GetOr([]);
    var newContacts := NewContacts(contactsWithLeadIds, existingContacts);
    if AnswersLookup(contactsWithLeadIds, existingContacts) {
      forall r | r in contactsWithLeadIds && r.phone_number == ""
        ensures r in newContacts
      {
        EmptyPhoneAlwaysNew(contactsWithLeadIds, existingContacts, r);
      }
    }
    var insertedContacts := [];
    if |newContacts| > 0 {
      insertedRows := Some(newContacts);
      if o.contactsInsert.Err? {
        return ContactsInsertFailed(campaignId, o.contactsInsert.error), campaignRow, insertedRows, posted;
      }
      insertedContacts := o.contactsInsert.value.GetOr([]);
    }
    var allContacts := insertedContacts + existingContacts;
    if !Truthy(ctx.webhookUrl) {
      return WebhookNotConfigured(campaignId), campaignRow, insertedRows, posted;
    }
    var templateType := TemplateType(o.catalog, body.template_name);
    var shared := Shared(campaignId, body.template_name, OrEmpty(body.template_id), templateType,
                         body.parameter_mappings.GetOr([]), ctx.schemaName, ctx.authUserId.value);
    posted := Some(Payload(allContacts, shared));
    var stats := ContactStats(|allContacts|, |insertedContacts|, |existingContacts|);
    match o.webhook {
      case Rejected(_) => response := WebhookRejected(campaignId);
      case Accepted(result) => response := WebhookSent(campaignId, result, stats);
      case Unreachable(_) => response := WebhookFailed(campaignId, stats);
    }
  }

  /** The staged responses: a failure before the campaign exists is an error without
      `success`; a failure while storing contacts is `success: false`; once the contacts are
      stored the response is `success: true`, with `webhookError` unless the webhook
      accepted. */
  lemma StagedResponses(r: CampaignResponse)
    ensures Success(r) == Some(false) <==> r.ContactsCheckFailed? || r.ContactsInsertFailed?
    ensures Success(r) == Some(false) ==> Status(r) == 500
    ensures Success(r) == Some(true) ==> Status(r) == 200
    ensures Success(r).None? <==> r.Unauthenticated? || r.CampaignInsertFailed? || r.Unexpected?
    ensures Success(r) == Some(true) ==> (WebhookError(r).None? <==> r.WebhookSent?)
  {
  }

  /** When the insert answers a stored row for every contact it was asked to insert, no
      submitted contact is dropped: each one's phone number is among the contacts sent on,
      found stored or newly inserted. */
  lemma NoContactDropped(rows: seq<ContactRow>, existing: seq<StoredContact>, inserted: seq<StoredContact>)
    requires forall r :: r in NewContacts(rows, existing) ==> r.phone_number in StoredPhones(inserted)
    ensures forall r :: r in rows ==> r.phone_number in StoredPhones(inserted + existing)
  {
    forall r | r in rows
      ensures r.phone_number in StoredPhones(inserted + existing)
    {
      if r.phone_number in StoredPhones(existing) {
        var e :| e in existing && e.phone_number == r.phone_number;
        assert e in inserted + existing;
      } else {
        assert r in NewContacts(rows, existing);
        var c :| c in inserted && c.phone_number == r.phone_number;
        assert c in inserted + existing;
      }
    }
  }
}
