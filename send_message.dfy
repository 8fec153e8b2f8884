/** Sending one free-text message to a lead through the single-message webhook. */
module SendMessage {
  import opened Wrappers
  import opened Strings

  /** The request body; `None` is an absent or `null` member. */
  datatype SendBody = SendBody(
    lead_id: Option<string>,
    message_content: Option<string>,
    phone_number: Option<string>,
    name: Option<string>,
    campaign_id: Option<string>)

  /** The webhook payload: the campaign payload's contact fields plus the typed message, and no
      template fields. `campaign_id` is `null` when absent. */
  datatype SinglePayload = SinglePayload(
    name: string,
    Phone: string,
    campaign_id: Option<string>,
    lead_id: string,
    message_content: string)

  /** How the webhook call ended. */
  datatype WebhookReply =
    | Accepted(result: string)      // a 2xx answer and its JSON
    | Rejected(errorText: string)   // a non-2xx answer and its text
    | Unreachable(message: string)  // `fetch` threw, or a 2xx answer whose body is not JSON

  datatype SendResponse =
    | MissingFields                     // 400
    | SendFailed(details: string)       // 500, the webhook refused
    | WebhookRequestFailed(details: string)  // 500, the webhook could not be reached
    | Sent(webhookResult: string)       // 200
    | Unexpected                        // 500, the body could not be read as JSON

  function Status(r: SendResponse): int {
    if r.Sent? then 200 else if r.MissingFields? then 400 else 500
  }

  /** The payload for a body with a lead and a message. */
  function Payload(body: SendBody): (p: SinglePayload)
    requires Truthy(body.lead_id) && Truthy(body.message_content)
    ensures p.lead_id == body.lead_id.value && p.message_content == body.message_content.value
    ensures p.name == OrEmpty(body.name) && p.Phone == OrEmpty(body.phone_number)
    ensures p.campaign_id.Some? <==> Truthy(body.campaign_id)
    ensures p.campaign_id.Some? ==> p.campaign_id == body.campaign_id
  {
    SinglePayload(OrEmpty(body.name), OrEmpty(body.phone_number),
                  if Truthy(body.campaign_id) then body.campaign_id else None,
                  body.lead_id.value, body.message_content.value)
  }

  /** `POST`: the response, and the payload posted to the webhook if the request got that far. */
  function Send(request: Option<SendBody>, reply: WebhookReply): (r: (SendResponse, Option<SinglePayload>))
    ensures request.None? <==> r.0.Unexpected?
    ensures r.0.MissingFields? <==> request.Some? && (!Truthy(request.value.lead_id) || !Truthy(request.value.message_content))
    ensures r.1.Some? <==> r.0.Sent? || r.0.SendFailed? || r.0.WebhookRequestFailed?
    ensures r.1.Some? ==> r.1 == Some(Payload(request.value))
  {
    match request
    case None => (Unexpected, None)
    case Some(body) =>
      if !Truthy(body.lead_id) || !Truthy(body.message_content) then (MissingFields, None)
      else
        var payload := Payload(body);
        match reply
        case Rejected(errorText) => (SendFailed(errorText), Some(payload))
        case Accepted(result) => (Sent(result), Some(payload))
        case Unreachable(message) => (WebhookRequestFailed(message), Some(payload))
  }

  /** The route reports success exactly when a valid request reached a webhook that accepted it,
      and the status tells the three failure kinds apart from success. */
  lemma SentIffAccepted(request: Option<SendBody>, reply: WebhookReply)
    ensures var (response, _) := Send(request, reply);
      (response.Sent? <==>
        request.Some? && Truthy(request.value.lead_id) && Truthy(request.value.message_content) && reply.Accepted?) &&
      (response.Sent? ==> response.webhookResult == reply.result) &&
      (Status(response) == 200 <==> response.Sent?)
  {
  }
}
