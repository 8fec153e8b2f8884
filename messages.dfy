/** The records of the message screens: a WhatsApp contact, a stored message, and a contact
    with its latest message and unread count. */
module Messages {
  import opened Wrappers

  datatype WAContact = WAContact(name: string, lead_id: string)

  /** A row of the message history. The type admits `'Outgoing' | 'Incoming'` and four statuses,
      but the stored text is whatever the database returns, so both are plain strings here. */
  datatype Message = Message(
    id: string,
    message_id: Option<string>,
    from_number: string,
    to_number: string,
    message_text: string,
    message_type: string,
    status: string,
    lead_id: string,
    is_read: bool,
    created_date: string,
    campaign_id: Option<string>)

  datatype ContactWithHistory = ContactWithHistory(
    name: string,
    lead_id: string,
    last_message: Option<Message>,
    unread_count: Option<int>)
}
