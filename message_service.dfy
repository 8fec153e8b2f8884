/** `MessageService.getContacts`: every WhatsApp contact with its latest message and unread
    count, most recently active first. The database queries are inputs: the contacts query's
    outcome, and per lead id the latest message and the unread count it reports. The time of a
    timestamp (`new Date(..).getTime()`) is an input too. */
module MessageService {
  import opened Wrappers
  import opened Seqs
  import opened Messages

  /** The outcome of selecting `name, lead_id` from the contacts table. */
  datatype ContactsQuery = ContactsError(message: string) | ContactsData(rows: Option<seq<WAContact>>)

  /** The record of one contact: its own fields, the latest message if there is one, and the
      unread count, a missing count read as 0. */
  function WithHistory(contact: WAContact, latest: Option<Message>, unreadCount: Option<int>): (c: ContactWithHistory)
    ensures c.name == contact.name && c.lead_id == contact.lead_id
    ensures c.last_message == latest
    ensures unreadCount.None? ==> c.unread_count == Some(0)
    ensures unreadCount.Some? ==> c.unread_count == unreadCount
  {
    ContactWithHistory(contact.name, contact.lead_id, latest,
                       Some(if unreadCount.Some? && unreadCount.value != 0 then unreadCount.value else 0))
  }

  /** One record per fetched contact, in the order fetched. */
  function Records(rows: seq<WAContact>, latest: string -> Option<Message>, unread: string -> Option<int>)
    : (records: seq<ContactWithHistory>)
    ensures |records| == |rows|
    ensures forall i :: 0 <= i < |rows| ==>
      records[i] == WithHistory(rows[i], latest(rows[i].lead_id), unread(rows[i].lead_id))
  {
    seq(|rows|, i requires 0 <= i < |rows| => WithHistory(rows[i], latest(rows[i].lead_id), unread(rows[i].lead_id)))
  }

  /** The sort key: the time of the latest message, or 0 without one. */
  function LastActivity(c: ContactWithHistory, timeOf: string -> int): int {
    if c.last_message.Some? then timeOf(c.last_message.value.created_date) else 0
  }

  predicate LatestFirst(s: seq<ContactWithHistory>, timeOf: string -> int) {
    forall i, j :: 0 <= i < j < |s| ==> LastActivity(s[i], timeOf) >= LastActivity(s[j], timeOf)
  }

  /** `getContacts`: a query error is thrown on; no contacts give `[]`; otherwise the records of
      all contacts, sorted by last activity, newest first. */
  method GetContacts(query: ContactsQuery, latest: string -> Option<Message>, unread: string -> Option<int>,
                     timeOf: string -> int)
    returns (result: Result<seq<ContactWithHistory>>)
    ensures query.ContactsError? ==> result == Err(query.message)
    ensures query.ContactsData? && (query.rows.None? || query.rows.value == []) ==> result == Ok([])
    ensures query.ContactsData? ==> result.Ok?
    ensures query.ContactsData? && query.rows.Some? ==>
      multiset(result.value) == multiset(Records(query.rows.value, latest, unread))
    ensures result.Ok? ==> LatestFirst(result.value, timeOf)
  {
    if query.ContactsError? {
      return Err(query.message);
    }
    if query.rows.None? || |query.rows.value| == 0 {
      return Ok([]);
    }
    var records := Records(query.rows.value, latest, unread);
    var contactsWithHistory := new ContactWithHistory[|records|](i requires 0 <= i < |records| => records[i]);
    assert contactsWithHistory[..] == records;
    SortDescendingBy(contactsWithHistory, (c: ContactWithHistory) => LastActivity(c, timeOf));
    result := Ok(contactsWithHistory[..]);
  }

  /** Contacts without any message sort after every contact whose latest message has a
      positive time. */
  lemma SilentContactsLast(s: seq<ContactWithHistory>, timeOf: string -> int, i: nat, j: nat)
    requires LatestFirst(s, timeOf)
    requires i < |s| && j < |s|
    requires s[i].last_message.None?
    requires s[j].last_message.Some? && timeOf(s[j].last_message.value.created_date) > 0
    ensures j < i
  {
  }

  /** One record per fetched contact: the same number of records, and every contact's own
      fields appear among them. */
  lemma OneRecordEach(result: seq<ContactWithHistory>, rows: seq<WAContact>,
                      latest: string -> Option<Message>, unread: string -> Option<int>)
    requires multiset(result) == multiset(Records(rows, latest, unread))
    ensures |result| == |rows|
    ensures forall i :: 0 <= i < |rows| ==>
      exists k :: 0 <= k < |result| && result[k].name == rows[i].name && result[k].lead_id == rows[i].lead_id
  {
    var records := Records(rows, latest, unread);
    assert |multiset(result)| == |multiset(records)|;
    forall i | 0 <= i < |rows|
      ensures exists k :: 0 <= k < |result| && result[k].name == rows[i].name && result[k].lead_id == rows[i].lead_id
    {
      assert records[i] in multiset(records);
      assert records[i] in result;
      var k :| 0 <= k < |result| && result[k] == records[i];
    }
  }
}
