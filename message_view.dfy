/** The conversation pane: messages grouped by day under a Today/Yesterday/date heading, the
    delivery status mark of outgoing messages, and the unread dot of incoming ones. The day of a
    timestamp (`toDateString`), today's and yesterday's day and the long date are inputs. */
module MessageView {
  import opened Wrappers
  import opened Strings
  import opened Seqs
  import opened DateUtils
  import opened Messages

  datatype MessageGroup = MessageGroup(date: string, dateLabel: string, messages: seq<Message>)

  /** The day key of each message, in input order. */
  function DayKeys(ms: seq<Message>, dayOf: string -> string): (keys: seq<string>)
    ensures |keys| == |ms|
    ensures forall i :: 0 <= i < |ms| ==> keys[i] == dayOf(ms[i].created_date)
  {
    seq(|ms|, i requires 0 <= i < |ms| => dayOf(ms[i].created_date))
  }

  function OnDayTest(dayOf: string -> string, key: string): Message -> bool {
    (m: Message) => dayOf(m.created_date) == key
  }

  /** The messages of one day, in input order. */
  function OnDay(ms: seq<Message>, dayOf: string -> string, key: string): (r: seq<Message>)
    ensures forall m :: m in r <==> m in ms && dayOf(m.created_date) == key
  {
    Filter(ms, OnDayTest(dayOf, key))
  }

  /** A day that some message has holds at least one message. */
  lemma KeyHasMessages(ms: seq<Message>, dayOf: string -> string, key: string)
    requires key in DayKeys(ms, dayOf)
    ensures OnDay(ms, dayOf, key) != []
  {
    var i :| 0 <= i < |ms| && DayKeys(ms, dayOf)[i] == key;
    assert ms[i] in OnDay(ms, dayOf, key);
  }

  lemma AllKeysHaveMessages(ms: seq<Message>, dayOf: string -> string)
    ensures forall k :: k in DayKeys(ms, dayOf) ==> OnDay(ms, dayOf, k) != []
  {
    forall k | k in DayKeys(ms, dayOf) ensures OnDay(ms, dayOf, k) != [] {
      KeyHasMessages(ms, dayOf, k);
    }
  }

  /** A group's heading comes from its first message. */
  function GroupOf(key: string, msgs: seq<Message>, dayOf: string -> string,
                   today: string, yesterday: string, longDate: string -> string): (g: MessageGroup)
    requires msgs != []
    ensures g.date == key && g.messages == msgs
  {
    MessageGroup(key, DateGroupLabel(dayOf(msgs[0].created_date), today, yesterday, longDate(msgs[0].created_date)), msgs)
  }

  /** The groups in the order their day first appears, each with its messages. */
  function Grouped(ms: seq<Message>, dayOf: string -> string,
                   today: string, yesterday: string, longDate: string -> string): (g: seq<MessageGroup>)
    ensures |g| == |Dedup(DayKeys(ms, dayOf))|
    ensures forall j :: 0 <= j < |g| ==>
      g[j].date == Dedup(DayKeys(ms, dayOf))[j] && g[j].messages == OnDay(ms, dayOf, g[j].date)
    ensures forall j :: 0 <= j < |g| ==> g[j].messages != []
  {
    AllKeysHaveMessages(ms, dayOf);
    var keys := Dedup(DayKeys(ms, dayOf));
    seq(|keys|, j requires 0 <= j < |keys| =>
      GroupOf(keys[j], OnDay(ms, dayOf, keys[j]), dayOf, today, yesterday, longDate))
  }

  /** `groupMessagesByDate`: a `{ [day]: messages }` object filled message by message, then
      read back with `Object.entries`, whose order for such keys is insertion order. A missing
      list (`messages` not an array) or an empty one gives no groups. */
  method GroupMessagesByDate(messages: Option<seq<Message>>, dayOf: string -> string,
                             today: string, yesterday: string, longDate: string -> string)
    returns (groups: seq<MessageGroup>)
    ensures messages.None? ==> groups == []
    ensures messages.Some? ==> groups == Grouped(messages.value, dayOf, today, yesterday, longDate)
  {
    if messages.None? || |messages.value| == 0 {
      return [];
    }
    var ms := messages.value;
    var order: seq<string> := [];
    var buckets: map<string, seq<Message>> := map[];
    for i := 0 to |ms|
      invariant order == PushAll([], DayKeys(ms[..i], dayOf))
      invariant buckets == BucketsOf(ms[..i], dayOf)
      invariant forall k :: k in buckets <==> k in order
    {
      var message := ms[i];
      var dateKey := dayOf(message.created_date);
      DayKeysStep(ms, dayOf, i);
      assert ms[..i + 1][..i] == ms[..i];
      if dateKey !in buckets {
        order := order + [dateKey];
        buckets := buckets[dateKey := [message]];
      } else {
        buckets := buckets[dateKey := buckets[dateKey] + [message]];
      }
    }
    GroupsRead(ms, dayOf, order, buckets, today, yesterday, longDate);
    groups := Entries(order, buckets, dayOf, today, yesterday, longDate);
  }

  /** `Object.entries(groups).map(...)`: one group per key, in key order. */
  function Entries(order: seq<string>, buckets: map<string, seq<Message>>, dayOf: string -> string,
                   today: string, yesterday: string, longDate: string -> string): (g: seq<MessageGroup>)
    requires forall j :: 0 <= j < |order| ==> order[j] in buckets && buckets[order[j]] != []
    ensures |g| == |order|
    ensures forall j :: 0 <= j < |order| ==> g[j].date == order[j] && g[j].messages == buckets[order[j]]
  {
    seq(|order|, j requires 0 <= j < |order| =>
      GroupOf(order[j], buckets[order[j]], dayOf, today, yesterday, longDate))
  }

  /** The `{ [day]: messages }` object after the messages of `prefix`, message by message. */
  ghost function BucketsOf(prefix: seq<Message>, dayOf: string -> string): map<string, seq<Message>>
    decreases |prefix|
  {
    if prefix == [] then map[]
    else
      var b := BucketsOf(prefix[..|prefix| - 1], dayOf);
      var m := prefix[|prefix| - 1];
      var dateKey := dayOf(m.created_date);
      if dateKey !in b then b[dateKey := [m]] else b[dateKey := b[dateKey] + [m]]
  }

  /** The object holds exactly the days of the messages, each with that day's messages in order. */
  lemma BucketsOfMeaning(prefix: seq<Message>, dayOf: string -> string)
    ensures forall k :: k in BucketsOf(prefix, dayOf) <==> k in DayKeys(prefix, dayOf)
    ensures forall k :: k in BucketsOf(prefix, dayOf) ==> BucketsOf(prefix, dayOf)[k] == OnDay(prefix, dayOf, k)
    ensures forall k :: k !in BucketsOf(prefix, dayOf) ==> OnDay(prefix, dayOf, k) == []
  {
    BucketsOfKeys(prefix, dayOf);
    BucketsOfLists(prefix, dayOf);
  }

  lemma {:induction false} BucketsOfKeys(prefix: seq<Message>, dayOf: string -> string)
    ensures forall k :: k in BucketsOf(prefix, dayOf) <==> k in DayKeys(prefix, dayOf)
    decreases |prefix|
  {
    if prefix != [] {
      var i := |prefix| - 1;
      BucketsOfKeys(prefix[..i], dayOf);
      assert prefix[..i + 1] == prefix;
      assert DayKeys(prefix, dayOf) == DayKeys(prefix[..i], dayOf) + [dayOf(prefix[i].created_date)];
    }
  }

  lemma {:induction false} BucketsOfLists(prefix: seq<Message>, dayOf: string -> string)
    ensures forall k :: k in BucketsOf(prefix, dayOf) ==> BucketsOf(prefix, dayOf)[k] == OnDay(prefix, dayOf, k)
    ensures forall k :: k !in BucketsOf(prefix, dayOf) ==> OnDay(prefix, dayOf, k) == []
    decreases |prefix|
  {
    if prefix != [] {
      var i := |prefix| - 1;
      BucketsOfLists(prefix[..i], dayOf);
      BucketsOfUnfold(prefix, dayOf);
      assert prefix[..i + 1] == prefix;
      BucketsStep(prefix, dayOf, i, BucketsOf(prefix[..i], dayOf), BucketsOf(prefix, dayOf));
    }
  }

  /** One more message adds its day if new and appends the message to that day's list. */
  lemma BucketsOfUnfold(prefix: seq<Message>, dayOf: string -> string)
    requires prefix != []
    ensures var i := |prefix| - 1;
      var b, b' := BucketsOf(prefix[..i], dayOf), BucketsOf(prefix, dayOf);
      var k0 := dayOf(prefix[i].created_date);
      (forall k :: k in b' <==> k in b || k == k0) &&
      (forall k :: k in b && k != k0 ==> b'[k] == b[k]) &&
      k0 in b' && b'[k0] == (if k0 in b then b[k0] else []) + [prefix[i]]
  {
  }

  /** The lists by day after one more message, whatever the map looked like before: only the
      message's day changes, and it gains the message at its end. */
  lemma BucketsStep(ms: seq<Message>, dayOf: string -> string, i: nat,
                    buckets: map<string, seq<Message>>, buckets': map<string, seq<Message>>)
    requires i < |ms|
    requires forall k :: k in buckets ==> buckets[k] == OnDay(ms[..i], dayOf, k)
    requires forall k :: k !in buckets ==> OnDay(ms[..i], dayOf, k) == []
    requires forall k :: k in buckets' <==> k in buckets || k == dayOf(ms[i].created_date)
    requires forall k :: k in buckets && k != dayOf(ms[i].created_date) ==> buckets'[k] == buckets[k]
    requires dayOf(ms[i].created_date) in buckets'
    requires buckets'[dayOf(ms[i].created_date)] == OnDay(ms[..i], dayOf, dayOf(ms[i].created_date)) + [ms[i]]
    ensures forall k :: k in buckets' ==> buckets'[k] == OnDay(ms[..i + 1], dayOf, k)
    ensures forall k :: k !in buckets' ==> OnDay(ms[..i + 1], dayOf, k) == []
  {
    forall k | k in buckets' ensures buckets'[k] == OnDay(ms[..i + 1], dayOf, k) {
      OnDayStep(ms, dayOf, i, k);
    }
    forall k | k !in buckets' ensures OnDay(ms[..i + 1], dayOf, k) == [] {
      OnDayStep(ms, dayOf, i, k);
    }
  }

  lemma DayKeysStep(ms: seq<Message>, dayOf: string -> string, i: nat)
    requires i < |ms|
    ensures PushAll([], DayKeys(ms[..i + 1], dayOf)) ==
      PushNew(PushAll([], DayKeys(ms[..i], dayOf)), dayOf(ms[i].created_date))
  {
    assert ms[..i + 1] == ms[..i] + [ms[i]];
    assert DayKeys(ms[..i + 1], dayOf) == DayKeys(ms[..i], dayOf) + [dayOf(ms[i].created_date)];
    PushAllAppend([], DayKeys(ms[..i], dayOf), [dayOf(ms[i].created_date)]);
  }

  lemma OnDayStep(ms: seq<Message>, dayOf: string -> string, i: nat, k: string)
    requires i < |ms|
    ensures OnDay(ms[..i + 1], dayOf, k) ==
      OnDay(ms[..i], dayOf, k) + (if dayOf(ms[i].created_date) == k then [ms[i]] else [])
  {
    assert ms[..i + 1] == ms[..i] + [ms[i]];
    FilterAppend(ms[..i], [ms[i]], OnDayTest(dayOf, k));
  }

  /** After the last message: the keys are the distinct days in first-appearance order, each
      with its non-empty list of messages. */
  lemma GroupsRead(ms: seq<Message>, dayOf: string -> string, order: seq<string>, buckets: map<string, seq<Message>>,
                   today: string, yesterday: string, longDate: string -> string)
    requires order == PushAll([], DayKeys(ms[..|ms|], dayOf))
    requires buckets == BucketsOf(ms[..|ms|], dayOf)
    ensures order == Dedup(DayKeys(ms, dayOf))
    ensures forall j :: 0 <= j < |order| ==> order[j] in buckets && buckets[order[j]] == OnDay(ms, dayOf, order[j])
    ensures forall j :: 0 <= j < |order| ==> buckets[order[j]] != []
    ensures Entries(order, buckets, dayOf, today, yesterday, longDate) == Grouped(ms, dayOf, today, yesterday, longDate)
  {
    assert ms[..|ms|] == ms;
    BucketsOfMeaning(ms, dayOf);
    PushAllDedup([], DayKeys(ms, dayOf));
    assert [] + DayKeys(ms, dayOf) == DayKeys(ms, dayOf);
    forall j | 0 <= j < |order| ensures buckets[order[j]] != [] {
      KeyHasMessages(ms, dayOf, order[j]);
    }
    EntriesGrouped(ms, dayOf, order, buckets, today, yesterday, longDate);
  }

  lemma EntriesGrouped(ms: seq<Message>, dayOf: string -> string, order: seq<string>, buckets: map<string, seq<Message>>,
                       today: string, yesterday: string, longDate: string -> string)
    requires order == Dedup(DayKeys(ms, dayOf))
    requires forall j :: 0 <= j < |order| ==> order[j] in buckets && buckets[order[j]] == OnDay(ms, dayOf, order[j])
    requires forall j :: 0 <= j < |order| ==> buckets[order[j]] != []
    ensures Entries(order, buckets, dayOf, today, yesterday, longDate) == Grouped(ms, dayOf, today, yesterday, longDate)
  {
    var e := Entries(order, buckets, dayOf, today, yesterday, longDate);
    var g := Grouped(ms, dayOf, today, yesterday, longDate);
    forall j | 0 <= j < |order| ensures e[j] == g[j] {
      assert e[j] == GroupOf(order[j], buckets[order[j]], dayOf, today, yesterday, longDate);
      assert g[j] == GroupOf(order[j], OnDay(ms, dayOf, order[j]), dayOf, today, yesterday, longDate);
    }
  }

  /** Every message is in exactly one group, every group is non-empty, and a group holds
      exactly the messages of its day. */
  lemma GroupsPartition(ms: seq<Message>, dayOf: string -> string,
                        today: string, yesterday: string, longDate: string -> string)
    ensures var g := Grouped(ms, dayOf, today, yesterday, longDate);
      (forall j :: 0 <= j < |g| ==> g[j].messages != []) &&
      (forall j, m :: 0 <= j < |g| ==> (m in g[j].messages <==> m in ms && dayOf(m.created_date) == g[j].date)) &&
      (forall m :: m in ms ==> exists j :: 0 <= j < |g| && m in g[j].messages) &&
      (forall i, j, m :: 0 <= i < |g| && 0 <= j < |g| && m in g[i].messages && m in g[j].messages ==> i == j)
  {
    var g := Grouped(ms, dayOf, today, yesterday, longDate);
    var keys := Dedup(DayKeys(ms, dayOf));
    forall m | m in ms ensures exists j :: 0 <= j < |g| && m in g[j].messages {
      var i :| 0 <= i < |ms| && ms[i] == m;
      assert DayKeys(ms, dayOf)[i] in keys;
      var j :| 0 <= j < |keys| && keys[j] == dayOf(m.created_date);
      assert m in g[j].messages;
    }
  }

  /** Groups follow the first appearance of their day, and each keeps the input order. */
  lemma GroupsOrdered(ms: seq<Message>, dayOf: string -> string,
                      today: string, yesterday: string, longDate: string -> string)
    ensures var g := Grouped(ms, dayOf, today, yesterday, longDate);
      (forall i, j :: 0 <= i < j < |g| ==>
        FirstIndex(DayKeys(ms, dayOf), g[i].date) < FirstIndex(DayKeys(ms, dayOf), g[j].date)) &&
      (forall j :: 0 <= j < |g| ==> IsSubsequence(g[j].messages, ms))
  {
    var g := Grouped(ms, dayOf, today, yesterday, longDate);
    DedupFirstOccurrenceOrder(DayKeys(ms, dayOf));
    forall j | 0 <= j < |g| ensures IsSubsequence(g[j].messages, ms) {
      FilterIsSubsequence(ms, OnDayTest(dayOf, g[j].date));
    }
  }

  /** The heading is Today or Yesterday by the group's own day, from its first message. */
  lemma GroupHeadings(ms: seq<Message>, dayOf: string -> string,
                      today: string, yesterday: string, longDate: string -> string)
    ensures var g := Grouped(ms, dayOf, today, yesterday, longDate);
      forall j :: 0 <= j < |g| ==> (g[j].messages != [] &&
        g[j].dateLabel == DateGroupLabel(g[j].date, today, yesterday, longDate(g[j].messages[0].created_date)))
  {
    var g := Grouped(ms, dayOf, today, yesterday, longDate);
    forall j | 0 <= j < |g| ensures g[j].messages != [] && dayOf(g[j].messages[0].created_date) == g[j].date {
      assert g[j].messages[0] in g[j].messages;
    }
  }

  /** `getStatusIcon`, case-insensitive. */
  function StatusIcon(status: string): (icon: string)
    ensures ToLower(status) == "sent" ==> icon == "\U{2713}"
    ensures ToLower(status) in ["delivered", "read"] ==> icon == "\U{2713}\U{2713}"
    ensures ToLower(status) == "failed" ==> icon == "\U{2717}"
    ensures icon == "" <==> ToLower(status) !in ["sent", "delivered", "read", "failed"]
  {
    match ToLower(status)
    case "sent" => "\U{2713}"
    case "delivered" => "\U{2713}\U{2713}"
    case "read" => "\U{2713}\U{2713}"
    case "failed" => "\U{2717}"
    case _ => ""
  }

  /** `getStatusColor`, case-insensitive. */
  function StatusColor(status: string): (color: string)
    ensures ToLower(status) == "sent" ==> color == "text-gray-400"
    ensures ToLower(status) == "delivered" ==> color == "text-blue-400"
    ensures ToLower(status) == "read" ==> color == "text-blue-500"
    ensures ToLower(status) == "failed" ==> color == "text-red-500"
    ensures ToLower(status) !in ["sent", "delivered", "read", "failed"] ==> color == "text-gray-300"
  {
    match ToLower(status)
    case "sent" => "text-gray-400"
    case "delivered" => "text-blue-400"
    case "read" => "text-blue-500"
    case "failed" => "text-red-500"
    case _ => "text-gray-300"
  }

  /** The status of a message is read without regard to case. */
  lemma StatusCaseInsensitive(a: string, b: string)
    requires ToLower(a) == ToLower(b)
    ensures StatusIcon(a) == StatusIcon(b) && StatusColor(a) == StatusColor(b)
  {
  }

  predicate IsOutgoing(m: Message) {
    m.message_type == "Outgoing"
  }

  /** The status mark is shown on outgoing messages that have one. */
  predicate ShowsStatusIcon(m: Message) {
    IsOutgoing(m) && StatusIcon(m.status) != ""
  }

  /** The colour class of the status mark. */
  function StatusIconColor(m: Message): string {
    if IsOutgoing(m) then "text-blue-200" else StatusColor(m.status)
  }

  /** The unread dot is shown on incoming messages not yet read. */
  predicate ShowsUnreadDot(m: Message) {
    !m.is_read && !IsOutgoing(m)
  }

  /** A message shows at most one of the two marks, and a shown status mark is always
      `text-blue-200`: the status colour table is never reached. */
  lemma MarksExclusive(m: Message)
    ensures !(ShowsStatusIcon(m) && ShowsUnreadDot(m))
    ensures ShowsStatusIcon(m) ==> StatusIconColor(m) == "text-blue-200"
    ensures ShowsUnreadDot(m) <==> !m.is_read && m.message_type != "Outgoing"
  {
  }
}
