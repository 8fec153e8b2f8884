/** The campaigns list page: the auto-reply switch of each campaign and what the table shows
    for it. The PATCH request is an outcome given to the page. */
module CampaignsPage {
  import opened Wrappers
  import opened Strings
  import opened DateUtils

  /** A campaign as listed; `auto_reply` may be missing from older rows. */
  datatype Campaign = Campaign(
    id: string,
    name: string,
    description: Option<string>,
    template_name: string,
    template_language: string,
    scheduled_at: Option<string>,
    status: string,
    created_date: string,
    updated_date: string,
    auto_reply: Option<bool>)

  /** The switch position: `auto_reply || false`. */
  predicate AutoReplyOn(c: Campaign) {
    c.auto_reply == Some(true)
  }

  /** The scheduled column: the formatted time, or "Immediate" without one. `localeFormat` is
      the locale's formatting of the time read as UTC. */
  function ScheduledText(c: Campaign, localeFormat: string -> string): (text: string)
    ensures !Truthy(c.scheduled_at) ==> text == "Immediate"
    ensures Truthy(c.scheduled_at) ==> text == localeFormat(EnsureUtc(c.scheduled_at.value))
  {
    if Truthy(c.scheduled_at) then localeFormat(EnsureUtc(c.scheduled_at.value)) else "Immediate"
  }

  /** A scheduled time is always formatted as UTC: the text handed to the locale formatting is
      the stored text, with a `Z` appended when it had none. */
  lemma ScheduledReadAsUtc(c: Campaign, localeFormat: string -> string)
    requires Truthy(c.scheduled_at)
    ensures var stored := c.scheduled_at.value;
      var utc := if 'Z' in stored then stored else stored + "Z";
      'Z' in utc && stored <= utc && ScheduledText(c, localeFormat) == localeFormat(utc)
  {
    var stored := c.scheduled_at.value;
    if 'Z' !in stored {
      assert (stored + "Z")[|stored|] == 'Z';
    }
  }

  /** The list after a successful toggle: the campaign with the id gets the new value. */
  function WithAutoReply(campaigns: seq<Campaign>, campaignId: string, value: bool): (updated: seq<Campaign>)
    ensures |updated| == |campaigns|
    ensures forall i :: 0 <= i < |campaigns| && campaigns[i].id != campaignId ==> updated[i] == campaigns[i]
    ensures forall i :: 0 <= i < |campaigns| && campaigns[i].id == campaignId ==>
      updated[i] == campaigns[i].(auto_reply := Some(value))
  {
    seq(|campaigns|, i requires 0 <= i < |campaigns| =>
      if campaigns[i].id == campaignId then campaigns[i].(auto_reply := Some(value)) else campaigns[i])
  }

  /** The page state touched by the switch. */
  class CampaignsPageState {
    var campaigns: seq<Campaign>
    var updatingAutoReply: Option<string>

    constructor(loaded: seq<Campaign>)
      ensures campaigns == loaded && updatingAutoReply.None?
    {
      campaigns := loaded;
      updatingAutoReply := None;
    }

    /** The switch of a campaign is disabled while its own request is in flight. */
    predicate ToggleDisabled(c: Campaign)
      reads this
    {
      updatingAutoReply == Some(c.id)
    }

    /** `handleAutoReplyToggle` up to the request: the campaign is marked as updating. */
    method StartToggle(campaignId: string)
      modifies this
      ensures updatingAutoReply == Some(campaignId)
      ensures campaigns == old(campaigns)
    {
      updatingAutoReply := Some(campaignId);
    }

    /** The rest of `handleAutoReplyToggle`: on success the campaign takes the opposite of the
        value it was toggled from, on failure the list is left alone; either way nothing is
        marked as updating afterwards. */
    method FinishToggle(campaignId: string, currentValue: bool, succeeded: bool)
      modifies this
      ensures updatingAutoReply.None?
      ensures succeeded ==> campaigns == WithAutoReply(old(campaigns), campaignId, !currentValue)
      ensures !succeeded ==> campaigns == old(campaigns)
    {
      if succeeded {
        campaigns := WithAutoReply(campaigns, campaignId, !currentValue);
      }
      updatingAutoReply := None;
    }
  }

  /** Toggling a campaign from its displayed position flips what the switch shows for it and
      for nothing else. */
  lemma ToggleFlipsSwitch(campaigns: seq<Campaign>, k: nat)
    requires k < |campaigns|
    requires forall i :: 0 <= i < |campaigns| && i != k ==> campaigns[i].id != campaigns[k].id
    ensures var updated := WithAutoReply(campaigns, campaigns[k].id, !AutoReplyOn(campaigns[k]));
      AutoReplyOn(updated[k]) == !AutoReplyOn(campaigns[k]) &&
      forall i :: 0 <= i < |campaigns| && i != k ==> updated[i] == campaigns[i]
  {
  }

  /** Toggling twice from the displayed position brings the switch back. */
  lemma ToggleTwice(campaigns: seq<Campaign>, k: nat)
    requires k < |campaigns|
    ensures var once := WithAutoReply(campaigns, campaigns[k].id, !AutoReplyOn(campaigns[k]));
      var twice := WithAutoReply(once, campaigns[k].id, !AutoReplyOn(once[k]));
      AutoReplyOn(twice[k]) == AutoReplyOn(campaigns[k])
  {
  }
}
