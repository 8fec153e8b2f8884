/** The lead status ribbon of a conversation: the pipeline of statuses in their configured order,
    each with a colour from a fixed palette, and the click that moves the lead to another
    status. The PUT request is an outcome given to the ribbon. */
module LeadStatusRibbon {
  import opened Wrappers
  import opened Seqs

  datatype LeadStatusOption = LeadStatusOption(value: string, statusLabel: string, order: int)

  /** The ten hues of the palette. Each stands for its set of classes: `bg-<hue>-100`,
      `text-<hue>-800`, `border-<hue>-200`, and when active `bg-<hue>-500`, `text-white`,
      `border-<hue>-600`. */
  datatype Hue = Blue | Green | Yellow | Red | Purple | Indigo | Pink | Orange | Teal | Cyan

  /** The class name of a hue, as it appears in the colour classes. */
  function HueName(hue: Hue): string
  {
    match hue
    case Blue => "blue"
    case Green => "green"
    case Yellow => "yellow"
    case Red => "red"
    case Purple => "purple"
    case Indigo => "indigo"
    case Pink => "pink"
    case Orange => "orange"
    case Teal => "teal"
    case Cyan => "cyan"
  }

  const ColorPalette: seq<Hue> := [Blue, Green, Yellow, Red, Purple, Indigo, Pink, Orange, Teal, Cyan]

  /** `generateStatusColors`: colours cycle through the palette by display position; the status
      itself plays no part. */
  function GenerateStatusColors(status: string, index: nat): (hue: Hue)
    ensures hue in ColorPalette
    ensures index < |ColorPalette| ==> hue == ColorPalette[index]
  {
    ColorPalette[index % |ColorPalette|]
  }

  /** Ten positions apart, the same colours; the status does not matter. */
  lemma ColorsCycle(status: string, other: string, index: nat)
    ensures GenerateStatusColors(status, index + 10) == GenerateStatusColors(other, index)
  {
  }

  /** Any ten consecutive positions get ten different colours. */
  lemma PaletteDistinct(status: string, other: string, i: nat, j: nat)
    requires i < j < i + 10
    ensures GenerateStatusColors(status, i) != GenerateStatusColors(other, j)
  {
    assert i % 10 != j % 10;
  }

  /** The options in display order: a sorted copy, ascending by `order`. */
  method SortedOptions(statusOptions: seq<LeadStatusOption>) returns (sorted: seq<LeadStatusOption>)
    ensures multiset(sorted) == multiset(statusOptions)
    ensures forall i, j :: 0 <= i < j < |sorted| ==> sorted[i].order <= sorted[j].order
  {
    var copy := new LeadStatusOption[|statusOptions|](i requires 0 <= i < |statusOptions| => statusOptions[i]);
    assert copy[..] == statusOptions;
    SortDescendingBy(copy, (o: LeadStatusOption) => -o.order);
    sorted := copy[..];
  }

  /** What each segment of the ribbon shows: whether it is the current status, whether clicks
      are off, the hue it is painted in (only the active segment is coloured; the others are
      white), whether a divider follows it, and its tooltip. */
  datatype Segment = Segment(option: LeadStatusOption, isActive: bool, isDisabled: bool,
                             activeHue: Option<Hue>, rightBorder: bool, title: string)

  /** The segment at display position `i`. */
  function SegmentAt(sorted: seq<LeadStatusOption>, i: nat, currentStatus: Option<string>,
                     disabled: bool, isUpdating: bool): (segment: Segment)
    requires i < |sorted|
    ensures segment.option == sorted[i]
    ensures segment.isActive <==> currentStatus == Some(sorted[i].value)
    ensures segment.isDisabled <==> disabled || isUpdating
    ensures segment.rightBorder <==> i != |sorted| - 1
    ensures segment.activeHue.Some? <==> segment.isActive
    ensures segment.isActive ==> segment.activeHue == Some(ColorPalette[i % 10])
    ensures segment.title == (if segment.isActive then "Current status: " else "Change to ") + sorted[i].statusLabel
  {
    var option := sorted[i];
    var isActive := currentStatus == Some(option.value);
    Segment(option, isActive, disabled || isUpdating,
            if isActive then Some(GenerateStatusColors(option.value, i)) else None,
            i != |sorted| - 1,
            if isActive then "Current status: " + option.statusLabel else "Change to " + option.statusLabel)
  }

  /** The segments in display order. */
  function Segments(sorted: seq<LeadStatusOption>, currentStatus: Option<string>,
                    disabled: bool, isUpdating: bool): (segments: seq<Segment>)
    ensures |segments| == |sorted|
    ensures forall i :: 0 <= i < |sorted| ==> segments[i] == SegmentAt(sorted, i, currentStatus, disabled, isUpdating)
  {
    seq(|sorted|, i requires 0 <= i < |sorted| => SegmentAt(sorted, i, currentStatus, disabled, isUpdating))
  }

  /** With distinct option values, at most one segment is active, and none without a current
      status. */
  lemma AtMostOneActive(sorted: seq<LeadStatusOption>, currentStatus: Option<string>, disabled: bool, isUpdating: bool)
    requires forall i, j :: 0 <= i < j < |sorted| ==> sorted[i].value != sorted[j].value
    ensures var segments := Segments(sorted, currentStatus, disabled, isUpdating);
      (forall i, j :: 0 <= i < |segments| && 0 <= j < |segments| && segments[i].isActive && segments[j].isActive ==> i == j) &&
      (currentStatus.None? ==> forall i :: 0 <= i < |segments| ==> !segments[i].isActive)
  {
  }

  /** The ribbon of one lead. `notified` records the calls of `onStatusChange` and `requested`
      the statuses sent in update requests, oldest first. */
  class Ribbon {
    const leadId: string
    const currentStatus: Option<string>
    const disabled: bool
    var isUpdating: bool
    var requested: seq<string>
    var notified: seq<string>

    constructor(leadId: string, currentStatus: Option<string>, disabled: bool)
      ensures this.leadId == leadId && this.currentStatus == currentStatus && this.disabled == disabled
      ensures !isUpdating && requested == [] && notified == []
    {
      this.leadId := leadId;
      this.currentStatus := currentStatus;
      this.disabled := disabled;
      isUpdating := false;
      requested := [];
      notified := [];
    }

    /** A click is ignored on the current status, during an update, or when disabled. */
    predicate IgnoresClick(newStatus: string)
      reads this
    {
      Some(newStatus) == currentStatus || isUpdating || disabled
    }

    /** `handleStatusClick` up to the request: unless ignored, the ribbon is marked as updating
        and the new status is requested. */
    method StartStatusClick(newStatus: string) returns (started: bool)
      modifies this
      ensures started <==> !old(IgnoresClick(newStatus))
      ensures started ==> isUpdating && requested == old(requested) + [newStatus]
      ensures !started ==> isUpdating == old(isUpdating) && requested == old(requested)
      ensures notified == old(notified)
    {
      if Some(newStatus) == currentStatus || isUpdating || disabled {
        return false;
      }
      isUpdating := true;
      requested := requested + [newStatus];
      started := true;
    }

    /** The rest of `handleStatusClick`: the parent hears of the new status only when the update
        succeeded, and the ribbon is no longer updating either way. */
    method FinishStatusClick(newStatus: string, succeeded: bool)
      requires isUpdating
      modifies this
      ensures !isUpdating
      ensures notified == old(notified) + (if succeeded then [newStatus] else [])
      ensures requested == old(requested)
    {
      if succeeded {
        notified := notified + [newStatus];
      }
      isUpdating := false;
    }
  }

  /** While an update is in flight every click is ignored, so two requests never overlap. */
  lemma ClickDuringUpdateIgnored(r: Ribbon, newStatus: string)
    requires r.isUpdating
    ensures r.IgnoresClick(newStatus)
  {
  }
}
