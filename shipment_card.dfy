/**
 * The dashboard card of one shipment in each of its five layouts. Progress
 * and the next task come from outside (their calculation is not modelled);
 * the card decides the status colour, badge text, which lines are shown,
 * the forwarder's display name and the container tracking link.
 */
module ShipmentCard {
  import opened Wrappers
  import opened JsStrings
  import opened ShipmentDefinitions

  datatype StatusColor = Success | Accent | Warning

  function GetStatusColor(progress: int): (r: StatusColor)
    ensures r == Success <==> progress == 100
    ensures r == Accent <==> progress > 50 && progress != 100
    ensures r == Warning <==> progress <= 50
  {
    if progress == 100 then Success
    else if progress > 50 then Accent
    else Warning
  }

  datatype CardView = Full | Compact | Minimal | ProgressView | StatusView

  /** The `cardView` prop, which defaults to the full view when absent. */
  function ViewOf(cardView: Option<CardView>): CardView {
    match cardView
    case Some(v) => v
    case None => Full
  }

  datatype Badge = Badge(text: string, color: StatusColor)

  /** What a card shows; `None` is a line or element the layout does not render. */
  datatype Card = Card(
    title: string,
    badge: Option<Badge>,
    progressText: Option<string>,
    nextLine: Option<string>,
    allDone: bool,
    customer: Option<string>,
    container: Option<string>,
    trackingUrl: Option<string>,
    clearingAgent: Option<string>,
    forwarder: Option<string>,
    shippingLine: Option<string>)

  const DASH := "—"
  const TRACKING_PREFIX := "https://www.track-trace.com/container/list/"

  /** `value || '—'` */
  function OrDash(o: Option<string>): string {
    Or(o, DASH)
  }

  /** The forwarder line: a non-empty manual name first, then the known partners, else a dash. */
  function ForwarderDisplayName(data: Shipment): string {
    if Truthy(data.manualForwarderName) then data.manualForwarderName.value
    else if data.forwarder == "xpo" then "XPO Logistics"
    else if data.forwarder == "hmi" then "HMI Logistics"
    else DASH
  }

  /** The tracking link, present only for a non-empty container number. */
  function TrackingLink(container: Option<string>): Option<string> {
    if Truthy(container) then Some(TRACKING_PREFIX + container.value) else None
  }

  function ProgressText(progress: int): string {
    IntToString(progress) + "%"
  }

  /** The "Next:" line, shown while a next task exists and progress is below 100. */
  function NextLine(progress: int, nextTask: Option<string>): Option<string> {
    if nextTask.Some? && progress < 100 then nextTask else None
  }

  function RenderCard(data: Shipment, progress: int, nextTask: Option<string>, cardView: Option<CardView>): Card {
    var color := GetStatusColor(progress);
    var status := if progress == 100 then "Completed" else "In Progress";
    match ViewOf(cardView)
    case Minimal =>
      Card(data.id, Some(Badge(if progress == 100 then "Done" else ProgressText(progress), color)),
           None, None, false, None, None, None, None, None, None)
    case ProgressView =>
      Card(data.id, None, Some(ProgressText(progress)), NextLine(progress, nextTask), progress == 100,
           None, None, None, None, None, None)
    case StatusView =>
      Card(data.id, Some(Badge(status, color)), None, None, false,
           None, None, None, Some(OrDash(data.details.clearingAgent)), None, None)
    case Compact =>
      Card(data.id, Some(Badge(ProgressText(progress), color)), None, NextLine(progress, nextTask), false,
           Some(OrDash(data.details.customer)), None, None, None, None, None)
    case Full =>
      Card(data.id, Some(Badge(status, color)), Some(ProgressText(progress)), NextLine(progress, nextTask), false,
           Some(OrDash(data.details.customer)), Some(OrDash(data.details.container)),
           TrackingLink(data.details.container), Some(OrDash(data.details.clearingAgent)),
           Some(ForwarderDisplayName(data)), Some(OrDash(data.details.shippingLine)))
  }

  /** Every badge takes the status colour; "Done" appears exactly on a finished minimal card,
      "Completed" exactly on a finished status or full card. */
  lemma BadgeRules(data: Shipment, progress: int, nextTask: Option<string>, cardView: Option<CardView>)
    ensures var card := RenderCard(data, progress, nextTask, cardView);
      && (card.badge.Some? <==> ViewOf(cardView) != ProgressView)
      && (card.badge.Some? ==> card.badge.value.color == GetStatusColor(progress))
      && (card.badge.Some? && card.badge.value.text == "Done" <==>
            ViewOf(cardView) == Minimal && progress == 100)
      && (card.badge.Some? && card.badge.value.text == "Completed" <==>
            ViewOf(cardView) in {StatusView, Full} && progress == 100)
      && (ViewOf(cardView) in {StatusView, Full} && progress != 100 ==> card.badge.value.text == "In Progress")
      && (ViewOf(cardView) == Minimal && progress != 100 ==> card.badge.value.text == ProgressText(progress))
      && (ViewOf(cardView) == Compact ==> card.badge.value.text == ProgressText(progress))
  {
    var t := ProgressText(progress);
    assert t[|t| - 1] == '%';
    assert "Done"[3] != '%' && "Completed"[8] != '%';
  }

  /** The "Next:" line shows exactly when the layout has one, a next task exists and
      progress is below 100; "All tasks completed" shows exactly on a finished progress card. */
  lemma VisibilityRules(data: Shipment, progress: int, nextTask: Option<string>, cardView: Option<CardView>)
    ensures var card := RenderCard(data, progress, nextTask, cardView);
      && (card.nextLine.Some? <==>
            ViewOf(cardView) in {ProgressView, Compact, Full} && nextTask.Some? && progress < 100)
      && (card.nextLine.Some? ==> card.nextLine == nextTask)
      && (card.allDone <==> ViewOf(cardView) == ProgressView && progress == 100)
  {
  }

  /** A non-empty manual name wins even for a known forwarder; otherwise the known names, else a dash. */
  lemma ForwarderNamePrecedence(data: Shipment)
    ensures Truthy(data.manualForwarderName) ==> ForwarderDisplayName(data) == data.manualForwarderName.value
    ensures !Truthy(data.manualForwarderName) && data.forwarder == "xpo" ==> ForwarderDisplayName(data) == "XPO Logistics"
    ensures !Truthy(data.manualForwarderName) && data.forwarder == "hmi" ==> ForwarderDisplayName(data) == "HMI Logistics"
    ensures !Truthy(data.manualForwarderName) && data.forwarder != "xpo" && data.forwarder != "hmi" ==>
              ForwarderDisplayName(data) == DASH
    ensures ForwarderDisplayName(data) != ""
  {
  }

  /** For a manual forwarder with a name, the card's forwarder line is the prefix of the
      forwarder-handoff task labels. */
  lemma ForwarderNameMatchesManualLabels(data: Shipment, i: int)
    requires data.forwarder != "xpo" && data.forwarder != "hmi" && Truthy(data.manualForwarderName)
    requires 0 <= i < |ForwarderTasks(data)|
    ensures StartsWith(ForwarderTasks(data)[i].labelText, ForwarderDisplayName(data) + ": ")
  {
    var p := ForwarderDisplayName(data) + ": ";
    assert ForwarderTasks(data)[i].labelText[..|p|] == p;
  }

  /** The tracking link exists exactly for a non-empty container and ends with that container. */
  lemma TrackingLinkRules(container: Option<string>)
    ensures TrackingLink(container).Some? <==> Truthy(container)
    ensures TrackingLink(container).Some? ==>
              StartsWith(TrackingLink(container).value, TRACKING_PREFIX) &&
              TrackingLink(container).value[|TRACKING_PREFIX|..] == container.value
  {
    if Truthy(container) {
      var url := TrackingLink(container).value;
      assert url[..|TRACKING_PREFIX|] == TRACKING_PREFIX;
    }
  }

  /** A card without a `cardView` is the full card. */
  lemma DefaultViewIsFull(data: Shipment, progress: int, nextTask: Option<string>)
    ensures RenderCard(data, progress, nextTask, None) == RenderCard(data, progress, nextTask, Some(Full))
    ensures RenderCard(data, progress, nextTask, None).forwarder == Some(ForwarderDisplayName(data))
  {
  }
}
