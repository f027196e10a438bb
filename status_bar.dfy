/** What the status bar (components/StatusBar.tsx) shows for a status snapshot. */
module StatusBar {
  import opened Types
  import opened Numerals
  import Recency

  /** `formatTimeSince`: the same whole-minute computation as the dashboard's. */
  function FormatTimeSince(timestamp: int, now: int): (r: string)
    ensures r == Recency.Text(Recency.Classify(now - timestamp))
    ensures timestamp > now ==> r == "Just now"
  {
    var diffMs := now - timestamp;
    var diffMins := diffMs / 60000;
    if diffMins < 1 then "Just now"
    else if diffMins < 60 then NatToString(diffMins) + "m ago"
    else if diffMins < 1440 then NatToString(diffMins / 60) + "h ago"
    else NatToString(diffMins / 1440) + "d ago"
  }

  datatype MedicationEntry = MedicationEntry(name: string, since: string)

  /** The rows of the bar: location text and recency, then the optional medication and chat rows. */
  datatype View = View(
    locationText: string,
    seenText: Option<string>,
    medication: Option<MedicationEntry>,
    chatSince: Option<string>)

  /** The location row: an absent or empty address reads "Location available". */
  function LocationText(status: ElderStatus): (r: string)
    ensures status.lastLocation.None? ==> r == "No location data"
    ensures status.lastLocation.Some? && status.lastLocation.value.address.Some?
            && status.lastLocation.value.address.value != "" ==>
              r == status.lastLocation.value.address.value
    ensures status.lastLocation.Some? && (status.lastLocation.value.address.None?
            || status.lastLocation.value.address.value == "") ==>
              r == "Location available"
  {
    match status.lastLocation
    case None => "No location data"
    case Some(loc) =>
      if loc.address.Some? && loc.address.value != "" then loc.address.value else "Location available"
  }

  /** Nothing is rendered without a status; a `lastSeen` of 0 is falsy and shows no recency. */
  function Render(status: Option<ElderStatus>, now: int): (v: Option<View>)
    ensures v.None? <==> status.None?
    ensures v.Some? ==> v.value.locationText == LocationText(status.value)
    ensures v.Some? ==> (v.value.seenText.Some? <==> status.value.lastSeen != 0)
    ensures v.Some? && v.value.seenText.Some? ==>
              v.value.seenText.value == Recency.Text(Recency.Classify(now - status.value.lastSeen))
    ensures v.Some? ==> (v.value.medication.Some? <==> status.value.lastMedicationTaken.Some?)
    ensures v.Some? && v.value.medication.Some? ==>
              v.value.medication.value.name == status.value.lastMedicationTaken.value.name
              && v.value.medication.value.since ==
                   Recency.Text(Recency.Classify(now - status.value.lastMedicationTaken.value.timestamp))
    ensures v.Some? ==> (v.value.chatSince.Some? <==> status.value.lastChatInteraction.Some?)
    ensures v.Some? && v.value.chatSince.Some? ==>
              v.value.chatSince.value ==
                Recency.Text(Recency.Classify(now - status.value.lastChatInteraction.value.timestamp))
  {
    match status
    case None => None
    case Some(s) =>
      Some(View(
        LocationText(s),
        if s.lastSeen != 0 then Some(FormatTimeSince(s.lastSeen, now)) else None,
        match s.lastMedicationTaken
        case None => None
        case Some(m) => Some(MedicationEntry(m.name, FormatTimeSince(m.timestamp, now))),
        match s.lastChatInteraction
        case None => None
        case Some(c) => Some(FormatTimeSince(c.timestamp, now))))
  }
}
