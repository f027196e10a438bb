/** The medication card's derived state (components/MedicationCard.tsx). */
module MedicationCard {
  import opened Types

  datatype CardStatus = Upcoming | TakenStatus | MissedStatus

  datatype PillType = Success | Error | Info

  datatype Pill = Pill(kind: PillType, caption: string)

  /** For now the first schedule entry's time; none when there is no schedule. */
  function NextScheduledTime(medication: Medication): (r: Option<string>)
    ensures r.None? <==> medication.schedule == []
    ensures r.Some? ==> r.value == medication.schedule[0].time
  {
    if |medication.schedule| == 0 then None else Some(medication.schedule[0].time)
  }

  /** The "Next:" line; an empty time string is falsy and hides it. */
  function NextLine(medication: Medication): (r: Option<string>)
    ensures r.Some? <==> medication.schedule != [] && medication.schedule[0].time != ""
    ensures r.Some? ==> r.value == "Next: " + medication.schedule[0].time
  {
    match NextScheduledTime(medication)
    case None => None
    case Some(t) => if t != "" then Some("Next: " + t) else None
  }

  function GetStatus(lastLog: Option<MedicationLog>): (s: CardStatus)
    ensures s == Upcoming <==> lastLog.None?
    ensures s == TakenStatus <==> lastLog.Some? && lastLog.value.status == Taken
    ensures s == MissedStatus <==> lastLog.Some? && lastLog.value.status != Taken
  {
    if lastLog.None? then Upcoming
    else if lastLog.value.status == Taken then TakenStatus
    else MissedStatus
  }

  /** The three guarded pills of the card, in source order. */
  function Pills(status: CardStatus): (r: seq<Pill>)
    ensures |r| == 1
    ensures status == TakenStatus ==> r[0] == Pill(Success, "Taken")
    ensures status == MissedStatus ==> r[0] == Pill(Error, "Missed")
    ensures status == Upcoming ==> r[0] == Pill(Info, "Upcoming")
  {
    (if status == TakenStatus then [Pill(Success, "Taken")] else [])
    + (if status == MissedStatus then [Pill(Error, "Missed")] else [])
    + (if status == Upcoming then [Pill(Info, "Upcoming")] else [])
  }

  /** Different statuses show different pills. */
  lemma PillsDistinguishStatus(a: CardStatus, b: CardStatus)
    ensures Pills(a) == Pills(b) ==> a == b
  {
  }
}
