/**
 * The family dashboard's derived data (app/family/index.tsx): the recent
 * medications list, the "last activity" text, and the status overview.
 * `now` is the reading of `Date.now()`, passed in.
 */
module Dashboard {
  import opened Types
  import opened Numerals
  import Recency

  datatype RecentMed = RecentMed(medication: Medication, log: MedicationLog)

  // ---------------------------------------------------------------------
  // Sorting the logs newest first.
  // ---------------------------------------------------------------------

  ghost predicate NewestFirst(s: seq<MedicationLog>)
  {
    forall i, j :: 0 <= i < j < |s| ==> s[i].timestamp >= s[j].timestamp
  }

  /** Places `x` before the first entry that is not newer than it. */
  function InsertNewest(x: MedicationLog, t: seq<MedicationLog>): (r: seq<MedicationLog>)
    ensures multiset(r) == multiset(t) + multiset{x}
    decreases |t|
  {
    if t == [] || x.timestamp >= t[0].timestamp then [x] + t
    else
      assert t == [t[0]] + t[1..];
      [t[0]] + InsertNewest(x, t[1..])
  }

  lemma {:induction false} InsertKeepsNewestFirst(x: MedicationLog, t: seq<MedicationLog>)
    requires NewestFirst(t)
    ensures NewestFirst(InsertNewest(x, t))
    decreases |t|
  {
    if t != [] && x.timestamp < t[0].timestamp {
      var rest := InsertNewest(x, t[1..]);
      InsertKeepsNewestFirst(x, t[1..]);
      var r := [t[0]] + rest;
      forall j | 0 <= j < |rest|
        ensures t[0].timestamp >= rest[j].timestamp
      {
        assert rest[j] in multiset(rest);
        assert rest[j] == x || rest[j] in multiset(t[1..]);
        if rest[j] != x {
          var m :| 0 <= m < |t[1..]| && t[1..][m] == rest[j];
          assert t[m + 1] == rest[j];
        }
      }
      forall i, j | 0 <= i < j < |r|
        ensures r[i].timestamp >= r[j].timestamp
      {
        if i > 0 {
          assert r[i] == rest[i - 1] && r[j] == rest[j - 1];
        } else {
          assert r[j] == rest[j - 1];
        }
      }
    }
  }

  /**
   * Sorting a copy of the logs by descending timestamp. The sort is stable,
   * so logs with equal timestamps keep their input order.
   */
  function SortNewestFirst(logs: seq<MedicationLog>): (r: seq<MedicationLog>)
    ensures multiset(r) == multiset(logs)
    ensures NewestFirst(r)
    decreases |logs|
  {
    if logs == [] then []
    else
      assert logs == [logs[0]] + logs[1..];
      InsertKeepsNewestFirst(logs[0], SortNewestFirst(logs[1..]));
      InsertNewest(logs[0], SortNewestFirst(logs[1..]))
  }

  /** The 24-hour filter: keeps, in order, the logs strictly newer than `cutoff`. */
  function KeepNewerThan(s: seq<MedicationLog>, cutoff: int): (r: seq<MedicationLog>)
    ensures |r| <= |s|
    ensures forall x :: x in r <==> x in s && x.timestamp > cutoff
    decreases |s|
  {
    if s == [] then []
    else if s[0].timestamp > cutoff then [s[0]] + KeepNewerThan(s[1..], cutoff)
    else KeepNewerThan(s[1..], cutoff)
  }

  // ---------------------------------------------------------------------
  // The reference: the newest recent log per medication.
  // ---------------------------------------------------------------------

  predicate Qualifies(l: MedicationLog, id: string, cutoff: int)
  {
    l.medicationId == id && l.timestamp > cutoff
  }

  /**
   * Index in the INPUT list of the newest log of medication `id` newer than
   * `cutoff`; of several equally new ones, the earliest. -1 if there is none.
   */
  function NewestIndex(logs: seq<MedicationLog>, id: string, cutoff: int): (k: int)
    ensures -1 <= k < |logs|
    decreases |logs|
  {
    if logs == [] then -1
    else
      var k := NewestIndex(logs[1..], id, cutoff);
      if Qualifies(logs[0], id, cutoff) && (k < 0 || logs[0].timestamp >= logs[1..][k].timestamp) then 0
      else if k < 0 then -1
      else k + 1
  }

  lemma {:induction false} NewestIndexIsNewest(logs: seq<MedicationLog>, id: string, cutoff: int)
    ensures var k := NewestIndex(logs, id, cutoff);
            && -1 <= k < |logs|
            && (k < 0 <==> forall j :: 0 <= j < |logs| ==> !Qualifies(logs[j], id, cutoff))
            && (k >= 0 ==> Qualifies(logs[k], id, cutoff))
            && (k >= 0 ==> forall j :: 0 <= j < |logs| && Qualifies(logs[j], id, cutoff) ==>
                             logs[j].timestamp <= logs[k].timestamp)
            && (k >= 0 ==> forall j :: 0 <= j < k && Qualifies(logs[j], id, cutoff) ==>
                             logs[j].timestamp < logs[k].timestamp)
    decreases |logs|
  {
    if logs != [] {
      NewestIndexIsNewest(logs[1..], id, cutoff);
      var k' := NewestIndex(logs[1..], id, cutoff);
      var k := NewestIndex(logs, id, cutoff);
      forall j | 1 <= j < |logs|
        ensures logs[j] == logs[1..][j - 1]
      {
      }
      if k > 0 {
        assert k == k' + 1;
        assert logs[k] == logs[1..][k'];
      }
    }
  }

  function Newest(logs: seq<MedicationLog>, id: string, cutoff: int): Option<MedicationLog>
  {
    var k := NewestIndex(logs, id, cutoff);
    if 0 <= k < |logs| then Some(logs[k]) else None
  }

  /**
   * What the dashboard lists: each medication, in the order of `meds`, that
   * has a log in the last 24 hours, paired with its newest such log.
   */
  function RecentMedications(meds: seq<Medication>, logs: seq<MedicationLog>, now: int): seq<RecentMed>
    decreases |meds|
  {
    if meds == [] then []
    else
      var n := Newest(logs, meds[0].id, now - Recency.DayMs);
      (if n.Some? then [RecentMed(meds[0], n.value)] else []) + RecentMedications(meds[1..], logs, now)
  }

  // ---------------------------------------------------------------------
  // The source's pipeline: sort, filter, first-seen map, filter/map.
  // ---------------------------------------------------------------------

  /** First log of medication `id` in `s`. */
  function FirstFor(s: seq<MedicationLog>, id: string): Option<MedicationLog>
    decreases |s|
  {
    if s == [] then None
    else if s[0].medicationId == id then Some(s[0])
    else FirstFor(s[1..], id)
  }

  function Lookup(m: map<string, MedicationLog>, id: string): Option<MedicationLog>
  {
    if id in m then Some(m[id]) else None
  }

  /**
   * The final step over the medication list: medications with an entry in
   * `medMap` are kept in order and paired with that entry.
   */
  function PairWithLogs(meds: seq<Medication>, medMap: map<string, MedicationLog>): (r: seq<RecentMed>)
    ensures |r| <= |meds|
    ensures forall p :: p in r ==>
              p.medication in meds && p.medication.id in medMap && p.log == medMap[p.medication.id]
    ensures forall m :: m in meds && m.id in medMap ==> RecentMed(m, medMap[m.id]) in r
    decreases |meds|
  {
    if meds == [] then []
    else
      (if meds[0].id in medMap then [RecentMed(meds[0], medMap[meds[0].id])] else [])
        + PairWithLogs(meds[1..], medMap)
  }

  method ProcessRecentMedications(meds: seq<Medication>, logs: seq<MedicationLog>, now: int)
    returns (recent: seq<RecentMed>)
    ensures recent == RecentMedications(meds, logs, now)
  {
    var sortedLogs := SortNewestFirst(logs);
    var oneDayAgo := now - Recency.DayMs;
    var recentLogs := KeepNewerThan(sortedLogs, oneDayAgo);
    var medMap := LatestPerMedication(recentLogs);
    forall id
      ensures Lookup(medMap, id) == Newest(logs, id, oneDayAgo)
    {
      FirstOfKept(sortedLogs, id, oneDayAgo);
      SortedFirstIsNewest(logs, id, oneDayAgo);
    }
    PairWithNewest(meds, medMap, logs, now);
    recent := PairWithLogs(meds, medMap);
  }

  /** The `forEach` that fills `medMap`: the first log seen for an id wins. */
  method LatestPerMedication(recentLogs: seq<MedicationLog>) returns (medMap: map<string, MedicationLog>)
    ensures forall id :: Lookup(medMap, id) == FirstFor(recentLogs, id)
  {
    medMap := map[];
    var i := 0;
    while i < |recentLogs|
      invariant 0 <= i <= |recentLogs|
      invariant forall id :: Lookup(medMap, id) == FirstFor(recentLogs[..i], id)
    {
      var log := recentLogs[i];
      assert recentLogs[..i + 1] == recentLogs[..i] + [log];
      ghost var before := medMap;
      if log.medicationId !in medMap {
        medMap := medMap[log.medicationId := log];
      }
      forall id
        ensures Lookup(medMap, id) == FirstFor(recentLogs[..i + 1], id)
      {
        FirstForSnoc(recentLogs[..i], log, id);
      }
      i := i + 1;
    }
    assert recentLogs[..i] == recentLogs;
  }

  lemma {:induction false} FirstForSnoc(s: seq<MedicationLog>, x: MedicationLog, id: string)
    ensures FirstFor(s + [x], id) ==
              if FirstFor(s, id).Some? then FirstFor(s, id)
              else if x.medicationId == id then Some(x) else None
    decreases |s|
  {
    if s == [] {
      assert s + [x] == [x];
    } else {
      assert (s + [x])[1..] == s[1..] + [x];
      FirstForSnoc(s[1..], x, id);
    }
  }

  /** The first-seen log after the filter is the first qualifying one before it. */
  function FirstQualifying(s: seq<MedicationLog>, id: string, cutoff: int): Option<MedicationLog>
    decreases |s|
  {
    if s == [] then None
    else if Qualifies(s[0], id, cutoff) then Some(s[0])
    else FirstQualifying(s[1..], id, cutoff)
  }

  lemma {:induction false} FirstOfKept(s: seq<MedicationLog>, id: string, cutoff: int)
    ensures FirstFor(KeepNewerThan(s, cutoff), id) == FirstQualifying(s, id, cutoff)
    decreases |s|
  {
    if s != [] {
      FirstOfKept(s[1..], id, cutoff);
    }
  }

  lemma {:induction false} FirstQualifyingIn(s: seq<MedicationLog>, id: string, cutoff: int)
    ensures FirstQualifying(s, id, cutoff).Some? ==>
              FirstQualifying(s, id, cutoff).value in s
              && Qualifies(FirstQualifying(s, id, cutoff).value, id, cutoff)
    decreases |s|
  {
    if s != [] {
      FirstQualifyingIn(s[1..], id, cutoff);
    }
  }

  /** Inserting one log into a newest-first list changes the first qualifying log only if it wins. */
  lemma {:induction false} FirstQualifyingInsert(x: MedicationLog, t: seq<MedicationLog>, id: string, cutoff: int)
    requires NewestFirst(t)
    ensures var f := FirstQualifying(t, id, cutoff);
            FirstQualifying(InsertNewest(x, t), id, cutoff) ==
              if Qualifies(x, id, cutoff) && (f.None? || x.timestamp >= f.value.timestamp) then Some(x) else f
    decreases |t|
  {
    var f := FirstQualifying(t, id, cutoff);
    if t == [] || x.timestamp >= t[0].timestamp {
      FirstQualifyingIn(t, id, cutoff);
      if f.Some? {
        var j :| 0 <= j < |t| && t[j] == f.value;
        assert t[0].timestamp >= t[j].timestamp;
      }
      assert InsertNewest(x, t) == [x] + t;
      assert ([x] + t)[1..] == t;
    } else {
      assert InsertNewest(x, t) == [t[0]] + InsertNewest(x, t[1..]);
      FirstQualifyingInsert(x, t[1..], id, cutoff);
    }
  }

  /**
   * Stability is what makes the first-seen-wins scan pick the earliest of
   * equally new logs: scanning the sorted list finds exactly Newest.
   */
  lemma {:induction false} SortedFirstIsNewest(logs: seq<MedicationLog>, id: string, cutoff: int)
    ensures FirstQualifying(SortNewestFirst(logs), id, cutoff) == Newest(logs, id, cutoff)
    decreases |logs|
  {
    if logs != [] {
      SortedFirstIsNewest(logs[1..], id, cutoff);
      FirstQualifyingInsert(logs[0], SortNewestFirst(logs[1..]), id, cutoff);
      NewestIndexIsNewest(logs[1..], id, cutoff);
    }
  }

  lemma {:induction false} PairWithNewest(meds: seq<Medication>, medMap: map<string, MedicationLog>,
                                          logs: seq<MedicationLog>, now: int)
    requires forall id :: Lookup(medMap, id) == Newest(logs, id, now - Recency.DayMs)
    ensures PairWithLogs(meds, medMap) == RecentMedications(meds, logs, now)
    decreases |meds|
  {
    if meds != [] {
      assert Lookup(medMap, meds[0].id) == Newest(logs, meds[0].id, now - Recency.DayMs);
      PairWithNewest(meds[1..], medMap, logs, now);
    }
  }

  // ---------------------------------------------------------------------
  // Properties of the recent medications list.
  // ---------------------------------------------------------------------

  /**
   * Every listed pair is a medication from `meds` with its newest log of the
   * last 24 hours: same medication id, strictly newer than `now - Recency.DayMs`, no
   * qualifying log newer, and no equally new one earlier in `logs`.
   */
  lemma {:induction false} RecentMedicationsSound(meds: seq<Medication>, logs: seq<MedicationLog>, now: int, k: int)
    requires 0 <= k < |RecentMedications(meds, logs, now)|
    ensures var p := RecentMedications(meds, logs, now)[k];
            && p.medication in meds
            && p.log in logs
            && p.log.medicationId == p.medication.id
            && p.log.timestamp > now - Recency.DayMs
            && Newest(logs, p.medication.id, now - Recency.DayMs) == Some(p.log)
            && (forall j :: (0 <= j < |logs| && logs[j].medicationId == p.medication.id
                                && logs[j].timestamp > now - Recency.DayMs) ==> logs[j].timestamp <= p.log.timestamp)
    decreases |meds|
  {
    var r := RecentMedications(meds, logs, now);
    var n := Newest(logs, meds[0].id, now - Recency.DayMs);
    var head := if n.Some? then [RecentMed(meds[0], n.value)] else [];
    var tail := RecentMedications(meds[1..], logs, now);
    assert r == head + tail;
    if k < |head| {
      NewestIndexIsNewest(logs, meds[0].id, now - Recency.DayMs);
    } else {
      RecentMedicationsSound(meds[1..], logs, now, k - |head|);
      assert r[k] == tail[k - |head|];
    }
  }

  /** A medication with a log in the last 24 hours is listed. */
  lemma {:induction false} RecentMedicationsComplete(meds: seq<Medication>, logs: seq<MedicationLog>, now: int, i: int, j: int)
    requires 0 <= i < |meds| && 0 <= j < |logs|
    requires logs[j].medicationId == meds[i].id && logs[j].timestamp > now - Recency.DayMs
    ensures exists k :: 0 <= k < |RecentMedications(meds, logs, now)| &&
              RecentMedications(meds, logs, now)[k].medication == meds[i]
    decreases |meds|
  {
    var r := RecentMedications(meds, logs, now);
    var n := Newest(logs, meds[0].id, now - Recency.DayMs);
    var head := if n.Some? then [RecentMed(meds[0], n.value)] else [];
    var tail := RecentMedications(meds[1..], logs, now);
    assert r == head + tail;
    if i == 0 {
      NewestIndexIsNewest(logs, meds[0].id, now - Recency.DayMs);
      assert r[0].medication == meds[0];
    } else {
      RecentMedicationsComplete(meds[1..], logs, now, i - 1, j);
      var k :| 0 <= k < |tail| && tail[k].medication == meds[1..][i - 1];
      assert r[|head| + k] == tail[k];
    }
  }

  /** The list follows `meds`: it distributes over concatenation of the medication list. */
  lemma {:induction false} RecentMedicationsAppend(m1: seq<Medication>, m2: seq<Medication>, logs: seq<MedicationLog>, now: int)
    ensures RecentMedications(m1 + m2, logs, now) == RecentMedications(m1, logs, now) + RecentMedications(m2, logs, now)
    decreases |m1|
  {
    if m1 == [] {
      assert m1 + m2 == m2;
    } else {
      assert (m1 + m2)[1..] == m1[1..] + m2;
      RecentMedicationsAppend(m1[1..], m2, logs, now);
    }
  }

  ghost predicate DistinctMedications(r: seq<RecentMed>)
  {
    forall i, j :: 0 <= i < j < |r| ==> r[i].medication.id != r[j].medication.id
  }

  /** A medication is listed at most once when medication ids are distinct. */
  lemma {:induction false} RecentMedicationsDistinct(meds: seq<Medication>, logs: seq<MedicationLog>, now: int)
    requires forall i, j :: 0 <= i < j < |meds| ==> meds[i].id != meds[j].id
    ensures DistinctMedications(RecentMedications(meds, logs, now))
    decreases |meds|
  {
    if meds != [] {
      var r := RecentMedications(meds, logs, now);
      var n := Newest(logs, meds[0].id, now - Recency.DayMs);
      var head := if n.Some? then [RecentMed(meds[0], n.value)] else [];
      var tail := RecentMedications(meds[1..], logs, now);
      assert r == head + tail;
      RecentMedicationsDistinct(meds[1..], logs, now);
      forall k | 0 <= k < |tail|
        ensures tail[k].medication.id != meds[0].id
      {
        RecentMedicationsSound(meds[1..], logs, now, k);
        var m := tail[k].medication;
        var i :| 0 <= i < |meds[1..]| && meds[1..][i] == m;
        assert meds[i + 1] == m;
      }
      forall i, j | 0 <= i < j < |r|
        ensures r[i].medication.id != r[j].medication.id
      {
        if i < |head| {
          assert r[i] == head[0] && head[0].medication == meds[0];
          assert r[j] == tail[j - |head|];
          assert tail[j - |head|].medication.id != meds[0].id;
        } else {
          assert r[i] == tail[i - |head|] && r[j] == tail[j - |head|];
          assert 0 <= i - |head| < j - |head| < |tail|;
          assert tail[i - |head|].medication.id != tail[j - |head|].medication.id;
        }
      }
    }
  }

  // ---------------------------------------------------------------------
  // Texts.
  // ---------------------------------------------------------------------

  /** `formatLastSeen`: whole minutes first, then hours and days from the minutes. */
  function FormatLastSeen(timestamp: int, now: int): (r: string)
    ensures r == Recency.Text(Recency.Classify(now - timestamp))
    ensures timestamp > now ==> r == "Just now"
  {
    var diffMinutes := (now - timestamp) / 60000;
    if diffMinutes < 1 then "Just now"
    else if diffMinutes < 60 then NatToString(diffMinutes) + "m ago"
    else if diffMinutes < 1440 then NatToString(diffMinutes / 60) + "h ago"
    else NatToString(diffMinutes / 1440) + "d ago"
  }

  /** The "Activity" cell of the overview. */
  function ActivityText(status: Option<ElderStatus>, now: int): (r: string)
    ensures status.None? ==> r == "Unknown"
    ensures status.Some? ==> r == Recency.Text(Recency.Classify(now - status.value.lastSeen))
  {
    if status.Some? then FormatLastSeen(status.value.lastSeen, now) else "Unknown"
  }

  /** The "Location" cell: an absent or empty address reads "Unknown location". */
  function LocationText(status: Option<ElderStatus>): (r: string)
    ensures r != ""
    ensures r == "Unknown location" || (status.Some? && status.value.lastLocation.Some?
              && status.value.lastLocation.value.address == Some(r))
    ensures (status.Some? && status.value.lastLocation.Some? && status.value.lastLocation.value.address.Some?
              && status.value.lastLocation.value.address.value != "") ==>
              r == status.value.lastLocation.value.address.value
  {
    if status.Some? && status.value.lastLocation.Some? && status.value.lastLocation.value.address.Some?
       && status.value.lastLocation.value.address.value != ""
    then status.value.lastLocation.value.address.value
    else "Unknown location"
  }

  /** The "Medication" cell and, under it, how long ago that dose was taken. */
  function MedicationText(status: Option<ElderStatus>): (r: string)
    ensures (status.Some? && status.value.lastMedicationTaken.Some?) ==>
              r == status.value.lastMedicationTaken.value.name + " taken"
    ensures !(status.Some? && status.value.lastMedicationTaken.Some?) ==> r == "No recent medication"
  {
    if status.Some? && status.value.lastMedicationTaken.Some?
    then status.value.lastMedicationTaken.value.name + " taken"
    else "No recent medication"
  }

  function MedicationCaption(status: Option<ElderStatus>, now: int): (r: Option<string>)
    ensures r.Some? <==> status.Some? && status.value.lastMedicationTaken.Some?
    ensures r.Some? ==> r.value == Recency.Text(Recency.Classify(now - status.value.lastMedicationTaken.value.timestamp))
  {
    if status.Some? && status.value.lastMedicationTaken.Some?
    then Some(FormatLastSeen(status.value.lastMedicationTaken.value.timestamp, now))
    else None
  }

  lemma FiveMinutesAgo(now: int)
    ensures FormatLastSeen(now - 5 * 60000, now) == "5m ago"
  {
    assert NatToString(5) == "5";
  }
}
