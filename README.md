# ElderAid record logic in Dafny

ElderAid is a mobile app for elderly care: medication reminders, an emergency
contact list, a chat assistant, a photo memories gallery and a family dashboard
that shows the elder's last known status. Under its screens sits a small layer
of list and record logic, and this project models that layer and proves its
properties:

- **The local collection store** (`utils/storage.ts`). Each collection is read
  whole, changed in memory and written back. `Storage.Store` has one slot per
  storage key. A slot holding `None` is a key that was never written, and it
  reads as the empty list. The methods upsert by id, delete by id, append, and
  upsert an emergency contact so that a new primary demotes every other id.
  They also shallow-merge the elder status, always refreshing `lastSeen`. Each
  method's `modifies` frame names the one slot it writes, so nothing else can
  change.
- **The family dashboard** (`app/family/index.tsx`). "Recent medications" is
  modelled as the source computes it: a stable newest-first sort, the 24-hour
  filter, a first-seen-wins map loop, and a final filter/map over the
  medication list. It is proved equal to a reference definition:
  `Dashboard.RecentMedications` pairs each medication with `Newest`, its
  newest log of the last 24 hours, where equal timestamps go to the earliest
  log in input order. Two texts are proved equal to a millisecond-based
  reference bucketing (`Recency.Classify`/`Recency.Text`): the overview's
  Activity cell and the caption under the last medication.
- **The status bar** (`components/StatusBar.tsx`): the same four-bucket rule,
  the location text, and which rows appear.
- **The medication card** (`components/MedicationCard.tsx`): the next time,
  the status and the single status pill.
- **The settings screen** (`app/family/settings.tsx`): form validation through
  `trim()`, building the new contact (the first contact is primary),
  set-primary, single-key preference update, the form reset and the default
  preferences.
  `Settings.SettingsScreen` holds the screen's state and writes through a
  `Storage.Store`.

`Date.now()` is a parameter `now` everywhere. Timestamps are whole epoch
milliseconds. JavaScript's `Math.floor(x / 60000)` is Dafny's `x / 60000`,
because Euclidean and floor division agree for a positive divisor.

Three behaviours of the code are easy to miss:
- Setting a primary contact whose id is not stored does not fail:
  `addEmergencyContact` upserts, so the contact is appended.
- A future timestamp (negative elapsed time) is formatted as "Just now".
- The sole-primary guarantee holds only when the stored contact ids are
  distinct (`Storage.PrimaryIsSole`). A second stored entry with the new
  contact's id is neither demoted nor replaced.

## Model

| member | source | states |
|---|---|---|
| Storage.IndexOf | utils/storage.ts:46 | the result is -1 exactly when no entry has the id, and otherwise the first index holding it |
| Storage.FindIndex | utils/storage.ts:135 | the search loop returns the first index with the id, or -1 |
| Storage.Upsert | utils/storage.ts:48-52 | an existing id: the first match is replaced, the length is kept and every other index is unchanged; a new id: the entry is appended after the untouched prefix |
| Storage.UpsertThenFind | utils/storage.ts:44-54 | after a save, looking the id up finds exactly the saved entry |
| Storage.UpsertIdempotent | utils/storage.ts:44-54 | saving the same entry twice equals saving it once |
| Storage.RemoveId | utils/storage.ts:57-61 | no survivor carries the deleted id, and the list never grows |
| Storage.RemoveIdAppend | utils/storage.ts:108-112 | deleting distributes over concatenation, so survivors keep their relative order |
| Storage.RemoveIdMembers | utils/storage.ts:146-150 | an entry survives exactly when it was present and carries another id |
| Storage.RemoveAbsentId | utils/storage.ts:59 | deleting an absent id leaves the list unchanged |
| Storage.RemoveAfterUpsert | utils/storage.ts:44-61 | deleting an id undoes any save of an entry with that id |
| Storage.AddContactShape | utils/storage.ts:123-141 | the contact replaces the first match or is appended; other contacts keep every field but `isPrimary`, which is cleared exactly when the new contact is primary and has another id |
| Storage.PrimaryDemotesOthers | utils/storage.ts:127-133 | with a primary incoming contact, the contact is stored and no contact with another id stays primary |
| Storage.NonPrimaryKeepsOthers | utils/storage.ts:127 | a non-primary contact is a plain upsert, so no other flag changes |
| Storage.AddContactKeepsUniqueIds | utils/storage.ts:135-141 | distinct ids stay distinct after the contact upsert |
| Storage.PrimaryIsSole | utils/storage.ts:126-141 | with distinct ids, the new primary contact is the one and only primary afterwards |
| Storage.ClearOtherPrimaries | utils/storage.ts:127-133 | the list keeps its length, each contact keeps every field, and only contacts carrying the kept id may stay primary |
| Storage.AddContact | utils/storage.ts:123-143 | the contact replaces the first entry with its id or is appended; every contact with another id keeps its fields and stays primary only if the new contact is not primary |
| Storage.NonPrimaryKeepsAtMostOne | utils/storage.ts:123-143 | saving a non-primary contact keeps at most one primary in the list |
| Storage.PrimaryKeepsAtMostOne | utils/storage.ts:123-143 | saving a primary contact on a list with distinct ids keeps at most one primary |
| Storage.RemoveKeepsAtMostOne | utils/storage.ts:146-150 | deleting a contact keeps at most one primary in the list |
| Storage.MergeStatus | utils/storage.ts:161-164 | `lastSeen` is `now` whatever the patch says; each field the patch carries overwrites whole; absent fields keep the previous value, or are absent when there was no status |
| Storage.MergeTwice | utils/storage.ts:163 | two merges in a row equal one merge of the field-wise last-write-wins patch, stamped with the later time |
| Storage.MergeEmptyPatch | utils/storage.ts:162 | an empty patch only refreshes `lastSeen`; with no previous status it yields `{lastSeen: now}` |
| Storage.ReadList | utils/storage.ts:40-42 | a collection never written reads as the empty list; a written one reads as written |
| Storage.Store.constructor | utils/storage.ts:25-121 | on a fresh store every collection reads empty and there is no status and no preferences: a missing key reads as null (lines 25-33) and every collection getter defaults to the empty list (lines 40-42, 68-70, 83-85, 98-100, 119-121) |
| Storage.Store.SaveMedication | utils/storage.ts:44-55 | the medications become `Upsert` of the previous list; only the medications slot may change |
| Storage.Store.DeleteMedication | utils/storage.ts:57-61 | the medications become `RemoveId` of the previous list |
| Storage.Store.AddMedicationLog | utils/storage.ts:72-76 | the log list is the previous one plus the log at the end |
| Storage.Store.AddChatMessage | utils/storage.ts:87-91 | the message list is the previous one plus the message at the end |
| Storage.Store.AddMemory | utils/storage.ts:102-106 | the memory list is the previous one plus the memory at the end |
| Storage.Store.DeleteMemory | utils/storage.ts:108-112 | the memories become `RemoveId` of the previous list |
| Storage.Store.AddEmergencyContact | utils/storage.ts:123-144 | the in-place demotion loop and upsert leave exactly `AddContact` of the previous list |
| Storage.Store.DeleteEmergencyContact | utils/storage.ts:146-150 | the contacts become `RemoveId` of the previous list |
| Storage.Store.UpdateElderStatus | utils/storage.ts:161-165 | the status becomes `MergeStatus` of the previous status, the patch and `now` |
| Storage.Store.GetUserPreferences | utils/storage.ts:168-170 | returns the stored preferences, or none when never saved |
| Storage.Store.SaveUserPreferences | utils/storage.ts:172-174 | the stored preferences become the given record |
| Numerals.NatToString | app/family/index.tsx:85 | the decimal text of a count is non-empty, all digits, with no leading zero |
| Recency.ClassifyCounts | app/family/index.tsx:82-90 | a shown minute count is 1..59, an hour count 1..23 and a day count at least 1 |
| Recency.ClassifyMonotone | components/StatusBar.tsx:24-32 | as elapsed time grows, the bucket moves only from just now to minutes, hours and days, and within a bucket the count never falls |
| Recency.TextInjective | app/family/index.tsx:82-90 | different buckets or counts never render the same text |
| Dashboard.InsertNewest | app/family/index.tsx:53 | the sort's insertion step adds exactly the one log to the multiset of logs |
| Dashboard.KeepNewerThan | app/family/index.tsx:56-57 | a log is kept exactly when it is strictly newer than the cutoff, and the list never grows |
| Dashboard.PairWithLogs | app/family/index.tsx:68-73 | every pair is a listed medication with its map entry, and every listed medication with an entry is paired with it |
| Dashboard.SortNewestFirst | app/family/index.tsx:53 | the sorted logs are a permutation of the input, newest first |
| Dashboard.NewestIndexIsNewest | app/family/index.tsx:53-65 | the reference index is -1 exactly when no log of the id is recent; otherwise its log is recent, no recent log of the id is newer, and every earlier one is strictly older |
| Dashboard.SortedFirstIsNewest | app/family/index.tsx:53-65 | the first qualifying log of the stably sorted list is the reference `Newest` of the input, ties going to the earliest log |
| Dashboard.LatestPerMedication | app/family/index.tsx:60-65 | the first-seen-wins loop maps each id to its first log in the filtered list |
| Dashboard.FirstOfKept | app/family/index.tsx:57 | the first log of an id after the 24-hour filter is the first qualifying one before it |
| Dashboard.PairWithNewest | app/family/index.tsx:68-73 | the final filter/map over a map holding `Newest` yields `RecentMedications` |
| Dashboard.ProcessRecentMedications | app/family/index.tsx:51-76 | sort, filter, map loop and filter/map yield exactly `RecentMedications(meds, logs, now)` |
| Dashboard.RecentMedicationsSound | app/family/index.tsx:56-73 | each listed pair holds a medication from the list and a log from the input with that medication's id, newer than `now - 86400000`, and newest among its recent logs |
| Dashboard.RecentMedicationsComplete | app/family/index.tsx:68-69 | a medication with a log in the last 24 hours is listed |
| Dashboard.RecentMedicationsAppend | app/family/index.tsx:68-69 | the list follows the medication order, since it distributes over concatenation of the medications |
| Dashboard.RecentMedicationsDistinct | app/family/index.tsx:60-73 | with distinct medication ids, no medication is listed twice |
| Dashboard.FormatLastSeen | app/family/index.tsx:78-91 | the minute-based text equals the millisecond-based reference bucketing, and a future timestamp reads "Just now" |
| Dashboard.ActivityText | app/family/index.tsx:145 | "Unknown" without a status, else the last-seen text |
| Dashboard.LocationText | app/family/index.tsx:155 | a non-empty address is shown; a missing status, location or address, or an empty address, reads "Unknown location" |
| Dashboard.MedicationText | app/family/index.tsx:165-167 | "{name} taken" when a last medication exists, else "No recent medication" |
| Dashboard.MedicationCaption | app/family/index.tsx:169-173 | the time-since caption appears exactly when a last medication exists |
| Dashboard.FiveMinutesAgo | app/family/index.tsx:84-85 | five minutes ago reads "5m ago" |
| StatusBar.FormatTimeSince | components/StatusBar.tsx:19-33 | the same reference bucketing as the dashboard; a future timestamp reads "Just now" |
| StatusBar.LocationText | components/StatusBar.tsx:40-42 | no location: "No location data"; a non-empty address: the address; otherwise "Location available" |
| StatusBar.Render | components/StatusBar.tsx:13-71 | nothing without a status; recency only when `lastSeen` is not 0; the medication and chat rows exactly when their records exist, with the reference time texts |
| MedicationCard.NextScheduledTime | components/MedicationCard.tsx:19-26 | none exactly for an empty schedule, else the first entry's time |
| MedicationCard.NextLine | components/MedicationCard.tsx:59-66 | the "Next:" line appears exactly when a non-empty next time exists |
| MedicationCard.GetStatus | components/MedicationCard.tsx:31-35 | upcoming exactly without a log, taken exactly for a taken log, missed otherwise |
| MedicationCard.Pills | components/MedicationCard.tsx:69-88 | exactly one pill: taken is success/"Taken", missed is error/"Missed", upcoming is info/"Upcoming" |
| MedicationCard.PillsDistinguishStatus | components/MedicationCard.tsx:70-87 | different statuses show different pills |
| Settings.Trim | app/family/settings.tsx:73 | the result is the input with its leading and trailing whitespace removed: a slice of the input with only whitespace before and after it, and neither end of it is whitespace |
| Settings.TrimEmptyIffBlank | app/family/settings.tsx:73 | a string trims to empty exactly when it is all whitespace |
| Settings.ValidContactForm | app/family/settings.tsx:72-76 | the form is accepted exactly when none of name, phone and relationship is blank |
| Settings.NewContact | app/family/settings.tsx:79-85 | the fields are stored untrimmed, and the contact is primary exactly when requested or when the list is empty |
| Settings.FirstContactIsPrimary | app/family/settings.tsx:84 | the first contact saved is primary and the only contact |
| Settings.SetPrimaryIsSole | app/family/settings.tsx:126-128 | set-primary, on distinct ids, leaves that contact as the one primary |
| Settings.WithPreference | app/family/settings.tsx:132-135 | the chosen key takes the new value and every other key keeps its value |
| Settings.DefaultPreferences | app/family/settings.tsx:42-48 | the emergency number is "911", dark mode is off, and every other switch is on |
| Settings.SettingsScreen.constructor | app/family/settings.tsx:40-54 | the default preferences are "911", notifications, location and voice on, and dark mode off; the form is empty and the dialog closed |
| Settings.SettingsScreen.LoadData | app/family/settings.tsx:60-70 | the contacts are reloaded; stored preferences replace the current ones only when present |
| Settings.SettingsScreen.ResetForm | app/family/settings.tsx:98-103 | name, phone and relationship become "" and the primary switch false |
| Settings.SettingsScreen.HandleAddContact | app/family/settings.tsx:72-96 | a blank field changes nothing; otherwise the new contact goes through the contact upsert, the list is reloaded, the form reset and the dialog closed |
| Settings.SettingsScreen.SaveAndClose | app/family/settings.tsx:87-95 | the contact goes through the contact upsert, the list is reloaded, stored preferences replace the current ones when present, the form is reset and the dialog closed |
| Settings.SettingsScreen.HandleDeleteContact | app/family/settings.tsx:105-124 | once confirmed, the contact is deleted by id, the list reloaded, and stored preferences replace the current ones when present; unconfirmed, nothing changes |
| Settings.SettingsScreen.HandleSetPrimaryContact | app/family/settings.tsx:126-130 | the same contact with only `isPrimary` set goes through the contact upsert, then the list is reloaded |
| Settings.SettingsScreen.UpdatePreference | app/family/settings.tsx:132-136 | the preferences become `WithPreference` of the old ones, and the store holds them |

## Left out

- JSON serialisation in AsyncStorage, and the errors `storeData`/`getData` swallow (utils/storage.ts:16-33). Persistence is the store's in-memory slots.
- Asynchrony and races. The dashboard's 60-second polling and overlapping read-modify-write calls on the store are not modelled; each handler runs to completion.
- The clock. `Date.now()` is the parameter `now`, and the two readings inside `updateElderStatus` are taken to coincide.
- Floating point. Timestamps are whole numbers and JavaScript numbers are unbounded integers here. NaN timestamps are not modelled, and neither are the coordinates' values.
- Settings.IsSpace: the model's `Trim` strips only a fixed set of common whitespace code points (space, tab, line breaks, vertical tab, form feed, no-break space, line and paragraph separators, byte-order mark). JavaScript's `trim()` also strips the other Unicode space separators (U+1680, U+2000 to U+200A, U+202F, U+205F, U+3000), which the model treats as ordinary characters.
- Settings.SettingsScreen.UpdatePreference: the source accepts `value: any`; the model requires the value kind that fits the key, as every call site passes.
- StatusBar.Render: with a `lastSeen` of 0, the JSX expression evaluates to the number 0 rather than to no element; the model shows no recency text.
- A schedule absent from stored JSON (`!medication.schedule`) is not represented; the schedule is always a list, and an empty one gives no next time.
- Alerts, navigation, modals' rendering and all styling. The add-contact alert is the `MissingInformation` outcome, and the delete confirmation is the `confirmed` parameter.
- The remote document store, the chat assistant and its HTTP call, notifications scheduling, permissions, location and reverse geocoding, and the emergency call flow are not part of this model (utils/firestoreSetup.ts, utils/elderAI.ts, utils/notifications.ts, utils/permissions.ts, app/emergency.tsx).
- A "today's medications" computation over local midnight is not part of this model, because none of the modelled files computes one.
- Presentation-only components are not part of this model: buttons, text, cards, menus, chat bubbles, memory cards and the status pill's colours.
