/**
 * The local collection store (utils/storage.ts). Every operation reads a
 * whole collection, changes it in memory and writes it back; the model keeps
 * the in-memory step. A slot holding `None` is a key that was never written.
 */
module Storage {
  import opened Types

  // ---------------------------------------------------------------------
  // List logic shared by the collections, keyed by an id projection.
  // ---------------------------------------------------------------------

  /** `Array.prototype.findIndex` on ids: the first index holding `id`, or -1. */
  function IndexOf<T>(s: seq<T>, id: string, idOf: T -> string): (i: int)
    ensures -1 <= i < |s|
    ensures i >= 0 ==> idOf(s[i]) == id && forall j :: 0 <= j < i ==> idOf(s[j]) != id
    ensures i < 0 <==> forall j :: 0 <= j < |s| ==> idOf(s[j]) != id
    decreases |s|
  {
    if s == [] then -1
    else if idOf(s[0]) == id then 0
    else
      var k := IndexOf(s[1..], id, idOf);
      if k < 0 then -1 else k + 1
  }

  /** The in-place search loop of `findIndex`. */
  method FindIndex<T>(s: seq<T>, id: string, idOf: T -> string) returns (i: int)
    ensures i == IndexOf(s, id, idOf)
  {
    i := 0;
    while i < |s|
      invariant 0 <= i <= |s|
      invariant forall j :: 0 <= j < i ==> idOf(s[j]) != id
    {
      if idOf(s[i]) == id {
        return;
      }
      i := i + 1;
    }
    i := -1;
  }

  /** Replace the first entry with the same id, or append when there is none. */
  function Upsert<T>(s: seq<T>, x: T, idOf: T -> string): (r: seq<T>)
    ensures var i := IndexOf(s, idOf(x), idOf);
            if i >= 0 then
              |r| == |s| && r[i] == x && forall j :: 0 <= j < |s| && j != i ==> r[j] == s[j]
            else
              |r| == |s| + 1 && r[..|s|] == s && r[|s|] == x
  {
    var i := IndexOf(s, idOf(x), idOf);
    if i >= 0 then s[i := x] else s + [x]
  }

  /** Deleting by id: every entry carrying `id` is dropped, the rest keep their order. */
  function RemoveId<T>(s: seq<T>, id: string, idOf: T -> string): (r: seq<T>)
    ensures |r| <= |s|
    ensures forall j :: 0 <= j < |r| ==> idOf(r[j]) != id
    decreases |s|
  {
    if s == [] then []
    else if idOf(s[0]) == id then RemoveId(s[1..], id, idOf)
    else [s[0]] + RemoveId(s[1..], id, idOf)
  }

  /** Removing distributes over concatenation: survivors keep their relative order. */
  lemma {:induction false} RemoveIdAppend<T>(a: seq<T>, b: seq<T>, id: string, idOf: T -> string)
    ensures RemoveId(a + b, id, idOf) == RemoveId(a, id, idOf) + RemoveId(b, id, idOf)
    decreases |a|
  {
    if a != [] {
      assert (a + b)[1..] == a[1..] + b;
      RemoveIdAppend(a[1..], b, id, idOf);
    } else {
      assert a + b == b;
    }
  }

  /** An entry survives exactly when it was there and carries another id. */
  lemma {:induction false} RemoveIdMembers<T>(s: seq<T>, id: string, idOf: T -> string, x: T)
    ensures x in RemoveId(s, id, idOf) <==> x in s && idOf(x) != id
    decreases |s|
  {
    if s != [] {
      RemoveIdMembers(s[1..], id, idOf, x);
      assert s == [s[0]] + s[1..];
    }
  }

  /** Deleting an id that is not stored leaves the list as it was. */
  lemma {:induction false} RemoveAbsentId<T>(s: seq<T>, id: string, idOf: T -> string)
    requires forall j :: 0 <= j < |s| ==> idOf(s[j]) != id
    ensures RemoveId(s, id, idOf) == s
    decreases |s|
  {
    if s != [] {
      RemoveAbsentId(s[1..], id, idOf);
    }
  }

  lemma {:induction false} RemoveReplaced<T>(s: seq<T>, i: nat, x: T, idOf: T -> string)
    requires i < |s| && idOf(s[i]) == idOf(x)
    ensures RemoveId(s[i := x], idOf(x), idOf) == RemoveId(s, idOf(x), idOf)
    decreases |s|
  {
    if i > 0 {
      assert s[i := x][1..] == s[1..][i - 1 := x];
      RemoveReplaced(s[1..], i - 1, x, idOf);
    } else {
      assert s[i := x][1..] == s[1..];
    }
  }

  /** Deleting an id undoes any save of an entry with that id. */
  lemma RemoveAfterUpsert<T>(s: seq<T>, x: T, idOf: T -> string)
    ensures RemoveId(Upsert(s, x, idOf), idOf(x), idOf) == RemoveId(s, idOf(x), idOf)
  {
    var i := IndexOf(s, idOf(x), idOf);
    if i >= 0 {
      RemoveReplaced(s, i, x, idOf);
    } else {
      RemoveIdAppend(s, [x], idOf(x), idOf);
      assert RemoveId([x], idOf(x), idOf) == [];
    }
  }

  /** After a save, looking the id up finds exactly the saved entry. */
  lemma UpsertThenFind<T>(s: seq<T>, x: T, idOf: T -> string)
    ensures var r := Upsert(s, x, idOf);
            var k := IndexOf(r, idOf(x), idOf);
            0 <= k < |r| && r[k] == x
  {
  }

  /** Saving the same entry twice is the same as saving it once. */
  lemma UpsertIdempotent<T>(s: seq<T>, x: T, idOf: T -> string)
    ensures Upsert(Upsert(s, x, idOf), x, idOf) == Upsert(s, x, idOf)
  {
  }

  // ---------------------------------------------------------------------
  // Emergency contacts: a primary contact demotes every other id.
  // ---------------------------------------------------------------------

  function Demote(c: EmergencyContact, keepId: string): EmergencyContact
  {
    if c.id != keepId then c.(isPrimary := false) else c
  }

  /** The demotion loop: every contact whose id differs from `keepId` stops being primary. */
  function ClearOtherPrimaries(cs: seq<EmergencyContact>, keepId: string): (r: seq<EmergencyContact>)
    ensures |r| == |cs|
    ensures forall j :: 0 <= j < |cs| ==>
              r[j] == cs[j].(isPrimary := cs[j].isPrimary && cs[j].id == keepId)
    ensures forall j :: 0 <= j < |r| && r[j].isPrimary ==> r[j].id == keepId
  {
    seq(|cs|, j requires 0 <= j < |cs| => Demote(cs[j], keepId))
  }

  /**
   * The list `addEmergencyContact` writes back: the contact replaces the first
   * entry with its id or is appended, and a primary contact demotes every
   * contact with another id.
   */
  function AddContact(cs: seq<EmergencyContact>, c: EmergencyContact): (r: seq<EmergencyContact>)
    ensures var i := IndexOf(cs, c.id, ContactId);
            if i >= 0 then |r| == |cs| && r[i] == c else |r| == |cs| + 1 && r[|cs|] == c
    ensures forall j :: 0 <= j < |cs| && cs[j].id != c.id ==>
              r[j] == cs[j].(isPrimary := cs[j].isPrimary && !c.isPrimary)
  {
    Upsert(if c.isPrimary then ClearOtherPrimaries(cs, c.id) else cs, c, ContactId)
  }

  ghost predicate UniqueIds(cs: seq<EmergencyContact>)
  {
    forall i, j :: 0 <= i < j < |cs| ==> cs[i].id != cs[j].id
  }

  /**
   * The contact lands at the first index with its id, or at the end; every
   * other position keeps its contact, apart from the primary flag, which is
   * cleared exactly when the new contact is primary.
   */
  lemma AddContactShape(cs: seq<EmergencyContact>, c: EmergencyContact)
    ensures var r := AddContact(cs, c);
            var i := IndexOf(cs, c.id, ContactId);
            && (i >= 0 ==> |r| == |cs| && r[i] == c)
            && (i < 0 ==> |r| == |cs| + 1 && r[|cs|] == c)
            && forall j :: 0 <= j < |cs| && j != i ==>
                 r[j] == cs[j].(isPrimary := r[j].isPrimary)
                 && r[j].isPrimary == (cs[j].isPrimary && (!c.isPrimary || cs[j].id == c.id))
  {
  }

  /** A newly set primary leaves no other id primary. */
  lemma PrimaryDemotesOthers(cs: seq<EmergencyContact>, c: EmergencyContact)
    requires c.isPrimary
    ensures var r := AddContact(cs, c);
            c in r && forall j :: 0 <= j < |r| && r[j].id != c.id ==> !r[j].isPrimary
  {
  }

  /** A non-primary contact changes no other contact at all. */
  lemma NonPrimaryKeepsOthers(cs: seq<EmergencyContact>, c: EmergencyContact)
    requires !c.isPrimary
    ensures AddContact(cs, c) == Upsert(cs, c, ContactId)
  {
  }

  lemma AddContactKeepsUniqueIds(cs: seq<EmergencyContact>, c: EmergencyContact)
    requires UniqueIds(cs)
    ensures UniqueIds(AddContact(cs, c))
  {
    AddContactShape(cs, c);
  }

  /** With distinct ids, saving a primary contact leaves it as the one and only primary. */
  lemma PrimaryIsSole(cs: seq<EmergencyContact>, c: EmergencyContact)
    requires UniqueIds(cs) && c.isPrimary
    ensures var r := AddContact(cs, c);
            exists k :: 0 <= k < |r| && r[k] == c && forall j :: 0 <= j < |r| ==> (r[j].isPrimary <==> j == k)
  {
    var r := AddContact(cs, c);
    AddContactShape(cs, c);
    AddContactKeepsUniqueIds(cs, c);
    var i := IndexOf(cs, c.id, ContactId);
    var k := if i >= 0 then i else |cs|;
    assert r[k] == c;
    forall j | 0 <= j < |r|
      ensures r[j].isPrimary <==> j == k
    {
      if j != k {
        assert r[j].id != r[k].id;
      }
    }
  }

  /** No two positions of the contact list are primary. */
  ghost predicate AtMostOnePrimary(cs: seq<EmergencyContact>)
  {
    forall i, j :: 0 <= i < |cs| && 0 <= j < |cs| && cs[i].isPrimary && cs[j].isPrimary ==> i == j
  }

  /** Saving a non-primary contact keeps at most one primary. */
  lemma NonPrimaryKeepsAtMostOne(cs: seq<EmergencyContact>, c: EmergencyContact)
    requires AtMostOnePrimary(cs) && !c.isPrimary
    ensures AtMostOnePrimary(AddContact(cs, c))
  {
    AddContactShape(cs, c);
  }

  /** Saving a primary contact on a list with distinct ids keeps at most one primary. */
  lemma PrimaryKeepsAtMostOne(cs: seq<EmergencyContact>, c: EmergencyContact)
    requires UniqueIds(cs) && c.isPrimary
    ensures AtMostOnePrimary(AddContact(cs, c))
  {
    PrimaryIsSole(cs, c);
  }

  /** Deleting a contact keeps at most one primary. */
  lemma {:induction false} RemoveKeepsAtMostOne(cs: seq<EmergencyContact>, id: string)
    requires AtMostOnePrimary(cs)
    ensures AtMostOnePrimary(RemoveId(cs, id, ContactId))
    decreases |cs|
  {
    if cs != [] {
      var rest := RemoveId(cs[1..], id, ContactId);
      RemoveKeepsAtMostOne(cs[1..], id);
      if cs[0].isPrimary {
        forall j | 0 <= j < |rest|
          ensures !rest[j].isPrimary
        {
          RemoveIdMembers(cs[1..], id, ContactId, rest[j]);
          var k :| 0 <= k < |cs[1..]| && cs[1..][k] == rest[j];
          assert cs[k + 1] == rest[j];
        }
      }
    }
  }

  // ---------------------------------------------------------------------
  // Elder status: shallow merge that always refreshes lastSeen.
  // ---------------------------------------------------------------------

  function Override<T>(patched: Option<T>, previous: Option<T>): Option<T>
  {
    if patched.Some? then patched else previous
  }

  /**
   * The shallow status merge: each field the patch carries overwrites the
   * stored one, the others are kept, and `lastSeen` becomes `now`; with no
   * stored status the merge starts from a status holding only `lastSeen`.
   */
  function MergeStatus(current: Option<ElderStatus>, patch: StatusPatch, now: int): (r: ElderStatus)
    ensures r.lastSeen == now
    ensures patch.lastLocation.Some? ==> r.lastLocation == patch.lastLocation
    ensures patch.lastMedicationTaken.Some? ==> r.lastMedicationTaken == patch.lastMedicationTaken
    ensures patch.lastChatInteraction.Some? ==> r.lastChatInteraction == patch.lastChatInteraction
    ensures patch.lastLocation.None? ==>
              r.lastLocation == (if current.Some? then current.value.lastLocation else None)
    ensures patch.lastMedicationTaken.None? ==>
              r.lastMedicationTaken == (if current.Some? then current.value.lastMedicationTaken else None)
    ensures patch.lastChatInteraction.None? ==>
              r.lastChatInteraction == (if current.Some? then current.value.lastChatInteraction else None)
  {
    var base := if current.Some? then current.value else ElderStatus(now, None, None, None);
    ElderStatus(
      now,
      Override(patch.lastLocation, base.lastLocation),
      Override(patch.lastMedicationTaken, base.lastMedicationTaken),
      Override(patch.lastChatInteraction, base.lastChatInteraction))
  }

  /** Last write wins per field: the patch a later merge brings on top of an earlier one. */
  function Combine(first: StatusPatch, second: StatusPatch): StatusPatch
  {
    StatusPatch(
      Override(second.lastSeen, first.lastSeen),
      Override(second.lastLocation, first.lastLocation),
      Override(second.lastMedicationTaken, first.lastMedicationTaken),
      Override(second.lastChatInteraction, first.lastChatInteraction))
  }

  /** Two merges in a row equal one merge of the combined patch, stamped with the later time. */
  lemma MergeTwice(current: Option<ElderStatus>, p1: StatusPatch, t1: int, p2: StatusPatch, t2: int)
    ensures MergeStatus(Some(MergeStatus(current, p1, t1)), p2, t2) == MergeStatus(current, Combine(p1, p2), t2)
  {
  }

  /** An empty patch only refreshes `lastSeen`; with no previous status the result holds `lastSeen` alone. */
  lemma MergeEmptyPatch(current: Option<ElderStatus>, now: int)
    ensures var empty := StatusPatch(None, None, None, None);
            MergeStatus(current, empty, now) ==
              if current.Some? then current.value.(lastSeen := now) else ElderStatus(now, None, None, None)
  {
  }

  // ---------------------------------------------------------------------
  // The store: one slot per AsyncStorage key.
  // ---------------------------------------------------------------------

  /** A collection whose key was never written reads as the empty list. */
  function ReadList<T>(slot: Option<seq<T>>): (r: seq<T>)
    ensures slot.None? ==> r == []
    ensures slot.Some? ==> r == slot.value
  {
    if slot.Some? then slot.value else []
  }

  class Store {
    var medicationsSlot: Option<seq<Medication>>
    var logsSlot: Option<seq<MedicationLog>>
    var messagesSlot: Option<seq<ChatMessage>>
    var memoriesSlot: Option<seq<Memory>>
    var contactsSlot: Option<seq<EmergencyContact>>
    var status: Option<ElderStatus>
    var preferences: Option<Preferences>

    /** A device on which nothing has been stored yet. */
    constructor ()
      ensures Medications() == [] && MedicationLogs() == [] && ChatMessages() == []
      ensures Memories() == [] && EmergencyContacts() == []
      ensures status == None && preferences == None
    {
      medicationsSlot, logsSlot, messagesSlot := None, None, None;
      memoriesSlot, contactsSlot := None, None;
      status, preferences := None, None;
    }

    function Medications(): seq<Medication> reads this { ReadList(medicationsSlot) }
    function MedicationLogs(): seq<MedicationLog> reads this { ReadList(logsSlot) }
    function ChatMessages(): seq<ChatMessage> reads this { ReadList(messagesSlot) }
    function Memories(): seq<Memory> reads this { ReadList(memoriesSlot) }
    function EmergencyContacts(): seq<EmergencyContact> reads this { ReadList(contactsSlot) }

    method SaveMedication(m: Medication)
      modifies this`medicationsSlot
      ensures Medications() == Upsert(old(Medications()), m, MedicationId)
    {
      var medications := Medications();
      var existingIndex := FindIndex(medications, m.id, MedicationId);
      if existingIndex >= 0 {
        medications := medications[existingIndex := m];
      } else {
        medications := medications + [m];
      }
      medicationsSlot := Some(medications);
    }

    method DeleteMedication(id: string)
      modifies this`medicationsSlot
      ensures Medications() == RemoveId(old(Medications()), id, MedicationId)
    {
      medicationsSlot := Some(RemoveId(Medications(), id, MedicationId));
    }

    method AddMedicationLog(log: MedicationLog)
      modifies this`logsSlot
      ensures MedicationLogs() == old(MedicationLogs()) + [log]
    {
      logsSlot := Some(MedicationLogs() + [log]);
    }

    method AddChatMessage(message: ChatMessage)
      modifies this`messagesSlot
      ensures ChatMessages() == old(ChatMessages()) + [message]
    {
      messagesSlot := Some(ChatMessages() + [message]);
    }

    method AddMemory(memory: Memory)
      modifies this`memoriesSlot
      ensures Memories() == old(Memories()) + [memory]
    {
      memoriesSlot := Some(Memories() + [memory]);
    }

    method DeleteMemory(id: string)
      modifies this`memoriesSlot
      ensures Memories() == RemoveId(old(Memories()), id, MemoryId)
    {
      memoriesSlot := Some(RemoveId(Memories(), id, MemoryId));
    }

    /** Clears the other primaries in place when `c` is primary, then upserts `c`. */
    method AddEmergencyContact(c: EmergencyContact)
      modifies this`contactsSlot
      ensures EmergencyContacts() == AddContact(old(EmergencyContacts()), c)
    {
      var contacts := EmergencyContacts();
      ghost var original := contacts;
      if c.isPrimary {
        var k := 0;
        while k < |contacts|
          invariant 0 <= k <= |contacts| == |original|
          invariant forall j :: 0 <= j < k ==> contacts[j] == Demote(original[j], c.id)
          invariant forall j :: k <= j < |contacts| ==> contacts[j] == original[j]
        {
          if contacts[k].id != c.id {
            contacts := contacts[k := contacts[k].(isPrimary := false)];
          }
          k := k + 1;
        }
        assert contacts == ClearOtherPrimaries(original, c.id);
      }
      var existingIndex := FindIndex(contacts, c.id, ContactId);
      if existingIndex >= 0 {
        contacts := contacts[existingIndex := c];
      } else {
        contacts := contacts + [c];
      }
      contactsSlot := Some(contacts);
    }

    method DeleteEmergencyContact(id: string)
      modifies this`contactsSlot
      ensures EmergencyContacts() == RemoveId(old(EmergencyContacts()), id, ContactId)
    {
      contactsSlot := Some(RemoveId(EmergencyContacts(), id, ContactId));
    }

    /** `now` stands for both `Date.now()` readings; they coincide in the model. */
    method UpdateElderStatus(patch: StatusPatch, now: int)
      modifies this`status
      ensures status == Some(MergeStatus(old(status), patch, now))
    {
      status := Some(MergeStatus(status, patch, now));
    }

    method GetUserPreferences() returns (p: Option<Preferences>)
      ensures p == preferences
    {
      p := preferences;
    }

    method SaveUserPreferences(p: Preferences)
      modifies this`preferences
      ensures preferences == Some(p)
    {
      preferences := Some(p);
    }
  }
}
