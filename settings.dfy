/**
 * The family settings screen (app/family/settings.tsx): the add-contact
 * form and its validation, setting the primary contact, and preferences.
 * The screen's React state is a class whose fields the handlers update; the
 * store it writes through is a Storage.Store.
 */
module Settings {
  import opened Types
  import opened Numerals
  import opened Storage

  // ---------------------------------------------------------------------
  // Trimming and form validation.
  // ---------------------------------------------------------------------

  /** The whitespace `trim()` strips, restricted to the common code points. */
  predicate IsSpace(c: char)
  {
    c == ' ' || c == '\t' || c == '\n' || c == '\r'
    || c as int == 0x0B || c as int == 0x0C || c as int == 0xA0
    || c as int == 0x2028 || c as int == 0x2029 || c as int == 0xFEFF
  }

  predicate IsBlank(s: string)
  {
    forall i :: 0 <= i < |s| ==> IsSpace(s[i])
  }

  /** Drops the leading whitespace: what is left is a suffix of `s` not starting with a space. */
  function TrimStart(s: string): (r: string)
    ensures |r| <= |s| && r == s[|s| - |r|..]
    ensures r != [] ==> !IsSpace(r[0])
    decreases |s|
  {
    if s != [] && IsSpace(s[0]) then TrimStart(s[1..]) else s
  }

  /** Drops the trailing whitespace: what is left is a prefix of `s` not ending with a space. */
  function TrimEnd(s: string): (r: string)
    ensures |r| <= |s| && r == s[..|r|]
    ensures r != [] ==> !IsSpace(r[|r| - 1])
    decreases |s|
  {
    if s != [] && IsSpace(s[|s| - 1]) then TrimEnd(s[..|s| - 1]) else s
  }

  /** What `TrimStart` drops is whitespace. */
  lemma {:induction false} TrimStartDropsBlank(s: string)
    ensures IsBlank(s[..|s| - |TrimStart(s)|])
    decreases |s|
  {
    if s != [] && IsSpace(s[0]) {
      TrimStartDropsBlank(s[1..]);
      assert forall i :: 1 <= i < |s| - |TrimStart(s)| ==> s[i] == s[1..][i - 1];
    }
  }

  /** What `TrimEnd` drops is whitespace. */
  lemma {:induction false} TrimEndDropsBlank(s: string)
    ensures IsBlank(s[|TrimEnd(s)|..])
    decreases |s|
  {
    if s != [] && IsSpace(s[|s| - 1]) {
      TrimEndDropsBlank(s[..|s| - 1]);
      assert forall i :: |TrimEnd(s)| <= i < |s| - 1 ==> s[i] == s[..|s| - 1][i];
    }
  }

  /**
   * `trim()`: the result is the slice of `s` left once the leading and the
   * trailing whitespace are removed, and neither of its ends is whitespace.
   */
  function Trim(s: string): (r: string)
    ensures |r| <= |s|
    ensures exists a :: 0 <= a && a + |r| <= |s| && r == s[a..a + |r|]
                        && IsBlank(s[..a]) && IsBlank(s[a + |r|..])
    ensures r != [] ==> !IsSpace(r[0]) && !IsSpace(r[|r| - 1])
  {
    var t := TrimStart(s);
    var a := |s| - |t|;
    var r := TrimEnd(t);
    TrimStartDropsBlank(s);
    TrimEndDropsBlank(t);
    assert r == s[a..a + |r|];
    assert s[a + |r|..] == t[|r|..];
    r
  }

  lemma {:induction false} TrimStartEmpty(s: string)
    ensures TrimStart(s) == [] <==> IsBlank(s)
    decreases |s|
  {
    if s != [] && IsSpace(s[0]) {
      TrimStartEmpty(s[1..]);
      assert forall i :: 1 <= i < |s| ==> s[i] == s[1..][i - 1];
    }
  }

  lemma {:induction false} TrimEndEmpty(s: string)
    ensures TrimEnd(s) == [] <==> IsBlank(s)
    decreases |s|
  {
    if s != [] && IsSpace(s[|s| - 1]) {
      TrimEndEmpty(s[..|s| - 1]);
      assert forall i :: 0 <= i < |s| - 1 ==> s[i] == s[..|s| - 1][i];
    }
  }

  /** A string trims to empty exactly when it is made of whitespace only (the empty string included). */
  lemma TrimEmptyIffBlank(s: string)
    ensures Trim(s) == [] <==> IsBlank(s)
  {
    TrimStartEmpty(s);
    TrimEndEmpty(TrimStart(s));
  }

  /** The guard of `handleAddContact`. */
  function ValidContactForm(name: string, phone: string, relationship: string): (ok: bool)
    ensures ok <==> !IsBlank(name) && !IsBlank(phone) && !IsBlank(relationship)
  {
    TrimEmptyIffBlank(name);
    TrimEmptyIffBlank(phone);
    TrimEmptyIffBlank(relationship);
    Trim(name) != "" && Trim(phone) != "" && Trim(relationship) != ""
  }

  /** The contact `handleAddContact` saves: fields as typed, primary if asked or if it is the first. */
  function NewContact(id: string, name: string, phone: string, relationship: string,
                      requestedPrimary: bool, current: seq<EmergencyContact>): (c: EmergencyContact)
    ensures c.id == id && c.name == name && c.phone == phone && c.relationship == relationship
    ensures c.isPrimary <==> requestedPrimary || current == []
  {
    EmergencyContact(id, name, phone, relationship, requestedPrimary || |current| == 0)
  }

  /** The first contact saved is primary, and the only contact. */
  lemma FirstContactIsPrimary(id: string, name: string, phone: string, relationship: string, requestedPrimary: bool)
    ensures var c := NewContact(id, name, phone, relationship, requestedPrimary, []);
            c.isPrimary && AddContact([], c) == [c]
  {
  }

  /** Setting a primary, on a list with distinct ids, leaves that contact as the one primary. */
  lemma SetPrimaryIsSole(cs: seq<EmergencyContact>, contact: EmergencyContact)
    requires UniqueIds(cs)
    ensures var r := AddContact(cs, contact.(isPrimary := true));
            exists k :: 0 <= k < |r| && r[k] == contact.(isPrimary := true)
                        && forall j :: 0 <= j < |r| ==> (r[j].isPrimary <==> j == k)
  {
    PrimaryIsSole(cs, contact.(isPrimary := true));
  }

  // ---------------------------------------------------------------------
  // Preferences.
  // ---------------------------------------------------------------------

  datatype PrefKey = EmergencyNumber | EnableNotifications | EnableLocationTracking
                   | EnableVoiceInteraction | DarkMode

  datatype PrefValue = Text(text: string) | Flag(flag: bool)

  /** The value kind a key takes: the emergency number is text, the rest are switches. */
  predicate Fits(key: PrefKey, value: PrefValue)
  {
    if key == EmergencyNumber then value.Text? else value.Flag?
  }

  function Get(p: Preferences, key: PrefKey): (v: PrefValue)
    ensures Fits(key, v)
  {
    match key
    case EmergencyNumber => Text(p.emergencyNumber)
    case EnableNotifications => Flag(p.enableNotifications)
    case EnableLocationTracking => Flag(p.enableLocationTracking)
    case EnableVoiceInteraction => Flag(p.enableVoiceInteraction)
    case DarkMode => Flag(p.darkMode)
  }

  /** Updating one preference: the chosen key takes the new value and every other key keeps its own. */
  function WithPreference(p: Preferences, key: PrefKey, value: PrefValue): (r: Preferences)
    requires Fits(key, value)
    ensures Get(r, key) == value
    ensures forall k :: k != key ==> Get(r, k) == Get(p, k)
  {
    match key
    case EmergencyNumber => p.(emergencyNumber := value.text)
    case EnableNotifications => p.(enableNotifications := value.flag)
    case EnableLocationTracking => p.(enableLocationTracking := value.flag)
    case EnableVoiceInteraction => p.(enableVoiceInteraction := value.flag)
    case DarkMode => p.(darkMode := value.flag)
  }

  /** The screen's initial preferences: number 911, every switch on except dark mode. */
  function DefaultPreferences(): (r: Preferences)
    ensures Get(r, EmergencyNumber) == Text("911")
    ensures Get(r, DarkMode) == Flag(false)
    ensures forall k :: k != EmergencyNumber && k != DarkMode ==> Get(r, k) == Flag(true)
  {
    Preferences("911", true, true, true, false)
  }

  // ---------------------------------------------------------------------
  // The screen.
  // ---------------------------------------------------------------------

  datatype AddOutcome = MissingInformation | Added(contact: EmergencyContact)

  class SettingsScreen {
    const store: Store
    var contacts: seq<EmergencyContact>
    var addModalVisible: bool
    var preferences: Preferences
    var contactName: string
    var contactPhone: string
    var contactRelationship: string
    var contactIsPrimary: bool

    constructor (store: Store)
      ensures this.store == store
      ensures contacts == [] && !addModalVisible
      ensures preferences.emergencyNumber == "911"
      ensures preferences.enableNotifications && preferences.enableLocationTracking
      ensures preferences.enableVoiceInteraction && !preferences.darkMode
      ensures contactName == "" && contactPhone == "" && contactRelationship == "" && !contactIsPrimary
    {
      this.store := store;
      contacts := [];
      addModalVisible := false;
      preferences := DefaultPreferences();
      contactName, contactPhone, contactRelationship := "", "", "";
      contactIsPrimary := false;
    }

    /** Reloads the contacts; stored preferences replace the current ones only when present. */
    method LoadData()
      modifies this`contacts, this`preferences
      ensures contacts == store.EmergencyContacts()
      ensures preferences == if store.preferences.Some? then store.preferences.value else old(preferences)
    {
      contacts := store.EmergencyContacts();
      var prefsData := store.GetUserPreferences();
      if prefsData.Some? {
        preferences := prefsData.value;
      }
    }

    method ResetForm()
      modifies this`contactName, this`contactPhone, this`contactRelationship, this`contactIsPrimary
      ensures contactName == "" && contactPhone == "" && contactRelationship == "" && !contactIsPrimary
    {
      contactName := "";
      contactPhone := "";
      contactRelationship := "";
      contactIsPrimary := false;
    }

    /**
     * Rejects a form with a blank field and changes nothing; otherwise saves
     * the new contact (its id is the decimal `now`), reloads, clears the form
     * and closes the dialog.
     */
    method HandleAddContact(now: nat) returns (outcome: AddOutcome)
      modifies this, store`contactsSlot
      ensures outcome.Added? <==> ValidContactForm(old(contactName), old(contactPhone), old(contactRelationship))
      ensures outcome.MissingInformation? ==> unchanged(this) && store.contactsSlot == old(store.contactsSlot)
      ensures outcome.Added? ==>
                outcome.contact == NewContact(NatToString(now), old(contactName), old(contactPhone),
                                              old(contactRelationship), old(contactIsPrimary), old(contacts))
      ensures outcome.Added? ==> store.EmergencyContacts() == AddContact(old(store.EmergencyContacts()), outcome.contact)
      ensures outcome.Added? ==> contacts == store.EmergencyContacts()
      ensures outcome.Added? ==>
                preferences == if store.preferences.Some? then store.preferences.value else old(preferences)
      ensures outcome.Added? ==>
                contactName == "" && contactPhone == "" && contactRelationship == ""
                && !contactIsPrimary && !addModalVisible
    {
      var valid := ValidContactForm(contactName, contactPhone, contactRelationship);
      if !valid {
        return MissingInformation;
      }
      var newContact := NewContact(NatToString(now), contactName, contactPhone, contactRelationship,
                                   contactIsPrimary, contacts);
      SaveAndClose(newContact);
      outcome := Added(newContact);
    }

    /** The accepted branch of `handleAddContact`: save, reload, clear the form, close the dialog. */
    method SaveAndClose(newContact: EmergencyContact)
      modifies this, store`contactsSlot
      ensures store.EmergencyContacts() == AddContact(old(store.EmergencyContacts()), newContact)
      ensures contacts == store.EmergencyContacts()
      ensures preferences == if store.preferences.Some? then store.preferences.value else old(preferences)
      ensures contactName == "" && contactPhone == "" && contactRelationship == ""
              && !contactIsPrimary && !addModalVisible
    {
      store.AddEmergencyContact(newContact);
      LoadData();
      ResetForm();
      addModalVisible := false;
    }

    /** Deletes the contact once the user confirms the dialog, then reloads. */
    method HandleDeleteContact(contactId: string, confirmed: bool)
      modifies this`contacts, this`preferences, store`contactsSlot
      ensures !confirmed ==> unchanged(this) && store.contactsSlot == old(store.contactsSlot)
      ensures confirmed ==> store.EmergencyContacts() == RemoveId(old(store.EmergencyContacts()), contactId, ContactId)
      ensures confirmed ==> contacts == store.EmergencyContacts()
      ensures confirmed ==>
                preferences == if store.preferences.Some? then store.preferences.value else old(preferences)
    {
      if confirmed {
        store.DeleteEmergencyContact(contactId);
        LoadData();
      }
    }

    /** Re-saves the same contact with only `isPrimary` set, then reloads. */
    method HandleSetPrimaryContact(contact: EmergencyContact)
      modifies this`contacts, this`preferences, store`contactsSlot
      ensures store.EmergencyContacts() == AddContact(old(store.EmergencyContacts()), contact.(isPrimary := true))
      ensures contacts == store.EmergencyContacts()
      ensures preferences == if store.preferences.Some? then store.preferences.value else old(preferences)
    {
      var updatedContact := contact.(isPrimary := true);
      store.AddEmergencyContact(updatedContact);
      LoadData();
    }

    method UpdatePreference(key: PrefKey, value: PrefValue)
      requires Fits(key, value)
      modifies this`preferences, store`preferences
      ensures preferences == WithPreference(old(preferences), key, value)
      ensures store.preferences == Some(preferences)
    {
      var updatedPreferences := WithPreference(preferences, key, value);
      preferences := updatedPreferences;
      store.SaveUserPreferences(updatedPreferences);
    }
  }
}
