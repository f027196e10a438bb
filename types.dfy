/** The records shared by every screen and by the local store (types/index.ts). */
module Types {

  datatype Option<T> = None | Some(value: T)

  /** One entry of a medication's schedule: a "HH:MM" time and the days it applies to. */
  datatype ScheduleEntry = ScheduleEntry(time: string, days: seq<string>)

  datatype Medication = Medication(
    id: string,
    name: string,
    dosage: string,
    schedule: seq<ScheduleEntry>,
    imageUri: Option<string>,
    notes: Option<string>)

  datatype LogStatus = Taken | Missed

  /** A record that a dose was taken or missed; `timestamp` is in epoch milliseconds. */
  datatype MedicationLog = MedicationLog(
    id: string,
    medicationId: string,
    status: LogStatus,
    timestamp: int,
    scheduledTime: string)

  datatype Sender = User | Bot

  datatype MediaType = Image | Audio

  datatype ChatMessage = ChatMessage(
    id: string,
    text: string,
    sender: Sender,
    timestamp: int,
    hasMedia: Option<bool>,
    mediaUri: Option<string>,
    mediaType: Option<MediaType>)

  datatype Memory = Memory(
    id: string,
    imageUri: string,
    caption: string,
    timestamp: int,
    tags: Option<seq<string>>)

  datatype EmergencyContact = EmergencyContact(
    id: string,
    name: string,
    phone: string,
    relationship: string,
    isPrimary: bool)

  datatype Location = Location(latitude: real, longitude: real, address: Option<string>)

  datatype MedicationTaken = MedicationTaken(name: string, timestamp: int)

  datatype ChatInteraction = ChatInteraction(message: string, timestamp: int)

  /** The single latest-known snapshot of the elder. */
  datatype ElderStatus = ElderStatus(
    lastSeen: int,
    lastLocation: Option<Location>,
    lastMedicationTaken: Option<MedicationTaken>,
    lastChatInteraction: Option<ChatInteraction>)

  /** A `Partial<ElderStatus>`: `None` is a key the patch does not carry. */
  datatype StatusPatch = StatusPatch(
    lastSeen: Option<int>,
    lastLocation: Option<Location>,
    lastMedicationTaken: Option<MedicationTaken>,
    lastChatInteraction: Option<ChatInteraction>)

  /** The settings screen's preference record (declared in app/family/settings.tsx). */
  datatype Preferences = Preferences(
    emergencyNumber: string,
    enableNotifications: bool,
    enableLocationTracking: bool,
    enableVoiceInteraction: bool,
    darkMode: bool)

  function MedicationId(m: Medication): string { m.id }

  function ContactId(c: EmergencyContact): string { c.id }

  function MemoryId(m: Memory): string { m.id }
}
