/** The sound-label policy table: each label a classifier can report maps to the
    category, severity and default location of the alert it raises. */
module SoundPolicy {

  /** One entry of the table: the alert category (the record's `type`), its
      severity and the room it is attributed to. */
  datatype SoundInfo = SoundInfo(category: string, severity: string, location: string)

  /** The labels of the table in declaration order, which is the order in which
      the classifiers enumerate them. */
  const SoundTypes: seq<string> :=
    ["fire_alarm", "smoke_detector", "doorbell", "phone_ring",
     "baby_cry", "car_horn", "glass_break", "scream"]

  const SoundCategories: map<string, SoundInfo> := map[
    "fire_alarm"     := SoundInfo("emergency", "critical", "Whole House"),
    "smoke_detector" := SoundInfo("emergency", "critical", "Whole House"),
    "doorbell"       := SoundInfo("doorbell", "medium", "Front Door"),
    "phone_ring"     := SoundInfo("phone", "high", "Living Room"),
    "baby_cry"       := SoundInfo("baby", "high", "Nursery"),
    "car_horn"       := SoundInfo("car", "medium", "Outside"),
    "glass_break"    := SoundInfo("emergency", "critical", "Unknown"),
    "scream"         := SoundInfo("emergency", "critical", "Unknown")
  ]

  /** What an alert for a label outside the table is given. */
  const UnknownSound := SoundInfo("unknown", "medium", "Unknown")

  /** The severities the feedback tables know, most severe first. */
  const Severities: seq<string> := ["critical", "high", "medium", "low"]

  /** The categories the table produces. */
  const Categories: seq<string> := ["doorbell", "phone", "emergency", "baby", "car"]

  /** Table lookup with the fallback for labels that are not keys. */
  function InfoFor(sound: string): SoundInfo
  {
    if sound in SoundCategories then SoundCategories[sound] else UnknownSound
  }

  /** The enumeration order lists every key of the table exactly once. */
  lemma SoundTypesAreTheKeys()
    ensures |SoundTypes| == |SoundCategories|
    ensures forall i :: 0 <= i < |SoundTypes| ==> SoundTypes[i] in SoundCategories
    ensures forall sound :: sound in SoundCategories <==> sound in SoundTypes
    ensures forall i, j :: 0 <= i < j < |SoundTypes| ==> SoundTypes[i] != SoundTypes[j]
  {
  }

  /** Every entry of the table carries a severity the feedback tables map and a
      category the alert texts map, so no classified sound reaches a default there. */
  lemma TableEntriesAreMapped(sound: string)
    requires sound in SoundCategories
    ensures SoundCategories[sound].severity in Severities
    ensures SoundCategories[sound].category in Categories
    ensures SoundCategories[sound] != UnknownSound
  {
  }
}
