/** Alert records and their construction from a classification
    (`AlertProcessor.createAlertData`). */
module Alerts {
  import opened SoundPolicy

  /** What a classifier reports about one captured audio window. */
  datatype Classification = Classification(
    soundType: string,
    confidence: int,
    source: string,
    processingTime: string)

  /** The readings of the wall clock taken while an alert is built: the
      millisecond count used as the id, the "hh:mm" display time and the ISO-8601
      timestamp. They are inputs of the model, not computed by it. */
  datatype Clock = Clock(now: int, displayTime: string, isoTime: string)

  /** An alert as recorded in the recent-alerts list. */
  datatype Alert = Alert(
    id: int,
    category: string,
    soundType: string,
    time: string,
    severity: string,
    location: string,
    confidence: int,
    source: string,
    timestamp: string,
    processingTime: string)

  /** Builds the alert for a classification: the policy of a known label, the
      fixed fallback for any other label, and the classifier's own fields copied
      through. It never fails. */
  function CreateAlertData(c: Classification, clock: Clock): (a: Alert)
    ensures c.soundType in SoundCategories ==>
      a.category == SoundCategories[c.soundType].category &&
      a.severity == SoundCategories[c.soundType].severity &&
      a.location == SoundCategories[c.soundType].location
    ensures c.soundType !in SoundCategories ==>
      a.category == "unknown" && a.severity == "medium" && a.location == "Unknown"
    ensures a.soundType == c.soundType && a.confidence == c.confidence
    ensures a.source == c.source && a.processingTime == c.processingTime
    ensures a.id == clock.now && a.time == clock.displayTime && a.timestamp == clock.isoTime
  {
    var info := InfoFor(c.soundType);
    Alert(clock.now, info.category, c.soundType, clock.displayTime, info.severity,
          info.location, c.confidence, c.source, clock.isoTime, c.processingTime)
  }

  /** An alert records the unknown category exactly when its label is not in
      the table: no table entry uses that category. */
  lemma UnknownCategoryIffUnknownLabel(c: Classification, clock: Clock)
    ensures CreateAlertData(c, clock).category == "unknown" <==> c.soundType !in SoundCategories
  {
  }

  /** Two classifications with the same label give alerts with the same policy
      fields, whatever their confidence, source or clock. */
  lemma PolicyDependsOnlyOnLabel(c1: Classification, c2: Classification, k1: Clock, k2: Clock)
    requires c1.soundType == c2.soundType
    ensures CreateAlertData(c1, k1).category == CreateAlertData(c2, k2).category
    ensures CreateAlertData(c1, k1).severity == CreateAlertData(c2, k2).severity
    ensures CreateAlertData(c1, k1).location == CreateAlertData(c2, k2).location
  {
  }

  /** The fire-alarm scenario: a remote classification at 97 becomes a critical
      emergency for the whole house at 97. */
  lemma FireAlarmScenario(clock: Clock)
    ensures var a := CreateAlertData(Classification("fire_alarm", 97, "Azure ML", "1.2s"), clock);
      a.category == "emergency" && a.severity == "critical" &&
      a.location == "Whole House" && a.confidence == 97 && a.source == "Azure ML"
  {
  }
}
