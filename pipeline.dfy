/** The alert pipeline end to end: a classification becomes an alert, the alert
    is forwarded to the services that are up, the device gives feedback for its
    severity, and the alert is put at the front of the recent-alerts list. */
module AlertPipeline {
  import opened SoundPolicy
  import opened Alerts
  import opened RecentAlerts
  import opened SeverityFeedback
  import opened AzureServices
  import opened SoundClassification

  /** What the device does for one alert: the colour the screen flashes, the
      vibration pattern (only where the device can vibrate) and the tone. */
  datatype LocalFeedback = LocalFeedback(flashColor: string, vibration: Option<seq<nat>>, toneHz: nat)

  /** The outcome of processing one classification: the alert, whether it was
      forwarded to the functions service and to the document store, and the
      local feedback. */
  datatype Processed = Processed(
    alert: Alert,
    forwardedToFunctions: bool,
    storedInCosmosDB: bool,
    feedback: LocalFeedback)

  /** Local feedback for an alert: all three channels are chosen by its severity alone. */
  function TriggerLocalAlert(a: Alert, canVibrate: bool): (f: LocalFeedback)
    ensures f.flashColor == SeverityColor(a.severity) && f.toneHz == ToneFrequency(a.severity)
    ensures f.vibration == if canVibrate then Some(VibrationPattern(a.severity)) else None
    ensures f.vibration.Some? <==> canVibrate
    ensures f.vibration.Some? ==> |f.vibration.value| % 2 == 1
    ensures a.severity !in Severities ==>
      f.flashColor == "#eab308" && f.toneHz == 400 &&
      (f.vibration.Some? ==> f.vibration.value == [200, 100, 200])
  {
    LocalFeedback(SeverityColor(a.severity),
                  if canVibrate then Some(VibrationPattern(a.severity)) else None,
                  ToneFrequency(a.severity))
  }

  /** Processes one classification: builds the alert, forwards it to each
      service whose flag is up, and triggers the local feedback. */
  function ProcessAlert(services: ServiceStatus, c: Classification, clock: Clock, canVibrate: bool): (p: Processed)
    ensures p.forwardedToFunctions == services.functions
    ensures p.storedInCosmosDB == services.cosmosDB
    ensures p.alert == CreateAlertData(c, clock)
    ensures p.feedback == TriggerLocalAlert(p.alert, canVibrate)
    ensures p.alert.soundType == c.soundType && p.alert.confidence == c.confidence
  {
    var a := CreateAlertData(c, clock);
    Processed(a, services.functions, services.cosmosDB, TriggerLocalAlert(a, canVibrate))
  }

  /** An alert built from anything a classifier produces never takes the
      unknown fallback: its category has a caption, its severity a row in every
      feedback table, and its policy is the table entry of its label. */
  lemma ClassifiedAlertIsKnown(mlUp: bool, mlFails: bool, lr: real, cr: real, clock: Clock)
    requires IsRoll(lr) && IsRoll(cr)
    ensures var c := Classified(mlUp, mlFails, lr, cr);
      var a := CreateAlertData(c, clock);
      a.category != "unknown" &&
      AlertText(a.category) != "Unknown Sound" &&
      a.severity in Severities &&
      InfoFor(c.soundType) == SoundCategories[c.soundType]
  {
  }

  /** The doorbell scenario: a doorbell heard at 94 gives a medium alert at the
      front door, a yellow flash, the medium pattern and a 400 Hz tone. */
  lemma DoorbellScenario(services: ServiceStatus, clock: Clock)
    ensures var p := ProcessAlert(services, Classification("doorbell", 94, "Azure ML", "1.2s"), clock, true);
      p.alert.category == "doorbell" && p.alert.severity == "medium" &&
      p.alert.location == "Front Door" && p.alert.confidence == 94 &&
      p.feedback == LocalFeedback("#eab308", Some([200, 100, 200]), 400)
  {
  }

  /** One tick of the detection loop: when the level is above 30 and a buffer
      was captured, classify it; when a classification comes back, process it
      and, when the alert callback is installed, put the alert at the front of
      the recent list. `canVibrate` says whether the device has a vibration
      motor. */
  method DetectionTick(classifier: SoundClassifier, recent: seq<Alert>, audioLevel: real,
                       captured: bool, mlFails: bool, lr: real, cr: real,
                       clock: Clock, canVibrate: bool, alertCallback: bool)
    returns (recent': seq<Alert>, processed: Option<Processed>)
    requires IsRoll(lr) && IsRoll(cr)
    modifies classifier
    ensures classifier.hasProcessingListener == old(classifier.hasProcessingListener)
    ensures !(audioLevel > 30.0 && captured) ==>
      recent' == recent && processed == None &&
      classifier.isProcessing == old(classifier.isProcessing) &&
      classifier.usingML == old(classifier.usingML) &&
      classifier.processingNotices == old(classifier.processingNotices)
    ensures audioLevel > 30.0 && captured && old(classifier.isProcessing) ==>
      recent' == recent && processed == None && classifier.isProcessing &&
      classifier.usingML == old(classifier.usingML) &&
      classifier.processingNotices == old(classifier.processingNotices)
    ensures audioLevel > 30.0 && captured && !old(classifier.isProcessing) ==>
      !classifier.isProcessing &&
      classifier.processingNotices == old(classifier.processingNotices) +
        (if classifier.hasProcessingListener then [true, false] else []) &&
      processed == Some(ProcessAlert(classifier.azureServices.services,
        Classified(classifier.azureServices.services.machineLearning, mlFails, lr, cr),
        clock, canVibrate)) &&
      recent' == (if alertCallback then PushRecent(recent, processed.value.alert) else recent) &&
      processed.value.alert.soundType in SoundCategories &&
      processed.value.alert.category != "unknown" &&
      processed.value.alert.severity in Severities
  {
    recent', processed := recent, None;
    if audioLevel > 30.0 && captured {
      var classification := classifier.ClassifySound(mlFails, lr, cr);
      if classification.Some? {
        var p := ProcessAlert(classifier.azureServices.services, classification.value, clock, canVibrate);
        ClassifiedAlertIsKnown(classifier.azureServices.services.machineLearning, mlFails, lr, cr, clock);
        processed := Some(p);
        if alertCallback {
          recent' := PushRecent(recent, p.alert);
        }
      }
    }
  }
}
