/** The sound classifier: a remote (machine-learning service) path and a local
    path, each drawing a label of the policy table and a confidence at random,
    and the guarded entry point that chooses between them. */
module SoundClassification {
  import opened SoundPolicy
  import opened Alerts
  import opened AzureServices

  datatype Option<T> = None | Some(value: T)

  /** A draw of `Math.random()`: a real number in [0, 1). */
  predicate IsRoll(r: real)
  {
    0.0 <= r < 1.0
  }

  /** `Math.floor(roll * n)`: a uniformly chosen index below `n`. */
  function Pick(roll: real, n: nat): (i: nat)
    requires IsRoll(roll) && n > 0
    ensures i < n
  {
    var x := roll * n as real;
    assert x < n as real;
    x.Floor
  }

  /** The roll that picks index `i` of `n`. */
  lemma PickReaches(i: nat, n: nat)
    requires i < n
    ensures IsRoll(i as real / n as real) && Pick(i as real / n as real, n) == i
  {
  }

  /** The remote classifier: any label of the table, confidence 85 to 99. */
  function ClassifyWithAzureML(labelRoll: real, confidenceRoll: real): (c: Classification)
    requires IsRoll(labelRoll) && IsRoll(confidenceRoll)
    ensures c.soundType in SoundCategories
    ensures 85 <= c.confidence <= 99
    ensures c.source == "Azure ML" && c.processingTime == "1.2s"
  {
    SoundTypesAreTheKeys();
    Classification(SoundTypes[Pick(labelRoll, |SoundTypes|)],
                   Pick(confidenceRoll, 15) + 85, "Azure ML", "1.2s")
  }

  /** The local classifier: any label of the table, confidence 75 to 94. */
  function ClassifyLocally(labelRoll: real, confidenceRoll: real): (c: Classification)
    requires IsRoll(labelRoll) && IsRoll(confidenceRoll)
    ensures c.soundType in SoundCategories
    ensures 75 <= c.confidence <= 94
    ensures c.source == "Local Processing" && c.processingTime == "0.8s"
  {
    SoundTypesAreTheKeys();
    Classification(SoundTypes[Pick(labelRoll, |SoundTypes|)],
                   Pick(confidenceRoll, 20) + 75, "Local Processing", "0.8s")
  }

  /** A roll that makes the classifiers pick `sound`. */
  lemma LabelRollFor(sound: string) returns (lr: real)
    requires sound in SoundCategories
    ensures IsRoll(lr) && SoundTypes[Pick(lr, |SoundTypes|)] == sound
  {
    SoundTypesAreTheKeys();
    var i :| 0 <= i < |SoundTypes| && SoundTypes[i] == sound;
    lr := i as real / |SoundTypes| as real;
    PickReaches(i, |SoundTypes|);
  }

  /** The bounds above are tight: every label of the table and every confidence
      from 85 to 99 is produced by the remote classifier for some rolls. */
  lemma AzureMLReachesEverything(sound: string, confidence: int)
    requires sound in SoundCategories && 85 <= confidence <= 99
    ensures exists lr: real, cr: real ::
      (IsRoll(lr) && IsRoll(cr) &&
       ClassifyWithAzureML(lr, cr) == Classification(sound, confidence, "Azure ML", "1.2s"))
  {
    var lr := LabelRollFor(sound);
    var cr := (confidence - 85) as real / 15 as real;
    PickReaches(confidence - 85, 15);
    assert ClassifyWithAzureML(lr, cr) == Classification(sound, confidence, "Azure ML", "1.2s");
  }

  /** The same for the local classifier and confidences 75 to 94. */
  lemma LocalReachesEverything(sound: string, confidence: int)
    requires sound in SoundCategories && 75 <= confidence <= 94
    ensures exists lr: real, cr: real ::
      (IsRoll(lr) && IsRoll(cr) &&
       ClassifyLocally(lr, cr) == Classification(sound, confidence, "Local Processing", "0.8s"))
  {
    var lr := LabelRollFor(sound);
    var cr := (confidence - 75) as real / 20 as real;
    PickReaches(confidence - 75, 20);
    assert ClassifyLocally(lr, cr) == Classification(sound, confidence, "Local Processing", "0.8s");
  }

  /** What one classification yields: the remote path when the machine-learning
      service is up and its call succeeds, otherwise the local path (used both
      when the service is down and as the fallback after the remote call fails). */
  function Classified(mlUp: bool, mlFails: bool, labelRoll: real, confidenceRoll: real): (c: Classification)
    requires IsRoll(labelRoll) && IsRoll(confidenceRoll)
    ensures c.source == "Azure ML" <==> mlUp && !mlFails
    ensures c.soundType in SoundCategories
    ensures mlUp && !mlFails ==> 85 <= c.confidence <= 99 && c.processingTime == "1.2s"
    ensures !(mlUp && !mlFails) ==>
      c.source == "Local Processing" && 75 <= c.confidence <= 94 && c.processingTime == "0.8s"
  {
    if mlUp && !mlFails then ClassifyWithAzureML(labelRoll, confidenceRoll)
    else ClassifyLocally(labelRoll, confidenceRoll)
  }

  class SoundClassifier {
    const azureServices: AzureServiceManager
    var isProcessing: bool
    /** Whether the running classification took the remote path: the
        machine-learning flag as it stood when the classification started. */
    var usingML: bool
    /** Whether a processing-change listener is installed. */
    var hasProcessingListener: bool
    /** The values handed to the processing-change listener, oldest first. */
    var processingNotices: seq<bool>

    constructor(manager: AzureServiceManager)
      ensures azureServices == manager
      ensures !isProcessing && !hasProcessingListener && processingNotices == []
    {
      azureServices := manager;
      isProcessing := false;
      usingML := false;
      hasProcessingListener := false;
      processingNotices := [];
    }

    /** Installs (or removes) the processing-change listener. */
    method SetProcessingListener(present: bool)
      modifies this
      ensures hasProcessingListener == present
      ensures isProcessing == old(isProcessing) && usingML == old(usingML)
      ensures processingNotices == old(processingNotices)
    {
      hasProcessingListener := present;
    }

    /** The part of a classification before its first wait: refuse when one is
        already running, otherwise mark one as running, tell the listener and
        choose the path from the machine-learning flag as it stands now. */
    method BeginClassify() returns (started: bool)
      modifies this
      ensures started == !old(isProcessing)
      ensures isProcessing
      ensures usingML == if started then azureServices.services.machineLearning else old(usingML)
      ensures hasProcessingListener == old(hasProcessingListener)
      ensures processingNotices ==
        old(processingNotices) + (if started && hasProcessingListener then [true] else [])
    {
      if isProcessing {
        return false;
      }
      isProcessing := true;
      if hasProcessingListener {
        processingNotices := processingNotices + [true];
      }
      usingML := azureServices.services.machineLearning;
      started := true;
    }

    /** The part after the wait: run the path chosen at the start, fall back to
        the local one if the remote call fails, and in every case clear the
        running mark and tell the listener. */
    method FinishClassify(mlFails: bool, labelRoll: real, confidenceRoll: real)
      returns (c: Classification)
      requires isProcessing
      requires IsRoll(labelRoll) && IsRoll(confidenceRoll)
      modifies this
      ensures c == Classified(old(usingML), mlFails, labelRoll, confidenceRoll)
      ensures !isProcessing && usingML == old(usingML)
      ensures hasProcessingListener == old(hasProcessingListener)
      ensures processingNotices ==
        old(processingNotices) + (if hasProcessingListener then [false] else [])
    {
      if usingML && !mlFails {
        c := ClassifyWithAzureML(labelRoll, confidenceRoll);
      } else {
        c := ClassifyLocally(labelRoll, confidenceRoll);
      }
      isProcessing := false;
      if hasProcessingListener {
        processingNotices := processingNotices + [false];
      }
    }

    /** One whole classification with nothing interleaved: nothing (and no
        change) while another is running, otherwise a classification of the
        chosen path with the running mark cleared again. */
    method ClassifySound(mlFails: bool, labelRoll: real, confidenceRoll: real)
      returns (result: Option<Classification>)
      requires IsRoll(labelRoll) && IsRoll(confidenceRoll)
      modifies this
      ensures old(isProcessing) ==>
        result == None && isProcessing && usingML == old(usingML) &&
        processingNotices == old(processingNotices)
      ensures !old(isProcessing) ==>
        !isProcessing && usingML == azureServices.services.machineLearning &&
        result == Some(Classified(azureServices.services.machineLearning, mlFails, labelRoll, confidenceRoll)) &&
        processingNotices == old(processingNotices) + (if hasProcessingListener then [true, false] else [])
      ensures hasProcessingListener == old(hasProcessingListener)
    {
      var started := BeginClassify();
      if !started {
        return None;
      }
      var c := FinishClassify(mlFails, labelRoll, confidenceRoll);
      result := Some(c);
    }
  }

  /** A second classification requested while the first waits for its result
      gets nothing and leaves the first to finish normally. */
  method ReentrantCallIsRefused(manager: AzureServiceManager, lr: real, cr: real)
    requires IsRoll(lr) && IsRoll(cr)
  {
    var classifier := new SoundClassifier(manager);
    classifier.SetProcessingListener(true);
    var started := classifier.BeginClassify();
    assert started;
    var second := classifier.ClassifySound(false, lr, cr);
    assert second == None;
    var first := classifier.FinishClassify(false, lr, cr);
    assert !classifier.isProcessing;
    assert first.soundType in SoundCategories;
    assert classifier.processingNotices == [true, false];
  }

  /** The path is chosen when a classification starts: a machine-learning
      service that comes up while the classification waits is not used by it. */
  method PathIsChosenAtStart(lr: real, cr: real)
    requires IsRoll(lr) && IsRoll(cr)
  {
    var manager := new AzureServiceManager();
    var classifier := new SoundClassifier(manager);
    var started := classifier.BeginClassify();
    var up := [Fulfilled(true), Fulfilled(true), Fulfilled(true),
               Fulfilled(true), Fulfilled(true), Fulfilled(true)];
    var connected := manager.Initialize(up);
    assert manager.services.machineLearning;
    var c := classifier.FinishClassify(false, lr, cr);
    assert c.source == "Local Processing";
  }
}
