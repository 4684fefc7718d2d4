# Hearo alert pipeline — a Dafny model

Hearo is a demonstration screen for a household sound-alert product. Behind its
views sits a small, sequential alert pipeline, and this project models that
pipeline and proves its properties:

- **Policy table** (`policy.dfy`, module `SoundPolicy`): the eight sound labels
  and the category, severity and default location each one maps to.
- **Alert construction** (`alerts.dfy`, module `Alerts`): `createAlertData`.
  A known label takes its table entry, and any other label takes the fixed
  `unknown` / `medium` / `Unknown` fallback. Confidence, source and processing
  time are copied from the classification.
- **Recent alerts** (`history.dfy`, module `RecentAlerts`): the updater
  `[alertData, ...prev.slice(0, 9)]`. The new alert goes first, and at most ten
  are kept, newest first. It is generic because the same updater also receives
  the scripted fire alert, which has fewer fields.
- **Severity feedback** (`feedback.dfy`, module `SeverityFeedback`): the two
  copies of the flash-colour table, the vibration patterns, the tone
  frequencies and the category captions. Each one has a default for keys it
  does not know.
- **Service status** (`services.dfy`, module `AzureServices`): the class
  `AzureServiceManager`. `Initialize` records one flag per settled probe, then
  the connected flag.
- **Classifier** (`classifier.dfy`, module `SoundClassification`): the remote
  and local classifiers, and the class `SoundClassifier`. Its `isProcessing`
  guard refuses a re-entrant call. The client method `ReentrantCallIsRefused`
  shows a second call made while the first is waiting, and that call gets
  nothing.
- **Pipeline** (`pipeline.dfy`, module `AlertPipeline`): `processAlert`,
  `triggerLocalAlert` and one tick of the detection loop.

The nondeterministic and environmental inputs are parameters:

- Each `Math.random()` draw is a `real` in [0, 1), and the model indexes with
  `Floor(roll * n)`. The source multiplies in floating point while the model
  uses exact reals; both reach exactly the indices below `n`.
- The clock readings (`Date.now()`, the display time and the ISO timestamp)
  form a `Clock` value.
- The settled outcomes of the six service probes are a sequence of `Settled`
  values.
- Whether the remote classifier call throws is the flag `mlFails`. The stub as
  written never throws, so this over-approximates: the model also covers the
  fallback that the source's catch block provides.
- The detection tick also takes the audio level, whether a buffer was
  captured, whether the device can vibrate, and whether the alert callback is
  installed.

`classifySound` is an `async` method. During its await, another call can come
in. The model therefore splits it into `BeginClassify`, which covers everything
up to the await, and `FinishClassify`, which covers the work after it and the
`finally` block. `ClassifySound` runs the two halves in sequence. The
machine-learning flag is read before the await, so `BeginClassify` records
the chosen path in the field `usingML`. The client method
`PathIsChosenAtStart` shows that a service which comes up during the wait is
not used by the classification already under way.

## Model

| member | source | states |
|---|---|---|
| `SoundPolicy.SoundTypesAreTheKeys` | src/App.jsx:21-30 | The enumeration order the classifiers draw from lists every key of the table exactly once, and nothing else. |
| `SoundPolicy.TableEntriesAreMapped` | src/App.jsx:21-30 | Every table entry has a severity that the feedback tables map and a category that has a caption. No entry equals the unknown fallback. |
| `Alerts.CreateAlertData` | src/App.jsx:313-332 | A known label gives the table's category, severity and location. An unknown label gives `unknown` / `medium` / `Unknown` and never fails. Confidence, source and processing time are copied unchanged, and id, time and timestamp come from the clock. |
| `Alerts.UnknownCategoryIffUnknownLabel` | src/App.jsx:313-318 | An alert's category is `unknown` exactly when its label is not a key of the table. |
| `Alerts.PolicyDependsOnlyOnLabel` | src/App.jsx:313-332 | Two classifications with the same label give the same category, severity and location, whatever the other fields and the clock. |
| `Alerts.FireAlarmScenario` | src/App.jsx:313-332 | A remote fire-alarm classification at 97 becomes a critical emergency for the whole house at 97. |
| `RecentAlerts.PushRecent` | src/App.jsx:511-513 | The new list has length min(old length + 1, 10). Its first entry is the new alert. The rest are the first min(9, old length) entries of the old list, in order. |
| `RecentAlerts.PushFullDropsOldest` | src/App.jsx:512 | Pushing onto a full list of ten keeps ten entries and drops exactly the last (oldest) one. |
| `RecentAlerts.PushNotFullKeepsAll` | src/App.jsx:512 | Pushing onto a list of fewer than ten entries loses nothing. |
| `RecentAlerts.PushOfNewest` | src/App.jsx:512 | Pushing onto the ten newest entries of a list gives the same result as taking the ten newest after the push. |
| `RecentAlerts.PushAllIsNewestWindow` | src/App.jsx:512 | Start from any list of at most ten entries and push any run of alerts. The result is the ten newest of everything seen: the pushed alerts latest first, then the original list. |
| `RecentAlerts.PushAllBounded` | src/App.jsx:512 | Repeated pushes never grow the list beyond ten entries, and the last alert pushed is always first. |
| `RecentAlerts.ElevenPushesForgetTheFirst` | src/App.jsx:556 | Push eleven alerts onto an empty list. The first alert is gone, and the other ten remain, newest first. |
| `SeverityFeedback.SeverityColor` | src/App.jsx:372-380 | The flash colour is always one of the four table colours. An unmapped severity gets the medium colour `#eab308`. |
| `SeverityFeedback.UISeverityColor` | src/App.jsx:440-448 | The second copy of the colour table also gives `#eab308` for an unmapped severity. |
| `SeverityFeedback.SeverityColorsAgree` | src/App.jsx:440-448 | The two copies of the colour table agree on every severity. |
| `SeverityFeedback.VibrationPattern` | src/App.jsx:382-390 | Every pattern has odd length and positive entries, so it alternates vibration and pause and starts and ends with a vibration. An unmapped severity gets `[200, 100, 200]`. |
| `SeverityFeedback.ToneFrequency` | src/App.jsx:401-402 | The tone is between 300 and 800 Hz, and 400 Hz for an unmapped severity. |
| `SeverityFeedback.AlertText` | src/App.jsx:429-438 | The caption is `Unknown Sound` exactly when the category is not one of the five mapped categories. |
| `SeverityFeedback.UnmappedSeverityIsMedium` | src/App.jsx:372-402 | All three channels treat an unmapped severity exactly as `medium`. |
| `SeverityFeedback.MoreSevereIsStronger` | src/App.jsx:382-402 | A strictly more severe alert gets a strictly higher tone and a strictly longer total vibration. |
| `SeverityFeedback.SeveritiesAreDistinguishable` | src/App.jsx:372-402 | Two different known severities differ in colour, in vibration pattern and in tone. |
| `AzureServices.FlagsAsWritten` | src/App.jsx:61-66 | Each of the six flags is set exactly when its probe's promise was fulfilled, whatever value the probe returned. |
| `AzureServices.ConnectedIffSomeFulfilled` | src/App.jsx:61-68 | The manager is connected exactly when at least one probe's promise was fulfilled. |
| `AzureServices.FailedProbesCountAsUp` | src/App.jsx:51-68 | As written, six probes that all resolve to `false` still set every flag and the connected flag. The corrected flags are then all clear. |
| `AzureServices.ProbesThatNeverRejectAreAlwaysUp` | src/App.jsx:75-108 | The probes never reject, so as written every flag ends up set. |
| `AzureServices.FlagsAsReported` | src/App.jsx:75-108 | Corrected flags: each flag is set exactly when its probe completed and returned `true`. |
| `AzureServices.ReportedConnectedIffSomeSucceeded` | src/App.jsx:75-108 | With the corrected flags, the manager is connected exactly when at least one probe returned `true`. |
| `AzureServices.ReportedImpliesWritten` | src/App.jsx:61-66 | A corrected flag is never set where the as-written flag is clear. |
| `AzureServices.AzureServiceManager.constructor` | src/App.jsx:34-45 | A new manager is disconnected, with every flag clear. |
| `AzureServices.AzureServiceManager.Initialize` | src/App.jsx:51-73 | The flags become the fulfilled-ness of the six outcomes, in probe order. The connected flag is their disjunction and is returned. |
| `AzureServices.AzureServiceManager.InitializeReported` | src/App.jsx:51-73 | Corrected initialisation: the flags become "the probe returned `true`", and the connected flag is their disjunction. |
| `AzureServices.AzureServiceManager.GetServiceStatus` | src/App.jsx:109-111 | Returns the current flags and changes nothing. |
| `SoundClassification.Pick` | src/App.jsx:249-250 | `Math.floor(Math.random() * n)` is always an index below `n`. |
| `SoundClassification.PickReaches` | src/App.jsx:249-250 | Every index below `n` is picked by some roll. |
| `SoundClassification.ClassifyWithAzureML` | src/App.jsx:245-259 | The remote classifier returns a key of the policy table with a confidence from 85 to 99, source `Azure ML` and processing time `1.2s`. |
| `SoundClassification.ClassifyLocally` | src/App.jsx:261-275 | The local classifier returns a key of the policy table with a confidence from 75 to 94, source `Local Processing` and processing time `0.8s`. |
| `SoundClassification.AzureMLReachesEverything` | src/App.jsx:249-251 | The remote bounds are tight: every label and every confidence from 85 to 99 is produced for some rolls. |
| `SoundClassification.LocalReachesEverything` | src/App.jsx:265-267 | The local bounds are tight: every label and every confidence from 75 to 94 is produced for some rolls. |
| `SoundClassification.Classified` | src/App.jsx:230-238 | The result comes from the remote path exactly when the machine-learning flag is up and the remote call does not fail; then the confidence is 85 to 99 and the time `1.2s`. Otherwise it is a local result: source `Local Processing`, confidence 75 to 94, time `0.8s`. Either way the label is a key of the table. |
| `SoundClassification.SoundClassifier.constructor` | src/App.jsx:217-222 | A new classifier is idle, has no listener and has sent no notices. |
| `SoundClassification.SoundClassifier.SetProcessingListener` | src/App.jsx:503 | Installing the processing listener changes nothing else. |
| `SoundClassification.SoundClassifier.BeginClassify` | src/App.jsx:224-231 | If a classification is running, the call refuses and changes nothing. Otherwise it marks one as running, sends `true` to the listener if one is installed, and records the machine-learning flag as it stands as the chosen path. |
| `SoundClassification.SoundClassifier.FinishClassify` | src/App.jsx:230-242 | Returns the classification of the path chosen when the classification started, with the local fallback when the remote call fails. It always clears the running mark and sends `false` to the listener, if one is installed. |
| `SoundClassification.SoundClassifier.ClassifySound` | src/App.jsx:224-243 | While another classification is running, it returns nothing and the state is unchanged. Otherwise it returns the chosen path's result and leaves the classifier idle, and the listener sees `true` then `false`. |
| `AlertPipeline.TriggerLocalAlert` | src/App.jsx:355-371 | The flash colour, tone and (only where the device can vibrate) pattern are the severity tables' entries for the alert's severity. The pattern is well formed. An unmapped severity gets the medium colour, pattern and tone. |
| `AlertPipeline.ProcessAlert` | src/App.jsx:285-311 | The alert is the one `createAlertData` builds from the classification, and the feedback is the local alert for it. It is forwarded to the functions service exactly when that flag is up, and stored in the document store exactly when that flag is up. |
| `AlertPipeline.ClassifiedAlertIsKnown` | src/App.jsx:245-332 | An alert built from any classifier output never takes the unknown fallback. Its category has a caption, its severity is in every feedback table, and its policy is the table entry of its label. |
| `AlertPipeline.DoorbellScenario` | src/App.jsx:285-311 | A doorbell classification at 94 gives a medium alert at the front door, a yellow flash, the medium pattern and a 400 Hz tone. |
| `AlertPipeline.DetectionTick` | src/App.jsx:593-607 | Below the level threshold, or with no buffer, nothing changes: no alert, same list, same classifier state and notices. While a classification is running, the same holds. Otherwise the listener sees `true` then `false`, the classifier is idle again, and the result is the processing of the chosen path's classification: a known, table-mapped alert. When the callback is installed, the alert is put at the front of the recent list. |

## Findings

| source | as written | input that shows it | evidently intended | confidence | as-written member | corrected member |
|---|---|---|---|---|---|---|
| src/App.jsx:61-66 | Each service flag is `status === 'fulfilled'`. The probes (src/App.jsx:75-108) resolve to a boolean and never reject. | All six probes resolve to `false`. Every flag is set, and the manager reports itself connected. | A service is up when its probe returned `true`, as the probes' success-rate comments describe. | high; not executed | `AzureServices.FailedProbesCountAsUp` | `AzureServices.AzureServiceManager.InitializeReported` |

The as-written `Initialize` is the one the rest of the model describes, because
it is what the source does. `InitializeReported`, `FlagsAsReported` and
`ReportedConnectedIffSomeSucceeded` give the corrected behaviour and prove its
"connected iff some probe succeeded" property. The classifier reads the
`machineLearning` flag in the same way whichever initialiser set it.

## Left out

- The rendered screens, navigation, settings widgets and `UIUtils.getAlertIcon`. These are JSX with no stated behaviour.
- `AudioProcessor`: microphone capture, the Web Audio analyser, `requestAnimationFrame` and the floating-point RMS level. The detection tick takes the level and the captured or missing buffer as inputs.
- The side effects of `triggerLocalAlert` and `playNotificationSound`: the `document.body.style` writes, `navigator.vibrate`, and the oscillator and gain ramps. Only what they are given (colour, pattern, frequency) is modelled. A failure of the audio context is caught and ignored there, and it does not affect the alert.
- The `setTimeout` delays inside the stubs, the `setInterval` cadence of the detection loop, and the scripted emergency timeline with its hand-built fire alert. These are timing, not logic. The updater that timeline uses is `RecentAlerts.PushRecent`.
- `processWithAzureFunctions` and `storeInCosmosDB` only log or sleep. The model records whether each is called, not the document they build.
- The catch blocks of `initialize` and `processAlert`: nothing in the modelled code throws, so their `false` / `null` results are unreachable here.
- The three seed alerts of the initial list. The history lemmas hold for any starting list of at most ten entries, and the seed has three.
- JavaScript property lookup also finds inherited `Object.prototype` names, such as a label `constructor`. The tables are modelled as maps of their own keys only. No classifier produces such a label.
- `getServiceStatus` returns the live `services` object, so the caller aliases it. The model returns a copy of the flags.
- Alert ids come from `Date.now()`. The model takes the id as an input and does not claim ids are unique or increasing.
- `AzureConfig` constants are not used by any modelled logic.
