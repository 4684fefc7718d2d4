/** The per-severity feedback tables (flash colour, vibration pattern, tone
    frequency) and the category captions. Each is a lookup in a fixed table with
    a default for keys the table does not have. */
module SeverityFeedback {
  import opened SoundPolicy

  /** Flash colour of `AlertProcessor`; an unmapped severity gets the medium colour. */
  function SeverityColor(severity: string): (color: string)
    ensures color in ["#ef4444", "#f97316", "#eab308", "#22c55e"]
    ensures severity !in Severities ==> color == "#eab308"
  {
    var colors := map["critical" := "#ef4444", "high" := "#f97316",
                      "medium" := "#eab308", "low" := "#22c55e"];
    if severity in colors then colors[severity] else colors["medium"]
  }

  /** The second copy of the colour table, kept by the UI utilities. */
  function UISeverityColor(severity: string): (color: string)
    ensures severity !in Severities ==> color == "#eab308"
  {
    var colors := map["critical" := "#ef4444", "high" := "#f97316",
                      "medium" := "#eab308", "low" := "#22c55e"];
    if severity in colors then colors[severity] else colors["medium"]
  }

  /** Vibration pattern in milliseconds, vibrating and pausing in turn, starting
      and ending with a vibration; an unmapped severity gets the medium pattern. */
  function VibrationPattern(severity: string): (pattern: seq<nat>)
    ensures |pattern| % 2 == 1
    ensures forall i :: 0 <= i < |pattern| ==> pattern[i] > 0
    ensures severity !in Severities ==> pattern == [200, 100, 200]
  {
    var patterns := map["critical" := [500, 100, 500, 100, 500, 100, 500],
                        "high" := [300, 100, 300, 100, 300],
                        "medium" := [200, 100, 200],
                        "low" := [100]];
    if severity in patterns then patterns[severity] else patterns["medium"]
  }

  /** Frequency in hertz of the notification tone; 400 when unmapped. */
  function ToneFrequency(severity: string): (hz: nat)
    ensures 300 <= hz <= 800
    ensures severity !in Severities ==> hz == 400
  {
    var frequencies := map["critical" := 800, "high" := 600, "medium" := 400, "low" := 300];
    if severity in frequencies then frequencies[severity] else 400
  }

  /** Caption shown for an alert category; "Unknown Sound" for any other. */
  function AlertText(category: string): (text: string)
    ensures text == "Unknown Sound" <==> category !in Categories
  {
    var texts := map["doorbell" := "Doorbell", "phone" := "Phone Call",
                     "emergency" := "Emergency", "baby" := "Baby Crying", "car" := "Car Horn"];
    if category in texts then texts[category] else "Unknown Sound"
  }

  /** Position of a severity from least (0) to most (3) severe; an unmapped
      severity ranks as medium, which is what every table falls back to. */
  function Rank(severity: string): nat
  {
    if severity == "critical" then 3
    else if severity == "high" then 2
    else if severity == "low" then 0
    else 1
  }

  /** Total time a pattern vibrates: the entries at even positions. */
  function Buzz(pattern: seq<nat>): nat
    decreases |pattern|
  {
    if pattern == [] then 0
    else if |pattern| == 1 then pattern[0]
    else pattern[0] + Buzz(pattern[2..])
  }

  /** The two copies of the colour table agree on every severity. */
  lemma SeverityColorsAgree(severity: string)
    ensures SeverityColor(severity) == UISeverityColor(severity)
  {
  }

  /** All three channels treat a severity they do not know exactly as medium. */
  lemma UnmappedSeverityIsMedium(severity: string)
    requires severity !in Severities
    ensures SeverityColor(severity) == SeverityColor("medium")
    ensures VibrationPattern(severity) == VibrationPattern("medium")
    ensures ToneFrequency(severity) == ToneFrequency("medium")
  {
  }

  /** A strictly more severe alert gets a strictly higher tone and vibrates
      strictly longer. */
  lemma MoreSevereIsStronger(s: string, t: string)
    requires Rank(s) > Rank(t)
    ensures ToneFrequency(s) > ToneFrequency(t)
    ensures Buzz(VibrationPattern(s)) > Buzz(VibrationPattern(t))
  {
  }

  /** Distinct known severities are told apart by every channel. */
  lemma SeveritiesAreDistinguishable(s: string, t: string)
    requires s in Severities && t in Severities && s != t
    ensures SeverityColor(s) != SeverityColor(t)
    ensures VibrationPattern(s) != VibrationPattern(t)
    ensures ToneFrequency(s) != ToneFrequency(t)
  {
  }
}
