/** The pure view helpers of the MoodPrediction component: the start-button
    guard and label, the status label table, the remaining-time format and
    the progress panel. */
module Display {
  import opened Wrappers
  import opened Decimal

  // ---------------------------------------------------------------------
  // Start button

  /** The button's `disabled` expression, as the component writes it. */
  predicate ButtonDisabled(status: string) {
    status != "idle" && status != "complete" && status != "error"
  }

  predicate StartEnabled(status: string) {
    !ButtonDisabled(status)
  }

  /** The button is enabled for exactly three status codes; every other
      string, server free text included, disables it. */
  lemma StartEnabledExactly(status: string)
    ensures StartEnabled(status) <==> status in {"idle", "complete", "error"}
  {
  }

  /** The nested caption the button shows for a status. */
  function ButtonLabel(status: string): string {
    if status == "starting" || status == "recording" then "Recording..." else "Start Recording"
  }

  /** The button shows one of its two captions; whenever it reads
      "Recording..." it is also disabled, and an enabled button always reads
      "Start Recording". */
  lemma BusyLabelImpliesDisabled(status: string)
    ensures ButtonLabel(status) in {"Recording...", "Start Recording"}
    ensures ButtonLabel(status) == "Recording..." ==> ButtonDisabled(status)
    ensures StartEnabled(status) ==> ButtonLabel(status) == "Start Recording"
  {
  }

  // ---------------------------------------------------------------------
  // Status label

  /** The six status codes the component knows, with their labels. */
  const StatusLabels: map<string, string> := map[
    "idle" := "Ready to start recording",
    "starting" := "Initializing Muse headset...",
    "Recording started" := "Recording in progress (3 minutes)",
    "Processing data" := "Processing EEG data...",
    "complete" := "Analysis complete",
    "error" := "Error occurred"
  ]

  /** The `switch` of getStatusDisplay: a fixed label per known code, the
      status text itself otherwise. */
  function GetStatusDisplay(status: string): string {
    if status == "idle" then "Ready to start recording"
    else if status == "starting" then "Initializing Muse headset..."
    else if status == "Recording started" then "Recording in progress (3 minutes)"
    else if status == "Processing data" then "Processing EEG data..."
    else if status == "complete" then "Analysis complete"
    else if status == "error" then "Error occurred"
    else status
  }

  /** The switch agrees with the label table: known codes get their label,
      unknown text is shown unchanged. */
  lemma StatusDisplayMatchesTable(status: string)
    ensures status in StatusLabels ==> GetStatusDisplay(status) == StatusLabels[status]
    ensures status !in StatusLabels ==> GetStatusDisplay(status) == status
  {
  }

  /** A status is displayed as itself exactly when it is not one of the six
      codes (no label coincides with its own code). */
  lemma StatusDisplayFixedPoint(status: string)
    ensures GetStatusDisplay(status) == status <==> status !in StatusLabels
  {
  }

  // ---------------------------------------------------------------------
  // Remaining time

  /** `String.prototype.padStart(2, "0")`. */
  function PadStart2(s: string): (r: string)
    ensures |s| >= 2 ==> r == s
    ensures |s| < 2 ==> |r| == 2 && r[2 - |s|..] == s
    ensures forall i :: 0 <= i < |r| - |s| ==> r[i] == '0'
  {
    if |s| >= 2 then s else seq(2 - |s|, _ => '0') + s
  }

  /** Minutes, a colon and the seconds padded to two digits. */
  function FormatTimeRemaining(seconds: nat): string {
    NatToString(seconds / 60) + ":" + PadStart2(NatToString(seconds % 60))
  }

  /** Reads "m:ss" back: a decimal minute count, a colon, exactly two digits. */
  function ParseClock(t: string): Option<nat> {
    if |t| >= 4 && t[|t| - 3] == ':' && AllDigits(t[..|t| - 3]) && AllDigits(t[|t| - 2..])
    then Some(60 * ParseDigits(t[..|t| - 3]) + ParseDigits(t[|t| - 2..]))
    else None
  }

  /** Two-digit padding of a number below 100 keeps its value. */
  lemma PadStart2Value(n: nat)
    requires n < 100
    ensures |PadStart2(NatToString(n))| == 2
    ensures AllDigits(PadStart2(NatToString(n)))
    ensures ParseDigits(PadStart2(NatToString(n))) == n
  {
    var s := NatToString(n);
    var r := PadStart2(s);
    if n < 10 {
      assert s == [DigitChar(n)];
      assert r == ['0', DigitChar(n)];
      assert r[..1] == ['0'];
      assert ParseDigits(['0']) == 0 by {
        assert ['0'][..0] == [];
      }
    } else {
      assert |NatToString(n / 10)| == 1;
      assert |s| == 2;
      ParseNatToString(n);
    }
  }

  /** The shape of the formatted time: the minutes s / 60 in decimal, a
      colon, then exactly two digits whose value is s % 60, and the two
      parts add back up to s. */
  lemma FormatTimeRemainingShape(seconds: nat)
    ensures var r := FormatTimeRemaining(seconds);
      |r| >= 4 && r[|r| - 3] == ':' &&
      r[..|r| - 3] == NatToString(seconds / 60) &&
      AllDigits(r[|r| - 2..]) &&
      ParseDigits(r[|r| - 2..]) == seconds % 60 < 60 &&
      (seconds / 60) * 60 + seconds % 60 == seconds
  {
    var r := FormatTimeRemaining(seconds);
    var m := NatToString(seconds / 60);
    var ss := PadStart2(NatToString(seconds % 60));
    PadStart2Value(seconds % 60);
    assert r == m + ":" + ss;
    assert r[..|r| - 3] == m;
    assert r[|r| - 2..] == ss;
  }

  /** Reading the formatted time back gives the number of seconds again. */
  lemma FormatTimeRemainingRoundTrip(seconds: nat)
    ensures ParseClock(FormatTimeRemaining(seconds)) == Some(seconds)
  {
    FormatTimeRemainingShape(seconds);
    ParseNatToString(seconds / 60);
  }

  /** Different durations are never shown as the same text. */
  lemma FormatTimeRemainingInjective(s1: nat, s2: nat)
    requires FormatTimeRemaining(s1) == FormatTimeRemaining(s2)
    ensures s1 == s2
  {
    FormatTimeRemainingRoundTrip(s1);
    FormatTimeRemainingRoundTrip(s2);
  }

  /** 96 seconds are shown as "1:36". */
  lemma FormatNinetySixSeconds()
    ensures FormatTimeRemaining(96) == "1:36"
  {
    assert NatToString(1) == "1";
    assert NatToString(36) == NatToString(3) + "6";
  }

  // ---------------------------------------------------------------------
  // Progress panel

  /** The progress bar's value and the caption under it. */
  datatype ProgressPanel = ProgressPanel(value: int, caption: string)

  /** The panel is shown only for these two status codes. */
  predicate ProgressPanelVisible(status: string) {
    status == "recording" || status == "Processing data"
  }

  /** The panel as the component renders it: the caption guard is
      `timeRemaining && ...`, which renders a literal 0 when the remaining
      time is 0, and nothing when it is absent. */
  function ProgressPanelAsWritten(status: string, progress: int, timeRemaining: Option<nat>): Option<ProgressPanel> {
    if !ProgressPanelVisible(status) then None
    else match timeRemaining
      case None => Some(ProgressPanel(progress, ""))
      case Some(t) =>
        if t == 0 then Some(ProgressPanel(progress, "0"))
        else Some(ProgressPanel(progress, "Time remaining: " + FormatTimeRemaining(t)))
  }

  /** With no time left, the rendered caption is a bare "0". */
  lemma AsWrittenZeroCaption(progress: int)
    ensures ProgressPanelAsWritten("recording", progress, Some(0)) == Some(ProgressPanel(progress, "0"))
    ensures ParseClock("0") == None
  {
  }

  /** The panel with every present remaining time captioned. */
  function ProgressPanelCaptioned(status: string, progress: int, timeRemaining: Option<nat>): Option<ProgressPanel> {
    if !ProgressPanelVisible(status) then None
    else match timeRemaining
      case None => Some(ProgressPanel(progress, ""))
      case Some(t) => Some(ProgressPanel(progress, "Time remaining: " + FormatTimeRemaining(t)))
  }

  /** The panel is shown exactly for the two codes; it carries the progress
      value, and whenever a remaining time is present its caption reads back
      as that time. */
  lemma ProgressPanelCaptionReadsBack(status: string, progress: int, timeRemaining: Option<nat>)
    ensures ProgressPanelCaptioned(status, progress, timeRemaining).Some? <==> ProgressPanelVisible(status)
    ensures ProgressPanelCaptioned(status, progress, timeRemaining).Some? ==>
      ProgressPanelCaptioned(status, progress, timeRemaining).value.value == progress
    ensures ProgressPanelVisible(status) && timeRemaining.Some? ==>
      var c := ProgressPanelCaptioned(status, progress, timeRemaining).value.caption;
      |c| >= 16 && c[..16] == "Time remaining: " && ParseClock(c[16..]) == Some(timeRemaining.value)
  {
    if ProgressPanelVisible(status) && timeRemaining.Some? {
      var c := ProgressPanelCaptioned(status, progress, timeRemaining).value.caption;
      FormatTimeRemainingRoundTrip(timeRemaining.value);
      assert c[16..] == FormatTimeRemaining(timeRemaining.value);
    }
  }

  /** The two renderings differ only for a remaining time of 0. */
  lemma ProgressPanelDiffersOnlyAtZero(status: string, progress: int, timeRemaining: Option<nat>)
    ensures ProgressPanelAsWritten(status, progress, timeRemaining) != ProgressPanelCaptioned(status, progress, timeRemaining)
      <==> ProgressPanelVisible(status) && timeRemaining == Some(0)
  {
    if ProgressPanelVisible(status) && timeRemaining == Some(0) {
      FormatTimeRemainingShape(0);
    }
  }
}
