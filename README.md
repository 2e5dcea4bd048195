# MoodPrediction session model

A Dafny model of the `MoodPrediction` React component of the EEG mood-analysis
client (`src/components/MoodPrediction.jsx`). The component holds five pieces
of view state: `status`, `result`, `error`, `progress` and `timeRemaining`. It
receives four events from a socket: `connect`, `connect_error`,
`status_update` and `final_result`. It also starts a recording session with an
HTTP request. Three pure helpers render the state: the start-button guard,
`getStatusDisplay` and `formatTimeRemaining`.

Layout:

- `wrappers.dfy`: `Option`, standing for JavaScript's `null` and `undefined` alike.
- `decimal.dfy`: decimal spelling of natural numbers and its parser. It matches what
  a template literal prints for an integer below 2^53.
- `display.dfy`: the button guard and caption, the status label switch, the
  `m:ss` time format and the progress panel.
- `session.dfy`: the event payloads, the five-field `ViewState`, the effect of each
  event (`Apply`), sessions as event sequences applied one at a time (`Run`), and
  properties of whole sessions.
- `component.dfy`: class `Component`, whose fields are the five state variables.
  It has one method per event, each `modifies this`. Each method states every
  field's new value and ties the new state to `Apply` of the old one.

`startRecording` awaits between its reset and its outcome, so it is two steps:
`BeginStart` (the synchronous reset) and then `OnStartReply` or `OnStartFailure`.
Server events may arrive in between. The `fetch` reply is a parameter
(`ReplyData`). A thrown `fetch` or JSON parse is the `OnStartFailure` step.

Three facts of the code that a reader of its design might expect otherwise:

- `startRecording` has no guard of its own. Only the button is disabled
  (`StartEnabled`). `BeginStart` can be called in any state.
- There is no sticky terminal state. A `status_update` after a `final_result`
  overwrites the status (`StatusUpdateOverridesFinalResult`).
- "Result or error, never both" is not an invariant. A `connect_error` during a
  session, followed by a successful `final_result`, leaves both set
  (`ResultAndErrorCanCoexist`). The success branch does not clear the error.

## Model

| member | source | states |
|---|---|---|
| `MoodPrediction.Component.constructor` | src/components/MoodPrediction.jsx:10-15 | mounts with status "idle", no result, no error, progress 0, no remaining time |
| `MoodPrediction.Component.OnConnect` | src/components/MoodPrediction.jsx:25-28 | `connect` clears the error and leaves the other four fields unchanged |
| `MoodPrediction.Component.OnConnectError` | src/components/MoodPrediction.jsx:30-35 | `connect_error` sets the fixed "Failed to connect to the server…" message and leaves status, result, progress and remaining time unchanged |
| `MoodPrediction.Component.OnStatusUpdate` | src/components/MoodPrediction.jsx:37-47 | always takes the status; an "error" status takes the message and keeps progress and remaining time; otherwise a present progress takes progress and remaining time together, even an absent one; otherwise only the status changes; the result never changes |
| `MoodPrediction.Component.OnFinalResult` | src/components/MoodPrediction.jsx:49-59 | a "complete" payload becomes the result, with status "complete" and progress 100, and the error is kept; any other payload sets its message and status "error" and keeps result and progress; the remaining time never changes |
| `MoodPrediction.Component.BeginStart` | src/components/MoodPrediction.jsx:88-93 | whatever the prior state: status "starting", no error, no result, progress 0, no remaining time |
| `MoodPrediction.Component.OnStartReply` | src/components/MoodPrediction.jsx:99-103 | an "error" reply sets its message and status "error"; any other reply changes nothing; result, progress and remaining time never change |
| `MoodPrediction.Component.OnStartFailure` | src/components/MoodPrediction.jsx:104-109 | a thrown request sets the fixed "Failed to connect to server…" message and status "error" and keeps the other fields |
| `Session.StartResetForgetsHistory` | src/components/MoodPrediction.jsx:88-93 | after any history of events, the reset state is the same fixed state |
| `Session.StartReplyOkAfterGap` | src/components/MoodPrediction.jsx:95-103 | a non-error reply keeps whatever the events that arrived during the request produced |
| `Session.StartRejectionAfterGap` | src/components/MoodPrediction.jsx:99-109 | a rejected or thrown start ends in status "error" with its message, whatever arrived during the request, and keeps result, progress and remaining time |
| `Session.StaysDisabled` | src/components/MoodPrediction.jsx:131-135 | a disabled button stays disabled while no event brings the status back to "idle", "complete" or "error" |
| `Session.StartDisablesButton` | src/components/MoodPrediction.jsx:88-135 | after a start, the button is disabled until such an event arrives |
| `Session.TerminalEventEnablesStart` | src/components/MoodPrediction.jsx:49-109 | a final result, an error reply to the start, or a thrown start always re-enables the button |
| `Session.StatusUpdateOverridesFinalResult` | src/components/MoodPrediction.jsx:37-59 | a status update after a final result overwrites its status |
| `Session.ResultProvenance` | src/components/MoodPrediction.jsx:49-54 | a result at the end of a session was there at its start or came from a "complete" final result of that session |
| `Session.ErrorProvenance` | src/components/MoodPrediction.jsx:25-109 | an error at the end of a session was there at its start or was reported by one of its events: a fixed message, or the message field of an error update, failed result or error reply |
| `Session.ProgressStaysPercentage` | src/components/MoodPrediction.jsx:43-54 | the component writes only 0 and 100 itself, so progress stays in 0..100 while the server's progress values do |
| `Session.ResultAndErrorCanCoexist` | src/components/MoodPrediction.jsx:30-54 | start, connect_error, then a complete final result leaves both a result and an error |
| `Display.StartEnabledExactly` | src/components/MoodPrediction.jsx:131-135 | the button is enabled exactly for "idle", "complete" and "error"; any other text disables it |
| `Display.BusyLabelImpliesDisabled` | src/components/MoodPrediction.jsx:131-145 | the button shows "Recording..." or "Start Recording"; whenever it reads "Recording..." it is disabled, and an enabled button always reads "Start Recording" |
| `Display.StatusDisplayMatchesTable` | src/components/MoodPrediction.jsx:68-85 | the six known codes map to their fixed labels; any other status is shown unchanged |
| `Display.StatusDisplayFixedPoint` | src/components/MoodPrediction.jsx:68-85 | a status is shown as itself exactly when it is not one of the six codes |
| `Display.PadStart2` | src/components/MoodPrediction.jsx:115 | `padStart(2, "0")`: strings of length 2 or more unchanged, shorter ones left-padded with zeros to length 2 |
| `Display.PadStart2Value` | src/components/MoodPrediction.jsx:114-115 | for n < 100 the padded string has two digits whose value is n |
| `Display.FormatTimeRemainingShape` | src/components/MoodPrediction.jsx:112-116 | the text is m, ":" and exactly two digits, with m = s / 60, the digits' value s % 60 < 60, and m*60 + s % 60 == s |
| `Display.FormatTimeRemainingRoundTrip` | src/components/MoodPrediction.jsx:112-116 | reading the `m:ss` text back gives the seconds again |
| `Display.FormatTimeRemainingInjective` | src/components/MoodPrediction.jsx:112-116 | different durations are never shown as the same text |
| `Display.FormatNinetySixSeconds` | src/components/MoodPrediction.jsx:112-116 | 96 seconds are shown as "1:36" |
| `Display.AsWrittenZeroCaption` | src/components/MoodPrediction.jsx:153-156 | the panel as written shows a bare "0", which is not a time, when the remaining time is 0 |
| `Display.ProgressPanelCaptionReadsBack` | src/components/MoodPrediction.jsx:148-157 | the panel is shown exactly for "recording" and "Processing data" and carries the progress; with the corrected guard every present remaining time is captioned "Time remaining: " and a text that reads back as that time |
| `Display.ProgressPanelDiffersOnlyAtZero` | src/components/MoodPrediction.jsx:153-156 | the rendering as written and the corrected one differ only for a visible panel with remaining time 0 |
| `Decimal.NatToString` | src/components/MoodPrediction.jsx:115 | an integer prints as at least one digit, with no leading zero, and as one digit exactly below 10 |
| `Decimal.ParseNatToString` | src/components/MoodPrediction.jsx:115 | the printed digits read back as the number |
| `Decimal.NatToStringInjective` | src/components/MoodPrediction.jsx:115 | different numbers print differently |

## Findings

| source | as written | input that shows it | evidently intended | confidence | as-written member | corrected member |
|---|---|---|---|---|---|---|
| src/components/MoodPrediction.jsx:153-156 | `{timeRemaining && ...}` is the caption guard; React renders the number 0 as text | status "recording" with remaining time 0 shows the caption "0" | show the caption only when a remaining time is present, never a bare number ("Time remaining: 0:00") | medium, not executed | `Display.AsWrittenZeroCaption` (on `ProgressPanelAsWritten`) | `Display.ProgressPanelCaptionReadsBack` (on `ProgressPanelCaptioned`) |

## Left out

- Socket setup, reconnection settings (5 attempts, 1000 ms delay) and closing the socket on unmount (lines 17-23, 61-66): library I/O. Only the events they deliver are modelled.
- The `fetch` POST and JSON parsing (lines 95-99): network I/O. The parsed reply is the parameter of `OnStartReply`; any exception is `OnStartFailure`.
- Delivery order: a session is a sequence of events applied one at a time (`Session.Run`). React's batching of setter calls within one handler does not change the final state, because each handler writes independent fields and reads none.
- `null` and `undefined` are both `None`. The source tests `data.progress !== undefined` (line 43), so a `null` progress takes the progress branch there: progress becomes `null` and the remaining time takes the payload's value. The model reads a `null` progress as absent and takes the "only the status changes" branch, which keeps the old progress and the old remaining time.
- Number magnitude: seconds and minutes are unbounded `nat`. JavaScript numbers lose precision above 2^53 and print in exponent form from 1e21, so `Decimal.NatToString` and `Display.FormatTimeRemaining` match the source, and `Display.FormatTimeRemainingInjective` speaks about it, only below those bounds.
- The status of a `status_update` is always a string. The status of the start reply may be absent (`Option`).
- Progress is an integer and remaining time a natural number. Fractional values and `Math.floor` on fractions are left out (floating point).
- Confidence formatting `(confidence * 100).toFixed(1)` (line 187): floating point. Confidence is kept as a `real` inside the stored result.
- Emotion capitalisation with `toUpperCase` (lines 182-183): locale case mapping.
- `getEmotionColor` (line 178): the live code has no definition of it, so there is nothing to model.
- The commented-out older version of the component (lines 200-366): dead code.
- JSX layout, CSS classes, icons and `console.log` calls.
- `src/app/page.js`: it only mounts the component.
