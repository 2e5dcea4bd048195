/** The session view state of the MoodPrediction component and the effect of
    each inbound event on it, as pure functions, with properties of whole
    sessions (sequences of events applied one at a time). */
module Session {
  import opened Wrappers
  import opened Display

  /** Payload of a `status_update` push. */
  datatype StatusData = StatusData(
    status: string,
    message: Option<string>,
    progress: Option<int>,
    timeRemaining: Option<nat>)

  /** Payload of a `final_result` push; on success it is stored whole as the result. */
  datatype FinalData = FinalData(
    status: string,
    emotion: Option<string>,
    confidence: Option<real>,
    message: Option<string>)

  /** The parsed JSON reply to the start request. */
  datatype ReplyData = ReplyData(status: Option<string>, message: Option<string>)

  /** The five state fields of the component. */
  datatype ViewState = ViewState(
    status: string,
    result: Option<FinalData>,
    error: Option<string>,
    progress: int,
    timeRemaining: Option<nat>)

  /** Everything that changes the view state: the four socket events, and the
      two halves of a start request (the synchronous reset, then its outcome). */
  datatype Event =
    | Connect
    | ConnectError
    | StatusUpdate(update: StatusData)
    | FinalResult(final: FinalData)
    | StartReset
    | StartReply(reply: ReplyData)
    | StartFailure

  const ConnectErrorMessage: string := "Failed to connect to the server. Please ensure the server is running."
  const StartFailureMessage: string := "Failed to connect to server. Please ensure the server is running."

  /** The state the component mounts with. */
  const Initial: ViewState := ViewState("idle", None, None, 0, None)

  /** The effect of one event. */
  function Apply(v: ViewState, e: Event): ViewState {
    match e
    case Connect => v.(error := None)
    case ConnectError => v.(error := Some(ConnectErrorMessage))
    case StatusUpdate(d) =>
      if d.status == "error" then v.(status := d.status, error := d.message)
      else if d.progress.Some? then
        v.(status := d.status, progress := d.progress.value, timeRemaining := d.timeRemaining)
      else v.(status := d.status)
    case FinalResult(d) =>
      if d.status == "complete" then v.(result := Some(d), status := "complete", progress := 100)
      else v.(error := d.message, status := "error")
    case StartReset => ViewState("starting", None, None, 0, None)
    case StartReply(r) =>
      if r.status == Some("error") then v.(error := r.message, status := "error") else v
    case StartFailure => v.(error := Some(StartFailureMessage), status := "error")
  }

  /** A session: the events applied in the order they arrive. */
  function Run(v: ViewState, es: seq<Event>): ViewState
    decreases |es|
  {
    if es == [] then v else Run(Apply(v, es[0]), es[1..])
  }

  // ---------------------------------------------------------------------
  // Composition of sessions

  lemma {:induction false} RunAppend(v: ViewState, a: seq<Event>, b: seq<Event>)
    ensures Run(v, a + b) == Run(Run(v, a), b)
    decreases |a|
  {
    if a == [] {
      assert a + b == b;
    } else {
      assert (a + b)[1..] == a[1..] + b;
      RunAppend(Apply(v, a[0]), a[1..], b);
    }
  }

  lemma RunLast(v: ViewState, es: seq<Event>, e: Event)
    ensures Run(v, es + [e]) == Apply(Run(v, es), e)
  {
    RunAppend(v, es, [e]);
    assert Run(Run(v, es), [e]) == Run(Apply(Run(v, es), e), []);
  }

  // ---------------------------------------------------------------------
  // Starting a session

  /** The synchronous reset leaves a state that does not depend on anything
      that happened before. */
  lemma StartResetForgetsHistory(v: ViewState, es: seq<Event>)
    ensures Run(v, es + [StartReset]) == ViewState("starting", None, None, 0, None)
  {
    RunLast(v, es, StartReset);
  }

  /** A start reply without an error status leaves whatever state the events
      that arrived during the request produced. */
  lemma StartReplyOkAfterGap(v: ViewState, gap: seq<Event>, r: ReplyData)
    requires r.status != Some("error")
    ensures Run(v, [StartReset] + gap + [StartReply(r)]) == Run(v, [StartReset] + gap)
  {
    RunLast(v, [StartReset] + gap, StartReply(r));
  }

  /** A rejected or failed start request ends in the error status with its
      message, whatever arrived during the request, and keeps the result,
      the progress and the remaining time that were there. */
  lemma StartRejectionAfterGap(v: ViewState, gap: seq<Event>, outcome: Event)
    requires outcome == StartFailure || (outcome.StartReply? && outcome.reply.status == Some("error"))
    ensures var before := Run(v, [StartReset] + gap);
      var after := Run(v, [StartReset] + gap + [outcome]);
      after.status == "error" &&
      after.error == (if outcome == StartFailure then Some(StartFailureMessage) else outcome.reply.message) &&
      after.result == before.result && after.progress == before.progress &&
      after.timeRemaining == before.timeRemaining
  {
    RunLast(v, [StartReset] + gap, outcome);
  }

  // ---------------------------------------------------------------------
  // The start button over a session

  /** Events that can bring the status back to one the button accepts. */
  predicate Reenables(e: Event) {
    match e
    case StatusUpdate(d) => StartEnabled(d.status)
    case FinalResult(_) => true
    case StartReply(r) => r.status == Some("error")
    case StartFailure => true
    case _ => false
  }

  /** Once disabled, the button stays disabled until one of the re-enabling
      events arrives. */
  lemma {:induction false} StaysDisabled(v: ViewState, es: seq<Event>)
    requires !StartEnabled(v.status)
    requires forall i :: 0 <= i < |es| ==> !Reenables(es[i])
    ensures !StartEnabled(Run(v, es).status)
    decreases |es|
  {
    if es != [] {
      assert !Reenables(es[0]);
      StaysDisabled(Apply(v, es[0]), es[1..]);
    }
  }

  /** After a start, the button is disabled until a re-enabling event. */
  lemma StartDisablesButton(v: ViewState, es: seq<Event>)
    requires forall i :: 0 <= i < |es| ==> !Reenables(es[i])
    ensures !StartEnabled(Run(v, [StartReset] + es).status)
  {
    RunAppend(v, [StartReset], es);
    StaysDisabled(Apply(v, StartReset), es);
  }

  /** Every terminal event (a final result, a rejected or failed start)
      re-enables the button, whatever came before. */
  lemma TerminalEventEnablesStart(v: ViewState, es: seq<Event>, e: Event)
    requires e.FinalResult? || e == StartFailure || (e.StartReply? && e.reply.status == Some("error"))
    ensures StartEnabled(Run(v, es + [e]).status)
  {
    RunLast(v, es, e);
  }

  /** There is no sticky terminal state: a later status update overwrites
      the status set by a final result. */
  lemma StatusUpdateOverridesFinalResult(v: ViewState, es: seq<Event>, f: FinalData, d: StatusData)
    ensures Run(v, es + [FinalResult(f), StatusUpdate(d)]).status == d.status
  {
    assert es + [FinalResult(f), StatusUpdate(d)] == (es + [FinalResult(f)]) + [StatusUpdate(d)];
    RunLast(v, es + [FinalResult(f)], StatusUpdate(d));
  }

  // ---------------------------------------------------------------------
  // Where results, errors and progress come from

  /** A result present at the end of a session was there at its start or
      was delivered by a successful final result. */
  lemma {:induction false} ResultProvenance(v: ViewState, es: seq<Event>)
    requires Run(v, es).result.Some?
    ensures var p := Run(v, es).result.value;
      v.result == Some(p) ||
      (p.status == "complete" && exists i :: 0 <= i < |es| && es[i] == FinalResult(p))
    decreases |es|
  {
    if es != [] {
      var p := Run(v, es).result.value;
      var w := Apply(v, es[0]);
      ResultProvenance(w, es[1..]);
      if w.result == Some(p) {
        if v.result != Some(p) {
          assert es[0] == FinalResult(p);
        }
      } else {
        var i :| 0 <= i < |es[1..]| && es[1..][i] == FinalResult(p);
        assert es[i + 1] == FinalResult(p);
      }
    }
  }

  /** The events that can set the error field to `m`. */
  predicate Reports(e: Event, m: string) {
    match e
    case ConnectError => m == ConnectErrorMessage
    case StatusUpdate(d) => d.status == "error" && d.message == Some(m)
    case FinalResult(d) => d.status != "complete" && d.message == Some(m)
    case StartReply(r) => r.status == Some("error") && r.message == Some(m)
    case StartFailure => m == StartFailureMessage
    case _ => false
  }

  /** No error message is invented: one present at the end of a session was
      there at its start or was reported by one of its events. */
  lemma {:induction false} ErrorProvenance(v: ViewState, es: seq<Event>)
    requires Run(v, es).error.Some?
    ensures var m := Run(v, es).error.value;
      v.error == Some(m) || exists i :: 0 <= i < |es| && Reports(es[i], m)
    decreases |es|
  {
    if es != [] {
      var m := Run(v, es).error.value;
      var w := Apply(v, es[0]);
      ErrorProvenance(w, es[1..]);
      if w.error == Some(m) {
        if v.error != Some(m) {
          assert Reports(es[0], m);
        }
      } else {
        var i :| 0 <= i < |es[1..]| && Reports(es[1..][i], m);
        assert Reports(es[i + 1], m);
      }
    }
  }

  /** A status update whose progress, if any, is a percentage. */
  predicate ProgressInRange(e: Event) {
    e.StatusUpdate? && e.update.progress.Some? ==> 0 <= e.update.progress.value <= 100
  }

  /** The component itself only writes 0 and 100 to the progress, so it stays
      a percentage as long as the server's updates are percentages. */
  lemma {:induction false} ProgressStaysPercentage(v: ViewState, es: seq<Event>)
    requires 0 <= v.progress <= 100
    requires forall i :: 0 <= i < |es| ==> ProgressInRange(es[i])
    ensures 0 <= Run(v, es).progress <= 100
    decreases |es|
  {
    if es != [] {
      assert ProgressInRange(es[0]);
      ProgressStaysPercentage(Apply(v, es[0]), es[1..]);
    }
  }

  /** Result and error are not exclusive: a connection error during a session
      followed by a successful final result leaves both present. */
  lemma ResultAndErrorCanCoexist(f: FinalData)
    requires f.status == "complete"
    ensures var s := Run(Initial, [StartReset, ConnectError, FinalResult(f)]);
      s.result == Some(f) && s.error == Some(ConnectErrorMessage) && s.status == "complete"
  {
    var s1 := Apply(Initial, StartReset);
    var s2 := Apply(s1, ConnectError);
    var s3 := Apply(s2, FinalResult(f));
    assert Run(s2, [FinalResult(f)]) == Run(s3, []);
    assert [ConnectError, FinalResult(f)][1..] == [FinalResult(f)];
    assert Run(s1, [ConnectError, FinalResult(f)]) == s3;
    assert [StartReset, ConnectError, FinalResult(f)][1..] == [ConnectError, FinalResult(f)];
  }
}
