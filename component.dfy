/** The MoodPrediction component as an object: its five state fields, updated
    in place by one method per inbound event, each in the order of the
    component's own setter calls. */
module MoodPrediction {
  import opened Wrappers
  import opened Session

  class Component {
    var status: string
    var result: Option<FinalData>
    var error: Option<string>
    var progress: int
    var timeRemaining: Option<nat>

    /** The five fields as one value. */
    function State(): ViewState
      reads this
    {
      ViewState(status, result, error, progress, timeRemaining)
    }

    /** Mounting: idle, nothing shown, progress 0. */
    constructor ()
      ensures status == "idle" && result == None && error == None
      ensures progress == 0 && timeRemaining == None
      ensures State() == Initial
    {
      status := "idle";
      result := None;
      error := None;
      progress := 0;
      timeRemaining := None;
    }

    /** `connect`: clears the error and nothing else. */
    method OnConnect()
      modifies this
      ensures error == None
      ensures status == old(status) && result == old(result)
      ensures progress == old(progress) && timeRemaining == old(timeRemaining)
      ensures State() == Apply(old(State()), Connect)
    {
      error := None;
    }

    /** `connect_error`: shows the fixed connection message and nothing else. */
    method OnConnectError()
      modifies this
      ensures error == Some(ConnectErrorMessage)
      ensures status == old(status) && result == old(result)
      ensures progress == old(progress) && timeRemaining == old(timeRemaining)
      ensures State() == Apply(old(State()), ConnectError)
    {
      error := Some(ConnectErrorMessage);
    }

    /** `status_update`: always takes the status; an error status also takes
        the message; otherwise a present progress takes progress and remaining
        time together, even when the remaining time is absent. */
    method OnStatusUpdate(data: StatusData)
      modifies this
      ensures status == data.status && result == old(result)
      ensures data.status == "error" ==>
        error == data.message && progress == old(progress) && timeRemaining == old(timeRemaining)
      ensures data.status != "error" && data.progress.Some? ==>
        error == old(error) && progress == data.progress.value && timeRemaining == data.timeRemaining
      ensures data.status != "error" && data.progress.None? ==>
        error == old(error) && progress == old(progress) && timeRemaining == old(timeRemaining)
      ensures State() == Apply(old(State()), StatusUpdate(data))
    {
      status := data.status;
      if data.status == "error" {
        error := data.message;
      } else if data.progress.Some? {
        progress := data.progress.value;
        timeRemaining := data.timeRemaining;
      }
    }

    /** `final_result`: a "complete" payload becomes the result with progress
        100 (a previous error stays); any other status shows its message and
        moves to "error". */
    method OnFinalResult(data: FinalData)
      modifies this
      ensures timeRemaining == old(timeRemaining)
      ensures data.status == "complete" ==>
        result == Some(data) && status == "complete" && progress == 100 && error == old(error)
      ensures data.status != "complete" ==>
        error == data.message && status == "error" && result == old(result) && progress == old(progress)
      ensures State() == Apply(old(State()), FinalResult(data))
    {
      if data.status == "complete" {
        result := Some(data);
        status := "complete";
        progress := 100;
      } else {
        error := data.message;
        status := "error";
      }
    }

    /** The synchronous part of startRecording, before the request is awaited.
        It has no guard of its own: only the button is disabled. */
    method BeginStart()
      modifies this
      ensures status == "starting" && error == None && result == None
      ensures progress == 0 && timeRemaining == None
      ensures State() == Apply(old(State()), StartReset)
    {
      status := "starting";
      error := None;
      result := None;
      progress := 0;
      timeRemaining := None;
    }

    /** The reply to the start request, whenever it arrives: an "error" reply
        shows its message and moves to "error"; any other reply changes nothing. */
    method OnStartReply(reply: ReplyData)
      modifies this
      ensures result == old(result) && progress == old(progress) && timeRemaining == old(timeRemaining)
      ensures reply.status == Some("error") ==> error == reply.message && status == "error"
      ensures reply.status != Some("error") ==> error == old(error) && status == old(status)
      ensures State() == Apply(old(State()), StartReply(reply))
    {
      if reply.status == Some("error") {
        error := reply.message;
        status := "error";
      }
    }

    /** The request threw (no connection, or a reply that is not JSON): the
        fixed start-failure message and the "error" status. */
    method OnStartFailure()
      modifies this
      ensures error == Some(StartFailureMessage) && status == "error"
      ensures result == old(result) && progress == old(progress) && timeRemaining == old(timeRemaining)
      ensures State() == Apply(old(State()), StartFailure)
    {
      error := Some(StartFailureMessage);
      status := "error";
    }
  }

  /** A session driven through the object, with a server update arriving
      while the start request is in flight. */
  method ExampleSession(ok: FinalData)
    requires ok.status == "complete"
  {
    var c := new Component();
    c.BeginStart();
    c.OnStatusUpdate(StatusData("recording", None, Some(42), Some(96)));
    assert c.progress == 42 && c.timeRemaining == Some(96);
    c.OnStartReply(ReplyData(Some("ok"), None));
    assert c.status == "recording";
    c.OnFinalResult(ok);
    assert c.result == Some(ok) && c.status == "complete" && c.progress == 100;
    c.OnFinalResult(FinalData("failed", None, None, Some("device disconnected")));
    assert c.error == Some("device disconnected") && c.status == "error";
    c.BeginStart();
    assert c.State() == ViewState("starting", None, None, 0, None);
  }
}
