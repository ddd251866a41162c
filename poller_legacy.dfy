/** cmd/armv/poller/poller.go: the superseded revision of the polling loop,
    which has no deadline and returns the response record, and its printing
    interpreter `PollResponse`. */
module PollerLegacy {
  import opened Wrappers
  import opened Errors
  import opened PollerTypes
  import opened Timestamp
  import Current = PollResponse

  /** `PollApi(ctx, respPoller)`: the probes are scripted by `probes`;
      `counts` are the values of `barCount` at the probes issued. The
      progress bar's errors are discarded. */
  method PollApi(probes: seq<Probe>) returns (a: Answer, counts: seq<nat>)
    ensures a == SettledAnswer(probes)
    ensures |counts| == (if FirstSettled(probes) < |probes| then FirstSettled(probes) + 1 else |probes|)
    ensures forall j | 0 <= j < |counts| :: counts[j] == BarCountAtProbe(j)
  {
    var bar := new ProgressBar(ProgressBarMax);
    var barCount := 0;
    counts := [];
    var i := 0;
    while i < |probes|
      invariant i <= FirstSettled(probes)
      invariant |counts| == i && forall j | 0 <= j < i :: counts[j] == BarCountAtProbe(j)
      invariant barCount == i % ProgressBarMax && bar.current == barCount
    {
      BarCountIncrement(i, barCount);
      barCount := barCount + 1;
      var _ := bar.Add(1, None);
      if barCount >= ProgressBarMax {
        bar.Reset();
        barCount := 0;
      }
      counts := counts + [barCount];
      match probes[i] {
        case Failed(err) =>
          assert FirstSettled(probes) == i;
          var _ := bar.Finish(None);
          return Answered(EmptyResponse, Some(err)), counts;
        case Pending =>
        case Done(w) =>
          assert FirstSettled(probes) == i;
          var _ := bar.Finish(None);
          return Answered(ResponseData(w), None), counts;
      }
      i := i + 1;
    }
    a := Unanswered;
  }

  /** What `PollResponse` prints: the success lines naming the status, or
      the failure lines holding the formatted body. */
  datatype Printed = SuccessOutput(respStatus: string) | FailOutput(details: string)

  /** `PollResponse(pollResp)`: prints the outcome and returns nil, or
      returns the formatter's error unchanged and prints nothing. */
  function PollResponse(pollResp: PollerResponseData, prettyJson: Current.JsonFormatter): (r: Result<Printed, Error>)
    ensures pollResp.respStatusCode == ApiResourceMoveOk ==> r == Success(SuccessOutput(pollResp.respStatus))
    ensures pollResp.respStatusCode != ApiResourceMoveOk ==>
              match prettyJson(pollResp.respBody)
              case Failure(e) => r == Failure(e)
              case Success(text) => r == Success(FailOutput(text))
  {
    if pollResp.respStatusCode == ApiResourceMoveOk then Success(SuccessOutput(pollResp.respStatus))
    else
      match prettyJson(pollResp.respBody)
      case Failure(e) => Failure(e)
      case Success(text) => Success(FailOutput(text))
  }

  /** The printing interpreter and the file-writing `writeOutput` that
      replaced it take the same decisions: they fail on the same responses,
      the newer one wrapping the same formatter error, and otherwise report
      the same status or the same formatted text. */
  lemma InterpretersAgree(data: PollerResponseData, outputPath: string, now: DateTime,
                          prettyJson: Current.JsonFormatter)
    ensures var printed := PollResponse(data, prettyJson);
            var file := Current.OutputFile(data, outputPath, now, prettyJson);
            && (printed.Failure? <==> file.Failure?)
            && (printed.Failure? ==> file.error == Wrap("failed to format JSON output: ", printed.error))
            && (printed.Success? && printed.value.SuccessOutput? ==>
                  Current.BannerStatus(file.value.content) == Some(printed.value.respStatus))
            && (printed.Success? && printed.value.FailOutput? ==> file.value.content == printed.value.details)
  {
  }
}
