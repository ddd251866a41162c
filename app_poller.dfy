/** cmd/armv/app/poller.go: the oldest revision of the polling loop. The
    loop lives in a closure `pollingLoop` that shares the progress bar with
    `pollApi`; `pollApi` runs it once and passes its answer on. */
module AppPoller {
  import opened Wrappers
  import opened Errors
  import opened PollerTypes

  /** The `pollingLoop` closure over `bar` and the scripted probes. */
  method PollingLoop(bar: ProgressBar, probes: seq<Probe>) returns (a: Answer, counts: seq<nat>)
    modifies bar
    ensures a == SettledAnswer(probes)
    ensures |counts| == (if FirstSettled(probes) < |probes| then FirstSettled(probes) + 1 else |probes|)
    ensures forall j | 0 <= j < |counts| :: counts[j] == BarCountAtProbe(j)
    ensures bar.finished == old(bar.finished)
  {
    var barCount := 0;
    counts := [];
    var i := 0;
    while i < |probes|
      invariant i <= FirstSettled(probes)
      invariant |counts| == i && forall j | 0 <= j < i :: counts[j] == BarCountAtProbe(j)
      invariant barCount == i % ProgressBarMax
      invariant bar.finished == old(bar.finished)
    {
      var _ := bar.Add(1, None);
      BarCountIncrement(i, barCount);
      barCount := barCount + 1;
      if barCount >= ProgressBarMax {
        bar.Reset();
        barCount := 0;
      }
      counts := counts + [barCount];
      match probes[i] {
        case Failed(err) =>
          assert FirstSettled(probes) == i;
          return Answered(EmptyResponse, Some(err)), counts;
        case Pending =>
        case Done(w) =>
          assert FirstSettled(probes) == i;
          return Answered(ResponseData(w), None), counts;
      }
      i := i + 1;
    }
    a := Unanswered;
  }

  /** `pollApi(ctx, respPoller)`: on an error the closure's record is
      replaced by the empty one, which is what the closure returned anyway;
      otherwise its answer is returned unchanged. The deferred
      `bar.Finish()` runs on every return. */
  method PollApi(probes: seq<Probe>) returns (a: Answer, counts: seq<nat>)
    ensures a == SettledAnswer(probes)
    ensures |counts| == (if FirstSettled(probes) < |probes| then FirstSettled(probes) + 1 else |probes|)
    ensures forall j | 0 <= j < |counts| :: counts[j] == BarCountAtProbe(j)
  {
    var bar := new ProgressBar(ProgressBarMax);
    var poller, loopCounts := PollingLoop(bar, probes);
    counts := loopCounts;
    if poller.Answered? && poller.err.Some? {
      a := Answered(EmptyResponse, poller.err);
    } else {
      a := poller;
    }
    var _ := bar.Finish(None);
  }
}
