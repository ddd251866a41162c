/** cmd/armv/poller/pollapi.go: the current polling loop. A deadline
    `pollingTimeout` after the start is fixed once for the whole run. Each
    tick checks the context first, then advances the progress counter (which
    wraps at `ProgressBarMax`), then probes the operation; a probe error ends
    the run unchanged, and a finished operation has its body read and handed
    to `writeOutput`. */
module PollApi {
  import opened Wrappers
  import opened Errors
  import opened GoContext
  import opened PollerTypes
  import opened Timestamp
  import opened PollResponse

  /** One turn of the loop as the outside world answers it: the clock when
      the context is checked, the outcome of `bar.Add(1)`, and the probe. */
  datatype Tick = Tick(now: int, addErr: Option<Error>, probe: Probe)

  /** What the run returns: an error or nil, or, when the script of ticks
      runs out first, that it is still polling. */
  datatype Outcome = Returned(err: Option<Error>) | StillPolling

  /** How a tick that ends the run ends it: with an error, or with the one
      output file to write. */
  datatype Ending = Stop(err: Error) | Write(file: FileWrite)

  /** The probe is issued in this tick: the context was still live and the
      progress bar did not fail. */
  predicate Probes(ctx: Context, t: Tick)
  {
    !IsDone(ctx, t.now) && t.addErr.None?
  }

  /** This tick ends the run. */
  predicate Ends(ctx: Context, t: Tick)
  {
    !Probes(ctx, t) || !t.probe.Pending?
  }

  /** Index of the tick that ends the run, or the length of the script when
      none does. */
  function ExitTick(ctx: Context, ticks: seq<Tick>): (k: nat)
    ensures k <= |ticks|
    ensures forall j | 0 <= j < k :: !Ends(ctx, ticks[j])
    ensures k < |ticks| ==> Ends(ctx, ticks[k])
  {
    if |ticks| == 0 || Ends(ctx, ticks[0]) then 0 else 1 + ExitTick(ctx, ticks[1..])
  }

  /** How the ending tick ends the run, in the order the loop tests things:
      the context, the progress bar, the probe; then, for a finished
      operation, `bar.Finish()`, the body read and `writeOutput`. */
  function EndingOf(ctx: Context, t: Tick, finishErr: Option<Error>, outputPath: string,
                  writeTime: DateTime, prettyJson: JsonFormatter): (e: Ending)
    requires Ends(ctx, t)
    ensures IsDone(ctx, t.now) ==> e == Stop(Wrap("polling timeout or cancelled: ", Err(ctx, t.now)))
    ensures !IsDone(ctx, t.now) && t.addErr.Some? ==> e == Stop(t.addErr.value)
    ensures Probes(ctx, t) && t.probe.Failed? ==> e == Stop(t.probe.err)
    ensures e.Write? ==> Probes(ctx, t) && t.probe.Done? && finishErr.None? && t.probe.response.body.Success?
    ensures e.Write? ==>
              var w := t.probe.response;
              OutputFile(PollerResponseData(w.body.value, w.statusCode, w.status), outputPath, writeTime, prettyJson)
                == Success(e.file)
    ensures Probes(ctx, t) && t.probe.Done? && finishErr.None? && t.probe.response.body.Success? ==>
              var w := t.probe.response;
              match OutputFile(PollerResponseData(w.body.value, w.statusCode, w.status), outputPath, writeTime, prettyJson)
              case Success(f) => e == Write(f)
              case Failure(err) => e == Stop(err)
    ensures Probes(ctx, t) && t.probe.Done? && finishErr.Some? ==> e == Stop(finishErr.value)
    ensures Probes(ctx, t) && t.probe.Done? && finishErr.None? && t.probe.response.body.Failure? ==>
              e == Stop(Wrap("failed to read response body: ", t.probe.response.body.error))
  {
    if IsDone(ctx, t.now) then Stop(Wrap("polling timeout or cancelled: ", Err(ctx, t.now)))
    else if t.addErr.Some? then Stop(t.addErr.value)
    else match t.probe
      case Failed(err) => Stop(err)
      case Done(w) =>
        if finishErr.Some? then Stop(finishErr.value)
        else if w.body.Failure? then Stop(Wrap("failed to read response body: ", w.body.error))
        else
          match OutputFile(PollerResponseData(w.body.value, w.statusCode, w.status), outputPath, writeTime, prettyJson)
          case Failure(err) => Stop(err)
          case Success(file) => Write(file)
  }

  /** A whole run: what it returns and the output files it hands to the
      sink, whose answer is `sinkFailure`. A run that ends without writing
      returns the error of its ending tick; a run that writes returns the
      sink's answer; a run whose script runs out writes nothing. */
  datatype RunSummary = RunSummary(outcome: Outcome, written: seq<FileWrite>)

  function Polled(ctx: Context, ticks: seq<Tick>, finishErr: Option<Error>, outputPath: string,
                  writeTime: DateTime, prettyJson: JsonFormatter, sinkFailure: Option<Error>): (p: RunSummary)
    ensures |p.written| <= 1
    ensures p.outcome.StillPolling? <==> ExitTick(ctx, ticks) == |ticks|
    ensures p.outcome.StillPolling? ==> p.written == []
    ensures |p.written| == 1 ==>
              var k := ExitTick(ctx, ticks);
              && k < |ticks| && Probes(ctx, ticks[k]) && ticks[k].probe.Done?
              && p.written[0].path == outputPath && p.outcome == Returned(sinkFailure)
    ensures var k := ExitTick(ctx, ticks);
            k < |ticks| ==>
              match EndingOf(ctx, ticks[k], finishErr, outputPath, writeTime, prettyJson)
              case Write(f) => p.written == [f] && p.outcome == Returned(sinkFailure)
              case Stop(err) => p.written == [] && p.outcome == Returned(Some(err))
    ensures p.outcome.Returned? && p.written == [] ==>
              var k := ExitTick(ctx, ticks);
              && k < |ticks| && p.outcome.err.Some?
              && EndingOf(ctx, ticks[k], finishErr, outputPath, writeTime, prettyJson) == Stop(p.outcome.err.value)
  {
    var k := ExitTick(ctx, ticks);
    if k == |ticks| then RunSummary(StillPolling, [])
    else match EndingOf(ctx, ticks[k], finishErr, outputPath, writeTime, prettyJson)
      case Stop(e) => RunSummary(Returned(Some(e)), [])
      case Write(f) => RunSummary(Returned(sinkFailure), [f])
  }

  /** `PollApi(ctx, respPoller, outputPath)`, with the parent context
      `parent`, the clock at the call `start`, the probes scripted by
      `ticks`, `bar.Finish()` answering `finishErr`, and the time read for
      the output file name `writeTime`. `counts` are the values of
      `barCount` at the probes issued. */
  method PollApi(parent: Context, start: int, pollingTimeout: int, ticks: seq<Tick>, finishErr: Option<Error>,
                 outputPath: string, writeTime: DateTime, prettyJson: JsonFormatter, sink: OutputSink)
    returns (r: Outcome, counts: seq<nat>)
    requires pollingTimeout >= OneMinute
    modifies sink
    ensures var ctx := WithTimeout(parent, start, pollingTimeout);
            var k := ExitTick(ctx, ticks);
            && |counts| == (if k < |ticks| && Probes(ctx, ticks[k]) then k + 1 else k)
            && (forall j | 0 <= j < |counts| :: counts[j] == BarCountAtProbe(j))
    ensures var p := Polled(WithTimeout(parent, start, pollingTimeout), ticks, finishErr, outputPath, writeTime,
                            prettyJson, sink.failure);
            r == p.outcome && sink.calls == old(sink.calls) + p.written
  {
    var ctx := WithTimeout(parent, start, pollingTimeout);
    var bar := new ProgressBar(ProgressBarMax);
    var barCount := 0;
    counts := [];
    var i := 0;
    while i < |ticks|
      invariant i <= ExitTick(ctx, ticks)
      invariant |counts| == i && forall j | 0 <= j < i :: counts[j] == BarCountAtProbe(j)
      invariant barCount == i % ProgressBarMax && bar.current == barCount
      invariant sink.calls == old(sink.calls)
    {
      var t := ticks[i];
      if IsDone(ctx, t.now) {
        PolledEndsAt(ctx, ticks, i, finishErr, outputPath, writeTime, prettyJson, sink.failure);
        var _ := bar.Finish(finishErr);
        return Returned(Some(Wrap("polling timeout or cancelled: ", Err(ctx, t.now)))), counts;
      }
      BarCountIncrement(i, barCount);
      barCount := barCount + 1;
      var addErr := bar.Add(1, t.addErr);
      if addErr.Some? {
        PolledEndsAt(ctx, ticks, i, finishErr, outputPath, writeTime, prettyJson, sink.failure);
        return Returned(addErr), counts;
      }
      if barCount >= ProgressBarMax {
        bar.Reset();
        barCount := 0;
      }
      counts := counts + [barCount];
      match t.probe {
      case Failed(err) =>
        PolledEndsAt(ctx, ticks, i, finishErr, outputPath, writeTime, prettyJson, sink.failure);
        return Returned(Some(err)), counts;
      case Pending =>
      case Done(w) =>
        PolledEndsAt(ctx, ticks, i, finishErr, outputPath, writeTime, prettyJson, sink.failure);
        r := FinishRun(bar, w, finishErr, outputPath, writeTime, prettyJson, sink);
        return r, counts;
      }
      i := i + 1;
    }
    r := StillPolling;
  }

  /** A run ends at the first tick that ends it, as that tick's ending says. */
  lemma PolledEndsAt(ctx: Context, ticks: seq<Tick>, i: nat, finishErr: Option<Error>, outputPath: string,
                     writeTime: DateTime, prettyJson: JsonFormatter, sinkFailure: Option<Error>)
    requires i < |ticks| && i <= ExitTick(ctx, ticks) && Ends(ctx, ticks[i])
    ensures ExitTick(ctx, ticks) == i
    ensures Polled(ctx, ticks, finishErr, outputPath, writeTime, prettyJson, sinkFailure)
            == match EndingOf(ctx, ticks[i], finishErr, outputPath, writeTime, prettyJson)
               case Stop(e) => RunSummary(Returned(Some(e)), [])
               case Write(f) => RunSummary(Returned(sinkFailure), [f])
  {
  }

  /** The end of a run whose probe found the operation done: finish the
      bar, read the body, write the output. */
  method FinishRun(bar: ProgressBar, w: HttpResponse, finishErr: Option<Error>, outputPath: string,
                   writeTime: DateTime, prettyJson: JsonFormatter, sink: OutputSink)
    returns (r: Outcome)
    modifies bar, sink
    ensures finishErr.Some? ==> r == Returned(finishErr) && sink.calls == old(sink.calls)
    ensures finishErr.None? && w.body.Failure? ==>
              r == Returned(Some(Wrap("failed to read response body: ", w.body.error))) && sink.calls == old(sink.calls)
    ensures finishErr.None? && w.body.Success? ==>
              match OutputFile(PollerResponseData(w.body.value, w.statusCode, w.status), outputPath, writeTime, prettyJson)
              case Failure(e) => r == Returned(Some(e)) && sink.calls == old(sink.calls)
              case Success(f) => r == Returned(sink.failure) && sink.calls == old(sink.calls) + [f]
  {
    var finished := bar.Finish(finishErr);
    if finished.Some? {
      return Returned(finished);
    }
    if w.body.Failure? {
      return Returned(Some(Wrap("failed to read response body: ", w.body.error)));
    }
    var pollResp := PollerResponseData(w.body.value, w.statusCode, w.status);
    var err := WriteOutput(pollResp, outputPath, writeTime, prettyJson, sink);
    r := Returned(err);
  }

  /** Nothing after the ending tick matters: once the run has ended no
      further tick is looked at, let alone probed. */
  lemma {:induction false} NoTickAfterExit(ctx: Context, ticks: seq<Tick>, more: seq<Tick>)
    requires ExitTick(ctx, ticks) < |ticks|
    ensures ExitTick(ctx, ticks + more) == ExitTick(ctx, ticks)
  {
    if !Ends(ctx, ticks[0]) {
      assert (ticks + more)[1..] == ticks[1..] + more;
      NoTickAfterExit(ctx, ticks[1..], more);
    }
  }

  /** Under a background parent the deadline is `start + pollingTimeout`,
      fixed when the run starts and never moved by the probes: a tick read
      before it never times out, and the first tick at or after it ends the
      run with the deadline error, unless an earlier tick has ended it. */
  lemma DeadlineFixedAtStart(start: int, pollingTimeout: int, ticks: seq<Tick>, j: nat)
    requires j < |ticks| && ticks[j].now >= start + pollingTimeout
    requires forall i | 0 <= i < j :: !Ends(WithTimeout(Background, start, pollingTimeout), ticks[i])
    ensures var ctx := WithTimeout(Background, start, pollingTimeout);
            && ExitTick(ctx, ticks) == j
            && forall finishErr: Option<Error>, outputPath: string, writeTime: DateTime, prettyJson: JsonFormatter ::
                 EndingOf(ctx, ticks[j], finishErr, outputPath, writeTime, prettyJson)
                   == Stop(Wrap("polling timeout or cancelled: ", DeadlineExceeded))
  {
    var ctx := WithTimeout(Background, start, pollingTimeout);
    var now := ticks[j].now;
    assert IsDone(ctx, now) && Err(ctx, now) == DeadlineExceeded by {
      TimeoutOfBackground(start, pollingTimeout, now);
    }
    assert ExitTick(ctx, ticks) == j by {
      ExitTickIs(ctx, ticks, j);
    }
    TimedOutEnding(ctx, ticks[j]);
  }

  /** A tick read once the context is done ends the run with the context's
      error, whatever the bar, the output path or the formatter. */
  lemma TimedOutEnding(ctx: Context, t: Tick)
    requires IsDone(ctx, t.now)
    ensures forall finishErr: Option<Error>, outputPath: string, writeTime: DateTime, prettyJson: JsonFormatter ::
              EndingOf(ctx, t, finishErr, outputPath, writeTime, prettyJson)
                == Stop(Wrap("polling timeout or cancelled: ", Err(ctx, t.now)))
  {
    forall finishErr: Option<Error>, outputPath: string, writeTime: DateTime, prettyJson: JsonFormatter
      ensures EndingOf(ctx, t, finishErr, outputPath, writeTime, prettyJson)
                == Stop(Wrap("polling timeout or cancelled: ", Err(ctx, t.now)))
    {
    }
  }

  /** Within the first minute of a run under a background parent the
      deadline never fires, whatever `pollingTimeout` is. */
  lemma NoTimeoutWithinOneMinute(start: int, pollingTimeout: int, t: Tick)
    requires pollingTimeout >= OneMinute && t.now < start + OneMinute
    ensures !IsDone(WithTimeout(Background, start, pollingTimeout), t.now)
  {
    TimeoutOfBackground(start, pollingTimeout, t.now);
  }

  /** The probes the ticks carry. */
  function ProbesOf(ticks: seq<Tick>): (ps: seq<Probe>)
    ensures |ps| == |ticks| && forall j | 0 <= j < |ticks| :: ps[j] == ticks[j].probe
  {
    seq(|ticks|, j requires 0 <= j < |ticks| => ticks[j].probe)
  }

  /** When neither the context nor the progress bar interferes, the loop
      ends at the same probe as the revisions with no deadline do. */
  lemma {:induction false} AgreesWithoutDeadline(ctx: Context, ticks: seq<Tick>)
    requires forall j | 0 <= j < |ticks| :: Probes(ctx, ticks[j])
    ensures ExitTick(ctx, ticks) == FirstSettled(ProbesOf(ticks))
  {
    if |ticks| > 0 && !Ends(ctx, ticks[0]) {
      assert ProbesOf(ticks)[1..] == ProbesOf(ticks[1..]);
      AgreesWithoutDeadline(ctx, ticks[1..]);
    }
  }

  /** `ExitTick` finds the tick that ends the run with none ending it before. */
  lemma {:induction false} ExitTickIs(ctx: Context, ticks: seq<Tick>, j: nat)
    requires j < |ticks| && Ends(ctx, ticks[j])
    requires forall i | 0 <= i < j :: !Ends(ctx, ticks[i])
    ensures ExitTick(ctx, ticks) == j
  {
    if j > 0 {
      assert !Ends(ctx, ticks[0]);
      ExitTickIs(ctx, ticks[1..], j - 1);
    }
  }

  /** A finished operation gets written: when the probe of tick `j` is the
      first to find the operation done, with the context live, the bar
      working, `bar.Finish()` succeeding and the body readable, the run hands
      the sink exactly the file `writeOutput` builds and returns the sink's
      answer; when that file cannot be built, the run returns the format
      error and writes nothing. */
  lemma FinishedOperationWritten(ctx: Context, ticks: seq<Tick>, j: nat, outputPath: string,
                                 writeTime: DateTime, prettyJson: JsonFormatter, sinkFailure: Option<Error>)
    requires j < |ticks| && Probes(ctx, ticks[j]) && ticks[j].probe.Done? && ticks[j].probe.response.body.Success?
    requires forall i | 0 <= i < j :: Probes(ctx, ticks[i]) && ticks[i].probe.Pending?
    ensures var w := ticks[j].probe.response;
            var p := Polled(ctx, ticks, None, outputPath, writeTime, prettyJson, sinkFailure);
            match OutputFile(PollerResponseData(w.body.value, w.statusCode, w.status), outputPath, writeTime, prettyJson)
            case Success(f) => p.written == [f] && p.outcome == Returned(sinkFailure)
            case Failure(err) => p.written == [] && p.outcome == Returned(Some(err))
  {
    ExitTickIs(ctx, ticks, j);
  }
}
