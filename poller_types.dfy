/** What the three revisions of the polling loop share: the package
    constants, the shape of a probe of the long-running operation, the
    response record, the progress bar and the output-file sink. */
module PollerTypes {
  import opened Wrappers
  import opened Errors

  /** `progressBarMax`: the progress counter wraps back to 0 at this value. */
  const ProgressBarMax: nat := 100

  /** `API_SUCCESS`: the operation was accepted (202). */
  const ApiSuccess: int := 202

  /** `API_RESOURCE_MOVE_OK`: validation passed, No Content (204). */
  const ApiResourceMoveOk: int := 204

  /** `API_RESOURCE_MOVE_FAIL`: validation found conflicts (409). */
  const ApiResourceMoveFail: int := 409

  type Bytes = seq<bv8>

  /** The final HTTP response of the operation. `body` is what reading
      `w.Body` to the end yields: the bytes, or the read error. */
  datatype HttpResponse = HttpResponse(body: Result<Bytes, Error>, statusCode: int, status: string)

  /** The outcome of one `respPoller.Poll(ctx)` followed by
      `respPoller.Done()`: still running, a poll error, or done with the
      final response. */
  datatype Probe = Pending | Failed(err: Error) | Done(response: HttpResponse)

  /** `PollerResponseData` (and the older `PollerResponse`): body, status
      code and status text of the final response. */
  datatype PollerResponseData = PollerResponseData(respBody: Bytes, respStatusCode: int, respStatus: string)

  /** The zero `PollerResponse{}` the older loops return beside an error. */
  const EmptyResponse: PollerResponseData := PollerResponseData([], 0, "")

  /** Index of the first probe that ends a loop with no deadline (a poll
      error or done), or the length of the script when none does. */
  function FirstSettled(probes: seq<Probe>): (k: nat)
    ensures k <= |probes|
    ensures forall j | 0 <= j < k :: probes[j].Pending?
    ensures k < |probes| ==> !probes[k].Pending?
  {
    if |probes| == 0 || !probes[0].Pending? then 0 else 1 + FirstSettled(probes[1..])
  }

  /** What the loops with no deadline return: the response record and the
      error beside it, or, when the script of probes runs out first, that
      they are still polling. */
  datatype Answer = Answered(resp: PollerResponseData, err: Option<Error>) | Unanswered

  /** `utils.FetchResponseBody(w.Body)` in the one-result form the older
      loops call: the bytes read, nothing when the read fails. */
  function ReadBody(body: Result<Bytes, Error>): Bytes
  {
    if body.Success? then body.value else []
  }

  /** The record the older loops build from a finished operation's response. */
  function ResponseData(w: HttpResponse): PollerResponseData
  {
    PollerResponseData(ReadBody(w.body), w.statusCode, w.status)
  }

  /** The answer of a loop with no deadline: the first settled probe decides
      it. A poll error comes back unchanged beside an empty record; a
      finished operation comes back as its own body, status code and
      status, with no error. */
  function SettledAnswer(probes: seq<Probe>): (a: Answer)
    ensures a.Unanswered? <==> forall j | 0 <= j < |probes| :: probes[j].Pending?
    ensures var k := FirstSettled(probes);
            k < |probes| && probes[k].Failed? ==> a == Answered(EmptyResponse, Some(probes[k].err))
    ensures var k := FirstSettled(probes);
            k < |probes| && probes[k].Done? ==> a == Answered(ResponseData(probes[k].response), None)
  {
    var k := FirstSettled(probes);
    if k == |probes| then Unanswered
    else match probes[k]
      case Failed(e) => Answered(EmptyResponse, Some(e))
      case Done(w) => Answered(ResponseData(w), None)
  }

  /** `FirstSettled` finds the probe that is settled with only pending
      probes before it. */
  lemma {:induction false} FirstSettledIs(probes: seq<Probe>, j: nat)
    requires j < |probes| && !probes[j].Pending?
    requires forall i | 0 <= i < j :: probes[i].Pending?
    ensures FirstSettled(probes) == j
  {
    if j > 0 {
      assert probes[0].Pending?;
      FirstSettledIs(probes[1..], j - 1);
    }
  }

  /** The loops with no deadline answer from the first probe that settles,
      whatever follows it: a poll error there wins over a later finished
      operation, and a finished operation there over a later error. */
  lemma AnsweredByFirstSettled(probes: seq<Probe>, j: nat)
    requires j < |probes| && !probes[j].Pending?
    requires forall i | 0 <= i < j :: probes[i].Pending?
    ensures probes[j].Failed? ==> SettledAnswer(probes) == Answered(EmptyResponse, Some(probes[j].err))
    ensures probes[j].Done? ==> SettledAnswer(probes) == Answered(ResponseData(probes[j].response), None)
  {
    FirstSettledIs(probes, j);
  }

  /** The value of `barCount` when the loop issues its probe number `i`
      (counting from 0): incremented once per tick, reset at the maximum. */
  function BarCountAtProbe(i: nat): (c: nat)
    ensures c < ProgressBarMax
    ensures c == 0 <==> i % ProgressBarMax == ProgressBarMax - 1
  {
    (i + 1) % ProgressBarMax
  }

  /** The counter runs up by one from probe to probe except where it wraps
      back to 0. */
  lemma BarCountSteps(i: nat)
    ensures BarCountAtProbe(i + 1) == if BarCountAtProbe(i) == ProgressBarMax - 1 then 0 else BarCountAtProbe(i) + 1
  {
  }

  /** One loop turn's update of the counter: incrementing `i % ProgressBarMax`
      and resetting it at the maximum gives the count at probe `i`, which is
      `(i + 1) % ProgressBarMax`. */
  lemma BarCountIncrement(i: nat, barCount: nat)
    requires barCount == i % ProgressBarMax
    ensures (if barCount + 1 >= ProgressBarMax then 0 else barCount + 1) == BarCountAtProbe(i)
    ensures BarCountAtProbe(i) == (i + 1) % ProgressBarMax
  {
  }

  /** A call of `utils.WriteOutputFile(outputPath, filename, output)`. */
  datatype FileWrite = FileWrite(path: string, name: string, content: string)

  /** The file system behind `utils.WriteOutputFile`: it records each call
      and answers with the error it was set up to return. */
  class OutputSink {
    var calls: seq<FileWrite>
    const failure: Option<Error>

    constructor (failure: Option<Error>)
      ensures calls == [] && this.failure == failure
    {
      calls := [];
      this.failure := failure;
    }

    method WriteOutputFile(outputPath: string, filename: string, output: string) returns (err: Option<Error>)
      modifies this
      ensures calls == old(calls) + [FileWrite(outputPath, filename, output)]
      ensures err == failure
    {
      calls := calls + [FileWrite(outputPath, filename, output)];
      err := failure;
    }
  }

  /** The terminal progress bar: a counter out of `max` and a finished flag.
      Its `Add` and `Finish` fail only when the terminal write fails; that
      outcome is passed in. */
  class ProgressBar {
    const max: nat
    var current: nat
    var finished: bool

    constructor (max: nat)
      ensures this.max == max && current == 0 && !finished
    {
      this.max := max;
      current := 0;
      finished := false;
    }

    method Add(n: nat, failure: Option<Error>) returns (err: Option<Error>)
      modifies this
      ensures current == old(current) + n && finished == old(finished)
      ensures err == failure
    {
      current := current + n;
      err := failure;
    }

    method Reset()
      modifies this
      ensures current == 0 && finished == old(finished)
    {
      current := 0;
    }

    method Finish(failure: Option<Error>) returns (err: Option<Error>)
      modifies this
      ensures finished && current == old(current)
      ensures err == failure
    {
      finished := true;
      err := failure;
    }
  }
}
