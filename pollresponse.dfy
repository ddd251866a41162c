/** cmd/armv/poller/pollresponse.go: `writeOutput` turns the final response
    into one output file. A 204 gives a success banner naming the status;
    any other status gives the pretty-printed JSON body. The file name
    carries the time of writing. */
module PollResponse {
  import opened Wrappers
  import opened Errors
  import opened PollerTypes
  import opened Timestamp

  /** `utils.PrettyJsonString` applied to the body read as a string: the
      indented JSON text, or the parse error. */
  type JsonFormatter = Bytes -> Result<string, Error>

  const BannerHead: string := "*** SUCCESS - No Azure Resource Validation issues found. ***\n*** Response Status Code OK: "
  const BannerTail: string := " ***"

  /** The success banner written for a 204 response. */
  function SuccessBanner(status: string): (r: string)
    ensures BannerStatus(r) == Some(status)
  {
    var r := BannerHead + status + BannerTail;
    assert r[..|BannerHead|] == BannerHead;
    assert r[|r| - |BannerTail|..] == BannerTail;
    assert r[|BannerHead|..|r| - |BannerTail|] == status;
    r
  }

  /** The status text a success banner names, if the text is one. */
  function BannerStatus(text: string): Option<string>
  {
    if |text| >= |BannerHead| + |BannerTail|
       && text[..|BannerHead|] == BannerHead
       && text[|text| - |BannerTail|..] == BannerTail
    then Some(text[|BannerHead|..|text| - |BannerTail|])
    else None
  }

  /** Different statuses give different banners. */
  lemma SuccessBannerInjective(s: string, t: string)
    requires SuccessBanner(s) == SuccessBanner(t)
    ensures s == t
  {
    assert BannerStatus(SuccessBanner(s)) == Some(s);
  }

  /** The output file's name: `output-`, the time of writing laid out by
      `Format` (year-month-day-hour-minute-second), then `.txt`. */
  function OutputFileName(now: DateTime): (r: string)
    ensures |r| == 30 && r[..7] == "output-" && r[26..] == ".txt"
    ensures Valid(now) ==> Parse(r[7..26]) == Some(now)
  {
    var r := "output-" + Format(now) + ".txt";
    assert r[7..26] == Format(now);
    assert Valid(now) ==> Parse(Format(now)) == Some(now) by {
      if Valid(now) {
        ParseFormat(now);
      }
    }
    r
  }

  /** Output files written at different seconds have different names; two
      writes within the same second name the same file. */
  lemma OutputFileNameInjective(now: DateTime, later: DateTime)
    requires Valid(now) && Valid(later)
    ensures OutputFileName(now) == OutputFileName(later) <==> now == later
  {
  }

  /** The file `writeOutput` hands to `WriteOutputFile`, or the error it
      returns before any write. */
  function OutputFile(data: PollerResponseData, outputPath: string, now: DateTime, prettyJson: JsonFormatter)
    : (r: Result<FileWrite, Error>)
    ensures r.Success? ==> r.value.path == outputPath && r.value.name == OutputFileName(now)
    ensures data.respStatusCode == ApiResourceMoveOk ==>
              r.Success? && BannerStatus(r.value.content) == Some(data.respStatus)
    ensures data.respStatusCode != ApiResourceMoveOk ==>
              match prettyJson(data.respBody)
              case Success(text) => r.Success? && r.value.content == text
              case Failure(e) => r.Failure? && Unwrap(r.error) == Some(e)
                                 && Message(r.error) == "failed to format JSON output: " + Message(e)
  {
    var fileName := OutputFileName(now);
    if data.respStatusCode == ApiResourceMoveOk then
      Success(FileWrite(outputPath, fileName, SuccessBanner(data.respStatus)))
    else
      match prettyJson(data.respBody)
      case Failure(e) => Failure(Wrap("failed to format JSON output: ", e))
      case Success(text) => Success(FileWrite(outputPath, fileName, text))
  }

  /** `(*PollerResponseData).writeOutput(outputPath)`: at most one call of
      `WriteOutputFile`, whose error is returned unchanged. */
  method WriteOutput(data: PollerResponseData, outputPath: string, now: DateTime, prettyJson: JsonFormatter,
                     sink: OutputSink)
    returns (err: Option<Error>)
    modifies sink
    ensures match OutputFile(data, outputPath, now, prettyJson)
            case Failure(e) => err == Some(e) && sink.calls == old(sink.calls)
            case Success(f) => err == sink.failure && sink.calls == old(sink.calls) + [f]
  {
    var fileName := OutputFileName(now);
    if data.respStatusCode == ApiResourceMoveOk {
      err := sink.WriteOutputFile(outputPath, fileName, SuccessBanner(data.respStatus));
      return;
    }
    var formatted := prettyJson(data.respBody);
    if formatted.Failure? {
      return Some(Wrap("failed to format JSON output: ", formatted.error));
    }
    err := sink.WriteOutputFile(outputPath, fileName, formatted.value);
  }

  /** For a 204 neither the body nor the formatter matters. */
  lemma SuccessIgnoresBody(data: PollerResponseData, body: Bytes, outputPath: string, now: DateTime,
                           prettyJson: JsonFormatter, other: JsonFormatter)
    requires data.respStatusCode == ApiResourceMoveOk
    ensures OutputFile(data, outputPath, now, prettyJson)
         == OutputFile(data.(respBody := body), outputPath, now, other)
  {
  }

  /** No status other than 204 is treated specially: a 409 is handled
      exactly like any other code. */
  lemma OtherStatusesAlike(data: PollerResponseData, code: int, outputPath: string, now: DateTime,
                           prettyJson: JsonFormatter)
    requires data.respStatusCode != ApiResourceMoveOk && code != ApiResourceMoveOk
    ensures OutputFile(data, outputPath, now, prettyJson)
         == OutputFile(data.(respStatusCode := code), outputPath, now, prettyJson)
  {
  }

  /** The only way to fail before writing is a formatter error on a
      response that is not a 204. */
  lemma FailsOnlyOnFormat(data: PollerResponseData, outputPath: string, now: DateTime, prettyJson: JsonFormatter)
    ensures OutputFile(data, outputPath, now, prettyJson).Failure?
        <==> data.respStatusCode != ApiResourceMoveOk && prettyJson(data.respBody).Failure?
  {
  }
}
