/** cmd/armv/app/root.go: `run`, the pipeline behind the command. It checks
    both subscription IDs, builds the move-info record, obtains a credential,
    checks the login, gathers the resource group information, submits the
    validation request and polls it, stopping at the first stage that fails. */
module Root {
  import opened Wrappers
  import opened Errors
  import opened Pointers
  import opened Validation
  import opened Cloud
  import opened GoContext
  import opened PollerTypes
  import opened Timestamp
  import opened PollResponse
  import opened PollApi
  import opened Resources
  import opened ResourceGroupInfo
  import UtilsSubscription

  /** `DefaultOutputPath` */
  const DefaultOutputPath: string := "./output"

  /** `utils.Args`, with the two fields the command fills in besides the
      four identifiers. */
  datatype Args = Args(
    sourceSubscriptionId: string,
    sourceResourceGroup: string,
    targetSubscriptionId: string,
    targetResourceGroup: string,
    debug: bool,
    outputPath: string)

  /** `Config` */
  datatype Config = Config(args: Args, outputPath: string)

  /** What the polling stage takes from outside the program: the clock when
      polling starts, the polling timeout, the progress bar's answer to
      `Finish`, the clock when the output file is named, and the JSON
      indenter. */
  datatype PollSetup = PollSetup(
    start: int,
    pollingTimeout: int,
    finishErr: Option<Error>,
    writeTime: DateTime,
    prettyJson: JsonFormatter)

  /** The error for a malformed subscription ID; `which` is "Source" or
      "Target". */
  function InvalidId(which: string): Error
  {
    Leaf("invalid " + which + " Subscription ID format: should be '0000-0000-0000-000000000000'")
  }

  /** A run of `run`: what it returns, the Azure calls it makes in order,
      and the output files it writes. */
  datatype RunTrace = RunTrace(outcome: Outcome, calls: seq<Call>, written: seq<FileWrite>)

  /** The ID of the target group as the record holds it, `None` for nil. */
  function TargetValue(p: StringPtr?): Option<string>
    reads p
  {
    if p == null then None else Some(p.value)
  }

  /** What a poll outcome becomes in `run`: a poll error is wrapped, success
      stays nil. */
  function PollStage(o: Outcome): (r: Outcome)
    ensures o.StillPolling? <==> r.StillPolling?
    ensures o == Returned(None) <==> r == Returned(None)
    ensures o.Returned? && o.err.Some? ==>
              r.Returned? && r.err.Some? && Unwrap(r.err.value) == o.err
              && Message(r.err.value) == "failed to poll API: " + Message(o.err.value)
  {
    match o
    case StillPolling => Outcome.StillPolling
    case Returned(None) => Returned(None)
    case Returned(Some(e)) => Returned(Some(Wrap("failed to poll API: ", e)))
  }

  /** The stages of `run` in order, each reached only when the ones before
      succeeded. `parent` is the context `run` is given; `sinkFailure` is
      the file system's answer to the write. */
  function RunEnd(parent: Context, cfg: Config, az: Azure, setup: PollSetup, sinkFailure: Option<Error>): (t: RunTrace)
  {
    var a := cfg.args;
    if !UtilsSubscription.CheckValidSubscriptionID(a.sourceSubscriptionId) then
      RunTrace(Returned(Some(InvalidId("Source"))), [], [])
    else if !UtilsSubscription.CheckValidSubscriptionID(a.targetSubscriptionId) then
      RunTrace(Returned(Some(InvalidId("Target"))), [], [])
    else AfterIds(parent, cfg, az, setup, sinkFailure)
  }

  /** The stages of `run` once both IDs passed: obtain a credential, check
      the login, then go on after the login. */
  function AfterIds(parent: Context, cfg: Config, az: Azure, setup: PollSetup, sinkFailure: Option<Error>): (t: RunTrace)
  {
    var c0 := [AskCredential];
    match az.credential
    case Failure(e) => RunTrace(Returned(Some(Wrap("failed to get Azure default credential: ", e))), c0, [])
    case Success(_) =>
      var t := AfterCredential(parent, cfg, az, setup, sinkFailure);
      RunTrace(t.outcome, c0 + t.calls, t.written)
  }

  /** The stages of `run` once a credential was obtained: check the login,
      then go on after the login. */
  function AfterCredential(parent: Context, cfg: Config, az: Azure, setup: PollSetup, sinkFailure: Option<Error>): (t: RunTrace)
  {
    var c1 := [AskLogin];
    if az.loginErr.Some? then RunTrace(Returned(az.loginErr), c1, [])
    else
      var t := AfterLogin(parent, cfg, az, setup, sinkFailure);
      RunTrace(t.outcome, c1 + t.calls, t.written)
  }

  /** The stages of `run` after the login check: gather the resource group
      information, then submit what it stored and poll. */
  function AfterLogin(parent: Context, cfg: Config, az: Azure, setup: PollSetup, sinkFailure: Option<Error>): (t: RunTrace)
  {
    var a := cfg.args;
    var g := GroupInfoRun(az, a.sourceSubscriptionId, a.sourceResourceGroup, a.targetResourceGroup);
    if g.err.Some? then RunTrace(Returned(g.err), g.calls, [])
    else
      var s := SubmitEnd(parent, cfg.outputPath, az, setup, sinkFailure, g.storedIds.value.value, g.storedTargetId.value);
      RunTrace(s.outcome, g.calls + s.calls, s.written)
  }

  /** The last two stages of `run`: submit the move of `resources` to the
      group `target`, then poll the operation and write its result to
      `outputPath`. Its calls are the ones these stages add. */
  function SubmitEnd(parent: Context, outputPath: string, az: Azure, setup: PollSetup, sinkFailure: Option<Error>,
                     resources: seq<string>, target: Option<string>): (t: RunTrace)
  {
    var c := [SubmitMove(resources, target)];
    match az.submission
    case Failure(e) => RunTrace(Returned(Some(Wrap("failed to validate resource move: ", e))), c, [])
    case Success(ticks) =>
      var p := Polled(WithTimeout(parent, setup.start, setup.pollingTimeout), ticks, setup.finishErr,
                      outputPath, setup.writeTime, setup.prettyJson, sinkFailure);
      RunTrace(PollStage(p.outcome), c, p.written)
  }

  /** The record names the subscription and the groups of the arguments. */
  predicate Describes(info: AzureResourceMoveInfo, a: Args)
    reads info
  {
    && info.sourceSubscriptionId == a.sourceSubscriptionId
    && info.sourceResourceGroup == a.sourceResourceGroup
    && info.targetResourceGroup == a.targetResourceGroup
  }

  /** Both IDs pass the format check. */
  predicate IdsValid(a: Args)
  {
    UtilsSubscription.CheckValidSubscriptionID(a.sourceSubscriptionId)
    && UtilsSubscription.CheckValidSubscriptionID(a.targetSubscriptionId)
  }

  /** `run(ctx, cfg)`, with the Azure services `az`, the file system `sink`
      and the polling inputs `setup`. `info` is the move-info record the
      run built, or null when an ID was refused before it was built. */
  method Run(parent: Context, cfg: Config, az: Azure, sink: OutputSink, setup: PollSetup)
    returns (r: Outcome, info: AzureResourceMoveInfo?)
    requires setup.pollingTimeout >= OneMinute
    modifies az, sink
    ensures var t := RunEnd(parent, cfg, az, setup, sink.failure);
            && r == t.outcome
            && az.log == old(az.log) + t.calls
            && sink.calls == old(sink.calls) + t.written
    ensures info == null <==> !IdsValid(cfg.args)
    ensures info != null ==>
              && fresh(info)
              && Describes(info, cfg.args)
              && info.credentials == (if az.credential.Success? then Some(az.credential.value) else None)
              && (az.credential.Failure? || az.loginErr.Some? ==>
                    info.resourceIds == Nil && info.targetResourceGroupId == null)
  {
    if !UtilsSubscription.CheckValidSubscriptionID(cfg.args.sourceSubscriptionId) {
      return Returned(Some(InvalidId("Source"))), null;
    }
    if !UtilsSubscription.CheckValidSubscriptionID(cfg.args.targetSubscriptionId) {
      return Returned(Some(InvalidId("Target"))), null;
    }

    info := new AzureResourceMoveInfo(cfg.args.sourceSubscriptionId, cfg.args.sourceResourceGroup,
                                      cfg.args.targetResourceGroup, null, Nil, None);
    r := Authorize(parent, cfg, az, sink, setup, info);
  }

  /** The stages of `run` from the credential on, on the record `info` just
      built from `cfg`. */
  method Authorize(parent: Context, cfg: Config, az: Azure, sink: OutputSink, setup: PollSetup,
                   info: AzureResourceMoveInfo) returns (r: Outcome)
    requires setup.pollingTimeout >= OneMinute
    requires Describes(info, cfg.args)
    requires info.resourceIds == Nil && info.targetResourceGroupId == null && info.credentials == None
    modifies az, sink, info
    ensures az.credential.Failure? ==>
              && r == Returned(Some(Wrap("failed to get Azure default credential: ", az.credential.error)))
              && az.log == old(az.log) + [AskCredential]
              && sink.calls == old(sink.calls)
    ensures az.credential.Success? ==>
              var t := AfterCredential(parent, cfg, az, setup, sink.failure);
              && r == t.outcome
              && az.log == old(az.log) + ([AskCredential] + t.calls)
              && sink.calls == old(sink.calls) + t.written
    ensures Describes(info, cfg.args)
    ensures info.credentials == (if az.credential.Success? then Some(az.credential.value) else None)
    ensures az.credential.Failure? || az.loginErr.Some? ==>
              info.resourceIds == Nil && info.targetResourceGroupId == null
  {
    var cred := az.GetAzureDefaultCredential();
    if cred.Failure? {
      return Returned(Some(Wrap("failed to get Azure default credential: ", cred.error)));
    }
    info.credentials := Some(cred.value);
    r := LoginAndGather(parent, cfg, az, sink, setup, info);
    LogAppends(old(az.log), [AskCredential], AfterCredential(parent, cfg, az, setup, sink.failure).calls);
  }

  /** The stages of `run` after the credential was stored in `info`: the
      login check, then the stages after it. */
  method LoginAndGather(parent: Context, cfg: Config, az: Azure, sink: OutputSink, setup: PollSetup,
                        info: AzureResourceMoveInfo) returns (r: Outcome)
    requires setup.pollingTimeout >= OneMinute
    requires Describes(info, cfg.args)
    modifies az, sink, info
    ensures var t := AfterCredential(parent, cfg, az, setup, sink.failure);
            && r == t.outcome
            && az.log == old(az.log) + t.calls
            && sink.calls == old(sink.calls) + t.written
    ensures Describes(info, cfg.args)
    ensures info.credentials == old(info.credentials)
    ensures az.loginErr.Some? ==> info.resourceIds == old(info.resourceIds)
                                  && info.targetResourceGroupId == old(info.targetResourceGroupId)
  {
    var loginErr := az.CheckLogin();
    if loginErr.Some? {
      return Returned(loginErr);
    }
    r := GatherAndSubmit(parent, cfg, az, sink, setup, info);
    LogAppends(old(az.log), [AskLogin], AfterLogin(parent, cfg, az, setup, sink.failure).calls);
  }

  /** The stages of `run` after the login check, on the record `info` built
      from `cfg`. */
  method GatherAndSubmit(parent: Context, cfg: Config, az: Azure, sink: OutputSink, setup: PollSetup,
                         info: AzureResourceMoveInfo) returns (r: Outcome)
    requires setup.pollingTimeout >= OneMinute
    requires Describes(info, cfg.args)
    modifies az, sink, info
    ensures var t := AfterLogin(parent, cfg, az, setup, sink.failure);
            && r == t.outcome
            && az.log == old(az.log) + t.calls
            && sink.calls == old(sink.calls) + t.written
    ensures Describes(info, cfg.args)
    ensures info.credentials == old(info.credentials)
  {
    ghost var g := GroupInfoRun(az, cfg.args.sourceSubscriptionId, cfg.args.sourceResourceGroup,
                                cfg.args.targetResourceGroup);
    var groupErr := GetResourceGroupInfo(az, info);
    if groupErr.Some? {
      return Returned(groupErr);
    }

    var resources := Values(info.resourceIds.Items());
    var target := TargetValue(info.targetResourceGroupId);
    assert resources == g.storedIds.value.value && target == g.storedTargetId.value;
    r := SubmitAndPoll(parent, cfg.outputPath, az, sink, setup, resources, target);
  }

  /** The submission and polling stages of `run`. */
  method SubmitAndPoll(parent: Context, outputPath: string, az: Azure, sink: OutputSink, setup: PollSetup,
                       resources: seq<string>, target: Option<string>) returns (r: Outcome)
    requires setup.pollingTimeout >= OneMinute
    modifies az, sink
    ensures var t := SubmitEnd(parent, outputPath, az, setup, sink.failure, resources, target);
            && r == t.outcome
            && az.log == old(az.log) + t.calls
            && sink.calls == old(sink.calls) + t.written
  {
    var resp := az.ValidateMove(resources, target);
    if resp.Failure? {
      return Returned(Some(Wrap("failed to validate resource move: ", resp.error)));
    }

    var polled, _ := PollApi.PollApi(parent, setup.start, setup.pollingTimeout, resp.value, setup.finishErr,
                                     outputPath, setup.writeTime, setup.prettyJson, sink);
    r := PollStage(polled);
  }

  /** Both IDs are checked before anything else: a refused ID makes no call
      and writes nothing, and the source ID is checked first. */
  lemma IdsCheckedFirst(parent: Context, cfg: Config, az: Azure, setup: PollSetup, sinkFailure: Option<Error>)
    ensures var t := RunEnd(parent, cfg, az, setup, sinkFailure);
            && (!IdsValid(cfg.args) <==> t.calls == [])
            && (!IdsValid(cfg.args) ==> t.written == [])
            && (!UtilsSubscription.CheckValidSubscriptionID(cfg.args.sourceSubscriptionId) ==>
                  t.outcome == Returned(Some(InvalidId("Source"))))
            && (UtilsSubscription.CheckValidSubscriptionID(cfg.args.sourceSubscriptionId)
                && !UtilsSubscription.CheckValidSubscriptionID(cfg.args.targetSubscriptionId) ==>
                  t.outcome == Returned(Some(InvalidId("Target"))))
  {
  }

  /** The move is submitted only when the credential, the login check and
      the group information all succeeded, and it submits exactly the
      listed resource IDs and the target group ID that was looked up. */
  lemma SubmitOnlyAfterGroupInfo(parent: Context, cfg: Config, az: Azure, setup: PollSetup,
                                 sinkFailure: Option<Error>, c: Call)
    requires c in RunEnd(parent, cfg, az, setup, sinkFailure).calls && c.SubmitMove?
    ensures IdsValid(cfg.args) && az.credential.Success? && az.loginErr.None?
    ensures var a := cfg.args;
            var g := GroupInfoRun(az, a.sourceSubscriptionId, a.sourceResourceGroup, a.targetResourceGroup);
            && g.err.None?
            && Listed(az.listing(a.sourceSubscriptionId, a.sourceResourceGroup)).Success?
            && c.resources == Ids(Listed(az.listing(a.sourceSubscriptionId, a.sourceResourceGroup)).value)
            && |c.resources| > 0
            && c.target == az.groupId(a.sourceSubscriptionId, a.targetResourceGroup).value
  {
    var a := cfg.args;
    var t := RunEnd(parent, cfg, az, setup, sinkFailure);
    if IdsValid(a) && az.credential.Success? {
      var t1 := AfterCredential(parent, cfg, az, setup, sinkFailure);
      assert t.calls == [AskCredential] + t1.calls;
      if az.loginErr.None? {
        var t2 := AfterLogin(parent, cfg, az, setup, sinkFailure);
        assert t1.calls == [AskLogin] + t2.calls;
        SubmitAfterLogin(parent, cfg, az, setup, sinkFailure, c);
      }
    }
  }

  /** After the login check, the one submission comes after a successful
      gathering of the group information and carries what it stored. */
  lemma SubmitAfterLogin(parent: Context, cfg: Config, az: Azure, setup: PollSetup,
                         sinkFailure: Option<Error>, c: Call)
    requires c in AfterLogin(parent, cfg, az, setup, sinkFailure).calls && c.SubmitMove?
    ensures var a := cfg.args;
            var g := GroupInfoRun(az, a.sourceSubscriptionId, a.sourceResourceGroup, a.targetResourceGroup);
            && g.err.None?
            && Listed(az.listing(a.sourceSubscriptionId, a.sourceResourceGroup)).Success?
            && c.resources == Ids(Listed(az.listing(a.sourceSubscriptionId, a.sourceResourceGroup)).value)
            && |c.resources| > 0
            && c.target == az.groupId(a.sourceSubscriptionId, a.targetResourceGroup).value
  {
    var a := cfg.args;
    var g := GroupInfoRun(az, a.sourceSubscriptionId, a.sourceResourceGroup, a.targetResourceGroup);
    SourceSubscriptionOnly(az, a.sourceSubscriptionId, a.sourceResourceGroup, a.targetResourceGroup);
    if g.err.None? {
      SuccessStoresBoth(az, a.sourceSubscriptionId, a.sourceResourceGroup, a.targetResourceGroup);
      var s := SubmitEnd(parent, cfg.outputPath, az, setup, sinkFailure, g.storedIds.value.value, g.storedTargetId.value);
      assert s.calls == [SubmitMove(g.storedIds.value.value, g.storedTargetId.value)];
      assert AfterLogin(parent, cfg, az, setup, sinkFailure).calls == g.calls + s.calls;
    }
  }

  /** The login check's error and the group information's error come back
      as they are, not wrapped; the credential and submission errors are
      wrapped with their own prefix and stay reachable by `errors.Is`. */
  lemma StageErrors(parent: Context, cfg: Config, az: Azure, setup: PollSetup, sinkFailure: Option<Error>)
    requires IdsValid(cfg.args)
    ensures var t := RunEnd(parent, cfg, az, setup, sinkFailure);
            && (az.credential.Failure? ==>
                  && t.outcome == Returned(Some(Wrap("failed to get Azure default credential: ", az.credential.error)))
                  && Is(t.outcome.err.value, az.credential.error))
            && (az.credential.Success? && az.loginErr.Some? ==> t.outcome == Returned(az.loginErr))
            && (az.credential.Success? && az.loginErr.None? ==>
                  var a := cfg.args;
                  var g := GroupInfoRun(az, a.sourceSubscriptionId, a.sourceResourceGroup, a.targetResourceGroup);
                  g.err.Some? ==> t.outcome == Returned(g.err))
  {
  }

  /** A failed submission ends the run with the wrapped error: polling never
      starts, so nothing is written. */
  lemma NoPollingAfterSubmitError(parent: Context, cfg: Config, az: Azure, setup: PollSetup,
                                  sinkFailure: Option<Error>)
    requires IdsValid(cfg.args) && az.credential.Success? && az.loginErr.None?
    requires GroupInfoRun(az, cfg.args.sourceSubscriptionId, cfg.args.sourceResourceGroup,
                          cfg.args.targetResourceGroup).err.None?
    requires az.submission.Failure?
    ensures var t := RunEnd(parent, cfg, az, setup, sinkFailure);
            && t.outcome == Returned(Some(Wrap("failed to validate resource move: ", az.submission.error)))
            && t.written == []
            && Is(t.outcome.err.value, az.submission.error)
  {
  }

  /** `run` returns nil exactly when every stage succeeded and polling
      returned nil; an output file is written only then or when the write
      itself failed. */
  lemma SuccessIffAllStagesSucceed(parent: Context, cfg: Config, az: Azure, setup: PollSetup,
                                   sinkFailure: Option<Error>)
    ensures var t := RunEnd(parent, cfg, az, setup, sinkFailure);
            var a := cfg.args;
            var ok := IdsValid(a) && az.credential.Success? && az.loginErr.None?
                      && GroupInfoRun(az, a.sourceSubscriptionId, a.sourceResourceGroup, a.targetResourceGroup).err.None?
                      && az.submission.Success?;
            && (t.outcome == Returned(None) <==>
                  ok && Polled(WithTimeout(parent, setup.start, setup.pollingTimeout), az.submission.value,
                               setup.finishErr, cfg.outputPath, setup.writeTime, setup.prettyJson,
                               sinkFailure).outcome == Returned(None))
            && (t.written != [] ==> ok && t.written[0].path == cfg.outputPath)
  {
  }

  /** A polling error reaches the caller wrapped once, with its own message
      kept after the prefix. */
  lemma PollErrorWrapped(parent: Context, cfg: Config, az: Azure, setup: PollSetup, sinkFailure: Option<Error>, e: Error)
    requires IdsValid(cfg.args) && az.credential.Success? && az.loginErr.None?
    requires GroupInfoRun(az, cfg.args.sourceSubscriptionId, cfg.args.sourceResourceGroup,
                          cfg.args.targetResourceGroup).err.None?
    requires az.submission.Success?
    requires Polled(WithTimeout(parent, setup.start, setup.pollingTimeout), az.submission.value, setup.finishErr,
                    cfg.outputPath, setup.writeTime, setup.prettyJson, sinkFailure).outcome == Returned(Some(e))
    ensures var t := RunEnd(parent, cfg, az, setup, sinkFailure);
            && t.outcome == Returned(Some(Wrap("failed to poll API: ", e)))
            && Message(t.outcome.err.value) == "failed to poll API: " + Message(e)
            && Is(t.outcome.err.value, e)
  {
  }
}
