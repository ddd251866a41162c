# armv — a Dafny model of the move-validation pipeline

`armv` is a command-line tool. It asks Azure Resource Manager whether every
resource in one resource group could be moved to another group. This project
models the parts of it that hold logic:

- **The command front end.** The root command declares six flags. Its `RunE`
  copies them into `Args` and chooses the output path.
- **The `run` pipeline.** `run` checks both subscription IDs against the ID
  pattern. It then builds the move-info record, obtains a credential and
  checks the login. Next it gathers the resource group information: existence
  checks, the paged resource listing, refusal of an empty group, and the
  target group's ID. Finally it submits the validation request and polls it.
- **The polling loop.** Each tick checks a run-wide deadline, advances a
  progress counter that wraps at 100, and probes the operation. When the
  operation is done, the loop writes one output file. Its name carries a
  timestamp. Its content is a success banner for status 204, and the
  pretty-printed JSON body for any other status.
- **Older code paths.** The two superseded revisions of the polling loop,
  which have no deadline, and the printing interpreter `PollResponse`.
- **The request model.** `MoveInfoParams`, the `AzureResourceMoveInfo`
  constructor, and the REST header and body builders.
- **The ID validator.** Three copies of the same regular expression, proved
  to accept exactly the optionally braced 8-4-4-4-12 hexadecimal layout of a
  UUID string (section 3 of RFC 4122, with no version or variant check).

## How the model is built

- **Outside services are oracles.** The Azure SDK, the file system, the JSON
  formatter and the clock are not modelled in detail:
  - `Cloud.Azure` holds fixed answers for credentials, login, clients,
    existence checks, listing pages, group IDs and the submission. It appends
    every call to a log, so that stage order is statable as facts about that
    log.
  - `PollerTypes.OutputSink` records every `WriteOutputFile` call.
  - The JSON formatter is a function parameter.
  - Clock readings are parameters.
- **Errors.** Go errors are `Errors.Error`. `fmt.Errorf` with a trailing `%w`
  is `Wrap`. Without `%w` it is a `Leaf`.
- **Pointers and slices.**
  - Go `*string` is the class `Pointers.StringPtr`. This lets "each ID is a
    fresh copy and no two entries alias" be stated.
  - Go slices are `Wrappers.Slice`, which keeps nil and empty apart.
- **Loops over finite scripts.** The polling loops run over a finite script of
  probes. When the script runs out before the operation ends, the model
  reports `StillPolling` (or `Unanswered`); the Go loop would keep polling.
- **Imperative code stays imperative.** The loops, the stage sequences and
  the in-place record and header updates are methods. Each method is proved
  against a pure function (`Polled`, `SettledAnswer`, `GroupInfoRun`,
  `RunEnd`, `Listed`, `RequestHeader`, `OutputFile`). The lemmas are stated
  about those functions.

Where the prose description of the tool and its code differ, the model follows
the code:

- Every status other than 204 is pretty-printed as JSON; no status is refused
  as unexpected.
- The target group's existence check and its ID lookup use a client made for
  the *source* subscription, as `cmd/armv/app/resourcegroup.go` is written
  (`ResourceGroupInfo.SourceSubscriptionOnly`).
- `utils.Args` in `pkg/utils/args.go` has four fields. `command.go` fills in
  six, so the model's `Root.Args` has the six that `command.go` uses.

## Model

| member | source | states |
|---|---|---|
| Errors.Wrap | cmd/armv/app/root.go:86-89 | wrapping with a prefix keeps the cause as `errors.Unwrap`'s answer and prepends the prefix to the message |
| Errors.WrapKeepsChain | cmd/armv/app/root.go:110-120 | wrapping any number of times keeps every error of the chain reachable by `errors.Is` |
| GoContext.WithTimeout | cmd/armv/poller/pollapi.go:48 | the child keeps the parent's cancellation; its deadline is the earlier of the parent's and `now + timeout` |
| GoContext.Err | cmd/armv/poller/pollapi.go:56-61 | once done, the error is `context.Canceled` exactly when cancellation came strictly before the deadline, otherwise `context.DeadlineExceeded` (a tie, a race in Go, counts as the deadline) |
| GoContext.DoneIsFinal | cmd/armv/poller/pollapi.go:56-61 | a context that is done stays done, with the same error, at every later time |
| GoContext.TimeoutOfBackground | cmd/armv/poller/pollapi.go:48 | under a background parent the context is done exactly from `now + timeout` on, with `DeadlineExceeded` |
| PollerTypes.FirstSettled | cmd/armv/poller/poller.go:75-97 | the index of the first probe that is not pending: every earlier probe is pending |
| PollerTypes.SettledAnswer | cmd/armv/poller/poller.go:85-96 | a loop with no deadline answers only when some probe settles, and the first settled probe decides: a poll error there comes back unchanged beside the empty record; a done operation there comes back as its own body, status code and status |
| PollerTypes.FirstSettledIs | cmd/armv/poller/poller.go:75-97 | the probe that is settled with only pending probes before it is the one the loop stops at |
| PollerTypes.AnsweredByFirstSettled | cmd/armv/app/poller.go:121-137 | whatever follows the first settled probe is ignored: a poll error there wins over a later finished operation, and a finished operation there over a later error |
| PollerTypes.BarCountAtProbe | cmd/armv/poller/constants.go:32 | the progress counter at every probe is below `progressBarMax` = 100, and is 0 exactly at every hundredth probe |
| PollerTypes.BarCountSteps | cmd/armv/poller/pollapi.go:65-75 | from one probe to the next the counter goes up by one, except at 99, where it wraps to 0 |
| PollerTypes.BarCountIncrement | cmd/armv/poller/pollapi.go:63-75 | incrementing the counter and resetting it at the maximum gives its value at the current probe |
| PollerTypes.OutputSink.WriteOutputFile | pkg/utils/outputfile.go:73-87 | each call is recorded as (path, name, content); the call returns the file system's answer |
| PollerTypes.ProgressBar.Add | cmd/armv/poller/pollapi.go:66-68 | advances the bar by `n` and returns the terminal's error |
| PollerTypes.ProgressBar.Reset | cmd/armv/poller/pollapi.go:72-75 | sets the bar back to 0 |
| PollerTypes.ProgressBar.Finish | cmd/armv/poller/pollapi.go:84-86 | marks the bar finished and returns the terminal's error |
| Timestamp.Digits | cmd/armv/poller/pollresponse.go:59 | a zero-padded field has the requested width and holds only decimal digits |
| Timestamp.ValueDigits | cmd/armv/poller/pollresponse.go:59 | reading back a zero-padded field gives the number written, when that number fits the width |
| Timestamp.Format | cmd/armv/poller/pollresponse.go:59 | the layout "2006-01-02-15-04-05" always gives 19 characters |
| Timestamp.Parse | cmd/armv/poller/pollresponse.go:59 | reading a timestamp back gives a valid calendar date and time, or nothing |
| Timestamp.ParseFormat | cmd/armv/poller/pollresponse.go:59 | reading a formatted valid time gives that time back |
| Timestamp.FormatInjective | cmd/armv/poller/pollresponse.go:59 | different valid times give different timestamps |
| PollResponse.SuccessBanner | cmd/armv/poller/pollresponse.go:62 | the success banner names the response status, and the status can be read back from it |
| PollResponse.SuccessBannerInjective | cmd/armv/poller/pollresponse.go:62 | different statuses give different banners |
| PollResponse.OutputFileName | cmd/armv/poller/pollresponse.go:59 | the file name is 30 characters: "output-", the timestamp, ".txt"; the timestamp reads back as the time of writing |
| PollResponse.OutputFileNameInjective | cmd/armv/poller/pollresponse.go:59 | two valid times give the same file name exactly when they are the same second |
| PollResponse.OutputFile | cmd/armv/poller/pollresponse.go:58-71 | 204 writes the banner naming the status; any other status writes the formatter's text, or fails with "failed to format JSON output: " wrapping the formatter's error; a written file always goes to `outputPath` under the timestamped name |
| PollResponse.WriteOutput | cmd/armv/poller/pollresponse.go:58-71 | makes at most one `WriteOutputFile` call, the one `OutputFile` describes, and returns its error unchanged; a format failure writes nothing |
| PollResponse.SuccessIgnoresBody | cmd/armv/poller/pollresponse.go:61-64 | for a 204 neither the body nor the formatter changes the outcome |
| PollResponse.OtherStatusesAlike | cmd/armv/poller/pollresponse.go:66-70 | any two statuses other than 204 (409 included) give the same outcome |
| PollResponse.FailsOnlyOnFormat | cmd/armv/poller/pollresponse.go:66-69 | `writeOutput` fails before writing exactly when the status is not 204 and the formatter fails |
| PollApi.ExitTick | cmd/armv/poller/pollapi.go:55-105 | the index of the first tick that ends the loop: no earlier tick ends it |
| PollApi.EndingOf | cmd/armv/poller/pollapi.go:56-101 | the ending tick's result: an expired or cancelled context returns "polling timeout or cancelled: " wrapping `ctx.Err()`; a progress-bar error, or a probe error, is returned as it is; a `bar.Finish()` error is returned as it is; a done probe with a readable body ends in writing exactly the file `writeOutput` builds, or in its format error, and an unreadable body returns "failed to read response body: " wrapping the read error |
| PollApi.Polled | cmd/armv/poller/pollapi.go:45-106 | a run writes at most one file, and only on a done probe at its ending tick; when the ending tick writes a file, that file is the one written and the run returns the file system's answer; otherwise nothing is written and the run returns its ending tick's error |
| PollApi.ExitTickIs | cmd/armv/poller/pollapi.go:55-105 | the tick that ends the run with none ending it before is the ending tick |
| PollApi.FinishedOperationWritten | cmd/armv/poller/pollapi.go:77-101 | when a live probe with a working bar first finds the operation done and the body is readable, the run writes exactly the file `writeOutput` builds and returns the file system's answer, or returns the format error and writes nothing |
| PollApi.PollApi | cmd/armv/poller/pollapi.go:45-106 | the loop returns what `Polled` says and hands the sink exactly the files `Polled` lists; it probes once per tick up to the ending tick, with the counter at `BarCountAtProbe` |
| PollApi.PolledEndsAt | cmd/armv/poller/pollapi.go:55-101 | a tick that ends the run, with none ending it before, is the ending tick, and the run ends as that tick's ending says |
| PollApi.FinishRun | cmd/armv/poller/pollapi.go:82-101 | a `bar.Finish()` error comes back as it is; an unreadable body returns "failed to read response body: " wrapping the read error; otherwise the run hands the sink exactly the file `writeOutput` builds and returns its answer, or returns the format error and writes nothing |
| PollApi.NoTickAfterExit | cmd/armv/poller/pollapi.go:56-101 | ticks after the ending tick are never looked at |
| PollApi.DeadlineFixedAtStart | cmd/armv/poller/pollapi.go:48 | the deadline is fixed once at the start: the first tick at or after `start + pollingTimeout` ends the run with a wrapped `DeadlineExceeded` |
| PollApi.TimedOutEnding | cmd/armv/poller/pollapi.go:56-59 | a tick read once the context is done ends the run with "polling timeout or cancelled: " wrapping the context's error, whatever the bar and the output |
| PollApi.NoTimeoutWithinOneMinute | cmd/armv/poller/constants_test.go:48-55 | with a timeout of at least one minute, no tick within the first minute times out |
| PollApi.AgreesWithoutDeadline | cmd/armv/poller/poller.go:75-97 | when no tick reaches the deadline or a progress-bar error, the current loop stops at the same probe as the older loop with no deadline |
| PollerLegacy.PollApi | cmd/armv/poller/poller.go:58-98 | the older loop's answer is `SettledAnswer` of the probes, and the counter stays below 100 at every probe |
| PollerLegacy.PollResponse | cmd/armv/poller/poller.go:153-168 | 204 reports success naming the status; any other status reports the formatted body, or returns the formatter's error unchanged |
| PollerLegacy.InterpretersAgree | cmd/armv/poller/pollresponse.go:58-71 | the printing interpreter and `writeOutput` fail on the same responses (the newer one wrapping the error) and otherwise report the same status or the same formatted text |
| AppPoller.PollingLoop | cmd/armv/app/poller.go:115-139 | the closure's answer is `SettledAnswer` of the probes, with the counter below 100 at every probe |
| AppPoller.PollApi | cmd/armv/app/poller.go:93-147 | the outer function passes the closure's answer on unchanged: a probe error beside the empty record, otherwise the final response |
| Validation.MoveInfoParams | internal/pkg/validation/validatemove.go:50-58 | the request record holds exactly the given resource list (same length, same entries, nil kept nil) and the given target reference |
| Validation.AzureResourceMoveInfo.constructor | internal/pkg/validation/azureresourcemoveinfo.go:37-52 | each argument lands unchanged in the same-named field; nil or empty lists and a nil target ID are kept |
| Validation.FirstDone | internal/pkg/validation/validatemove.go:88-101 | the index of the first poll after which the operation is done |
| Validation.PollErrorsIgnored | internal/pkg/validation/validatemove.go:89-94 | poll errors never change where the loop stops; only the done flags decide |
| Validation.ValidateMoveResources | internal/pkg/validation/validatemove.go:66-107 | a client or submission error that was discarded ends in a nil dereference; otherwise the loop stops at the first done poll and returns `Result` unchanged, with one printed line per failed poll |
| Apis.HeaderAdd | internal/pkg/apis/apihelpers.go:38-39 | `Add` appends one value under the key and leaves every other key as it was |
| Apis.BearerCredentials | internal/pkg/apis/apihelpers.go:39 | the `Authorization` value uses the bearer scheme, and the token can be read back from it |
| Apis.Request.AddHeader | internal/pkg/apis/apihelpers.go:38-39 | updates the request's header in place as `HeaderAdd` |
| Apis.RequestHeader | internal/pkg/apis/apihelpers.go:36-40 | the header gains `Content-Type` and `Authorization`, keeps every earlier value as a prefix and every other key unchanged, and ends with "application/json" and the bearer token |
| Apis.CreateRequestHeader | internal/pkg/apis/apihelpers.go:36-40 | updates the request's header in place to `RequestHeader` of the old header |
| Apis.TargetResourceGroupRef | internal/pkg/apis/apihelpers.go:51 | for a subscription without `/` (every ID that passed the UUID check), the target reference reads back as the subscription and group it was built from |
| Apis.TargetRefInjective | internal/pkg/apis/apihelpers.go:51 | different subscription/group pairs give different references |
| Apis.ParseRef | internal/pkg/apis/apihelpers.go:51 | the reference parser recovers both parts of a `/subscriptions/{sub}/resourceGroups/{group}` path |
| Apis.BodyMap | internal/pkg/apis/apihelpers.go:49-52 | the body has exactly the keys `resources` and `targetResourceGroup`: the IDs verbatim and the target reference |
| Apis.CreateRequestBody | internal/pkg/apis/apihelpers.go:54-56 | the body is the marshalled map; a marshalling error is dropped and leaves the empty string |
| Cloud.Azure.constructor | internal/pkg/auth/auth.go:64-71 | the oracle starts with an empty call log and the given answers |
| Cloud.Azure.GetAzureDefaultCredential | internal/pkg/auth/auth.go:64-71 | logs the call and returns the credential or its error |
| Cloud.Azure.CheckLogin | cmd/armv/app/root.go:96-98 | logs the call and returns the login check's error |
| Cloud.Azure.GetResourceGroupClient | internal/pkg/resourcegroups/resourcegroups.go:43-57 | logs the call and returns a client bound to the subscription, or the error |
| Cloud.Azure.CheckResourceGroupExists | internal/pkg/resourcegroups/resourcegroups.go:112-119 | logs the question and returns the existence answer for the client's subscription |
| Cloud.Azure.GetResourcesClient | internal/pkg/resources/resources.go:46-58 | logs the call and returns a client bound to the subscription, or the error |
| Cloud.Azure.NextPage | internal/pkg/resources/resources.go:72-78 | logs the fetch and returns the next page of the group's listing |
| Cloud.Azure.GetResourceGroupId | internal/pkg/resourcegroups/resourcegroups.go:79-86 | logs the lookup; returns a fresh pointer to the group's ID, nil for a nil ID, or the error |
| Cloud.Azure.ValidateMove | cmd/armv/app/root.go:110-113 | logs the submission with the IDs and target it carries, and returns the operation's poller or the error |
| Resources.FlattenAppend | internal/pkg/resources/resources.go:72-82 | concatenating the pages of two runs of pages is concatenating their concatenations |
| Resources.FirstFailedPage | internal/pkg/resources/resources.go:74-78 | the index of the first failing page: every earlier page succeeded |
| Resources.FetchCalls | internal/pkg/resources/resources.go:72-76 | one fetch per page read, all for the same subscription and group |
| Resources.Listed | internal/pkg/resources/resources.go:66-85 | the listing fails exactly when some page fails, with the first failing page's error; otherwise it is every page's resources in page order |
| Resources.GetResources | internal/pkg/resources/resources.go:66-85 | fetches pages up to the first failure, then returns nil beside that error, or all resources in page order with no partial result |
| Resources.Ids | internal/pkg/resources/resources.go:100-104 | one ID per resource, in order |
| Resources.Values | internal/pkg/resources/resources.go:100-104 | the strings the pointers point to, in order |
| Resources.GetResourceIds | internal/pkg/resources/resources.go:93-107 | one new pointer per listed resource, in order, each to its own copy of the ID, with no two aliasing; nil beside a listing error; an empty group gives an empty, non-nil slice |
| ResourceGroupInfo.GroupInfoRun | cmd/armv/app/resourcegroup.go:50-110 | a run that returns nil has stored a non-empty list of IDs and has looked up the target ID |
| ResourceGroupInfo.ListingStages | cmd/armv/app/resourcegroup.go:92-109 | the listing and ID-lookup stages return nil only after storing a non-empty list of IDs and looking up the target ID |
| ResourceGroupInfo.GetResourceGroupInfo | cmd/armv/app/resourcegroup.go:50-110 | returns the error `GroupInfoRun` gives and makes its calls in its order; sets `ResourceIds` and `TargetResourceGroupId` only as it says (fresh pointers holding the listed IDs and the looked-up ID); never changes the other fields |
| ResourceGroupInfo.StoreListing | cmd/armv/app/resourcegroup.go:92-109 | the listing and ID-lookup stages behave as `ListingStages` says, on the record's fields |
| ResourceGroupInfo.CheckAndStore | cmd/armv/app/resourcegroup.go:62-109 | the existence checks, the resources client and the listing stages behave as `CheckedStages` says, on the record's fields |
| ResourceGroupInfo.StagesInOrder | cmd/armv/app/resourcegroup.go:50-110 | every run's calls are a prefix of the fixed stage order (client, source check, target check, resources client, pages, target lookup), and a successful run makes all of them |
| ResourceGroupInfo.CheckedInOrder | cmd/armv/app/resourcegroup.go:62-109 | after the client is made, the calls are a prefix of the source check, the target check, the resources client, the pages and the target lookup, and all of them on success |
| ResourceGroupInfo.ListingInOrder | cmd/armv/app/resourcegroup.go:92-109 | the listing stages fetch a prefix of the pages and then look up the target group, and do all of it on success |
| ResourceGroupInfo.SourceMissingStopsEarly | cmd/armv/app/resourcegroup.go:62-68 | a missing source group returns the error naming it after two calls: the destination is never checked and nothing is stored |
| ResourceGroupInfo.DestinationMissingStopsBeforeListing | cmd/armv/app/resourcegroup.go:73-79 | a missing destination returns the error naming it, and no resource is listed and nothing is stored |
| ResourceGroupInfo.EmptyGroupRefused | cmd/armv/app/resourcegroup.go:98-100 | an empty source group is refused after `ResourceIds` has been set to the empty list, and the target ID is never looked up |
| ResourceGroupInfo.SuccessStoresBoth | cmd/armv/app/resourcegroup.go:92-109 | on success the stored IDs are the non-empty listing in order, and the stored target ID is the one looked up |
| ResourceGroupInfo.SourceSubscriptionOnly | cmd/armv/app/resourcegroup.go:54 | every client and every question, the target group's included, is for the source subscription |
| ResourceGroupInfo.ErrorWrapping | cmd/armv/app/resourcegroup.go:54-107 | the client error is wrapped "failed to get resource group client: ", a listing error "failed to get resource IDs: " and a target ID lookup error "failed to get target resource group ID: "; the existence-check errors and the resources-client error come back unwrapped |
| Root.PollStage | cmd/armv/app/root.go:118-120 | a poll error is wrapped once with "failed to poll API: " and stays reachable by `errors.Unwrap`; success stays nil |
| Root.Run | cmd/armv/app/root.go:54-129 | returns what `RunEnd` says, makes its calls and writes its files; the record is built only after both IDs pass, starts empty, and gets `Credentials` only when a credential was obtained |
| Root.Authorize | cmd/armv/app/root.go:86-105 | the stages from the credential on behave as `AfterIds` says; the record's lists stay nil when the credential or the login fails |
| Root.LoginAndGather | cmd/armv/app/root.go:96-120 | the stages from the login check on behave as `AfterCredential` says; a failed login leaves the record's lists as they were |
| Root.GatherAndSubmit | cmd/armv/app/root.go:103-120 | the stages after the login behave as `AfterLogin` says, submitting what `getResourceGroupInfo` stored |
| Root.SubmitAndPoll | cmd/armv/app/root.go:110-120 | submits once, then polls only when the submission succeeded, as `SubmitEnd` says |
| Root.IdsCheckedFirst | cmd/armv/app/root.go:57-62 | a run makes no call at all exactly when an ID is refused; the source ID is checked first, the target ID next, each with its own message |
| Root.SubmitOnlyAfterGroupInfo | cmd/armv/app/root.go:96-113 | the move is submitted only after the credential, the login check and the group information all succeeded, and it carries exactly the listed IDs and the looked-up target ID |
| Root.SubmitAfterLogin | cmd/armv/app/root.go:103-113 | after the login check, the submission happens only after the group information succeeded, and carries the listed IDs and the looked-up target ID |
| Root.StageErrors | cmd/armv/app/root.go:86-105 | a credential failure is wrapped "failed to get Azure default credential: "; the login and group-information errors come back unwrapped |
| Root.NoPollingAfterSubmitError | cmd/armv/app/root.go:110-113 | a failed submission returns "failed to validate resource move: " wrapping its error, and nothing is polled or written |
| Root.SuccessIffAllStagesSucceed | cmd/armv/app/root.go:124-128 | `run` returns nil exactly when every stage succeeded and polling returned nil; a file is written only when every stage before polling succeeded |
| Root.PollErrorWrapped | cmd/armv/app/root.go:118-120 | a polling error is returned wrapped once, with "failed to poll API: " before its message |
| Command.NewRootCommand | cmd/armv/app/command.go:45-102 | the command's version is the given string, and it declares six flags with distinct names |
| Command.Lookup | cmd/armv/app/command.go:88-93 | finds the declaration with the given name, or shows there is none |
| Command.NewConfig | cmd/armv/app/command.go:61-79 | `Args` is filled in field by field; the output path is the flag's value when that is non-empty, otherwise "./output", and so it is never empty |
| Command.ContextFor | cmd/armv/app/command.go:55-58 | a nil command context becomes `context.Background()`; any other context is passed on |
| Command.RunE | cmd/armv/app/command.go:50-83 | runs `run` with the command's context or `Background`, and the configuration `NewConfig` builds |
| Command.DeclaredFlags | cmd/armv/app/command.go:88-99 | exactly the four ID and group flags are required; `debug` defaults to false and `output-path` to "./output" |
| Command.RequiredFlagNames | cmd/armv/app/command.go:96-99 | the flags marked required are exactly the two subscription and the two group flags |
| Command.DefaultFlags | cmd/armv/app/command.go:91-92 | `debug` is declared optional with default false and `output-path` optional with default "./output" |
| Command.RequiredOnlyUsesDefaults | cmd/armv/app/command.go:61-79 | given only the four required flags, debug is off, the output path is "./output", and each identifier reaches `run` unchanged |
| Command.OutputPathChoice | cmd/armv/app/command.go:76-79 | a non-empty `--output-path` is used as given; an empty one falls back to "./output" |
| IdPattern.PatternIffLayout | pkg/utils/validateinput.go:35 | the regular expression accepts exactly the optionally braced 8-4-4-4-12 hexadecimal layout, anchored at both ends |
| ValidateInput.ValidateId | pkg/utils/validateinput.go:34-37 | `validateId` accepts exactly the optionally braced UUID layout |
| ValidateInput.CheckValidSubscriptionID | pkg/utils/validateinput.go:43-45 | accepts exactly the optionally braced UUID layout |
| ValidateInput.CheckValidTenantID | pkg/utils/validateinput.go:51-53 | tenant IDs are checked by the same predicate as subscription IDs |
| ValidateInput.AcceptedLength | pkg/utils/validateinput.go:35 | every accepted ID has 36, 37 or 38 characters |
| ValidateInput.BracesIndependent | pkg/utils/validateinput.go:35 | each brace is optional on its own: with no brace, an opening one, a closing one or both, a UUID string is accepted |
| ValidateInput.HyphensRequired | pkg/utils/validateinput.go:35 | an accepted ID has its four hyphens at fixed positions (8, 13, 18 and 23 after any opening brace) and hex digits everywhere else |
| ValidateInput.Lowered | pkg/utils/validateinput.go:35 | lower-casing keeps the length and maps each character on its own |
| ValidateInput.UuidTextLowered | pkg/utils/validateinput.go:35 | lower-casing keeps a string in or out of the UUID layout |
| ValidateInput.CaseInsensitive | pkg/utils/validateinput.go:35 | an ID is accepted exactly when its lower-cased form is |
| ValidateInput.AcceptsDecimalDigits | test/validateinput_test.go:40-53 | the all-digit example ID is accepted |
| ValidateInput.AcceptsLowerCaseHex | test/validateinput_test.go:40-53 | the lower-case example ID is accepted |
| ValidateInput.AcceptsUpperCaseHex | test/validateinput_test.go:40-53 | the upper-case example ID is accepted |
| ValidateInput.RejectsTestVectors | test/validateinput_test.go:54-78 | the too-short, hyphen-free, empty, non-hex and trailing-garbage examples are rejected |
| UtilsSubscription.CheckValidSubscriptionID | pkg/utils/subscription.go:8-12 | accepts exactly the optionally braced UUID layout, and agrees with `validateId` on every input |
| UtilsSubscription.NonHexRejected | pkg/utils/subscription.go:9 | any character that is not a hex digit, outside the hyphen positions, gets a 36-character ID rejected |
| AzureSubscriptions.CheckValidSubscriptionID | internal/pkg/azure/subscriptions/subscription.go:11-15 | accepts exactly the optionally braced UUID layout, and agrees with the `pkg/utils` copy on every input |
| AzureSubscriptions.MissingHyphenRejected | internal/pkg/azure/subscriptions/subscription.go:12 | replacing any one hyphen of a UUID string gets it rejected, with or without braces |

## Left out

- Azure SDK calls (credentials, clients, pagers, existence checks, group lookup, `Poll`/`Done`/`Result`) are oracles with fixed answers. Token acquisition, retries and HTTP are not modelled.
- `checkLogin` and `info.ValidateMove` are not part of this model. They appear only as oracle calls with answers (`Cloud.Azure.CheckLogin`, `Cloud.Azure.ValidateMove`).
- The file system, `io.ReadAll`, `utils.PrettyJsonString` and `json.Marshal` are oracles: a recorded sink, a read result in the response, and formatter and marshaller functions.
- `time.Sleep`, progress-bar rendering and coloured terminal output are left out. The bar keeps only its counter and its finished flag, and the success of `Add`/`Finish` is a parameter.
- `time.Now()` is a parameter. This covers the clock at the start of polling, each tick's reading, and the time used for the output file name.
- The debug timing print in `run` is left out because it only writes to the terminal.
- The final "Output file written" print in `run` is left out for the same reason.
- The polling loops run over finite scripts of probes. A script that runs out before the loop ends gives `StillPolling` or `Unanswered`, where the Go loop would go on polling.
- `PollApi.PollApi`, `Root.Run`, `Root.Authorize`, `Root.GatherAndSubmit`, `Root.SubmitAndPoll`, `Command.RunE`: require a polling timeout of at least one minute, the bound the package's test fixes. The constant itself is not in any of the modelled files.
- `PollerTypes.ReadBody`: the older loops call `utils.FetchResponseBody` with one result, while the version of that helper shown returns two. A read failure is modelled as an empty body.
- `Validation.ValidateMoveResources` reports `Panicked` where Go would dereference the nil client or poller left behind by a discarded error. Go's panic is not modelled further.
- `Cloud.Azure.GetResourcesClient`: when the SDK returns a nil client with no error, Go would later dereference nil. The oracle always yields a client unless it errs.
- `Cloud.Azure.GetResourceGroupId` yields the group's ID, or nil. A nil group record from the SDK (which would panic) is not modelled.
- Resources.Ids: a listed resource always has an ID; a resource whose `ID` is nil, on which `GetResourceIds` would dereference nil and panic, cannot be represented.
- Timestamp.Format: prints the year as its last four digits, where Go's "2006" layout prints every digit. So the 19-character name, and its round trip, hold only for years up to 9999, which `Valid` requires.
- Validation.ValidateMoveResources: takes no credential. The credential it obtains only feeds the client, whose failure `clientErr` already covers; the SDK's behaviour with a nil credential is not modelled.
- HTTP header key canonicalisation (`textproto`) is left out because the keys added are already canonical.
- Cobra's own behaviour is left out: refusing a command line that lacks a required flag, type-checking flag values, and `utils.SetVersion`. The model takes the parsed flag values as given.
- JSON string escaping inside the request body is left to the marshaller oracle.
- Integer widths are left out: status codes, clock readings and counters are unbounded integers, and no arithmetic in the modelled code can overflow.
