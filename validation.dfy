/** internal/pkg/validation: the move-info record the pipeline fills in, the
    request record handed to the validate-move API, and the older
    submit-and-wait helper `ValidateMoveResources`. */
module Validation {
  import opened Wrappers
  import opened Errors
  import opened Pointers

  /** A `*azidentity.DefaultAzureCredential` that was obtained. */
  datatype Credential = Credential(id: nat)

  /** `armresources.MoveInfo`: the resources to move and the target group. */
  datatype MoveInfo = MoveInfo(resources: Slice<StringPtr>, targetResourceGroup: StringPtr?)

  /** `MoveInfoParams(resourceIds, targetResourceGroup)`: the request record
      holds the very slice and pointer it was given, neither copied nor
      checked. */
  function MoveInfoParams(resourceIds: Slice<StringPtr>, targetResourceGroup: StringPtr?): (m: MoveInfo)
    ensures m.resources.Len() == resourceIds.Len() && (m.resources.Nil? <==> resourceIds.Nil?)
    ensures forall i | 0 <= i < resourceIds.Len() :: m.resources.Items()[i] == resourceIds.Items()[i]
    ensures m.targetResourceGroup == targetResourceGroup
  {
    MoveInfo(resourceIds, targetResourceGroup)
  }

  /** `AzureResourceMoveInfo`: what the pipeline knows about one move. */
  class AzureResourceMoveInfo {
    var sourceSubscriptionId: string
    var sourceResourceGroup: string
    var targetResourceGroup: string
    var targetResourceGroupId: StringPtr?
    var resourceIds: Slice<StringPtr>
    var credentials: Option<Credential>

    /** `NewAzureResourceMoveInfo(...)`: each argument lands unchanged in the
        field of the same name; nothing is validated, so a nil or empty
        resource list and a nil target ID are kept as they are. */
    constructor (sourceSubscriptionId: string, sourceResourceGroup: string, targetResourceGroup: string,
                 targetResourceGroupId: StringPtr?, resourceIds: Slice<StringPtr>, credentials: Option<Credential>)
      ensures this.sourceSubscriptionId == sourceSubscriptionId
      ensures this.sourceResourceGroup == sourceResourceGroup
      ensures this.targetResourceGroup == targetResourceGroup
      ensures this.targetResourceGroupId == targetResourceGroupId
      ensures this.resourceIds == resourceIds && this.resourceIds.Len() == resourceIds.Len()
      ensures this.credentials == credentials
    {
      this.sourceSubscriptionId := sourceSubscriptionId;
      this.sourceResourceGroup := sourceResourceGroup;
      this.targetResourceGroup := targetResourceGroup;
      this.targetResourceGroupId := targetResourceGroupId;
      this.resourceIds := resourceIds;
      this.credentials := credentials;
    }
  }

  /** One `validateMove.Poll(ctx)` followed by `validateMove.Done()`. */
  datatype MovePoll = MovePoll(err: Option<Error>, done: bool)

  /** `armresources.ClientValidateMoveResourcesResponse` (it has no fields). */
  datatype ValidateMoveResponse = ValidateMoveResponse

  /** How `ValidateMoveResources` ends: with `validateMove.Result(ctx)`; by
      panicking on the nil client or nil poller a discarded error left
      behind; or, when the scripted polls run out first, still polling. */
  datatype MoveOutcome = Finished(result: Result<ValidateMoveResponse, Error>) | Panicked | StillPolling

  /** Index of the first poll after which the operation is done, or the
      length of the script. */
  function FirstDone(polls: seq<MovePoll>): (k: nat)
    ensures k <= |polls|
    ensures forall j | 0 <= j < k :: !polls[j].done
    ensures k < |polls| ==> polls[k].done
  {
    if |polls| == 0 || polls[0].done then 0 else 1 + FirstDone(polls[1..])
  }

  /** How many of the first `n` polls failed. */
  function FailedPolls(polls: seq<MovePoll>, n: nat): (c: nat)
    requires n <= |polls|
    ensures c <= n
  {
    if n == 0 then 0 else FailedPolls(polls, n - 1) + (if polls[n - 1].err.Some? then 1 else 0)
  }

  /** Poll errors never end the loop: only the done flags decide where it
      stops. */
  lemma {:induction false} PollErrorsIgnored(polls: seq<MovePoll>, others: seq<MovePoll>)
    requires |polls| == |others| && forall j | 0 <= j < |polls| :: polls[j].done == others[j].done
    ensures FirstDone(polls) == FirstDone(others)
  {
    if |polls| > 0 && !polls[0].done {
      PollErrorsIgnored(polls[1..], others[1..]);
    }
  }

  /** `ValidateMoveResources(ctx, sourceSubscriptionID, sourceResourceGroupName,
      moveInfoParams)`. `clientErr` and `beginErr` are the errors of making
      the client and of the submission, which the function discards; the
      credential it obtains first only feeds the client. `printed` counts the
      responses printed for failed polls. */
  method ValidateMoveResources(sourceSubscriptionID: string, sourceResourceGroupName: string, moveInfoParams: MoveInfo,
                               clientErr: Option<Error>,
                               beginErr: Option<Error>, polls: seq<MovePoll>,
                               result: Result<ValidateMoveResponse, Error>)
    returns (r: MoveOutcome, printed: nat)
    ensures clientErr.Some? || beginErr.Some? ==> r == Panicked && printed == 0
    ensures clientErr.None? && beginErr.None? ==>
              var k := FirstDone(polls);
              && (k < |polls| ==> r == Finished(result) && printed == FailedPolls(polls, k + 1))
              && (k == |polls| ==> r == StillPolling && printed == FailedPolls(polls, k))
  {
    if clientErr.Some? || beginErr.Some? {
      return Panicked, 0;
    }
    printed := 0;
    var i := 0;
    while i < |polls|
      invariant i <= FirstDone(polls)
      invariant printed == FailedPolls(polls, i)
    {
      if polls[i].err.Some? {
        printed := printed + 1;
      }
      if polls[i].done {
        return Finished(result), printed;
      }
      i := i + 1;
    }
    r := StillPolling;
  }
}
