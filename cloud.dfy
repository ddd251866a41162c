/** The Azure services the pipeline calls, as one oracle: every answer is
    fixed when the oracle is set up, and every call is appended to `log`,
    so that the order of the stages and what each stage asked can be
    stated. `checkLogin` and `ValidateMove` live in files that are not part
    of this model; they appear here only as calls with answers. */
module Cloud {
  import opened Wrappers
  import opened Errors
  import opened Pointers
  import opened Validation
  import opened PollApi

  /** An `armresources.GenericResourceExpanded` with its `ID`. */
  datatype GenericResource = GenericResource(id: string)

  /** One page of a resource listing, or the error fetching it. */
  type Page = Result<seq<GenericResource>, Error>

  /** A resource-groups client, bound to the subscription it was made for. */
  datatype GroupClient = GroupClient(subscription: string)

  /** A resources client, bound to the subscription it was made for. */
  datatype ResourcesClient = ResourcesClient(subscription: string)

  /** One call made to the oracle, with the subscription and group it was
      about. */
  datatype Call =
    | AskCredential
    | AskLogin
    | MakeGroupClient(subscription: string)
    | AskExistence(subscription: string, group: string)
    | MakeResourcesClient(subscription: string)
    | FetchPage(subscription: string, group: string)
    | FetchGroup(subscription: string, group: string)
    | SubmitMove(resources: seq<string>, target: Option<string>)

  /** Logging calls in two steps gives the same log as logging them at once. */
  lemma LogAppends(log: seq<Call>, first: seq<Call>, later: seq<Call>)
    ensures log + first + later == log + (first + later)
  {
  }

  class Azure {
    /** `auth.GetAzureDefaultCredential()` */
    const credential: Result<Credential, Error>
    /** `checkLogin(ctx, &info)` */
    const loginErr: Option<Error>
    /** `resourcegroups.GetResourceGroupClient` */
    const groupClientErr: Option<Error>
    /** `CheckResourceGroupExists`, by subscription and group name. */
    const existence: (string, string) -> Result<bool, Error>
    /** `resources.GetResourcesClient` */
    const resourcesClientErr: Option<Error>
    /** The pages of `NewListByResourceGroupPager`, by subscription and group. */
    const listing: (string, string) -> seq<Page>
    /** `GetResourceGroupId`: the group's `ID` (which may be nil), or the error. */
    const groupId: (string, string) -> Result<Option<string>, Error>
    /** `info.ValidateMove(ctx)`: the poller of the submitted operation,
        given by the ticks it will answer, or the submission error. */
    const submission: Result<seq<Tick>, Error>

    var log: seq<Call>

    constructor (credential: Result<Credential, Error>, loginErr: Option<Error>, groupClientErr: Option<Error>,
                 existence: (string, string) -> Result<bool, Error>, resourcesClientErr: Option<Error>,
                 listing: (string, string) -> seq<Page>, groupId: (string, string) -> Result<Option<string>, Error>,
                 submission: Result<seq<Tick>, Error>)
      ensures this.credential == credential && this.loginErr == loginErr
      ensures this.groupClientErr == groupClientErr && this.existence == existence
      ensures this.resourcesClientErr == resourcesClientErr && this.listing == listing
      ensures this.groupId == groupId && this.submission == submission
      ensures log == []
    {
      this.credential := credential;
      this.loginErr := loginErr;
      this.groupClientErr := groupClientErr;
      this.existence := existence;
      this.resourcesClientErr := resourcesClientErr;
      this.listing := listing;
      this.groupId := groupId;
      this.submission := submission;
      log := [];
    }

    method GetAzureDefaultCredential() returns (r: Result<Credential, Error>)
      modifies this
      ensures log == old(log) + [AskCredential] && r == credential
    {
      log := log + [AskCredential];
      r := credential;
    }

    method CheckLogin() returns (err: Option<Error>)
      modifies this
      ensures log == old(log) + [AskLogin] && err == loginErr
    {
      log := log + [AskLogin];
      err := loginErr;
    }

    method GetResourceGroupClient(subscriptionID: string) returns (r: Result<GroupClient, Error>)
      modifies this
      ensures log == old(log) + [MakeGroupClient(subscriptionID)]
      ensures r == if groupClientErr.Some? then Failure(groupClientErr.value) else Success(GroupClient(subscriptionID))
    {
      log := log + [MakeGroupClient(subscriptionID)];
      r := if groupClientErr.Some? then Failure(groupClientErr.value) else Success(GroupClient(subscriptionID));
    }

    method CheckResourceGroupExists(client: GroupClient, resourceGroupName: string) returns (r: Result<bool, Error>)
      modifies this
      ensures log == old(log) + [AskExistence(client.subscription, resourceGroupName)]
      ensures r == existence(client.subscription, resourceGroupName)
    {
      log := log + [AskExistence(client.subscription, resourceGroupName)];
      r := existence(client.subscription, resourceGroupName);
    }

    method GetResourcesClient(subscriptionID: string) returns (r: Result<ResourcesClient, Error>)
      modifies this
      ensures log == old(log) + [MakeResourcesClient(subscriptionID)]
      ensures r == if resourcesClientErr.Some? then Failure(resourcesClientErr.value) else Success(ResourcesClient(subscriptionID))
    {
      log := log + [MakeResourcesClient(subscriptionID)];
      r := if resourcesClientErr.Some? then Failure(resourcesClientErr.value) else Success(ResourcesClient(subscriptionID));
    }

    /** `pager.NextPage(ctx)` for the page at `index`; `pager.More()` is
        `index < |listing(...)|`. */
    method NextPage(client: ResourcesClient, resourceGroupName: string, index: nat) returns (page: Page)
      requires index < |listing(client.subscription, resourceGroupName)|
      modifies this
      ensures log == old(log) + [FetchPage(client.subscription, resourceGroupName)]
      ensures page == listing(client.subscription, resourceGroupName)[index]
    {
      log := log + [FetchPage(client.subscription, resourceGroupName)];
      page := listing(client.subscription, resourceGroupName)[index];
    }

    /** `resourcegroups.GetResourceGroupId`: nil beside an error; otherwise
        a pointer into the fresh response, nil when the group has no ID. */
    method GetResourceGroupId(client: GroupClient, resourceGroupName: string) returns (id: StringPtr?, err: Option<Error>)
      modifies this
      ensures log == old(log) + [FetchGroup(client.subscription, resourceGroupName)]
      ensures match groupId(client.subscription, resourceGroupName)
              case Failure(e) => id == null && err == Some(e)
              case Success(None) => id == null && err == None
              case Success(Some(v)) => id != null && fresh(id) && id.value == v && err == None
    {
      log := log + [FetchGroup(client.subscription, resourceGroupName)];
      match groupId(client.subscription, resourceGroupName)
      case Failure(e) =>
        id, err := null, Some(e);
      case Success(None) =>
        id, err := null, None;
      case Success(Some(v)) =>
        id := new StringPtr(v);
        err := None;
    }

    /** `info.ValidateMove(ctx)`, which submits the resource IDs and the
        target group ID the record holds (a nil ID as `None`). */
    method ValidateMove(resources: seq<string>, target: Option<string>) returns (r: Result<seq<Tick>, Error>)
      modifies this
      ensures log == old(log) + [SubmitMove(resources, target)] && r == submission
    {
      log := log + [SubmitMove(resources, target)];
      r := submission;
    }
  }
}
