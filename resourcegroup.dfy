/** cmd/armv/app/resourcegroup.go: `getResourceGroupInfo` checks that both
    groups exist, lists the resources of the source group, refuses an empty
    one, and looks up the target group's ID, stopping at the first failure.
    Every client it makes is made for the source subscription. */
module ResourceGroupInfo {
  import opened Wrappers
  import opened Errors
  import opened Pointers
  import opened Validation
  import opened Cloud
  import opened Resources

  /** What a run of `getResourceGroupInfo` does: the error it returns, the
      calls it makes in order, what it stores in `ResourceIds` (nothing,
      nil, or new pointers to these IDs) and what it stores in
      `TargetResourceGroupId` (nothing, or the looked-up ID, nil or not). */
  datatype Stages = Stages(
    err: Option<Error>,
    calls: seq<Call>,
    storedIds: Option<Option<seq<string>>>,
    storedTargetId: Option<Option<string>>)

  function SourceMissing(group: string): Error
  {
    Leaf("source resource group '" + group + "' does not exist")
  }

  function DestinationMissing(group: string): Error
  {
    Leaf("destination resource group '" + group + "' does not exist")
  }

  function NoResources(group: string): Error
  {
    Leaf("no resources found in source resource group '" + group + "'")
  }

  /** The stages in order, each run only when the ones before succeeded. */
  function GroupInfoRun(az: Azure, sub: string, source: string, target: string): (g: Stages)
    ensures g.err.None? ==>
              && g.storedIds.Some? && g.storedIds.value.Some? && |g.storedIds.value.value| > 0
              && g.storedTargetId.Some?
  {
    var c0 := [MakeGroupClient(sub)];
    if az.groupClientErr.Some? then
      Stages(Some(Wrap("failed to get resource group client: ", az.groupClientErr.value)), c0, None, None)
    else
      var t := CheckedStages(az, sub, source, target);
      Stages(t.err, c0 + t.calls, t.storedIds, t.storedTargetId)
  }

  /** The stages after the resource group client is made: check both
      groups, make the resources client, then list and look up. Its calls
      are the ones these stages add. */
  function CheckedStages(az: Azure, sub: string, source: string, target: string): (g: Stages)
    ensures g.err.None? ==>
              && g.storedIds.Some? && g.storedIds.value.Some? && |g.storedIds.value.value| > 0
              && g.storedTargetId.Some?
  {
    var c1 := [AskExistence(sub, source)];
    match az.existence(sub, source)
    case Failure(e) => Stages(Some(e), c1, None, None)
    case Success(false) => Stages(Some(SourceMissing(source)), c1, None, None)
    case Success(true) =>
      var c2 := c1 + [AskExistence(sub, target)];
      match az.existence(sub, target)
      case Failure(e) => Stages(Some(e), c2, None, None)
      case Success(false) => Stages(Some(DestinationMissing(target)), c2, None, None)
      case Success(true) =>
        var c3 := c2 + [MakeResourcesClient(sub)];
        if az.resourcesClientErr.Some? then Stages(Some(az.resourcesClientErr.value), c3, None, None)
        else
          var t := ListingStages(az, sub, source, target);
          Stages(t.err, c3 + t.calls, t.storedIds, t.storedTargetId)
  }

  /** The last two stages, once both groups exist and the resources client
      is made: list the source group, refuse an empty one, look up the
      target group's ID. Its calls are the ones these stages add. */
  function ListingStages(az: Azure, sub: string, source: string, target: string): (g: Stages)
    ensures g.err.None? ==>
              && g.storedIds.Some? && g.storedIds.value.Some? && |g.storedIds.value.value| > 0
              && g.storedTargetId.Some?
  {
    var pages := az.listing(sub, source);
    var c4 := FetchCalls(sub, source, PagesFetched(pages));
    match Listed(pages)
    case Failure(e) => Stages(Some(Wrap("failed to get resource IDs: ", e)), c4, Some(None), None)
    case Success(rs) =>
      if |rs| == 0 then Stages(Some(NoResources(source)), c4, Some(Some([])), None)
      else
        var c5 := c4 + [FetchGroup(sub, target)];
        match az.groupId(sub, target)
        case Failure(e) =>
          Stages(Some(Wrap("failed to get target resource group ID: ", e)), c5, Some(Some(Ids(rs))), Some(None))
        case Success(id) => Stages(None, c5, Some(Some(Ids(rs))), Some(id))
  }

  /** `getResourceGroupInfo(ctx, &info)` */
  method GetResourceGroupInfo(az: Azure, info: AzureResourceMoveInfo) returns (err: Option<Error>)
    modifies az, info
    ensures var g := GroupInfoRun(az, old(info.sourceSubscriptionId), old(info.sourceResourceGroup),
                                  old(info.targetResourceGroup));
            && err == g.err
            && az.log == old(az.log) + g.calls
            && (g.storedIds.None? ==> info.resourceIds == old(info.resourceIds))
            && (g.storedIds == Some(None) ==> info.resourceIds == Nil)
            && (g.storedIds.Some? && g.storedIds.value.Some? ==>
                  && info.resourceIds.Of?
                  && Values(info.resourceIds.elems) == g.storedIds.value.value
                  && Distinct(info.resourceIds.elems)
                  && forall p | p in info.resourceIds.elems :: fresh(p))
            && (g.storedTargetId.None? ==> info.targetResourceGroupId == old(info.targetResourceGroupId))
            && (g.storedTargetId == Some(None) ==> info.targetResourceGroupId == null)
            && (g.storedTargetId.Some? && g.storedTargetId.value.Some? ==>
                  && info.targetResourceGroupId != null && fresh(info.targetResourceGroupId)
                  && info.targetResourceGroupId.value == g.storedTargetId.value.value)
    ensures info.sourceSubscriptionId == old(info.sourceSubscriptionId)
    ensures info.sourceResourceGroup == old(info.sourceResourceGroup)
    ensures info.targetResourceGroup == old(info.targetResourceGroup)
    ensures info.credentials == old(info.credentials)
  {
    var groupClient := az.GetResourceGroupClient(info.sourceSubscriptionId);
    if groupClient.Failure? {
      return Some(Wrap("failed to get resource group client: ", groupClient.error));
    }
    ghost var asked := [MakeGroupClient(info.sourceSubscriptionId)];
    err := CheckAndStore(az, info, groupClient.value);
    LogAppends(old(az.log), asked, CheckedStages(az, old(info.sourceSubscriptionId), old(info.sourceResourceGroup),
                                                 old(info.targetResourceGroup)).calls);
  }

  /** The stages of `getResourceGroupInfo` after the resource group client
      is made for the source subscription. */
  method CheckAndStore(az: Azure, info: AzureResourceMoveInfo, resourceGroupClient: GroupClient)
    returns (err: Option<Error>)
    requires resourceGroupClient.subscription == info.sourceSubscriptionId
    modifies az, info
    ensures var g := CheckedStages(az, old(info.sourceSubscriptionId), old(info.sourceResourceGroup),
                                   old(info.targetResourceGroup));
            && err == g.err
            && az.log == old(az.log) + g.calls
            && (g.storedIds.None? ==> info.resourceIds == old(info.resourceIds))
            && (g.storedIds == Some(None) ==> info.resourceIds == Nil)
            && (g.storedIds.Some? && g.storedIds.value.Some? ==>
                  && info.resourceIds.Of?
                  && Values(info.resourceIds.elems) == g.storedIds.value.value
                  && Distinct(info.resourceIds.elems)
                  && forall p | p in info.resourceIds.elems :: fresh(p))
            && (g.storedTargetId.None? ==> info.targetResourceGroupId == old(info.targetResourceGroupId))
            && (g.storedTargetId == Some(None) ==> info.targetResourceGroupId == null)
            && (g.storedTargetId.Some? && g.storedTargetId.value.Some? ==>
                  && info.targetResourceGroupId != null && fresh(info.targetResourceGroupId)
                  && info.targetResourceGroupId.value == g.storedTargetId.value.value)
    ensures info.sourceSubscriptionId == old(info.sourceSubscriptionId)
    ensures info.sourceResourceGroup == old(info.sourceResourceGroup)
    ensures info.targetResourceGroup == old(info.targetResourceGroup)
    ensures info.credentials == old(info.credentials)
  {
    var srcRsgExists := az.CheckResourceGroupExists(resourceGroupClient, info.sourceResourceGroup);
    if srcRsgExists.Failure? {
      return Some(srcRsgExists.error);
    }
    if !srcRsgExists.value {
      return Some(SourceMissing(info.sourceResourceGroup));
    }

    var dstRsgExists := az.CheckResourceGroupExists(resourceGroupClient, info.targetResourceGroup);
    if dstRsgExists.Failure? {
      return Some(dstRsgExists.error);
    }
    if !dstRsgExists.value {
      return Some(DestinationMissing(info.targetResourceGroup));
    }

    var resourcesClient := az.GetResourcesClient(info.sourceSubscriptionId);
    if resourcesClient.Failure? {
      return Some(resourcesClient.error);
    }
    ghost var asked := [AskExistence(info.sourceSubscriptionId, info.sourceResourceGroup),
                        AskExistence(info.sourceSubscriptionId, info.targetResourceGroup),
                        MakeResourcesClient(info.sourceSubscriptionId)];
    assert az.log == old(az.log) + asked;
    err := StoreListing(az, info, resourceGroupClient, resourcesClient.value);
    LogAppends(old(az.log), asked, ListingStages(az, old(info.sourceSubscriptionId), old(info.sourceResourceGroup),
                                                 old(info.targetResourceGroup)).calls);
  }

  /** The listing and ID-lookup stages of `getResourceGroupInfo`, with both
      clients made for the source subscription. */
  method StoreListing(az: Azure, info: AzureResourceMoveInfo, groupClient: GroupClient,
                      resourcesClient: ResourcesClient) returns (err: Option<Error>)
    requires groupClient.subscription == info.sourceSubscriptionId
    requires resourcesClient.subscription == info.sourceSubscriptionId
    modifies az, info
    ensures var g := ListingStages(az, old(info.sourceSubscriptionId), old(info.sourceResourceGroup),
                                   old(info.targetResourceGroup));
            && err == g.err
            && az.log == old(az.log) + g.calls
            && (g.storedIds.None? ==> info.resourceIds == old(info.resourceIds))
            && (g.storedIds == Some(None) ==> info.resourceIds == Nil)
            && (g.storedIds.Some? && g.storedIds.value.Some? ==>
                  && info.resourceIds.Of?
                  && Values(info.resourceIds.elems) == g.storedIds.value.value
                  && Distinct(info.resourceIds.elems)
                  && forall p | p in info.resourceIds.elems :: fresh(p))
            && (g.storedTargetId.None? ==> info.targetResourceGroupId == old(info.targetResourceGroupId))
            && (g.storedTargetId == Some(None) ==> info.targetResourceGroupId == null)
            && (g.storedTargetId.Some? && g.storedTargetId.value.Some? ==>
                  && info.targetResourceGroupId != null && fresh(info.targetResourceGroupId)
                  && info.targetResourceGroupId.value == g.storedTargetId.value.value)
    ensures info.sourceSubscriptionId == old(info.sourceSubscriptionId)
    ensures info.sourceResourceGroup == old(info.sourceResourceGroup)
    ensures info.targetResourceGroup == old(info.targetResourceGroup)
    ensures info.credentials == old(info.credentials)
  {
    var ids, idsErr := GetResourceIds(az, resourcesClient, info.sourceResourceGroup);
    info.resourceIds := ids;
    if idsErr.Some? {
      return Some(Wrap("failed to get resource IDs: ", idsErr.value));
    }
    if info.resourceIds.Len() == 0 {
      return Some(NoResources(info.sourceResourceGroup));
    }

    var targetId, idErr := az.GetResourceGroupId(groupClient, info.targetResourceGroup);
    info.targetResourceGroupId := targetId;
    if idErr.Some? {
      return Some(Wrap("failed to get target resource group ID: ", idErr.value));
    }
    return None;
  }

  /** The stages run in a fixed order and stop at the first failure: what a
      run asks is always a prefix of what a fully successful run asks, and
      a run that succeeds asks all of it. */
  function AllStages(sub: string, source: string, target: string, pages: nat): seq<Call>
  {
    [MakeGroupClient(sub), AskExistence(sub, source), AskExistence(sub, target), MakeResourcesClient(sub)]
      + FetchCalls(sub, source, pages) + [FetchGroup(sub, target)]
  }

  lemma StagesInOrder(az: Azure, sub: string, source: string, target: string)
    ensures var g := GroupInfoRun(az, sub, source, target);
            var full := AllStages(sub, source, target, |az.listing(sub, source)|);
            && |g.calls| <= |full| && g.calls == full[..|g.calls|]
            && (g.err.None? ==> g.calls == full)
  {
    var g := GroupInfoRun(az, sub, source, target);
    var full := AllStages(sub, source, target, |az.listing(sub, source)|);
    if az.groupClientErr.None? {
      var t := CheckedStages(az, sub, source, target);
      var rest := full[1..];
      CheckedInOrder(az, sub, source, target);
      assert full == [MakeGroupClient(sub)] + rest;
      assert g.calls == [MakeGroupClient(sub)] + t.calls;
      assert full[..|g.calls|] == [MakeGroupClient(sub)] + rest[..|t.calls|];
    }
  }

  /** The stages after the client is made ask a prefix of what a fully
      successful run asks after the client, and all of it on success. */
  lemma CheckedInOrder(az: Azure, sub: string, source: string, target: string)
    ensures var t := CheckedStages(az, sub, source, target);
            var rest := AllStages(sub, source, target, |az.listing(sub, source)|)[1..];
            && |t.calls| <= |rest| && t.calls == rest[..|t.calls|]
            && (t.err.None? ==> t.calls == rest)
  {
    var t := CheckedStages(az, sub, source, target);
    var head := [AskExistence(sub, source), AskExistence(sub, target), MakeResourcesClient(sub)];
    var tail := FetchCalls(sub, source, |az.listing(sub, source)|) + [FetchGroup(sub, target)];
    var rest := AllStages(sub, source, target, |az.listing(sub, source)|)[1..];
    assert rest == head + tail;
    if |t.calls| > |head| {
      var l := ListingStages(az, sub, source, target);
      ListingInOrder(az, sub, source, target);
      assert t.calls == head + l.calls;
      assert rest[..|t.calls|] == head + tail[..|l.calls|];
    }
  }

  /** The listing stages ask a prefix of the page fetches followed by the
      target group lookup, and all of it on success. */
  lemma ListingInOrder(az: Azure, sub: string, source: string, target: string)
    ensures var l := ListingStages(az, sub, source, target);
            var tail := FetchCalls(sub, source, |az.listing(sub, source)|) + [FetchGroup(sub, target)];
            && |l.calls| <= |tail| && l.calls == tail[..|l.calls|]
            && (l.err.None? ==> l.calls == tail)
  {
    var pages := az.listing(sub, source);
    var all := FetchCalls(sub, source, |pages|);
    var f := FetchCalls(sub, source, PagesFetched(pages));
    var tail := all + [FetchGroup(sub, target)];
    assert f == all[..PagesFetched(pages)];
    assert tail[..|f|] == f;
    if FirstFailedPage(pages) == |pages| {
      assert f == all;
    }
  }

  /** A missing source group stops the run after the source check: the
      destination is never checked and nothing is stored. */
  lemma SourceMissingStopsEarly(az: Azure, sub: string, source: string, target: string)
    requires az.groupClientErr.None? && az.existence(sub, source) == Success(false)
    ensures var g := GroupInfoRun(az, sub, source, target);
            && g.err == Some(SourceMissing(source))
            && Message(g.err.value) == "source resource group '" + source + "' does not exist"
            && g.calls == [MakeGroupClient(sub), AskExistence(sub, source)]
            && g.storedIds.None? && g.storedTargetId.None?
  {
  }

  /** A missing destination stops the run before any resource is listed. */
  lemma DestinationMissingStopsBeforeListing(az: Azure, sub: string, source: string, target: string)
    requires az.groupClientErr.None? && az.existence(sub, source) == Success(true)
    requires az.existence(sub, target) == Success(false)
    ensures var g := GroupInfoRun(az, sub, source, target);
            && g.err == Some(DestinationMissing(target))
            && (forall c | c in g.calls :: !c.FetchPage? && !c.MakeResourcesClient?)
            && g.storedIds.None? && g.storedTargetId.None?
  {
  }

  /** An empty source group is refused after `ResourceIds` has been set to
      the empty list and before the target ID is looked up. */
  lemma EmptyGroupRefused(az: Azure, sub: string, source: string, target: string)
    requires az.groupClientErr.None? && az.resourcesClientErr.None?
    requires az.existence(sub, source) == Success(true) && az.existence(sub, target) == Success(true)
    requires Listed(az.listing(sub, source)) == Success([])
    ensures var g := GroupInfoRun(az, sub, source, target);
            && g.err == Some(NoResources(source))
            && g.storedIds == Some(Some([])) && g.storedTargetId.None?
            && forall c | c in g.calls :: !c.FetchGroup?
  {
  }

  /** A successful run stores the non-empty list of IDs in listing order
      and the target group's ID as looked up. */
  lemma SuccessStoresBoth(az: Azure, sub: string, source: string, target: string)
    requires GroupInfoRun(az, sub, source, target).err.None?
    ensures var g := GroupInfoRun(az, sub, source, target);
            && Listed(az.listing(sub, source)).Success?
            && g.storedIds == Some(Some(Ids(Listed(az.listing(sub, source)).value)))
            && |g.storedIds.value.value| > 0
            && az.groupId(sub, target).Success?
            && g.storedTargetId == Some(az.groupId(sub, target).value)
  {
  }

  /** Every client is made for, and every question asked about, the source
      subscription: the target group is checked and looked up there too. */
  lemma SourceSubscriptionOnly(az: Azure, sub: string, source: string, target: string)
    ensures forall c | c in GroupInfoRun(az, sub, source, target).calls :: c.subscription == sub
  {
  }

  /** Both groups exist: the run goes on to make the resources client. */
  predicate BothGroupsExist(az: Azure, sub: string, source: string, target: string)
  {
    az.groupClientErr.None? && az.existence(sub, source) == Success(true) && az.existence(sub, target) == Success(true)
  }

  /** Which errors come back wrapped: client creation, listing and the ID
      lookup add their prefix; the existence checks and the resources
      client pass theirs through unchanged. */
  lemma ErrorWrapping(az: Azure, sub: string, source: string, target: string)
    ensures az.groupClientErr.Some? ==>
              GroupInfoRun(az, sub, source, target).err
                == Some(Wrap("failed to get resource group client: ", az.groupClientErr.value))
    ensures az.groupClientErr.None? && az.existence(sub, source).Failure? ==>
              GroupInfoRun(az, sub, source, target).err == Some(az.existence(sub, source).error)
    ensures az.groupClientErr.None? && az.existence(sub, source) == Success(true)
            && az.existence(sub, target).Failure? ==>
              GroupInfoRun(az, sub, source, target).err == Some(az.existence(sub, target).error)
    ensures BothGroupsExist(az, sub, source, target) && az.resourcesClientErr.Some? ==>
              GroupInfoRun(az, sub, source, target).err == az.resourcesClientErr
    ensures BothGroupsExist(az, sub, source, target) && az.resourcesClientErr.None?
            && Listed(az.listing(sub, source)).Failure? ==>
              GroupInfoRun(az, sub, source, target).err
                == Some(Wrap("failed to get resource IDs: ", Listed(az.listing(sub, source)).error))
    ensures BothGroupsExist(az, sub, source, target) && az.resourcesClientErr.None?
            && Listed(az.listing(sub, source)).Success? && |Listed(az.listing(sub, source)).value| > 0
            && az.groupId(sub, target).Failure? ==>
              GroupInfoRun(az, sub, source, target).err
                == Some(Wrap("failed to get target resource group ID: ", az.groupId(sub, target).error))
  {
  }
}
