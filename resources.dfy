/** internal/pkg/resources/resources.go: listing the resources of a group
    page by page, and extracting their IDs into pointers the caller owns. */
module Resources {
  import opened Wrappers
  import opened Errors
  import opened Pointers
  import opened Cloud

  /** The resources of the successful pages, in page order. */
  function Flatten(pages: seq<Page>): seq<GenericResource>
  {
    if |pages| == 0 then []
    else Flatten(pages[..|pages| - 1]) + (if pages[|pages| - 1].Success? then pages[|pages| - 1].value else [])
  }

  /** Listing splits at page boundaries: the resources of two runs of pages
      are those of the first followed by those of the second. */
  lemma {:induction false} FlattenAppend(pages: seq<Page>, more: seq<Page>)
    ensures Flatten(pages + more) == Flatten(pages) + Flatten(more)
  {
    if |more| > 0 {
      assert (pages + more)[..|pages + more| - 1] == pages + more[..|more| - 1];
      FlattenAppend(pages, more[..|more| - 1]);
    } else {
      assert pages + more == pages;
    }
  }

  /** Index of the first page that fails, or the number of pages. */
  function FirstFailedPage(pages: seq<Page>): (k: nat)
    ensures k <= |pages|
    ensures forall j | 0 <= j < k :: pages[j].Success?
    ensures k < |pages| ==> pages[k].Failure?
  {
    if |pages| == 0 || pages[0].Failure? then 0 else 1 + FirstFailedPage(pages[1..])
  }

  /** The page fetches a listing makes: up to and including the first
      failing page, or all of them. */
  function PagesFetched(pages: seq<Page>): (n: nat)
    ensures n <= |pages|
  {
    var k := FirstFailedPage(pages);
    if k < |pages| then k + 1 else |pages|
  }

  function FetchCalls(subscription: string, group: string, n: nat): (calls: seq<Call>)
    ensures |calls| == n && forall i | 0 <= i < n :: calls[i] == FetchPage(subscription, group)
  {
    seq(n, _ => FetchPage(subscription, group))
  }

  /** What listing the group yields: every resource, or the first error. */
  function Listed(pages: seq<Page>): (r: Result<seq<GenericResource>, Error>)
    ensures r.Failure? <==> exists j | 0 <= j < |pages| :: pages[j].Failure?
    ensures r.Failure? ==> r.error == pages[FirstFailedPage(pages)].error
    ensures r.Success? ==> r.value == Flatten(pages)
  {
    var k := FirstFailedPage(pages);
    if k < |pages| then Failure(pages[k].error) else Success(Flatten(pages))
  }

  /** `GetResources(ctx, resourcesClient, resourceGroupName)`: the
      resources of every page in page order, or nil beside the first page
      error, never a partial list. */
  method GetResources(az: Azure, client: ResourcesClient, resourceGroupName: string)
    returns (items: Slice<GenericResource>, err: Option<Error>)
    modifies az
    ensures var pages := az.listing(client.subscription, resourceGroupName);
            && az.log == old(az.log) + FetchCalls(client.subscription, resourceGroupName, PagesFetched(pages))
            && match Listed(pages)
               case Failure(e) => items == Nil && err == Some(e)
               case Success(rs) => items == Of(rs) && err == None
  {
    var pages := az.listing(client.subscription, resourceGroupName);
    var resourceItems: seq<GenericResource> := [];
    var i := 0;
    while i < |pages|
      invariant i <= FirstFailedPage(pages)
      invariant resourceItems == Flatten(pages[..i])
      invariant az.log == old(az.log) + FetchCalls(client.subscription, resourceGroupName, i)
    {
      var pageResp := az.NextPage(client, resourceGroupName, i);
      if pageResp.Failure? {
        return Nil, Some(pageResp.error);
      }
      assert pages[..i + 1][..i] == pages[..i];
      resourceItems := resourceItems + pageResp.value;
      i := i + 1;
    }
    assert pages[..i] == pages;
    return Of(resourceItems), None;
  }

  /** The IDs of the resources, in order. */
  function Ids(resources: seq<GenericResource>): (ids: seq<string>)
    ensures |ids| == |resources| && forall i | 0 <= i < |ids| :: ids[i] == resources[i].id
  {
    seq(|resources|, i requires 0 <= i < |resources| => resources[i].id)
  }

  /** The strings the pointers point to. */
  function Values(ptrs: seq<StringPtr>): (vs: seq<string>)
    reads set p | p in ptrs
    ensures |vs| == |ptrs| && forall i | 0 <= i < |ptrs| :: vs[i] == ptrs[i].value
  {
    seq(|ptrs|, i reads set p | p in ptrs requires 0 <= i < |ptrs| => ptrs[i].value)
  }

  /** Each pointer is its own cell: no two entries alias. */
  predicate Distinct(ptrs: seq<StringPtr>)
  {
    forall i, j | 0 <= i < j < |ptrs| :: ptrs[i] != ptrs[j]
  }

  /** `GetResourceIds(ctx, resourcesClient, resourceGroupName)`: one new
      pointer per listed resource, in order, each to its own copy of the ID;
      nil beside a listing error. An empty group gives an empty, non-nil
      slice. */
  method GetResourceIds(az: Azure, client: ResourcesClient, resourceGroupName: string)
    returns (resourceIds: Slice<StringPtr>, err: Option<Error>)
    modifies az
    ensures var pages := az.listing(client.subscription, resourceGroupName);
            && az.log == old(az.log) + FetchCalls(client.subscription, resourceGroupName, PagesFetched(pages))
            && match Listed(pages)
               case Failure(e) => resourceIds == Nil && err == Some(e)
               case Success(rs) =>
                 && err == None && resourceIds.Of?
                 && Values(resourceIds.elems) == Ids(rs)
                 && Distinct(resourceIds.elems)
                 && forall p | p in resourceIds.elems :: fresh(p)
  {
    var resourcesList, listErr := GetResources(az, client, resourceGroupName);
    if listErr.Some? {
      return Nil, listErr;
    }
    var ids: seq<StringPtr> := [];
    var i := 0;
    while i < |resourcesList.elems|
      modifies {}
      invariant i <= |resourcesList.elems|
      invariant |ids| == i
      invariant forall j | 0 <= j < i :: ids[j].value == resourcesList.elems[j].id
      invariant Distinct(ids)
      invariant forall p | p in ids :: fresh(p)
    {
      var id := new StringPtr(resourcesList.elems[i].id);
      ids := ids + [id];
      i := i + 1;
    }
    return Of(ids), None;
  }
}
