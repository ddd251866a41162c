/** internal/pkg/apis/apihelpers.go: the header and body of the direct REST
    call to the validate-move API. */
module Apis {
  import opened Wrappers
  import opened Errors

  /** An `http.Header`: each key maps to its values, in the order added. */
  type Header = map<string, seq<string>>

  /** `h.Add(key, value)`: appends one value under the key. */
  function HeaderAdd(h: Header, key: string, value: string): (r: Header)
    ensures r.Keys == h.Keys + {key}
    ensures r[key] == (if key in h then h[key] else []) + [value]
    ensures forall k | k in h && k != key :: r[k] == h[k]
  {
    h[key := (if key in h then h[key] else []) + [value]]
  }

  /** The `Authorization` value for an OAuth 2.0 bearer token (section 2.1
      of RFC 6750): the scheme, one space, the token. */
  function BearerCredentials(token: string): (r: string)
    ensures BearerToken(r) == Some(token)
  {
    var r := "Bearer " + token;
    assert r[..7] == "Bearer ";
    assert r[7..] == token;
    r
  }

  /** The token an `Authorization` value carries, if it uses the bearer
      scheme. */
  function BearerToken(credentials: string): Option<string>
  {
    if |credentials| >= 7 && credentials[..7] == "Bearer " then Some(credentials[7..]) else None
  }

  /** An outgoing request; only its header matters here. */
  class Request {
    var header: Header

    constructor (header: Header)
      ensures this.header == header
    {
      this.header := header;
    }

    method AddHeader(key: string, value: string)
      modifies this
      ensures header == HeaderAdd(old(header), key, value)
    {
      header := HeaderAdd(header, key, value);
    }
  }

  /** The header `CreateRequestHeader` leaves behind: a JSON content type
      and the bearer token appended, every other key and every earlier value
      kept. */
  function RequestHeader(h: Header, cachedAccessToken: string): (r: Header)
    ensures r.Keys == h.Keys + {"Content-Type", "Authorization"}
    ensures forall k | k in h :: |h[k]| <= |r[k]| && r[k][..|h[k]|] == h[k]
    ensures forall k | k in h && k != "Content-Type" && k != "Authorization" :: r[k] == h[k]
    ensures |r["Content-Type"]| > 0 && r["Content-Type"][|r["Content-Type"]| - 1] == "application/json"
    ensures |r["Authorization"]| > 0
    ensures BearerToken(r["Authorization"][|r["Authorization"]| - 1]) == Some(cachedAccessToken)
  {
    var withType := HeaderAdd(h, "Content-Type", "application/json");
    HeaderAdd(withType, "Authorization", BearerCredentials(cachedAccessToken))
  }

  /** `CreateRequestHeader(cachedAccessToken, r)` */
  method CreateRequestHeader(cachedAccessToken: string, r: Request)
    modifies r
    ensures r.header == RequestHeader(old(r.header), cachedAccessToken)
  {
    r.AddHeader("Content-Type", "application/json");
    r.AddHeader("Authorization", BearerCredentials(cachedAccessToken));
  }

  /** The ARM path of the target group: the subscription after
      `/subscriptions/`, the group after `/resourceGroups/`. */
  function TargetResourceGroupRef(targetSubscriptionID: string, targetResourceGroup: string): (r: string)
    ensures '/' !in targetSubscriptionID ==>
              ParseTargetRef(r) == Some((targetSubscriptionID, targetResourceGroup))
  {
    var r := "/subscriptions/" + targetSubscriptionID + "/resourceGroups/" + targetResourceGroup;
    assert '/' !in targetSubscriptionID ==> ParseTargetRef(r) == Some((targetSubscriptionID, targetResourceGroup)) by {
      if '/' !in targetSubscriptionID {
        ParseRef(targetSubscriptionID, targetResourceGroup);
      }
    }
    r
  }

  /** Different subscription/group pairs give different references, as long
      as the subscription contains no `/` (a valid subscription ID never
      does). */
  lemma TargetRefInjective(sub: string, group: string, sub2: string, group2: string)
    requires '/' !in sub && '/' !in sub2
    requires TargetResourceGroupRef(sub, group) == TargetResourceGroupRef(sub2, group2)
    ensures sub == sub2 && group == group2
  {
  }

  /** Position of the first `/` in `s`, or `|s|`. */
  function SlashAt(s: string): (i: nat)
    ensures i <= |s| && '/' !in s[..i]
    ensures i < |s| ==> s[i] == '/'
  {
    if |s| == 0 || s[0] == '/' then 0
    else
      var i := 1 + SlashAt(s[1..]);
      assert s[..i] == [s[0]] + s[1..][..i - 1];
      i
  }

  /** Reads back the subscription and the group of a target reference. */
  function ParseTargetRef(ref: string): Option<(string, string)>
  {
    var head := "/subscriptions/";
    if |ref| < |head| || ref[..|head|] != head then None
    else
      var rest := ref[|head|..];
      var i := SlashAt(rest);
      var tail := rest[i..];
      var mid := "/resourceGroups/";
      if |tail| < |mid| || tail[..|mid|] != mid then None
      else Some((rest[..i], tail[|mid|..]))
  }

  lemma {:induction false} SlashAtPrefix(sub: string, more: string)
    requires '/' !in sub && |more| > 0 && more[0] == '/'
    ensures SlashAt(sub + more) == |sub|
  {
    if |sub| > 0 {
      assert (sub + more)[0] == sub[0];
      assert (sub + more)[1..] == sub[1..] + more;
      SlashAtPrefix(sub[1..], more);
    }
  }

  lemma ParseRef(sub: string, group: string)
    requires '/' !in sub
    ensures ParseTargetRef("/subscriptions/" + sub + "/resourceGroups/" + group) == Some((sub, group))
  {
    var head, mid := "/subscriptions/", "/resourceGroups/";
    var ref := head + sub + mid + group;
    assert ref[..|head|] == head;
    assert ref[|head|..] == sub + (mid + group);
    SlashAtPrefix(sub, mid + group);
    assert (sub + (mid + group))[..|sub|] == sub;
    assert (sub + (mid + group))[|sub|..] == mid + group;
    assert (mid + group)[..|mid|] == mid;
    assert (mid + group)[|mid|..] == group;
  }

  /** The map `CreateRequestBody` marshals: exactly the two keys, the
      resource IDs verbatim and the target reference. */
  function BodyMap(targetSubscriptionID: string, targetResourceGroup: string, resourceIDs: string)
    : (m: map<string, string>)
    ensures m.Keys == {"resources", "targetResourceGroup"}
    ensures m["resources"] == resourceIDs
    ensures '/' !in targetSubscriptionID ==>
              ParseTargetRef(m["targetResourceGroup"]) == Some((targetSubscriptionID, targetResourceGroup))
  {
    map["resources" := resourceIDs,
        "targetResourceGroup" := TargetResourceGroupRef(targetSubscriptionID, targetResourceGroup)]
  }

  /** `json.Marshal` applied to the body map: the JSON text, or an error. */
  type Marshaller = map<string, string> -> Result<string, Error>

  /** `CreateRequestBody(targetSubscriptionID, targetResourceGroup,
      resourceIDs)`: the marshalled body; a marshalling error is dropped and
      leaves the empty string. */
  function CreateRequestBody(targetSubscriptionID: string, targetResourceGroup: string, resourceIDs: string,
                             marshal: Marshaller): (body: string)
    ensures var m := marshal(BodyMap(targetSubscriptionID, targetResourceGroup, resourceIDs));
            body == if m.Success? then m.value else ""
  {
    match marshal(BodyMap(targetSubscriptionID, targetResourceGroup, resourceIDs))
    case Success(text) => text
    case Failure(_) => ""
  }
}
