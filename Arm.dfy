/** The resource-management listings: directories (tenants), subscriptions and Application
    Insights components. Each listing's JSON envelope `{ value: [...] }` is mapped to typed records;
    a component's resource group and subscription are pulled out of its resource path. The HTTP
    call is not modelled; the envelope's `value` arrives as a parameter. */
module Arm {

  import opened Wrappers
  import opened JsValues

  /** The typed records copy the listed fields as they are; the source's type annotations are not
      checked at run time, so each copied field is a JSON value. */
  datatype ArmTenant = ArmTenant(tenantId: Value, displayName: Value, countryCode: Value, domains: Value)

  datatype ArmSubscription = ArmSubscription(subscriptionId: Value, displayName: Value, state: Value, tenantId: Value)

  datatype AppInsightsComponent = AppInsightsComponent(
    id: string,
    name: Value,
    location: Value,
    resourceGroup: Option<string>,
    subscriptionId: Option<string>,
    appId: Value,
    applicationId: Value,
    ingestionMode: Value)

  /** `data.value ?? []`: the entries of a listing, `None` when the envelope has no `value`. */
  function Entries(value: Option<seq<JsonObject>>): seq<JsonObject>
  {
    match value
    case None => []
    case Some(entries) => entries
  }

  // ---------------------------------------------------------------------------
  // Segments of a resource path

  const ResourceGroupsMarker := "/resourceGroups/"
  const SubscriptionsMarker := "/subscriptions/"

  predicate SlashFree(s: string)
  {
    forall k :: 0 <= k < |s| ==> s[k] != '/'
  }

  /** The pattern `<marker>([^/]+)/` with the `i` flag matches `id` at position `p`, capturing
      `seg`. */
  predicate MatchesAt(id: string, marker: string, p: int, seg: string)
  {
    && 0 <= p && p + |marker| + |seg| < |id|
    && EqualsIgnoreCase(id[p..p + |marker|], marker)
    && |seg| > 0 && SlashFree(seg)
    && id[p + |marker|..p + |marker| + |seg|] == seg
    && id[p + |marker| + |seg|] == '/'
  }

  /** `seg` is what `id.match(...)` captures: the capture of the leftmost position that matches. */
  ghost predicate IsLeftmostMatch(id: string, marker: string, seg: string)
  {
    exists p :: MatchesAt(id, marker, p, seg) && forall q, s :: 0 <= q < p ==> !MatchesAt(id, marker, q, s)
  }

  ghost predicate NoMatch(id: string, marker: string)
  {
    forall q, s :: !MatchesAt(id, marker, q, s)
  }

  /** The length of the run of non-slash characters that starts `s`. */
  function SlashFreePrefix(s: string): (n: nat)
    ensures n <= |s| && SlashFree(s[..n]) && (n == |s| || s[n] == '/')
  {
    if |s| > 0 && s[0] != '/' then
      var m := SlashFreePrefix(s[1..]);
      assert s[..1 + m] == [s[0]] + s[1..][..m];
      1 + m
    else 0
  }

  /** The capture of a match at position `p`, if the pattern matches there. */
  function SegmentAt(id: string, marker: string, p: nat): (r: Option<string>)
    requires p <= |id|
    ensures r.Some? ==> MatchesAt(id, marker, p, r.value)
    ensures r.None? ==> forall s :: !MatchesAt(id, marker, p, s)
  {
    if p + |marker| <= |id| && EqualsIgnoreCase(id[p..p + |marker|], marker) then
      var rest := id[p + |marker|..];
      var n := SlashFreePrefix(rest);
      if 0 < n < |rest| then
        assert rest[..n] == id[p + |marker|..p + |marker| + n];
        Some(rest[..n])
      else
        assert forall s :: !MatchesAt(id, marker, p, s) by {
          forall s | MatchesAt(id, marker, p, s) ensures false {
            CaptureIsSlashRun(rest, s, n);
          }
        }
        None
    else None
  }

  /** A slash-free `seg` followed by `/` is exactly the run of non-slash characters. */
  lemma CaptureIsSlashRun(rest: string, seg: string, n: nat)
    requires n <= |rest| && SlashFree(rest[..n]) && (n == |rest| || rest[n] == '/')
    requires |seg| < |rest| && rest[..|seg|] == seg && SlashFree(seg) && rest[|seg|] == '/'
    ensures n == |seg|
  {
  }

  /** The leftmost match at or after position `p`, with its position. */
  function FindMatch(id: string, marker: string, p: nat): (r: Option<(nat, string)>)
    requires p <= |id|
    ensures r.Some? ==> p <= r.value.0 && MatchesAt(id, marker, r.value.0, r.value.1)
    ensures r.Some? ==> forall q, s :: p <= q < r.value.0 ==> !MatchesAt(id, marker, q, s)
    ensures r.None? ==> forall q, s :: p <= q ==> !MatchesAt(id, marker, q, s)
    decreases |id| - p
  {
    match SegmentAt(id, marker, p)
    case Some(seg) => Some((p, seg))
    case None =>
      if p == |id| then None else FindMatch(id, marker, p + 1)
  }

  /** The capture of the leftmost match, as `id.match(...)?.[1]` gives it. */
  function ParseSegment(id: string, marker: string): (r: Option<string>)
    ensures r.Some? ==> IsLeftmostMatch(id, marker, r.value) && |r.value| > 0 && SlashFree(r.value)
    ensures r.None? ==> NoMatch(id, marker)
  {
    match FindMatch(id, marker, 0)
    case None => None
    case Some((p, seg)) => assert MatchesAt(id, marker, p, seg); Some(seg)
  }

  /** `parseResourceGroupFromId`: the segment after the leftmost `/resourceGroups/` (in any
      letter case) that is followed by `/`; `None` when there is none. */
  function ParseResourceGroupFromId(id: string): (r: Option<string>)
    ensures r.Some? ==> IsLeftmostMatch(id, ResourceGroupsMarker, r.value) && |r.value| > 0 && SlashFree(r.value)
    ensures r.None? ==> NoMatch(id, ResourceGroupsMarker)
  {
    ParseSegment(id, ResourceGroupsMarker)
  }

  /** `parseSubscriptionFromId`: the same for `/subscriptions/`. */
  function ParseSubscriptionFromId(id: string): (r: Option<string>)
    ensures r.Some? ==> IsLeftmostMatch(id, SubscriptionsMarker, r.value) && |r.value| > 0 && SlashFree(r.value)
    ensures r.None? ==> NoMatch(id, SubscriptionsMarker)
  {
    ParseSegment(id, SubscriptionsMarker)
  }

  // ---------------------------------------------------------------------------
  // Record mappers

  function TenantOf(t: JsonObject): ArmTenant
  {
    ArmTenant(Get(t, "tenantId"), Get(t, "displayName"), Get(t, "countryCode"), Get(t, "domains"))
  }

  /** The mapping of `listTenants`: one record per entry, in order. */
  function ListTenants(value: Option<seq<JsonObject>>): (r: seq<ArmTenant>)
    ensures |r| == |Entries(value)|
    ensures forall i :: 0 <= i < |r| ==>
      var t := Entries(value)[i];
      && r[i].tenantId == Get(t, "tenantId") && r[i].displayName == Get(t, "displayName")
      && r[i].countryCode == Get(t, "countryCode") && r[i].domains == Get(t, "domains")
  {
    var entries := Entries(value);
    seq(|entries|, i requires 0 <= i < |entries| => TenantOf(entries[i]))
  }

  function SubscriptionOf(s: JsonObject): ArmSubscription
  {
    ArmSubscription(Get(s, "subscriptionId"), Get(s, "displayName"), Get(s, "state"), Get(s, "tenantId"))
  }

  /** The mapping of `listSubscriptions`: one record per entry, in order. */
  function ListSubscriptions(value: Option<seq<JsonObject>>): (r: seq<ArmSubscription>)
    ensures |r| == |Entries(value)|
    ensures forall i :: 0 <= i < |r| ==>
      var s := Entries(value)[i];
      && r[i].subscriptionId == Get(s, "subscriptionId") && r[i].displayName == Get(s, "displayName")
      && r[i].state == Get(s, "state") && r[i].tenantId == Get(s, "tenantId")
  {
    var entries := Entries(value);
    seq(|entries|, i requires 0 <= i < |entries| => SubscriptionOf(entries[i]))
  }

  /** `c.properties ?? {}`, read as an object: a value that is not an object has no properties. */
  function PropertiesOf(c: JsonObject): JsonObject
  {
    match Get(c, "properties")
    case Obj(fields) => fields
    case _ => map[]
  }

  function ComponentOf(c: JsonObject): AppInsightsComponent
  {
    var id := JsString(Get(c, "id"));
    var props := PropertiesOf(c);
    AppInsightsComponent(
      id,
      Get(c, "name"),
      Get(c, "location"),
      ParseResourceGroupFromId(id),
      ParseSubscriptionFromId(id),
      Coalesce(Get(props, "AppId"), Get(props, "appId")),
      Coalesce(Get(props, "ApplicationId"), Get(props, "applicationId")),
      Coalesce(Get(props, "IngestionMode"), Get(props, "ingestionMode")))
  }

  /** Of the two spellings of a property, the capitalised one when it is present (neither null
      nor undefined), else the other one. */
  predicate EitherCasing(props: JsonObject, upper: string, lower: string, v: Value)
  {
    && (!Nullish(Get(props, upper)) ==> v == Get(props, upper))
    && (Nullish(Get(props, upper)) ==> v == Get(props, lower))
  }

  /** The mapping of `listAppInsightsComponents`: one record per entry, in order, with the id
      stringified, its path segments extracted, and the casing fallbacks applied. */
  function ListAppInsightsComponents(value: Option<seq<JsonObject>>): (r: seq<AppInsightsComponent>)
    ensures |r| == |Entries(value)|
    ensures forall i :: 0 <= i < |r| ==>
      var c := Entries(value)[i];
      && r[i].id == JsString(Get(c, "id"))
      && r[i].name == Get(c, "name") && r[i].location == Get(c, "location")
      && r[i].resourceGroup == ParseResourceGroupFromId(r[i].id)
      && r[i].subscriptionId == ParseSubscriptionFromId(r[i].id)
      && EitherCasing(PropertiesOf(c), "AppId", "appId", r[i].appId)
      && EitherCasing(PropertiesOf(c), "ApplicationId", "applicationId", r[i].applicationId)
      && EitherCasing(PropertiesOf(c), "IngestionMode", "ingestionMode", r[i].ingestionMode)
  {
    var entries := Entries(value);
    seq(|entries|, i requires 0 <= i < |entries| => ComponentOf(entries[i]))
  }
}
