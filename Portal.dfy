/** The portal's state and its transitions: loading directories, subscriptions and Application
    Insights instances, the effects that clear downstream selections when a directory or
    subscription changes, and paging or searching through invocations and loading one
    invocation's details.

    Each asynchronous load is split in two: `Begin...` does what the load does before its first
    `await` and returns a request that records the values the load's closure read at that time;
    `Finish...` takes that request and the outcome of the remote calls (a `Result` whose error is
    the caught exception's message) and applies the updates the load makes afterwards. When
    React runs an effect (after the fields it depends on changed) is not modelled: the effect
    bodies are methods of their own. */
module Portal {

  import opened Wrappers
  import opened JsValues
  import opened Queries
  import opened Logs
  import opened Arm

  datatype Mode = List | Search

  /** The `loading` object: which of the five loads is in flight. */
  datatype Loading = Loading(tenants: bool, subs: bool, apps: bool, inv: bool, details: bool)

  /** A row of the invocations table. `durationMs` holds `r.duration ?? 0`, the value the source
      hands to `Number(...)`. */
  datatype InvocationRow = InvocationRow(
    timestamp: string,
    name: string,
    success: bool,
    resultCode: string,
    durationMs: Value,
    operationId: string,
    requestId: string,
    matchCount: Option<int>)

  /** Number of invocations per page, both for list pages and for keyword searches. */
  const PageSize: nat := 100

  // ---------------------------------------------------------------------------
  // JavaScript comparisons used by the portal

  /** `a === b` between values from parsed JSON: primitives compare by value; arrays and objects
      from separate parses are never the same object. */
  predicate StrictEquals(a: Value, b: Value)
  {
    a == b && !a.Arr? && !a.Obj?
  }

  /** `String(v ?? '')`. */
  function StringOrEmpty(v: Value): (s: string)
    ensures Nullish(v) ==> s == ""
    ensures !Nullish(v) ==> s == JsString(v)
    ensures v.Str? ==> s == v.s
  {
    JsString(Coalesce(v, Str("")))
  }

  // ---------------------------------------------------------------------------
  // Invocation rows and their counts

  /** The mapping in `loadInvocationsPage` from a result record to a table row. */
  function InvocationRowOf(r: ResultRow): (row: InvocationRow)
    ensures row.success <==> Get(r, "success") == Bool(true)
    ensures row.operationId == StringOrEmpty(Get(r, "operation_Id"))
    ensures row.requestId == StringOrEmpty(Get(r, "id"))
    ensures row.timestamp == StringOrEmpty(Get(r, "timestamp"))
    ensures row.name == StringOrEmpty(Get(r, "name"))
    ensures row.resultCode == StringOrEmpty(Get(r, "resultCode"))
    ensures row.matchCount.Some? <==> Get(r, "matchCount").Num?
    ensures row.matchCount.Some? ==> Get(r, "matchCount") == Num(row.matchCount.value)
    ensures Nullish(Get(r, "duration")) ==> row.durationMs == Num(0)
    ensures !Nullish(Get(r, "duration")) ==> row.durationMs == Get(r, "duration")
  {
    InvocationRow(
      StringOrEmpty(Get(r, "timestamp")),
      StringOrEmpty(Get(r, "name")),
      Get(r, "success") == Bool(true),
      StringOrEmpty(Get(r, "resultCode")),
      Coalesce(Get(r, "duration"), Num(0)),
      StringOrEmpty(Get(r, "operation_Id")),
      StringOrEmpty(Get(r, "id")),
      match Get(r, "matchCount") case Num(n) => Some(n) case _ => None)
  }

  /** The rows of a page: one table row per record, in order. */
  function InvocationRowsOf(records: seq<ResultRow>): (rows: seq<InvocationRow>)
    ensures |rows| == |records|
    ensures forall i :: 0 <= i < |rows| ==> rows[i] == InvocationRowOf(records[i])
  {
    seq(|records|, i requires 0 <= i < |records| => InvocationRowOf(records[i]))
  }

  /** `resp.objectsByTable.PrimaryResult ?? []`. */
  function PrimaryResult(byTable: map<string, seq<ResultRow>>): (records: seq<ResultRow>)
    ensures "PrimaryResult" !in byTable ==> records == []
    ensures "PrimaryResult" in byTable ==> records == byTable["PrimaryResult"]
  {
    if "PrimaryResult" in byTable then byTable["PrimaryResult"] else []
  }

  /** `successCount`: the rows marked successful. */
  function SuccessCount(rows: seq<InvocationRow>): nat
  {
    if |rows| == 0 then 0 else (if rows[0].success then 1 else 0) + SuccessCount(rows[1..])
  }

  /** `errorCount`: the rows marked unsuccessful. */
  function ErrorCount(rows: seq<InvocationRow>): nat
  {
    if |rows| == 0 then 0 else (if rows[0].success then 0 else 1) + ErrorCount(rows[1..])
  }

  /** Every row is counted once, as a success or as an error. */
  lemma {:induction false} CountsPartitionRows(rows: seq<InvocationRow>)
    ensures SuccessCount(rows) + ErrorCount(rows) == |rows|
  {
    if |rows| > 0 {
      CountsPartitionRows(rows[1..]);
    }
  }

  /** Appending a page adds its successes and errors to the counts. */
  lemma {:induction false} CountsOfAppend(a: seq<InvocationRow>, b: seq<InvocationRow>)
    ensures SuccessCount(a + b) == SuccessCount(a) + SuccessCount(b)
    ensures ErrorCount(a + b) == ErrorCount(a) + ErrorCount(b)
  {
    if |a| > 0 {
      assert (a + b)[1..] == a[1..] + b;
      CountsOfAppend(a[1..], b);
    } else {
      assert a + b == b;
    }
  }

  // ---------------------------------------------------------------------------
  // Choosing the query of a page

  /** The query `loadInvocationsPage` sends: the keyword search when the mode is `search` and the
      trimmed keyword is not empty, otherwise the list page at `offset`. */
  function PageQuery(mode: Mode, search: string, timeRange: TimeRange, offset: nat): (kql: string)
    ensures Contains(kql, AgoFilter(TimeRangeToAgo(timeRange)))
    ensures mode == Search && |Trim(search)| > 0 ==>
      && kql == SearchInvocationsByTraceKeywordQuery(Trim(search), timeRange, PageSize)
      && Contains(kql, "message has " + QuotedLiteral(Trim(search)))
      && EndsWith(kql, "| take " + NatToDecimal(PageSize))
    ensures !(mode == Search && |Trim(search)| > 0) ==>
      && kql == InvocationsQuery(timeRange, offset, PageSize)
      && Contains(kql, "| where " + RankClause(PageWindow(offset, PageSize)))
  {
    if mode == Search && |Trim(search)| > 0 then
      SearchInvocationsByTraceKeywordQuery(Trim(search), timeRange, PageSize)
    else
      InvocationsQuery(timeRange, offset, PageSize)
  }

  /** The keyword holds a character that is not whitespace: exactly when `search.trim()` is
      truthy (`KeywordIffTrimmed`). */
  predicate HasKeyword(search: string)
  {
    exists k :: 0 <= k < |search| && !IsJsWhitespace(search[k])
  }

  lemma KeywordIffTrimmed(search: string)
    ensures HasKeyword(search) <==> |Trim(search)| > 0
  {
    var t := TrimStart(search);
    var r := TrimEnd(t);
    assert Trim(search) == r;
    if HasKeyword(search) {
      var k :| 0 <= k < |search| && !IsJsWhitespace(search[k]);
      var i := |search| - |t|;
      assert k >= i && t[k - i] == search[k];
    }
    if |r| > 0 {
      assert r[0] == t[0] == search[|search| - |t|];
    }
  }

  /** The mode Enter switches to: search for a keyword that is not blank, list otherwise. */
  function ModeForKeyword(search: string): (m: Mode)
    ensures m == Search <==> HasKeyword(search)
  {
    if HasKeyword(search) then Search else List
  }

  // ---------------------------------------------------------------------------
  // Picking a directory, a subscription and an instance

  /** The position `t.find((x) => x.tenantId === id)` stops at: the first directory with that id,
      or `|t|` when there is none. */
  function FindTenant(t: seq<ArmTenant>, id: Value): (i: nat)
    ensures i <= |t|
    ensures i < |t| ==> StrictEquals(t[i].tenantId, id)
    ensures forall j :: 0 <= j < i ==> !StrictEquals(t[j].tenantId, id)
  {
    if |t| == 0 then 0
    else if StrictEquals(t[0].tenantId, id) then 0
    else
      var i := FindTenant(t[1..], id);
      assert forall j :: 1 <= j < |t| ==> t[j] == t[1..][j - 1];
      i + 1
  }

  /** The directory `loadTenants` picks when none is chosen: the signed-in account's directory if
      the listing has it, otherwise the first listed directory's id, otherwise `''`. */
  function PreferredTenant(t: seq<ArmTenant>, defaultTenantId: Option<string>): (id: Value)
    ensures defaultTenantId.Some? && (exists i :: 0 <= i < |t| && t[i].tenantId == Str(defaultTenantId.value)) ==>
      id == Str(defaultTenantId.value)
    ensures (defaultTenantId.None? || forall i :: 0 <= i < |t| ==> t[i].tenantId != Str(defaultTenantId.value)) ==>
      id == (if |t| > 0 && !Nullish(t[0].tenantId) then t[0].tenantId else Str(""))
  {
    var wanted := if defaultTenantId.Some? then Str(defaultTenantId.value) else Undefined;
    var i := FindTenant(t, wanted);
    var found := if i < |t| then t[i].tenantId else Undefined;
    var first := if |t| > 0 then t[0].tenantId else Undefined;
    Coalesce(Coalesce(found, first), Str(""))
  }

  /** `s.some((x) => x.subscriptionId === id)`. */
  predicate ListsSubscription(s: seq<ArmSubscription>, id: Value)
  {
    exists i :: 0 <= i < |s| && StrictEquals(s[i].subscriptionId, id)
  }

  /** `s[0]?.subscriptionId ?? ''`. */
  function FirstSubscriptionId(s: seq<ArmSubscription>): (id: Value)
    ensures |s| == 0 ==> id == Str("")
    ensures |s| > 0 && !Nullish(s[0].subscriptionId) ==> id == s[0].subscriptionId
    ensures |s| > 0 && Nullish(s[0].subscriptionId) ==> id == Str("")
    ensures !Nullish(id)
  {
    Coalesce(if |s| > 0 then s[0].subscriptionId else Undefined, Str(""))
  }

  /** The position `apps.find((a) => a.id === id)` stops at: the first instance with that
      resource id, or `|apps|` when there is none. */
  function FindApp(apps: seq<AppInsightsComponent>, id: string): (i: nat)
    ensures i <= |apps|
    ensures i < |apps| ==> apps[i].id == id
    ensures forall j :: 0 <= j < i ==> apps[j].id != id
  {
    if |apps| == 0 then 0
    else if apps[0].id == id then 0
    else
      var i := FindApp(apps[1..], id);
      assert forall j :: 1 <= j < |apps| ==> apps[j] == apps[1..][j - 1];
      i + 1
  }

  /** `appId`: the Application Insights id of the chosen instance, `null` when no listed instance
      has the chosen resource id or it has no id. */
  function AppIdOf(apps: seq<AppInsightsComponent>, resourceId: string): (appId: Value)
    ensures (forall i :: 0 <= i < |apps| ==> apps[i].id != resourceId) ==> appId == Null
    ensures FindApp(apps, resourceId) < |apps| ==> appId == Coalesce(apps[FindApp(apps, resourceId)].appId, Null)
  {
    var i := FindApp(apps, resourceId);
    if i < |apps| then Coalesce(apps[i].appId, Null) else Null
  }

  // ---------------------------------------------------------------------------
  // Sorting instances by name

  /** `localeCompare` is abstracted as a total preorder on the sort keys. */
  ghost predicate TotalPreorder(leq: (Value, Value) -> bool)
  {
    && (forall a, b :: leq(a, b) || leq(b, a))
    && (forall a, b, c :: leq(a, b) && leq(b, c) ==> leq(a, c))
  }

  /** The sort key `x.name ?? ''`. */
  function NameKey(app: AppInsightsComponent): Value
  {
    Coalesce(app.name, Str(""))
  }

  ghost predicate SortedByName(apps: seq<AppInsightsComponent>, leq: (Value, Value) -> bool)
  {
    forall i, j :: 0 <= i < j < |apps| ==> leq(NameKey(apps[i]), NameKey(apps[j]))
  }

  /** Puts `app` before the first instance it sorts no later than, keeping earlier equals first. */
  function InsertByName(app: AppInsightsComponent, sorted: seq<AppInsightsComponent>, leq: (Value, Value) -> bool)
    : (r: seq<AppInsightsComponent>)
    requires TotalPreorder(leq) && SortedByName(sorted, leq)
    ensures SortedByName(r, leq)
    ensures multiset(r) == multiset(sorted) + multiset{app}
  {
    if |sorted| == 0 then [app]
    else if leq(NameKey(app), NameKey(sorted[0])) then
      assert forall j :: 1 <= j < |sorted| + 1 ==> ([app] + sorted)[j] == sorted[j - 1];
      [app] + sorted
    else
      var rest := InsertByName(app, sorted[1..], leq);
      assert sorted == [sorted[0]] + sorted[1..];
      BoundedAfterInsert(NameKey(sorted[0]), app, sorted[1..], rest, leq);
      [sorted[0]] + rest
  }

  /** A lower bound of `app` and of every element of `s` bounds every element of a permutation of
      `s` with `app` added. */
  lemma BoundedAfterInsert(lo: Value, app: AppInsightsComponent, s: seq<AppInsightsComponent>,
                           r: seq<AppInsightsComponent>, leq: (Value, Value) -> bool)
    requires multiset(r) == multiset(s) + multiset{app}
    requires leq(lo, NameKey(app))
    requires forall k :: 0 <= k < |s| ==> leq(lo, NameKey(s[k]))
    ensures forall j :: 0 <= j < |r| ==> leq(lo, NameKey(r[j]))
  {
    forall j | 0 <= j < |r| ensures leq(lo, NameKey(r[j])) {
      assert r[j] in multiset(r);
      if r[j] != app {
        assert r[j] in multiset(s);
        var k :| 0 <= k < |s| && s[k] == r[j];
      }
    }
  }

  /** The order `a.sort(...)` leaves the instances in: sorted by name and a permutation. */
  function SortByName(apps: seq<AppInsightsComponent>, leq: (Value, Value) -> bool): (r: seq<AppInsightsComponent>)
    requires TotalPreorder(leq)
    ensures SortedByName(r, leq)
    ensures multiset(r) == multiset(apps)
  {
    if |apps| == 0 then []
    else
      assert apps == [apps[0]] + apps[1..];
      InsertByName(apps[0], SortByName(apps[1..], leq), leq)
  }

  // ---------------------------------------------------------------------------
  // The portal

  /** What a load's closure read before its first `await`. */
  datatype TenantsRequest = TenantsRequest(tenantId: Value)
  datatype SubscriptionsRequest = SubscriptionsRequest(forTenantId: Value, subscriptionId: Value)
  datatype AppsRequest = AppsRequest(forTenantId: Value, forSubscriptionId: Value, appInsightsResourceId: string)
  datatype PageRequest = PageRequest(appId: Value, reset: bool, offset: nat, mode: Mode, search: string, timeRange: TimeRange)
  {
    /** The query the page load sends. */
    function Kql(): string
    {
      PageQuery(mode, search, timeRange, offset)
    }
  }

  datatype DetailsRequest = DetailsRequest(appId: Value, operationId: string, timeRange: TimeRange)
  {
    /** The query the details load sends. */
    function Kql(): string
    {
      InvocationDetailsQuery(operationId, timeRange)
    }
  }

  class PortalState {
    /** The signed-in account's directory. */
    const defaultTenantId: Option<string>

    var loading: Loading
    var error: Option<string>
    var tenants: seq<ArmTenant>
    var subscriptions: seq<ArmSubscription>
    var apps: seq<AppInsightsComponent>
    var tenantId: Value
    var subscriptionId: Value
    var appInsightsResourceId: string
    var timeRange: TimeRange
    var mode: Mode
    var search: string
    var invocations: seq<InvocationRow>
    var invocationOffset: nat
    var selectedOperationId: Option<string>
    var details: seq<ResultRow>

    /** `appId` of the current state. */
    function AppId(): Value
      reads this`apps, this`appInsightsResourceId
    {
      AppIdOf(apps, appInsightsResourceId)
    }

    /** `canLoadMore`: list mode, an instance with an id, and no page load in flight. */
    predicate CanLoadMore()
      reads this`mode, this`apps, this`appInsightsResourceId, this`loading
    {
      mode == List && Truthy(AppId()) && !loading.inv
    }

    /** The initial state: the remembered selections (directory, subscription, instance, time
        range), falling back to the account's directory, `''` and the last 30 days. */
    constructor(defaultTenantId: Option<string>, storedTenantId: Option<string>, storedSubscriptionId: Option<string>,
                storedAppInsightsId: Option<string>, storedTimeRange: Option<TimeRange>)
      ensures this.defaultTenantId == defaultTenantId
      ensures loading == Loading(false, false, false, false, false) && error == None
      ensures tenants == [] && subscriptions == [] && apps == []
      ensures tenantId == Str(if storedTenantId.Some? then storedTenantId.value
                              else if defaultTenantId.Some? then defaultTenantId.value else "")
      ensures subscriptionId == Str(if storedSubscriptionId.Some? then storedSubscriptionId.value else "")
      ensures appInsightsResourceId == if storedAppInsightsId.Some? then storedAppInsightsId.value else ""
      ensures timeRange == if storedTimeRange.Some? then storedTimeRange.value else P30D
      ensures mode == List && search == ""
      ensures invocations == [] && invocationOffset == 0 && selectedOperationId == None && details == []
    {
      this.defaultTenantId := defaultTenantId;
      loading := Loading(false, false, false, false, false);
      error := None;
      tenants := [];
      subscriptions := [];
      apps := [];
      tenantId := Str(if storedTenantId.Some? then storedTenantId.value
                      else if defaultTenantId.Some? then defaultTenantId.value else "");
      subscriptionId := Str(if storedSubscriptionId.Some? then storedSubscriptionId.value else "");
      appInsightsResourceId := if storedAppInsightsId.Some? then storedAppInsightsId.value else "";
      timeRange := if storedTimeRange.Some? then storedTimeRange.value else P30D;
      mode := List;
      search := "";
      invocations := [];
      invocationOffset := 0;
      selectedOperationId := None;
      details := [];
    }

    /** The effect on the account's directory: with no directory chosen, choose the account's. */
    method DefaultTenantEffect()
      modifies this`tenantId
      ensures !Truthy(old(tenantId)) && defaultTenantId.Some? && defaultTenantId.value != "" ==>
        tenantId == Str(defaultTenantId.value)
      ensures !(!Truthy(old(tenantId)) && defaultTenantId.Some? && defaultTenantId.value != "") ==>
        tenantId == old(tenantId)
    {
      if !Truthy(tenantId) && defaultTenantId.Some? && defaultTenantId.value != "" {
        tenantId := Str(defaultTenantId.value);
      }
    }

    // --- loadTenants

    method BeginLoadTenants() returns (req: TenantsRequest)
      modifies this`error, this`loading
      ensures req == TenantsRequest(tenantId)
      ensures error == None && loading == old(loading).(tenants := true)
    {
      error := None;
      loading := loading.(tenants := true);
      req := TenantsRequest(tenantId);
    }

    /** The directories are stored; if no directory was chosen when the load began, the preferred
        one is chosen. */
    method FinishLoadTenants(req: TenantsRequest, result: Result<seq<ArmTenant>, string>)
      modifies this`tenants, this`tenantId, this`error, this`loading
      ensures loading == old(loading).(tenants := false)
      ensures result.Ok? ==>
        && tenants == result.value && error == old(error)
        && tenantId == if Truthy(req.tenantId) then old(tenantId) else PreferredTenant(result.value, defaultTenantId)
      ensures result.Err? ==> error == Some(result.error) && tenants == old(tenants) && tenantId == old(tenantId)
    {
      match result {
        case Ok(t) =>
          tenants := t;
          if !Truthy(req.tenantId) {
            tenantId := PreferredTenant(t, defaultTenantId);
          }
        case Err(message) =>
          error := Some(message);
      }
      loading := loading.(tenants := false);
    }

    // --- the directory effect and loadSubscriptions

    /** The effect on `tenantId`: everything below the directory is cleared and the
        subscriptions of the directory start loading. */
    method TenantEffect() returns (req: Option<SubscriptionsRequest>)
      modifies this`subscriptions, this`apps, this`invocations, this`invocationOffset, this`selectedOperationId,
               this`details, this`subscriptionId, this`appInsightsResourceId, this`error, this`loading
      ensures !Truthy(tenantId) ==> req == None && unchanged(this)
      ensures Truthy(tenantId) ==>
        && req == Some(SubscriptionsRequest(tenantId, old(subscriptionId)))
        && subscriptions == [] && apps == [] && invocations == [] && invocationOffset == 0
        && selectedOperationId == None && details == [] && subscriptionId == Str("")
        && appInsightsResourceId == "" && error == None && loading == old(loading).(subs := true)
    {
      if Truthy(tenantId) {
        req := Some(SubscriptionsRequest(tenantId, subscriptionId));
        subscriptions := [];
        apps := [];
        invocations := [];
        invocationOffset := 0;
        selectedOperationId := None;
        details := [];
        subscriptionId := Str("");
        appInsightsResourceId := "";
        error := None;
        loading := loading.(subs := true);
      } else {
        req := None;
      }
    }

    /** The subscriptions are stored. The current selection stays when the id the load began with
        is listed; otherwise the first listed id (or `''`) is chosen. After a directory change the
        current selection is the cleared `''` (`TenantSwitchClearsListedSubscription`). */
    method FinishLoadSubscriptions(req: SubscriptionsRequest, result: Result<seq<ArmSubscription>, string>)
      modifies this`subscriptions, this`subscriptionId, this`error, this`loading
      ensures loading == old(loading).(subs := false)
      ensures result.Ok? ==>
        && subscriptions == result.value && error == old(error)
        && subscriptionId == if ListsSubscription(result.value, req.subscriptionId) then old(subscriptionId)
                             else FirstSubscriptionId(result.value)
      ensures result.Err? ==>
        error == Some(result.error) && subscriptions == old(subscriptions) && subscriptionId == old(subscriptionId)
    {
      match result {
        case Ok(s) =>
          subscriptions := s;
          if !ListsSubscription(s, req.subscriptionId) {
            subscriptionId := FirstSubscriptionId(s);
          }
        case Err(message) =>
          error := Some(message);
      }
      loading := loading.(subs := false);
    }

    // --- the subscription effect and loadApps

    /** The effect on `tenantId` and `subscriptionId`: with both chosen, everything below the
        subscription is cleared and its instances start loading; the directory and the
        subscription stay. */
    method SubscriptionEffect() returns (req: Option<AppsRequest>)
      modifies this`apps, this`invocations, this`invocationOffset, this`selectedOperationId, this`details,
               this`error, this`loading
      ensures !(Truthy(tenantId) && Truthy(subscriptionId)) ==> req == None && unchanged(this)
      ensures Truthy(tenantId) && Truthy(subscriptionId) ==>
        && req == Some(AppsRequest(tenantId, subscriptionId, appInsightsResourceId))
        && apps == [] && invocations == [] && invocationOffset == 0 && selectedOperationId == None
        && details == [] && error == None && loading == old(loading).(apps := true)
    {
      if Truthy(tenantId) && Truthy(subscriptionId) {
        req := Some(AppsRequest(tenantId, subscriptionId, appInsightsResourceId));
        apps := [];
        invocations := [];
        invocationOffset := 0;
        selectedOperationId := None;
        details := [];
        error := None;
        loading := loading.(apps := true);
      } else {
        req := None;
      }
    }

    /** The instances are stored sorted by name. The current selection stays when the id the load
        began with is listed; otherwise the first id after sorting (or `''`) is chosen. */
    method FinishLoadApps(req: AppsRequest, result: Result<seq<AppInsightsComponent>, string>,
                          leq: (Value, Value) -> bool)
      requires TotalPreorder(leq)
      modifies this`apps, this`appInsightsResourceId, this`error, this`loading
      ensures loading == old(loading).(apps := false)
      ensures result.Ok? ==>
        && apps == SortByName(result.value, leq) && error == old(error)
        && SortedByName(apps, leq) && multiset(apps) == multiset(result.value)
        && appInsightsResourceId ==
             if exists i :: 0 <= i < |result.value| && result.value[i].id == req.appInsightsResourceId
             then old(appInsightsResourceId)
             else if |apps| > 0 then apps[0].id else ""
      ensures result.Err? ==>
        error == Some(result.error) && apps == old(apps) && appInsightsResourceId == old(appInsightsResourceId)
    {
      match result {
        case Ok(a) =>
          var sorted := SortByName(a, leq);
          apps := sorted;
          if !exists i :: 0 <= i < |sorted| && sorted[i].id == req.appInsightsResourceId {
            appInsightsResourceId := if |sorted| > 0 then sorted[0].id else "";
          }
          SameIdsAfterSort(a, sorted, req.appInsightsResourceId);
        case Err(message) =>
          error := Some(message);
      }
      loading := loading.(apps := false);
    }

    // --- the appId effect and loadInvocationsPage

    /** What `loadInvocationsPage` does before its first `await`; nothing at all without an
        instance id. */
    method BeginInvocationsPage(reset: bool) returns (req: Option<PageRequest>)
      modifies this`error, this`loading
      ensures !Truthy(AppId()) ==> req == None && error == old(error) && loading == old(loading)
      ensures Truthy(AppId()) ==>
        && req == Some(PageRequest(AppId(), reset, if reset then 0 else invocationOffset, mode, search, timeRange))
        && error == None && loading == old(loading).(inv := true)
    {
      var appId := AppId();
      if Truthy(appId) {
        req := Some(PageRequest(appId, reset, if reset then 0 else invocationOffset, mode, search, timeRange));
        error := None;
        loading := loading.(inv := true);
      } else {
        req := None;
      }
    }

    /** The page's rows replace the list (reset) or are appended to it; the offset moves past the
        page (by the page size in list mode, by the rows returned in search mode); a reset clears
        the chosen invocation and its details. */
    method FinishInvocationsPage(req: PageRequest, result: Result<map<string, seq<ResultRow>>, string>)
      modifies this`invocations, this`invocationOffset, this`selectedOperationId, this`details,
               this`error, this`loading
      ensures loading == old(loading).(inv := false)
      ensures result.Ok? ==>
        var next := InvocationRowsOf(PrimaryResult(result.value));
        && invocations == (if req.reset then next else old(invocations) + next)
        && invocationOffset == req.offset + (if req.mode == Search then |next| else PageSize)
        && selectedOperationId == (if req.reset then None else old(selectedOperationId))
        && details == (if req.reset then [] else old(details))
        && error == old(error)
      ensures result.Ok? && !req.reset ==>
        |old(invocations)| <= |invocations| && invocations[..|old(invocations)|] == old(invocations)
      ensures result.Err? ==>
        && error == Some(result.error) && invocations == old(invocations)
        && invocationOffset == old(invocationOffset) && selectedOperationId == old(selectedOperationId)
        && details == old(details)
    {
      match result {
        case Ok(byTable) =>
          var next := InvocationRowsOf(PrimaryResult(byTable));
          if req.reset {
            invocations := next;
            selectedOperationId := None;
            details := [];
          } else {
            assert (invocations + next)[..|invocations|] == invocations;
            invocations := invocations + next;
          }
          invocationOffset := req.offset + (if req.mode == Search then |next| else PageSize);
        case Err(message) =>
          error := Some(message);
      }
      loading := loading.(inv := false);
    }

    /** The effect on `appId`, `timeRange` and `mode`: with an instance id, the list is emptied and
        the first page starts loading. */
    method AppIdEffect() returns (req: Option<PageRequest>)
      modifies this`invocations, this`invocationOffset, this`error, this`loading
      ensures !Truthy(AppId()) ==> req == None && unchanged(this)
      ensures Truthy(AppId()) ==>
        && req == Some(PageRequest(AppId(), true, 0, mode, search, timeRange))
        && invocations == [] && invocationOffset == 0 && error == None && loading == old(loading).(inv := true)
    {
      if Truthy(AppId()) {
        invocations := [];
        invocationOffset := 0;
        req := BeginInvocationsPage(true);
      } else {
        req := None;
      }
    }

    // --- loadInvocationDetails

    /** What `loadInvocationDetails` does before its first `await`; nothing at all without an
        instance id. */
    method BeginInvocationDetails(operationId: string) returns (req: Option<DetailsRequest>)
      modifies this`error, this`loading
      ensures !Truthy(AppId()) ==> req == None && unchanged(this)
      ensures Truthy(AppId()) ==>
        && req == Some(DetailsRequest(AppId(), operationId, timeRange))
        && error == None && loading == old(loading).(details := true)
    {
      var appId := AppId();
      if Truthy(appId) {
        req := Some(DetailsRequest(appId, operationId, timeRange));
        error := None;
        loading := loading.(details := true);
      } else {
        req := None;
      }
    }

    method FinishInvocationDetails(req: DetailsRequest, result: Result<map<string, seq<ResultRow>>, string>)
      modifies this`details, this`error, this`loading
      ensures loading == old(loading).(details := false)
      ensures result.Ok? ==> details == PrimaryResult(result.value) && error == old(error)
      ensures result.Err? ==> error == Some(result.error) && details == old(details)
    {
      match result {
        case Ok(byTable) =>
          details := PrimaryResult(byTable);
        case Err(message) =>
          error := Some(message);
      }
      loading := loading.(details := false);
    }

    // --- user actions

    /** Choosing a directory, subscription or instance in a dropdown (`String(optionValue ?? '')`). */
    method SelectTenant(option: Option<string>)
      modifies this`tenantId
      ensures tenantId == Str(if option.Some? then option.value else "")
    {
      tenantId := Str(if option.Some? then option.value else "");
    }

    method SelectSubscription(option: Option<string>)
      modifies this`subscriptionId
      ensures subscriptionId == Str(if option.Some? then option.value else "")
    {
      subscriptionId := Str(if option.Some? then option.value else "");
    }

    method SelectApp(option: Option<string>)
      modifies this`appInsightsResourceId
      ensures appInsightsResourceId == if option.Some? then option.value else ""
    {
      appInsightsResourceId := if option.Some? then option.value else "";
    }

    method SelectTimeRange(range: TimeRange)
      modifies this`timeRange
      ensures timeRange == range
    {
      timeRange := range;
    }

    method EditSearch(text: string)
      modifies this`search
      ensures search == text
    {
      search := text;
    }

    /** Enter in the search box: search mode when the trimmed keyword is not empty, list mode
        otherwise; the list is emptied and the first page requested with the mode the handler's
        closure saw. */
    method PressEnter() returns (req: Option<PageRequest>)
      modifies this`mode, this`invocations, this`invocationOffset, this`error, this`loading
      ensures mode == ModeForKeyword(search)
      ensures invocations == [] && invocationOffset == 0
      ensures Truthy(AppId()) ==>
        && req == Some(PageRequest(AppId(), true, 0, old(mode), search, timeRange))
        && error == None && loading == old(loading).(inv := true)
      ensures !Truthy(AppId()) ==> req == None && error == old(error) && loading == old(loading)
    {
      var nextMode := ModeForKeyword(search);
      invocations := [];
      invocationOffset := 0;
      req := BeginInvocationsPage(true);
      mode := nextMode;
    }

    /** The Search button, enabled with an instance id, no page load in flight and a keyword. */
    method ClickSearch() returns (req: Option<PageRequest>)
      requires Truthy(AppId()) && !loading.inv && HasKeyword(search)
      modifies this`mode, this`invocations, this`invocationOffset, this`error, this`loading
      ensures req == Some(PageRequest(AppId(), true, 0, old(mode), search, timeRange))
      ensures mode == Search && invocations == [] && invocationOffset == 0
      ensures error == None && loading == old(loading).(inv := true)
    {
      invocations := [];
      invocationOffset := 0;
      req := BeginInvocationsPage(true);
      mode := Search;
    }

    /** The Reset button: back to list mode with an empty keyword. */
    method ClickReset() returns (req: Option<PageRequest>)
      requires Truthy(AppId()) && !loading.inv
      modifies this`mode, this`search, this`invocations, this`invocationOffset, this`error, this`loading
      ensures req == Some(PageRequest(AppId(), true, 0, old(mode), old(search), timeRange))
      ensures mode == List && search == "" && invocations == [] && invocationOffset == 0
      ensures error == None && loading == old(loading).(inv := true)
    {
      invocations := [];
      invocationOffset := 0;
      req := BeginInvocationsPage(true);
      mode := List;
      search := "";
    }

    /** The Refresh button: the first page again. */
    method ClickRefresh() returns (req: Option<PageRequest>)
      requires Truthy(AppId()) && !loading.inv
      modifies this`error, this`loading
      ensures req == Some(PageRequest(AppId(), true, 0, mode, search, timeRange))
      ensures error == None && loading == old(loading).(inv := true)
    {
      req := BeginInvocationsPage(true);
    }

    /** Load more: the next list page, from the current offset. */
    method LoadMore() returns (req: Option<PageRequest>)
      requires CanLoadMore()
      modifies this`error, this`loading
      ensures req == Some(PageRequest(AppId(), false, invocationOffset, List, search, timeRange))
      ensures error == None && loading == old(loading).(inv := true)
    {
      req := BeginInvocationsPage(false);
    }

    /** Choosing an invocation in the table: it becomes the selection and its details start
        loading. */
    method SelectInvocation(operationId: string) returns (req: Option<DetailsRequest>)
      modifies this`selectedOperationId, this`error, this`loading
      ensures selectedOperationId == Some(operationId)
      ensures Truthy(AppId()) ==>
        && req == Some(DetailsRequest(AppId(), operationId, timeRange))
        && error == None && loading == old(loading).(details := true)
      ensures !Truthy(AppId()) ==> req == None && error == old(error) && loading == old(loading)
    {
      req := BeginInvocationDetails(operationId);
      selectedOperationId := Some(operationId);
    }

    /** Refreshing the details panel reloads the chosen invocation, if there is one. */
    method RefreshDetails() returns (req: Option<DetailsRequest>)
      modifies this`error, this`loading
      ensures selectedOperationId.Some? && selectedOperationId.value != "" && Truthy(AppId()) ==>
        && req == Some(DetailsRequest(AppId(), selectedOperationId.value, timeRange))
        && error == None && loading == old(loading).(details := true)
      ensures !(selectedOperationId.Some? && selectedOperationId.value != "" && Truthy(AppId())) ==>
        req == None && unchanged(this)
    {
      if selectedOperationId.Some? && selectedOperationId.value != "" {
        req := BeginInvocationDetails(selectedOperationId.value);
      } else {
        req := None;
      }
    }
  }

  /** A directory change followed by its subscriptions load leaves no subscription chosen, even
      when the new listing has the one chosen before: the effect clears the selection first, and
      the load only replaces the selection when the id it began with is not listed. */
  method TenantSwitchClearsListedSubscription(p: PortalState, subs: seq<ArmSubscription>)
    requires Truthy(p.tenantId) && ListsSubscription(subs, p.subscriptionId)
    modifies p
    ensures p.subscriptionId == Str("")
  {
    var req := p.TenantEffect();
    p.FinishLoadSubscriptions(req.value, Ok(subs));
  }

  /** Sorting does not change which resource ids are listed. */
  lemma SameIdsAfterSort(a: seq<AppInsightsComponent>, sorted: seq<AppInsightsComponent>, id: string)
    requires multiset(sorted) == multiset(a)
    ensures (exists i :: 0 <= i < |a| && a[i].id == id) <==> (exists i :: 0 <= i < |sorted| && sorted[i].id == id)
  {
    if exists i :: 0 <= i < |a| && a[i].id == id {
      var i :| 0 <= i < |a| && a[i].id == id;
      assert a[i] in multiset(sorted);
      var j :| 0 <= j < |sorted| && sorted[j] == a[i];
    }
    if exists i :: 0 <= i < |sorted| && sorted[i].id == id {
      var i :| 0 <= i < |sorted| && sorted[i].id == id;
      assert sorted[i] in multiset(a);
      var j :| 0 <= j < |a| && a[j] == sorted[i];
    }
  }
}
