/**
 * The endpoint wrappers of `SmartViewClient`: each one is a single call of
 * `request` with a fixed HTTP method, a path (some with a subscription id in
 * it), and either a query dict of its arguments or a JSON body.
 */
module Endpoints {
  import opened Wrappers
  import opened Params

  const Get := "GET"
  const Post := "POST"
  const Put := "PUT"
  const Delete := "DELETE"

  const SubscriptionsPath := "/smartview/v2/streaming/subscriptions"

  /** One call of an endpoint wrapper, with its arguments. */
  datatype ApiCall =
    // Environment
    | GetCurrentEnvironment(accountNo: string, ibx: string, levelType: string, levelValue: Option<string>)
    | GetTrendingEnvironment(accountNo: string, ibx: string, levelType: string, levelValue: Option<string>,
                             fromDate: Option<string>, toDate: Option<string>, interval: Option<int>)
    | GetEnvironmentSensors(accountNo: string, ibx: string, offset: Option<int>, limit: Option<int>, sort: Option<string>)
    | GetEnvironmentSensorById(accountNo: string, ibx: string, sensorId: string)
    // Subscriptions
    | GetAllSubscriptions
    | GetSubscriptionById(subscriptionId: string)
    | CreateSubscription(subscription: Params)
    | UpdateSubscription(subscriptionId: string, subscription: Params)
    | DeleteSubscription(subscriptionId: string)
    | GetSubscriptionData(subscriptionId: string, ibxs: Option<seq<string>>, messageTypes: Option<seq<string>>,
                          streamIds: Option<seq<string>>, offset: Option<int>, limit: Option<int>)
    // Hierarchy
    | GetLocationHierarchy(accountNo: string, ibx: string, assetId: Option<string>)
    | GetPowerHierarchy(accountNo: string, ibx: string, assetId: Option<string>)
    // Assets
    | ListAssets(accountNo: string, ibx: string, cage: string, classification: string,
                 category: Option<string>, template: Option<string>)
    | GetAssetDetails(body: Params)
    // `asset_id` here is required; a destructor shared by several constructors
    // must have one type, so it takes a name of its own
    | GetAffectedAssets(accountNo: string, ibx: string, tagpointAssetId: string, classification: string)
    | SearchAssets(accountNo: string, ibx: string, searchPattern: string, classification: string)
    // Power
    | GetCurrentPower(accountNo: string, ibx: string, levelType: string, levelValue: Option<string>)
    | GetTrendingPower(accountNo: string, ibx: string, levelType: string, levelValue: Option<string>,
                       fromDate: Option<string>, toDate: Option<string>, interval: Option<int>)
    // System alerts
    | GetSystemAlerts(accountNo: string, ibxFilter: Option<string>, severity: Option<string>, status: Option<string>,
                      fromDate: Option<string>, toDate: Option<string>, offset: Option<int>, limit: Option<int>)
    | SearchSystemAlerts(body: Params)

  /** The arguments a wrapper hands to `request`. */
  datatype Route = Route(verb: string, endpoint: string, body: Option<Params>, query: Option<Params>)

  /** A string argument as a query value. */
  function StrValue(s: string): Value { Scalar(Str(s)) }

  function OptStr(o: Option<string>): Value {
    if o.Some? then Scalar(Str(o.value)) else Scalar(Nil)
  }

  function OptInt(o: Option<int>): Value {
    if o.Some? then Scalar(Int(o.value)) else Scalar(Nil)
  }

  function OptList(o: Option<seq<string>>): Value {
    if o.Some? then List(seq(|o.value|, i requires 0 <= i < |o.value| => Str(o.value[i]))) else Scalar(Nil)
  }

  /** The route of each wrapper. */
  function RouteOf(call: ApiCall): (r: Route)
    ensures |r.endpoint| > 0 && r.endpoint[0] == '/'
    ensures r.verb == Get || r.verb == Post || r.verb == Put || r.verb == Delete
    ensures r.body.Some? <==> r.verb == Post || r.verb == Put
    ensures r.query.Some? ==> r.verb == Get && DistinctKeys(r.query.value)
    ensures (call.GetSubscriptionById? || call.UpdateSubscription? || call.DeleteSubscription?) ==>
      r.endpoint == SubscriptionsPath + "/" + call.subscriptionId
    ensures call.GetSubscriptionData? ==> r.endpoint == SubscriptionsPath + "/" + call.subscriptionId + "/data"
  {
    match call
    case GetCurrentEnvironment(a, x, lt, lv) =>
      Route(Get, "/environment/v1/current", None,
        Some([("accountNo", StrValue(a)), ("ibx", StrValue(x)), ("levelType", StrValue(lt)), ("levelValue", OptStr(lv))]))
    case GetTrendingEnvironment(a, x, lt, lv, f, t, n) =>
      Route(Get, "/environment/v1/trending", None,
        Some([("accountNo", StrValue(a)), ("ibx", StrValue(x)), ("levelType", StrValue(lt)), ("levelValue", OptStr(lv)),
              ("fromDate", OptStr(f)), ("toDate", OptStr(t)), ("interval", OptInt(n))]))
    case GetEnvironmentSensors(a, x, o, l, s) =>
      Route(Get, "/environment/v1/sensors", None,
        Some([("accountNo", StrValue(a)), ("ibx", StrValue(x)), ("offset", OptInt(o)), ("limit", OptInt(l)), ("sort", OptStr(s))]))
    case GetEnvironmentSensorById(a, x, id) =>
      Route(Get, "/environment/v1/sensor", None,
        Some([("accountNo", StrValue(a)), ("ibx", StrValue(x)), ("sensorId", StrValue(id))]))
    case GetAllSubscriptions =>
      Route(Get, SubscriptionsPath, None, None)
    case GetSubscriptionById(id) =>
      Route(Get, SubscriptionsPath + "/" + id, None, None)
    case CreateSubscription(b) =>
      Route(Post, SubscriptionsPath, Some(b), None)
    case UpdateSubscription(id, b) =>
      Route(Put, SubscriptionsPath + "/" + id, Some(b), None)
    case DeleteSubscription(id) =>
      Route(Delete, SubscriptionsPath + "/" + id, None, None)
    case GetSubscriptionData(id, ibxs, mt, st, o, l) =>
      Route(Get, SubscriptionsPath + "/" + id + "/data", None,
        Some([("ibxs", OptList(ibxs)), ("messageTypes", OptList(mt)), ("streamIds", OptList(st)),
              ("offset", OptInt(o)), ("limit", OptInt(l))]))
    case GetLocationHierarchy(a, x, asset) =>
      Route(Get, "/smartview/v1/hierarchy/location", None,
        Some([("accountNo", StrValue(a)), ("ibx", StrValue(x)), ("assetId", OptStr(asset))]))
    case GetPowerHierarchy(a, x, asset) =>
      Route(Get, "/smartview/v1/hierarchy/power", None,
        Some([("accountNo", StrValue(a)), ("ibx", StrValue(x)), ("assetId", OptStr(asset))]))
    case ListAssets(a, x, cage, cls, cat, tpl) =>
      Route(Get, "/smartview/v1/asset/list", None,
        Some([("accountNo", StrValue(a)), ("ibx", StrValue(x)), ("cage", StrValue(cage)), ("classification", StrValue(cls)),
              ("category", OptStr(cat)), ("template", OptStr(tpl))]))
    case GetAssetDetails(b) =>
      Route(Post, "/smartview/v1/asset/details", Some(b), None)
    case GetAffectedAssets(a, x, asset, cls) =>
      Route(Get, "/smartview/v1/asset/tagpoint/affected-assets", None,
        Some([("accountNo", StrValue(a)), ("ibx", StrValue(x)), ("assetId", StrValue(asset)), ("classification", StrValue(cls))]))
    case SearchAssets(a, x, pat, cls) =>
      Route(Get, "/smartview/v1/asset/search", None,
        Some([("accountNo", StrValue(a)), ("ibx", StrValue(x)), ("searchPattern", StrValue(pat)), ("classification", StrValue(cls))]))
    case GetCurrentPower(a, x, lt, lv) =>
      Route(Get, "/dcim/v1/power/current", None,
        Some([("accountNo", StrValue(a)), ("ibx", StrValue(x)), ("levelType", StrValue(lt)), ("levelValue", OptStr(lv))]))
    case GetTrendingPower(a, x, lt, lv, f, t, n) =>
      Route(Get, "/dcim/v1/power/trending", None,
        Some([("accountNo", StrValue(a)), ("ibx", StrValue(x)), ("levelType", StrValue(lt)), ("levelValue", OptStr(lv)),
              ("fromDate", OptStr(f)), ("toDate", OptStr(t)), ("interval", OptInt(n))]))
    case GetSystemAlerts(a, x, sev, st, f, t, o, l) =>
      Route(Get, "/dcim/v1/system-alert", None,
        Some([("accountNo", StrValue(a)), ("ibx", OptStr(x)), ("severity", OptStr(sev)), ("status", OptStr(st)),
              ("fromDate", OptStr(f)), ("toDate", OptStr(t)), ("offset", OptInt(o)), ("limit", OptInt(l))]))
    case SearchSystemAlerts(b) =>
      Route(Post, "/dcim/v1/system-alert/search", Some(b), None)
  }

  /**
   * An optional argument left as None never reaches the wire: after cleaning,
   * the query of a wrapper has no entry for it.
   */
  lemma UnsetOptionalDropped(call: ApiCall, key: string)
    requires RouteOf(call).query.Some?
    requires Lookup(RouteOf(call).query.value, key) == Some(Scalar(Nil))
    ensures Lookup(Cleaned(RouteOf(call).query.value), key).None?
  {
    CleanedLookup(RouteOf(call).query.value, key);
  }

  /** A required string argument that is not empty is sent unchanged. */
  lemma RequiredArgumentSent(call: ApiCall, key: string, arg: string)
    requires RouteOf(call).query.Some?
    requires Lookup(RouteOf(call).query.value, key) == Some(StrValue(arg)) && arg != ""
    ensures Lookup(Cleaned(RouteOf(call).query.value), key) == Some(StrValue(arg))
  {
    CleanedLookup(RouteOf(call).query.value, key);
  }
}
