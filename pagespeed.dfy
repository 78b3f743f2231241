/** PageSpeed result shaping (`get_pagespeed_metrics`): one request to the
    performance API and the mapping of its JSON answer onto six metrics, or a
    one-key error map when the status is not 200. */
module PageSpeed {
  import opened Values
  import opened Text

  const ErrorPrefix := "Failed to fetch PageSpeed data. Status code: "
  const NullText := Str("Null")

  /** The report key and the Lighthouse audit it reads, for the five display metrics. */
  const AuditOf: map<string, string> := map[
    "First Contentful Paint" := "first-contentful-paint",
    "Largest Contentful Paint" := "largest-contentful-paint",
    "Cumulative Layout Shift" := "cumulative-layout-shift",
    "Speed Index" := "speed-index",
    "Total Blocking Time" := "total-blocking-time"
  ]

  const ScoreKey := "Performance Score"

  /** The request URL for one strategy (`"mobile"` or `"desktop"`). */
  function ApiUrl(url: string, apiKey: string, strategy: string): string {
    "https://www.googleapis.com/pagespeedonline/v5/runPagespeed?url=" + url + "&strategy=" + strategy + "&key=" + apiKey
  }

  /** `d.get(key, default)`: only a dictionary has `.get`. */
  function Get(d: Value, key: string, default: Value): (r: Outcome<Value>)
    ensures r.Done? <==> d.Dict?
  {
    if !d.Dict? then Raised(NotADictionary)
    else if key in d.entries then Done(d.entries[key])
    else Done(default)
  }

  function Repeat<T>(s: seq<T>, n: nat): (r: seq<T>)
    ensures |r| == |s| * n
  {
    if n == 0 then [] else s + Repeat(s, n - 1)
  }

  /** `v * 100` for a value that is not `None`. */
  function Times100(v: Value): Outcome<Value> {
    match v
    case Int(i) => Done(Int(i * 100))
    case Num(x) => Done(Num(x * 100.0))
    case Bool(b) => Done(Int(if b then 100 else 0))
    case Str(s) => Done(Str(Repeat(s, 100)))
    case List(items) => Done(List(Repeat(items, 100)))
    case _ => Raised(CannotMultiply)
  }

  /** `lighthouse_result.get("audits", {}).get(audit, {}).get("displayValue", None)` */
  function DisplayValue(lighthouse: Value, audit: string): Outcome<Value> {
    var audits :- Get(lighthouse, "audits", Dict(map[]));
    var entry :- Get(audits, audit, Dict(map[]));
    Get(entry, "displayValue", NoneV)
  }

  /** The six metrics read from a decoded answer. */
  function MetricsFromJson(data: Value): Outcome<Entries> {
    var lighthouse :- Get(data, "lighthouseResult", Dict(map[]));
    var categories :- Get(lighthouse, "categories", Dict(map[]));
    var performance :- Get(categories, "performance", Dict(map[]));
    var score :- Get(performance, "score", NoneV);
    var fcp :- DisplayValue(lighthouse, "first-contentful-paint");
    var lcp :- DisplayValue(lighthouse, "largest-contentful-paint");
    var cls :- DisplayValue(lighthouse, "cumulative-layout-shift");
    var speedIndex :- DisplayValue(lighthouse, "speed-index");
    var tbt :- DisplayValue(lighthouse, "total-blocking-time");
    var scaled :- if score != NoneV then Times100(score) else Done(NullText);
    Done(map[
      ScoreKey := scaled,
      "First Contentful Paint" := fcp,
      "Largest Contentful Paint" := lcp,
      "Cumulative Layout Shift" := cls,
      "Speed Index" := speedIndex,
      "Total Blocking Time" := tbt
    ])
  }

  /** `get_pagespeed_metrics(url, api_key, strategy)`, given what `requests.get`
      answers for each URL and the JSON decoder. A network error and a body
      that does not decode propagate; so does a `.get` on a decoded value that
      is not a dictionary. */
  function Metrics(get: string -> Response, decode: string -> Option<Value>,
                   url: string, apiKey: string, strategy: string): (r: Outcome<Entries>)
    ensures var response := get(ApiUrl(url, apiKey, strategy));
            && (response.NetError? ==> r == Raised(RequestFailed(ApiUrl(url, apiKey, strategy))))
            && (response.Status? && response.code != 200 ==>
                  r == Done(map["Error" := Str(ErrorPrefix + Decimal(response.code))]))
            && (response.Status? && response.code == 200 && decode(response.body).None? ==>
                  r == Raised(UndecodableJson))
            && (response.Status? && response.code == 200 && r.Done? ==>
                  r.value.Keys == AuditOf.Keys + {ScoreKey})
  {
    var apiUrl := ApiUrl(url, apiKey, strategy);
    match get(apiUrl)
    case NetError(_) => Raised(RequestFailed(apiUrl))
    case Status(code, body) =>
      if code != 200 then Done(map["Error" := Str(ErrorPrefix + Decimal(code))])
      else
        match decode(body)
        case None => Raised(UndecodableJson)
        case Some(data) => MetricsFromJson(data)
  }

  /** The Lighthouse result of an answer (`{}` when missing). */
  function Lighthouse(data: Value): Value
    requires data.Dict?
  {
    if "lighthouseResult" in data.entries then data.entries["lighthouseResult"] else Dict(map[])
  }

  /** A well-formed answer: the top level, the Lighthouse result, its
      categories, the performance category when present and the entries of
      the five audits that are read are dictionaries, so no `.get` raises.
      Other audit entries may hold anything. */
  predicate WellFormed(data: Value) {
    && data.Dict?
    && var lighthouse := Lighthouse(data);
    && lighthouse.Dict?
    && ("categories" in lighthouse.entries ==>
          && lighthouse.entries["categories"].Dict?
          && var categories := lighthouse.entries["categories"];
          "performance" in categories.entries ==> categories.entries["performance"].Dict?)
    && ("audits" in lighthouse.entries ==>
          && lighthouse.entries["audits"].Dict?
          && forall a | a in AuditOf.Values && a in lighthouse.entries["audits"].entries ::
               lighthouse.entries["audits"].entries[a].Dict?)
  }

  /** The upstream `displayValue` of `audit`, or `None` when the audits, the
      entry or its `displayValue` is missing. */
  function Upstream(data: Value, audit: string): Value
    requires data.Dict?
  {
    var lighthouse := Lighthouse(data);
    if !lighthouse.Dict? || "audits" !in lighthouse.entries then NoneV
    else
      var audits := lighthouse.entries["audits"];
      if !audits.Dict? || audit !in audits.entries then NoneV
      else
        var entry := audits.entries[audit];
        if !entry.Dict? || "displayValue" !in entry.entries then NoneV
        else entry.entries["displayValue"]
  }

  /** The upstream performance score, or `None` when any level is missing. */
  function UpstreamScore(data: Value): Value
    requires data.Dict?
  {
    var lighthouse := Lighthouse(data);
    if !lighthouse.Dict? || "categories" !in lighthouse.entries then NoneV
    else
      var categories := lighthouse.entries["categories"];
      if !categories.Dict? || "performance" !in categories.entries then NoneV
      else
        var performance := categories.entries["performance"];
        if !performance.Dict? || "score" !in performance.entries then NoneV
        else performance.entries["score"]
  }

  lemma DisplayValueOf(data: Value, audit: string)
    requires WellFormed(data)
    requires audit in AuditOf.Values
    ensures DisplayValue(Lighthouse(data), audit) == Done(Upstream(data, audit))
  {
  }

  lemma ScoreOf(data: Value)
    requires WellFormed(data)
    ensures var lighthouse := Lighthouse(data);
            var categories := Get(lighthouse, "categories", Dict(map[])).value;
            && Get(lighthouse, "categories", Dict(map[])).Done?
            && Get(categories, "performance", Dict(map[])).Done?
            && Get(Get(categories, "performance", Dict(map[])).value, "score", NoneV) == Done(UpstreamScore(data))
  {
  }

  /** On a well-formed answer: exactly the six keys, each display metric the
      upstream `displayValue` passed through unchanged (`None` when missing at
      any level), and the score `"Null"` when it is missing and the upstream
      score times 100 otherwise. */
  lemma {:induction false} MetricsOfWellFormed(data: Value)
    requires WellFormed(data)
    requires Times100(UpstreamScore(data)).Done? || UpstreamScore(data) == NoneV
    ensures var r := MetricsFromJson(data);
            && r.Done?
            && r.value.Keys == AuditOf.Keys + {ScoreKey}
            && r.value["First Contentful Paint"] == Upstream(data, "first-contentful-paint")
            && r.value["Largest Contentful Paint"] == Upstream(data, "largest-contentful-paint")
            && r.value["Cumulative Layout Shift"] == Upstream(data, "cumulative-layout-shift")
            && r.value["Speed Index"] == Upstream(data, "speed-index")
            && r.value["Total Blocking Time"] == Upstream(data, "total-blocking-time")
            && (UpstreamScore(data) == NoneV ==> r.value[ScoreKey] == NullText)
            && (UpstreamScore(data) != NoneV ==> r.value[ScoreKey] == Times100(UpstreamScore(data)).value)
  {
    assert Get(data, "lighthouseResult", Dict(map[])) == Done(Lighthouse(data));
    ScoreOf(data);
    assert AuditOf["First Contentful Paint"] == "first-contentful-paint";
    assert AuditOf["Largest Contentful Paint"] == "largest-contentful-paint";
    assert AuditOf["Cumulative Layout Shift"] == "cumulative-layout-shift";
    assert AuditOf["Speed Index"] == "speed-index";
    assert AuditOf["Total Blocking Time"] == "total-blocking-time";
    DisplayValueOf(data, "first-contentful-paint");
    DisplayValueOf(data, "largest-contentful-paint");
    DisplayValueOf(data, "cumulative-layout-shift");
    DisplayValueOf(data, "speed-index");
    DisplayValueOf(data, "total-blocking-time");
  }

  /** The same on a 200 response whose body decodes to a well-formed answer. */
  lemma MetricsOf200(get: string -> Response, decode: string -> Option<Value>,
                     url: string, apiKey: string, strategy: string)
    requires var response := get(ApiUrl(url, apiKey, strategy));
             && response.Status? && response.code == 200
             && decode(response.body).Some? && WellFormed(decode(response.body).value)
             && var score := UpstreamScore(decode(response.body).value);
                Times100(score).Done? || score == NoneV
    ensures var data := decode(get(ApiUrl(url, apiKey, strategy)).body).value;
            var r := Metrics(get, decode, url, apiKey, strategy);
            && r.Done?
            && r.value.Keys == AuditOf.Keys + {ScoreKey}
            && r.value["First Contentful Paint"] == Upstream(data, "first-contentful-paint")
            && r.value["Largest Contentful Paint"] == Upstream(data, "largest-contentful-paint")
            && r.value["Cumulative Layout Shift"] == Upstream(data, "cumulative-layout-shift")
            && r.value["Speed Index"] == Upstream(data, "speed-index")
            && r.value["Total Blocking Time"] == Upstream(data, "total-blocking-time")
            && (UpstreamScore(data) == NoneV ==> r.value[ScoreKey] == NullText)
            && (UpstreamScore(data) != NoneV ==> r.value[ScoreKey] == Times100(UpstreamScore(data)).value)
  {
    MetricsOfWellFormed(decode(get(ApiUrl(url, apiKey, strategy)).body).value);
  }

  /** A dictionary answer that is not well-formed makes a `.get` raise: the
      Lighthouse result, its categories, its performance category, its audits
      or one of the five audits read is present but not a dictionary. */
  lemma MalformedRaises(data: Value)
    requires data.Dict? && !WellFormed(data)
    ensures MetricsFromJson(data) == Raised(NotADictionary)
  {
  }

  /** On a well-formed answer, a score that cannot be multiplied by 100 makes
      the call raise. */
  lemma ScoreRaises(data: Value)
    requires WellFormed(data)
    requires UpstreamScore(data) != NoneV && Times100(UpstreamScore(data)).Raised?
    ensures MetricsFromJson(data) == Raised(CannotMultiply)
  {
    assert Get(data, "lighthouseResult", Dict(map[])) == Done(Lighthouse(data));
    ScoreOf(data);
    assert AuditOf["First Contentful Paint"] == "first-contentful-paint";
    assert AuditOf["Largest Contentful Paint"] == "largest-contentful-paint";
    assert AuditOf["Cumulative Layout Shift"] == "cumulative-layout-shift";
    assert AuditOf["Speed Index"] == "speed-index";
    assert AuditOf["Total Blocking Time"] == "total-blocking-time";
    DisplayValueOf(data, "first-contentful-paint");
    DisplayValueOf(data, "largest-contentful-paint");
    DisplayValueOf(data, "cumulative-layout-shift");
    DisplayValueOf(data, "speed-index");
    DisplayValueOf(data, "total-blocking-time");
  }

  /** A dictionary answer raises exactly when it is not well-formed or its
      score is present but cannot be multiplied by 100. */
  lemma MetricsRaisesIff(data: Value)
    requires data.Dict?
    ensures MetricsFromJson(data).Raised? <==>
            !WellFormed(data) || (UpstreamScore(data) != NoneV && Times100(UpstreamScore(data)).Raised?)
  {
    if !WellFormed(data) {
      MalformedRaises(data);
    } else if UpstreamScore(data) != NoneV && Times100(UpstreamScore(data)).Raised? {
      ScoreRaises(data);
    } else {
      MetricsOfWellFormed(data);
    }
  }

  /** A decoded answer that is not a dictionary makes the call raise. */
  lemma NotADictionaryRaises(data: Value)
    requires !data.Dict?
    ensures MetricsFromJson(data) == Raised(NotADictionary)
  {
  }

  /** A non-200 answer is the one-key error map whose message is the fixed
      prefix followed by the status code. */
  lemma ErrorShape(get: string -> Response, decode: string -> Option<Value>,
                   url: string, apiKey: string, strategy: string)
    requires get(ApiUrl(url, apiKey, strategy)).Status?
    requires get(ApiUrl(url, apiKey, strategy)).code != 200
    ensures var r := Metrics(get, decode, url, apiKey, strategy);
            && r.Done? && r.value.Keys == {"Error"}
            && r.value["Error"].Str?
            && IsPrefix(ErrorPrefix, r.value["Error"].s)
            && r.value["Error"].s[|ErrorPrefix|..] == Decimal(get(ApiUrl(url, apiKey, strategy)).code)
  {
    var msg := ErrorPrefix + Decimal(get(ApiUrl(url, apiKey, strategy)).code);
    assert msg[..|ErrorPrefix|] == ErrorPrefix;
    assert msg[|ErrorPrefix|..] == Decimal(get(ApiUrl(url, apiKey, strategy)).code);
  }
}
