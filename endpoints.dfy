/** The verb wrappers and the sixteen endpoint methods of the Zencoder client: each is a fixed
    verb and a path built by string concatenation. */
module Endpoints {
  import opened Js
  import opened Dispatch

  /** `get(path)`: only the path is forwarded; `_request` receives no body. */
  function Get(path: string): (r: Request)
    ensures IsGet(r) && r.path == path && r.body == Undefined
  {
    Request("GET", path, Undefined)
  }

  /** `put(path, body)`: the body is forwarded unchanged, `Undefined` when the caller gave none. */
  function Put(path: string, body: JsValue): (r: Request)
    ensures !IsGet(r) && r.verb == "PUT" && r.path == path && r.body == body
  {
    Request("PUT", path, body)
  }

  /** `post(path, body)`. */
  function Post(path: string, body: JsValue): (r: Request)
    ensures !IsGet(r) && r.verb == "POST" && r.path == path && r.body == body
  {
    Request("POST", path, body)
  }

  /** One call of an endpoint method, with its arguments. Identifiers are the text that the
      concatenation produces from them. */
  datatype Call =
    | ListJobs
    | CreateJob(job: JsValue)
    | JobDetails(jobId: string)
    | ResubmitJob(jobId: string)
    | CancelJob(jobId: string)
    | JobProgress(jobId: string)
    | InputDetails(inputId: string)
    | InputProgress(inputId: string)
    | OutputDetails(outputId: string)
    | OutputProgress(outputId: string)
    | ListNotifications(options: JsValue)
    | CreateAccount(params: JsValue, options: JsValue)
    | AccountDetails
    | AccountIntegration
    | AccountLive
    | MinutesReport(options: JsValue)

  /** The calls that read: the ones sent with GET. */
  predicate IsQuery(c: Call) {
    || c.ListJobs? || c.JobDetails? || c.JobProgress? || c.InputDetails? || c.InputProgress?
    || c.OutputDetails? || c.OutputProgress? || c.ListNotifications? || c.AccountDetails?
    || c.MinutesReport?
  }

  /** The PUT endpoints, which pass no body on to `put`. */
  predicate IsBodylessPut(c: Call) {
    c.ResubmitJob? || c.CancelJob? || c.AccountIntegration? || c.AccountLive?
  }

  /** The `_request` arguments an endpoint method produces. */
  function Route(c: Call): (r: Request)
    ensures r.verb == "GET" || r.verb == "PUT" || r.verb == "POST"
    ensures IsGet(r) <==> IsQuery(c)
    ensures r.verb == "PUT" <==> IsBodylessPut(c)
    ensures |r.path| > 0 && r.path[0] == '/'
    ensures !c.CreateJob? && !c.CreateAccount? ==> r.body == Undefined
  {
    match c
    case ListJobs => Get("/jobs")
    case CreateJob(job) => Post("/jobs", job)
    case JobDetails(id) => Get("/jobs/" + id + ".json")
    case ResubmitJob(id) => Put("/jobs/" + id + "/resubmit.json", Undefined)
    case CancelJob(id) => Put("/jobs/" + id + "/cancel.json", Undefined)
    case JobProgress(id) => Get("/jobs/" + id + "/progress.json")
    case InputDetails(id) => Get("/inputs/" + id + ".json")
    case InputProgress(id) => Get("/inputs/" + id + "/progress.json")
    case OutputDetails(id) => Get("/outputs/" + id + ".json")
    case OutputProgress(id) => Get("/outputs/" + id + "/progress.json")
    case ListNotifications(_) => Get("/notifications")
    case CreateAccount(params, _) => Post("/account", params)
    case AccountDetails => Get("/account")
    case AccountIntegration => Put("/account/integration", Undefined)
    case AccountLive => Put("/account/live", Undefined)
    case MinutesReport(_) => Get("/reports/minutes")
  }

  /** The endpoint method a call goes through. */
  function Name(c: Call): string {
    match c
    case ListJobs => "listJobs"
    case CreateJob(_) => "createJob"
    case JobDetails(_) => "jobDetails"
    case ResubmitJob(_) => "resubmitJob"
    case CancelJob(_) => "cancelJob"
    case JobProgress(_) => "jobProgress"
    case InputDetails(_) => "inputDetails"
    case InputProgress(_) => "inputProgress"
    case OutputDetails(_) => "outputDetails"
    case OutputProgress(_) => "outputProgress"
    case ListNotifications(_) => "listNotifications"
    case CreateAccount(_, _) => "createAccount"
    case AccountDetails => "accountDetails"
    case AccountIntegration => "accountIntegration"
    case AccountLive => "accountLive"
    case MinutesReport(_) => "minutesReport"
  }

  lemma ConcatCancel(prefix: string, a: string, b: string, suffix: string)
    requires prefix + a + suffix == prefix + b + suffix
    ensures a == b
  {
    var s := prefix + a + suffix;
    assert |a| == |b|;
    assert a == s[|prefix|..|prefix| + |a|];
    assert b == (prefix + b + suffix)[|prefix|..|prefix| + |b|];
  }

  /** Within one endpoint, the request determines the arguments, except for the ones the
      wrappers drop (`options` of `listNotifications`, `createAccount` and `minutesReport`). */
  lemma RouteDeterminesArguments(c1: Call, c2: Call)
    requires Name(c1) == Name(c2) && Route(c1) == Route(c2)
    requires !c1.ListNotifications? && !c1.CreateAccount? && !c1.MinutesReport?
    ensures c1 == c2
  {
    match c1
    case JobDetails(a) => ConcatCancel("/jobs/", a, c2.jobId, ".json");
    case ResubmitJob(a) => ConcatCancel("/jobs/", a, c2.jobId, "/resubmit.json");
    case CancelJob(a) => ConcatCancel("/jobs/", a, c2.jobId, "/cancel.json");
    case JobProgress(a) => ConcatCancel("/jobs/", a, c2.jobId, "/progress.json");
    case InputDetails(a) => ConcatCancel("/inputs/", a, c2.inputId, ".json");
    case InputProgress(a) => ConcatCancel("/inputs/", a, c2.inputId, "/progress.json");
    case OutputDetails(a) => ConcatCancel("/outputs/", a, c2.outputId, ".json");
    case OutputProgress(a) => ConcatCancel("/outputs/", a, c2.outputId, "/progress.json");
    case _ =>
  }

  /** `listNotifications`, `minutesReport` and `createAccount` drop their `options` argument. */
  lemma OptionsAreDropped(o1: JsValue, o2: JsValue, params: JsValue)
    ensures Route(ListNotifications(o1)) == Route(ListNotifications(o2)) == Get("/notifications")
    ensures Route(MinutesReport(o1)) == Route(MinutesReport(o2)) == Get("/reports/minutes")
    ensures Route(CreateAccount(params, o1)) == Route(CreateAccount(params, o2)) == Post("/account", params)
  {
  }

  /** Identifiers are not encoded, so two different endpoints can produce the same request. */
  lemma IdentifiersAreNotEncoded()
    ensures Route(JobDetails("1/progress")) == Route(JobProgress("1"))
  {
    assert "/jobs/" + "1/progress" + ".json" == "/jobs/" + "1" + "/progress.json";
  }

  /** The four PUT endpoints send no body, so `_request` throws reading `body.length`: they can
      never reach the service. The key merge has happened before the throw. */
  lemma BodylessPutsThrow(c: Call, headers: HeaderMap, apiKey: JsValue, baseUrl: string)
    requires IsBodylessPut(c)
    ensures var p := Prepare(headers, apiKey, baseUrl, Route(c));
      && p.result == Throw(CannotReadLength(Undefined))
      && p.headers == Extend(ApiKeyHeader, apiKey, headers)
  {
  }

  /** `createJob` with a plain job object (no `length` property) stores `Content-Length:
      undefined` on a client that had none, and sends no Content-Length. */
  lemma PlainJobLengthUndefined(job: map<string, JsValue>, headers: HeaderMap, apiKey: JsValue, baseUrl: string)
    requires "length" !in job && ContentLength !in headers
    ensures var p := Prepare(headers, apiKey, baseUrl, Route(CreateJob(Obj(job))));
      && p.headers[ContentLength] == Undefined
      && p.result.Normal? && ContentLength !in p.result.value.headers
      && p.result.value.body == Some(Obj(job))
  {
  }
}
