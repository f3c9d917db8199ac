/**
 * The typed API client: for each call, the HTTP request it builds, meaning
 * its method, its path and the query parameters or JSON body it sends.
 * Optional parameters get fixed defaults through `??`, so only a missing
 * (`undefined` or `null`) value is replaced. JavaScript numbers are
 * modelled as reals. The transport itself and the response are not
 * modelled.
 */
module Api {
  import opened JsValues

  datatype HttpMethod = Get | Post

  datatype LogLevel = Debug | Info | Warn | Error

  /** The free-form `data` record a log entry may carry; it is forwarded untouched. */
  datatype Json =
    | JNull
    | JBool(b: bool)
    | JNumber(n: real)
    | JString(s: string)
    | JArray(elems: seq<Json>)
    | JObject(fields: map<string, Json>)

  const HealthPath: string := "/health"
  const HelloPath: string := "/api/hello"
  const HeavyProcessPath: string := "/api/heavy-process"
  const UnstableProcessPath: string := "/api/heavy-process-unstable"
  const BatchProcessPath: string := "/api/batch-process"
  const LogsPath: string := "/api/logs"

  const DefaultHeavyDuration: real := 3000.0
  const DefaultHeavyIterations: real := 1000000.0
  const DefaultUnstableDuration: real := 2000.0
  const DefaultFailRate: real := 0.3
  const DefaultProcessingDelay: real := 100.0
  const DefaultLogSource: string := "client"

  datatype HeavyProcessParams = HeavyProcessParams(duration: Nullish<real>, iterations: Nullish<real>)
  datatype UnstableProcessParams = UnstableProcessParams(duration: Nullish<real>, failRate: Nullish<real>)
  datatype BatchProcessRequest = BatchProcessRequest(items: seq<string>, processingDelay: Nullish<real>)
  datatype SendLogRequest = SendLogRequest(
    level: LogLevel, message: string, data: Nullish<map<string, Json>>, source: Nullish<string>)

  /** What travels with a request: nothing, query parameters, or a JSON body. */
  datatype Payload =
    | NoPayload
    | HeavyQuery(duration: real, iterations: real)
    | UnstableQuery(duration: real, failRate: real)
    | BatchBody(items: seq<string>, processingDelay: real)
    | LogBody(level: LogLevel, message: string, data: Nullish<map<string, Json>>, source: string)

  datatype Request = Request(verb: HttpMethod, path: string, payload: Payload)

  /** `params?.duration` when `params` itself may be missing. */
  function HeavyDuration(params: Nullish<HeavyProcessParams>): Nullish<real>
  {
    if params.Defined? then params.value.duration else Undefined
  }

  /** `params?.iterations`. */
  function HeavyIterations(params: Nullish<HeavyProcessParams>): Nullish<real>
  {
    if params.Defined? then params.value.iterations else Undefined
  }

  /** `params?.duration` of the unstable-process parameters. */
  function UnstableDuration(params: Nullish<UnstableProcessParams>): Nullish<real>
  {
    if params.Defined? then params.value.duration else Undefined
  }

  /** `params?.failRate`. */
  function UnstableFailRate(params: Nullish<UnstableProcessParams>): Nullish<real>
  {
    if params.Defined? then params.value.failRate else Undefined
  }

  /** `api.getHealth()`. */
  function GetHealth(): (r: Request)
    ensures r.verb == Get && r.path == "/health" && r.payload.NoPayload?
  {
    Request(Get, HealthPath, NoPayload)
  }

  /** `api.getHello()`. */
  function GetHello(): (r: Request)
    ensures r.verb == Get && r.path == "/api/hello" && r.payload.NoPayload?
  {
    Request(Get, HelloPath, NoPayload)
  }

  /**
   * `api.getHeavyProcess(params)`: both query parameters are always sent,
   * each one defaulted on its own when it (or `params` itself) is missing.
   */
  function GetHeavyProcess(params: Nullish<HeavyProcessParams>): (r: Request)
    ensures r.verb == Get && r.path == "/api/heavy-process" && r.payload.HeavyQuery?
    ensures params.Defined? && params.value.duration.Defined? ==> r.payload.duration == params.value.duration.value
    ensures !(params.Defined? && params.value.duration.Defined?) ==> r.payload.duration == 3000.0
    ensures params.Defined? && params.value.iterations.Defined? ==> r.payload.iterations == params.value.iterations.value
    ensures !(params.Defined? && params.value.iterations.Defined?) ==> r.payload.iterations == 1000000.0
  {
    Request(Get, HeavyProcessPath, HeavyQuery(
      Coalesce(HeavyDuration(params), DefaultHeavyDuration),
      Coalesce(HeavyIterations(params), DefaultHeavyIterations)))
  }

  /**
   * `api.getUnstableProcess(params)`: both query parameters are always sent,
   * each one defaulted on its own when it (or `params` itself) is missing.
   */
  function GetUnstableProcess(params: Nullish<UnstableProcessParams>): (r: Request)
    ensures r.verb == Get && r.path == "/api/heavy-process-unstable" && r.payload.UnstableQuery?
    ensures params.Defined? && params.value.duration.Defined? ==> r.payload.duration == params.value.duration.value
    ensures !(params.Defined? && params.value.duration.Defined?) ==> r.payload.duration == 2000.0
    ensures params.Defined? && params.value.failRate.Defined? ==> r.payload.failRate == params.value.failRate.value
    ensures !(params.Defined? && params.value.failRate.Defined?) ==> r.payload.failRate == 0.3
  {
    Request(Get, UnstableProcessPath, UnstableQuery(
      Coalesce(UnstableDuration(params), DefaultUnstableDuration),
      Coalesce(UnstableFailRate(params), DefaultFailRate)))
  }

  /** `api.postBatchProcess(request)`: the items go out unchanged and in order. */
  function PostBatchProcess(request: BatchProcessRequest): (r: Request)
    ensures r.verb == Post && r.path == "/api/batch-process" && r.payload.BatchBody?
    ensures r.payload.items == request.items
  {
    Request(Post, BatchProcessPath, BatchBody(request.items, Coalesce(request.processingDelay, DefaultProcessingDelay)))
  }

  /** `api.postLog(request)`: level, message and data go out verbatim. */
  function PostLog(request: SendLogRequest): (r: Request)
    ensures r.verb == Post && r.path == "/api/logs" && r.payload.LogBody?
    ensures r.payload.level == request.level && r.payload.message == request.message
    ensures r.payload.data == request.data
  {
    Request(Post, LogsPath, LogBody(request.level, request.message, request.data, Coalesce(request.source, DefaultLogSource)))
  }

  /** The six calls reach six different endpoints. */
  lemma PathsDistinct(h: Nullish<HeavyProcessParams>, u: Nullish<UnstableProcessParams>,
                      b: BatchProcessRequest, l: SendLogRequest)
    ensures var paths := [GetHealth().path, GetHello().path, GetHeavyProcess(h).path,
                          GetUnstableProcess(u).path, PostBatchProcess(b).path, PostLog(l).path];
            forall i, j :: 0 <= i < j < |paths| ==> paths[i] != paths[j]
  {
  }

  /** Missing heavy-process parameters become 3000 ms and 1000000 iterations. */
  lemma HeavyDefaults(params: Nullish<HeavyProcessParams>)
    requires !params.Defined? || (!params.value.duration.Defined? && !params.value.iterations.Defined?)
    ensures GetHeavyProcess(params).payload == HeavyQuery(3000.0, 1000000.0)
  {
  }

  /**
   * Defaults fill only missing values, field by field: an explicit value,
   * `0` included, is sent as given while a missing neighbour is defaulted.
   */
  lemma HeavyKeepsExplicit(duration: real, iterations: real)
    ensures GetHeavyProcess(Defined(HeavyProcessParams(Defined(duration), Undefined))).payload
            == HeavyQuery(duration, 1000000.0)
    ensures GetHeavyProcess(Defined(HeavyProcessParams(Null, Defined(iterations)))).payload
            == HeavyQuery(3000.0, iterations)
    ensures GetHeavyProcess(Defined(HeavyProcessParams(Defined(duration), Defined(iterations)))).payload
            == HeavyQuery(duration, iterations)
  {
  }

  /** Missing unstable-process parameters become 2000 ms and a fail rate of 0.3. */
  lemma UnstableDefaults(params: Nullish<UnstableProcessParams>)
    requires !params.Defined? || (!params.value.duration.Defined? && !params.value.failRate.Defined?)
    ensures GetUnstableProcess(params).payload == UnstableQuery(2000.0, 0.3)
  {
  }

  /**
   * An explicit duration or fail rate, `0` included, is sent as given, and
   * a missing one next to it is still defaulted.
   */
  lemma UnstableKeepsExplicit(duration: real, failRate: real)
    ensures GetUnstableProcess(Defined(UnstableProcessParams(Defined(duration), Undefined))).payload
            == UnstableQuery(duration, 0.3)
    ensures GetUnstableProcess(Defined(UnstableProcessParams(Null, Defined(failRate)))).payload
            == UnstableQuery(2000.0, failRate)
    ensures GetUnstableProcess(Defined(UnstableProcessParams(Defined(duration), Defined(failRate)))).payload
            == UnstableQuery(duration, failRate)
  {
  }

  /** The batch delay defaults to 100 ms only when missing. */
  lemma BatchDelayDefault(items: seq<string>, delay: Nullish<real>)
    ensures !delay.Defined? ==> PostBatchProcess(BatchProcessRequest(items, delay)).payload == BatchBody(items, 100.0)
    ensures delay.Defined? ==> PostBatchProcess(BatchProcessRequest(items, delay)).payload == BatchBody(items, delay.value)
  {
  }

  /** The log source defaults to "client" only when missing: an explicit empty source is kept. */
  lemma LogSourceDefault(request: SendLogRequest)
    ensures !request.source.Defined? ==> PostLog(request).payload.source == "client"
    ensures request.source.Defined? ==> PostLog(request).payload.source == request.source.value
    ensures request.source == Defined("") ==> PostLog(request).payload.source == ""
  {
  }

  /**
   * Sending back exactly what a call sent, as explicit parameters, builds
   * the same request: defaulting is a fixed point once every value is present.
   */
  lemma ExplicitResendIsStable(h: Nullish<HeavyProcessParams>, u: Nullish<UnstableProcessParams>,
                               b: BatchProcessRequest, l: SendLogRequest)
    ensures var q := GetHeavyProcess(h).payload;
            GetHeavyProcess(Defined(HeavyProcessParams(Defined(q.duration), Defined(q.iterations)))) == GetHeavyProcess(h)
    ensures var q := GetUnstableProcess(u).payload;
            GetUnstableProcess(Defined(UnstableProcessParams(Defined(q.duration), Defined(q.failRate)))) == GetUnstableProcess(u)
    ensures var q := PostBatchProcess(b).payload;
            PostBatchProcess(BatchProcessRequest(q.items, Defined(q.processingDelay))) == PostBatchProcess(b)
    ensures var q := PostLog(l).payload;
            PostLog(SendLogRequest(q.level, q.message, q.data, Defined(q.source))) == PostLog(l)
  {
  }
}
