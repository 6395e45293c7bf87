/** The AiLogger object: its set-up from a configuration and an execution
    context, the category gate, the five WriteX operations and the delivery
    of their JSON to Application Insights.

    The tracing service and the HTTP channel are objects whose state the
    operations change: the lines traced and the requests posted. Each method
    is proved to have the effect a pure function of the logger's state
    states (`SetupOutcome`, `Write`), and the lemmas are about those. */
module Logger {
  import opened Outcomes
  import opened Text
  import opened ValueFormatter
  import Sampling
  import opened Metrics
  import opened ExceptionHelper
  import opened ParameterTrace
  import opened JsonLog

  /** The settings AiConfig reads from its JSON. */
  datatype AiConfig = AiConfig(
    instrumentationKey: string,
    aiEndpoint: string,
    disableTraceTracking: bool,
    disableExceptionTracking: bool,
    disableDependencyTracking: bool,
    disableEventTracking: bool,
    disableMetricTracking: bool,
    disableContextParameterTracking: bool,
    enableDebug: bool,
    percentLoggedTrace: int,
    percentLoggedMetric: int,
    percentLoggedEvent: int,
    percentLoggedException: int,
    percentLoggedDependency: int)

  /** What the logger reads from the execution context. */
  datatype ExecutionContext = ExecutionContext(
    initiatingUserId: string,
    operationId: string,
    inputParameters: Option<seq<Entry>>,
    outputParameters: Option<seq<Entry>>)

  /** The properties attached to every envelope that the set-up computes,
      rather than copies from the context. */
  datatype AiProperties = AiProperties(
    orgVersion: string,
    inputParameters: Option<string>,
    outputParameters: Option<string>,
    operationId: Option<string>,
    source: Option<string>,
    stage: Option<string>,
    workflowCategory: Option<string>)

  /** The state SetupAiLogger leaves in a logger. */
  datatype LoggerState = LoggerState(config: AiConfig, authenticatedUserId: string, properties: AiProperties)

  /* ---------------------------------------------------------------------
     Construction. */

  /** AiLogger.ValidateContextSpecific: a logger needs a plug-in stage or a
      workflow category. */
  function ValidateContextSpecific(pluginStage: Option<int>, workflowCategory: Option<int>): (r: Result<()>)
    ensures r.Err? <==> pluginStage.None? && workflowCategory.None?
    ensures r.Err? ==> r.fault == InvalidPluginExecution
  {
    if pluginStage.None? && workflowCategory.None? then Err(InvalidPluginExecution) else Ok(())
  }

  /** AiLogger.GetWorkflowCategoryName. */
  function GetWorkflowCategoryName(category: int): string
  {
    if category == 0 then "Workflow"
    else if category == 1 then "Dialog"
    else if category == 2 then "Business Rule"
    else if category == 3 then "Action"
    else if category == 4 then "Business Process Flow"
    else "Unknown"
  }

  /** The category a name stands for, if any. */
  function WorkflowCategoryOf(name: string): Option<int>
  {
    if name == "Workflow" then Some(0)
    else if name == "Dialog" then Some(1)
    else if name == "Business Rule" then Some(2)
    else if name == "Action" then Some(3)
    else if name == "Business Process Flow" then Some(4)
    else None
  }

  /** Categories 0..4 have names of their own, from which the category can
      be read back (so no two share a name); every other value is "Unknown". */
  lemma WorkflowCategoryRoundTrip(category: int)
    ensures 0 <= category <= 4 ==> WorkflowCategoryOf(GetWorkflowCategoryName(category)) == Some(category)
    ensures !(0 <= category <= 4) ==>
      GetWorkflowCategoryName(category) == "Unknown" && WorkflowCategoryOf("Unknown").None?
  {
    var name := GetWorkflowCategoryName(category);
    if category == 0 {
      assert name == "Workflow";
    } else if category == 1 {
      assert name != "Workflow";
    } else if category == 2 {
      assert name != "Workflow" && name != "Dialog";
    } else if category == 3 {
      assert name != "Workflow" && name != "Dialog" && name != "Business Rule";
    } else if category == 4 {
      assert name != "Workflow" && name != "Dialog" && name != "Business Rule" && name != "Action";
    } else {
      assert "Unknown" != "Workflow" && "Unknown" != "Dialog" && "Unknown" != "Business Rule";
      assert "Unknown" != "Action" && "Unknown" != "Business Process Flow";
    }
  }

  /** AddExecutionContextDetails over properties holding the version: the
      parameter traces and the operation id, then "Plug-in" and the stage
      name for a plug-in stage, then "Workflow" and the category name for a
      workflow category, which overwrites the source. */
  function ContextDetails(host: Host, context: ExecutionContext, pluginStage: Option<int>,
                          workflowCategory: Option<int>, version: string): AiProperties
  {
    var traced := AiProperties(version,
      TraceText(host, true, context.inputParameters),
      TraceText(host, false, context.outputParameters),
      Some(context.operationId), None, None, None);
    var plugin := if pluginStage.Some?
      then traced.(source := Some("Plug-in"), stage := Some(host.stageName(pluginStage.value)))
      else traced;
    if workflowCategory.Some?
    then plugin.(source := Some("Workflow"), workflowCategory := Some(GetWorkflowCategoryName(workflowCategory.value)))
    else plugin
  }

  /** The properties after SetupAiLogger: the organization version always,
      the context details unless parameter tracking is disabled. */
  function SetupProperties(config: AiConfig, host: Host, context: ExecutionContext,
                           pluginStage: Option<int>, workflowCategory: Option<int>, version: string): AiProperties
  {
    if config.disableContextParameterTracking then AiProperties(version, None, None, None, None, None, None)
    else ContextDetails(host, context, pluginStage, workflowCategory, version)
  }

  function OptionalLine(line: Option<string>): seq<string>
  {
    if line.None? then [] else [line.value]
  }

  /** The lines the set-up traces: one per direction whose parameters fail to render. */
  function SetupTraces(config: AiConfig, host: Host, context: ExecutionContext): seq<string>
  {
    if config.disableContextParameterTracking then []
    else
      OptionalLine(TraceError(host, true, context.inputParameters)) +
      OptionalLine(TraceError(host, false, context.outputParameters))
  }

  /** What the AiLogger constructor leaves, or the exception it throws:
      the validation first, then reading the configuration, then the
      version request. */
  function SetupOutcome(config: Result<AiConfig>, host: Host, context: ExecutionContext,
                        pluginStage: Option<int>, workflowCategory: Option<int>): (r: Result<LoggerState>)
    ensures r.Err? <==>
      (pluginStage.None? && workflowCategory.None?) || config.Err? || host.version.None?
    ensures pluginStage.None? && workflowCategory.None? ==> r == Err(InvalidPluginExecution)
    ensures (pluginStage.Some? || workflowCategory.Some?) && config.Err? ==> r == Err(config.fault)
    ensures r.Ok? ==>
      r.value.config == config.value && r.value.authenticatedUserId == context.initiatingUserId &&
      r.value.properties.orgVersion == host.version.value
  {
    var _ :- ValidateContextSpecific(pluginStage, workflowCategory);
    var c :- config;
    if host.version.None? then Err(ServiceFault) else Ok(LoggerState(c, context.initiatingUserId,
        SetupProperties(c, host, context, pluginStage, workflowCategory, host.version.value)))
  }

  /** Without parameter tracking nothing of the context is recorded; with
      it, both directions are traced, a workflow category makes the source
      "Workflow" whatever the stage, and a plug-in stage alone makes it
      "Plug-in". */
  lemma SetupSource(config: AiConfig, host: Host, context: ExecutionContext,
                    pluginStage: Option<int>, workflowCategory: Option<int>, version: string)
    ensures var p := SetupProperties(config, host, context, pluginStage, workflowCategory, version);
      p.orgVersion == version &&
      (config.disableContextParameterTracking ==>
        p.source.None? && p.stage.None? && p.workflowCategory.None? &&
        p.inputParameters.None? && p.outputParameters.None? && p.operationId.None?) &&
      (!config.disableContextParameterTracking ==>
        p.inputParameters == TraceText(host, true, context.inputParameters) &&
        p.outputParameters == TraceText(host, false, context.outputParameters) &&
        (workflowCategory.Some? ==>
          p.source == Some("Workflow") &&
          p.workflowCategory == Some(GetWorkflowCategoryName(workflowCategory.value))) &&
        (workflowCategory.None? && pluginStage.Some? ==> p.source == Some("Plug-in")) &&
        (pluginStage.Some? <==> p.stage.Some?))
  {
  }

  /* ---------------------------------------------------------------------
     Envelopes. */

  datatype AiTags = AiTags(
    roleInstance: Option<string>,
    operationName: Option<string>,
    operationId: Option<string>,
    authenticatedUserId: string)

  /** The payload of each kind of envelope. The classes behind them are not
      part of this model; each keeps the arguments it is built from. */
  datatype BaseData =
    | DependencyData(properties: AiProperties, name: string, requestMethod: string, dependencyType: string,
                     duration: int, resultCode: Option<int>, success: bool, data: string)
    | EventData(properties: AiProperties, name: string)
    | ExceptionData(properties: AiProperties, exception: Exc, severity: int)
    | MetricData(metrics: seq<AiMetric>, properties: AiProperties)
    | MessageData(properties: AiProperties, message: string, severity: int)

  datatype AiLogRequest = AiLogRequest(
    name: string,
    instrumentationKey: string,
    tags: AiTags,
    baseType: string,
    baseData: BaseData)

  const EnvelopePrefix: string := "Microsoft.ApplicationInsights."

  /** The envelope of one kind: `Microsoft.ApplicationInsights.{key}.{kind}`
      with base type `{kind}Data`. */
  function Request(s: LoggerState, kind: string, tags: AiTags, data: BaseData): AiLogRequest
  {
    AiLogRequest(EnvelopePrefix + s.config.instrumentationKey + "." + kind,
                 s.config.instrumentationKey, tags, kind + "Data", data)
  }

  /** Two envelopes of one logger share a name only when they are of the same kind. */
  lemma RequestNamesDistinguishKinds(s: LoggerState, k1: string, k2: string,
                                     t1: AiTags, t2: AiTags, d1: BaseData, d2: BaseData)
    ensures Request(s, k1, t1, d1).name == Request(s, k2, t2, d2).name <==> k1 == k2
    ensures Request(s, k1, t1, d1).baseType == Request(s, k2, t2, d2).baseType <==> k1 == k2
  {
    var lead := EnvelopePrefix + s.config.instrumentationKey + ".";
    var n1 := Request(s, k1, t1, d1).name;
    var n2 := Request(s, k2, t2, d2).name;
    assert n1 == lead + k1 && n2 == lead + k2;
    if n1 == n2 {
      assert k1 == n1[|lead|..] && k2 == n2[|lead|..];
    }
    var b1 := Request(s, k1, t1, d1).baseType;
    var b2 := Request(s, k2, t2, d2).baseType;
    if b1 == b2 {
      assert k1 == b1[..|b1| - 4] && k2 == b2[..|b2| - 4];
    }
  }

  function DependencyRequest(s: LoggerState, name: string, requestMethod: string, dependencyType: string,
                             duration: int, resultCode: Option<int>, success: bool, data: string): AiLogRequest
  {
    Request(s, "RemoteDependency", AiTags(Some(""), None, None, s.authenticatedUserId),
            DependencyData(s.properties, name, requestMethod, dependencyType, duration, resultCode, success, data))
  }

  function EventRequest(s: LoggerState, name: string, operationName: Option<string>,
                        operationId: Option<string>): AiLogRequest
  {
    Request(s, "Event", AiTags(None, operationName, operationId, s.authenticatedUserId),
            EventData(s.properties, name))
  }

  function ExceptionRequest(s: LoggerState, exception: Exc, severity: int): AiLogRequest
  {
    Request(s, "Exception", AiTags(None, None, None, s.authenticatedUserId),
            ExceptionData(s.properties, exception, severity))
  }

  /** A metric envelope is tagged with the operation "xrmEvent" and the
      context's operation id. */
  function MetricRequest(s: LoggerState, metric: AiMetric): AiLogRequest
  {
    Request(s, "Metric", AiTags(None, Some("xrmEvent"), s.properties.operationId, s.authenticatedUserId),
            MetricData([metric], s.properties))
  }

  function TraceRequest(s: LoggerState, message: string, severity: int): AiLogRequest
  {
    Request(s, "Message", AiTags(None, None, None, s.authenticatedUserId),
            MessageData(s.properties, message, severity))
  }

  /** The JSON WriteEvent sends: the serialized envelope with the
      measurements put in place of the null placeholder. */
  function EventJson(s: LoggerState, name: string, measurements: Option<seq<Measurement>>,
                     operationName: Option<string>, operationId: Option<string>,
                     serialize: AiLogRequest -> string, show: real -> string): string
  {
    InsertedMetrics(measurements, serialize(EventRequest(s, name, operationName, operationId)), show)
  }

  /* ---------------------------------------------------------------------
     Delivery and the effect of a write. */

  /** The outcome of posting to the endpoint: a response, or an exception. */
  datatype Delivery = Response(statusCode: int, statusName: string, reasonPhrase: string) | Threw

  /** `response.IsSuccessStatusCode`. */
  predicate Delivered(d: Delivery)
  {
    d.Response? && 200 <= d.statusCode <= 299
  }

  /** What SendToAi traces: nothing on success, the status and the JSON on
      a failed response, the JSON alone when posting throws. */
  function DeliveryTraces(json: string, d: Delivery): seq<string>
  {
    if Delivered(d) then []
    else if d.Threw? then [CreateJsonDataLog(json)]
    else ["ERROR: Unable to write to Application Insights with response: " + d.statusName + ": "
          + d.reasonPhrase + ": Message: " + CreateJsonDataLog(json)]
  }

  datatype Post = Post(endpoint: string, body: string)

  /** The result of a WriteX, the lines it traces and the requests it posts. */
  datatype WriteEffect = WriteEffect(ok: bool, traces: seq<string>, posts: seq<Post>)

  /** A WriteX of category `kind`: when the gate refuses, it reports success
      having traced only the gate's lines and posted nothing; otherwise it
      traces the JSON when debugging, posts it once to the endpoint, and
      reports whether the post succeeded. */
  function Write(s: LoggerState, kind: string, disable: bool, threshold: int, draw: int,
                 json: string, d: Delivery): (e: WriteEffect)
    ensures !Sampling.Log(s.config.enableDebug, kind, disable, threshold, draw).pass ==>
      e.ok && e.posts == [] && e.traces == Sampling.Log(s.config.enableDebug, kind, disable, threshold, draw).traces
    ensures Sampling.Log(s.config.enableDebug, kind, disable, threshold, draw).pass ==>
      e.posts == [Post(s.config.aiEndpoint, json)] && (e.ok <==> Delivered(d)) &&
      (s.config.enableDebug ==> e.traces == [DebugJsonLine(json)] + DeliveryTraces(json, d)) &&
      (!s.config.enableDebug ==> e.traces == DeliveryTraces(json, d)) &&
      (Delivered(d) <==> DeliveryTraces(json, d) == [])
  {
    var g := Sampling.Log(s.config.enableDebug, kind, disable, threshold, draw);
    if !g.pass then WriteEffect(true, g.traces, [])
    else
      WriteEffect(Delivered(d),
        (if s.config.enableDebug then [DebugJsonLine(json)] else []) + DeliveryTraces(json, d),
        [Post(s.config.aiEndpoint, json)])
  }

  /** A disabled category, or a threshold of 0, writes nothing whatever the
      draw, the JSON or the network, and still reports success. */
  lemma SkippedWriteSucceeds(s: LoggerState, kind: string, disable: bool, threshold: int, draw: int,
                             json: string, d: Delivery)
    requires disable || threshold == 0
    ensures var e := Write(s, kind, disable, threshold, draw, json, d);
      e.ok && e.posts == [] && |e.traces| <= 1 && (e.traces != [] <==> s.config.enableDebug)
  {
    Sampling.ExtremesIgnoreDraw(draw, draw);
  }

  /** WriteMetric: past the gate the AiMetric is built before anything is
      serialized, so a null name throws out of the write, having traced and
      posted nothing after the gate; otherwise the write is Write of the
      metric envelope. */
  function MetricWrite(s: LoggerState, name: Option<string>, value: real, count: Option<real>,
                       min: Option<real>, max: Option<real>, stdDev: Option<real>, draw: int,
                       serialize: AiLogRequest -> string, d: Delivery): (r: Result<WriteEffect>)
    ensures var g := Sampling.Log(s.config.enableDebug, "Metric", s.config.disableMetricTracking,
                                  s.config.percentLoggedMetric, draw);
      (r.Err? <==> g.pass && name.None?) &&
      (r.Err? ==> r.fault == NullReference) &&
      (name.Some? ==> r == Ok(Write(s, "Metric", s.config.disableMetricTracking, s.config.percentLoggedMetric,
        draw, serialize(MetricRequest(s, NewAiMetric(name, value, count, min, max, stdDev).value)), d))) &&
      (!g.pass ==> r == Ok(WriteEffect(true, g.traces, [])))
  {
    var g := Sampling.Log(s.config.enableDebug, "Metric", s.config.disableMetricTracking,
                          s.config.percentLoggedMetric, draw);
    if !g.pass then Ok(WriteEffect(true, g.traces, []))
    else
      var metric :- NewAiMetric(name, value, count, min, max, stdDev);
      Ok(Write(s, "Metric", s.config.disableMetricTracking, s.config.percentLoggedMetric, draw,
               serialize(MetricRequest(s, metric)), d))
  }

  /* ---------------------------------------------------------------------
     The objects. */

  /** ITracingService: the lines traced, in order. */
  class TracingService {
    var lines: seq<string>

    constructor ()
      ensures lines == []
    {
      lines := [];
    }

    method Trace(line: string)
      modifies this
      ensures lines == old(lines) + [line]
    {
      lines := lines + [line];
    }
  }

  /** The HTTP client: the requests posted, in order. */
  class HttpChannel {
    var posts: seq<Post>

    constructor ()
      ensures posts == []
    {
      posts := [];
    }

    method PostAsync(endpoint: string, body: string)
      modifies this
      ensures posts == old(posts) + [Post(endpoint, body)]
    {
      posts := posts + [Post(endpoint, body)];
    }
  }

  class AiLogger {
    const config: AiConfig
    const authenticatedUserId: string
    const eventProperties: AiProperties
    const tracingService: TracingService
    const channel: HttpChannel

    function State(): LoggerState
    {
      LoggerState(config, authenticatedUserId, eventProperties)
    }

    /** SetupAiLogger's assignments. */
    constructor (s: LoggerState, tracingService: TracingService, channel: HttpChannel)
      ensures State() == s
      ensures this.tracingService == tracingService && this.channel == channel
    {
      config := s.config;
      authenticatedUserId := s.authenticatedUserId;
      eventProperties := s.properties;
      this.tracingService := tracingService;
      this.channel := channel;
    }

    /** AiLogger.Log: the gate of one category, tracing why it refuses
        when debugging. */
    method Log(kind: string, disable: bool, threshold: int, draw: int) returns (pass: bool)
      modifies tracingService
      ensures pass == Sampling.Log(config.enableDebug, kind, disable, threshold, draw).pass
      ensures tracingService.lines
        == old(tracingService.lines) + Sampling.Log(config.enableDebug, kind, disable, threshold, draw).traces
      ensures pass ==> tracingService.lines == old(tracingService.lines)
    {
      if disable {
        if config.enableDebug {
          tracingService.Trace("DEBUG: Application Insights " + kind + " not written: Disabled");
        }
        return false;
      }
      var shouldLog := Sampling.InLogThreshold(threshold, draw);
      if !shouldLog {
        if config.enableDebug {
          tracingService.Trace("DEBUG: Application Insights " + kind + " not written: Threshold%: " + IntText(threshold));
        }
        return false;
      }
      return true;
    }

    /** AiLogger.SendToAi: post the JSON; a failed response or an exception
        is traced and reported as false, never thrown. */
    method SendToAi(json: string, delivery: Delivery) returns (ok: bool)
      modifies tracingService, channel
      ensures ok == Delivered(delivery)
      ensures channel.posts == old(channel.posts) + [Post(config.aiEndpoint, json)]
      ensures tracingService.lines == old(tracingService.lines) + DeliveryTraces(json, delivery)
    {
      channel.PostAsync(config.aiEndpoint, json);
      if delivery.Threw? {
        tracingService.Trace(CreateJsonDataLog(json));
        return false;
      }
      if 200 <= delivery.statusCode <= 299 {
        return true;
      }
      tracingService.Trace("ERROR: Unable to write to Application Insights with response: "
        + delivery.statusName + ": " + delivery.reasonPhrase + ": Message: " + CreateJsonDataLog(json));
      ok := false;
    }

    /** The tail every WriteX shares once its gate has passed. */
    method Send(json: string, delivery: Delivery) returns (ok: bool)
      modifies tracingService, channel
      ensures ok == Delivered(delivery)
      ensures channel.posts == old(channel.posts) + [Post(config.aiEndpoint, json)]
      ensures tracingService.lines == old(tracingService.lines)
        + ((if config.enableDebug then [DebugJsonLine(json)] else []) + DeliveryTraces(json, delivery))
    {
      if config.enableDebug {
        tracingService.Trace(DebugJsonLine(json));
      }
      ok := SendToAi(json, delivery);
      AppendTwo(old(tracingService.lines), if config.enableDebug then [DebugJsonLine(json)] else [],
                DeliveryTraces(json, delivery));
    }

    method WriteDependency(name: string, requestMethod: string, dependencyType: string, duration: int,
                           resultCode: Option<int>, success: bool, data: string, draw: int,
                           serialize: AiLogRequest -> string, delivery: Delivery) returns (ok: bool)
      modifies tracingService, channel
      ensures var e := Write(State(), "Dependency", config.disableDependencyTracking,
        config.percentLoggedDependency, draw,
        serialize(DependencyRequest(State(), name, requestMethod, dependencyType, duration, resultCode, success, data)),
        delivery);
        ok == e.ok && tracingService.lines == old(tracingService.lines) + e.traces
        && channel.posts == old(channel.posts) + e.posts
    {
      var pass := Log("Dependency", config.disableDependencyTracking, config.percentLoggedDependency, draw);
      if !pass {
        return true;
      }
      var json := serialize(DependencyRequest(State(), name, requestMethod, dependencyType, duration, resultCode, success, data));
      ok := Send(json, delivery);
    }

    method WriteEvent(name: string, measurements: Option<seq<Measurement>>, operationName: Option<string>,
                      operationId: Option<string>, draw: int, serialize: AiLogRequest -> string,
                      show: real -> string, delivery: Delivery) returns (ok: bool)
      modifies tracingService, channel
      ensures var e := Write(State(), "Event", config.disableEventTracking, config.percentLoggedEvent, draw,
        EventJson(State(), name, measurements, operationName, operationId, serialize, show), delivery);
        ok == e.ok && tracingService.lines == old(tracingService.lines) + e.traces
        && channel.posts == old(channel.posts) + e.posts
    {
      var pass := Log("Event", config.disableEventTracking, config.percentLoggedEvent, draw);
      if !pass {
        return true;
      }
      var json := serialize(EventRequest(State(), name, operationName, operationId));
      json := InsertMetricsJson(measurements, json, show);
      ok := Send(json, delivery);
    }

    method WriteException(exception: Exc, severity: int, draw: int, serialize: AiLogRequest -> string,
                          delivery: Delivery) returns (ok: bool)
      modifies tracingService, channel
      ensures var e := Write(State(), "Exception", config.disableExceptionTracking,
        config.percentLoggedException, draw, serialize(ExceptionRequest(State(), exception, severity)), delivery);
        ok == e.ok && tracingService.lines == old(tracingService.lines) + e.traces
        && channel.posts == old(channel.posts) + e.posts
    {
      var pass := Log("Exception", config.disableExceptionTracking, config.percentLoggedException, draw);
      if !pass {
        return true;
      }
      var json := serialize(ExceptionRequest(State(), exception, severity));
      ok := Send(json, delivery);
    }

    /** The metric record is built by the AiMetric constructor from the
        arguments as given; a null name throws out of the method. */
    method WriteMetric(name: Option<string>, value: real, count: Option<real>, min: Option<real>,
                       max: Option<real>, stdDev: Option<real>, draw: int, serialize: AiLogRequest -> string,
                       delivery: Delivery) returns (r: Result<bool>)
      modifies tracingService, channel
      ensures var o := MetricWrite(State(), name, value, count, min, max, stdDev, draw, serialize, delivery);
        (o.Err? ==> r == Err(o.fault) && tracingService.lines == old(tracingService.lines)
                    && channel.posts == old(channel.posts)) &&
        (o.Ok? ==> r == Ok(o.value.ok) && tracingService.lines == old(tracingService.lines) + o.value.traces
                   && channel.posts == old(channel.posts) + o.value.posts)
    {
      var pass := Log("Metric", config.disableMetricTracking, config.percentLoggedMetric, draw);
      if !pass {
        return Ok(true);
      }
      var metric := NewAiMetric(name, value, count, min, max, stdDev);
      if metric.Err? {
        return Err(metric.fault);
      }
      var json := serialize(MetricRequest(State(), metric.value));
      var ok := Send(json, delivery);
      r := Ok(ok);
    }

    method WriteTrace(message: string, severity: int, draw: int, serialize: AiLogRequest -> string,
                      delivery: Delivery) returns (ok: bool)
      modifies tracingService, channel
      ensures var e := Write(State(), "Trace", config.disableTraceTracking, config.percentLoggedTrace, draw,
        serialize(TraceRequest(State(), message, severity)), delivery);
        ok == e.ok && tracingService.lines == old(tracingService.lines) + e.traces
        && channel.posts == old(channel.posts) + e.posts
    {
      var pass := Log("Trace", config.disableTraceTracking, config.percentLoggedTrace, draw);
      if !pass {
        return true;
      }
      var json := serialize(TraceRequest(State(), message, severity));
      ok := Send(json, delivery);
    }
  }

  /** The AiLogger constructor that reads its configuration from JSON
      (`config` is the outcome of that reading): ValidateContextSpecific,
      then SetupAiLogger, whose version request may throw and whose context
      details trace the parameters. */
  method NewAiLogger(config: Result<AiConfig>, host: Host, tracingService: TracingService, channel: HttpChannel,
                     context: ExecutionContext, pluginStage: Option<int>, workflowCategory: Option<int>)
    returns (r: Result<AiLogger>)
    modifies tracingService
    ensures var o := SetupOutcome(config, host, context, pluginStage, workflowCategory);
      (r.Ok? <==> o.Ok?) &&
      (r.Err? ==> r.fault == o.fault && tracingService.lines == old(tracingService.lines)) &&
      (r.Ok? ==>
        fresh(r.value) && r.value.State() == o.value &&
        r.value.tracingService == tracingService && r.value.channel == channel &&
        tracingService.lines == old(tracingService.lines) + SetupTraces(config.value, host, context))
  {
    var valid := ValidateContextSpecific(pluginStage, workflowCategory);
    if valid.Err? {
      return Err(valid.fault);
    }
    if config.Err? {
      return Err(config.fault);
    }
    var c := config.value;
    var userId := context.initiatingUserId;
    if host.version.None? {
      return Err(ServiceFault);
    }
    var properties := AiProperties(host.version.value, None, None, None, None, None, None);
    if !c.disableContextParameterTracking {
      properties := AddExecutionContextDetails(host, tracingService, context, pluginStage, workflowCategory,
                                               host.version.value);
    }
    var logger := new AiLogger(LoggerState(c, userId, properties), tracingService, channel);
    r := Ok(logger);
  }

  /** AiLogger.AddExecutionContextDetails, from the properties holding the
      version: each direction's parameters traced (a failure traced as an
      error line), the operation id, then the plug-in and workflow details. */
  method AddExecutionContextDetails(host: Host, tracingService: TracingService, context: ExecutionContext,
                                    pluginStage: Option<int>, workflowCategory: Option<int>, version: string)
    returns (properties: AiProperties)
    modifies tracingService
    ensures properties == ContextDetails(host, context, pluginStage, workflowCategory, version)
    ensures tracingService.lines == old(tracingService.lines)
      + OptionalLine(TraceError(host, true, context.inputParameters))
      + OptionalLine(TraceError(host, false, context.outputParameters))
  {
    var input, inputError := TraceParameters(host, true, context.inputParameters);
    if inputError.Some? {
      tracingService.Trace(inputError.value);
    }
    var output, outputError := TraceParameters(host, false, context.outputParameters);
    if outputError.Some? {
      tracingService.Trace(outputError.value);
    }
    properties := AiProperties(version, input, output, Some(context.operationId), None, None, None);
    if pluginStage.Some? {
      properties := properties.(source := Some("Plug-in"), stage := Some(host.stageName(pluginStage.value)));
    }
    if workflowCategory.Some? {
      properties := properties.(source := Some("Workflow"),
                                workflowCategory := Some(GetWorkflowCategoryName(workflowCategory.value)));
    }
  }
}
