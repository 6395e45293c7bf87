/** The LogMessage plug-in's handler (ExecuteCrmPlugin): it skips trace-log
    and SDK entities, defaults the ConcurrencyBehavior input of an Update at
    stage 10, then builds an AiLogger for the stage and writes one event
    measuring the stage. Any exception past the entity filter is caught and
    traced. */
module LogMessagePlugin {
  import opened Outcomes
  import opened Text
  import opened ValueFormatter
  import opened JsonLog
  import opened Logger

  /* ---------------------------------------------------------------------
     The input parameter collection. */

  predicate ContainsKey(ps: seq<Entry>, key: string)
  {
    exists i :: 0 <= i < |ps| && ps[i].key == key
  }

  /** The position of the entry of `key`, or -1 when there is none. */
  function IndexOfKey(ps: seq<Entry>, key: string): (i: int)
    ensures -1 <= i < |ps|
    ensures i >= 0 ==> ps[i].key == key
    ensures i < 0 <==> !ContainsKey(ps, key)
  {
    if ps == [] then -1
    else if ps[|ps| - 1].key == key then |ps| - 1
    else
      var i := IndexOfKey(ps[..|ps| - 1], key);
      assert ContainsKey(ps, key) ==> ContainsKey(ps[..|ps| - 1], key) by {
        if ContainsKey(ps, key) {
          var j :| 0 <= j < |ps| && ps[j].key == key;
          assert ps[..|ps| - 1][j].key == key;
        }
      }
      i
  }

  /** The collection's indexer set: the entry of `key` takes the new value,
      or a new entry is added at the end when there is none. */
  function WithItem(ps: seq<Entry>, key: string, value: HostValue): (r: seq<Entry>)
    ensures !ContainsKey(ps, key) ==> r == ps + [Entry(key, value)]
    ensures ContainsKey(ps, key) ==> |r| == |ps|
    ensures forall i :: 0 <= i < |ps| && ps[i].key != key ==> r[i] == ps[i]
    ensures ContainsKey(r, key)
    ensures ContainsKey(ps, key) ==> r[IndexOfKey(ps, key)] == Entry(key, value)
  {
    var i := IndexOfKey(ps, key);
    if i < 0 then
      assert (ps + [Entry(key, value)])[|ps|].key == key;
      ps + [Entry(key, value)]
    else
      assert ps[i := Entry(key, value)][i].key == key;
      ps[i := Entry(key, value)]
  }

  /** The parts of IPluginExecutionContext the handler reads, and the input
      parameters it may change. */
  class PluginContext {
    const primaryEntityName: Option<string>
    const messageName: Option<string>
    const stage: int
    const initiatingUserId: string
    const operationId: string
    const outputParameters: Option<seq<Entry>>
    var inputParameters: seq<Entry>

    constructor (primaryEntityName: Option<string>, messageName: Option<string>, stage: int,
                 initiatingUserId: string, operationId: string, inputParameters: seq<Entry>,
                 outputParameters: Option<seq<Entry>>)
      ensures this.primaryEntityName == primaryEntityName && this.messageName == messageName
      ensures this.stage == stage && this.initiatingUserId == initiatingUserId
      ensures this.operationId == operationId && this.outputParameters == outputParameters
      ensures this.inputParameters == inputParameters
    {
      this.primaryEntityName := primaryEntityName;
      this.messageName := messageName;
      this.stage := stage;
      this.initiatingUserId := initiatingUserId;
      this.operationId := operationId;
      this.outputParameters := outputParameters;
      this.inputParameters := inputParameters;
    }

    /** What the logger reads from this context. */
    function Execution(): ExecutionContext
      reads this
    {
      ExecutionContext(initiatingUserId, operationId, Some(inputParameters), outputParameters)
    }

    method SetItem(key: string, value: HostValue)
      modifies this
      ensures inputParameters == WithItem(old(inputParameters), key, value)
    {
      inputParameters := WithItem(inputParameters, key, value);
    }
  }

  /* ---------------------------------------------------------------------
     The decisions. */

  const TraceLogEntity: string := "plugintracelog"

  /** The entity filter, which runs before the `try`: `Ok(true)` returns
      without doing anything, `Ok(false)` goes on, and an error is the
      exception that escapes the handler. A null name is compared unequal
      to "plugintracelog" and then makes `Substring` throw; so does a name
      shorter than three characters. The prefix test is case-sensitive. */
  function ScreenEntity(name: Option<string>): (r: Result<bool>)
    ensures name == Some(TraceLogEntity) ==> r == Ok(true)
    ensures r.Err? <==> name.None? || (name.value != TraceLogEntity && |name.value| < 3)
    ensures name.None? ==> r == Err(NullReference)
    ensures name.Some? && name.value != TraceLogEntity && |name.value| < 3 ==> r == Err(ArgumentOutOfRange)
    ensures r == Ok(true) <==>
      name.Some? && (name.value == TraceLogEntity || (|name.value| >= 3 && name.value[..3] == "sdk"))
  {
    if name.None? then Err(NullReference)
    else if name.value == TraceLogEntity then Ok(true)
    else if |name.value| < 3 then Err(ArgumentOutOfRange)
    else Ok(name.value[..3] == "sdk")
  }

  /** Every name that starts with "sdk" is skipped, whatever follows. */
  lemma SdkNamesSkipped(rest: string)
    ensures ScreenEntity(Some("sdk" + rest)) == Ok(true)
  {
    assert ("sdk" + rest)[..3] == "sdk";
  }

  const ConcurrencyBehaviorKey: string := "ConcurrencyBehavior"

  /** `ConcurrencyBehavior.Default`. */
  const DefaultConcurrency: HostValue := ConcurrencyBehavior("Default")

  /** `MessageName.Equals("update", InvariantCultureIgnoreCase) && Stage == 10`. */
  predicate DefaultsConcurrency(messageName: string, stage: int)
  {
    EqualsIgnoreCase(messageName, "update") && stage == 10
  }

  /** The input parameters after the defaulting step, or the exception a
      null message name raises. */
  function Defaulting(messageName: Option<string>, stage: int, ps: seq<Entry>): (r: Result<seq<Entry>>)
    ensures r.Err? <==> messageName.None?
    ensures r.Ok? && ContainsKey(ps, ConcurrencyBehaviorKey) ==> r.value == ps
    ensures r.Ok? && !DefaultsConcurrency(messageName.value, stage) ==> r.value == ps
    ensures r.Ok? && DefaultsConcurrency(messageName.value, stage) && !ContainsKey(ps, ConcurrencyBehaviorKey) ==>
      r.value == ps + [Entry(ConcurrencyBehaviorKey, DefaultConcurrency)]
  {
    if messageName.None? then Err(NullReference)
    else if DefaultsConcurrency(messageName.value, stage) && !ContainsKey(ps, ConcurrencyBehaviorKey)
    then Ok(WithItem(ps, ConcurrencyBehaviorKey, DefaultConcurrency))
    else Ok(ps)
  }

  /** After the defaulting step of an Update at stage 10 (in any letter
      case) the key is present, with the value it had if it had one. */
  lemma DefaultingProvidesKey(messageName: string, stage: int, ps: seq<Entry>)
    requires DefaultsConcurrency(messageName, stage)
    ensures var r := Defaulting(Some(messageName), stage, ps).value;
      ContainsKey(r, ConcurrencyBehaviorKey) && ps <= r && |r| <= |ps| + 1
  {
    var r := Defaulting(Some(messageName), stage, ps).value;
    if !ContainsKey(ps, ConcurrencyBehaviorKey) {
      assert r == ps + [Entry(ConcurrencyBehaviorKey, DefaultConcurrency)];
      assert r[..|ps|] == ps;
    }
  }

  /** The message names that default the key are exactly the spellings of
      "update" in any mix of letter case, and only at stage 10. Letter case
      is folded for the ASCII letters only. */
  lemma UpdateInAnyCase(m: string, stage: int)
    ensures DefaultsConcurrency(m, stage) <==>
      stage == 10 && |m| == 6 && forall i :: 0 <= i < 6 ==> m[i] == "update"[i] || m[i] == "UPDATE"[i]
    ensures stage != 10 ==> !DefaultsConcurrency(m, stage)
  {
    if |m| == 6 {
      forall i | 0 <= i < 6
        ensures Lower(m[i]) == Lower("update"[i]) <==> m[i] == "update"[i] || m[i] == "UPDATE"[i]
      {
        LowerMatchesLetter(m[i], "update"[i], "UPDATE"[i]);
      }
    }
  }

  /** A character folds to a lower-case ASCII letter iff it is that letter
      or its upper-case form. */
  lemma LowerMatchesLetter(c: char, lower: char, upper: char)
    requires 'a' <= lower <= 'z' && upper as int == lower as int - 32
    ensures Lower(c) == Lower(lower) <==> c == lower || c == upper
  {
  }

  /** The measurement dictionary of the event: one entry, "Stage". */
  function StageMeasurements(stage: int): seq<Measurement>
  {
    [Measurement("Stage", stage as real)]
  }

  /** Built with the stage and no workflow category, the logger's
      validation always passes: a set-up can fail only on the
      configuration or the version request. */
  lemma PluginLoggerValidates(config: Result<AiConfig>, host: Host, context: ExecutionContext, stage: int)
    ensures ValidateContextSpecific(Some(stage), None) == Ok(())
    ensures SetupOutcome(config, host, context, Some(stage), None).Err? <==> config.Err? || host.version.None?
  {
  }

  /** Where the serialized event holds one measurements placeholder, the
      JSON sent holds `{"Stage": <stage>}` in its place and nothing else
      changes. */
  lemma StageObjectInserted(p: string, q: string, stage: int, show: real -> string)
    requires forall k :: 0 <= k < |p| ==> !MatchAt(p + Placeholder + q, Placeholder, k)
    requires !Occurs(q, Placeholder)
    ensures InsertedMetrics(Some(StageMeasurements(stage)), p + Placeholder + q, show)
      == p + MetricsObject(StageMeasurements(stage), show) + q
    ensures MetricsObject(StageMeasurements(stage), show)
      == "\"measurements\":{\"" + "Stage" + "\": " + show(stage as real) + "}"
  {
    var m := Measurement("Stage", stage as real);
    InsertedMetricsOnce(p, q, [m], show);
    MetricsObjectSmall(m, show);
  }

  /** The line the catch block traces. */
  function UnhandledLine(host: Host, f: Fault): string
  {
    "Unhandled Exception: " + host.message(f)
  }

  /** What the host supplies to one execution, beyond the context. */
  datatype Environment = Environment(
    config: Result<AiConfig>,
    host: Host,
    serialize: AiLogRequest -> string,
    show: real -> string)

  /** The parts of the context the handler only reads. */
  datatype ContextInfo = ContextInfo(
    primaryEntityName: Option<string>,
    messageName: Option<string>,
    stage: int,
    initiatingUserId: string,
    operationId: string,
    outputParameters: Option<seq<Entry>>)

  /** How an execution ends: an exception escapes, the entity is skipped,
      or the body runs (to its end or to the catch block) leaving these
      input parameters, trace lines and posts. */
  datatype Outcome =
    | Escaped(fault: Fault)
    | Skipped
    | Handled(parameters: seq<Entry>, traces: seq<string>, posts: seq<Post>)

  /** The whole handler, given the draw and the delivery outcome of its one write. */
  function Handle(env: Environment, info: ContextInfo, ps: seq<Entry>, draw: int, delivery: Delivery): Outcome
  {
    var screen := ScreenEntity(info.primaryEntityName);
    if screen.Err? then Escaped(screen.fault)
    else if screen.value then Skipped
    else
      match Defaulting(info.messageName, info.stage, ps)
      case Err(f) => Handled(ps, [UnhandledLine(env.host, f)], [])
      case Ok(defaulted) =>
        var context := ExecutionContext(info.initiatingUserId, info.operationId, Some(defaulted), info.outputParameters);
        match SetupOutcome(env.config, env.host, context, Some(info.stage), None)
        case Err(f) => Handled(defaulted, [UnhandledLine(env.host, f)], [])
        case Ok(s) =>
          var e := Write(s, "Event", s.config.disableEventTracking, s.config.percentLoggedEvent, draw,
            EventJson(s, "XRM Message", Some(StageMeasurements(info.stage)), None, None, env.serialize, env.show),
            delivery);
          Handled(defaulted, SetupTraces(s.config, env.host, context) + e.traces, e.posts)
  }

  /** Past the entity filter nothing escapes: every exception is caught and
      traced as one line, and then nothing is posted. A trace-log or SDK
      entity is skipped, and a short or null name escapes. */
  lemma HandleCatchesAll(env: Environment, info: ContextInfo, ps: seq<Entry>, draw: int, delivery: Delivery)
    ensures var o := Handle(env, info, ps, draw, delivery);
      (o.Escaped? <==> ScreenEntity(info.primaryEntityName).Err?) &&
      (o.Skipped? <==> ScreenEntity(info.primaryEntityName) == Ok(true)) &&
      (o.Handled? && info.messageName.None? ==>
        o.parameters == ps && o.posts == [] && o.traces == [UnhandledLine(env.host, NullReference)]) &&
      (o.Handled? && (env.config.Err? || env.host.version.None?) ==>
        o.posts == [] && |o.traces| == 1 && "Unhandled Exception: " <= o.traces[0])
  {
    var o := Handle(env, info, ps, draw, delivery);
    if o.Handled? && (info.messageName.None? || env.config.Err? || env.host.version.None?) {
      var f: Fault;
      if info.messageName.None? {
        f := NullReference;
      } else {
        var defaulted := Defaulting(info.messageName, info.stage, ps).value;
        var context := ExecutionContext(info.initiatingUserId, info.operationId, Some(defaulted), info.outputParameters);
        f := SetupOutcome(env.config, env.host, context, Some(info.stage), None).fault;
      }
      assert o.traces == [UnhandledLine(env.host, f)];
      PrefixOfAppend("Unhandled Exception: ", env.host.message(f), "");
      assert "Unhandled Exception: " + env.host.message(f) + "" == o.traces[0];
    }
  }

  /** ExecuteCrmPlugin. The HTTP client and the organization service are
      reached through `env` and `channel`. */
  method ExecuteCrmPlugin(env: Environment, context: PluginContext, tracing: TracingService,
                          channel: HttpChannel, draw: int, delivery: Delivery)
    returns (r: Result<()>)
    modifies context, tracing, channel
    ensures var o := Handle(env, ContextInfo(context.primaryEntityName, context.messageName, context.stage,
      context.initiatingUserId, context.operationId, context.outputParameters),
      old(context.inputParameters), draw, delivery);
      (o.Escaped? ==> r == Err(o.fault)) && (!o.Escaped? ==> r == Ok(())) &&
      (!o.Handled? ==>
        context.inputParameters == old(context.inputParameters) &&
        tracing.lines == old(tracing.lines) && channel.posts == old(channel.posts)) &&
      (o.Handled? ==>
        context.inputParameters == o.parameters &&
        tracing.lines == old(tracing.lines) + o.traces && channel.posts == old(channel.posts) + o.posts)
  {
    var screen := Screen(context.primaryEntityName);
    if screen.Err? {
      return Err(screen.fault);
    }
    if screen.value {
      return Ok(());
    }
    if context.messageName.None? {
      tracing.Trace(UnhandledLine(env.host, NullReference));
      return Ok(());
    }
    if DefaultsConcurrency(context.messageName.value, context.stage) {
      if !ContainsKey(context.inputParameters, ConcurrencyBehaviorKey) {
        context.SetItem(ConcurrencyBehaviorKey, DefaultConcurrency);
      }
    }
    r := LogStage(env, context, tracing, channel, draw, delivery);
  }

  /** The filter as the source writes it, one comparison after the other. */
  method Screen(name: Option<string>) returns (r: Result<bool>)
    ensures r == ScreenEntity(name)
  {
    if name == Some(TraceLogEntity) {
      return Ok(true);
    }
    if name.None? {
      return Err(NullReference);
    }
    if |name.value| < 3 {
      return Err(ArgumentOutOfRange);
    }
    r := Ok(name.value[..3] == "sdk");
  }

  /** The rest of the `try` block: the logger for the stage and the one event. */
  method LogStage(env: Environment, context: PluginContext, tracing: TracingService,
                  channel: HttpChannel, draw: int, delivery: Delivery)
    returns (r: Result<()>)
    modifies tracing, channel
    ensures r == Ok(())
    ensures var o := SetupOutcome(env.config, env.host, context.Execution(), Some(context.stage), None);
      (o.Err? ==> tracing.lines == old(tracing.lines) + [UnhandledLine(env.host, o.fault)] &&
                  channel.posts == old(channel.posts)) &&
      (o.Ok? ==>
        var e := Write(o.value, "Event", o.value.config.disableEventTracking, o.value.config.percentLoggedEvent, draw,
          EventJson(o.value, "XRM Message", Some(StageMeasurements(context.stage)), None, None, env.serialize, env.show),
          delivery);
        tracing.lines == old(tracing.lines) + (SetupTraces(o.value.config, env.host, context.Execution()) + e.traces) &&
        channel.posts == old(channel.posts) + e.posts)
  {
    var logger := NewAiLogger(env.config, env.host, tracing, channel, context.Execution(), Some(context.stage), None);
    if logger.Err? {
      tracing.Trace(UnhandledLine(env.host, logger.fault));
      return Ok(());
    }
    ghost var afterSetup := tracing.lines;
    var measurements := [Measurement("Stage", context.stage as real)];
    var _ := logger.value.WriteEvent("XRM Message", Some(measurements), None, None, draw, env.serialize, env.show,
                                     delivery);
    AppendTwo(old(tracing.lines), SetupTraces(env.config.value, env.host, context.Execution()),
              tracing.lines[|afterSetup|..]);
    r := Ok(());
  }
}
