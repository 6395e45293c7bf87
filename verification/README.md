# D365AppInsights in Dafny

A model of the logging core of D365AppInsights, a Dynamics 365 (Dataverse)
plug-in library that sends telemetry to Azure Application Insights. The
model covers these parts:

- **`AiLogger`.** Its five write operations (dependency, event, exception,
  metric and trace) each pass a category gate. The gate has a disable flag
  and a logging percentage compared with a random draw. After the gate,
  each write builds an envelope, serializes it and posts it once to the
  ingestion endpoint. A write reports success when it is skipped, and
  reports whether the post succeeded when it is sent.
- **The value renderer (`AppendValue`).** It turns Dataverse values into
  text for the parameter traces: scalars, dates, entity references,
  entities with their attributes, column sets, queries, fetch expressions,
  entity collections, option sets, money and concurrency behaviours.
- **The text helpers of the logger.** `TraceParameters`,
  `TrimPropertyValueLength`, `CreateJsonDataLog` (brace doubling for the
  tracing service) and `InsertMetricsJson` (the textual injection of an
  event's measurements).
- **Logger set-up.** `ValidateContextSpecific`, `GetWorkflowCategoryName`
  and the collection of context details.
- **Two other pieces.** The `AiMetric` constructor, and
  `ExceptionHelper.GetParsedStacked` (the walk down an exception's
  `InnerException` chain).
- **The `LogMessage` plug-in's handler (`ExecuteCrmPlugin`).** It skips
  trace-log and SDK entities. It defaults `ConcurrencyBehavior` on an
  Update at stage 10. Then it builds a logger and writes one event
  measuring the stage. It catches every exception past its entity filter.

Objects whose state the source updates in place are classes:

- `AiLogger`, with the tracing service and the HTTP channel it writes to;
- `StringBuilder`;
- the plug-in execution context, whose input parameter collection the
  handler updates.

Each of their methods is proved against a function of the inputs and the
old state. The rest are datatypes and functions.

Behaviours the code has and that the model keeps as written:

- **The draw.** `new Random().Next(1, 100)` draws from 1..99, so a
  percentage t in 1..99 logs t of 99 outcomes, and 99 already logs
  everything (`Sampling.LoggedCountExact`, `Sampling.ThresholdBounds`).
- **The metric kind.** It tests the `count` argument before that argument
  defaults to 1, so a metric written without a count is an aggregation
  (`Metrics.MissingCountIsAggregation`).
- **Entity collections.** An entity collection is opened with `[` and is
  never closed (`RenderingFacts.CollectionOfEntitiesUnclosed`).
- **The entity filter.** It runs before the handler's `try`. A null
  primary entity name, or one shorter than three characters, throws out
  of the plug-in (`LogMessagePlugin.ScreenEntity`).
- **A null metric name.** `WriteMetric` with a null name throws out of
  the write once the gate has passed, because the AiMetric constructor
  reads `name.Length` (`Logger.MetricWrite`).

## Model

| member | source | states |
|---|---|---|
| Sampling.ExtremesIgnoreDraw | D365AppInsights.Shared/AiLogger.cs:442-453 | thresholds 100 and 0 decide without consulting the draw: 100 always logs, 0 never does |
| Sampling.ThresholdBounds | D365AppInsights.Shared/AiLogger.cs:442-453 | for any draw the source can produce (1..99), a threshold of 99 or more always logs and one of 0 or less never logs |
| Sampling.ThresholdMonotone | D365AppInsights.Shared/AiLogger.cs:442-453 | raising the percentage never stops a draw from being logged |
| Sampling.LoggedCountExact | D365AppInsights.Shared/AiLogger.cs:442-453 | of the draws 1..n, threshold 100 logs all, a threshold of 0 or below none, any other t exactly min(t, n): the sampled share is t/99 |
| Sampling.Log | D365AppInsights.Shared/AiLogger.cs:719-738 | the write proceeds iff the category is not disabled and the draw is within the threshold; with debug on, a refusal traces exactly one line naming the reason (Disabled, or the threshold percentage), and nothing is traced otherwise |
| Sampling.GateWithoutDraw | D365AppInsights.Shared/AiLogger.cs:719-738 | a disabled category or a threshold of 100 or 0 gives the same outcome and traces whatever the draw |
| Text.NatTextRoundTrip | D365AppInsights.Shared/AiLogger.cs:733 | the decimal text of a natural number reads back as that number |
| Text.IntTextRoundTrip | D365AppInsights.Shared/AiLogger.cs:733 | the decimal text of an integer (the threshold in the refusal trace), sign included, reads back as that integer |
| Text.EscapedHasNoQuote | D365AppInsights.Shared/AiLogger.cs:107 | after every `"` is replaced by `&quot;` no double quote is left |
| Text.Truncate | D365AppInsights.Shared/AiLogger.cs:478-481 | the result is a prefix of the input no longer than the limit, equal to it iff the input fits, and one short of the limit otherwise |
| Text.TruncateIdempotent | D365AppInsights.Shared/AiLogger.cs:478-481 | truncating twice is truncating once |
| Text.TwoPassDoubling | D365AppInsights.Shared/AiLogger.cs:367-370 | replacing `{` by `{{` and then `}` by `}}` doubles every brace exactly once |
| Text.UnescapeDoubled | D365AppInsights.Shared/AiLogger.cs:367-370 | reading brace-doubled text as a composite format string gives back the original text |
| Text.ReplaceAllAbsent | D365AppInsights.Shared/AiLogger.cs:455-476 | replacing a pattern that does not occur leaves the text unchanged |
| Text.ReplaceAllAtFirst | D365AppInsights.Shared/AiLogger.cs:455-476 | with the first occurrence of the pattern between p and q, replacing all occurrences keeps p, puts the replacement in its place and goes on in q |
| JsonLog.TrimPropertyValueLength | D365AppInsights.Shared/AiLogger.cs:478-481 | the value is kept whole iff it has at most 8192 characters; otherwise it is cut to a prefix of 8191 |
| JsonLog.TrimIdempotent | D365AppInsights.Shared/AiLogger.cs:478-481 | trimming a trimmed value changes nothing |
| JsonLog.CreateJsonDataLogReadsBack | D365AppInsights.Shared/AiLogger.cs:367-370 | the two Replace passes double each brace, and the tracing service's formatting of the result shows the JSON unchanged |
| JsonLog.DebugLineShowsJson | D365AppInsights.Shared/AiLogger.cs:276-277 | the debug line each write traces shows its lead followed by the JSON exactly as serialized |
| JsonLog.InsertMetricsJson | D365AppInsights.Shared/AiLogger.cs:455-476 | the counted loop builds the pairs separated by ", " with no trailing separator, and the result is the JSON with every measurements placeholder replaced by that object, or the JSON unchanged for a null dictionary |
| JsonLog.InsertedMetricsUnchanged | D365AppInsights.Shared/AiLogger.cs:455-476 | a null dictionary, or JSON without the placeholder, comes back as it was |
| JsonLog.InsertedMetricsOnce | D365AppInsights.Shared/AiLogger.cs:455-476 | a single placeholder is replaced by the measurements object and the surrounding text is kept |
| JsonLog.MetricsObjectSmall | D365AppInsights.Shared/AiLogger.cs:455-476 | an empty dictionary gives `{}`, and a one-entry dictionary gives exactly its pair with no separator |
| Metrics.NewAiMetric | D365AppInsights.Shared/Models/AiMetric.cs:38-52 | a null name throws a NullReferenceException; otherwise the name is kept when at most 512 characters long and cut to 511 otherwise; the value is kept; a missing count defaults to 1, a missing min or max to the value and a missing standard deviation to 0; the kind is Measurement iff the count given is exactly 1 |
| Metrics.MissingCountIsAggregation | D365AppInsights.Shared/Models/AiMetric.cs:45-51 | a metric without a count records a count of 1 yet is an aggregation |
| Metrics.KindFromCount | D365AppInsights.Shared/Models/AiMetric.cs:49-51 | an explicit count makes a measurement iff it is exactly 1 |
| Metrics.NameBound | D365AppInsights.Shared/Models/AiMetric.cs:40-42 | the stored name never exceeds 512 characters and is a prefix of the given name |
| ExceptionHelper.Chain | D365AppInsights.Shared/Helpers/ExceptionHelper.cs:18-22 | the chain of an exception is non-empty and starts with the exception itself |
| ExceptionHelper.ChainSuffix | D365AppInsights.Shared/Helpers/ExceptionHelper.cs:18-22 | the chain from any position is the chain of the exception found there |
| ExceptionHelper.ChainStep | D365AppInsights.Shared/Helpers/ExceptionHelper.cs:18-22 | each exception's InnerException is the next one in the chain, and only the last has none |
| ExceptionHelper.GetParsedStacked | D365AppInsights.Shared/Helpers/ExceptionHelper.cs:9-25 | the loop returns None when the outermost stack trace is null or empty, otherwise the parse of every exception of the chain in order, or the first parse failure |
| ExceptionHelper.ParsedStackedShape | D365AppInsights.Shared/Helpers/ExceptionHelper.cs:9-25 | only the outermost stack trace is examined; with it present the result succeeds iff every exception parses, and then lists one parse per exception, outermost first |
| ValueFormatter.QuoteEach | D365AppInsights.Shared/AiLogger.cs:146 | each column becomes its quoted name, order and count kept |
| ValueFormatter.AttributeItemsFail | D365AppInsights.Shared/AiLogger.cs:130-135 | once one attribute fails to render, the whole entity fails |
| ValueFormatter.MemberItemsFail | D365AppInsights.Shared/AiLogger.cs:176-181 | once one member fails to render, the whole collection fails |
| ValueFormatter.AttributeItemsStep | D365AppInsights.Shared/AiLogger.cs:130-135 | one attribute more either adds its text to the entity's items or makes the whole entity fail |
| ValueFormatter.MemberItemsStep | D365AppInsights.Shared/AiLogger.cs:176-181 | one member more either adds its text to the collection's items or makes the whole collection fail |
| ValueFormatter.AppendValue | D365AppInsights.Shared/AiLogger.cs:95-205 | succeeds iff the value renders without an exception under the given type name, and then appends exactly its rendering to the builder |
| ValueFormatter.AppendQuoted | D365AppInsights.Shared/AiLogger.cs:106-108 | appends the text between double quotes |
| ValueFormatter.AppendEntity | D365AppInsights.Shared/AiLogger.cs:119-140 | succeeds iff every attribute renders, and then appends the entity's header, its attributes and the closing brace |
| ValueFormatter.AppendAttributes | D365AppInsights.Shared/AiLogger.cs:130-135 | the attribute loop succeeds iff every attribute renders, and then appends their texts in order |
| ValueFormatter.AppendNextAttribute | D365AppInsights.Shared/AiLogger.cs:132-134 | one loop pass appends the next attribute's text and extends the items by it, or the entity fails |
| ValueFormatter.AppendEntityHeader | D365AppInsights.Shared/AiLogger.cs:127-129 | appends the entity's header |
| ValueFormatter.AppendAttribute | D365AppInsights.Shared/AiLogger.cs:132-134 | appends the attribute's line lead and its value rendered under its own runtime type, failing iff that rendering fails |
| ValueFormatter.AppendColumnSet | D365AppInsights.Shared/AiLogger.cs:141-152 | appends the column set's text |
| ValueFormatter.AppendColumns | D365AppInsights.Shared/AiLogger.cs:146-148 | appends the quoted columns separated by ", ", the last separator removed |
| ValueFormatter.AppendQueryExpression | D365AppInsights.Shared/AiLogger.cs:153-167 | succeeds iff the host translates the query to FetchXML, and then appends the query's text |
| ValueFormatter.AppendQueryHead | D365AppInsights.Shared/AiLogger.cs:158-163 | appends the query's entity name, its top count (empty when absent) and its column set |
| ValueFormatter.AppendCollection | D365AppInsights.Shared/AiLogger.cs:173-185 | succeeds iff every member renders, and then appends `[` and the members with the final separator removed |
| ValueFormatter.AppendMembers | D365AppInsights.Shared/AiLogger.cs:176-181 | the member loop succeeds iff every member renders, and then appends each member's text followed by ", " |
| ValueFormatter.AppendNextMember | D365AppInsights.Shared/AiLogger.cs:178-179 | one loop pass appends the next member's text and extends the items by it, or the collection fails |
| ValueFormatter.AppendMember | D365AppInsights.Shared/AiLogger.cs:178-179 | a null member throws; otherwise appends a line break and the member rendered under its own runtime type |
| RenderingFacts.DefaultCaseIffUnknown | D365AppInsights.Shared/AiLogger.cs:97-203 | a type name takes the default branch iff it is null or not one of the switch's labels |
| RenderingFacts.UndefinedFallback | D365AppInsights.Shared/AiLogger.cs:201-203 | an unknown or null type name never throws and renders as an undefined type with the value's text |
| RenderingFacts.NullAttributeRendering | D365AppInsights.Shared/AiLogger.cs:132-134 | a null attribute value renders as an undefined type with empty type name and value |
| RenderingFacts.ClassifyRuntimeType | D365AppInsights.Shared/AiLogger.cs:97-203 | each host class's runtime type name selects that class's own case |
| RenderingFacts.ScalarRendering | D365AppInsights.Shared/AiLogger.cs:99-109 | a null scalar throws; otherwise it renders as its text between quotes with every inner quote escaped, so the delimiters are the only raw quotes |
| RenderingFacts.ReferenceRendering | D365AppInsights.Shared/AiLogger.cs:115-118 | a reference renders its Id and LogicalName; anything else under that label is an invalid cast |
| RenderingFacts.EmptyColumnSetRendering | D365AppInsights.Shared/AiLogger.cs:141-152 | the ColumnSet label never throws, and an empty or null column set renders `[ ]` |
| RenderingFacts.ColumnSetOpens | D365AppInsights.Shared/AiLogger.cs:141-152 | a non-empty column set opens with its first quoted column |
| RenderingFacts.ColumnSetCloses | D365AppInsights.Shared/AiLogger.cs:141-152 | in a non-empty column set the last separator is removed and the last column is followed by ` ]` |
| RenderingFacts.NullEntityRendering | D365AppInsights.Shared/AiLogger.cs:119-124 | a value that is not an entity renders `NULL` under the Entity label |
| RenderingFacts.AttributeItemsAt | D365AppInsights.Shared/AiLogger.cs:130-135 | when an entity renders, its items are, in order, each attribute's own text |
| RenderingFacts.EntityRendering | D365AppInsights.Shared/AiLogger.cs:119-140 | a rendered entity opens with a brace on a line of its own, then its Id and its LogicalName on tab-indented lines, and ends with the closing brace on a line of its own |
| RenderingFacts.MemberItemsAt | D365AppInsights.Shared/AiLogger.cs:176-181 | when a collection renders, its items are, in order, each member's own text and no member is null |
| RenderingFacts.CollectionRendering | D365AppInsights.Shared/AiLogger.cs:173-185 | the EntityCollection label renders a collection as its own text, and an empty collection as a lone `[` |
| RenderingFacts.CollectionEndsWithLastMember | D365AppInsights.Shared/AiLogger.cs:173-185 | a non-empty collection opens with `[` and ends with its last member's text: the separator is removed and no `]` follows |
| RenderingFacts.CollectionOfEntitiesUnclosed | D365AppInsights.Shared/AiLogger.cs:173-185 | a non-empty collection of entities ends with the last entity's closing brace |
| RenderingFacts.RenderOwnType | D365AppInsights.Shared/AiLogger.cs:95-205 | a well-formed value rendered under its own runtime type never meets an invalid cast; only a null member or a failed query translation can throw |
| RenderingFacts.AttributeItemsOwnType | D365AppInsights.Shared/AiLogger.cs:130-135 | the attributes of a well-formed entity fail only with a null member or a failed query translation |
| RenderingFacts.MemberItemsOwnType | D365AppInsights.Shared/AiLogger.cs:176-181 | the members of a well-formed collection fail only with a null member or a failed query translation |
| ParameterTrace.TraceParameters | D365AppInsights.Shared/AiLogger.cs:794-826 | null or empty parameters give nothing; otherwise either the lines joined by line breaks and truncated, or, when a value throws, no text and one error trace line |
| ParameterTrace.AppendParameterLines | D365AppInsights.Shared/AiLogger.cs:805-816 | the loop succeeds iff every parameter renders, and then appends the lines separated by line breaks, with none after the last |
| ParameterTrace.AppendParameter | D365AppInsights.Shared/AiLogger.cs:807-810 | appends the parameter's prefix and its value rendered under its own runtime type, failing iff that rendering fails |
| ParameterTrace.TraceLinesAt | D365AppInsights.Shared/AiLogger.cs:805-816 | rendering succeeds iff every parameter renders, and then line i is parameter i's line |
| ParameterTrace.TraceTextShape | D365AppInsights.Shared/AiLogger.cs:794-826 | with parameters exactly one of the trace and the error line is present, with none neither; the trace is the joined lines, kept whole up to 8192 characters and cut to 8191 beyond |
| ParameterTrace.FirstLine | D365AppInsights.Shared/AiLogger.cs:805-816 | the trace opens with the first parameter's prefix, and a line break separates the first line from the rest |
| Logger.ValidateContextSpecific | D365AppInsights.Shared/AiLogger.cs:484-489 | fails iff both the plug-in stage and the workflow category are null, with an InvalidPluginExecutionException |
| Logger.WorkflowCategoryRoundTrip | D365AppInsights.Shared/AiLogger.cs:423-440 | categories 0..4 get distinct names that read back as the category; anything else is "Unknown", which names none |
| Logger.SetupOutcome | D365AppInsights.Shared/AiLogger.cs:761-792 | set-up fails iff validation fails, the configuration cannot be read or the version request fails, in that order; on success the configuration, the user and the organization version are stored |
| Logger.SetupSource | D365AppInsights.Shared/AiLogger.cs:491-589 | without parameter tracking nothing of the context is recorded; with it both directions are traced, a workflow category makes the source "Workflow" whatever the stage, a stage alone makes it "Plug-in", and a stage name is recorded iff there is a stage |
| Logger.RequestNamesDistinguishKinds | D365AppInsights.Shared/AiLogger.cs:591-717 | two envelopes of one logger have the same name, and the same base type, iff they are of the same kind |
| Logger.Write | D365AppInsights.Shared/AiLogger.cs:219-365 | a refused write succeeds with only the gate's traces and no post; a passed write posts the JSON once to the endpoint, traces it first when debugging, and succeeds iff the response is a success status, tracing an error line otherwise |
| Logger.SkippedWriteSucceeds | D365AppInsights.Shared/AiLogger.cs:229-230 | a disabled category or a zero percentage writes nothing and reports success, tracing one line iff debugging |
| Logger.MetricWrite | D365AppInsights.Shared/AiLogger.cs:319-341 | the metric write throws a NullReferenceException iff the gate passes and the name is null; a refused write succeeds with only the gate's traces; with a name it is Write of the envelope carrying the AiMetric built from the arguments |
| Logger.TracingService.Trace | D365AppInsights.Shared/AiLogger.cs:724 | the line is added after those already traced |
| Logger.HttpChannel.PostAsync | D365AppInsights.Shared/AiLogger.cs:745 | the post is added after those already made |
| Logger.AiLogger.constructor | D365AppInsights.Shared/AiLogger.cs:59-91 | the logger holds the given state, tracing service and channel |
| Logger.AiLogger.Log | D365AppInsights.Shared/AiLogger.cs:719-738 | returns the gate's verdict and traces exactly the gate's lines |
| Logger.AiLogger.SendToAi | D365AppInsights.Shared/AiLogger.cs:740-759 | posts the JSON once to the endpoint, returns whether the status is a success, and traces the error line otherwise |
| Logger.AiLogger.Send | D365AppInsights.Shared/AiLogger.cs:245-248 | the debug trace of the JSON followed by the post, with the same verdict |
| Logger.AiLogger.WriteDependency | D365AppInsights.Shared/AiLogger.cs:219-250 | the result, the traces and the posts are those of Write for the dependency category and its serialized envelope |
| Logger.AiLogger.WriteEvent | D365AppInsights.Shared/AiLogger.cs:259-279 | as Write for the event category, the serialized envelope carrying the measurements inserted by InsertMetricsJson |
| Logger.AiLogger.WriteException | D365AppInsights.Shared/AiLogger.cs:288-306 | as Write for the exception category and its serialized envelope |
| Logger.AiLogger.WriteMetric | D365AppInsights.Shared/AiLogger.cs:319-341 | the result, the traces and the posts are those of MetricWrite: a null name past the gate throws with nothing traced or posted after the gate |
| Logger.AiLogger.WriteTrace | D365AppInsights.Shared/AiLogger.cs:350-365 | as Write for the trace category and its serialized envelope |
| Logger.NewAiLogger | D365AppInsights.Shared/AiLogger.cs:761-792 | returns a logger iff set-up succeeds, holding the set-up state, having traced one line per direction whose parameters fail to render; on failure nothing is traced |
| Logger.AddExecutionContextDetails | D365AppInsights.Shared/AiLogger.cs:491-520 | the properties are the context details, and each direction whose parameters throw adds its error line to the traces |
| LogMessagePlugin.IndexOfKey | D365AppInsights.Action/LogMessage.cs:41 | a position holding the key, or -1 iff no entry has the key |
| LogMessagePlugin.WithItem | D365AppInsights.Action/LogMessage.cs:43-44 | a missing key is appended with the value; an existing key keeps the length and its entry takes the new value; entries of other keys are unchanged; the key is present afterwards |
| LogMessagePlugin.PluginContext.SetItem | D365AppInsights.Action/LogMessage.cs:43-44 | the input parameters become the collection with the item set |
| LogMessagePlugin.ScreenEntity | D365AppInsights.Action/LogMessage.cs:33-35 | "plugintracelog" and names starting with "sdk" are skipped; a null name throws a null reference and a shorter one than three characters an out-of-range exception, both outside the `try` |
| LogMessagePlugin.Screen | D365AppInsights.Action/LogMessage.cs:33-35 | the filter's comparisons in order give the screening outcome |
| LogMessagePlugin.SdkNamesSkipped | D365AppInsights.Action/LogMessage.cs:34 | every name beginning with "sdk" is skipped |
| LogMessagePlugin.Defaulting | D365AppInsights.Action/LogMessage.cs:38-46 | a null message name throws; a present key or any other message and stage leaves the parameters unchanged; otherwise the key is added with the default behaviour |
| LogMessagePlugin.DefaultingProvidesKey | D365AppInsights.Action/LogMessage.cs:38-46 | after an Update at stage 10 the key is always present and no existing entry has changed |
| LogMessagePlugin.UpdateInAnyCase | D365AppInsights.Action/LogMessage.cs:38-39 | for every message name and stage: the key is defaulted iff the stage is 10 and the name is "update" with each letter in either case; no other stage defaults it |
| LogMessagePlugin.LowerMatchesLetter | D365AppInsights.Action/LogMessage.cs:38 | a character compares equal to a lower-case letter, ignoring case, iff it is that letter or its upper-case form |
| LogMessagePlugin.PluginLoggerValidates | D365AppInsights.Action/LogMessage.cs:47-53 | a logger built with the stage passes validation, so it fails only on the configuration or the version |
| LogMessagePlugin.StageObjectInserted | D365AppInsights.Action/LogMessage.cs:55-57 | the event's placeholder is replaced by a one-entry object holding "Stage" and the stage |
| LogMessagePlugin.HandleCatchesAll | D365AppInsights.Action/LogMessage.cs:30-65 | only the entity filter can let an exception escape; a null message name or a failed set-up is traced as one "Unhandled Exception" line and nothing is posted |
| LogMessagePlugin.ExecuteCrmPlugin | D365AppInsights.Action/LogMessage.cs:30-65 | the escape, skip or handled outcome of the handler, with the input parameters, the traces and the posts it leaves |
| LogMessagePlugin.LogStage | D365AppInsights.Action/LogMessage.cs:47-64 | builds the logger and writes the one stage event, or traces the set-up's exception; it never fails |

## Left out

- HTTP transport: the post's outcome is a parameter (a status or an exception). The static `HttpClient` and its headers are not modelled, so neither is the `Connection: close` header.
- JSON serialization is a parameter, `serialize`. Envelope timestamps are not modelled.
- `Random`: the draw is a parameter. The model states which draws the source can produce (1..99).
- The organization service is reached through host fields. These cover `RetrieveVersion`, the query-to-FetchXML translation, `FormatXml`, the stage name and the exception message text.
- Reading the configuration from its JSON string is a parameter. It yields the configuration or the exception.
- `AddPluginExecutionHistory` and the properties the logger copies from the context are not modelled. The copied properties are ImpersonatingUserId, CorrelationId, Message, Mode, Depth, OperationCreatedOn, OrganizationId, EntityName, EntityId, OrgName and ParentCorrelationId.
- `EnumHelper` and `AiPluginProperties` are not modelled.
- The AiEvent, AiException, AiDependency and AiTrace model classes are not modelled. Each envelope holds their constructor arguments.
- The formatting helpers used by the renderer are host fields. These are DateTime, decimal and double `ToString`, Money and the option-set display.
- The tracing service records each line as passed. It does not apply composite formatting. The exception overload of `Trace` is recorded as the JSON line alone.
- The tests in AppInsightsAction.Tests are not modelled.
- Text.Truncate: lengths are counted in Unicode scalar values, not UTF-16 code units, so a text with characters outside the Basic Multilingual Plane is cut later than .NET's `Length`/`Substring` would cut it, and a cut never splits a surrogate pair.
- JsonLog.TrimPropertyValueLength: the 8192 limit counts Unicode scalar values, not UTF-16 code units, as for Text.Truncate.
- ParameterTrace.TraceParameters: the 8192 limit on the trace counts Unicode scalar values, not UTF-16 code units, as for Text.Truncate.
- Metrics.NewAiMetric: the 512 limit on the name counts Unicode scalar values, not UTF-16 code units, as for Text.Truncate.
- LogMessagePlugin.ScreenEntity: the three-character test and the "sdk" prefix count Unicode scalar values, not UTF-16 code units.
- LogMessagePlugin.DefaultsConcurrency: the invariant-culture case-insensitive comparison is modelled as ASCII case folding; the culture's folding of other letters and its disregard of zero-weight characters (a soft hyphen inside "update", say) are not modelled.
- LogMessagePlugin.UpdateInAnyCase: states the ASCII case folding of DefaultsConcurrency, not the invariant culture's comparison.
- Text.IntText: the threshold in the refusal trace is formatted with '-' as the negative sign; the current culture's own negative sign is not modelled.
- Doubles are reals. Only copying, comparison and `ToString` (a parameter) are applied to them.
