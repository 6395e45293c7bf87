/** AiLogger.TraceParameters: the text of an execution context's input or
    output parameters, one line per parameter, each value rendered by the
    value renderer under its own runtime type. */
module ParameterTrace {
  import opened Outcomes
  import opened Text
  import opened Builder
  import opened ValueFormatter

  /** The longest trace kept whole; a longer one keeps its first 8191 characters. */
  const MaxTraceLength: nat := 8192

  function Direction(input: bool): string
  {
    if input then "Input" else "Output"
  }

  /** `$"{parameterType} Parameter({typeFullname}): {parameter.Key}: "`. */
  function LinePrefix(input: bool, p: Entry): string
  {
    Direction(input) + " Parameter(" + TagText(RuntimeType(p.value)) + "): " + p.key + ": "
  }

  /** One parameter's line: its prefix and its value rendered under its own type. */
  function TraceLine(host: Host, input: bool, p: Entry): Result<string>
  {
    var body :- Render(host, RuntimeType(p.value), p.value);
    Ok(LinePrefix(input, p) + body)
  }

  /** TraceLine for one execution context and direction. */
  function LineOf(host: Host, input: bool): Entry -> Result<string>
  {
    p => TraceLine(host, input, p)
  }

  /** The lines of all parameters, or the first exception the renderer throws. */
  function TraceLines(host: Host, input: bool, ps: seq<Entry>): Result<seq<string>>
  {
    MapAll(LineOf(host, input), ps)
  }

  /** The parameters of the chosen direction are null or empty. */
  predicate NoParameters(parameters: Option<seq<Entry>>)
  {
    parameters.None? || parameters.value == []
  }

  /** What TraceParameters returns: None for a null or empty collection and
      when rendering throws (the exception is caught); otherwise the lines
      joined by line breaks, truncated. */
  function TraceText(host: Host, input: bool, parameters: Option<seq<Entry>>): Option<string>
  {
    if NoParameters(parameters) then None
    else
      match TraceLines(host, input, parameters.value)
      case Err(_) => None
      case Ok(lines) => Some(Truncate(Join(lines, NewLine), MaxTraceLength))
  }

  /** The line the catch block writes to the tracing service, if it runs. */
  function TraceError(host: Host, input: bool, parameters: Option<seq<Entry>>): Option<string>
  {
    if NoParameters(parameters) then None
    else
      match TraceLines(host, input, parameters.value)
      case Err(f) => Some("ERROR: Tracing parameters: " + host.message(f))
      case Ok(_) => None
  }

  /** TraceParameters: null or empty parameters give nothing; otherwise the
      lines, truncated, or the caught exception's trace line. */
  method TraceParameters(host: Host, input: bool, parameters: Option<seq<Entry>>)
    returns (r: Option<string>, error: Option<string>)
    ensures r == TraceText(host, input, parameters)
    ensures error == TraceError(host, input, parameters)
  {
    if parameters.None? || |parameters.value| == 0 {
      return None, None;
    }
    var sb := new StringBuilder();
    var fault := AppendParameterLines(host, input, sb, parameters.value);
    if fault.Some? {
      return None, Some("ERROR: Tracing parameters: " + host.message(fault.value));
    }
    var result := sb.content;
    assert result == Join(TraceLines(host, input, parameters.value).value, NewLine) by {
      assert [] + Join(TraceLines(host, input, parameters.value).value, NewLine)
        == Join(TraceLines(host, input, parameters.value).value, NewLine);
    }
    r := Some(if |result| > MaxTraceLength then result[..MaxTraceLength - 1] else result);
    error := None;
  }

  /** The loop of TraceParameters: a line break goes after every line while
      the counter `i`, which starts at 1 and is incremented after each
      parameter, has not passed the count. */
  method AppendParameterLines(host: Host, input: bool, sb: StringBuilder, ps: seq<Entry>)
    returns (fault: Option<Fault>)
    requires ps != []
    modifies sb
    ensures fault.None? <==> TraceLines(host, input, ps).Ok?
    ensures fault.Some? ==> TraceLines(host, input, ps) == Err(fault.value)
    ensures fault.None? ==>
      sb.content == old(sb.content) + Join(TraceLines(host, input, ps).value, NewLine)
  {
    var i := 1;
    ghost var lines: seq<string> := [];
    for k := 0 to |ps|
      invariant i == k + 1
      invariant MapAll(LineOf(host, input), ps[..k]) == Ok(lines)
      invariant k < |ps| ==> sb.content == old(sb.content) + Terminated(lines, NewLine)
      invariant k == |ps| ==> sb.content == old(sb.content) + Join(lines, NewLine)
    {
      var rendered := AppendParameter(host, input, sb, ps[k]);
      MapAllStep(LineOf(host, input), ps, k);
      if rendered.Err? {
        MapAllFails(LineOf(host, input), ps, k + 1);
        return Some(rendered.fault);
      }
      ghost var line := TraceLine(host, input, ps[k]).value;
      i := i + 1;
      if i <= |ps| {
        sb.Append(NewLine);
        TerminatedSnoc(lines, line, NewLine);
        AppendThree(old(sb.content), Terminated(lines, NewLine), line, NewLine);
      } else {
        JoinSnoc(lines, line, NewLine);
        AppendTwo(old(sb.content), Terminated(lines, NewLine), line);
      }
      lines := lines + [line];
    }
    assert ps[..|ps|] == ps;
    fault := None;
  }

  /** The body of the loop: one parameter's prefix and value. */
  method AppendParameter(host: Host, input: bool, sb: StringBuilder, p: Entry) returns (rendered: Result<()>)
    modifies sb
    ensures rendered.Ok? == TraceLine(host, input, p).Ok?
    ensures rendered.Err? ==> TraceLine(host, input, p) == Err(rendered.fault)
    ensures rendered.Ok? ==> sb.content == old(sb.content) + TraceLine(host, input, p).value
  {
    var typeFullname := RuntimeType(p.value);
    sb.Append(LinePrefix(input, p));
    var ok := AppendValue(host, typeFullname, sb, p.value);
    if !ok {
      return Err(Render(host, typeFullname, p.value).fault);
    }
    AppendTwo(old(sb.content), LinePrefix(input, p), Render(host, typeFullname, p.value).value);
    rendered := Ok(());
  }

  /** Rendering succeeds exactly when every parameter renders, and then
      line i is the i-th parameter's line. */
  lemma TraceLinesAt(host: Host, input: bool, ps: seq<Entry>)
    ensures TraceLines(host, input, ps).Ok? <==>
      forall i :: 0 <= i < |ps| ==> TraceLine(host, input, ps[i]).Ok?
    ensures TraceLines(host, input, ps).Ok? ==>
      var lines := TraceLines(host, input, ps).value;
      |lines| == |ps| &&
      forall i :: 0 <= i < |ps| ==> TraceLine(host, input, ps[i]) == Ok(lines[i])
  {
    MapAllAt(LineOf(host, input), ps);
  }

  /** Exactly one of the trace and the error line is present when there are
      parameters, and neither when there are none; the trace is the joined
      lines, cut to 8191 characters when longer than 8192 and kept whole
      otherwise. */
  lemma TraceTextShape(host: Host, input: bool, parameters: Option<seq<Entry>>)
    ensures NoParameters(parameters) ==>
      TraceText(host, input, parameters).None? && TraceError(host, input, parameters).None?
    ensures !NoParameters(parameters) ==>
      (TraceText(host, input, parameters).Some? <==> TraceError(host, input, parameters).None?)
    ensures !NoParameters(parameters) ==>
      var ps := parameters.value;
      var lines := TraceLines(host, input, ps);
      (TraceText(host, input, parameters).None? <==> lines.Err?) &&
      (lines.Ok? ==>
        var full := Join(lines.value, NewLine);
        var t := TraceText(host, input, parameters).value;
        t <= full && |t| <= MaxTraceLength &&
        (|full| <= MaxTraceLength ==> t == full) &&
        (|full| > MaxTraceLength ==> |t| == MaxTraceLength - 1))
  {
  }

  /** The first line opens with the first parameter's prefix, and when there
      are more lines a line break separates it from the rest. */
  lemma FirstLine(host: Host, input: bool, ps: seq<Entry>)
    requires ps != [] && TraceLines(host, input, ps).Ok?
    ensures var lines := TraceLines(host, input, ps).value;
      |lines| == |ps| &&
      LinePrefix(input, ps[0]) <= Join(lines, NewLine) &&
      (|ps| > 1 ==> lines[0] + NewLine <= Join(lines, NewLine))
  {
    var lines := TraceLines(host, input, ps).value;
    assert |lines| == |ps| && TraceLine(host, input, ps[0]) == Ok(lines[0]) by {
      TraceLinesAt(host, input, ps);
    }
    FirstLineOf(lines, LinePrefix(input, ps[0]));
  }

  /** The text-level step of FirstLine: a prefix of the first piece is a
      prefix of the joined text, and so is the first piece with its separator. */
  lemma FirstLineOf(lines: seq<string>, prefix: string)
    requires lines != [] && prefix <= lines[0]
    ensures prefix <= Join(lines, NewLine)
    ensures |lines| > 1 ==> lines[0] + NewLine <= Join(lines, NewLine)
  {
    var rest := lines[1..];
    assert [lines[0]] + rest == lines;
    JoinCons(lines[0], rest, NewLine);
    if rest != [] {
      AppendTwo(lines[0], NewLine, Join(rest, NewLine));
      PrefixOfAppend(lines[0] + NewLine, Join(rest, NewLine), "");
      assert lines[0] + NewLine + Join(rest, NewLine) + "" == Join(lines, NewLine);
      assert prefix <= lines[0] + NewLine;
    }
  }
}
