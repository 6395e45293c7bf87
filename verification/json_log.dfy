/** The text operations AiLogger applies to serialized envelopes:
    TrimPropertyValueLength, CreateJsonDataLog (brace doubling for the
    tracing service's format strings) and InsertMetricsJson (the textual
    injection of an event's measurements). */
module JsonLog {
  import opened Outcomes
  import opened Text

  /* ---------------------------------------------------------------------
     AiLogger.TrimPropertyValueLength. */

  /** The longest property value kept whole. */
  const MaxPropertyLength: nat := 8192

  /** A value longer than 8192 characters keeps its first 8191; a shorter
      one is kept as it is. */
  function TrimPropertyValueLength(value: string): (r: string)
    ensures |r| <= MaxPropertyLength && r <= value
    ensures r == value <==> |value| <= MaxPropertyLength
    ensures |value| > MaxPropertyLength ==> |r| == MaxPropertyLength - 1
  {
    Truncate(value, MaxPropertyLength)
  }

  /** Trimming a trimmed value changes nothing: the result is never longer
      than the limit. */
  lemma TrimIdempotent(value: string)
    ensures TrimPropertyValueLength(TrimPropertyValueLength(value)) == TrimPropertyValueLength(value)
  {
    TruncateIdempotent(value, MaxPropertyLength);
  }

  /* ---------------------------------------------------------------------
     AiLogger.CreateJsonDataLog. */

  /** `json.Replace("{", "{{").Replace("}", "}}")`. */
  function CreateJsonDataLog(json: string): string
  {
    ReplaceAll(ReplaceAll(json, "{", "{{"), "}", "}}")
  }

  /** The two passes double each brace once, so reading the result as a
      composite format string gives back the JSON. */
  lemma CreateJsonDataLogReadsBack(json: string)
    ensures CreateJsonDataLog(json) == DoubleBraces(json)
    ensures UnescapeBraces(CreateJsonDataLog(json)) == json
  {
    TwoPassDoubling(json);
    UnescapeDoubled(json);
  }

  predicate NoBraces(p: string)
  {
    forall i :: 0 <= i < |p| ==> p[i] != '{' && p[i] != '}'
  }

  /** A brace-free lead reads as itself in a format string. */
  lemma {:induction false} UnescapeAfterPlainText(p: string, t: string)
    requires NoBraces(p)
    ensures UnescapeBraces(p + t) == p + UnescapeBraces(t)
    decreases |p|
  {
    if p != [] {
      assert (p + t)[0] == p[0];
      assert (p + t)[1..] == p[1..] + t;
      UnescapeAfterPlainText(p[1..], t);
      assert [p[0]] + p[1..] == p;
    } else {
      assert p + t == t;
    }
  }

  const DebugJsonLead: string := "DEBUG: Application Insights JSON: "

  /** The debug line each WriteX traces before sending. */
  function DebugJsonLine(json: string): string
  {
    DebugJsonLead + CreateJsonDataLog(json)
  }

  /** The tracing service, which formats the line, shows the lead and the
      JSON exactly as it was serialized. */
  lemma DebugLineShowsJson(json: string)
    ensures UnescapeBraces(DebugJsonLine(json)) == DebugJsonLead + json
  {
    assert NoBraces(DebugJsonLead) by {
      forall i | 0 <= i < |DebugJsonLead|
        ensures DebugJsonLead[i] != '{' && DebugJsonLead[i] != '}'
      {
        assert DebugJsonLead[i] in DebugJsonLead;
      }
    }
    UnescapeAfterPlainText(DebugJsonLead, CreateJsonDataLog(json));
    CreateJsonDataLogReadsBack(json);
  }

  /* ---------------------------------------------------------------------
     AiLogger.InsertMetricsJson. */

  /** One entry of an event's measurement dictionary, in enumeration order. */
  datatype Measurement = Measurement(key: string, value: real)

  /** What the serializer writes for an event without measurements. */
  const Placeholder: string := "\"measurements\":null"

  const Opening: string := "\"measurements\":{"

  /** `$"\"{keyValuePair.Key}\": {keyValuePair.Value}"`; `show` is
      Double.ToString() under the current culture. */
  function PairText(m: Measurement, show: real -> string): string
  {
    "\"" + m.key + "\": " + show(m.value)
  }

  function Pairs(ms: seq<Measurement>, show: real -> string): (r: seq<string>)
    ensures |r| == |ms|
    ensures forall i :: 0 <= i < |ms| ==> r[i] == PairText(ms[i], show)
  {
    if ms == [] then [] else Pairs(ms[..|ms| - 1], show) + [PairText(ms[|ms| - 1], show)]
  }

  /** The replacement text: the pairs separated by ", " inside braces. */
  function MetricsObject(ms: seq<Measurement>, show: real -> string): string
  {
    Opening + Join(Pairs(ms, show), ", ") + "}"
  }

  /** What InsertMetricsJson returns: the JSON untouched for a null
      dictionary, otherwise every placeholder replaced by the object. */
  function InsertedMetrics(measurements: Option<seq<Measurement>>, json: string, show: real -> string): string
  {
    if measurements.None? then json
    else ReplaceAll(json, Placeholder, MetricsObject(measurements.value, show))
  }

  /** The counted loop of the source: `i` counts the pairs written so far,
      and ", " follows a pair while `i` has not reached the count. */
  method InsertMetricsJson(measurements: Option<seq<Measurement>>, json: string, show: real -> string)
    returns (r: string)
    ensures r == InsertedMetrics(measurements, json, show)
  {
    if measurements.None? {
      return json;
    }
    var ms := measurements.value;
    ghost var pairs := Pairs(ms, show);
    var replacement := Opening;
    var i := 0;
    for k := 0 to |ms|
      invariant i == k
      invariant k < |ms| ==> replacement == Opening + Terminated(pairs[..k], ", ")
      invariant k == |ms| ==> replacement == Opening + Join(pairs, ", ")
    {
      i := i + 1;
      replacement := replacement + ("\"" + ms[k].key + "\": " + show(ms[k].value));
      assert pairs[..k + 1] == pairs[..k] + [pairs[k]];
      if i != |ms| {
        replacement := replacement + ", ";
        TerminatedSnoc(pairs[..k], pairs[k], ", ");
        AppendThree(Opening, Terminated(pairs[..k], ", "), pairs[k], ", ");
      } else {
        JoinSnoc(pairs[..k], pairs[k], ", ");
        assert pairs[..k + 1] == pairs;
        AppendTwo(Opening, Terminated(pairs[..k], ", "), pairs[k]);
      }
    }
    if |ms| == 0 {
      assert replacement == Opening + Join(pairs, ", ") by {
        assert pairs == [];
        assert Opening + "" == Opening;
      }
    }
    replacement := replacement + "}";
    r := ReplaceAll(json, Placeholder, replacement);
  }

  /** A null dictionary, or JSON without the placeholder, is returned as it is. */
  lemma InsertedMetricsUnchanged(measurements: Option<seq<Measurement>>, json: string, show: real -> string)
    requires measurements.None? || !Occurs(json, Placeholder)
    ensures InsertedMetrics(measurements, json, show) == json
  {
    if measurements.Some? {
      ReplaceAllAbsent(json, Placeholder, MetricsObject(measurements.value, show));
    }
  }

  /** With one placeholder, between `p` and `q`, the object takes its place
      and the text around it is kept. */
  lemma InsertedMetricsOnce(p: string, q: string, ms: seq<Measurement>, show: real -> string)
    requires forall k :: 0 <= k < |p| ==> !MatchAt(p + Placeholder + q, Placeholder, k)
    requires !Occurs(q, Placeholder)
    ensures InsertedMetrics(Some(ms), p + Placeholder + q, show) == p + MetricsObject(ms, show) + q
  {
    var obj := MetricsObject(ms, show);
    ReplaceAllAtFirst(p, q, Placeholder, obj);
    ReplaceAllAbsent(q, Placeholder, obj);
  }

  /** An empty dictionary gives empty braces; a one-entry dictionary gives
      exactly its pair, with no separator. */
  lemma MetricsObjectSmall(m: Measurement, show: real -> string)
    ensures MetricsObject([], show) == "\"measurements\":{}"
    ensures MetricsObject([m], show) == "\"measurements\":{\"" + m.key + "\": " + show(m.value) + "}"
  {
    assert Pairs([], show) == [];
    assert Pairs([m], show) == [PairText(m, show)];
    JoinSnoc([], PairText(m, show), ", ");
    assert [] + [PairText(m, show)] == [PairText(m, show)];
  }
}
