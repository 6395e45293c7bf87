/** The type-directed value renderer `AiLogger.AppendValue`: given the full
    type name of a host value and the value itself, it appends a text form
    of the value to a StringBuilder, recursing into entities and entity
    collections.

    `Render` and its helpers state what is appended (or that the renderer
    throws); the `Append...` methods do it in place on a StringBuilder, as
    the source does, and are proved to append exactly `Render`'s text. */
module ValueFormatter {
  import opened Outcomes
  import opened Text
  import opened Builder

  /** The indent of an entity's lines: five spaces. */
  const Tab: string := "     "

  const DateTimeTag: string := "System.DateTime"
  const EntityReferenceTag: string := "Microsoft.Xrm.Sdk.EntityReference"
  const EntityTag: string := "Microsoft.Xrm.Sdk.Entity"
  const ColumnSetTag: string := "Microsoft.Xrm.Sdk.Query.ColumnSet"
  const QueryExpressionTag: string := "Microsoft.Xrm.Sdk.Query.QueryExpression"
  const FetchExpressionTag: string := "Microsoft.Xrm.Sdk.Query.FetchExpression"
  const EntityCollectionTag: string := "Microsoft.Xrm.Sdk.EntityCollection"
  const OptionSetValueTag: string := "Microsoft.Xrm.Sdk.OptionSetValue"
  const MoneyTag: string := "Microsoft.Xrm.Sdk.Money"
  const ConcurrencyBehaviorTag: string := "Microsoft.Xrm.Sdk.ConcurrencyBehavior"

  /** Types rendered as their quoted, quote-escaped ToString(). */
  const ScalarTags: set<string> :=
    {"System.Decimal", "System.Double", "System.Int32", "System.Boolean",
     "System.Single", "System.String", "System.Guid"}

  /** Types with a rendering of their own. */
  const StructuredTags: set<string> :=
    {DateTimeTag, EntityReferenceTag, EntityTag, ColumnSetTag, QueryExpressionTag,
     FetchExpressionTag, EntityCollectionTag, OptionSetValueTag, MoneyTag,
     ConcurrencyBehaviorTag}

  predicate IsKnownTag(t: string)
  {
    t in ScalarTags || t in StructuredTags
  }

  /** The case labels of the renderer's switch on the type name. */
  datatype TypeCase =
    | ScalarCase | DateTimeCase | EntityReferenceCase | EntityCase | ColumnSetCase
    | QueryExpressionCase | FetchExpressionCase | EntityCollectionCase
    | OptionSetValueCase | MoneyCase | ConcurrencyBehaviorCase
    | DefaultCase

  /** The case label a type name selects; null and unknown names take the default. */
  function Classify(tag: Option<string>): TypeCase
  {
    if tag.None? then DefaultCase
    else
      var t := tag.value;
      if t in ScalarTags then ScalarCase
      else if t == DateTimeTag then DateTimeCase
      else if t == EntityReferenceTag then EntityReferenceCase
      else if t == EntityTag then EntityCase
      else if t == ColumnSetTag then ColumnSetCase
      else if t == QueryExpressionTag then QueryExpressionCase
      else if t == FetchExpressionTag then FetchExpressionCase
      else if t == EntityCollectionTag then EntityCollectionCase
      else if t == OptionSetValueTag then OptionSetValueCase
      else if t == MoneyTag then MoneyCase
      else if t == ConcurrencyBehaviorTag then ConcurrencyBehaviorCase
      else DefaultCase
  }

  /** A key/value pair: an entity attribute or an entry of a parameter collection. */
  datatype Entry = Entry(key: string, value: HostValue)

  /** A value handed over by the host, by its runtime class. Texts that .NET
      formats (Guid, DateTime, decimal, enum labels) are given already formatted. */
  datatype HostValue =
    | Null
      /** any object of a class without a rendering of its own (a scalar or an
          unknown type), with its full type name and its ToString() */
    | Primitive(typeName: string, text: string)
      /** a DateTime, already formatted as yyyy-MM-dd HH:mm:ss "GMT"zzz */
    | DateTime(text: string)
    | EntityReference(id: string, logicalName: string)
    | Entity(id: string, logicalName: string, attributes: seq<Entry>)
    | ColumnSet(columns: seq<string>)
      /** columnSet is Null or a ColumnSet */
    | QueryExpression(entityName: string, topCount: Option<int>, columnSet: HostValue)
    | FetchExpression(query: string)
    | EntityCollection(entities: seq<HostValue>)
    | OptionSetValue(option: int)
      /** amount formatted with the current culture */
    | Money(amount: string)
    | ConcurrencyBehavior(name: string)

  /** What the model needs from the host and from code outside the core. */
  datatype Host = Host(
    /** IOrganizationService.Execute of QueryExpressionToFetchXmlRequest; None when it throws */
    fetchXml: HostValue -> Option<string>,
    /** AiLogger.FormatXml: indented XML, or "" when the text is not XML */
    formatXml: string -> string,
    /** Object.ToString() of the host classes that have no text field here */
    describe: HostValue -> string,
    /** IOrganizationService.Execute of RetrieveVersionRequest; None when it throws */
    version: Option<string>,
    /** Exception.Message of the exception a fault stands for */
    message: Fault -> string,
    /** AiProperties.GetStageName, which is not part of this model */
    stageName: int -> string)

  /** `value?.GetType().FullName`: None for null. */
  function RuntimeType(v: HostValue): Option<string>
  {
    match v
    case Null => None
    case Primitive(t, _) => Some(t)
    case DateTime(_) => Some(DateTimeTag)
    case EntityReference(_, _) => Some(EntityReferenceTag)
    case Entity(_, _, _) => Some(EntityTag)
    case ColumnSet(_) => Some(ColumnSetTag)
    case QueryExpression(_, _, _) => Some(QueryExpressionTag)
    case FetchExpression(_) => Some(FetchExpressionTag)
    case EntityCollection(_) => Some(EntityCollectionTag)
    case OptionSetValue(_) => Some(OptionSetValueTag)
    case Money(_) => Some(MoneyTag)
    case ConcurrencyBehavior(_) => Some(ConcurrencyBehaviorTag)
  }

  /** A possibly-null string as string interpolation writes it. */
  function TagText(tag: Option<string>): string
  {
    if tag.None? then "" else tag.value
  }

  /** `{value}` in an interpolated string: "" for null, else ToString(). */
  function Display(host: Host, v: HostValue): string
  {
    match v
    case Null => ""
    case Primitive(_, text) => text
    case _ => host.describe(v)
  }

  function Quoted(s: string): string
  {
    "\"" + s + "\""
  }

  /** The exception a cast to the wrong class raises: dereferencing null,
      or an invalid cast. */
  function CastFault(v: HostValue): Fault
  {
    if v.Null? then NullReference else InvalidCast
  }

  /* ---------------------------------------------------------------------
     What each branch appends. */

  function UndefinedText(host: Host, tag: Option<string>, v: HostValue): string
  {
    "\"Undefined Type - " + TagText(tag) + ", Value: " + Display(host, v) + "\""
  }

  function ReferenceText(r: HostValue): string
    requires r.EntityReference?
  {
    "Id: \"" + r.id + "\", LogicalName: \"" + r.logicalName + "\""
  }

  function EntityHeader(e: HostValue): string
    requires e.Entity?
  {
    "\r\n{\r\n" + Tab + "Id: " + e.id + ",\r\n" + Tab + "LogicalName: " + e.logicalName
  }

  /** The header split as AppendEntityHeader writes it: the opening brace
      line, then the Id and LogicalName lines in one append. */
  lemma EntityHeaderParts(e: HostValue)
    requires e.Entity?
    ensures EntityHeader(e) == "\r\n{\r\n" + (Tab + "Id: " + e.id + ",\r\n" + Tab + "LogicalName: " + e.logicalName)
  {
  }

  function AttributeLead(a: Entry): string
  {
    ",\r\n" + Tab + a.key + ": "
  }

  /** The columns of a ColumnSet; `value as ColumnSet` is null otherwise. */
  function Columns(v: HostValue): seq<string>
  {
    if v.ColumnSet? then v.columns else []
  }

  function QuoteEach(xs: seq<string>): (r: seq<string>)
    ensures |r| == |xs|
    ensures forall i :: 0 <= i < |xs| ==> r[i] == Quoted(xs[i])
  {
    if xs == [] then [] else QuoteEach(xs[..|xs| - 1]) + [Quoted(xs[|xs| - 1])]
  }

  function ColumnSetText(v: HostValue): string
  {
    "[" + Join(QuoteEach(Columns(v)), ", ") + " ]"
  }

  function TopText(top: Option<int>): string
  {
    if top.None? then "" else IntText(top.value)
  }

  function QueryHead(q: HostValue): string
    requires q.QueryExpression?
  {
    "EntityName: \"" + q.entityName + "\", Top: \"" + TopText(q.topCount) + "\""
      + ", Columns:" + ColumnSetText(q.columnSet) + ", " + NewLine
  }

  function QueryText(host: Host, q: HostValue): Result<string>
    requires q.QueryExpression?
  {
    match host.fetchXml(q)
    case None => Err(ServiceFault)
    case Some(xml) => Ok(QueryHead(q) + "Query: \r\n" + host.formatXml(xml))
  }

  /** The text of a value under a type tag, or the exception it throws. */
  function Render(host: Host, tag: Option<string>, v: HostValue): Result<string>
    decreases v, 2, 0
  {
    match Classify(tag)
    case DefaultCase => Ok(UndefinedText(host, tag, v))
    case ScalarCase =>
      if v.Null? then Err(NullReference) else Ok(Quoted(EscapeQuotes(Display(host, v))))
    case DateTimeCase =>
      if v.DateTime? then Ok(Quoted(v.text)) else Err(CastFault(v))
    case EntityReferenceCase =>
      if v.EntityReference? then Ok(ReferenceText(v)) else Err(CastFault(v))
    case EntityCase =>
      if v.Entity? then EntityText(host, v) else Ok("NULL")
    case ColumnSetCase =>
      Ok(ColumnSetText(v))
    case QueryExpressionCase =>
      if v.QueryExpression? then QueryText(host, v) else Err(CastFault(v))
    case FetchExpressionCase =>
      if v.FetchExpression? then Ok("Query: \r\n" + host.formatXml(v.query)) else Err(CastFault(v))
    case EntityCollectionCase =>
      if v.EntityCollection? then CollectionText(host, v) else Err(CastFault(v))
    case OptionSetValueCase =>
      if v.OptionSetValue? then Ok(Quoted(IntText(v.option))) else Err(CastFault(v))
    case MoneyCase =>
      if v.Money? then Ok(Quoted(v.amount)) else Err(CastFault(v))
    case ConcurrencyBehaviorCase =>
      if v.ConcurrencyBehavior? then Ok(Quoted(v.name)) else Err(CastFault(v))
  }

  function EntityText(host: Host, e: HostValue): Result<string>
    requires e.Entity?
    decreases e, 1, 0
  {
    var items :- AttributeItems(host, e, |e.attributes|);
    Ok(EntityHeader(e) + Concat(items) + "\r\n}" + NewLine)
  }

  /** The texts of the first n attributes, each rendered under its own runtime type. */
  function AttributeItems(host: Host, e: HostValue, n: nat): Result<seq<string>>
    requires e.Entity? && n <= |e.attributes|
    decreases e, 0, n
  {
    if n == 0 then Ok([])
    else
      var prev :- AttributeItems(host, e, n - 1);
      var item :- AttributeItem(host, e.attributes[n - 1]);
      Ok(prev + [item])
  }

  /** One attribute: its lead and its value rendered under its own runtime type. */
  function AttributeItem(host: Host, a: Entry): Result<string>
    decreases a, 0, 0
  {
    var body :- Render(host, RuntimeType(a.value), a.value);
    Ok(AttributeLead(a) + body)
  }

  function CollectionText(host: Host, c: HostValue): Result<string>
    requires c.EntityCollection?
    decreases c, 1, 0
  {
    var items :- MemberItems(host, c, |c.entities|);
    Ok("[" + Join(items, ", "))
  }

  /** The texts of the first n members, each a line break and the member
      rendered under its own runtime type; `e.GetType()` throws on null. */
  function MemberItems(host: Host, c: HostValue, n: nat): Result<seq<string>>
    requires c.EntityCollection? && n <= |c.entities|
    decreases c, 0, n
  {
    if n == 0 then Ok([])
    else
      var prev :- MemberItems(host, c, n - 1);
      var item :- MemberItem(host, c.entities[n - 1]);
      Ok(prev + [item])
  }

  /** One member: a line break and the member rendered under its own runtime type. */
  function MemberItem(host: Host, m: HostValue): Result<string>
    decreases m, 3, 0
  {
    if m.Null? then Err(NullReference)
    else
      var body :- Render(host, RuntimeType(m), m);
      Ok(NewLine + body)
  }

  lemma {:induction false} AttributeItemsFail(host: Host, e: HostValue, k: nat, n: nat)
    requires e.Entity? && k <= n <= |e.attributes|
    requires AttributeItems(host, e, k).Err?
    ensures AttributeItems(host, e, n).Err?
    decreases n - k
  {
    if k < n {
      AttributeItemsFail(host, e, k, n - 1);
    }
  }

  lemma {:induction false} MemberItemsFail(host: Host, c: HostValue, k: nat, n: nat)
    requires c.EntityCollection? && k <= n <= |c.entities|
    requires MemberItems(host, c, k).Err?
    ensures MemberItems(host, c, n).Err?
    decreases n - k
  {
    if k < n {
      MemberItemsFail(host, c, k, n - 1);
    }
  }

  /** One attribute more: its text is added to the items, or rendering
      fails for the whole entity. */
  lemma AttributeItemsStep(host: Host, e: HostValue, i: nat)
    requires e.Entity? && i < |e.attributes| && AttributeItems(host, e, i).Ok?
    ensures AttributeItem(host, e.attributes[i]).Ok? ==>
      AttributeItems(host, e, i + 1)
        == Ok(AttributeItems(host, e, i).value + [AttributeItem(host, e.attributes[i]).value])
    ensures AttributeItem(host, e.attributes[i]).Err? ==> AttributeItems(host, e, |e.attributes|).Err?
  {
    if AttributeItem(host, e.attributes[i]).Err? {
      AttributeItemsFail(host, e, i + 1, |e.attributes|);
    }
  }

  /** One member more: its text is added to the items, or rendering fails
      for the whole collection. */
  lemma MemberItemsStep(host: Host, c: HostValue, i: nat)
    requires c.EntityCollection? && i < |c.entities| && MemberItems(host, c, i).Ok?
    ensures MemberItem(host, c.entities[i]).Ok? ==>
      MemberItems(host, c, i + 1) == Ok(MemberItems(host, c, i).value + [MemberItem(host, c.entities[i]).value])
    ensures MemberItem(host, c.entities[i]).Err? ==> MemberItems(host, c, |c.entities|).Err?
  {
    if MemberItem(host, c.entities[i]).Err? {
      MemberItemsFail(host, c, i + 1, |c.entities|);
    }
  }

  /* ---------------------------------------------------------------------
     The renderer, in place on a StringBuilder. */

  method AppendValue(host: Host, tag: Option<string>, sb: StringBuilder, v: HostValue) returns (ok: bool)
    modifies sb
    decreases v, 2, 0
    ensures ok == Render(host, tag, v).Ok?
    ensures ok ==> sb.content == old(sb.content) + Render(host, tag, v).value
  {
    match Classify(tag)
    case DefaultCase =>
      sb.Append(UndefinedText(host, tag, v));
      ok := true;
    case ScalarCase =>
      if v.Null? {
        return false;
      }
      AppendQuoted(sb, EscapeQuotes(Display(host, v)));
      ok := true;
    case DateTimeCase =>
      if !v.DateTime? {
        return false;
      }
      AppendQuoted(sb, v.text);
      ok := true;
    case EntityReferenceCase =>
      if !v.EntityReference? {
        return false;
      }
      sb.Append(ReferenceText(v));
      ok := true;
    case EntityCase =>
      if !v.Entity? {
        sb.Append("NULL");
        return true;
      }
      ok := AppendEntity(host, sb, v);
    case ColumnSetCase =>
      AppendColumnSet(sb, v);
      ok := true;
    case QueryExpressionCase =>
      if !v.QueryExpression? {
        return false;
      }
      ok := AppendQueryExpression(host, sb, v);
    case FetchExpressionCase =>
      if !v.FetchExpression? {
        return false;
      }
      sb.Append("Query: \r\n");
      sb.Append(host.formatXml(v.query));
      ok := true;
    case EntityCollectionCase =>
      if !v.EntityCollection? {
        return false;
      }
      ok := AppendCollection(host, sb, v);
    case OptionSetValueCase =>
      if !v.OptionSetValue? {
        return false;
      }
      AppendQuoted(sb, IntText(v.option));
      ok := true;
    case MoneyCase =>
      if !v.Money? {
        return false;
      }
      AppendQuoted(sb, v.amount);
      ok := true;
    case ConcurrencyBehaviorCase =>
      if !v.ConcurrencyBehavior? {
        return false;
      }
      AppendQuoted(sb, v.name);
      ok := true;
  }

  /** `Append('"')`, the text, `Append('"')`. */
  method AppendQuoted(sb: StringBuilder, s: string)
    modifies sb
    ensures sb.content == old(sb.content) + Quoted(s)
  {
    sb.Append("\"");
    sb.Append(s);
    sb.Append("\"");
    AppendThree(old(sb.content), "\"", s, "\"");
  }

  method AppendEntity(host: Host, sb: StringBuilder, e: HostValue) returns (ok: bool)
    requires e.Entity?
    modifies sb
    decreases e, 1, 0
    ensures ok == EntityText(host, e).Ok?
    ensures ok ==> sb.content == old(sb.content) + EntityText(host, e).value
  {
    AppendEntityHeader(sb, e);
    ok := AppendAttributes(host, sb, e);
    if !ok {
      return;
    }
    ghost var body := Concat(AttributeItems(host, e, |e.attributes|).value);
    sb.AppendLine("\r\n}");
    AppendThree(old(sb.content), EntityHeader(e), body, "\r\n}" + NewLine);
  }

  /** `foreach (var attr in entity.Attributes)`: each attribute's lead and value. */
  method AppendAttributes(host: Host, sb: StringBuilder, e: HostValue) returns (ok: bool)
    requires e.Entity?
    modifies sb
    decreases e, 0, 1
    ensures ok == AttributeItems(host, e, |e.attributes|).Ok?
    ensures ok ==> sb.content == old(sb.content) + Concat(AttributeItems(host, e, |e.attributes|).value)
  {
    var i := 0;
    ghost var items: seq<string> := [];
    while i < |e.attributes|
      invariant 0 <= i <= |e.attributes|
      invariant AttributeItems(host, e, i) == Ok(items)
      invariant sb.content == old(sb.content) + Concat(items)
    {
      var rendered, piece := AppendNextAttribute(host, sb, e, i, items);
      if !rendered {
        return false;
      }
      ConcatSnocAfter(old(sb.content), items, piece);
      items := items + [piece];
      i := i + 1;
    }
    ok := true;
  }

  /** One pass of the attribute loop: the i-th attribute, whose text is `piece`. */
  method AppendNextAttribute(host: Host, sb: StringBuilder, e: HostValue, i: nat, ghost items: seq<string>)
    returns (ok: bool, ghost piece: string)
    requires e.Entity? && i < |e.attributes| && AttributeItems(host, e, i) == Ok(items)
    modifies sb
    decreases e, 0, 0
    ensures !ok ==> AttributeItems(host, e, |e.attributes|).Err?
    ensures ok ==> AttributeItems(host, e, i + 1) == Ok(items + [piece]) && sb.content == old(sb.content) + piece
  {
    ok := AppendAttribute(host, sb, e.attributes[i]);
    AttributeItemsStep(host, e, i);
    piece := if ok then AttributeItem(host, e.attributes[i]).value else "";
  }

  /** The opening brace, the Id line and the LogicalName of an entity. */
  method AppendEntityHeader(sb: StringBuilder, e: HostValue)
    requires e.Entity?
    modifies sb
    ensures sb.content == old(sb.content) + EntityHeader(e)
  {
    sb.Append("\r\n{\r\n");
    sb.Append(Tab + "Id: " + e.id + ",\r\n" + Tab + "LogicalName: " + e.logicalName);
    EntityHeaderParts(e);
    AppendTwo(old(sb.content), "\r\n{\r\n", Tab + "Id: " + e.id + ",\r\n" + Tab + "LogicalName: " + e.logicalName);
  }

  /** `sb.Append($",\r\n{tab}{attribute.Key}: ")` and the attribute's value. */
  method AppendAttribute(host: Host, sb: StringBuilder, a: Entry) returns (ok: bool)
    modifies sb
    decreases a, 0, 0
    ensures ok == AttributeItem(host, a).Ok?
    ensures ok ==> sb.content == old(sb.content) + AttributeItem(host, a).value
  {
    sb.Append(AttributeLead(a));
    ok := AppendValue(host, RuntimeType(a.value), sb, a.value);
    if ok {
      AppendTwo(old(sb.content), AttributeLead(a), Render(host, RuntimeType(a.value), a.value).value);
    }
  }

  method AppendColumnSet(sb: StringBuilder, v: HostValue)
    modifies sb
    ensures sb.content == old(sb.content) + ColumnSetText(v)
  {
    sb.Append("[");
    if v.ColumnSet? && |v.columns| > 0 {
      AppendColumns(sb, v.columns);
    }
    sb.Append(" ]");
    AppendThree(old(sb.content), "[", Join(QuoteEach(Columns(v)), ", "), " ]");
  }

  /** `foreach (var col in columns) sb.Append($"\"{col}\", ")` followed by
      the removal of the last separator. */
  method AppendColumns(sb: StringBuilder, cols: seq<string>)
    requires |cols| > 0
    modifies sb
    ensures sb.content == old(sb.content) + Join(QuoteEach(cols), ", ")
  {
    for i := 0 to |cols|
      invariant sb.content == old(sb.content) + Terminated(QuoteEach(cols[..i]), ", ")
    {
      ghost var quoted := QuoteEach(cols[..i]);
      sb.Append(Quoted(cols[i]) + ", ");
      assert cols[..i + 1][..i] == cols[..i];
      assert QuoteEach(cols[..i + 1]) == quoted + [Quoted(cols[i])];
      TerminatedSnoc(quoted, Quoted(cols[i]), ", ");
      AppendTwo(old(sb.content), Terminated(quoted, ", "), Quoted(cols[i]) + ", ");
    }
    assert cols[..|cols|] == cols;
    ghost var joined := Join(QuoteEach(cols), ", ");
    AppendTwo(old(sb.content), joined, ", ");
    sb.Remove(|sb.content| - 2, 2);
  }

  method AppendQueryExpression(host: Host, sb: StringBuilder, q: HostValue) returns (ok: bool)
    requires q.QueryExpression?
    modifies sb
    ensures ok == QueryText(host, q).Ok?
    ensures ok ==> sb.content == old(sb.content) + QueryText(host, q).value
  {
    AppendQueryHead(sb, q);
    var xml := host.fetchXml(q);
    if xml.None? {
      return false;
    }
    sb.Append("Query: \r\n");
    sb.Append(host.formatXml(xml.value));
    AppendThree(old(sb.content), QueryHead(q), "Query: \r\n", host.formatXml(xml.value));
    ok := true;
  }

  /** Entity name, top count and columns of a query, ending in a line break. */
  method AppendQueryHead(sb: StringBuilder, q: HostValue)
    requires q.QueryExpression?
    modifies sb
    ensures sb.content == old(sb.content) + QueryHead(q)
  {
    var lead := "EntityName: \"" + q.entityName + "\", Top: \"" + TopText(q.topCount) + "\"";
    sb.Append(lead);
    sb.Append(", Columns:");
    AppendColumnSet(sb, q.columnSet);
    sb.AppendLine(", ");
    assert sb.content == old(sb.content) + lead + ", Columns:" + ColumnSetText(q.columnSet) + ", " + NewLine;
    assert QueryHead(q) == lead + ", Columns:" + ColumnSetText(q.columnSet) + ", " + NewLine;
  }

  method AppendCollection(host: Host, sb: StringBuilder, c: HostValue) returns (ok: bool)
    requires c.EntityCollection?
    modifies sb
    decreases c, 1, 0
    ensures ok == CollectionText(host, c).Ok?
    ensures ok ==> sb.content == old(sb.content) + CollectionText(host, c).value
  {
    sb.Append("[");
    ghost var start := sb.content;
    ok := AppendMembers(host, sb, c);
    if !ok {
      return;
    }
    ghost var items := MemberItems(host, c, |c.entities|).value;
    ghost var joined := Join(items, ", ");
    if |c.entities| > 0 {
      assert items != [];
      AppendTwo(start, joined, ", ");
      sb.Remove(|sb.content| - 2, 2);
    }
    assert sb.content == start + joined;
    AppendTwo(old(sb.content), "[", joined);
  }

  /** `foreach (var e in entityCollection.Entities)`: a line break, the
      member and a separator, for each member. */
  method AppendMembers(host: Host, sb: StringBuilder, c: HostValue) returns (ok: bool)
    requires c.EntityCollection?
    modifies sb
    decreases c, 0, 1
    ensures ok == MemberItems(host, c, |c.entities|).Ok?
    ensures ok ==> sb.content == old(sb.content) + Terminated(MemberItems(host, c, |c.entities|).value, ", ")
  {
    var members := c.entities;
    var i := 0;
    ghost var items: seq<string> := [];
    while i < |members|
      invariant 0 <= i <= |members|
      invariant MemberItems(host, c, i) == Ok(items)
      invariant sb.content == old(sb.content) + Terminated(items, ", ")
    {
      var rendered, piece := AppendNextMember(host, sb, c, i, items);
      if !rendered {
        return false;
      }
      sb.Append(", ");
      TerminatedSnocAfter(old(sb.content), items, piece, ", ");
      items := items + [piece];
      i := i + 1;
    }
    ok := true;
  }

  /** One pass of the member loop, before its separator: the i-th member,
      whose text is `piece`. */
  method AppendNextMember(host: Host, sb: StringBuilder, c: HostValue, i: nat, ghost items: seq<string>)
    returns (ok: bool, ghost piece: string)
    requires c.EntityCollection? && i < |c.entities| && MemberItems(host, c, i) == Ok(items)
    modifies sb
    decreases c, 0, 0
    ensures !ok ==> MemberItems(host, c, |c.entities|).Err?
    ensures ok ==> MemberItems(host, c, i + 1) == Ok(items + [piece]) && sb.content == old(sb.content) + piece
  {
    ok := AppendMember(host, sb, c.entities[i]);
    MemberItemsStep(host, c, i);
    piece := if ok then MemberItem(host, c.entities[i]).value else "";
  }

  /** `sb.AppendLine()`, then the member under its own runtime type;
      `e.GetType()` on a null member throws before anything else is appended. */
  method AppendMember(host: Host, sb: StringBuilder, m: HostValue) returns (ok: bool)
    modifies sb
    decreases m, 3, 0
    ensures ok == MemberItem(host, m).Ok?
    ensures ok ==> sb.content == old(sb.content) + MemberItem(host, m).value
  {
    sb.AppendLine("");
    if m.Null? {
      return false;
    }
    ok := AppendValue(host, RuntimeType(m), sb, m);
    if ok {
      assert old(sb.content) + "" + NewLine == old(sb.content) + NewLine;
      AppendTwo(old(sb.content), NewLine, Render(host, RuntimeType(m), m).value);
    }
  }
}
