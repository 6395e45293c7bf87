/** What the renderer's output looks like, case by case, and the fact that a
    value rendered under its own runtime type never fails with a cast fault. */
module RenderingFacts {
  import opened Outcomes
  import opened Text
  import opened Builder
  import opened ValueFormatter

  /* ---------------------------------------------------------------------
     Dispatch. */

  /** A type name takes the default branch exactly when it is not one of
      the switch's case labels. */
  lemma DefaultCaseIffUnknown(tag: Option<string>)
    ensures Classify(tag) == DefaultCase <==> tag.None? || !IsKnownTag(tag.value)
  {
    if tag.Some? && IsKnownTag(tag.value) {
      var t := tag.value;
      assert t in ScalarTags || t == DateTimeTag || t == EntityReferenceTag || t == EntityTag
        || t == ColumnSetTag || t == QueryExpressionTag || t == FetchExpressionTag
        || t == EntityCollectionTag || t == OptionSetValueTag || t == MoneyTag
        || t == ConcurrencyBehaviorTag;
    }
  }

  /** The unknown-type fallback: null or unknown type names never throw. */
  lemma UndefinedFallback(host: Host, tag: Option<string>, v: HostValue)
    requires tag.None? || !IsKnownTag(tag.value)
    ensures Render(host, tag, v) == Ok("\"Undefined Type - " + TagText(tag) + ", Value: " + Display(host, v) + "\"")
  {
    DefaultCaseIffUnknown(tag);
  }

  /** A null attribute value has no runtime type and renders as an undefined type. */
  lemma NullAttributeRendering(host: Host)
    ensures Render(host, RuntimeType(Null), Null) == Ok("\"Undefined Type - , Value: \"")
  {
    UndefinedFallback(host, None, Null);
    assert TagText(None) == "" && Display(host, Null) == "";
    assert "\"Undefined Type - " + "" == "\"Undefined Type - ";
    assert "\"Undefined Type - " + ", Value: " == "\"Undefined Type - , Value: ";
    assert "\"Undefined Type - , Value: " + "" + "\"" == "\"Undefined Type - , Value: \"";
  }

  /** The case label each host class selects through its own runtime type name. */
  function OwnCase(v: HostValue): TypeCase
    requires !v.Null? && !v.Primitive?
  {
    match v
    case DateTime(_) => DateTimeCase
    case EntityReference(_, _) => EntityReferenceCase
    case Entity(_, _, _) => EntityCase
    case ColumnSet(_) => ColumnSetCase
    case QueryExpression(_, _, _) => QueryExpressionCase
    case FetchExpression(_) => FetchExpressionCase
    case EntityCollection(_) => EntityCollectionCase
    case OptionSetValue(_) => OptionSetValueCase
    case Money(_) => MoneyCase
    case ConcurrencyBehavior(_) => ConcurrencyBehaviorCase
  }

  lemma ClassifyRuntimeType(v: HostValue)
    requires !v.Null? && !v.Primitive?
    ensures Classify(RuntimeType(v)) == OwnCase(v)
  {
    var t := RuntimeType(v).value;
    assert t in StructuredTags;
    assert t !in ScalarTags by {
      forall s | s in ScalarTags
        ensures s != t
      {
        assert |s| < |t|;
      }
    }
  }

  /* ---------------------------------------------------------------------
     Scalars and the quoted forms. */

  /** A scalar renders as its text between double quotes with every inner
      quote escaped, so the only raw quotes are the two delimiters; a null
      scalar throws. */
  lemma ScalarRendering(host: Host, t: string, v: HostValue)
    requires t in ScalarTags
    ensures v.Null? ==> Render(host, Some(t), v) == Err(NullReference)
    ensures !v.Null? ==> Render(host, Some(t), v) == Ok(Quoted(EscapeQuotes(Display(host, v))))
    ensures !v.Null? ==>
      var r := Render(host, Some(t), v).value;
      |r| >= 2 && r[0] == '"' && r[|r| - 1] == '"' && '"' !in r[1..|r| - 1]
    ensures !v.Null? && '"' !in Display(host, v) ==> Render(host, Some(t), v) == Ok(Quoted(Display(host, v)))
  {
    if !v.Null? {
      var body := EscapeQuotes(Display(host, v));
      EscapedHasNoQuote(Display(host, v));
      assert Quoted(body)[1..|Quoted(body)| - 1] == body;
    }
  }

  /** A reference renders unquoted as `Id: "<id>", LogicalName: "<name>"`;
      anything else under that label throws. */
  lemma ReferenceRendering(host: Host, v: HostValue)
    ensures v.EntityReference? ==>
      Render(host, Some(EntityReferenceTag), v) == Ok("Id: \"" + v.id + "\", LogicalName: \"" + v.logicalName + "\"")
    ensures !v.EntityReference? ==> Render(host, Some(EntityReferenceTag), v) == Err(CastFault(v))
  {
    ClassifyRuntimeType(EntityReference("", ""));
  }

  /* ---------------------------------------------------------------------
     Column sets. */

  /** Under the ColumnSet label every value renders; a null, non-ColumnSet
      or empty column set renders `[ ]`. */
  lemma EmptyColumnSetRendering(host: Host, v: HostValue)
    ensures Render(host, Some(ColumnSetTag), v) == Ok(ColumnSetText(v))
    ensures Columns(v) == [] ==> ColumnSetText(v) == "[ ]"
  {
    ClassifyRuntimeType(ColumnSet([]));
  }

  /** A non-empty column set opens with its first quoted column. */
  lemma ColumnSetOpens(cs: seq<string>)
    requires cs != []
    ensures "[" + Quoted(cs[0]) <= ColumnSetText(ColumnSet(cs))
  {
    var qs := QuoteEach(cs);
    var rest := if qs[1..] == [] then "" else ", " + Join(qs[1..], ", ");
    assert Join(qs, ", ") == qs[0] + rest by {
      assert [qs[0]] + qs[1..] == qs;
      JoinCons(qs[0], qs[1..], ", ");
      if qs[1..] != [] {
        AppendTwo(qs[0], ", ", Join(qs[1..], ", "));
      }
    }
    assert ColumnSetText(ColumnSet(cs)) == "[" + qs[0] + rest + " ]" by {
      AppendTwo("[", qs[0], rest);
    }
    PrefixOfAppend("[" + qs[0], rest, " ]");
  }

  /** In a non-empty column set every column but the last is followed by
      the separator, and the last one directly by ` ]`: the final separator
      is removed. */
  lemma ColumnSetCloses(cs: seq<string>)
    requires cs != []
    ensures ColumnSetText(ColumnSet(cs))
      == "[" + Terminated(QuoteEach(cs[..|cs| - 1]), ", ") + Quoted(cs[|cs| - 1]) + " ]"
  {
    var qs := QuoteEach(cs);
    var n := |cs|;
    assert qs[..n - 1] == QuoteEach(cs[..n - 1]);
  }

  /* ---------------------------------------------------------------------
     Entities: the NULL form and the attribute block. */

  lemma NullEntityRendering(host: Host, v: HostValue)
    requires !v.Entity?
    ensures Render(host, Some(EntityTag), v) == Ok("NULL")
  {
    ClassifyRuntimeType(Entity("", "", []));
  }

  /** When rendering succeeds, the attribute items are, in order, each
      attribute's lead followed by its value rendered under its own type. */
  lemma {:induction false} AttributeItemsAt(host: Host, e: HostValue, n: nat)
    requires e.Entity? && n <= |e.attributes|
    requires AttributeItems(host, e, n).Ok?
    ensures var items := AttributeItems(host, e, n).value;
      |items| == n &&
      forall i :: 0 <= i < n ==>
        AttributeItem(host, e.attributes[i]).Ok? && items[i] == AttributeItem(host, e.attributes[i]).value
    decreases n
  {
    if n > 0 {
      AttributeItemsAt(host, e, n - 1);
      var prev := AttributeItems(host, e, n - 1).value;
      assert AttributeItems(host, e, n).value == prev + [AttributeItem(host, e.attributes[n - 1]).value];
    }
  }

  /** An entity renders as its header (a brace on a line of its own, then
      its Id and its LogicalName on tab-indented lines), its attribute items
      in order and a closing brace on a line of its own. */
  lemma EntityRendering(host: Host, e: HostValue)
    requires e.Entity?
    ensures Render(host, Some(EntityTag), e) == EntityText(host, e)
    ensures EntityText(host, e).Ok? ==>
      var r := EntityText(host, e).value;
      var h := EntityHeader(e);
      |r| >= |h| + 5 && r[..|h|] == h && r[|r| - 5..] == "\r\n}\r\n"
    ensures EntityText(host, e).Ok? ==>
      "\r\n{\r\n" + Tab + "Id: " + e.id + ",\r\n" + Tab + "LogicalName: " + e.logicalName
        <= EntityText(host, e).value
  {
    ClassifyRuntimeType(Entity("", "", []));
    if EntityText(host, e).Ok? {
      var r := EntityText(host, e).value;
      var h := EntityHeader(e);
      var body := Concat(AttributeItems(host, e, |e.attributes|).value);
      assert r == h + (body + "\r\n}\r\n");
    }
  }

  /* ---------------------------------------------------------------------
     Entity collections. */

  /** When rendering succeeds, the member items are, in order, a line break
      followed by each member rendered under its own type; no member is null. */
  lemma {:induction false} MemberItemsAt(host: Host, c: HostValue, n: nat)
    requires c.EntityCollection? && n <= |c.entities|
    requires MemberItems(host, c, n).Ok?
    ensures var items := MemberItems(host, c, n).value;
      |items| == n &&
      forall i :: 0 <= i < n ==>
        MemberItem(host, c.entities[i]).Ok? && items[i] == MemberItem(host, c.entities[i]).value
    decreases n
  {
    if n > 0 {
      MemberItemsAt(host, c, n - 1);
      var prev := MemberItems(host, c, n - 1).value;
      assert MemberItems(host, c, n).value == prev + [MemberItem(host, c.entities[n - 1]).value];
    }
  }

  /** Under the EntityCollection label a collection renders as its own
      text; an empty one renders `[` alone, with no closing bracket. */
  lemma CollectionRendering(host: Host, c: HostValue)
    requires c.EntityCollection?
    ensures Render(host, Some(EntityCollectionTag), c) == CollectionText(host, c)
    ensures c.entities == [] ==> CollectionText(host, c) == Ok("[")
  {
    ClassifyRuntimeType(EntityCollection([]));
    if c.entities == [] {
      assert "[" + Join([], ", ") == "[";
    }
  }

  /** A non-empty collection opens with `[` and ends with its last member's
      text: the trailing separator is removed and no `]` follows. */
  lemma CollectionEndsWithLastMember(host: Host, c: HostValue)
    requires c.EntityCollection? && c.entities != []
    requires CollectionText(host, c).Ok?
    ensures var m := c.entities[|c.entities| - 1];
      Render(host, RuntimeType(m), m).Ok? &&
      var r := CollectionText(host, c).value;
      var last := Render(host, RuntimeType(m), m).value;
      r[0] == '[' && |r| >= |last| && r[|r| - |last|..] == last
  {
    var n := |c.entities|;
    var items := MemberItems(host, c, n).value;
    var m := c.entities[n - 1];
    MemberItemsAt(host, c, n);
    assert MemberItem(host, m).Ok?;
    var last := Render(host, RuntimeType(m), m).value;
    assert items[n - 1] == NewLine + last;
    assert CollectionText(host, c).value == "[" + Join(items, ", ");
    OpenJoinEndsWith(items, NewLine, last);
  }

  /** The text step of CollectionEndsWithLastMember: `[` and pieces joined
      by ", " open with `[` and end with the end of the last piece. */
  lemma OpenJoinEndsWith(items: seq<string>, lead: string, last: string)
    requires items != [] && items[|items| - 1] == lead + last
    ensures var r := "[" + Join(items, ", ");
      r[0] == '[' && |r| >= |last| && r[|r| - |last|..] == last
  {
    var n := |items|;
    assert items == items[..n - 1] + [items[n - 1]];
    JoinSnoc(items[..n - 1], items[n - 1], ", ");
    var head := "[" + Terminated(items[..n - 1], ", ") + lead;
    AppendThree("[", Terminated(items[..n - 1], ", "), lead, last);
    assert "[" + Join(items, ", ") == head + last;
    SuffixOfAppend(head, last);
  }

  /** A non-empty collection of entities ends with the last entity's closing
      brace and line break: no `]` is ever appended. */
  lemma CollectionOfEntitiesUnclosed(host: Host, c: HostValue)
    requires c.EntityCollection? && c.entities != []
    requires forall i :: 0 <= i < |c.entities| ==> c.entities[i].Entity?
    requires CollectionText(host, c).Ok?
    ensures var r := CollectionText(host, c).value;
      |r| >= 5 && r[|r| - 5..] == "\r\n}\r\n"
  {
    var m := c.entities[|c.entities| - 1];
    var r := CollectionText(host, c).value;
    CollectionEndsWithLastMember(host, c);
    var last := Render(host, RuntimeType(m), m).value;
    assert |last| >= 5 && last[|last| - 5..] == "\r\n}\r\n" by {
      assert m.Entity?;
      assert RuntimeType(m) == Some(EntityTag);
      EntityRendering(host, m);
    }
    assert r[|r| - 5..] == last[|last| - 5..] by {
      assert r[|r| - |last|..] == last;
    }
  }

  /* ---------------------------------------------------------------------
     Rendering under the value's own type. */

  /** A host value is well-formed when every object of a class without a
      rendering of its own carries a type name that is not a structured
      case label, at any depth. */
  predicate WellFormed(v: HostValue)
    decreases v
  {
    match v
    case Primitive(t, _) => t !in StructuredTags
    case Entity(_, _, attrs) => forall i :: 0 <= i < |attrs| ==> WellFormed(attrs[i].value)
    case EntityCollection(ms) => forall i :: 0 <= i < |ms| ==> WellFormed(ms[i])
    case _ => true
  }

  predicate OwnTypeFault(f: Fault)
  {
    f == NullReference || f == ServiceFault
  }

  /** Rendered under its own runtime type, a well-formed value never meets
      an invalid cast: the only exceptions left are a null collection member
      and a failing query translation. */
  lemma {:induction false} RenderOwnType(host: Host, v: HostValue)
    requires WellFormed(v)
    ensures Render(host, RuntimeType(v), v).Err? ==> OwnTypeFault(Render(host, RuntimeType(v), v).fault)
    decreases v, 1, 0
  {
    match v
    case Null =>
      DefaultCaseIffUnknown(None);
    case Primitive(t, _) =>
      if t in ScalarTags {
      } else {
        DefaultCaseIffUnknown(Some(t));
      }
    case Entity(_, _, attrs) =>
      ClassifyRuntimeType(v);
      AttributeItemsOwnType(host, v, |attrs|);
    case EntityCollection(ms) =>
      ClassifyRuntimeType(v);
      MemberItemsOwnType(host, v, |ms|);
    case _ =>
      ClassifyRuntimeType(v);
  }

  lemma {:induction false} AttributeItemsOwnType(host: Host, e: HostValue, n: nat)
    requires e.Entity? && n <= |e.attributes| && WellFormed(e)
    ensures AttributeItems(host, e, n).Err? ==> OwnTypeFault(AttributeItems(host, e, n).fault)
    decreases e, 0, n
  {
    if n > 0 {
      AttributeItemsOwnType(host, e, n - 1);
      var a := e.attributes[n - 1];
      RenderOwnType(host, a.value);
    }
  }

  lemma {:induction false} MemberItemsOwnType(host: Host, c: HostValue, n: nat)
    requires c.EntityCollection? && n <= |c.entities| && WellFormed(c)
    ensures MemberItems(host, c, n).Err? ==> OwnTypeFault(MemberItems(host, c, n).fault)
    decreases c, 0, n
  {
    if n > 0 {
      MemberItemsOwnType(host, c, n - 1);
      RenderOwnType(host, c.entities[n - 1]);
    }
  }
}
