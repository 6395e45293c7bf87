/** ExceptionHelper.GetParsedStacked: the walk down an exception's
    InnerException chain that parses one stack frame per exception.
    ParseStackTrace reads the runtime's stack frames and is a parameter
    here; it may throw, which `Err` stands for. */
module ExceptionHelper {
  import opened Outcomes

  /** An exception: its message, its StackTrace (None for null) and its
      InnerException. */
  datatype Exc = Exc(message: string, stackTrace: Option<string>, inner: Option<Exc>)

  /** The first frame of a stack trace: method name, file name and line. */
  datatype AiParsedStack = AiParsedStack(methodName: string, fileName: string, line: int)

  /** The exceptions of the InnerException chain, outermost first. */
  function Chain(e: Exc): (c: seq<Exc>)
    ensures |c| >= 1 && c[0] == e
    decreases e
  {
    [e] + (if e.inner.None? then [] else Chain(e.inner.value))
  }

  /** Each position of the chain starts the chain of the exception found there. */
  lemma {:induction false} ChainSuffix(e: Exc, i: nat)
    requires i < |Chain(e)|
    ensures Chain(e)[i..] == Chain(Chain(e)[i])
    decreases e
  {
    if i > 0 {
      var inner := e.inner.value;
      assert Chain(e)[1..] == Chain(inner);
      ChainSuffix(inner, i - 1);
      assert Chain(e)[i..] == Chain(inner)[i - 1..];
    }
  }

  /** The exception after position i is the InnerException of the one at i,
      and the last one has none. */
  lemma ChainStep(e: Exc, i: nat)
    requires i < |Chain(e)|
    ensures Chain(e)[i].inner.None? <==> i == |Chain(e)| - 1
    ensures i < |Chain(e)| - 1 ==> Chain(e)[i].inner == Some(Chain(e)[i + 1])
  {
    var c := Chain(e);
    ChainSuffix(e, i);
    var here := Chain(c[i]);
    assert c[i..] == here;
    if c[i].inner.Some? {
      assert here == [c[i]] + Chain(c[i].inner.value);
      assert |here| >= 2;
      assert c[i + 1] == here[1];
    } else {
      assert here == [c[i]];
    }
  }

  /** `string.IsNullOrEmpty(e.StackTrace)`. */
  predicate NullOrEmpty(s: Option<string>)
  {
    s.None? || s.value == []
  }

  /** What GetParsedStacked returns: None when the outermost exception has
      no stack trace, otherwise the parses of the whole chain. */
  function ParsedStacked(e: Exc, parse: Exc -> Result<AiParsedStack>): Result<Option<seq<AiParsedStack>>>
  {
    if NullOrEmpty(e.stackTrace) then Ok(None)
    else
      var stacks :- MapAll(parse, Chain(e));
      Ok(Some(stacks))
  }

  /** The walk itself, a loop that follows InnerException until it is null. */
  method GetParsedStacked(e: Exc, parse: Exc -> Result<AiParsedStack>)
    returns (r: Result<Option<seq<AiParsedStack>>>)
    ensures r == ParsedStacked(e, parse)
  {
    if NullOrEmpty(e.stackTrace) {
      return Ok(None);
    }
    var parsedStacks: seq<AiParsedStack> := [];
    var current: Option<Exc> := Some(e);
    ghost var chain := Chain(e);
    ghost var i := 0;
    while current.Some?
      invariant 0 <= i <= |chain|
      invariant current == if i < |chain| then Some(chain[i]) else None
      invariant MapAll(parse, chain[..i]) == Ok(parsedStacks)
      decreases |chain| - i
    {
      var exc := current.value;
      var p := parse(exc);
      MapAllStep(parse, chain, i);
      if p.Err? {
        MapAllFails(parse, chain, i + 1);
        return Err(p.fault);
      }
      parsedStacks := parsedStacks + [p.value];
      ChainStep(e, i);
      current := exc.inner;
      i := i + 1;
    }
    assert chain[..i] == chain;
    r := Ok(Some(parsedStacks));
  }

  /** Only the outermost exception's stack trace is examined: with it present,
      the result lists the whole chain, outermost first, even when inner
      exceptions have no trace of their own; without it the result is None
      and nothing is parsed. */
  lemma ParsedStackedShape(e: Exc, parse: Exc -> Result<AiParsedStack>)
    ensures NullOrEmpty(e.stackTrace) ==> ParsedStacked(e, parse) == Ok(None)
    ensures !NullOrEmpty(e.stackTrace) ==>
      (ParsedStacked(e, parse).Ok? <==> AllOk(parse, Chain(e)))
    ensures !NullOrEmpty(e.stackTrace) && ParsedStacked(e, parse).Ok? ==>
      var c := Chain(e);
      var r := ParsedStacked(e, parse).value;
      r.Some? && |r.value| == |c| && forall i :: 0 <= i < |c| ==> r.value[i] == parse(c[i]).value
  {
    var c := Chain(e);
    MapAllAt(parse, c);
    if !NullOrEmpty(e.stackTrace) {
      assert ParsedStacked(e, parse).Ok? <==> MapAll(parse, c).Ok?;
    }
  }
}
