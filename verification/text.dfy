/** String operations of .NET that the logger relies on, written out over
    `seq<char>`: joining, ordinal `String.Replace`, `Substring` truncation,
    `Int32.ToString()` and ordinal case-insensitive comparison. */
module Text {

  /* ---------------------------------------------------------------------
     Concatenation and joining. All three recurse on the LAST element so
     that a loop which appends one piece per iteration matches them. */

  function Concat(xs: seq<string>): string
  {
    if xs == [] then "" else Concat(xs[..|xs| - 1]) + xs[|xs| - 1]
  }

  /** Every piece followed by `sep`: what a loop that appends "piece, "
      each time has built before it trims the final separator. */
  function Terminated(xs: seq<string>, sep: string): string
  {
    if xs == [] then "" else Terminated(xs[..|xs| - 1], sep) + xs[|xs| - 1] + sep
  }

  /** The pieces separated by `sep`, with no separator after the last. */
  function Join(xs: seq<string>, sep: string): (r: string)
    ensures xs != [] ==> Terminated(xs, sep) == r + sep
  {
    if xs == [] then "" else Terminated(xs[..|xs| - 1], sep) + xs[|xs| - 1]
  }

  /** Appending two texts (or two lists of lines) in turn is appending
      their concatenation. */
  lemma AppendTwo<T>(a: seq<T>, b: seq<T>, c: seq<T>)
    ensures a + b + c == a + (b + c)
  {
  }

  /** Appending three texts in turn is appending their concatenation. */
  lemma AppendThree(a: string, b: string, c: string, d: string)
    ensures a + b + c + d == a + (b + c + d)
  {
  }

  /** A text is a prefix of anything appended to it. */
  lemma PrefixOfAppend(a: string, b: string, c: string)
    ensures a <= a + b + c
  {
    assert (a + b + c)[..|a|] == a;
  }

  /** The last |b| characters of `a + b` are `b`. */
  lemma SuffixOfAppend(a: string, b: string)
    ensures (a + b)[|a|..] == b
  {
  }

  lemma ConcatSnoc(xs: seq<string>, x: string)
    ensures Concat(xs + [x]) == Concat(xs) + x
  {
    assert (xs + [x])[..|xs|] == xs;
  }

  lemma TerminatedSnoc(xs: seq<string>, x: string, sep: string)
    ensures Terminated(xs + [x], sep) == Terminated(xs, sep) + x + sep
  {
    assert (xs + [x])[..|xs|] == xs;
  }

  /** A text followed by the concatenation of xs, then by x, is that text
      followed by the concatenation of xs + [x]. */
  lemma ConcatSnocAfter(a: string, xs: seq<string>, x: string)
    ensures a + Concat(xs) + x == a + Concat(xs + [x])
  {
    ConcatSnoc(xs, x);
    AppendTwo(a, Concat(xs), x);
  }

  /** The same for terminated pieces. */
  lemma TerminatedSnocAfter(a: string, xs: seq<string>, x: string, sep: string)
    ensures a + Terminated(xs, sep) + x + sep == a + Terminated(xs + [x], sep)
  {
    TerminatedSnoc(xs, x, sep);
    AppendThree(a, Terminated(xs, sep), x, sep);
  }

  lemma JoinSnoc(xs: seq<string>, x: string, sep: string)
    ensures Join(xs + [x], sep) == Terminated(xs, sep) + x
  {
    assert (xs + [x])[..|xs|] == xs;
  }

  /** The head-first reading of Terminated: the first piece and its
      separator, then the rest. */
  lemma {:induction false} TerminatedCons(x: string, xs: seq<string>, sep: string)
    ensures Terminated([x] + xs, sep) == x + sep + Terminated(xs, sep)
    decreases |xs|
  {
    if xs == [] {
      assert [x] + xs == [] + [x];
      TerminatedSnoc([], x, sep);
    } else {
      var front := xs[..|xs| - 1];
      var last := xs[|xs| - 1];
      assert [x] + xs == ([x] + front) + [last] by {
        assert xs == front + [last];
      }
      TerminatedSnoc([x] + front, last, sep);
      TerminatedCons(x, front, sep);
      assert Terminated(xs, sep) == Terminated(front, sep) + last + sep by {
        assert xs == front + [last];
        TerminatedSnoc(front, last, sep);
      }
      AppendThree(x + sep, Terminated(front, sep), last, sep);
    }
  }

  /** The head-first reading of Join: the first piece, then the separator
      and the rest, when there is a rest. */
  lemma JoinCons(x: string, xs: seq<string>, sep: string)
    ensures Join([x] + xs, sep) == if xs == [] then x else x + sep + Join(xs, sep)
  {
    if xs == [] {
      assert [x] + xs == [] + [x];
      JoinSnoc([], x, sep);
    } else {
      var front := xs[..|xs| - 1];
      var last := xs[|xs| - 1];
      assert [x] + xs == ([x] + front) + [last] by {
        assert xs == front + [last];
      }
      JoinSnoc([x] + front, last, sep);
      TerminatedCons(x, front, sep);
      assert Join(xs, sep) == Terminated(front, sep) + last by {
        assert xs == front + [last];
        JoinSnoc(front, last, sep);
      }
      AppendTwo(x + sep, Terminated(front, sep), last);
    }
  }

  /* ---------------------------------------------------------------------
     Ordinal String.Replace: left to right, non-overlapping occurrences. */

  predicate MatchAt(s: string, pat: string, k: int)
  {
    0 <= k && k + |pat| <= |s| && s[k..k + |pat|] == pat
  }

  predicate Occurs(s: string, pat: string)
  {
    exists k :: 0 <= k <= |s| - |pat| && MatchAt(s, pat, k)
  }

  function ReplaceAll(s: string, pat: string, rep: string): string
    requires pat != []
    decreases |s|
  {
    if |s| < |pat| then s
    else if s[..|pat|] == pat then rep + ReplaceAll(s[|pat|..], pat, rep)
    else [s[0]] + ReplaceAll(s[1..], pat, rep)
  }

  /** Shifting a string right by one character shifts its matches. */
  lemma MatchAtShift(t: string, c: char, pat: string, k: int)
    requires 0 <= k
    ensures MatchAt([c] + t, pat, k + 1) == MatchAt(t, pat, k)
  {
    if k + |pat| <= |t| {
      assert ([c] + t)[k + 1..k + 1 + |pat|] == t[k..k + |pat|];
    }
  }

  /** A string without the pattern comes back unchanged. */
  lemma {:induction false} ReplaceAllAbsent(s: string, pat: string, rep: string)
    requires pat != [] && !Occurs(s, pat)
    ensures ReplaceAll(s, pat, rep) == s
    decreases |s|
  {
    if |s| >= |pat| {
      assert !MatchAt(s, pat, 0);
      var t := s[1..];
      assert s == [s[0]] + t;
      forall k | 0 <= k <= |t| - |pat|
        ensures !MatchAt(t, pat, k)
      {
        MatchAtShift(t, s[0], pat, k);
      }
      ReplaceAllAbsent(t, pat, rep);
    }
  }

  /** When the first occurrence of the pattern in `p + pat + q` is the one
      after `p`, the text before it is kept and the occurrence replaced. */
  lemma {:induction false} ReplaceAllAtFirst(p: string, q: string, pat: string, rep: string)
    requires pat != []
    requires forall k :: 0 <= k < |p| ==> !MatchAt(p + pat + q, pat, k)
    ensures ReplaceAll(p + pat + q, pat, rep) == p + rep + ReplaceAll(q, pat, rep)
    decreases |p|
  {
    var s := p + pat + q;
    if p == [] {
      assert s == pat + q;
      assert s[..|pat|] == pat;
      assert s[|pat|..] == q;
    } else {
      assert !MatchAt(s, pat, 0);
      var t := p[1..] + pat + q;
      assert s == [p[0]] + t;
      forall k | 0 <= k < |p| - 1
        ensures !MatchAt(t, pat, k)
      {
        MatchAtShift(t, p[0], pat, k);
      }
      ReplaceAllAtFirst(p[1..], q, pat, rep);
      assert [p[0]] + p[1..] == p;
    }
  }

  /** Replacing every occurrence of one character, position by position. */
  function CharReplace(s: string, c: char, rep: string): string
  {
    if s == [] then "" else (if s[0] == c then rep else [s[0]]) + CharReplace(s[1..], c, rep)
  }

  lemma {:induction false} ReplaceAllOneChar(s: string, c: char, rep: string)
    ensures ReplaceAll(s, [c], rep) == CharReplace(s, c, rep)
    decreases |s|
  {
    if s != [] {
      assert s[..1] == [c] <==> s[0] == c;
      assert s[|[c]|..] == s[1..];
      ReplaceAllOneChar(s[1..], c, rep);
    }
  }

  lemma {:induction false} CharReplaceAppend(a: string, b: string, c: char, rep: string)
    ensures CharReplace(a + b, c, rep) == CharReplace(a, c, rep) + CharReplace(b, c, rep)
    decreases |a|
  {
    if a != [] {
      assert (a + b)[0] == a[0];
      assert (a + b)[1..] == a[1..] + b;
      CharReplaceAppend(a[1..], b, c, rep);
    } else {
      assert a + b == b;
    }
  }

  /** After replacing `c` by a text without `c`, no `c` is left. */
  lemma {:induction false} CharReplaceRemoves(s: string, c: char, rep: string)
    requires c !in rep
    ensures c !in CharReplace(s, c, rep)
    decreases |s|
  {
    if s != [] {
      CharReplaceRemoves(s[1..], c, rep);
    }
  }

  /* ---------------------------------------------------------------------
     Quote escaping of scalar values: `Replace("\"", "&quot;")`. */

  function EscapeQuotes(s: string): string
  {
    ReplaceAll(s, "\"", "&quot;")
  }

  lemma EscapedHasNoQuote(s: string)
    ensures '"' !in EscapeQuotes(s)
    ensures '"' !in s ==> EscapeQuotes(s) == s
  {
    ReplaceAllOneChar(s, '"', "&quot;");
    assert "\"" == ['"'];
    CharReplaceRemoves(s, '"', "&quot;");
    if '"' !in s {
      forall k | 0 <= k < |s|
        ensures !MatchAt(s, "\"", k)
      {
        assert s[k] in s;
        assert s[k..k + 1][0] == s[k];
      }
      ReplaceAllAbsent(s, "\"", "&quot;");
    }
  }

  /* ---------------------------------------------------------------------
     Brace doubling, and the format-string reading that undoes it. */

  /** Each `{` written `{{` and each `}` written `}}`, position by position. */
  function DoubleBraces(s: string): string
  {
    if s == [] then ""
    else (if s[0] == '{' then "{{" else if s[0] == '}' then "}}" else [s[0]]) + DoubleBraces(s[1..])
  }

  /** How a composite format string reads `{{` and `}}`. */
  function UnescapeBraces(t: string): string
    decreases |t|
  {
    if |t| >= 2 && t[0] == '{' && t[1] == '{' then "{" + UnescapeBraces(t[2..])
    else if |t| >= 2 && t[0] == '}' && t[1] == '}' then "}" + UnescapeBraces(t[2..])
    else if t == [] then ""
    else [t[0]] + UnescapeBraces(t[1..])
  }

  lemma {:induction false} UnescapeDoubled(s: string)
    ensures UnescapeBraces(DoubleBraces(s)) == s
    decreases |s|
  {
    if s != [] {
      var rest := DoubleBraces(s[1..]);
      var t := DoubleBraces(s);
      UnescapeDoubled(s[1..]);
      if s[0] == '{' {
        assert t == "{{" + rest;
        assert t[2..] == rest;
      } else if s[0] == '}' {
        assert t == "}}" + rest;
        assert t[2..] == rest;
      } else {
        assert t == [s[0]] + rest;
        assert t[1..] == rest;
      }
      assert [s[0]] + s[1..] == s;
    }
  }

  /** The two ordinal passes `Replace("{", "{{").Replace("}", "}}")` double
      each brace exactly once: the second pass never sees a `}` made by the first. */
  lemma {:induction false} TwoPassDoubling(s: string)
    ensures ReplaceAll(ReplaceAll(s, "{", "{{"), "}", "}}") == DoubleBraces(s)
    decreases |s|
  {
    assert "{" == ['{'] && "}" == ['}'];
    ReplaceAllOneChar(s, '{', "{{");
    ReplaceAllOneChar(CharReplace(s, '{', "{{"), '}', "}}");
    CharPassesDouble(s);
  }

  lemma {:induction false} CharPassesDouble(s: string)
    ensures CharReplace(CharReplace(s, '{', "{{"), '}', "}}") == DoubleBraces(s)
    decreases |s|
  {
    if s != [] {
      var head := if s[0] == '{' then "{{" else [s[0]];
      var rest := CharReplace(s[1..], '{', "{{");
      CharReplaceAppend(head, rest, '}', "}}");
      CharPassesDouble(s[1..]);
      if s[0] == '{' {
        assert CharReplace("{{", '}', "}}") == "{{" by {
          assert "{{"[1..] == "{";
          assert "{"[1..] == "";
        }
      } else {
        assert CharReplace([s[0]], '}', "}}") == (if s[0] == '}' then "}}" else [s[0]]) by {
          assert [s[0]][1..] == [];
        }
      }
    }
  }

  /* ---------------------------------------------------------------------
     Substring truncation: a text longer than `limit` is cut to its first
     `limit - 1` characters (the source's 8192 -> 8191 and 512 -> 511). */

  function Truncate(s: string, limit: nat): (r: string)
    requires limit >= 1
    ensures |r| <= limit && r <= s
    ensures r == s <==> |s| <= limit
    ensures |s| > limit ==> |r| == limit - 1
  {
    if |s| > limit then s[..limit - 1] else s
  }

  lemma TruncateIdempotent(s: string, limit: nat)
    requires limit >= 1
    ensures Truncate(Truncate(s, limit), limit) == Truncate(s, limit)
  {
  }

  /* ---------------------------------------------------------------------
     An int as string interpolation formats it: decimal digits, and a
     leading '-' for negative values (the current culture's negative sign
     is taken to be '-'). */

  function Digit(n: nat): char
    requires n < 10
  {
    ('0' as int + n) as char
  }

  function DigitValue(c: char): nat
  {
    if '0' <= c <= '9' then c as int - '0' as int else 0
  }

  function NatText(n: nat): (r: string)
    ensures |r| >= 1
    decreases n
  {
    if n < 10 then [Digit(n)] else NatText(n / 10) + [Digit(n % 10)]
  }

  function IntText(i: int): string
  {
    if i < 0 then "-" + NatText(-i) else NatText(i)
  }

  function ParseNat(s: string): nat
  {
    if s == [] then 0 else ParseNat(s[..|s| - 1]) * 10 + DigitValue(s[|s| - 1])
  }

  function ParseInt(s: string): int
  {
    if s != [] && s[0] == '-' then -(ParseNat(s[1..]) as int) else ParseNat(s)
  }

  lemma {:induction false} NatTextRoundTrip(n: nat)
    ensures ParseNat(NatText(n)) == n
    ensures '-' !in NatText(n)
    decreases n
  {
    if n >= 10 {
      var t := NatText(n);
      NatTextRoundTrip(n / 10);
      assert t[..|t| - 1] == NatText(n / 10);
    } else {
      assert [Digit(n)][..0] == [];
    }
  }

  /** The decimal text of an integer reads back as that integer. */
  lemma IntTextRoundTrip(i: int)
    ensures ParseInt(IntText(i)) == i
  {
    if i < 0 {
      NatTextRoundTrip(-i);
      assert ("-" + NatText(-i))[1..] == NatText(-i);
    } else {
      NatTextRoundTrip(i);
      var t := NatText(i);
      assert t[0] in t;
    }
  }

  /* ---------------------------------------------------------------------
     Case-insensitive comparison. Only the ASCII letters are folded: the
     invariant culture's folding of other letters, and its disregard of
     zero-weight characters, are not modelled. */

  function Lower(c: char): char
  {
    if 'A' <= c <= 'Z' then (c as int + 32) as char else c
  }

  predicate EqualsIgnoreCase(a: string, b: string)
  {
    |a| == |b| && forall i :: 0 <= i < |a| ==> Lower(a[i]) == Lower(b[i])
  }
}
