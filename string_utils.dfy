/** The string helpers the component-scan parser relies on: splitting an attribute value into
    trimmed, non-empty tokens (StringUtils.tokenizeToStringArray with trimming and dropping of
    empty tokens) and reading a boolean attribute (Boolean.valueOf). */
module StringUtils {

  /** The delimiters of a list of configuration locations or base packages. */
  const CONFIG_LOCATION_DELIMITERS: string := ",; \t\n"

  /** What String.trim strips from both ends of a token: every character up to and including
      the space, that is the space and the ASCII control characters, and nothing else. */
  predicate IsWhitespace(c: char)
  {
    c <= ' '
  }

  function TrimLeading(s: string): (r: string)
    ensures |r| <= |s|
    ensures r == [] || !IsWhitespace(r[0])
  {
    if s != [] && IsWhitespace(s[0]) then TrimLeading(s[1..]) else s
  }

  function TrimTrailing(s: string): (r: string)
    ensures |r| <= |s|
    ensures r == [] || !IsWhitespace(r[|r| - 1])
  {
    if s != [] && IsWhitespace(s[|s| - 1]) then TrimTrailing(s[..|s| - 1]) else s
  }

  /** String.trim, which the tokenizer applies to each token: strips whitespace at both ends. */
  function Trim(s: string): (r: string)
    ensures r == [] || (!IsWhitespace(r[0]) && !IsWhitespace(r[|r| - 1]))
    ensures |r| <= |s|
  {
    TrimTrailingIsPrefix(TrimLeading(s));
    TrimTrailing(TrimLeading(s))
  }

  lemma {:induction false} TrimLeadingIsSuffix(s: string)
    ensures TrimLeading(s) == s[|s| - |TrimLeading(s)|..]
  {
    if s != [] && IsWhitespace(s[0]) {
      TrimLeadingIsSuffix(s[1..]);
      assert s[1..][|s[1..]| - |TrimLeading(s[1..])|..] == s[|s| - |TrimLeading(s)|..];
    }
  }

  lemma {:induction false} TrimTrailingIsPrefix(s: string)
    ensures TrimTrailing(s) == s[..|TrimTrailing(s)|]
  {
    if s != [] && IsWhitespace(s[|s| - 1]) {
      TrimTrailingIsPrefix(s[..|s| - 1]);
      assert s[..|s| - 1][..|TrimTrailing(s)|] == s[..|TrimTrailing(s)|];
    }
  }

  /** Trimming keeps a run of the original characters. */
  lemma TrimKeepsCharacters(s: string)
    ensures forall j :: 0 <= j < |Trim(s)| ==> Trim(s)[j] in s
  {
    var l := TrimLeading(s);
    TrimLeadingIsSuffix(s);
    TrimTrailingIsPrefix(l);
    forall j | 0 <= j < |Trim(s)|
      ensures Trim(s)[j] in s
    {
      assert Trim(s)[j] == l[j] == s[|s| - |l| + j];
    }
  }

  /** Trimming leaves a string alone that neither starts nor ends with whitespace. */
  lemma TrimOfTrimmed(s: string)
    requires s != [] && !IsWhitespace(s[0]) && !IsWhitespace(s[|s| - 1])
    ensures Trim(s) == s
  {
    assert TrimLeading(s) == s;
  }

  /** The maximal runs of non-delimiter characters of `s`, empty runs included, in order. */
  function Fields(s: string, delims: string): (r: seq<string>)
    ensures |r| >= 1
  {
    if s == [] then [""]
    else
      var rest := Fields(s[1..], delims);
      if s[0] in delims then [""] + rest else [[s[0]] + rest[0]] + rest[1..]
  }

  /** The trimmed fields that are not empty. */
  function NonEmptyTrimmed(fields: seq<string>): seq<string>
  {
    if fields == [] then [] else TokenOf(fields[0]) + NonEmptyTrimmed(fields[1..])
  }

  /** The token a field gives: the field trimmed, or none when that is empty. */
  function TokenOf(field: string): seq<string>
  {
    var t := Trim(field);
    if t == "" then [] else [t]
  }

  /** A token as the tokenizer hands it out: not empty, free of delimiters and trimmed. */
  predicate IsToken(t: string, delims: string)
  {
    && t != []
    && (forall i :: 0 <= i < |t| ==> t[i] !in delims)
    && !IsWhitespace(t[0]) && !IsWhitespace(t[|t| - 1])
  }

  /** StringUtils.tokenizeToStringArray(s, delims) with trimTokens and ignoreEmptyTokens on. */
  function Tokenize(s: string, delims: string): (r: seq<string>)
    ensures forall i :: 0 <= i < |r| ==> IsToken(r[i], delims)
  {
    FieldsAreDelimiterFree(s, delims);
    NonEmptyTrimmedAreTokens(Fields(s, delims), delims);
    NonEmptyTrimmed(Fields(s, delims))
  }

  lemma {:induction false} FieldsAreDelimiterFree(s: string, delims: string)
    ensures forall i, j :: 0 <= i < |Fields(s, delims)| && 0 <= j < |Fields(s, delims)[i]| ==>
      Fields(s, delims)[i][j] !in delims
  {
    if s != [] {
      FieldsAreDelimiterFree(s[1..], delims);
    }
  }

  lemma {:induction false} NonEmptyTrimmedAreTokens(fields: seq<string>, delims: string)
    requires forall i, j :: 0 <= i < |fields| && 0 <= j < |fields[i]| ==> fields[i][j] !in delims
    ensures forall i :: 0 <= i < |NonEmptyTrimmed(fields)| ==> IsToken(NonEmptyTrimmed(fields)[i], delims)
  {
    if fields != [] {
      NonEmptyTrimmedAreTokens(fields[1..], delims);
      var t := Trim(fields[0]);
      TrimKeepsCharacters(fields[0]);
      assert forall j :: 0 <= j < |t| ==> t[j] in fields[0];
    }
  }

  /** Joins tokens with a separator character: the inverse of Tokenize on delimiter-separated lists. */
  function Join(ts: seq<string>, sep: char): string
  {
    if ts == [] then ""
    else if |ts| == 1 then ts[0]
    else ts[0] + [sep] + Join(ts[1..], sep)
  }

  lemma {:induction false} FieldsOfUndelimited(t: string, delims: string)
    requires forall i :: 0 <= i < |t| ==> t[i] !in delims
    ensures Fields(t, delims) == [t]
  {
    if t != [] {
      FieldsOfUndelimited(t[1..], delims);
      assert [t[0]] + t[1..] == t;
    }
  }

  lemma {:induction false} FieldsOfDelimited(t: string, d: char, u: string, delims: string)
    requires forall i :: 0 <= i < |t| ==> t[i] !in delims
    requires d in delims
    ensures Fields(t + [d] + u, delims) == [t] + Fields(u, delims)
  {
    if t == [] {
      assert t + [d] + u == [d] + u;
      assert ([d] + u)[1..] == u;
    } else {
      FieldsOfDelimited(t[1..], d, u, delims);
      assert (t + [d] + u)[1..] == t[1..] + [d] + u;
      assert [t[0]] + t[1..] == t;
    }
  }

  lemma {:induction false} FieldsOfJoin(ts: seq<string>, sep: char, delims: string)
    requires ts != []
    requires sep in delims
    requires forall i :: 0 <= i < |ts| ==> IsToken(ts[i], delims)
    ensures Fields(Join(ts, sep), delims) == ts
  {
    if |ts| == 1 {
      FieldsOfUndelimited(ts[0], delims);
    } else {
      FieldsOfJoin(ts[1..], sep, delims);
      FieldsOfDelimited(ts[0], sep, Join(ts[1..], sep), delims);
      assert [ts[0]] + ts[1..] == ts;
    }
  }

  lemma {:induction false} TokensSurviveTrimming(ts: seq<string>, delims: string)
    requires forall i :: 0 <= i < |ts| ==> IsToken(ts[i], delims)
    ensures NonEmptyTrimmed(ts) == ts
  {
    if ts != [] {
      TokensSurviveTrimming(ts[1..], delims);
      TrimOfTrimmed(ts[0]);
      assert [ts[0]] + ts[1..] == ts;
    }
  }

  /** Tokenizing a list written with any delimiter as separator gives the list back. */
  lemma {:induction false} TokenizeJoin(ts: seq<string>, sep: char, delims: string)
    requires sep in delims
    requires forall i :: 0 <= i < |ts| ==> IsToken(ts[i], delims)
    ensures Tokenize(Join(ts, sep), delims) == ts
  {
    if ts == [] {
      EmptyHasNoTokens(delims);
    } else {
      FieldsOfJoin(ts, sep, delims);
      TokensSurviveTrimming(ts, delims);
    }
  }

  lemma FieldsCons(c: char, t: string, delims: string)
    ensures Fields([c] + t, delims) ==
      if c in delims then [""] + Fields(t, delims) else [[c] + Fields(t, delims)[0]] + Fields(t, delims)[1..]
  {
    assert ([c] + t)[1..] == t;
  }

  lemma SplitHead<T>(x: seq<T>, y: seq<T>)
    requires x != []
    ensures x == [x[0]] + x[1..] && (x + y)[0] == x[0] && (x + y)[1..] == x[1..] + y
  {
  }

  lemma {:induction false} FieldsConcat(a: string, d: char, b: string, delims: string)
    requires d in delims
    ensures Fields(a + [d] + b, delims) == Fields(a, delims) + Fields(b, delims)
  {
    if a == [] {
      assert a + [d] + b == [d] + b;
      FieldsCons(d, b, delims);
    } else {
      FieldsConcat(a[1..], d, b, delims);
      FieldsConcatStep(a, d, b, delims);
    }
  }

  lemma FieldsConcatStep(a: string, d: char, b: string, delims: string)
    requires d in delims && a != []
    requires Fields(a[1..] + [d] + b, delims) == Fields(a[1..], delims) + Fields(b, delims)
    ensures Fields(a + [d] + b, delims) == Fields(a, delims) + Fields(b, delims)
  {
    var rest := a[1..];
    var x, y := Fields(rest, delims), Fields(b, delims);
    assert a + [d] + b == [a[0]] + (rest + [d] + b);
    assert a == [a[0]] + rest;
    FieldsCons(a[0], rest + [d] + b, delims);
    FieldsCons(a[0], rest, delims);
    if a[0] in delims {
      Associative([""], x, y);
    } else {
      SplitHead(x, y);
      Associative([[a[0]] + x[0]], x[1..], y);
    }
  }

  lemma Associative<T>(p: seq<T>, q: seq<T>, r: seq<T>)
    ensures p + (q + r) == (p + q) + r
  {
  }

  lemma NonEmptyTrimmedCons(f: string, rest: seq<string>)
    ensures NonEmptyTrimmed([f] + rest) == TokenOf(f) + NonEmptyTrimmed(rest)
  {
    assert ([f] + rest)[1..] == rest;
  }

  lemma {:induction false} NonEmptyTrimmedConcat(x: seq<string>, y: seq<string>)
    ensures NonEmptyTrimmed(x + y) == NonEmptyTrimmed(x) + NonEmptyTrimmed(y)
  {
    if x == [] {
      assert x + y == y;
    } else {
      var rest := x[1..];
      assert x == [x[0]] + rest;
      assert x + y == [x[0]] + (rest + y);
      NonEmptyTrimmedConcat(rest, y);
      NonEmptyTrimmedCons(x[0], rest + y);
      NonEmptyTrimmedCons(x[0], rest);
      Associative(TokenOf(x[0]), NonEmptyTrimmed(rest), NonEmptyTrimmed(y));
    }
  }

  /** A delimiter splits the value: the tokens of `a`, then those of `b`. With
      TokenizeUndelimited, this fixes the tokens of every value. */
  lemma TokenizeConcat(a: string, d: char, b: string, delims: string)
    requires d in delims
    ensures Tokenize(a + [d] + b, delims) == Tokenize(a, delims) + Tokenize(b, delims)
  {
    FieldsConcat(a, d, b, delims);
    NonEmptyTrimmedConcat(Fields(a, delims), Fields(b, delims));
  }

  /** A value without delimiters is one token, trimmed, unless it is blank. */
  lemma TokenizeUndelimited(t: string, delims: string)
    requires forall i :: 0 <= i < |t| ==> t[i] !in delims
    ensures Tokenize(t, delims) == if Trim(t) == "" then [] else [Trim(t)]
  {
    FieldsOfUndelimited(t, delims);
    assert [t][1..] == [];
    assert NonEmptyTrimmed([t]) == TokenOf(t) + [];
  }

  /** Delimiters in front of a value add no tokens. */
  lemma {:induction false} TokenizeSkipsDelimiters(seps: string, b: string, delims: string)
    requires forall i :: 0 <= i < |seps| ==> seps[i] in delims
    ensures Tokenize(seps + b, delims) == Tokenize(b, delims)
  {
    if seps != [] {
      assert seps + b == "" + [seps[0]] + (seps[1..] + b);
      TokenizeConcat("", seps[0], seps[1..] + b, delims);
      EmptyHasNoTokens(delims);
      TokenizeSkipsDelimiters(seps[1..], b, delims);
      assert [] + Tokenize(b, delims) == Tokenize(b, delims);
    } else {
      assert seps + b == b;
    }
  }

  /** Two tokens separated by any non-empty run of delimiters, such as ", " or ",,", tokenize
      to just those two tokens. */
  lemma TokenizeSeparated(a: string, seps: string, b: string, delims: string)
    requires IsToken(a, delims) && IsToken(b, delims)
    requires seps != [] && forall i :: 0 <= i < |seps| ==> seps[i] in delims
    ensures Tokenize(a + seps + b, delims) == [a, b]
  {
    assert a + seps + b == a + [seps[0]] + (seps[1..] + b);
    TokenizeConcat(a, seps[0], seps[1..] + b, delims);
    TokenizeSkipsDelimiters(seps[1..], b, delims);
    TokenizeToken(a, delims);
    TokenizeToken(b, delims);
    assert [a] + [b] == [a, b];
  }

  /** A token on its own tokenizes to itself. */
  lemma TokenizeToken(t: string, delims: string)
    requires IsToken(t, delims)
    ensures Tokenize(t, delims) == [t]
  {
    TokenizeUndelimited(t, delims);
    TrimOfTrimmed(t);
  }

  lemma EmptyHasNoTokens(delims: string)
    ensures Tokenize("", delims) == []
  {
    assert Fields("", delims) == [""];
    assert Trim("") == "";
    assert [""][1..] == [];
  }

  /** A delimiter-only or empty value yields no tokens. */
  lemma {:induction false} TokenizeBlank(s: string, delims: string)
    requires forall i :: 0 <= i < |s| ==> s[i] in delims
    ensures Tokenize(s, delims) == []
  {
    if s == [] {
      EmptyHasNoTokens(delims);
    } else {
      TokenizeBlank(s[1..], delims);
      var rest := Fields(s[1..], delims);
      assert Tokenize(s[1..], delims) == NonEmptyTrimmed(rest) == [];
      assert Fields(s, delims) == [""] + rest;
      assert ([""] + rest)[1..] == rest;
      assert Trim("") == "";
      assert NonEmptyTrimmed([""] + rest) == NonEmptyTrimmed(rest);
    }
  }

  function LowerAscii(c: char): char
  {
    if 'A' <= c <= 'Z' then (c as int + 32) as char else c
  }

  /** Boolean.valueOf(String): true exactly for "true" in any letter case. No character outside
      ASCII folds to one of the letters of "true", so folding ASCII letters is exact here. */
  function BooleanValueOf(s: string): (b: bool)
    ensures b ==> |s| == 4
    ensures b <==> (|s| == 4 && forall i :: 0 <= i < 4 ==> LowerAscii(s[i]) == "true"[i])
  {
    |s| == 4 && LowerAscii(s[0]) == 't' && LowerAscii(s[1]) == 'r' && LowerAscii(s[2]) == 'u' && LowerAscii(s[3]) == 'e'
  }
}
