/** How SQL Server reads a LIKE pattern, enough to say what an escaped search
    term matches: '%' is any run of characters, '_' any one character, and
    '[' up to the next ']' a set of characters. */
module LikePatterns {
  import opened Wrappers
  import opened Text
  import opened QueryHelpers

  datatype Token = Literal(c: char) | AnySingle | AnyRun | CharClass(members: string)

  /** Index of the first c in s. */
  function IndexOf(s: string, c: char): (r: Option<nat>)
    ensures r.Some? ==> r.value < |s| && s[r.value] == c && forall j :: 0 <= j < r.value ==> s[j] != c
    ensures r.None? ==> forall j :: 0 <= j < |s| ==> s[j] != c
  {
    if s == [] then None
    else if s[0] == c then Some(0)
    else match IndexOf(s[1..], c)
      case None => None
      case Some(i) => Some(i + 1)
  }

  /** The pattern's tokens, left to right. A '[' with no ']' after it is read
      as itself. */
  function Tokenize(p: string): seq<Token>
    decreases |p|
  {
    if p == [] then []
    else if p[0] == '%' then [AnyRun] + Tokenize(p[1..])
    else if p[0] == '_' then [AnySingle] + Tokenize(p[1..])
    else if p[0] == '[' then
      match IndexOf(p[1..], ']')
      case Some(k) => [CharClass(p[1..1 + k])] + Tokenize(p[k + 2..])
      case None => [Literal('[')] + Tokenize(p[1..])
    else [Literal(p[0])] + Tokenize(p[1..])
  }

  /** Whether text t is matched by the tokens ts as a whole. */
  predicate Matches(ts: seq<Token>, t: string)
    decreases |ts|, |t|
  {
    if ts == [] then t == []
    else match ts[0]
      case AnyRun => Matches(ts[1..], t) || (t != [] && Matches(ts, t[1..]))
      case AnySingle => t != [] && Matches(ts[1..], t[1..])
      case Literal(c) => t != [] && t[0] == c && Matches(ts[1..], t[1..])
      case CharClass(m) => t != [] && t[0] in m && Matches(ts[1..], t[1..])
  }

  /* ---------------------------------------------------------------------
     The escaping as written
     --------------------------------------------------------------------- */

  lemma EscapedUnderscoreText()
    ensures EscapeEachChar("_") == "[[]_]"
  {
    EscapeEachCharCons('_', []);
    assert "_" == ['_'] + [];
  }

  lemma EscapedUnderscoreTokens()
    ensures Tokenize("[[]_]") == [CharClass("["), AnySingle, Literal(']')]
  {
    var p := "[[]_]";
    assert p[1..] == "[]_]";
    assert IndexOf("[]_]", ']') == Some(1) by {
      assert "[]_]"[1] == ']' && "[]_]"[0] != ']';
    }
    assert p[1..2] == "[";
    assert p[3..] == "_]";
    assert Tokenize("_]") == [AnySingle, Literal(']')] by {
      assert "_]"[1..] == "]";
      assert Tokenize("]") == [Literal(']')] by {
        assert "]"[1..] == [];
      }
    }
  }

  /** The set holding '[', any one character, then ']'. */
  lemma BracketPatternMatches()
    ensures !Matches([CharClass("["), AnySingle, Literal(']')], "_")
    ensures Matches([CharClass("["), AnySingle, Literal(']')], "[x]")
  {
    var p := [CharClass("["), AnySingle, Literal(']')];
    assert "_"[0] !in "[";
    assert "[x]"[0] in "[";
    assert "[x]"[1..] == "x]" && "x]"[1..] == "]" && "]"[1..] == [];
    assert p[1..] == [AnySingle, Literal(']')];
    assert p[1..][1..] == [Literal(']')];
    assert p[1..][1..][1..] == [];
  }

  /** As written, the escaped "_" is the pattern "[[]_]": a set holding '[',
      any one character, then ']'. It does not match "_" itself, and it does
      match "[x]". */
  lemma EscapedUnderscoreMissesItself()
    ensures var p := Tokenize(EscapeForLikeQuery(Some("_")).value);
      !Matches(p, "_") && Matches(p, "[x]")
  {
    EscapedUnderscoreText();
    EscapedUnderscoreTokens();
    BracketPatternMatches();
  }

  /* ---------------------------------------------------------------------
     The escaping as intended
     --------------------------------------------------------------------- */

  /** '[' is escaped first, so the brackets the other two insert stay as they are. */
  function IntendedEscapedChar(c: char): string
  {
    if c == '[' then "[[]"
    else if c == '_' then "[_]"
    else if c == '%' then "[%]"
    else [c]
  }

  function IntendedEscapeEachChar(s: string): string
  {
    if s == [] then [] else IntendedEscapedChar(s[0]) + IntendedEscapeEachChar(s[1..])
  }

  /** The chain .Replace("[", "[[]").Replace("_", "[_]").Replace("%", "[%]"). */
  function IntendedReplaceChain(s: string): string
  {
    ReplaceChar(ReplaceChar(ReplaceChar(s, '[', "[[]"), '_', "[_]"), '%', "[%]")
  }

  lemma IntendedReplaceChainAppend(a: string, b: string)
    ensures IntendedReplaceChain(a + b) == IntendedReplaceChain(a) + IntendedReplaceChain(b)
  {
    ReplaceCharAppend(a, b, '[', "[[]");
    var a1, b1 := ReplaceChar(a, '[', "[[]"), ReplaceChar(b, '[', "[[]");
    ReplaceCharAppend(a1, b1, '_', "[_]");
    ReplaceCharAppend(ReplaceChar(a1, '_', "[_]"), ReplaceChar(b1, '_', "[_]"), '%', "[%]");
  }

  lemma IntendedReplaceChainOneChar(c: char)
    ensures IntendedReplaceChain([c]) == IntendedEscapedChar(c)
  {
    assert [c][1..] == [];
    if c == '[' {
      assert ReplaceChar([c], '[', "[[]") == "[[]";
      assert "[[]"[1..] == "[]" && "[]"[1..] == "]" && "]"[1..] == [];
      assert ReplaceChar("[[]", '_', "[_]") == "[[]";
      assert ReplaceChar("[[]", '%', "[%]") == "[[]";
    } else if c == '_' {
      assert ReplaceChar([c], '[', "[[]") == "_";
      assert ReplaceChar("_", '_', "[_]") == "[_]";
      assert "[_]"[1..] == "_]" && "_]"[1..] == "]" && "]"[1..] == [];
      assert ReplaceChar("[_]", '%', "[%]") == "[_]";
    } else {
      assert ReplaceChar([c], '[', "[[]") == [c];
      assert ReplaceChar([c], '_', "[_]") == [c];
    }
  }

  lemma {:induction false} IntendedReplaceChainPerChar(s: string)
    ensures IntendedReplaceChain(s) == IntendedEscapeEachChar(s)
  {
    if s != [] {
      assert s == [s[0]] + s[1..];
      IntendedReplaceChainAppend([s[0]], s[1..]);
      IntendedReplaceChainOneChar(s[0]);
      IntendedReplaceChainPerChar(s[1..]);
    }
  }

  /** EscapeForLikeQuery with the '[' replacement moved to the front. */
  function EscapeForLikeQueryIntended(searchTerm: Option<string>): (r: Option<string>)
    ensures r.None? <==> searchTerm.None?
    ensures searchTerm.Some? ==> r.value == IntendedEscapeEachChar(searchTerm.value)
  {
    match searchTerm
    case None => None
    case Some(s) => IntendedReplaceChainPerChar(s); Some(IntendedReplaceChain(s))
  }

  /** The token that matches exactly the character c and nothing else. */
  function ExactToken(c: char): Token
  {
    if c == '[' || c == '_' || c == '%' then CharClass([c]) else Literal(c)
  }

  function ExactTokens(s: string): (r: seq<Token>)
    ensures |r| == |s| && forall i :: 0 <= i < |s| ==> r[i] == ExactToken(s[i])
  {
    if s == [] then [] else [ExactToken(s[0])] + ExactTokens(s[1..])
  }

  /** One escaped character reads back as the token for exactly that character. */
  lemma TokenizeIntendedChar(c: char, rest: string)
    ensures Tokenize(IntendedEscapedChar(c) + rest) == [ExactToken(c)] + Tokenize(rest)
  {
    var p := IntendedEscapedChar(c) + rest;
    if c == '[' || c == '_' || c == '%' {
      assert p == ['[', c, ']'] + rest;
      assert p[1..] == [c, ']'] + rest;
      assert p[1..][0] == c && p[1..][1] == ']';
      assert IndexOf(p[1..], ']') == Some(1);
      assert p[1..2] == [c];
      assert p[3..] == rest;
    } else {
      assert p[0] == c && p[1..] == rest;
    }
  }

  /** An escaped term reads back as one exact token per character, and
      whatever follows it is read on its own. */
  lemma {:induction false} TokenizeIntendedEscape(s: string, rest: string)
    ensures Tokenize(IntendedEscapeEachChar(s) + rest) == ExactTokens(s) + Tokenize(rest)
  {
    if s == [] {
      assert IntendedEscapeEachChar(s) + rest == rest;
    } else {
      var tail := IntendedEscapeEachChar(s[1..]);
      var head := IntendedEscapedChar(s[0]);
      calc {
        Tokenize(IntendedEscapeEachChar(s) + rest);
      == { assert IntendedEscapeEachChar(s) + rest == head + (tail + rest); }
        Tokenize(head + (tail + rest));
      == { TokenizeIntendedChar(s[0], tail + rest); }
        [ExactToken(s[0])] + Tokenize(tail + rest);
      == { TokenizeIntendedEscape(s[1..], rest); }
        [ExactToken(s[0])] + (ExactTokens(s[1..]) + Tokenize(rest));
      == { assert ExactTokens(s) == [ExactToken(s[0])] + ExactTokens(s[1..]); }
        ExactTokens(s) + Tokenize(rest);
      }
    }
  }

  /** The exact token for c takes one character, and only c. */
  lemma ExactTokenStep(c: char, rest: seq<Token>, t: string)
    ensures Matches([ExactToken(c)] + rest, t) <==> t != [] && t[0] == c && Matches(rest, t[1..])
  {
    assert ([ExactToken(c)] + rest)[1..] == rest;
  }

  /** Exact tokens match their own text, and only it, at the front. */
  lemma {:induction false} MatchesExactTokens(s: string, rest: seq<Token>, t: string)
    ensures Matches(ExactTokens(s) + rest, t) <==> |s| <= |t| && t[..|s|] == s && Matches(rest, t[|s|..])
  {
    if s == [] {
      assert ExactTokens(s) + rest == rest;
      assert t[..0] == s && t[0..] == t;
    } else {
      assert ExactTokens(s) + rest == [ExactToken(s[0])] + (ExactTokens(s[1..]) + rest);
      ExactTokenStep(s[0], ExactTokens(s[1..]) + rest, t);
      if t != [] {
        MatchesExactTokens(s[1..], rest, t[1..]);
        if |s| <= |t| {
          assert t[1..][|s| - 1..] == t[|s|..];
          assert t[..|s|] == [t[0]] + t[1..][..|s| - 1];
          assert s == [s[0]] + s[1..];
        }
      }
    }
  }

  /** With the intended escaping, a search term as a LIKE pattern matches
      exactly the text it was made from. */
  lemma EscapedPatternMatchesExactly(s: string, t: string)
    ensures Matches(Tokenize(EscapeForLikeQueryIntended(Some(s)).value), t) <==> t == s
  {
    TokenizeIntendedEscape(s, []);
    assert IntendedEscapeEachChar(s) + [] == IntendedEscapeEachChar(s);
    assert ExactTokens(s) + [] == ExactTokens(s);
    MatchesExactTokens(s, [], t);
    if |s| <= |t| && t[..|s|] == s && Matches([], t[|s|..]) {
      assert t == t[..|s|] + t[|s|..];
    }
    if t == s {
      assert t[|s|..] == [];
    }
  }

  lemma IntendedEscapeEachCharCons(c: char, t: string)
    ensures IntendedEscapeEachChar([c] + t) == IntendedEscapedChar(c) + IntendedEscapeEachChar(t)
  {
    assert ([c] + t)[1..] == t;
  }

  /** With '[' escaped first, each wildcard is bracketed once: "%_" escapes
      to "[%][_]". */
  lemma EscapeForLikeQueryIntendedExample()
    ensures EscapeForLikeQueryIntended(Some("%_")) == Some("[%][_]")
  {
    IntendedEscapeEachCharCons('_', []);
    assert "_" == ['_'] + [];
    IntendedEscapeEachCharCons('%', "_");
    assert "%_" == ['%'] + "_";
    assert IntendedEscapedChar('%') + (IntendedEscapedChar('_') + []) == "[%][_]";
  }
}
