/** Literal search through LIKE: the escaper of the restaurant repository against the wildcard matcher of
    section 8.5 of ISO/IEC 9075-2. */
module Like {
  import opened Domain

  // ---------- the escaper ----------

  const ESCAPE: char := '\\'

  predicate Special(c: char) {
    c == ESCAPE || c == '%' || c == '_'
  }

  /** likeEscaper: one pass, a backslash before each metacharacter. */
  function Escaped(search: string): string {
    if search == [] then []
    else (if Special(search[0]) then [ESCAPE, search[0]] else [search[0]]) + Escaped(search[1..])
  }

  function LikePattern(search: string): string {
    "%" + Escaped(search) + "%"
  }

  // ---------- the standard's reading of a pattern ----------

  datatype Token = Literal(c: char) | AnyOne | AnyRun

  /** A pattern with escape character `\`, cut into substring specifiers; `None` is the standard's
      "invalid escape sequence": an escape before an ordinary character or at the very end. */
  function Tokens(pattern: string): Option<seq<Token>> {
    if pattern == [] then Some([])
    else if pattern[0] == ESCAPE then
      if |pattern| == 1 || !Special(pattern[1]) then None
      else Prepend(Literal(pattern[1]), Tokens(pattern[2..]))
    else
      Prepend(if pattern[0] == '%' then AnyRun else if pattern[0] == '_' then AnyOne else Literal(pattern[0]),
              Tokens(pattern[1..]))
  }

  function Prepend(token: Token, rest: Option<seq<Token>>): Option<seq<Token>> {
    if rest.None? then None else Some([token] + rest.value)
  }

  predicate Fits(part: string, token: Token) {
    match token
    case Literal(c) => part == [c]
    case AnyOne => |part| == 1
    case AnyRun => true
  }

  function Joined(parts: seq<string>): string {
    if parts == [] then [] else parts[0] + Joined(parts[1..])
  }

  ghost predicate Partition(text: string, tokens: seq<Token>, parts: seq<string>) {
    && |parts| == |tokens| && Joined(parts) == text
    && forall i :: 0 <= i < |parts| ==> Fits(parts[i], tokens[i])
  }

  /** The standard's definition: the text can be cut into one substring per specifier. */
  ghost predicate Matches(text: string, tokens: seq<Token>) {
    exists parts :: Partition(text, tokens, parts)
  }

  // ---------- a matcher ----------

  /** The backtracking matcher: a run of any length stops here or takes one more character. */
  predicate Accepts(text: string, tokens: seq<Token>)
    decreases |tokens|, |text|
  {
    if tokens == [] then text == []
    else
      match tokens[0]
      case Literal(c) => text != [] && text[0] == c && Accepts(text[1..], tokens[1..])
      case AnyOne => text != [] && Accepts(text[1..], tokens[1..])
      case AnyRun => Accepts(text, tokens[1..]) || (text != [] && Accepts(text[1..], tokens))
  }

  lemma {:induction false} AcceptedParts(text: string, tokens: seq<Token>) returns (parts: seq<string>)
    requires Accepts(text, tokens)
    ensures Partition(text, tokens, parts)
    decreases |tokens|, |text|
  {
    if tokens == [] {
      parts := [];
    } else if tokens[0].AnyRun? {
      if Accepts(text, tokens[1..]) {
        var rest := AcceptedParts(text, tokens[1..]);
        parts := [""] + rest;
        assert parts[1..] == rest;
        assert "" + text == text;
      } else {
        var rest := AcceptedParts(text[1..], tokens);
        parts := [[text[0]] + rest[0]] + rest[1..];
        assert parts[1..] == rest[1..];
        assert ([text[0]] + rest[0]) + Joined(rest[1..]) == [text[0]] + Joined(rest);
        assert [text[0]] + text[1..] == text;
      }
    } else {
      var rest := AcceptedParts(text[1..], tokens[1..]);
      parts := [[text[0]]] + rest;
      assert parts[1..] == rest;
      assert [text[0]] + text[1..] == text;
    }
  }

  lemma {:induction false} PartsAccepted(text: string, tokens: seq<Token>, parts: seq<string>)
    requires Partition(text, tokens, parts)
    ensures Accepts(text, tokens)
    decreases |tokens|, |text|
  {
    if tokens != [] {
      assert Fits(parts[0], tokens[0]);
      var head, rest := parts[0], Joined(parts[1..]);
      assert text == head + rest;
      if tokens[0].AnyRun? && head != [] {
        var shorter := [head[1..]] + parts[1..];
        assert shorter[1..] == parts[1..];
        assert text[1..] == head[1..] + rest;
        PartsAccepted(text[1..], tokens, shorter);
      } else {
        assert text[|head|..] == rest;
        PartsAccepted(rest, tokens[1..], parts[1..]);
      }
    }
  }

  /** The matcher computes the standard's definition. */
  lemma AcceptsIsMatches(text: string, tokens: seq<Token>)
    ensures Accepts(text, tokens) <==> Matches(text, tokens)
  {
    if Accepts(text, tokens) {
      var parts := AcceptedParts(text, tokens);
    }
    if parts :| Partition(text, tokens, parts) {
      PartsAccepted(text, tokens, parts);
    }
  }

  // ---------- escaped text is read back as itself ----------

  function Literals(s: string): seq<Token> {
    seq(|s|, i requires 0 <= i < |s| => Literal(s[i]))
  }

  /** The escaped text in front of anything is read as its own characters, one by one. */
  lemma {:induction false} EscapedTokens(search: string, rest: string)
    requires Tokens(rest).Some?
    ensures Tokens(Escaped(search) + rest) == Some(Literals(search) + Tokens(rest).value)
  {
    if search == [] {
      assert Escaped(search) + rest == rest;
      assert Literals(search) + Tokens(rest).value == Tokens(rest).value;
    } else {
      EscapedTokens(search[1..], rest);
      var tail := Escaped(search[1..]) + rest;
      var all := Tokens(rest).value;
      assert Literals(search) + all == [Literal(search[0])] + (Literals(search[1..]) + all);
      if Special(search[0]) {
        assert Escaped(search) + rest == [ESCAPE, search[0]] + tail;
        assert (Escaped(search) + rest)[2..] == tail;
        assert Tokens(Escaped(search) + rest) == Prepend(Literal(search[0]), Tokens(tail));
      } else {
        assert Escaped(search) + rest == [search[0]] + tail;
        assert (Escaped(search) + rest)[1..] == tail;
      }
    }
  }

  /** Undoing the escapes: a backslash stands for the character after it. */
  function Unescaped(s: string): string {
    if s == [] then []
    else if s[0] == ESCAPE && |s| > 1 then [s[1]] + Unescaped(s[2..])
    else [s[0]] + Unescaped(s[1..])
  }

  /** Round trip: nothing the user typed is lost or altered by the escaping. */
  lemma {:induction false} UnescapeEscaped(search: string)
    ensures Unescaped(Escaped(search)) == search
  {
    if search != [] {
      UnescapeEscaped(search[1..]);
      var tail := Escaped(search[1..]);
      if Special(search[0]) {
        assert Escaped(search)[2..] == tail;
      } else {
        assert Escaped(search)[1..] == tail;
      }
    }
  }

  /** Every pattern the repository builds is valid, never with a dangling escape, and is a run of
      anything, the search itself, and a run of anything. */
  lemma PatternTokens(search: string)
    ensures Tokens(LikePattern(search)) == Some([AnyRun] + Literals(search) + [AnyRun])
  {
    assert "%"[1..] == "";
    var none: seq<Token> := [];
    assert [AnyRun] + none == [AnyRun];
    assert Tokens("%") == Some([AnyRun]);
    EscapedTokens(search, "%");
    assert LikePattern(search)[0] == '%' && LikePattern(search)[1..] == Escaped(search) + "%";
    assert [AnyRun] + (Literals(search) + [AnyRun]) == [AnyRun] + Literals(search) + [AnyRun];
  }

  // ---------- the pattern finds exactly the substring ----------

  ghost predicate FoundAt(text: string, search: string, k: nat) {
    k <= |text| && search <= text[k..]
  }

  /** The search is a contiguous substring of the text. */
  ghost predicate Contains(text: string, search: string) {
    exists k :: FoundAt(text, search, k)
  }

  lemma {:induction false} LiteralsAccept(text: string, search: string, rest: seq<Token>)
    ensures Accepts(text, Literals(search) + rest) <==> search <= text && Accepts(text[|search|..], rest)
  {
    if search == [] {
      assert Literals(search) + rest == rest && text[0..] == text;
    } else {
      var tokens := Literals(search) + rest;
      assert tokens[1..] == Literals(search[1..]) + rest;
      if text != [] {
        LiteralsAccept(text[1..], search[1..], rest);
        assert search <= text <==> search[0] == text[0] && search[1..] <= text[1..];
        assert search <= text ==> text[1..][|search| - 1..] == text[|search|..];
      }
    }
  }

  lemma {:induction false} RunAccepts(text: string, tokens: seq<Token>)
    ensures Accepts(text, [AnyRun] + tokens) <==> exists k :: 0 <= k <= |text| && Accepts(text[k..], tokens)
    decreases |text|
  {
    var all := [AnyRun] + tokens;
    assert all[1..] == tokens && text[0..] == text;
    if text != [] {
      RunAccepts(text[1..], tokens);
      forall k | 0 <= k <= |text| - 1 ensures text[1..][k..] == text[k + 1..] {}
      if k :| 0 <= k <= |text| && Accepts(text[k..], tokens) && k > 0 {
        assert text[1..][k - 1..] == text[k..];
      }
    }
  }

  lemma {:induction false} LastRun(text: string)
    ensures Accepts(text, [AnyRun])
    decreases |text|
  {
    assert [AnyRun][1..] == [];
    if text != [] {
      LastRun(text[1..]);
    }
  }

  /** Literal search: for every search string and text, LIKE with the built pattern accepts the text
      exactly when the search is a contiguous substring of it. */
  lemma LiteralSearch(text: string, search: string)
    ensures Tokens(LikePattern(search)).Some?
    ensures Matches(text, Tokens(LikePattern(search)).value) <==> Contains(text, search)
  {
    PatternTokens(search);
    var tokens := Literals(search) + [AnyRun];
    assert [AnyRun] + Literals(search) + [AnyRun] == [AnyRun] + tokens;
    AcceptsIsMatches(text, [AnyRun] + tokens);
    RunAccepts(text, tokens);
    forall k | 0 <= k <= |text| ensures Accepts(text[k..], tokens) <==> FoundAt(text, search, k) {
      LiteralsAccept(text[k..], search, [AnyRun]);
      if search <= text[k..] {
        LastRun(text[k..][|search|..]);
      }
    }
    hide Matches, Accepts, Tokens;
    if Contains(text, search) {
      var k: nat :| FoundAt(text, search, k);
      assert k <= |text| && Accepts(text[k..], tokens);
    }
  }

  // ---------- ILIKE ----------

  function Folded(s: string, fold: char -> char): string {
    seq(|s|, i requires 0 <= i < |s| => fold(s[i]))
  }

  /** A case fold that keeps the metacharacters apart from everything else. */
  ghost predicate KeepsSpecials(fold: char -> char) {
    && (forall c :: Special(c) ==> fold(c) == c)
    && (forall c :: Special(fold(c)) ==> Special(c))
  }

  lemma {:induction false} FoldEscaped(search: string, fold: char -> char)
    requires KeepsSpecials(fold)
    ensures Folded(Escaped(search), fold) == Escaped(Folded(search, fold))
  {
    if search != [] {
      FoldEscaped(search[1..], fold);
      var head := if Special(search[0]) then [ESCAPE, search[0]] else [search[0]];
      assert Escaped(search) == head + Escaped(search[1..]);
      assert Folded(search, fold)[1..] == Folded(search[1..], fold);
      assert Folded(Escaped(search), fold) == Folded(head, fold) + Folded(Escaped(search[1..]), fold);
      assert Special(ESCAPE) && (Special(search[0]) <==> Special(fold(search[0])));
      assert Special(search[0]) ==> Folded(head, fold) == [ESCAPE, search[0]];
      assert !Special(search[0]) ==> Folded(head, fold) == [fold(search[0])];
    }
  }

  /** Case-insensitive literal search: with both sides folded character by character, the pattern still
      finds exactly the folded substring, which is also how the in-memory repository decides. */
  lemma FoldedSearch(text: string, search: string, fold: char -> char)
    requires KeepsSpecials(fold)
    ensures Tokens(Folded(LikePattern(search), fold)).Some?
    ensures Matches(Folded(text, fold), Tokens(Folded(LikePattern(search), fold)).value)
            <==> Contains(Folded(text, fold), Folded(search, fold))
  {
    FoldEscaped(search, fold);
    assert Special('%');
    assert Folded(LikePattern(search), fold)
        == Folded("%", fold) + Folded(Escaped(search), fold) + Folded("%", fold);
    assert Folded("%", fold) == "%";
    LiteralSearch(Folded(text, fold), Folded(search, fold));
  }
}
