/** Turning a filter text into a regular expression (DebugViewppLib/MatchType.cpp), and what the
    result means.

    Parse reads the part of the pattern grammar of section 15.10.1 of ECMA-262 (3rd edition) that
    has no assertions, groups, classes, counted quantifiers or alternatives, and refuses everything
    else; Matches is the language of what it reads, lazy or greedy.  The wildcard language itself is
    defined on its own in Glob.  Case folding (icase) is a parameter. */
module MatchTypes {
  import opened Options

  datatype MatchType = Simple | Wildcard | Regex | RegexGroups | RegexCase

  predicate IsSpecialRegexCharacter(c: char) {
    c in "^$\\.*+?()[]{}|"
  }

  // ----- the pattern grammar -----

  /** The characters that are no PatternCharacter. */
  predicate Reserved(c: char) {
    || c == '^' || c == '$' || c == '\\' || c == '.' || c == '*' || c == '+' || c == '?'
    || c == '(' || c == ')' || c == '[' || c == ']' || c == '{' || c == '}' || c == '|'
  }

  /** The translation escapes exactly these. */
  lemma SpecialIffReserved(c: char)
    ensures IsSpecialRegexCharacter(c) <==> Reserved(c)
  {
  }

  datatype Atom = Literal(c: char) | AnyCharacter
  datatype Quantifier = Once | Optional(lazy: bool) | Star(lazy: bool) | Plus(lazy: bool)
  datatype Term = Term(atom: Atom, quantifier: Quantifier)

  predicate IdentifierPart(c: char) {
    'a' <= c <= 'z' || 'A' <= c <= 'Z' || '0' <= c <= '9' || c == '_' || c == '$' || c > '~'
  }

  /** IdentityEscape: any character that is not an IdentifierPart.  Taken literally this excludes the
      dollar sign; implementations, and later editions, allow it. */
  predicate IdentityEscape(c: char, strict: bool) {
    !IdentifierPart(c) || (!strict && c == '$')
  }

  function ParseAtom(s: string, strict: bool): (r: Option<(Atom, string)>)
    ensures r.Some? ==> |r.value.1| < |s|
  {
    if s == "" then None
    else if s[0] == '.' then Some((AnyCharacter, s[1..]))
    else if s[0] == '\\' then
      if |s| > 1 && IdentityEscape(s[1], strict) then Some((Literal(s[1]), s[2..])) else None
    else if Reserved(s[0]) then None
    else Some((Literal(s[0]), s[1..]))
  }

  function ParseQuantifier(s: string): (r: Option<(Quantifier, string)>)
    ensures r.Some? ==> |r.value.1| <= |s|
  {
    if s == "" then Some((Once, s))
    else if s[0] == '{' then None
    else if s[0] !in "*+?" then Some((Once, s))
    else
      var lazy := |s| > 1 && s[1] == '?';
      var rest := if lazy then s[2..] else s[1..];
      Some((match s[0] case '*' => Star(lazy) case '+' => Plus(lazy) case _ => Optional(lazy), rest))
  }

  function Parse(s: string, strict: bool): Option<seq<Term>>
    decreases |s|
  {
    if s == "" then Some([])
    else
      match ParseAtom(s, strict)
      case None => None
      case Some((atom, afterAtom)) =>
        match ParseQuantifier(afterAtom)
        case None => None
        case Some((quantifier, rest)) =>
          match Parse(rest, strict)
          case None => None
          case Some(terms) => Some([Term(atom, quantifier)] + terms)
  }

  predicate LineTerminator(c: char) {
    c == '\n' || c == '\r' || c == '\U{2028}' || c == '\U{2029}'
  }

  predicate AtomMatches(a: Atom, c: char, fold: char -> char) {
    match a
    case Literal(l) => fold(l) == fold(c)
    case AnyCharacter => !LineTerminator(c)
  }

  /** s, as a whole, is in the language of the terms. */
  predicate Matches(terms: seq<Term>, s: string, fold: char -> char)
    decreases |s|, |terms|
  {
    if terms == [] then s == ""
    else
      var t, first := terms[0], s != "" && AtomMatches(terms[0].atom, s[0], fold);
      match t.quantifier
      case Once => first && Matches(terms[1..], s[1..], fold)
      case Optional(_) => Matches(terms[1..], s, fold) || (first && Matches(terms[1..], s[1..], fold))
      case Star(_) => Matches(terms[1..], s, fold) || (first && Matches(terms, s[1..], fold))
      case Plus(lazy) => first && Matches([Term(t.atom, Star(lazy))] + terms[1..], s[1..], fold)
  }

  /** std::regex_search: some part of s is in the language. */
  ghost predicate Search(terms: seq<Term>, s: string, fold: char -> char) {
    exists i, j :: 0 <= i <= j <= |s| && Matches(terms, s[i..j], fold)
  }

  // ----- what the user means -----

  predicate SameText(a: string, b: string, fold: char -> char) {
    |a| == |b| && forall i :: 0 <= i < |a| ==> fold(a[i]) == fold(b[i])
  }

  /** Wildcards: * stands for any run of characters of a line, ? for at most one. */
  ghost predicate Glob(text: string, s: string, fold: char -> char) {
    if text == "" then s == ""
    else if text[0] == '*' || text[0] == '?' then
      exists n :: 0 <= n <= |s| && InOneLine(s[..n]) && (text[0] == '?' ==> n <= 1) && Glob(text[1..], s[n..], fold)
    else s != "" && fold(text[0]) == fold(s[0]) && Glob(text[1..], s[1..], fold)
  }

  predicate InOneLine(s: string) {
    forall i :: 0 <= i < |s| ==> !LineTerminator(s[i])
  }

  // ----- the translation -----

  function Escaped(c: char): string {
    if IsSpecialRegexCharacter(c) then ['\\', c] else [c]
  }

  function WildcardPiece(c: char): string {
    match c
    case '?' => ".?"
    case '*' => ".*"
    case _ => Escaped(c)
  }

  function SimplePattern(text: string): string {
    if text == "" then "" else SimplePattern(text[..|text| - 1]) + Escaped(text[|text| - 1])
  }

  function WildcardPattern(text: string): string {
    if text == "" then "" else WildcardPattern(text[..|text| - 1]) + WildcardPiece(text[|text| - 1])
  }

  method MakeSimplePattern(text: string) returns (pattern: string)
    ensures pattern == SimplePattern(text)
  {
    pattern := "";
    for i := 0 to |text|
      invariant pattern == SimplePattern(text[..i])
    {
      assert text[..i + 1][..i] == text[..i];
      ghost var before := pattern;
      if IsSpecialRegexCharacter(text[i]) {
        pattern := pattern + ['\\'];
      }
      pattern := pattern + [text[i]];
      assert pattern == before + Escaped(text[i]);
    }
    assert text[..|text|] == text;
  }

  method MakeWildcardPattern(text: string) returns (pattern: string)
    ensures pattern == WildcardPattern(text)
  {
    pattern := "";
    for i := 0 to |text|
      invariant pattern == WildcardPattern(text[..i])
    {
      assert text[..i + 1][..i] == text[..i];
      ghost var before := pattern;
      match text[i] {
        case '?' => pattern := pattern + ".?";
        case '*' => pattern := pattern + ".*";
        case c =>
          if IsSpecialRegexCharacter(c) {
            pattern := pattern + ['\\'];
          }
          pattern := pattern + [c];
      }
      assert pattern == before + WildcardPiece(text[i]);
    }
    assert text[..|text|] == text;
  }

  method MakePattern(matchType: MatchType, text: string) returns (pattern: string)
    ensures pattern == match matchType
                       case Simple => SimplePattern(text)
                       case Wildcard => WildcardPattern(text)
                       case _ => text
  {
    match matchType
    case Simple => pattern := MakeSimplePattern(text);
    case Wildcard => pattern := MakeWildcardPattern(text);
    case _ => pattern := text;
  }

  // ----- the same patterns built from the front -----

  function Front(text: string, wildcard: bool): string {
    if text == "" then ""
    else (if wildcard then WildcardPiece(text[0]) else Escaped(text[0])) + Front(text[1..], wildcard)
  }

  lemma {:induction false} FrontAppend(text: string, c: char, wildcard: bool)
    ensures Front(text + [c], wildcard) == Front(text, wildcard) + if wildcard then WildcardPiece(c) else Escaped(c)
  {
    if text == "" {
      assert (text + [c])[1..] == "";
    } else {
      FrontAppend(text[1..], c, wildcard);
      assert (text + [c])[1..] == text[1..] + [c];
    }
  }

  lemma {:induction false} BuiltFromFront(text: string)
    ensures SimplePattern(text) == Front(text, false)
    ensures WildcardPattern(text) == Front(text, true)
  {
    if text != "" {
      var n := |text| - 1;
      BuiltFromFront(text[..n]);
      FrontAppend(text[..n], text[n], false);
      FrontAppend(text[..n], text[n], true);
      assert text == text[..n] + [text[n]];
    }
  }

  // ----- what the patterns parse to -----

  /** The one term each character of the text becomes. */
  function TermOf(c: char, wildcard: bool): Term {
    if wildcard && c == '?' then Term(AnyCharacter, Optional(false))
    else if wildcard && c == '*' then Term(AnyCharacter, Star(false))
    else Term(Literal(c), Once)
  }

  function TermsOf(text: string, wildcard: bool): seq<Term> {
    if text == "" then [] else [TermOf(text[0], wildcard)] + TermsOf(text[1..], wildcard)
  }

  /** No piece starts with a quantifier, so the piece before it is never read as quantified, or as lazy. */
  lemma PiecesAreSeparate(text: string, wildcard: bool)
    ensures var s := Front(text, wildcard); s == "" || s[0] !in "*+?{"
  {
  }

  lemma ParsePiece(c: char, rest: string, wildcard: bool, strict: bool)
    requires rest == "" || rest[0] !in "*+?{"
    ensures Parse((if wildcard then WildcardPiece(c) else Escaped(c)) + rest, strict) ==
      if strict && c == '$' then None
      else match Parse(rest, strict) case None => None case Some(terms) => Some([TermOf(c, wildcard)] + terms)
  {
    var s := (if wildcard then WildcardPiece(c) else Escaped(c)) + rest;
    SpecialIffReserved(c);
    if wildcard && (c == '?' || c == '*') {
      assert s[1..] == [c] + rest && s[1..][1..] == rest;
    } else if IsSpecialRegexCharacter(c) {
      assert s[0] == '\\' && s[1] == c && s[2..] == rest;
    } else {
      assert s[1..] == rest;
    }
  }

  lemma {:induction false} ParsesToTerms(text: string, wildcard: bool, strict: bool)
    ensures Parse(Front(text, wildcard), strict) ==
      if strict && '$' in text then None else Some(TermsOf(text, wildcard))
  {
    if text != "" {
      ParsesToTerms(text[1..], wildcard, strict);
      PiecesAreSeparate(text[1..], wildcard);
      ParsePiece(text[0], Front(text[1..], wildcard), wildcard, strict);
      assert text == [text[0]] + text[1..];
    }
  }

  /** Under the letter of the third edition a pattern is well formed exactly when the text has no
      dollar sign; otherwise, and with dollar escapes always, it has the terms intended. */
  lemma WellFormedIff(text: string, wildcard: bool)
    ensures var pattern := if wildcard then WildcardPattern(text) else SimplePattern(text);
      && Parse(pattern, false) == Some(TermsOf(text, wildcard))
      && Parse(pattern, true) == if '$' in text then None else Some(TermsOf(text, wildcard))
  {
    BuiltFromFront(text);
    ParsesToTerms(text, wildcard, false);
    ParsesToTerms(text, wildcard, true);
  }

  // ----- what the patterns match -----

  lemma {:induction false} LiteralsMatchText(text: string, s: string, fold: char -> char)
    ensures Matches(TermsOf(text, false), s, fold) <==> SameText(text, s, fold)
  {
    if text != "" {
      var terms := TermsOf(text, false);
      assert terms[1..] == TermsOf(text[1..], false);
      if s != "" {
        LiteralsMatchText(text[1..], s[1..], fold);
        assert text == [text[0]] + text[1..] && s == [s[0]] + s[1..];
      }
    }
  }

  lemma GlobStep(text: string, s: string, n: nat, fold: char -> char)
    requires text != "" && (text[0] == '*' || text[0] == '?')
    requires n <= |s| && InOneLine(s[..n]) && (text[0] == '?' ==> n <= 1) && Glob(text[1..], s[n..], fold)
    ensures Glob(text, s, fold)
  {
  }

  lemma StarShrinks(text: string, s: string, fold: char -> char)
    requires text != "" && text[0] == '*' && Glob(text, s, fold)
    ensures Glob(text[1..], s, fold) || (s != "" && !LineTerminator(s[0]) && Glob(text, s[1..], fold))
  {
    var n :| 0 <= n <= |s| && InOneLine(s[..n]) && Glob(text[1..], s[n..], fold);
    if n > 0 {
      assert !LineTerminator(s[..n][0]);
      assert s[1..][..n - 1] == s[..n][1..];
      assert s[1..][n - 1..] == s[n..];
      GlobStep(text, s[1..], n - 1, fold);
    } else {
      assert s[0..] == s;
    }
  }

  lemma StarGrows(text: string, s: string, fold: char -> char)
    requires text != "" && text[0] == '*'
    requires s != "" && !LineTerminator(s[0]) && Glob(text, s[1..], fold)
    ensures Glob(text, s, fold)
  {
    var t := s[1..];
    var n :| 0 <= n <= |t| && InOneLine(t[..n]) && Glob(text[1..], t[n..], fold);
    assert s[..n + 1] == [s[0]] + t[..n];
    assert s[n + 1..] == t[n..];
    GlobStep(text, s, n + 1, fold);
  }

  /** A star may give up its first character: one step of unrolling the run. */
  lemma StarUnrolls(text: string, s: string, fold: char -> char)
    requires text != "" && text[0] == '*'
    ensures Glob(text, s, fold) <==>
      Glob(text[1..], s, fold) || (s != "" && !LineTerminator(s[0]) && Glob(text, s[1..], fold))
  {
    if Glob(text, s, fold) {
      StarShrinks(text, s, fold);
    }
    if Glob(text[1..], s, fold) {
      assert s[0..] == s;
      GlobStep(text, s, 0, fold);
    }
    if s != "" && !LineTerminator(s[0]) && Glob(text, s[1..], fold) {
      StarGrows(text, s, fold);
    }
  }

  lemma QuestionUnrolls(text: string, s: string, fold: char -> char)
    requires text != "" && text[0] == '?'
    ensures Glob(text, s, fold) <==>
      Glob(text[1..], s, fold) || (s != "" && !LineTerminator(s[0]) && Glob(text[1..], s[1..], fold))
  {
    assert s[0..] == s;
    if Glob(text, s, fold) {
      var n :| 0 <= n <= |s| && n <= 1 && InOneLine(s[..n]) && Glob(text[1..], s[n..], fold);
      assert n == 1 ==> !LineTerminator(s[..n][0]);
    }
    if Glob(text[1..], s, fold) {
      GlobStep(text, s, 0, fold);
    }
    if s != "" && !LineTerminator(s[0]) && Glob(text[1..], s[1..], fold) {
      GlobStep(text, s, 1, fold);
    }
  }

  lemma {:induction false} TermsMatchGlob(text: string, s: string, fold: char -> char)
    ensures Matches(TermsOf(text, true), s, fold) <==> Glob(text, s, fold)
    decreases |s|, |text|
  {
    if text != "" {
      var terms := TermsOf(text, true);
      assert terms[1..] == TermsOf(text[1..], true);
      if text[0] == '*' {
        StarUnrolls(text, s, fold);
        TermsMatchGlob(text[1..], s, fold);
        if s != "" {
          TermsMatchGlob(text, s[1..], fold);
        }
      } else if text[0] == '?' {
        QuestionUnrolls(text, s, fold);
        TermsMatchGlob(text[1..], s, fold);
        if s != "" {
          TermsMatchGlob(text[1..], s[1..], fold);
        }
      } else if s != "" {
        TermsMatchGlob(text[1..], s[1..], fold);
      }
    }
  }

  /** Compiling a wildcard preserves its meaning. */
  lemma WildcardPreservesMeaning(text: string, s: string, fold: char -> char)
    ensures var parsed := Parse(WildcardPattern(text), false);
      parsed.Some? && (Matches(parsed.value, s, fold) <==> Glob(text, s, fold))
  {
    WellFormedIff(text, true);
    TermsMatchGlob(text, s, fold);
  }

  /** The simple pattern matches the text itself and nothing else. */
  lemma SimplePreservesMeaning(text: string, s: string, fold: char -> char)
    ensures var parsed := Parse(SimplePattern(text), false);
      parsed.Some? && (Matches(parsed.value, s, fold) <==> SameText(text, s, fold))
  {
    WellFormedIff(text, false);
    LiteralsMatchText(text, s, fold);
  }

  /** So a simple filter searches for a substring. */
  lemma SimpleSearchIsContains(text: string, s: string, fold: char -> char)
    ensures var parsed := Parse(SimplePattern(text), false);
      && parsed.Some?
      && (Search(parsed.value, s, fold) <==>
          exists i, j :: 0 <= i <= j <= |s| && SameText(text, s[i..j], fold))
  {
    WellFormedIff(text, false);
    var terms := TermsOf(text, false);
    forall i, j | 0 <= i <= j <= |s|
      ensures Matches(terms, s[i..j], fold) <==> SameText(text, s[i..j], fold)
    {
      LiteralsMatchText(text, s[i..j], fold);
    }
  }

  lemma {:induction false} TermsInjective(a: string, b: string, wildcard: bool)
    requires TermsOf(a, wildcard) == TermsOf(b, wildcard)
    ensures a == b
  {
    if a != "" && b != "" {
      var s, t := TermsOf(a, wildcard), TermsOf(b, wildcard);
      assert s[0] == t[0] && s[1..] == TermsOf(a[1..], wildcard) && t[1..] == TermsOf(b[1..], wildcard);
      TermsInjective(a[1..], b[1..], wildcard);
      assert a == [a[0]] + a[1..] && b == [b[0]] + b[1..];
    }
  }

  /** Different texts give different patterns. */
  lemma TranslationInjective(a: string, b: string, wildcard: bool)
    requires if wildcard then WildcardPattern(a) == WildcardPattern(b) else SimplePattern(a) == SimplePattern(b)
    ensures a == b
  {
    WellFormedIff(a, wildcard);
    WellFormedIff(b, wildcard);
    TermsInjective(a, b, wildcard);
  }
}
