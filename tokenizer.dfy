/**
 * The lexer of the boolean-expression language
 * (GeneticTree/BooleanLogicParser/Tokenizer.cs): whitespace is skipped,
 * `!`, `(` and `)` are one-character tokens, a maximal run of letters is
 * lower-cased and must be one of `true`, `false`, `and`, `or`, and anything
 * else is an error. A Tokenizer keeps its cursor `i` between calls.
 */
module BooleanLogicParser {
  import opened Wrappers

  datatype Token =
    | TrueToken
    | FalseToken
    | AndToken
    | OrToken
    | NegationToken
    | OpenParenthesisToken
    | ClosedParenthesisToken

  /** The exceptions Tokenize can raise; message text is reduced to its data. */
  datatype LexError =
      /** "Unknown grammar found at position {0} : '{1}'" */
    | UnknownGrammar(position: int, remaining: string)
      /** "Expected keyword (True, False, And, Or) but found {0}" */
    | UnexpectedKeyword(found: string)
      /** `_text[i]` read in the whitespace loop with `i == _text.Length` */
    | IndexOutOfRange(index: nat)

  /** .NET Char.IsWhiteSpace: separators Zs, Zl, Zp, U+0009..U+000D and U+0085. */
  predicate IsWhiteSpace(c: char)
  {
    c == ' ' || '\t' <= c <= '\r' || c == '\U{0085}' || c == '\U{00A0}'
    || c == '\U{1680}' || '\U{2000}' <= c <= '\U{200A}' || c == '\U{2028}'
    || c == '\U{2029}' || c == '\U{202F}' || c == '\U{205F}' || c == '\U{3000}'
  }

  /** Char.IsLetter, restricted to ASCII letters. */
  predicate IsLetter(c: char)
  {
    'A' <= c <= 'Z' || 'a' <= c <= 'z'
  }

  function ToLower(c: char): char
  {
    if 'A' <= c <= 'Z' then (c as int + 32) as char else c
  }

  function Lower(s: string): (r: string)
    ensures |r| == |s|
    ensures forall k :: 0 <= k < |s| ==> r[k] == ToLower(s[k])
  {
    if s == [] then [] else [ToLower(s[0])] + Lower(s[1..])
  }

  /** The keyword switch of ParseKeyword on the lower-cased letter run. */
  function KeywordToken(word: string): Result<Token, LexError>
  {
    var w := Lower(word);
    if w == "true" then Ok(TrueToken)
    else if w == "false" then Ok(FalseToken)
    else if w == "and" then Ok(AndToken)
    else if w == "or" then Ok(OrToken)
    else Err(UnexpectedKeyword(w))
  }

  /**
   * A letter run is a token exactly when its lower-cased form is one of the
   * four keywords; otherwise the exception carries the lower-cased run.
   */
  lemma KeywordMeaning(word: string)
    ensures KeywordToken(word).Ok? <==> Lower(word) in {"true", "false", "and", "or"}
    ensures KeywordToken(word).Err? ==> KeywordToken(word).error == UnexpectedKeyword(Lower(word))
  {
  }

  /** The end of the maximal run of letters that starts at `i`. */
  function LetterRunEnd(text: string, i: nat): (j: nat)
    requires i <= |text|
    ensures i <= j <= |text|
    ensures forall k :: i <= k < j ==> IsLetter(text[k])
    ensures j == |text| || !IsLetter(text[j])
    decreases |text| - i
  {
    if i < |text| && IsLetter(text[i]) then LetterRunEnd(text, i + 1) else i
  }

  /** The end of the maximal run of whitespace that starts at `i`. */
  function WhitespaceEnd(text: string, i: nat): (j: nat)
    requires i <= |text|
    ensures i <= j <= |text|
    ensures forall k :: i <= k < j ==> IsWhiteSpace(text[k])
    ensures j == |text| || !IsWhiteSpace(text[j])
    decreases |text| - i
  {
    if i < |text| && IsWhiteSpace(text[i]) then WhitespaceEnd(text, i + 1) else i
  }

  /** The outcome of a Tokenize call together with the cursor it leaves. */
  datatype Scan = Scan(outcome: Result<seq<Token>, LexError>, cursor: nat)

  /** Puts `tokens` in front of the tokens of a successful scan. */
  function Join(tokens: seq<Token>, s: Scan): Scan
  {
    match s.outcome
    case Ok(ts) => Scan(Ok(tokens + ts), s.cursor)
    case Err(_) => s
  }

  lemma JoinNothing(s: Scan)
    ensures Join([], s) == s
  {
    if s.outcome.Ok? {
      assert [] + s.outcome.value == s.outcome.value;
    }
  }

  /** Putting tokens in front in two steps is putting them in front at once. */
  lemma JoinJoin(tokens: seq<Token>, more: seq<Token>, s: Scan)
    ensures Join(tokens, Join(more, s)) == Join(tokens + more, s)
  {
    if s.outcome.Ok? {
      assert tokens + (more + s.outcome.value) == (tokens + more) + s.outcome.value;
    }
  }

  /**
   * What Tokenize does when its cursor starts at `i`: the tokens (or the
   * exception) and the final cursor.
   */
  function ScanFrom(text: string, i: nat): (r: Scan)
    requires i <= |text|
    ensures i <= r.cursor <= |text|
    decreases |text| - i, 1
  {
    if |text| <= i then Scan(Ok([]), i)
    else ScanToken(text, WhitespaceEnd(text, i))
  }

  /** One iteration of the Tokenize loop after the whitespace has been skipped. */
  function ScanToken(text: string, j: nat): (r: Scan)
    requires j <= |text|
    ensures j <= r.cursor <= |text|
    decreases |text| - j, 0
  {
    if j == |text| then Scan(Err(IndexOutOfRange(j)), j)
    else
      var c := text[j];
      if c == '!' then Join([NegationToken], ScanFrom(text, j + 1))
      else if c == '(' then Join([OpenParenthesisToken], ScanFrom(text, j + 1))
      else if c == ')' then Join([ClosedParenthesisToken], ScanFrom(text, j + 1))
      else if IsLetter(c) then
        var k := LetterRunEnd(text, j);
        match KeywordToken(text[j..k])
        case Ok(t) => Join([t], ScanFrom(text, k))
        case Err(e) => Scan(Err(e), k)
      else
        Scan(Err(UnknownGrammar(|text| - |text[j..]|, text[j..])), j)
  }

  /** The token of a one-character token. */
  function PunctuationToken(c: char): Token
    requires c == '!' || c == '(' || c == ')'
  {
    if c == '!' then NegationToken else if c == '(' then OpenParenthesisToken else ClosedParenthesisToken
  }

  /** One token of punctuation after the whitespace that starts at `before`. */
  lemma PunctuationStep(text: string, before: nat, j: nat)
    requires before < |text| && j == WhitespaceEnd(text, before) && j < |text|
    requires text[j] == '!' || text[j] == '(' || text[j] == ')'
    ensures ScanFrom(text, before) == Join([PunctuationToken(text[j])], ScanFrom(text, j + 1))
  {
  }

  /** One keyword after the whitespace that starts at `before`. */
  lemma KeywordStep(text: string, before: nat, j: nat, t: Token)
    requires before < |text| && j == WhitespaceEnd(text, before) && j < |text| && IsLetter(text[j])
    requires KeywordToken(text[j..LetterRunEnd(text, j)]) == Ok(t)
    ensures ScanFrom(text, before) == Join([t], ScanFrom(text, LetterRunEnd(text, j)))
  {
  }

  /** The exception Tokenize raises after the whitespace that starts at `before`. */
  lemma ErrorStep(text: string, before: nat, j: nat, e: LexError, k: nat)
    requires before < |text| && j == WhitespaceEnd(text, before)
    requires || (j == |text| && e == IndexOutOfRange(j) && k == j)
             || (j < |text| && IsLetter(text[j]) && k == LetterRunEnd(text, j)
                 && KeywordToken(text[j..k]) == Err(e))
             || (j < |text| && text[j] != '!' && text[j] != '(' && text[j] != ')' && !IsLetter(text[j])
                 && e == UnknownGrammar(|text| - |text[j..]|, text[j..]) && k == j)
    ensures ScanFrom(text, before) == Scan(Err(e), k)
  {
  }

  /** The Tokenize invariant after one more token. */
  lemma Advance(tokens: seq<Token>, t: Token, here: Scan, next: Scan, whole: Scan)
    requires Join(tokens, here) == whole && here == Join([t], next)
    ensures Join(tokens + [t], next) == whole
  {
    JoinJoin(tokens, [t], next);
  }

  /** Tokenize on a fresh Tokenizer. */
  function Lex(text: string): (r: Scan)
    ensures r.cursor <= |text|
    ensures text == [] ==> r == Scan(Ok([]), 0)
  {
    ScanFrom(text, 0)
  }

  class Tokenizer {
    const text: string
    /** The cursor; it starts at 0 and no method resets it. */
    var i: nat

    ghost predicate Valid()
      reads this
    {
      i <= |text|
    }

    constructor (text: string)
      ensures Valid()
      ensures this.text == text && i == 0
    {
      this.text := text;
      i := 0;
    }

    method Tokenize() returns (r: Result<seq<Token>, LexError>)
      requires Valid()
      modifies this
      ensures Valid()
      ensures Scan(r, i) == ScanFrom(text, old(i))
    {
      ghost var start := i;
      var tokens: seq<Token> := [];
      JoinNothing(ScanFrom(text, i));
      while |text| > i
        invariant i <= |text|
        invariant Join(tokens, ScanFrom(text, i)) == ScanFrom(text, start)
        decreases |text| - i
      {
        ghost var before := i;
        var token := NextToken();
        match token
        case Ok(t) =>
          Advance(tokens, t, ScanFrom(text, before), ScanFrom(text, i), ScanFrom(text, start));
          tokens := tokens + [t];
        case Err(e) =>
          r := Err(e);
          return;
      }
      assert tokens + [] == tokens;
      r := Ok(tokens);
    }

    /**
     * One pass of the Tokenize loop: skips whitespace and reads one token,
     * or raises the exception that ends Tokenize.
     */
    method NextToken() returns (r: Result<Token, LexError>)
      requires Valid() && i < |text|
      modifies this
      ensures Valid()
      ensures r.Ok? ==> old(i) < i && ScanFrom(text, old(i)) == Join([r.value], ScanFrom(text, i))
      ensures r.Err? ==> ScanFrom(text, old(i)) == Scan(Err(r.error), i)
    {
      ghost var before := i;
      SkipWhiteSpace();
      if i == |text| {
        // the loop condition reads _text[i] one past the end
        r := Err(IndexOutOfRange(i));
        ErrorStep(text, before, i, r.error, i);
        return;
      }
      var c := text[i];
      if c == '!' || c == '(' || c == ')' {
        r := Ok(PunctuationToken(c));
        PunctuationStep(text, before, i);
        i := i + 1;
      } else if IsLetter(c) {
        ghost var at := i;
        r := ParseKeyword();
        if r.Ok? {
          KeywordStep(text, before, at, r.value);
        } else {
          ErrorStep(text, before, at, r.error, i);
        }
      } else {
        var remainingText := text[i..];
        r := Err(UnknownGrammar(|text| - |remainingText|, remainingText));
        ErrorStep(text, before, i, r.error, i);
      }
    }

    /**
     * The whitespace loop of Tokenize, up to the end of the text; the read
     * one past the end that follows is NextToken's IndexOutOfRange.
     */
    method SkipWhiteSpace()
      requires Valid()
      modifies this
      ensures Valid()
      ensures i == WhitespaceEnd(text, old(i))
    {
      while i < |text| && IsWhiteSpace(text[i])
        invariant old(i) <= i <= |text|
        invariant WhitespaceEnd(text, i) == WhitespaceEnd(text, old(i))
        decreases |text| - i
      {
        i := i + 1;
      }
    }

    /** Reads the letter run at the cursor and matches it as a keyword. */
    method ParseKeyword() returns (r: Result<Token, LexError>)
      requires Valid()
      modifies this
      ensures Valid()
      ensures i == LetterRunEnd(text, old(i))
      ensures r == KeywordToken(text[old(i)..i])
    {
      var word: string := "";
      while |text| > i && IsLetter(text[i])
        invariant old(i) <= i <= |text|
        invariant word == text[old(i)..i]
        invariant LetterRunEnd(text, i) == LetterRunEnd(text, old(i))
        decreases |text| - i
      {
        word := word + [text[i]];
        i := i + 1;
      }
      var potentialKeyword := Lower(word);
      if potentialKeyword == "true" {
        r := Ok(TrueToken);
      } else if potentialKeyword == "false" {
        r := Ok(FalseToken);
      } else if potentialKeyword == "and" {
        r := Ok(AndToken);
      } else if potentialKeyword == "or" {
        r := Ok(OrToken);
      } else {
        r := Err(UnexpectedKeyword(potentialKeyword));
      }
    }
  }
}

/** Properties of the lexer, stated on ScanFrom and proved by induction along the scan. */
module BooleanLogicParserProperties {
  import opened Wrappers
  import opened BooleanLogicParser

  /** A successful scan consumes the whole text; every scan stops inside it. */
  lemma {:induction false} ScanEndsAtEnd(text: string, i: nat)
    requires i <= |text|
    ensures i <= ScanFrom(text, i).cursor <= |text|
    ensures ScanFrom(text, i).outcome.Ok? ==> ScanFrom(text, i).cursor == |text|
    decreases |text| - i
  {
    if i < |text| {
      var j := WhitespaceEnd(text, i);
      if j < |text| {
        var c := text[j];
        if c == '!' || c == '(' || c == ')' {
          ScanEndsAtEnd(text, j + 1);
        } else if IsLetter(c) {
          var k := LetterRunEnd(text, j);
          if KeywordToken(text[j..k]).Ok? {
            ScanEndsAtEnd(text, k);
          }
        }
      }
    }
  }

  /** A second Tokenize on the same instance, after a first one succeeded, returns no tokens. */
  method SecondTokenizeIsEmpty(text: string) returns (first: Result<seq<Token>, LexError>, second: Result<seq<Token>, LexError>)
    ensures first == Lex(text).outcome
    ensures first.Ok? ==> second == Ok([])
  {
    var t := new Tokenizer(text);
    first := t.Tokenize();
    ScanEndsAtEnd(text, 0);
    second := t.Tokenize();
  }

  /**
   * An unknown character is reported at the cursor, where the scan stops,
   * together with the unconsumed suffix that starts there.
   */
  lemma {:induction false} UnknownGrammarReport(text: string, i: nat)
    requires i <= |text|
    ensures var s := ScanFrom(text, i);
      s.outcome.Err? && s.outcome.error.UnknownGrammar? ==>
        && s.cursor < |text|
        && s.outcome.error.position == s.cursor
        && s.outcome.error.remaining == text[s.cursor..]
        && !IsWhiteSpace(text[s.cursor]) && !IsLetter(text[s.cursor])
        && text[s.cursor] != '!' && text[s.cursor] != '(' && text[s.cursor] != ')'
    decreases |text| - i
  {
    if i < |text| {
      var j := WhitespaceEnd(text, i);
      if j < |text| {
        var c := text[j];
        if c == '!' || c == '(' || c == ')' {
          UnknownGrammarReport(text, j + 1);
        } else if IsLetter(c) {
          var k := LetterRunEnd(text, j);
          if KeywordToken(text[j..k]).Ok? {
            UnknownGrammarReport(text, k);
          }
        }
      }
    }
  }

  /**
   * A rejected keyword is the lower-cased maximal letter run that ends at the
   * cursor, and it is none of the four keywords.
   */
  lemma {:induction false} UnexpectedKeywordReport(text: string, i: nat)
    requires i <= |text|
    ensures var s := ScanFrom(text, i);
      s.outcome.Err? && s.outcome.error.UnexpectedKeyword? ==>
        && s.cursor <= |text|
        && (s.cursor == |text| || !IsLetter(text[s.cursor]))
        && s.outcome.error.found !in {"true", "false", "and", "or"}
        && exists a :: i <= a < s.cursor && s.outcome.error.found == Lower(text[a..s.cursor])
             && forall k :: a <= k < s.cursor ==> IsLetter(text[k])
    decreases |text| - i, 1
  {
    var s := ScanFrom(text, i);
    if i < |text| && s.outcome.Err? && s.outcome.error.UnexpectedKeyword? {
      var j := WhitespaceEnd(text, i);
      assert s == ScanToken(text, j);
      UnexpectedKeywordReportToken(text, j);
      var a :| j <= a < s.cursor && s.outcome.error.found == Lower(text[a..s.cursor])
        && forall k :: a <= k < s.cursor ==> IsLetter(text[k]);
      assert i <= a;
    }
  }

  lemma {:induction false} UnexpectedKeywordReportToken(text: string, j: nat)
    requires j <= |text|
    ensures var s := ScanToken(text, j);
      s.outcome.Err? && s.outcome.error.UnexpectedKeyword? ==>
        && s.cursor <= |text|
        && (s.cursor == |text| || !IsLetter(text[s.cursor]))
        && s.outcome.error.found !in {"true", "false", "and", "or"}
        && exists a :: j <= a < s.cursor && s.outcome.error.found == Lower(text[a..s.cursor])
             && forall k :: a <= k < s.cursor ==> IsLetter(text[k])
    decreases |text| - j, 0
  {
    var s := ScanToken(text, j);
    if j < |text| && s.outcome.Err? && s.outcome.error.UnexpectedKeyword? {
      var c := text[j];
      var next: nat;
      if c == '!' || c == '(' || c == ')' {
        next := j + 1;
      } else {
        var k := LetterRunEnd(text, j);
        KeywordMeaning(text[j..k]);
        if KeywordToken(text[j..k]).Err? {
          assert s == Scan(Err(UnexpectedKeyword(Lower(text[j..k]))), k);
          assert j <= j < s.cursor && s.outcome.error.found == Lower(text[j..s.cursor])
            && forall m :: j <= m < s.cursor ==> IsLetter(text[m]);
          return;
        }
        next := k;
      }
      assert s == ScanFrom(text, next);
      UnexpectedKeywordReport(text, next);
      var a :| next <= a < s.cursor && s.outcome.error.found == Lower(text[a..s.cursor])
        && forall k :: a <= k < s.cursor ==> IsLetter(text[k]);
      assert j <= a;
    }
  }

  lemma LowerTrueAnd()
    ensures Lower("trueAND") == "trueand"
  {
    var text := "trueAND";
    forall k | 0 <= k < 7
      ensures Lower(text)[k] == "trueand"[k]
    {
    }
  }

  /** Unspaced keywords form one letter run, which is rejected. */
  lemma UnspacedKeywordsRejected()
    ensures Lex("trueAND").outcome == Err(UnexpectedKeyword("trueand"))
  {
    var text := "trueAND";
    LetterRunEndIs(text, 0, 7);
    assert text[0..7] == text;
    LowerTrueAnd();
    assert KeywordToken(text[0..7]) == Err(UnexpectedKeyword("trueand"));
    assert WhitespaceEnd(text, 0) == 0;
    ErrorStep(text, 0, 0, UnexpectedKeyword("trueand"), 7);
  }

  /** LetterRunEnd is the end of any letter run that is followed by a non-letter or the end. */
  lemma {:induction false} LetterRunEndIs(text: string, i: nat, j: nat)
    requires i <= j <= |text|
    requires forall k :: i <= k < j ==> IsLetter(text[k])
    requires j == |text| || !IsLetter(text[j])
    ensures LetterRunEnd(text, i) == j
    decreases j - i
  {
    if i < j {
      LetterRunEndIs(text, i + 1, j);
    }
  }

  lemma WhiteSpaceIsNoLetter(c: char)
    ensures IsWhiteSpace(c) ==> !IsLetter(c)
  {
  }

  // ---------------------------------------------------------------------
  // Trailing whitespace: the whitespace loop has no bounds check.

  /**
   * As written: when the text ends in whitespace the whitespace loop reads
   * past the end, so no such text is ever tokenized.
   */
  lemma {:induction false} TrailingWhitespaceRejected(text: string, i: nat)
    requires i < |text| && IsWhiteSpace(text[|text| - 1])
    ensures ScanFrom(text, i).outcome.Err?
    decreases |text| - i
  {
    var j := WhitespaceEnd(text, i);
    if j < |text| {
      var c := text[j];
      assert j < |text| - 1;
      if c == '!' || c == '(' || c == ')' {
        TrailingWhitespaceRejected(text, j + 1);
      } else if IsLetter(c) {
        var k := LetterRunEnd(text, j);
        WhiteSpaceIsNoLetter(text[|text| - 1]);
        assert k < |text|;
        if KeywordToken(text[j..k]).Ok? {
          TrailingWhitespaceRejected(text, k);
        }
      }
    }
  }

  /** The smallest instance: one keyword and one space. */
  lemma TrailingSpaceExample()
    ensures Lex("true ").outcome == Err(IndexOutOfRange(5))
  {
    var text := "true ";
    LetterRunEndIs(text, 0, 4);
    assert text[0..4] == "true";
    assert WhitespaceEnd(text, 4) == 5;
  }

  /** The evidently intended loop: stop at the end of the text, then leave through the guard. */
  function ScanFromCorrected(text: string, i: nat): Scan
    requires i <= |text|
    decreases |text| - i, 1
  {
    if |text| <= i then Scan(Ok([]), i)
    else ScanTokenCorrected(text, WhitespaceEnd(text, i))
  }

  function ScanTokenCorrected(text: string, j: nat): Scan
    requires j <= |text|
    decreases |text| - j, 0
  {
    if j == |text| then Scan(Ok([]), j)
    else
      var c := text[j];
      if c == '!' then Join([NegationToken], ScanFromCorrected(text, j + 1))
      else if c == '(' then Join([OpenParenthesisToken], ScanFromCorrected(text, j + 1))
      else if c == ')' then Join([ClosedParenthesisToken], ScanFromCorrected(text, j + 1))
      else if IsLetter(c) then
        var k := LetterRunEnd(text, j);
        match KeywordToken(text[j..k])
        case Ok(t) => Join([t], ScanFromCorrected(text, k))
        case Err(e) => Scan(Err(e), k)
      else
        Scan(Err(UnknownGrammar(|text| - |text[j..]|, text[j..])), j)
  }

  /** The corrected lexer agrees with the original wherever the original succeeds. */
  lemma {:induction false} CorrectedAgreesWhereAccepted(text: string, i: nat)
    requires i <= |text|
    requires ScanFrom(text, i).outcome.Ok?
    ensures ScanFromCorrected(text, i) == ScanFrom(text, i)
    decreases |text| - i
  {
    if i < |text| {
      var j := WhitespaceEnd(text, i);
      var c := text[j];
      if c == '!' || c == '(' || c == ')' {
        CorrectedAgreesWhereAccepted(text, j + 1);
      } else if IsLetter(c) {
        CorrectedAgreesWhereAccepted(text, LetterRunEnd(text, j));
      }
    }
  }

  predicate AllWhiteSpace(s: string)
  {
    forall k :: 0 <= k < |s| ==> IsWhiteSpace(s[k])
  }

  lemma {:induction false} WhitespaceEndAppend(a: string, ws: string, i: nat)
    requires i <= |a| && AllWhiteSpace(ws)
    ensures WhitespaceEnd(a + ws, i) == if WhitespaceEnd(a, i) < |a| then WhitespaceEnd(a, i) else |a + ws|
    decreases |a + ws| - i
  {
    var t := a + ws;
    if i < |a| {
      if IsWhiteSpace(a[i]) {
        WhitespaceEndAppend(a, ws, i + 1);
      }
    } else if i < |t| {
      assert t[i] == ws[i - |a|];
      WhitespaceRunToEnd(t, i + 1);
    }
  }

  lemma {:induction false} WhitespaceRunToEnd(t: string, i: nat)
    requires i <= |t|
    requires forall k :: i <= k < |t| ==> IsWhiteSpace(t[k])
    ensures WhitespaceEnd(t, i) == |t|
    decreases |t| - i
  {
    if i < |t| {
      WhitespaceRunToEnd(t, i + 1);
    }
  }

  lemma {:induction false} LetterRunEndAppend(a: string, ws: string, i: nat)
    requires i <= |a| && AllWhiteSpace(ws)
    ensures LetterRunEnd(a + ws, i) == LetterRunEnd(a, i)
    decreases |a| - i
  {
    var t := a + ws;
    if i < |a| {
      if IsLetter(a[i]) {
        LetterRunEndAppend(a, ws, i + 1);
      }
    } else if i < |t| {
      assert t[i] == ws[i - |a|];
      WhiteSpaceIsNoLetter(t[i]);
    }
  }

  /** With the guard reachable, whitespace at the end of the text changes nothing. */
  lemma {:induction false} TrailingWhitespaceIgnored(text: string, ws: string, i: nat)
    requires i <= |text| && AllWhiteSpace(ws)
    requires ScanFromCorrected(text, i).outcome.Ok?
    ensures ScanFromCorrected(text + ws, i).outcome == ScanFromCorrected(text, i).outcome
    decreases |text| - i, 1
  {
    var t := text + ws;
    if i < |text| {
      var j := WhitespaceEnd(text, i);
      WhitespaceEndAppend(text, ws, i);
      if j < |text| {
        assert WhitespaceEnd(t, i) == j;
        TrailingWhitespaceIgnoredToken(text, ws, j);
      } else {
        assert WhitespaceEnd(t, i) == |t|;
      }
    } else if i < |t| {
      WhitespaceEndAppend(text, ws, i);
    }
  }

  lemma {:induction false} TrailingWhitespaceIgnoredToken(text: string, ws: string, j: nat)
    requires j < |text| && AllWhiteSpace(ws)
    requires ScanTokenCorrected(text, j).outcome.Ok?
    ensures ScanTokenCorrected(text + ws, j).outcome == ScanTokenCorrected(text, j).outcome
    decreases |text| - j, 0
  {
    var t := text + ws;
    var c := text[j];
    assert t[j] == c;
    if c == '!' || c == '(' || c == ')' {
      TrailingWhitespaceIgnored(text, ws, j + 1);
    } else if IsLetter(c) {
      var k := LetterRunEnd(text, j);
      LetterRunEndAppend(text, ws, j);
      assert t[j..k] == text[j..k];
      TrailingWhitespaceIgnored(text, ws, k);
    }
  }

  // ---------------------------------------------------------------------
  // Round trip through the canonical spelling of a token sequence.

  /** The lower-case spelling of a token. */
  function Spell(t: Token): (w: string)
    ensures |w| >= 1 && !IsWhiteSpace(w[0])
  {
    match t
    case TrueToken => "true"
    case FalseToken => "false"
    case AndToken => "and"
    case OrToken => "or"
    case NegationToken => "!"
    case OpenParenthesisToken => "("
    case ClosedParenthesisToken => ")"
  }

  /** Tokens spelled out and separated by single spaces. */
  function Render(ts: seq<Token>): (text: string)
    ensures ts != [] ==> |text| >= 1 && !IsWhiteSpace(text[0])
    decreases |ts|
  {
    if ts == [] then ""
    else if |ts| == 1 then Spell(ts[0])
    else Spell(ts[0]) + " " + Render(ts[1..])
  }

  predicate IsKeyword(t: Token)
  {
    t.TrueToken? || t.FalseToken? || t.AndToken? || t.OrToken?
  }

  lemma KeywordSpelled(t: Token)
    requires IsKeyword(t)
    ensures KeywordToken(Spell(t)) == Ok(t)
    ensures forall k :: 0 <= k < |Spell(t)| ==> IsLetter(Spell(t)[k])
  {
    var w := Spell(t);
    assert Lower(w) == w by {
      forall k | 0 <= k < |w|
        ensures Lower(w)[k] == w[k]
      {
      }
    }
  }

  /** A keyword spelled at `j` and not followed by a letter is read as that keyword. */
  lemma ScanKeywordAt(text: string, j: nat, t: Token)
    requires IsKeyword(t) && j + |Spell(t)| <= |text| && text[j..j + |Spell(t)|] == Spell(t)
    requires j + |Spell(t)| == |text| || !IsLetter(text[j + |Spell(t)|])
    ensures ScanToken(text, j) == Join([t], ScanFrom(text, j + |Spell(t)|))
  {
    var e := j + |Spell(t)|;
    KeywordSpelled(t);
    assert forall k :: j <= k < e ==> text[k] == text[j..e][k - j];
    LetterRunEndIs(text, j, e);
    assert text[j] == Spell(t)[0];
  }

  /** A spelled token at `j`, followed by a space or the end, is read as that token. */
  lemma ScanSpelledAt(text: string, j: nat, t: Token)
    requires j + |Spell(t)| <= |text| && text[j..j + |Spell(t)|] == Spell(t)
    requires j + |Spell(t)| == |text| || text[j + |Spell(t)|] == ' '
    ensures ScanFrom(text, j) == Join([t], ScanFrom(text, j + |Spell(t)|))
  {
    var w := Spell(t);
    assert text[j] == w[0];
    assert WhitespaceEnd(text, j) == j;
    if IsKeyword(t) {
      ScanKeywordAt(text, j, t);
    } else {
      assert |w| == 1;
    }
  }

  /** A single space before a token is skipped. */
  lemma SkipSeparatorAt(text: string, e: nat)
    requires e + 1 < |text| && text[e] == ' ' && !IsWhiteSpace(text[e + 1])
    ensures ScanFrom(text, e) == ScanFrom(text, e + 1)
  {
    assert WhitespaceEnd(text, e + 1) == e + 1;
    assert WhitespaceEnd(text, e) == e + 1;
  }

  /** Where `w`, a space and `rest` follow one another in `text`. */
  lemma SplitAt(text: string, j: nat, w: string, rest: string)
    requires j <= |text| && text[j..] == w + " " + rest
    ensures j + |w| < |text| && text[j..j + |w|] == w && text[j + |w|] == ' '
    ensures text[j + |w| + 1..] == rest
  {
    var u := text[j..];
    assert text[j..j + |w|] == u[..|w|];
    assert text[j + |w|] == u[|w|];
    assert text[j + |w| + 1..] == u[|w| + 1..];
  }

  /** `ts` spelled from position `j` to the end of `text`, one space between tokens. */
  predicate SpelledFrom(text: string, j: nat, ts: seq<Token>)
    decreases |ts|
  {
    if ts == [] then j == |text|
    else
      var e := j + |Spell(ts[0])|;
      && e <= |text| && text[j..e] == Spell(ts[0])
      && if |ts| == 1 then e == |text|
         else e < |text| && text[e] == ' ' && SpelledFrom(text, e + 1, ts[1..])
  }

  /** The canonical spelling of `ts`, found at the end of `text`, is spelled token by token. */
  lemma {:induction false} RenderSpelledFrom(text: string, j: nat, ts: seq<Token>)
    requires j <= |text| && text[j..] == Render(ts)
    ensures SpelledFrom(text, j, ts)
    decreases |ts|
  {
    if ts == [] {
      assert j == |text|;
    } else if |ts| == 1 {
      SpelledLast(text, j, ts[0]);
      assert [ts[0]] == ts;
    } else {
      SplitAt(text, j, Spell(ts[0]), Render(ts[1..]));
      RenderSpelledFrom(text, j + |Spell(ts[0])| + 1, ts[1..]);
      SpelledCons(text, j, ts);
    }
  }

  /** A single token spelled to the end of the text. */
  lemma SpelledLast(text: string, j: nat, t: Token)
    requires j <= |text| && text[j..] == Spell(t)
    ensures SpelledFrom(text, j, [t])
  {
    var e := j + |Spell(t)|;
    assert text[j..e] == text[j..];
  }

  /** A token, a space, and the rest spelled token by token. */
  lemma SpelledCons(text: string, j: nat, ts: seq<Token>)
    requires |ts| >= 2 && j + |Spell(ts[0])| < |text|
    requires text[j..j + |Spell(ts[0])|] == Spell(ts[0]) && text[j + |Spell(ts[0])|] == ' '
    requires SpelledFrom(text, j + |Spell(ts[0])| + 1, ts[1..])
    ensures SpelledFrom(text, j, ts)
  {
  }

  /** A text spelled token by token from `j` is read as those tokens. */
  lemma {:induction false} SpelledScan(text: string, j: nat, ts: seq<Token>)
    requires SpelledFrom(text, j, ts)
    ensures ScanFrom(text, j) == Scan(Ok(ts), |text|)
    decreases |ts|
  {
    if |ts| == 1 {
      ScanSpelledAt(text, j, ts[0]);
      JoinCons(ScanFrom(text, j), ScanFrom(text, j + |Spell(ts[0])|), ts, |text|);
    } else if |ts| > 1 {
      var e := j + |Spell(ts[0])| + 1;
      SpelledSeparator(text, j, ts);
      ScanSeparated(text, j, ts[0]);
      SpelledScan(text, e, ts[1..]);
      JoinCons(ScanFrom(text, j), ScanFrom(text, e), ts, |text|);
    }
  }

  /** The first token of a spelled text is followed by a space and then a token. */
  lemma SpelledSeparator(text: string, j: nat, ts: seq<Token>)
    requires |ts| >= 2 && SpelledFrom(text, j, ts)
    ensures j + |Spell(ts[0])| + 1 < |text| && text[j..j + |Spell(ts[0])|] == Spell(ts[0])
    ensures text[j + |Spell(ts[0])|] == ' ' && !IsWhiteSpace(text[j + |Spell(ts[0])| + 1])
    ensures SpelledFrom(text, j + |Spell(ts[0])| + 1, ts[1..])
  {
    var e := j + |Spell(ts[0])| + 1;
    var u := ts[1];
    assert text[e..e + |Spell(u)|] == Spell(u);
    assert text[e] == Spell(u)[0];
  }

  /** A spelled token followed by one space is read as that token, and the scan goes on after the space. */
  lemma ScanSeparated(text: string, j: nat, t: Token)
    requires j + |Spell(t)| + 1 < |text| && text[j..j + |Spell(t)|] == Spell(t)
    requires text[j + |Spell(t)|] == ' ' && !IsWhiteSpace(text[j + |Spell(t)| + 1])
    ensures ScanFrom(text, j) == Join([t], ScanFrom(text, j + |Spell(t)| + 1))
  {
    ScanSpelledAt(text, j, t);
    SkipSeparatorAt(text, j + |Spell(t)|);
  }

  /** A token joined to a successful scan of the rest of `ts` is a successful scan of `ts`. */
  lemma JoinCons(whole: Scan, tail: Scan, ts: seq<Token>, cursor: nat)
    requires ts != [] && whole == Join([ts[0]], tail) && tail == Scan(Ok(ts[1..]), cursor)
    ensures whole == Scan(Ok(ts), cursor)
  {
    assert [ts[0]] + ts[1..] == ts;
  }

  /** Tokenizing the canonical spelling of any token sequence gives that sequence back. */
  lemma LexRender(ts: seq<Token>)
    ensures Lex(Render(ts)) == Scan(Ok(ts), |Render(ts)|)
  {
    RenderSpelledFrom(Render(ts), 0, ts);
    SpelledScan(Render(ts), 0, ts);
  }

  // ---------------------------------------------------------------------
  // Case insensitivity.

  /** Two texts that differ only in the case of ASCII letters. */
  predicate CaseVariant(t1: string, t2: string)
  {
    |t1| == |t2| && forall k :: 0 <= k < |t1| ==> ToLower(t1[k]) == ToLower(t2[k])
  }

  lemma CharCaseVariant(c1: char, c2: char)
    requires ToLower(c1) == ToLower(c2)
    ensures IsWhiteSpace(c1) <==> IsWhiteSpace(c2)
    ensures IsLetter(c1) <==> IsLetter(c2)
    ensures !IsLetter(c1) ==> c1 == c2
  {
  }

  lemma {:induction false} WhitespaceEndCaseVariant(t1: string, t2: string, i: nat)
    requires CaseVariant(t1, t2) && i <= |t1|
    ensures WhitespaceEnd(t1, i) == WhitespaceEnd(t2, i)
    decreases |t1| - i
  {
    if i < |t1| {
      CharCaseVariant(t1[i], t2[i]);
      WhitespaceEndCaseVariant(t1, t2, i + 1);
    }
  }

  lemma {:induction false} LetterRunEndCaseVariant(t1: string, t2: string, i: nat)
    requires CaseVariant(t1, t2) && i <= |t1|
    ensures LetterRunEnd(t1, i) == LetterRunEnd(t2, i)
    decreases |t1| - i
  {
    if i < |t1| {
      CharCaseVariant(t1[i], t2[i]);
      LetterRunEndCaseVariant(t1, t2, i + 1);
    }
  }

  lemma LowerCaseVariantSlice(t1: string, t2: string, j: nat, k: nat)
    requires CaseVariant(t1, t2) && j <= k <= |t1|
    ensures Lower(t1[j..k]) == Lower(t2[j..k])
  {
    forall m | 0 <= m < k - j
      ensures Lower(t1[j..k])[m] == Lower(t2[j..k])[m]
    {
      assert t1[j..k][m] == t1[j + m] && t2[j..k][m] == t2[j + m];
    }
  }

  /**
   * Keyword matching ignores case: texts that differ only in letter case
   * tokenize alike, unless an unknown character is reported with the
   * (case-preserving) remaining text.
   */
  lemma {:induction false} CaseInsensitive(t1: string, t2: string, i: nat)
    requires CaseVariant(t1, t2) && i <= |t1|
    requires !(ScanFrom(t1, i).outcome.Err? && ScanFrom(t1, i).outcome.error.UnknownGrammar?)
    ensures ScanFrom(t2, i) == ScanFrom(t1, i)
    decreases |t1| - i, 2
  {
    if i < |t1| {
      WhitespaceEndCaseVariant(t1, t2, i);
      CaseInsensitiveToken(t1, t2, WhitespaceEnd(t1, i));
    }
  }

  lemma {:induction false} CaseInsensitiveToken(t1: string, t2: string, j: nat)
    requires CaseVariant(t1, t2) && j <= |t1|
    requires !(ScanToken(t1, j).outcome.Err? && ScanToken(t1, j).outcome.error.UnknownGrammar?)
    ensures ScanToken(t2, j) == ScanToken(t1, j)
    decreases |t1| - j, 1
  {
    if j < |t1| {
      var c := t1[j];
      CharCaseVariant(c, t2[j]);
      if c == '!' || c == '(' || c == ')' {
        assert t2[j] == c;
        CaseInsensitive(t1, t2, j + 1);
        assert ScanToken(t1, j) == Join([PunctuationToken(c)], ScanFrom(t1, j + 1));
        assert ScanToken(t2, j) == Join([PunctuationToken(c)], ScanFrom(t2, j + 1));
      } else if IsLetter(c) {
        CaseInsensitiveKeyword(t1, t2, j);
      }
    }
  }

  /** The letter-run case of CaseInsensitiveToken. */
  lemma {:induction false} CaseInsensitiveKeyword(t1: string, t2: string, j: nat)
    requires CaseVariant(t1, t2) && j < |t1| && IsLetter(t1[j])
    requires !(ScanToken(t1, j).outcome.Err? && ScanToken(t1, j).outcome.error.UnknownGrammar?)
    ensures ScanToken(t2, j) == ScanToken(t1, j)
    decreases |t1| - j, 0
  {
    var k := LetterRunEnd(t1, j);
    CharCaseVariant(t1[j], t2[j]);
    LetterRunEndCaseVariant(t1, t2, j);
    LowerCaseVariantSlice(t1, t2, j, k);
    var w := KeywordToken(t1[j..k]);
    assert KeywordToken(t2[j..k]) == w;
    if w.Ok? {
      CaseInsensitive(t1, t2, k);
      assert ScanToken(t1, j) == Join([w.value], ScanFrom(t1, k));
      assert ScanToken(t2, j) == Join([w.value], ScanFrom(t2, k));
    } else {
      assert ScanToken(t1, j) == Scan(Err(w.error), k);
    }
  }

  lemma MixedCaseRender()
    ensures Render([TrueToken, OrToken, NegationToken, FalseToken]) == "true or ! false"
  {
    var ts := [TrueToken, OrToken, NegationToken, FalseToken];
    assert Render(ts[3..]) == "false";
    assert Render(ts[2..]) == "! false";
  }

  lemma MixedCaseVariant()
    ensures CaseVariant("true or ! false", "TRUE Or ! False")
  {
    var t1, t2 := "true or ! false", "TRUE Or ! False";
    forall k | 0 <= k < |t1|
      ensures ToLower(t1[k]) == ToLower(t2[k])
    {
    }
  }

  /** `TRUE Or ! False` is read as `true or ! false`. */
  lemma MixedCaseExample()
    ensures Lex("TRUE Or ! False").outcome == Ok([TrueToken, OrToken, NegationToken, FalseToken])
  {
    var ts := [TrueToken, OrToken, NegationToken, FalseToken];
    MixedCaseRender();
    LexRender(ts);
    MixedCaseVariant();
    CaseInsensitive("true or ! false", "TRUE Or ! False", 0);
  }
}
