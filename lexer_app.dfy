/**
 * The earlier lexer of the editor component (`analyzeCode` and
 * `getNextToken`): no comments, no string literals and no decimal numbers;
 * identifiers must begin with a letter.  `NextToken` is one call of
 * `getNextToken`, `AppLexFrom` the driver loop.
 *
 * Keywords are looked up with the own entries of the keyword table only (see
 * `KeywordTypeAsWritten` for the lookup as written, which also finds the
 * members every JavaScript object inherits).
 */
module AppLexer {
  import opened Wrappers
  import opened Tokens
  import Lexer

  /** Messages of the form "Linha N: ...". */
  datatype AppError =
    | Malformed(line: int, text: string)   // "Identificador mal formado '...' (não pode começar com número)"
    | InvalidChar(line: int, c: char)      // "Caractere inválido 'c'"

  /** The record `getNextToken` returns. */
  datatype NextResult = NextResult(token: Option<Token>, newPosition: nat, lineIncrement: bool)

  /** One call of `getNextToken`: its result (`null` is `None`) and the message it pushes. */
  datatype Next = Next(result: Option<NextResult>, error: Option<AppError>)

  const Keywords: set<string> :=
    {"variavel", "se", "senao", "enquanto", "para", "funcao", "retornar", "inteiro", "decimal", "texto", "logico"}

  /** `[0-9]*` */
  function DigitEnd(s: string, p: nat): (e: nat)
    requires p <= |s|
    ensures p <= e <= |s|
    ensures forall k :: p <= k < e ==> IsAsciiDigit(s[k])
    ensures e < |s| ==> !IsAsciiDigit(s[e])
    decreases |s| - p
  {
    if p < |s| && IsAsciiDigit(s[p]) then DigitEnd(s, p + 1) else p
  }

  /** The fourteen entries of the symbol table, two-character comparisons first. */
  function SymbolAt(s: string, pos: nat, line: int): (r: Option<NextResult>)
    requires pos < |s|
  {
    var c := s[pos];
    var eq := pos + 1 < |s| && s[pos + 1] == '=';
    if c == '=' then
      Some(if eq then NextResult(Some(Token("==", TIgualdade, line)), pos + 2, false)
           else NextResult(Some(Token("=", TAtribuicao, line)), pos + 1, false))
    else if c == '<' then
      Some(if eq then NextResult(Some(Token("<=", TMenorIgual, line)), pos + 2, false)
           else NextResult(Some(Token("<", TMenor, line)), pos + 1, false))
    else if c == '>' then
      Some(if eq then NextResult(Some(Token(">=", TMaiorIgual, line)), pos + 2, false)
           else NextResult(Some(Token(">", TMaior, line)), pos + 1, false))
    else
      match Lexer.SymbolKind(c)
      case Some(k) => Some(NextResult(Some(Token([c], k, line)), pos + 1, false))
      case None => None
  }

  function NextToken(s: string, pos: nat, line: int): (r: Next)
    ensures r.result.None? <==> pos >= |s|
    ensures r.result.Some? ==> pos < r.result.value.newPosition <= |s|
    ensures r.result.Some? && r.result.value.token.Some? ==> r.result.value.token.value.line == line && r.error.None?
    ensures r.result.Some? && r.result.value.lineIncrement ==> s[pos] == '\n' && r.result.value.token.None?
    ensures r.error.Some? ==> r.error.value.line == line && r.result.Some? && r.result.value.token.None?
  {
    if pos >= |s| then Next(None, None)
    else
      var c := s[pos];
      if Lexer.IsSpace(c) then Next(Some(NextResult(None, pos + 1, c == '\n')), None)
      else if IsAsciiLetter(c) then
        var e := Lexer.WordEnd(s, pos + 1);
        var w := s[pos..e];
        Next(Some(NextResult(Some(Token(w, Lexer.KeywordKind(w), line)), e, false)), None)
      else if IsAsciiDigit(c) then
        var d := DigitEnd(s, pos + 1);
        var t := Lexer.TrailEnd(s, d);
        if t != d then Next(Some(NextResult(None, t, false)), Some(Malformed(line, s[pos..t])))
        else Next(Some(NextResult(Some(Token(s[pos..d], TNum, line)), d, false)), None)
      else
        match SymbolAt(s, pos, line)
        case Some(res) => Next(Some(res), None)
        case None => Next(Some(NextResult(None, pos + 1, false)), Some(InvalidChar(line, c)))
  }

  datatype AppResult = AppResult(tokens: seq<Token>, errors: seq<AppError>)

  /** The driver loop of `analyzeCode` from `pos`. */
  function AppLexFrom(s: string, pos: nat, line: int): (r: AppResult)
    requires pos <= |s|
    decreases |s| - pos
  {
    if pos == |s| then AppResult([], [])
    else
      var n := NextToken(s, pos, line);
      var res := n.result.value;
      var rest := AppLexFrom(s, res.newPosition, if res.lineIncrement then line + 1 else line);
      AppResult(Lexer.OptSeq(res.token) + rest.tokens, Lexer.OptSeq(n.error) + rest.errors)
  }

  function AppLex(code: string): AppResult {
    AppLexFrom(code + " ", 0, 1)
  }

  // ------------------------------------------------------ imperative scanner

  /** `getNextToken`; pushes its message onto `errors`. */
  method GetNextToken(code: string, pos: nat, line: int, errors: seq<AppError>)
    returns (result: Option<NextResult>, errors': seq<AppError>)
    ensures result == NextToken(code, pos, line).result
    ensures errors' == errors + Lexer.OptSeq(NextToken(code, pos, line).error)
  {
    errors' := errors;
    if pos >= |code| {
      return None, errors';
    }
    var position := pos;
    var c := code[position];
    if Lexer.IsSpace(c) {
      return Some(NextResult(None, position + 1, c == '\n')), errors';
    }
    position := position + 1;
    if IsAsciiLetter(c) {
      while position < |code| && IsWordChar(code[position])
        invariant pos < position <= |code|
        invariant Lexer.WordEnd(code, position) == Lexer.WordEnd(code, pos + 1)
        decreases |code| - position
      {
        position := position + 1;
      }
      var lexeme := code[pos..position];
      return Some(NextResult(Some(Token(lexeme, Lexer.KeywordKind(lexeme), line)), position, false)), errors';
    }
    if IsAsciiDigit(c) {
      while position < |code| && IsAsciiDigit(code[position])
        invariant pos < position <= |code|
        invariant DigitEnd(code, position) == DigitEnd(code, pos + 1)
        decreases |code| - position
      {
        position := position + 1;
      }
      var digits := position;
      while position < |code| && Lexer.IsLetterOrUnder(code[position])
        invariant digits <= position <= |code|
        invariant Lexer.TrailEnd(code, position) == Lexer.TrailEnd(code, digits)
        decreases |code| - position
      {
        position := position + 1;
      }
      if position != digits {
        errors' := errors' + [Malformed(line, code[pos..position])];
        return Some(NextResult(None, position, false)), errors';
      }
      return Some(NextResult(Some(Token(code[pos..digits], TNum, line)), digits, false)), errors';
    }
    var sym := SymbolAt(code, pos, line);
    if sym.Some? {
      return sym, errors';
    }
    errors' := errors' + [InvalidChar(line, c)];
    result := Some(NextResult(None, position, false));
  }

  /** `analyzeCode`, returning the tokens and messages it stores. */
  method AnalyzeCode(code: string) returns (tokens: seq<Token>, errors: seq<AppError>)
    ensures AppResult(tokens, errors) == AppLex(code)
  {
    var s := code + " ";
    ghost var full := AppLexFrom(s, 0, 1);
    var position: nat, currentLine := 0, 1;
    tokens, errors := [], [];
    while position < |s|
      invariant position <= |s|
      invariant full.tokens == tokens + AppLexFrom(s, position, currentLine).tokens
      invariant full.errors == errors + AppLexFrom(s, position, currentLine).errors
      decreases |s| - position
    {
      ghost var n := NextToken(s, position, currentLine);
      ghost var rest := AppLexFrom(s, n.result.value.newPosition,
                                   if n.result.value.lineIncrement then currentLine + 1 else currentLine);
      assert AppLexFrom(s, position, currentLine) ==
        AppResult(Lexer.OptSeq(n.result.value.token) + rest.tokens, Lexer.OptSeq(n.error) + rest.errors);
      var result;
      ghost var oldTokens, oldErrors := tokens, errors;
      result, errors := GetNextToken(s, position, currentLine, errors);
      if result.Some? {
        if result.value.token.Some? {
          tokens := tokens + [result.value.token.value];
        }
        assert tokens == oldTokens + Lexer.OptSeq(n.result.value.token);
        position := result.value.newPosition;
        if result.value.lineIncrement {
          currentLine := currentLine + 1;
        }
        Lexer.ConcatAssoc(oldTokens, Lexer.OptSeq(n.result.value.token), rest.tokens);
        Lexer.ConcatAssoc(oldErrors, Lexer.OptSeq(n.error), rest.errors);
      } else {
        // getNextToken answers null only past the end of the text
        assert false;
      }
    }
  }

  // ------------------------------------------------------------ properties

  /** The line counter is one more than the number of line feeds consumed. */
  lemma NextKeepsLineCount(s: string, pos: nat, line: int)
    requires pos < |s| && line == 1 + Newlines(s[..pos])
    ensures var res := NextToken(s, pos, line).result.value;
      (if res.lineIncrement then line + 1 else line) == 1 + Newlines(s[..res.newPosition])
  {
    var res := NextToken(s, pos, line).result.value;
    var c := s[pos];
    NewlinesStep(s, pos);
    if Lexer.IsSpace(c) {
    } else if IsAsciiLetter(c) {
      NewlinesNone(s, pos + 1, res.newPosition);
    } else if IsAsciiDigit(c) {
      var d := DigitEnd(s, pos + 1);
      NewlinesNone(s, pos + 1, d);
      NewlinesNone(s, d, Lexer.TrailEnd(s, d));
    } else if res.newPosition == pos + 2 {
      NewlinesStep(s, pos + 1);
    }
  }

  /** Identifiers must begin with a letter: a leading underscore is an invalid character. */
  lemma UnderscoreStartIsInvalid(s: string, pos: nat, line: int)
    requires pos < |s| && s[pos] == '_'
    ensures NextToken(s, pos, line) == Next(Some(NextResult(None, pos + 1, false)), Some(InvalidChar(line, '_')))
  {
  }

  /** Numbers are digit runs; a run followed by letters or underscores is reported whole. */
  lemma NumberOrMalformed(s: string, pos: nat, line: int)
    requires pos < |s| && IsAsciiDigit(s[pos])
    ensures var n := NextToken(s, pos, line);
      var d := DigitEnd(s, pos + 1);
      (n.error.None? <==> d == |s| || !Lexer.IsLetterOrUnder(s[d]))
      && (n.error.None? ==> n.result.value.token == Some(Token(s[pos..d], TNum, line))
                            && forall k :: 0 <= k < |s[pos..d]| ==> IsAsciiDigit(s[pos..d][k]))
      && (n.error.Some? ==> n.error.value == Malformed(line, s[pos..n.result.value.newPosition]))
  {
    assert !Lexer.IsSpace(s[pos]) && !IsAsciiLetter(s[pos]);
  }

  /** Characters outside every class are reported once and skipped, a quote or a dot included. */
  lemma InvalidCharacter(s: string, pos: nat, line: int)
    requires pos < |s|
    requires !Lexer.IsSpace(s[pos]) && !IsAsciiLetter(s[pos]) && !IsAsciiDigit(s[pos])
    requires s[pos] !in "=<>+-*/(){};,:"
    ensures NextToken(s, pos, line) == Next(Some(NextResult(None, pos + 1, false)), Some(InvalidChar(line, s[pos])))
  {
    assert Lexer.SymbolKind(s[pos]) == None;
  }

  // -------------------------------------------- keyword lookup (finding)

  /** What `keywords[lexeme] || 't_identificador'` yields: a kind, or a member inherited by every object. */
  datatype TypeValue = KindValue(kind: Kind) | InheritedMember(name: string)

  /** The members of `Object.prototype` whose names an identifier can spell. */
  const InheritedNames: set<string> :=
    {"constructor", "hasOwnProperty", "isPrototypeOf", "propertyIsEnumerable",
     "toLocaleString", "toString", "valueOf"}

  /** The lookup as written: a plain object also answers for its inherited members. */
  function KeywordTypeAsWritten(w: string): (t: TypeValue)
    ensures w in Keywords ==> t == KindValue(Lexer.KeywordKind(w))
  {
    if w in Keywords then KindValue(Lexer.KeywordKind(w))
    else if w in InheritedNames then InheritedMember(w)
    else KindValue(TIdentificador)
  }

  /** The identifier `constructor` gets a function for its type as written, and is an identifier once corrected. */
  lemma ConstructorTypeAsWritten()
    ensures KeywordTypeAsWritten("constructor") == InheritedMember("constructor")
    ensures NextToken("constructor ", 0, 1).result.value.token == Some(Token("constructor", TIdentificador, 1))
  {
    ConstructorWord();
    ConstructorNotKeyword();
    var s := "constructor ";
    assert s[0..11] == "constructor";
  }

  /** The own keyword table does not hold the word. */
  lemma ConstructorNotKeyword()
    ensures Lexer.KeywordKind("constructor") == TIdentificador
  {
  }

  /** The scan of `constructor ` stops at the blank. */
  lemma ConstructorWord()
    ensures Lexer.WordEnd("constructor ", 1) == 11
  {
    var s := "constructor ";
    assert forall k :: 1 <= k < 11 ==> IsWordChar(s[k]);
    assert !IsWordChar(s[11]);
  }

  /** With own entries only, every word is a keyword, a type name or an identifier. */
  lemma KeywordLookupCorrected(w: string)
    ensures Lexer.KeywordKind(w) == TTipo <==> w in {"inteiro", "decimal", "texto", "logico"}
    ensures Lexer.KeywordKind(w) == TIdentificador <==> w !in Keywords
    ensures w !in Keywords ==> KeywordTypeAsWritten(w) == KindValue(Lexer.KeywordKind(w)) <==> w !in InheritedNames
  {
  }
}
