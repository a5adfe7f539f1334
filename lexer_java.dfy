/**
 * The lexical analyser of the desktop front end (`HelloController`): the
 * controller keeps the text, the cursor, the current line, the tokens and
 * the messages in fields, and `getProximoToken` / `consumirEspacos` advance
 * them.  `JNext` and `SkipSpaces` are those two methods as functions of the
 * fields they read; `JLexFrom` is the driver loop of `analisarCodigo`.
 */
module JavaLexer {
  import opened Wrappers
  import opened Tokens
  import Lexer

  // ------------------------------------------------------ character classes

  /** `Character.isWhitespace`. */
  predicate IsWhitespace(c: char) {
    var n := c as int;
    (9 <= n <= 13) || (28 <= n <= 32) || n == 0x1680 || (0x2000 <= n <= 0x2006)
    || (0x2008 <= n <= 0x200A) || n == 0x2028 || n == 0x2029 || n == 0x205F || n == 0x3000
  }

  /** `Character.isLetter`, for the Latin blocks (up to U+024F). */
  predicate IsLetter(c: char) {
    var n := c as int;
    IsAsciiLetter(c) || n == 0xAA || n == 0xB5 || n == 0xBA
    || (0xC0 <= n <= 0xD6) || (0xD8 <= n <= 0xF6) || (0xF8 <= n <= 0x24F)
  }

  /** `Character.isDigit`, for the same blocks: the ASCII digits. */
  predicate IsDigit(c: char) {
    IsAsciiDigit(c)
  }

  /** Continuation of an identifier: `isLetterOrDigit(c) || c == '_'`. */
  predicate IsIdentPart(c: char) {
    IsLetter(c) || IsDigit(c) || c == '_'
  }

  // ------------------------------------------------------------- messages

  /** Messages "Linha N: ...". */
  datatype JError =
    | Malformed(line: int, lexeme: string)       // "Identificador mal formado '...'"
    | TooLongIdent(line: int, lexeme: string)    // "Identificador muito longo '...'"
    | MalformedNumber(line: int, lexeme: string) // "Número mal formado '...'"
    | TooLongNumber(line: int, lexeme: string)   // "Número muito longo '...'"
    | UnclosedComment(line: int)                 // "Comentário não fechado"
    | UnclosedString(line: int, lexeme: string)  // "String não fechada '...'"
    | InvalidChar(line: int, c: char)            // "Caractere inválido 'c'"

  predicate AllDigits(w: string) {
    forall k :: 0 <= k < |w| ==> IsDigit(w[k])
  }

  /** `w.matches("\\d+\\.\\d*\\.\\d+")`. */
  predicate MalformedNumberText(w: string) {
    exists i, j :: 1 <= i < j < |w| - 1 && w[i] == '.' && w[j] == '.'
      && AllDigits(w[..i]) && AllDigits(w[i + 1..j]) && AllDigits(w[j + 1..])
  }

  /**
   * The checks of the `default` branch, in order, on the lexeme read so far;
   * `next` is the character after it.
   */
  function DefaultErrors(lexeme: string, next: char, line: int): (es: seq<JError>)
    requires |lexeme| > 0
  {
    (if !IsLetter(next) && !IsDigit(next) && next != '_' then [Malformed(line, lexeme)] else [])
    + (if |lexeme| > 20 then [TooLongIdent(line, lexeme)] else [])
    + (if MalformedNumberText(lexeme) then [MalformedNumber(line, lexeme)] else [])
    + (if |lexeme| > 10 then [TooLongNumber(line, lexeme)] else [])
    + (if lexeme[0] == '{' && lexeme[|lexeme| - 1] != '}' then [UnclosedComment(line)] else [])
    + (if lexeme[0] == '"' && lexeme[|lexeme| - 1] != '"' then [UnclosedString(line, lexeme)] else [])
    + [InvalidChar(line, lexeme[0])]
  }

  // -------------------------------------------------------- spec functions

  function IdentEnd(s: string, p: nat): (e: nat)
    requires p <= |s|
    ensures p <= e <= |s|
    ensures forall k :: p <= k < e ==> IsIdentPart(s[k])
    ensures e < |s| ==> !IsIdentPart(s[e])
    decreases |s| - p
  {
    if p < |s| && IsIdentPart(s[p]) then IdentEnd(s, p + 1) else p
  }

  function DigitEnd(s: string, p: nat): (e: nat)
    requires p <= |s|
    ensures p <= e <= |s|
    ensures forall k :: p <= k < e ==> IsDigit(s[k])
    ensures e < |s| ==> !IsDigit(s[e])
    decreases |s| - p
  {
    if p < |s| && IsDigit(s[p]) then DigitEnd(s, p + 1) else p
  }

  /** The state `getProximoToken` leaves and what it returns and adds to `erros`. */
  datatype JStep = JStep(token: Option<Token>, pos: nat, line: int, errors: seq<JError>)

  /** The keyword `switch` on the word read. */
  function WordKind(w: string): Kind {
    Lexer.KeywordKind(w)
  }

  function OperatorKind(c: char, twoChar: bool): Option<(string, Kind)> {
    if c == '=' then Some(if twoChar then ("==", TIgualdade) else ("=", TAtribuicao))
    else if c == '<' then Some(if twoChar then ("<=", TMenorIgual) else ("<", TMenor))
    else if c == '>' then Some(if twoChar then (">=", TMaiorIgual) else (">", TMaior))
    else match Lexer.SymbolKind(c)
      case Some(k) => Some(([c], k))
      case None => None
  }

  /**
   * `getProximoToken`.  The text must end in white space, as `analisarCodigo`
   * ensures by appending a blank: the `default` branch looks one character
   * past the one it rejects.
   */
  function JNext(s: string, pos: nat, line: int): (r: JStep)
    requires |s| > 0 && IsWhitespace(s[|s| - 1])
    ensures pos < |s| ==> pos < r.pos <= |s|
    ensures pos >= |s| ==> r == JStep(None, pos, line, [])
    ensures r.token.Some? ==> r.token.value.line == line && r.errors == []
  {
    if pos >= |s| then JStep(None, pos, line, [])
    else
      var c := s[pos];
      if IsWhitespace(c) then JStep(None, pos + 1, if c == '\n' then line + 1 else line, [])
      else if IsLetter(c) then
        var e := IdentEnd(s, pos + 1);
        JStep(Some(Token(s[pos..e], WordKind(s[pos..e]), line)), e, line, [])
      else if IsDigit(c) then
        var e := DigitEnd(s, pos + 1);
        JStep(Some(Token(s[pos..e], TNum, line)), e, line, [])
      else
        var twoChar := (c == '=' || c == '<' || c == '>') && pos + 1 < |s| && s[pos + 1] == '=';
        match OperatorKind(c, twoChar)
        case Some(op) => JStep(Some(Token(op.0, op.1, line)), if twoChar then pos + 2 else pos + 1, line, [])
        case None => JStep(None, pos + 1, line, DefaultErrors([c], s[pos + 1], line))
  }

  datatype Cursor = Cursor(pos: nat, line: int)

  /** `consumirEspacos`. */
  function SkipSpaces(s: string, pos: nat, line: int): (r: Cursor)
    ensures pos <= |s| ==> pos <= r.pos <= |s|
    ensures pos <= |s| ==> forall k :: pos <= k < r.pos ==> IsWhitespace(s[k])
    ensures r.pos < |s| ==> !IsWhitespace(s[r.pos])
    ensures line <= r.line
    decreases |s| - pos
  {
    if pos < |s| && IsWhitespace(s[pos]) then
      SkipSpaces(s, pos + 1, if s[pos] == '\n' then line + 1 else line)
    else Cursor(pos, line)
  }

  datatype JResult = JResult(tokens: seq<Token>, errors: seq<JError>)

  /** The loop of `analisarCodigo` from `pos`: one token attempt, then the white space after it. */
  function JLexFrom(s: string, pos: nat, line: int): (r: JResult)
    requires |s| > 0 && IsWhitespace(s[|s| - 1]) && pos <= |s|
    decreases |s| - pos
  {
    if pos == |s| then JResult([], [])
    else
      var n := JNext(s, pos, line);
      var c := SkipSpaces(s, n.pos, n.line);
      var rest := JLexFrom(s, c.pos, c.line);
      JResult(Lexer.OptSeq(n.token) + rest.tokens, n.errors + rest.errors)
  }

  function JLex(text: string): JResult {
    JLexFrom(text + " ", 0, 1)
  }

  // ------------------------------------------------------- the controller

  class Controller {
    var posicao: nat
    var codigo: string
    var linhaAtual: int
    var tokens: seq<Token>
    var erros: seq<JError>

    /** The text ends in white space (the appended blank) and the cursor is inside it. */
    predicate Valid()
      reads this
    {
      |codigo| > 0 && IsWhitespace(codigo[|codigo| - 1]) && posicao <= |codigo|
    }

    constructor()
      ensures tokens == [] && erros == []
    {
      posicao, codigo, linhaAtual := 0, " ", 1;
      tokens, erros := [], [];
    }

    /** `getProximoToken`. */
    method GetProximoToken() returns (token: Option<Token>)
      requires Valid()
      modifies this
      ensures Valid() && codigo == old(codigo) && tokens == old(tokens)
      ensures var r := JNext(old(codigo), old(posicao), old(linhaAtual));
        token == r.token && posicao == r.pos && linhaAtual == r.line && erros == old(erros) + r.errors
    {
      if posicao >= |codigo| {
        return None;
      }
      var c := codigo[posicao];
      if IsWhitespace(c) {
        if c == '\n' {
          linhaAtual := linhaAtual + 1;
        }
        posicao := posicao + 1;
        return None;
      }
      var start := posicao;
      posicao := posicao + 1;
      if IsLetter(c) {
        PularIdentificador();
        var palavra := codigo[start..posicao];
        return Some(Token(palavra, WordKind(palavra), linhaAtual));
      }
      if IsDigit(c) {
        PularDigitos();
        return Some(Token(codigo[start..posicao], TNum, linhaAtual));
      }
      var twoChar := (c == '=' || c == '<' || c == '>') && posicao < |codigo| && codigo[posicao] == '=';
      var op := OperatorKind(c, twoChar);
      if op.Some? {
        if twoChar {
          posicao := posicao + 1;
        }
        return Some(Token(op.value.0, op.value.1, linhaAtual));
      }
      erros := erros + DefaultErrors([c], codigo[posicao], linhaAtual);
      return None;
    }

    /** The inner loop of the identifier branch: the cursor moves past letters, digits and `_`. */
    method PularIdentificador()
      requires posicao <= |codigo|
      modifies this
      ensures posicao == IdentEnd(old(codigo), old(posicao))
      ensures codigo == old(codigo) && tokens == old(tokens) && erros == old(erros) && linhaAtual == old(linhaAtual)
    {
      while posicao < |codigo| && IsIdentPart(codigo[posicao])
        invariant old(posicao) <= posicao <= |codigo|
        invariant codigo == old(codigo) && tokens == old(tokens) && erros == old(erros) && linhaAtual == old(linhaAtual)
        invariant IdentEnd(codigo, posicao) == IdentEnd(codigo, old(posicao))
        decreases |codigo| - posicao
      {
        posicao := posicao + 1;
      }
    }

    /** The inner loop of the number branch: the cursor moves past digits. */
    method PularDigitos()
      requires posicao <= |codigo|
      modifies this
      ensures posicao == DigitEnd(old(codigo), old(posicao))
      ensures codigo == old(codigo) && tokens == old(tokens) && erros == old(erros) && linhaAtual == old(linhaAtual)
    {
      while posicao < |codigo| && IsDigit(codigo[posicao])
        invariant old(posicao) <= posicao <= |codigo|
        invariant codigo == old(codigo) && tokens == old(tokens) && erros == old(erros) && linhaAtual == old(linhaAtual)
        invariant DigitEnd(codigo, posicao) == DigitEnd(codigo, old(posicao))
        decreases |codigo| - posicao
      {
        posicao := posicao + 1;
      }
    }

    /** `consumirEspacos`. */
    method ConsumirEspacos()
      requires Valid()
      modifies this
      ensures Valid() && codigo == old(codigo) && tokens == old(tokens) && erros == old(erros)
      ensures Cursor(posicao, linhaAtual) == SkipSpaces(old(codigo), old(posicao), old(linhaAtual))
    {
      while posicao < |codigo| && IsWhitespace(codigo[posicao])
        invariant Valid() && codigo == old(codigo) && tokens == old(tokens) && erros == old(erros)
        invariant SkipSpaces(codigo, posicao, linhaAtual) == SkipSpaces(old(codigo), old(posicao), old(linhaAtual))
        decreases |codigo| - posicao
      {
        if codigo[posicao] == '\n' {
          linhaAtual := linhaAtual + 1;
        }
        posicao := posicao + 1;
      }
    }

    /** `analisarCodigo` on the text of the editor. */
    method AnalisarCodigo(text: string)
      modifies this
      ensures Valid() && codigo == text + " " && posicao == |codigo|
      ensures tokens == JLex(text).tokens && erros == JLex(text).errors
    {
      tokens, erros := [], [];
      codigo := text + " ";
      posicao, linhaAtual := 0, 1;
      ghost var full := JLexFrom(codigo, 0, 1);
      while posicao < |codigo|
        invariant Valid() && codigo == text + " "
        invariant full.tokens == tokens + JLexFrom(codigo, posicao, linhaAtual).tokens
        invariant full.errors == erros + JLexFrom(codigo, posicao, linhaAtual).errors
        decreases |codigo| - posicao
      {
        ghost var p0, l0 := posicao, linhaAtual;
        JLexFromUnfold(codigo, p0, l0);
        ghost var oldTokens, oldErros := tokens, erros;
        ghost var n := JNext(codigo, p0, l0);
        Rodada();
        ghost var rest := JLexFrom(codigo, posicao, linhaAtual);
        assert JLexFrom(codigo, p0, l0) == JResult(Lexer.OptSeq(n.token) + rest.tokens, n.errors + rest.errors);
        Lexer.ConcatAssoc(oldTokens, Lexer.OptSeq(n.token), rest.tokens);
        Lexer.ConcatAssoc(oldErros, n.errors, rest.errors);
      }
      assert JLexFrom(codigo, posicao, linhaAtual) == JResult([], []);
      assert tokens + [] == tokens && erros + [] == erros;
    }

    /** One round of the loop of `analisarCodigo`: a token attempt, then the white space after it. */
    method Rodada()
      requires Valid() && posicao < |codigo|
      modifies this
      ensures Valid() && codigo == old(codigo)
      ensures var n := JNext(old(codigo), old(posicao), old(linhaAtual));
        var c := SkipSpaces(old(codigo), n.pos, n.line);
        tokens == old(tokens) + Lexer.OptSeq(n.token) && erros == old(erros) + n.errors
        && posicao == c.pos && linhaAtual == c.line
    {
      var token := GetProximoToken();
      if token.Some? {
        tokens := tokens + [token.value];
      }
      ConsumirEspacos();
    }
  }

  /** One round of the scan: its token and messages come before those of the rest. */
  lemma JLexFromUnfold(s: string, pos: nat, line: int)
    requires |s| > 0 && IsWhitespace(s[|s| - 1]) && pos < |s|
    ensures var n := JNext(s, pos, line);
      var c := SkipSpaces(s, n.pos, n.line);
      var rest := JLexFrom(s, c.pos, c.line);
      JLexFrom(s, pos, line) == JResult(Lexer.OptSeq(n.token) + rest.tokens, n.errors + rest.errors)
  {
  }

  // ----------------------------------------------------------- properties

  /** `getProximoToken` keeps the line counter at one more than the line feeds consumed. */
  lemma JNextKeepsLineCount(s: string, pos: nat, line: int)
    requires |s| > 0 && IsWhitespace(s[|s| - 1]) && pos <= |s|
    requires line == 1 + Newlines(s[..pos])
    ensures var r := JNext(s, pos, line); r.line == 1 + Newlines(s[..r.pos])
  {
    if pos < |s| {
      var r := JNext(s, pos, line);
      NewlinesStep(s, pos);
      if !IsWhitespace(s[pos]) {
        NewlinesNone(s, pos + 1, r.pos);
      }
    }
  }

  /** So does `consumirEspacos`. */
  lemma {:induction false} SkipSpacesKeepsLineCount(s: string, pos: nat, line: int)
    requires pos <= |s| && line == 1 + Newlines(s[..pos])
    ensures var r := SkipSpaces(s, pos, line); r.line == 1 + Newlines(s[..r.pos])
    decreases |s| - pos
  {
    if pos < |s| && IsWhitespace(s[pos]) {
      NewlinesStep(s, pos);
      SkipSpacesKeepsLineCount(s, pos + 1, if s[pos] == '\n' then line + 1 else line);
    }
  }

  /**
   * From a cursor whose line is the right one, the tokens come in order of
   * line, none before `line`, and every message names a line between `line`
   * and the last line of the text.
   */
  lemma {:induction false} JLexFromLines(s: string, pos: nat, line: int)
    requires |s| > 0 && IsWhitespace(s[|s| - 1]) && pos <= |s|
    requires line == 1 + Newlines(s[..pos])
    ensures Lexer.LinesFrom(JLexFrom(s, pos, line).tokens, line)
    ensures forall e :: e in JLexFrom(s, pos, line).errors ==> line <= e.line <= 1 + Newlines(s)
    decreases |s| - pos
  {
    if pos < |s| {
      JLexFromUnfold(s, pos, line);
      var n := JNext(s, pos, line);
      JNextKeepsLineCount(s, pos, line);
      var c := SkipSpaces(s, n.pos, n.line);
      SkipSpacesKeepsLineCount(s, n.pos, n.line);
      JLexFromLines(s, c.pos, c.line);
      var rest := JLexFrom(s, c.pos, c.line);
      NewlinesPrefix(s, pos);
      assert line <= n.line by {
        NewlinesStep(s, pos);
      }
      JNextErrorLines(s, pos, line);
      LinesFromPrepend(Lexer.OptSeq(n.token), rest.tokens, line, c.line);
    }
  }

  /** The messages of one token attempt carry the line it started on. */
  lemma JNextErrorLines(s: string, pos: nat, line: int)
    requires |s| > 0 && IsWhitespace(s[|s| - 1])
    ensures forall e :: e in JNext(s, pos, line).errors ==> e.line == line
  {
  }

  /** At most one token on a line, before tokens from a later line on. */
  lemma LinesFromPrepend(a: seq<Token>, b: seq<Token>, line: int, later: int)
    requires |a| <= 1 && (forall i :: 0 <= i < |a| ==> a[i].line == line)
    requires line <= later && Lexer.LinesFrom(b, later)
    ensures Lexer.LinesFrom(a + b, line)
  {
  }

  lemma {:induction false} NewlinesPrefix(s: string, i: nat)
    requires i <= |s|
    ensures Newlines(s[..i]) <= Newlines(s)
    decreases |s| - i
  {
    if i < |s| {
      NewlinesStep(s, i);
      NewlinesPrefix(s, i + 1);
    } else {
      assert s[..i] == s;
    }
  }

  /** The tokens of the editor text come in order of line, from line 1. */
  lemma JLexLines(text: string)
    ensures Lexer.LinesFrom(JLex(text).tokens, 1)
    ensures forall e :: e in JLex(text).errors ==> 1 <= e.line <= 1 + Newlines(text)
  {
    var s := text + " ";
    assert s[..0] == [];
    JLexFromLines(s, 0, 1);
    NewlinesAppend(text, " ");
    assert Newlines(" ") == 0 by {
      assert " "[..0] == [];
    }
  }

  /**
   * The `default` branch on its one-character lexeme: the length, number
   * and string checks can never fire, the comment check only for `{` (which
   * the operator branch takes first), the malformed-identifier
   * message appears exactly when the next character cannot continue an
   * identifier, and the invalid-character message always closes the list.
   */
  lemma DefaultBranchErrors(c: char, next: char, line: int)
    ensures DefaultErrors([c], next, line) ==
      (if IsIdentPart(next) then [] else [Malformed(line, [c])])
      + (if c == '{' then [UnclosedComment(line)] else []) + [InvalidChar(line, c)]
  {
    var w := [c];
    assert !MalformedNumberText(w);
    assert w[0] == c && w[|w| - 1] == c;
    assert !(|w| > 20) && !(|w| > 10);
  }

  /** A character no branch accepts yields no token and one or two messages. */
  lemma InvalidCharacter(s: string, pos: nat, line: int)
    requires |s| > 0 && IsWhitespace(s[|s| - 1]) && pos < |s|
    requires !IsWhitespace(s[pos]) && !IsLetter(s[pos]) && !IsDigit(s[pos])
    requires s[pos] !in "=<>" && Lexer.SymbolKind(s[pos]).None?
    ensures var r := JNext(s, pos, line);
      r.token.None? && r.pos == pos + 1 && r.line == line
      && r.errors == (if IsIdentPart(s[pos + 1]) then [] else [Malformed(line, [s[pos]])])
                     + [InvalidChar(line, s[pos])]
  {
    DefaultBranchErrors(s[pos], s[pos + 1], line);
  }

  /** A letter starts a word of letters, digits and underscores, classified by the keyword table. */
  lemma WordToken(s: string, pos: nat, line: int)
    requires |s| > 0 && IsWhitespace(s[|s| - 1]) && pos < |s| && IsLetter(s[pos])
    ensures var r := JNext(s, pos, line);
      r.token.Some? && r.errors == [] && r.line == line
      && r.token.value.lexeme == s[pos..r.pos] && r.token.value.kind == Lexer.KeywordKind(s[pos..r.pos])
      && (forall k :: pos < k < r.pos ==> IsIdentPart(s[k]))
      && r.pos < |s| && !IsIdentPart(s[r.pos])
  {
    assert !IsWhitespace(s[pos]);
  }

  /** A digit starts a number that stops at the first non-digit, whatever follows it. */
  lemma NumberToken(s: string, pos: nat, line: int)
    requires |s| > 0 && IsWhitespace(s[|s| - 1]) && pos < |s| && IsDigit(s[pos])
    ensures var r := JNext(s, pos, line);
      r.token == Some(Token(s[pos..r.pos], TNum, line)) && r.errors == []
      && AllDigits(s[pos..r.pos]) && r.pos < |s| && !IsDigit(s[r.pos])
  {
    assert !IsWhitespace(s[pos]) && !IsLetter(s[pos]);
    var r := JNext(s, pos, line);
    assert forall k :: 0 <= k < r.pos - pos ==> s[pos..r.pos][k] == s[pos + k];
  }

  /** `=`, `<` and `>` followed by `=` make a two-character operator. */
  lemma LongestOperator(s: string, pos: nat, line: int)
    requires |s| > 0 && IsWhitespace(s[|s| - 1]) && pos + 1 < |s|
    requires s[pos] in "=<>" && s[pos + 1] == '='
    ensures var r := JNext(s, pos, line);
      r.pos == pos + 2 && r.token.Some? && r.token.value.lexeme == [s[pos], '=']
      && r.token.value.kind in {TIgualdade, TMenorIgual, TMaiorIgual}
  {
  }

  /**
   * Unlike the web lexer, a number directly followed by letters is two
   * tokens and no message.
   */
  lemma NumberThenWordExample(code: string)
    requires code == "123abc"
    ensures JLex(code) == JResult([Token("123", TNum, 1), Token("abc", TIdentificador, 1)], [])
  {
    var s := code + " ";
    assert s == "123abc ";
    NumberThenWordSteps();
    assert SkipSpaces(s, 3, 1) == Cursor(3, 1);
    assert SkipSpaces(s, 6, 1) == Cursor(7, 1);
    assert JLexFrom(s, 7, 1) == JResult([], []);
    assert JLexFrom(s, 3, 1) == JResult([Token("abc", TIdentificador, 1)], []);
  }

  /** The two tokens of that example, one call each. */
  lemma NumberThenWordSteps()
    ensures JNext("123abc ", 0, 1) == JStep(Some(Token("123", TNum, 1)), 3, 1, [])
    ensures JNext("123abc ", 3, 1) == JStep(Some(Token("abc", TIdentificador, 1)), 6, 1, [])
  {
    var s := "123abc ";
    assert DigitEnd(s, 1) == 3 && s[0..3] == "123";
    assert IdentEnd(s, 4) == 6 && s[3..6] == "abc";
  }

  /** Accented letters are letters here, so a Portuguese word is one identifier. */
  lemma AccentedIdentifierExample(code: string)
    requires code == "ação"
    ensures JLex(code) == JResult([Token("ação", TIdentificador, 1)], [])
  {
    var s := code + " ";
    assert s == "ação ";
    assert IdentEnd(s, 1) == 4 && s[0..4] == "ação";
    assert JNext(s, 0, 1) == JStep(Some(Token("ação", TIdentificador, 1)), 4, 1, []);
    assert SkipSpaces(s, 4, 1) == Cursor(5, 1);
    assert JLexFrom(s, 5, 1) == JResult([], []);
  }
}
