/**
 * The lexical analyser of the web front end (`analisarCodigo`): one pass over
 * the source text plus a trailing blank, producing tokens and error messages.
 *
 * Each iteration of the main loop is the function `StepAt`; `LexFrom` runs it
 * to the end of the text and `Lex` is the whole analysis.  The imperative
 * scanner `AnalisarCodigo` (and the helper scanners for its inner loops) is
 * proved equal to these functions.
 *
 * The line counter follows the corrected behaviour (see `StepAsWritten` for
 * the code as written, which counts some line feeds twice and others not at
 * all inside string literals).
 */
module Lexer {
  import opened Wrappers
  import opened Tokens

  // ---------------------------------------------------------------- errors

  /** What an error message reports, besides its line. */
  datatype LexMsg =
    | UnclosedComment(startLine: int)   // "Comentário de bloco não fechado, iniciado na linha N"
    | UnclosedString(startLine: int)    // "String não fechada, iniciada na linha N"
    | Malformed(text: string)           // "Identificador mal formado '...' (não pode começar com número)"
    | InvalidChar(c: char)              // "Caractere inválido 'c'"

  datatype LexError =
    | InvalidInput                      // "Código de entrada inválido ou vazio"
    | Lexical(line: int, msg: LexMsg)   // "Erro léxico na linha N: ..."

  datatype LexResult = LexResult(tokens: seq<Token>, errors: seq<LexError>)

  // ------------------------------------------------------ character classes

  /** `\s` of JavaScript regular expressions. */
  predicate IsSpace(c: char) {
    var n := c as int;
    (9 <= n <= 13) || n == 32 || n == 0xA0 || n == 0x1680 || (0x2000 <= n <= 0x200A)
    || n == 0x2028 || n == 0x2029 || n == 0x202F || n == 0x205F || n == 0x3000 || n == 0xFEFF
  }

  /** `[a-zA-Z_]` */
  predicate IsLetterOrUnder(c: char) {
    IsAsciiLetter(c) || c == '_'
  }

  /** The keyword table: seven statement keywords and four type names. */
  function KeywordKind(w: string): Kind {
    if w == "variavel" then TVariavel
    else if w == "se" then TSe
    else if w == "senao" then TSenao
    else if w == "enquanto" then TEnquanto
    else if w == "para" then TPara
    else if w == "funcao" then TFuncao
    else if w == "retornar" then TRetornar
    else if w == "inteiro" || w == "decimal" || w == "texto" || w == "logico" then TTipo
    else TIdentificador
  }

  /** The single-character symbols of the operator switch (other than `=`, `<`, `>`). */
  function SymbolKind(c: char): Option<Kind> {
    match c
    case '+' => Some(TSoma)
    case '-' => Some(TSubtracao)
    case '*' => Some(TMultiplicacao)
    case '/' => Some(TDivisao)
    case '(' => Some(TAbrePar)
    case ')' => Some(TFechaPar)
    case '{' => Some(TAbreChave)
    case '}' => Some(TFechaChave)
    case ';' => Some(TPv)
    case ',' => Some(TVirgula)
    case ':' => Some(TDoisPontos)
    case _ => None
  }

  // ---------------------------------------------------------- sub-scanners

  /** Body of a `//` comment: up to (not including) the next line feed. */
  function LineCommentEnd(s: string, p: nat): (e: nat)
    requires p <= |s|
    ensures p <= e <= |s|
    ensures e < |s| ==> s[e] == '\n'
    ensures forall k :: p <= k < e ==> s[k] != '\n'
    decreases |s| - p
  {
    if p < |s| && s[p] != '\n' then LineCommentEnd(s, p + 1) else p
  }

  datatype CommentScan = CommentScan(pos: nat, line: int, closed: bool)

  /** The closing star-slash of a block comment starts at `k`. */
  predicate ClosesAt(s: string, k: int) {
    0 <= k && k + 1 < |s| && s[k] == '*' && s[k + 1] == '/'
  }

  /** Body of a block comment: up to and including the first `*`+`/`, counting line feeds. */
  function BlockComment(s: string, p: nat, line: int): (r: CommentScan)
    requires p <= |s|
    ensures p <= r.pos <= |s|
    ensures r.closed ==> p + 2 <= r.pos && ClosesAt(s, r.pos - 2)
    ensures r.closed ==> forall k :: p <= k < r.pos - 2 ==> !ClosesAt(s, k)
    ensures !r.closed ==> forall k :: p <= k ==> !ClosesAt(s, k)
    ensures !r.closed ==> r.pos == if p + 1 < |s| then |s| - 1 else p
    decreases |s| - p
  {
    if p + 1 < |s| then
      if s[p] == '*' && s[p + 1] == '/' then CommentScan(p + 2, line, true)
      else BlockComment(s, p + 1, if s[p] == '\n' then line + 1 else line)
    else CommentScan(p, line, false)
  }

  datatype StringEnd = Closed | AtNewline | AtEnd

  /**
   * Body of a string literal.  `content` is the decoded text so far and
   * `escapedNewlines` the number of line feeds consumed after a backslash.
   */
  datatype StringScan = StringScan(end: StringEnd, pos: nat, content: string, escapedNewlines: nat)

  /** Escape sequences `\n`, `\t`, `\"`, `\\`; any other escaped character stands for itself. */
  function Unescape(c: char): char {
    match c
    case 'n' => '\n'
    case 't' => '\t'
    case '"' => '"'
    case '\\' => '\\'
    case _ => c
  }

  /**
   * `s[p..q]` read as the inside of a string literal: escape pairs and plain
   * characters, with no unescaped `"` and no unescaped line feed.  A
   * backslash escapes the next character only when there is one.
   */
  predicate BodyRun(s: string, p: nat, q: nat)
    requires p <= q <= |s|
    decreases q - p
  {
    p == q ||
    (s[p] != '"' && s[p] != '\n' &&
     (if s[p] == '\\' && p + 1 < |s| then p + 2 <= q && BodyRun(s, p + 2, q) else BodyRun(s, p + 1, q)))
  }

  /** The text such a stretch stands for: `Unescape(c)` for each `\c`, any other character as it is. */
  function Decoded(s: string, p: nat, q: nat): string
    requires p <= q <= |s| && BodyRun(s, p, q)
    decreases q - p
  {
    if p == q then ""
    else if s[p] == '\\' && p + 1 < |s| then [Unescape(s[p + 1])] + Decoded(s, p + 2, q)
    else [s[p]] + Decoded(s, p + 1, q)
  }

  function StringBody(s: string, p: nat, content: string, esc: nat): (r: StringScan)
    requires p <= |s|
    ensures p <= r.pos <= |s|
    ensures r.end == Closed ==> p < r.pos && s[r.pos - 1] == '"'
    ensures r.end == AtNewline ==> r.pos < |s| && s[r.pos] == '\n'
    ensures r.end == AtEnd ==> r.pos == |s|
    ensures esc <= r.escapedNewlines
    ensures content <= r.content
    decreases |s| - p
  {
    if p == |s| then StringScan(AtEnd, p, content, esc)
    else if s[p] == '"' then StringScan(Closed, p + 1, content, esc)
    else if s[p] == '\n' then StringScan(AtNewline, p, content, esc)
    else if s[p] == '\\' && p + 1 < |s| then
      StringBody(s, p + 2, content + [Unescape(s[p + 1])], if s[p + 1] == '\n' then esc + 1 else esc)
    else StringBody(s, p + 1, content + [s[p]], esc)
  }

  /** Rest of an identifier: a run of `[a-zA-Z0-9_]`. */
  function WordEnd(s: string, p: nat): (e: nat)
    requires p <= |s|
    ensures p <= e <= |s|
    ensures forall k :: p <= k < e ==> IsWordChar(s[k])
    ensures e < |s| ==> !IsWordChar(s[e])
    decreases |s| - p
  {
    if p < |s| && IsWordChar(s[p]) then WordEnd(s, p + 1) else p
  }

  datatype NumberScan = NumberScan(end: nat, dot: bool)

  /** Rest of a number: digits, and one `.` as long as none has been seen. */
  function NumberEnd(s: string, p: nat, dot: bool): (r: NumberScan)
    requires p <= |s|
    ensures p <= r.end <= |s|
    ensures forall k :: p <= k < r.end ==> IsAsciiDigit(s[k]) || s[k] == '.'
    ensures dot ==> r.dot && forall k :: p <= k < r.end ==> s[k] != '.'
    ensures !dot ==> (r.dot <==> exists k :: p <= k < r.end && s[k] == '.')
    ensures forall i, j :: p <= i < j < r.end && s[i] == '.' ==> s[j] != '.'
    ensures r.end < |s| ==> !IsAsciiDigit(s[r.end]) && (s[r.end] != '.' || r.dot)
    decreases |s| - p
  {
    if p < |s| && (IsAsciiDigit(s[p]) || (s[p] == '.' && !dot)) then
      NumberEnd(s, p + 1, dot || s[p] == '.')
    else NumberScan(p, dot)
  }

  /** The letters and underscores that make a number a malformed identifier. */
  function TrailEnd(s: string, p: nat): (e: nat)
    requires p <= |s|
    ensures p <= e <= |s|
    ensures forall k :: p <= k < e ==> IsLetterOrUnder(s[k])
    ensures e < |s| ==> !IsLetterOrUnder(s[e])
    decreases |s| - p
  {
    if p < |s| && IsLetterOrUnder(s[p]) then TrailEnd(s, p + 1) else p
  }

  // ------------------------------------------------------- one loop round

  /** Outcome of one round of the main loop: the new position and line, what was emitted. */
  datatype Step = Step(pos: nat, line: int, token: Option<Token>, error: Option<LexError>)

  function OperatorStep(s: string, pos: nat, line: int): (r: Step)
    requires pos < |s|
  {
    var c := s[pos];
    var eq := pos + 1 < |s| && s[pos + 1] == '=';
    if c == '=' then
      if eq then Step(pos + 2, line, Some(Token("==", TIgualdade, line)), None)
      else Step(pos + 1, line, Some(Token("=", TAtribuicao, line)), None)
    else if c == '<' then
      if eq then Step(pos + 2, line, Some(Token("<=", TMenorIgual, line)), None)
      else Step(pos + 1, line, Some(Token("<", TMenor, line)), None)
    else if c == '>' then
      if eq then Step(pos + 2, line, Some(Token(">=", TMaiorIgual, line)), None)
      else Step(pos + 1, line, Some(Token(">", TMaior, line)), None)
    else
      match SymbolKind(c)
      case Some(k) => Step(pos + 1, line, Some(Token([c], k, line)), None)
      case None => Step(pos + 1, line, None, Some(Lexical(line, InvalidChar(c))))
  }

  /**
   * A string literal starting at `pos`.  On a line feed the literal is
   * reported unterminated at its first line and the line feed is left for
   * the main loop; at the end of the text it is dropped without a message.
   */
  function StringStep(s: string, pos: nat, line: int): (r: Step)
    requires pos < |s| && s[pos] == '"'
  {
    var q := StringBody(s, pos + 1, "", 0);
    match q.end
    case Closed => Step(q.pos, line + q.escapedNewlines, Some(Token("\"" + q.content + "\"", TString, line)), None)
    case AtNewline => Step(q.pos, line + q.escapedNewlines, None, Some(Lexical(line, UnclosedString(line))))
    case AtEnd => Step(q.pos, line + q.escapedNewlines, None, None)
  }

  function StepAt(s: string, pos: nat, line: int): (r: Step)
    requires pos < |s|
    ensures pos < r.pos <= |s|
    ensures line <= r.line
    ensures r.token.Some? ==> r.token.value.line == line && r.error.None?
    ensures r.error.Some? ==> r.error.value.Lexical? && line <= r.error.value.line <= r.line
  {
    var c := s[pos];
    if IsSpace(c) then
      Step(pos + 1, if c == '\n' then line + 1 else line, None, None)
    else if c == '/' && pos + 1 < |s| && s[pos + 1] == '/' then
      Step(LineCommentEnd(s, pos + 2), line, None, None)
    else if c == '/' && pos + 1 < |s| && s[pos + 1] == '*' then
      var b := BlockComment(s, pos + 2, line);
      BlockCommentLineMonotone(s, pos + 2, line);
      Step(b.pos, b.line, None, if b.closed then None else Some(Lexical(b.line, UnclosedComment(line))))
    else if c == '"' then
      StringStep(s, pos, line)
    else if IsLetterOrUnder(c) then
      var e := WordEnd(s, pos + 1);
      var w := s[pos..e];
      Step(e, line, Some(Token(w, KeywordKind(w), line)), None)
    else if IsAsciiDigit(c) then
      var n := NumberEnd(s, pos + 1, false);
      var t := TrailEnd(s, n.end);
      if t != n.end then Step(t, line, None, Some(Lexical(line, Malformed(s[pos..t]))))
      else Step(n.end, line, Some(Token(s[pos..n.end], if n.dot then TNumDecimal else TNum, line)), None)
    else
      OperatorStep(s, pos, line)
  }

  lemma {:induction false} BlockCommentLineMonotone(s: string, p: nat, line: int)
    requires p <= |s|
    ensures line <= BlockComment(s, p, line).line
    decreases |s| - p
  {
    if p + 1 < |s| && !(s[p] == '*' && s[p + 1] == '/') {
      BlockCommentLineMonotone(s, p + 1, if s[p] == '\n' then line + 1 else line);
    }
  }

  function OptSeq<T>(o: Option<T>): (r: seq<T>)
    ensures |r| <= 1
    ensures o.Some? ==> r == [o.value]
    ensures o.None? ==> r == []
  {
    if o.Some? then [o.value] else []
  }

  lemma ConcatAssoc<T>(a: seq<T>, b: seq<T>, c: seq<T>)
    ensures a + b + c == a + (b + c)
  {
  }

  /** Tokens in order of non-decreasing line, all at or after `line`. */
  predicate LinesFrom(ts: seq<Token>, line: int) {
    (forall i :: 0 <= i < |ts| ==> line <= ts[i].line)
    && (forall i, j :: 0 <= i < j < |ts| ==> ts[i].line <= ts[j].line)
  }

  /** The main loop from `pos` to the end of the text. */
  function LexFrom(s: string, pos: nat, line: int): (r: LexResult)
    requires pos <= |s|
    ensures forall e :: e in r.errors ==> e.Lexical?
    decreases |s| - pos
  {
    if pos == |s| then LexResult([], [])
    else
      var st := StepAt(s, pos, line);
      var rest := LexFrom(s, st.pos, st.line);
      LexResult(OptSeq(st.token) + rest.tokens, OptSeq(st.error) + rest.errors)
  }

  /** One step of the scan: the output from `pos` is the step's own output before the rest. */
  lemma LexFromUnfold(s: string, pos: nat, line: int)
    requires pos < |s|
    ensures var st := StepAt(s, pos, line);
      var rest := LexFrom(s, st.pos, st.line);
      LexFrom(s, pos, line) == LexResult(OptSeq(st.token) + rest.tokens, OptSeq(st.error) + rest.errors)
  {
  }

  /** The whole analysis; a missing or empty text is rejected with a single message. */
  function Lex(codigo: Option<string>): (r: LexResult)
    ensures InvalidInput in r.errors <==> codigo == None || codigo == Some("")
    ensures InvalidInput in r.errors ==> r.tokens == [] && |r.errors| == 1
  {
    if codigo.None? || codigo.value == "" then LexResult([], [InvalidInput])
    else LexFrom(codigo.value + " ", 0, 1)
  }

  /** Tokens come out in order of line, never before the line the scan started on. */
  lemma {:induction false} LexFromLines(s: string, pos: nat, line: int)
    requires pos <= |s|
    ensures LinesFrom(LexFrom(s, pos, line).tokens, line)
    ensures forall e :: e in LexFrom(s, pos, line).errors ==> line <= e.line
    decreases |s| - pos
  {
    if pos < |s| {
      var st := StepAt(s, pos, line);
      LexFromLines(s, st.pos, st.line);
    }
  }

  /** Every token of the analysis is on line 1 or later, in order of line. */
  lemma LexLines(codigo: Option<string>)
    ensures LinesFrom(Lex(codigo).tokens, 1)
    ensures forall e :: e in Lex(codigo).errors && e.Lexical? ==> 1 <= e.line
  {
    if codigo.Some? && codigo.value != "" {
      LexFromLines(codigo.value + " ", 0, 1);
    }
  }

  // ------------------------------------------------------ imperative scanner

  method SkipLineComment(s: string, p: nat) returns (e: nat)
    requires p <= |s|
    ensures e == LineCommentEnd(s, p)
  {
    e := p;
    while e < |s| && s[e] != '\n'
      invariant p <= e <= |s|
      invariant LineCommentEnd(s, e) == LineCommentEnd(s, p)
      decreases |s| - e
    {
      e := e + 1;
    }
  }

  method SkipBlockComment(s: string, p: nat, line: int) returns (pos: nat, line': int, closed: bool)
    requires p <= |s|
    ensures CommentScan(pos, line', closed) == BlockComment(s, p, line)
  {
    pos, line', closed := p, line, false;
    while pos + 1 < |s|
      invariant p <= pos <= |s|
      invariant BlockComment(s, pos, line') == BlockComment(s, p, line)
      decreases |s| - pos
    {
      if s[pos] == '*' && s[pos + 1] == '/' {
        pos, closed := pos + 2, true;
        return;
      }
      if s[pos] == '\n' {
        line' := line' + 1;
      }
      pos := pos + 1;
    }
  }

  method ScanString(s: string, p: nat) returns (r: StringScan)
    requires p <= |s|
    ensures r == StringBody(s, p, "", 0)
  {
    var pos, content, esc := p, "", 0;
    while pos < |s|
      invariant p <= pos <= |s|
      invariant StringBody(s, pos, content, esc) == StringBody(s, p, "", 0)
      decreases |s| - pos
    {
      if s[pos] == '"' {
        return StringScan(Closed, pos + 1, content, esc);
      }
      if s[pos] == '\n' {
        return StringScan(AtNewline, pos, content, esc);
      }
      if s[pos] == '\\' && pos + 1 < |s| {
        pos := pos + 1;
        if s[pos] == '\n' {
          esc := esc + 1;
        }
        content := content + [Unescape(s[pos])];
        pos := pos + 1;
      } else {
        content := content + [s[pos]];
        pos := pos + 1;
      }
    }
    r := StringScan(AtEnd, pos, content, esc);
  }

  method ScanWord(s: string, p: nat) returns (e: nat)
    requires p <= |s|
    ensures e == WordEnd(s, p)
  {
    e := p;
    while e < |s| && IsWordChar(s[e])
      invariant p <= e <= |s|
      invariant WordEnd(s, e) == WordEnd(s, p)
      decreases |s| - e
    {
      e := e + 1;
    }
  }

  method ScanNumber(s: string, p: nat) returns (e: nat, dot: bool)
    requires p <= |s|
    ensures NumberScan(e, dot) == NumberEnd(s, p, false)
  {
    e, dot := p, false;
    while e < |s| && (IsAsciiDigit(s[e]) || (s[e] == '.' && !dot))
      invariant p <= e <= |s|
      invariant NumberEnd(s, e, dot) == NumberEnd(s, p, false)
      decreases |s| - e
    {
      if s[e] == '.' {
        dot := true;
      }
      e := e + 1;
    }
  }

  method ScanTrail(s: string, p: nat) returns (e: nat)
    requires p <= |s|
    ensures e == TrailEnd(s, p)
  {
    e := p;
    while e < |s| && IsLetterOrUnder(s[e])
      invariant p <= e <= |s|
      invariant TrailEnd(s, e) == TrailEnd(s, p)
      decreases |s| - e
    {
      e := e + 1;
    }
  }

  /** One round of the main loop, as the source writes it inline. */
  method ScanStep(s: string, pos: nat, line: int) returns (st: Step)
    requires pos < |s|
    ensures st == StepAt(s, pos, line)
  {
    var c := s[pos];
    if IsSpace(c) {
      st := Step(pos + 1, if c == '\n' then line + 1 else line, None, None);
    } else if c == '/' && pos + 1 < |s| && s[pos + 1] == '/' {
      var e := SkipLineComment(s, pos + 2);
      st := Step(e, line, None, None);
    } else if c == '/' && pos + 1 < |s| && s[pos + 1] == '*' {
      var p, l, closed := SkipBlockComment(s, pos + 2, line);
      st := Step(p, l, None, if closed then None else Some(Lexical(l, UnclosedComment(line))));
    } else if c == '"' {
      var q := ScanString(s, pos + 1);
      var tok: Option<Token> := None;
      var err: Option<LexError> := None;
      if q.end == Closed {
        tok := Some(Token("\"" + q.content + "\"", TString, line));
      } else if q.end == AtNewline {
        err := Some(Lexical(line, UnclosedString(line)));
      }
      st := Step(q.pos, line + q.escapedNewlines, tok, err);
    } else if IsLetterOrUnder(c) {
      var e := ScanWord(s, pos + 1);
      st := Step(e, line, Some(Token(s[pos..e], KeywordKind(s[pos..e]), line)), None);
    } else if IsAsciiDigit(c) {
      var e, dot := ScanNumber(s, pos + 1);
      var t := ScanTrail(s, e);
      if t != e {
        st := Step(t, line, None, Some(Lexical(line, Malformed(s[pos..t]))));
      } else {
        st := Step(e, line, Some(Token(s[pos..e], if dot then TNumDecimal else TNum, line)), None);
      }
    } else {
      st := OperatorStep(s, pos, line);
    }
  }

  /** The main loop of `analisarCodigo` over the text with its trailing space. */
  method Varrer(s: string) returns (tokens: seq<Token>, erros: seq<LexError>)
    ensures LexResult(tokens, erros) == LexFrom(s, 0, 1)
  {
    var pos: nat, line := 0, 1;
    tokens, erros := [], [];
    while pos < |s|
      invariant pos <= |s|
      invariant LexFrom(s, 0, 1) == LexResult(tokens + LexFrom(s, pos, line).tokens, erros + LexFrom(s, pos, line).errors)
      decreases |s| - pos
    {
      var st := ScanStep(s, pos, line);
      LexFromUnfold(s, pos, line);
      ghost var rest := LexFrom(s, st.pos, st.line);
      ConcatAssoc(tokens, OptSeq(st.token), rest.tokens);
      ConcatAssoc(erros, OptSeq(st.error), rest.errors);
      tokens := tokens + OptSeq(st.token);
      erros := erros + OptSeq(st.error);
      pos, line := st.pos, st.line;
    }
    assert tokens + [] == tokens && erros + [] == erros;
  }

  /** `analisarCodigo`. */
  method AnalisarCodigo(codigo: Option<string>) returns (tokens: seq<Token>, erros: seq<LexError>)
    ensures LexResult(tokens, erros) == Lex(codigo)
  {
    if codigo.None? || codigo.value == "" {
      return [], [InvalidInput];
    }
    tokens, erros := Varrer(codigo.value + " ");
  }

  // ------------------------------------------------------------ properties

  /** A word is scanned whole and classified by the keyword table. */
  lemma WordToken(s: string, pos: nat, line: int)
    requires pos < |s| && IsLetterOrUnder(s[pos])
    ensures var st := StepAt(s, pos, line);
      st.error.None? && st.token.Some? && st.pos == pos + |st.token.value.lexeme|
      && st.token.value.lexeme == s[pos..st.pos]
      && (forall k :: pos <= k < st.pos ==> IsWordChar(s[k]))
      && (st.pos < |s| ==> !IsWordChar(s[st.pos]))
      && (st.token.value.kind == TTipo <==> st.token.value.lexeme in {"inteiro", "decimal", "texto", "logico"})
      && (st.token.value.kind == TIdentificador <==>
            st.token.value.lexeme !in {"variavel", "se", "senao", "enquanto", "para", "funcao", "retornar",
                                       "inteiro", "decimal", "texto", "logico"})
  {
    assert !IsSpace(s[pos]);
  }

  /**
   * A number is a digit followed by digits and at most one dot; it is a
   * decimal exactly when it holds the dot.  When letters or underscores
   * follow it, the whole run is reported as a malformed identifier instead.
   */
  lemma NumberToken(s: string, pos: nat, line: int)
    requires pos < |s| && IsAsciiDigit(s[pos])
    ensures var st := StepAt(s, pos, line);
      var n := NumberEnd(s, pos + 1, false).end;
      (st.token.Some? <==> n == |s| || !IsLetterOrUnder(s[n]))
      && (st.token.Some? ==>
            var t := st.token.value;
            t.lexeme == s[pos..n] && st.pos == n
            && (forall k :: 0 <= k < |t.lexeme| ==> IsAsciiDigit(t.lexeme[k]) || t.lexeme[k] == '.')
            && (forall i, j :: 0 <= i < j < |t.lexeme| && t.lexeme[i] == '.' ==> t.lexeme[j] != '.')
            && (t.kind == TNumDecimal <==> '.' in t.lexeme)
            && (t.kind == TNum <==> '.' !in t.lexeme))
      && (st.token.None? ==>
            st.error.Some? && st.error.value.msg.Malformed? && st.error.value.msg.text == s[pos..st.pos]
            && n < st.pos && forall k :: n <= k < st.pos ==> IsLetterOrUnder(s[k]))
  {
    assert !IsSpace(s[pos]) && !IsLetterOrUnder(s[pos]);
    var r := NumberEnd(s, pos + 1, false);
    var lex := s[pos..r.end];
    assert forall k :: 0 <= k < |lex| ==> lex[k] == s[pos + k];
    if '.' in lex {
      var k :| 0 <= k < |lex| && lex[k] == '.';
      assert pos + 1 <= pos + k < r.end && s[pos + k] == '.';
    }
    if r.dot {
      var k :| pos + 1 <= k < r.end && s[k] == '.';
      assert lex[k - pos] == '.';
    }
  }

  /** A block comment is reported exactly when no star-slash closes it. */
  lemma BlockCommentError(s: string, pos: nat, line: int)
    requires pos + 1 < |s| && s[pos] == '/' && s[pos + 1] == '*'
    ensures var st := StepAt(s, pos, line);
      st.token.None?
      && (st.error.Some? <==> forall k :: pos + 2 <= k ==> !ClosesAt(s, k))
      && (st.error.Some? ==> st.error.value.msg == UnclosedComment(line) && st.error.value.line == st.line)
  {
    assert !IsSpace(s[pos]);
  }

  /** `==`, `<=` and `>=` are taken whole rather than as two tokens. */
  lemma LongestOperator(s: string, pos: nat, line: int)
    requires pos + 1 < |s| && s[pos] in "=<>" && s[pos + 1] == '='
    ensures var st := StepAt(s, pos, line);
      st.pos == pos + 2 && st.token.Some? && st.token.value.lexeme == [s[pos], '=']
      && st.token.value.kind == (if s[pos] == '=' then TIgualdade else if s[pos] == '<' then TMenorIgual else TMaiorIgual)
  {
    assert !IsSpace(s[pos]) && !IsLetterOrUnder(s[pos]) && !IsAsciiDigit(s[pos]);
  }

  /** A character that starts nothing is reported once and skipped. */
  lemma InvalidCharacter(s: string, pos: nat, line: int)
    requires pos < |s|
    requires !IsSpace(s[pos]) && s[pos] != '"' && !IsLetterOrUnder(s[pos]) && !IsAsciiDigit(s[pos])
    requires s[pos] !in "=<>+-*/(){};,:"
    ensures StepAt(s, pos, line) == Step(pos + 1, line, None, Some(Lexical(line, InvalidChar(s[pos]))))
  {
    assert SymbolKind(s[pos]) == None;
  }

  // ------------------------------------------------ line counting (finding)

  lemma {:induction false} BlockCommentLines(s: string, p: nat, line: int)
    requires p <= |s|
    ensures var r := BlockComment(s, p, line);
      r.line - line == Newlines(s[..r.pos]) - Newlines(s[..p])
    decreases |s| - p
  {
    if p + 1 < |s| {
      if s[p] == '*' && s[p + 1] == '/' {
        NewlinesStep(s, p);
        NewlinesStep(s, p + 1);
      } else {
        NewlinesStep(s, p);
        BlockCommentLines(s, p + 1, if s[p] == '\n' then line + 1 else line);
      }
    }
  }

  /** Where a string body stopped: the closing quote, the line feed, or the end of the text. */
  function BodyStop(r: StringScan): nat {
    if r.end == Closed && r.pos > 0 then r.pos - 1 else r.pos
  }

  /**
   * A string body stops at the first `"` or line feed that is not escaped
   * (or at the end of the text), and the content it adds is the decoded text
   * of everything it read before that stop.
   */
  lemma {:induction false} StringBodyContent(s: string, p: nat, content: string, esc: nat)
    requires p <= |s|
    ensures p <= BodyStop(StringBody(s, p, content, esc)) <= |s|
    ensures BodyRun(s, p, BodyStop(StringBody(s, p, content, esc)))
    ensures StringBody(s, p, content, esc).content == content + Decoded(s, p, BodyStop(StringBody(s, p, content, esc)))
    decreases |s| - p
  {
    if p == |s| || s[p] == '"' || s[p] == '\n' {
      assert content + "" == content;
    } else {
      var q: nat := if s[p] == '\\' && p + 1 < |s| then p + 2 else p + 1;
      var c2 := content + if q == p + 2 then [Unescape(s[p + 1])] else [s[p]];
      var e2 := if q == p + 2 && s[p + 1] == '\n' then esc + 1 else esc;
      assert StringBody(s, p, content, esc) == StringBody(s, q, c2, e2);
      StringBodyContent(s, q, c2, e2);
      var stop := BodyStop(StringBody(s, q, c2, e2));
      assert BodyRun(s, p, stop);
      assert Decoded(s, p, stop) == c2[|content|..] + Decoded(s, q, stop);
      assert c2 + Decoded(s, q, stop) == content + (c2[|content|..] + Decoded(s, q, stop));
    }
  }

  lemma {:induction false} StringBodyLines(s: string, p: nat, content: string, esc: nat)
    requires p <= |s|
    ensures var r := StringBody(s, p, content, esc);
      r.escapedNewlines - esc == Newlines(s[..r.pos]) - Newlines(s[..p])
    decreases |s| - p
  {
    if p < |s| {
      if s[p] == '"' {
        NewlinesStep(s, p);
      } else if s[p] == '\n' {
      } else if s[p] == '\\' && p + 1 < |s| {
        NewlinesStep(s, p);
        NewlinesStep(s, p + 1);
        StringBodyLines(s, p + 2, content + [Unescape(s[p + 1])], if s[p + 1] == '\n' then esc + 1 else esc);
      } else {
        NewlinesStep(s, p);
        StringBodyLines(s, p + 1, content + [s[p]], esc);
      }
    }
  }

  /**
   * The line counter is one more than the number of line feeds consumed:
   * if it holds before a round of the main loop it holds after it, and a
   * token carries the line of its first character.
   */
  lemma StepKeepsLineCount(s: string, pos: nat, line: int)
    requires pos < |s| && line == 1 + Newlines(s[..pos])
    ensures var st := StepAt(s, pos, line);
      st.line == 1 + Newlines(s[..st.pos])
      && (st.token.Some? ==> st.token.value.line == 1 + Newlines(s[..pos]))
  {
    var c := s[pos];
    if IsSpace(c) || (c == '/' && pos + 1 < |s| && (s[pos + 1] == '/' || s[pos + 1] == '*')) {
      CommentLineCount(s, pos, line);
    } else if c == '"' || IsLetterOrUnder(c) || IsAsciiDigit(c) {
      WordLineCount(s, pos, line);
    } else {
      var st := StepAt(s, pos, line);
      assert st == OperatorStep(s, pos, line);
      NewlinesStep(s, pos);
      if st.pos == pos + 2 {
        NewlinesStep(s, pos + 1);
      }
    }
  }

  /** `StepKeepsLineCount` for white space and comments. */
  lemma CommentLineCount(s: string, pos: nat, line: int)
    requires pos < |s| && line == 1 + Newlines(s[..pos])
    requires IsSpace(s[pos]) || (s[pos] == '/' && pos + 1 < |s| && (s[pos + 1] == '/' || s[pos + 1] == '*'))
    ensures var st := StepAt(s, pos, line);
      st.line == 1 + Newlines(s[..st.pos]) && st.token.None?
  {
    var c := s[pos];
    var st := StepAt(s, pos, line);
    NewlinesStep(s, pos);
    if IsSpace(c) {
    } else if s[pos + 1] == '/' {
      assert st == Step(LineCommentEnd(s, pos + 2), line, None, None);
      NewlinesStep(s, pos + 1);
      NewlinesNone(s, pos + 2, st.pos);
    } else {
      NewlinesStep(s, pos + 1);
      BlockCommentLines(s, pos + 2, line);
    }
  }

  /** `StepKeepsLineCount` for strings, words and numbers. */
  lemma WordLineCount(s: string, pos: nat, line: int)
    requires pos < |s| && line == 1 + Newlines(s[..pos])
    requires s[pos] == '"' || IsLetterOrUnder(s[pos]) || IsAsciiDigit(s[pos])
    ensures var st := StepAt(s, pos, line);
      st.line == 1 + Newlines(s[..st.pos])
      && (st.token.Some? ==> st.token.value.line == 1 + Newlines(s[..pos]))
  {
    var c := s[pos];
    var st := StepAt(s, pos, line);
    assert !IsSpace(c) && c != '/';
    NewlinesStep(s, pos);
    if c == '"' {
      assert st == StringStep(s, pos, line);
      StringBodyLines(s, pos + 1, "", 0);
    } else if IsLetterOrUnder(c) {
      NewlinesNone(s, pos + 1, st.pos);
    } else {
      var n := NumberEnd(s, pos + 1, false);
      NewlinesNone(s, pos + 1, n.end);
      NewlinesNone(s, n.end, TrailEnd(s, n.end));
    }
  }

  /**
   * The string branch as written: on a line feed the counter is advanced
   * there and again by the main loop, which still sees the same line feed;
   * a line feed after a backslash is not counted at all.
   */
  function StringStepAsWritten(s: string, pos: nat, line: int): (r: Step)
    requires pos < |s| && s[pos] == '"'
    ensures r.pos == StringStep(s, pos, line).pos
  {
    var q := StringBody(s, pos + 1, "", 0);
    match q.end
    case Closed => Step(q.pos, line, Some(Token("\"" + q.content + "\"", TString, line)), None)
    case AtNewline => Step(q.pos, line + 1, None, Some(Lexical(line, UnclosedString(line))))
    case AtEnd => Step(q.pos, line, None, None)
  }

  /** A round of the main loop as written: it differs from `StepAt` only on string literals. */
  function StepAsWritten(s: string, pos: nat, line: int): (r: Step)
    requires pos < |s|
    ensures r.pos == StepAt(s, pos, line).pos
  {
    if s[pos] == '"' then StringStepAsWritten(s, pos, line) else StepAt(s, pos, line)
  }

  function LexFromAsWritten(s: string, pos: nat, line: int): (r: LexResult)
    requires pos <= |s|
    decreases |s| - pos
  {
    if pos == |s| then LexResult([], [])
    else
      var st := StepAsWritten(s, pos, line);
      var rest := LexFromAsWritten(s, st.pos, st.line);
      LexResult(OptSeq(st.token) + rest.tokens, OptSeq(st.error) + rest.errors)
  }

  /** An unterminated string followed by a line feed pushes the next token a line too far. */
  lemma UnterminatedStringCountsTwice()
    ensures var s := "\"a\nx ";
      LexFromAsWritten(s, 0, 1).tokens == [Token("x", TIdentificador, 3)]
      && LexFrom(s, 0, 1).tokens == [Token("x", TIdentificador, 2)]
  {
    var s := "\"a\nx ";
    UnterminatedStrings();
    assert StepAt(s, 2, 2).pos == 3 && StepAt(s, 2, 1).pos == 3;
    WordAtThree(3);
    WordAtThree(2);
    assert StepAt(s, 4, 3).pos == 5 && StepAt(s, 4, 2).pos == 5;
    assert LexFromAsWritten(s, 3, 3).tokens == [Token("x", TIdentificador, 3)];
    assert LexFrom(s, 3, 2).tokens == [Token("x", TIdentificador, 2)];
  }

  /** The unclosed string of that example, as written and as corrected. */
  lemma UnterminatedStrings()
    ensures var s := "\"a\nx ";
      StepAsWritten(s, 0, 1) == Step(2, 2, None, Some(Lexical(1, UnclosedString(1))))
      && StepAt(s, 0, 1) == Step(2, 1, None, Some(Lexical(1, UnclosedString(1))))
  {
    var s := "\"a\nx ";
    assert StringBody(s, 1, "", 0) == StringScan(AtNewline, 2, "a", 0);
  }

  lemma WordAtThree(line: int)
    ensures StepAt("\"a\nx ", 3, line) == Step(4, line, Some(Token("x", TIdentificador, line)), None)
  {
    var s := "\"a\nx ";
    assert WordEnd(s, 4) == 4;
    assert s[3..4] == "x";
  }

  /** A line feed escaped inside a string is not counted as written. */
  lemma EscapedNewlineNotCounted()
    ensures var s := "\"\\\n\"\nx ";
      LexFromAsWritten(s, 0, 1).tokens == [Token("\"\n\"", TString, 1), Token("x", TIdentificador, 2)]
      && LexFrom(s, 0, 1).tokens == [Token("\"\n\"", TString, 1), Token("x", TIdentificador, 3)]
  {
    var s := "\"\\\n\"\nx ";
    EscapedNewlineStrings();
    assert WordEnd(s, 6) == 6 && s[5..6] == "x";
    assert StepAt(s, 5, 2) == Step(6, 2, Some(Token("x", TIdentificador, 2)), None);
    assert StepAt(s, 5, 3) == Step(6, 3, Some(Token("x", TIdentificador, 3)), None);
    assert StepAt(s, 6, 2).pos == 7 && StepAt(s, 6, 3).pos == 7;
  }

  /** The string token of that example, as written and as corrected. */
  lemma EscapedNewlineStrings()
    ensures var s := "\"\\\n\"\nx ";
      StepAsWritten(s, 0, 1) == Step(4, 1, Some(Token("\"\n\"", TString, 1)), None)
      && StepAt(s, 0, 1) == Step(4, 2, Some(Token("\"\n\"", TString, 1)), None)
  {
    var s := "\"\\\n\"\nx ";
    assert StringBody(s, 3, "\n", 1) == StringScan(Closed, 4, "\n", 1);
    assert StringBody(s, 1, "", 0) == StringScan(Closed, 4, "\n", 1);
    assert "\"" + "\n" + "\"" == "\"\n\"";
    assert StringStepAsWritten(s, 0, 1) == Step(4, 1, Some(Token("\"\n\"", TString, 1)), None);
  }

  // ------------------------------------------------------------- examples

  /** A number followed by letters is one malformed-identifier message and no token. */
  lemma MalformedIdentifierExample()
    ensures Lex(Some("123abc")) == LexResult([], [Lexical(1, Malformed("123abc"))])
  {
    var s := "123abc ";
    assert "123abc" + " " == s;
    MalformedIdentifierStep();
    assert StepAt(s, 6, 1).pos == 7;
  }

  lemma MalformedIdentifierStep()
    ensures StepAt("123abc ", 0, 1) == Step(6, 1, None, Some(Lexical(1, Malformed("123abc"))))
  {
    var s := "123abc ";
    assert NumberEnd(s, 1, false) == NumberScan(3, false);
    assert TrailEnd(s, 3) == 6;
    assert s[0..6] == "123abc";
  }

  /** A string running into the end of the text yields neither a token nor a message. */
  lemma UnterminatedStringAtEndDropped()
    ensures Lex(Some("\"abc")) == LexResult([], [])
  {
    var s := "\"abc ";
    assert "\"abc" + " " == s;
    assert StringBody(s, 1, "", 0) == StringScan(AtEnd, 5, "abc ", 0);
  }

  /** Escape sequences are decoded inside the literal. */
  lemma EscapeExample()
    ensures Lex(Some("\"a\\tb\"")).tokens == [Token("\"a\tb\"", TString, 1)]
  {
    var s := "\"a\\tb\" ";
    assert "\"a\\tb\"" + " " == s;
    assert StringBody(s, 1, "", 0) == StringScan(Closed, 6, "a\tb", 0);
    assert "\"" + "a\tb" + "\"" == "\"a\tb\"";
    assert StepAt(s, 6, 1).pos == 7;
  }

  lemma WordAt(s: string, pos: nat, e: nat, line: int)
    requires pos < e <= |s| && IsLetterOrUnder(s[pos])
    requires forall k :: pos < k < e ==> IsWordChar(s[k])
    requires e < |s| ==> !IsWordChar(s[e])
    ensures StepAt(s, pos, line) == Step(e, line, Some(Token(s[pos..e], KeywordKind(s[pos..e]), line)), None)
  {
    assert !IsSpace(s[pos]);
    WordEndIs(s, pos + 1, e);
  }

  lemma {:induction false} WordEndIs(s: string, p: nat, e: nat)
    requires p <= e <= |s|
    requires forall k :: p <= k < e ==> IsWordChar(s[k])
    requires e < |s| ==> !IsWordChar(s[e])
    ensures WordEnd(s, p) == e
    decreases e - p
  {
    if p < e {
      WordEndIs(s, p + 1, e);
    }
  }

  /** One round of the main loop that emits no message. */
  lemma LexFromStep(s: string, pos: nat, line: int, next: nat, tok: Option<Token>)
    requires pos < |s| && StepAt(s, pos, line) == Step(next, line, tok, None)
    ensures LexFrom(s, pos, line).tokens == OptSeq(tok) + LexFrom(s, next, line).tokens
    ensures LexFrom(s, pos, line).errors == LexFrom(s, next, line).errors
  {
  }

  /** A declaration with an initialiser, token by token. */
  lemma DeclarationExample(code: string)
    requires code == "variavel x : inteiro = 5;"
    ensures Lex(Some(code)).tokens ==
      [Token("variavel", TVariavel, 1), Token("x", TIdentificador, 1), Token(":", TDoisPontos, 1),
       Token("inteiro", TTipo, 1), Token("=", TAtribuicao, 1), Token("5", TNum, 1), Token(";", TPv, 1)]
    ensures Lex(Some(code)).errors == []
  {
    var s := code + " ";
    DeclarationRounds1(s);
    DeclarationRounds2(s);
    DeclarationRounds3(s);
    assert LexFrom(s, 26, 1) == LexResult([], []);
    LexFromStep(s, 25, 1, 26, None);
    LexFromStep(s, 24, 1, 25, Some(Token(";", TPv, 1)));
    LexFromStep(s, 23, 1, 24, Some(Token("5", TNum, 1)));
    LexFromStep(s, 22, 1, 23, None);
    LexFromStep(s, 21, 1, 22, Some(Token("=", TAtribuicao, 1)));
    LexFromStep(s, 20, 1, 21, None);
    LexFromStep(s, 13, 1, 20, Some(Token("inteiro", TTipo, 1)));
    LexFromStep(s, 12, 1, 13, None);
    LexFromStep(s, 11, 1, 12, Some(Token(":", TDoisPontos, 1)));
    LexFromStep(s, 10, 1, 11, None);
    LexFromStep(s, 9, 1, 10, Some(Token("x", TIdentificador, 1)));
    LexFromStep(s, 8, 1, 9, None);
    LexFromStep(s, 0, 1, 8, Some(Token("variavel", TVariavel, 1)));
  }

  lemma DeclarationRounds1(s: string)
    requires s == "variavel x : inteiro = 5; "
    ensures StepAt(s, 25, 1) == Step(26, 1, None, None)
    ensures StepAt(s, 24, 1) == Step(25, 1, Some(Token(";", TPv, 1)), None)
    ensures StepAt(s, 23, 1) == Step(24, 1, Some(Token("5", TNum, 1)), None)
    ensures StepAt(s, 22, 1) == Step(23, 1, None, None)
    ensures StepAt(s, 21, 1) == Step(22, 1, Some(Token("=", TAtribuicao, 1)), None)
  {
    assert NumberEnd(s, 24, false) == NumberScan(24, false) && TrailEnd(s, 24) == 24 && s[23..24] == "5";
  }

  lemma DeclarationRounds2(s: string)
    requires s == "variavel x : inteiro = 5; "
    ensures StepAt(s, 20, 1) == Step(21, 1, None, None)
    ensures StepAt(s, 13, 1) == Step(20, 1, Some(Token("inteiro", TTipo, 1)), None)
    ensures StepAt(s, 12, 1) == Step(13, 1, None, None)
    ensures StepAt(s, 11, 1) == Step(12, 1, Some(Token(":", TDoisPontos, 1)), None)
  {
    assert s[13..20] == "inteiro";
    WordAt(s, 13, 20, 1);
  }

  lemma DeclarationRounds3(s: string)
    requires s == "variavel x : inteiro = 5; "
    ensures StepAt(s, 10, 1) == Step(11, 1, None, None)
    ensures StepAt(s, 9, 1) == Step(10, 1, Some(Token("x", TIdentificador, 1)), None)
    ensures StepAt(s, 8, 1) == Step(9, 1, None, None)
    ensures StepAt(s, 0, 1) == Step(8, 1, Some(Token("variavel", TVariavel, 1)), None)
  {
    assert s[9..10] == "x";
    WordAt(s, 9, 10, 1);
    assert s[0..8] == "variavel";
    WordAt(s, 0, 8, 1);
  }
}
