# A verified model of the proj-compilador pipeline

proj-compilador is a teaching compiler for a small language with Portuguese
keywords (`variavel`, `se`, `senao`, `enquanto`, `para`, `funcao`,
`retornar`; types `inteiro`, `decimal`, `texto`, `logico`). It turns source
text into assembly for the SimpSIM eight-bit machine, one stage at a time.
This project models each stage in Dafny and proves properties of each stage:

- **Lexical analysis.** The web lexer `analisarCodigo` is modelled in
  `lexer.dfy` (module `Lexer`). The editor's older `getNextToken` / `analyzeCode`
  is `lexer_app.dfy` (`AppLexer`). The desktop controller's
  `getProximoToken` / `consumirEspacos` is `lexer_java.dfy` (`JavaLexer`, a
  class with the controller's fields). Each driver loop is a method proved
  equal to a function that runs one step at a time. The lemmas cover how far
  each token extends, line counting, and which characters are reported as
  invalid (one message, and the character is skipped).
- **Syntactic analysis.** The recursive-descent parser `analisarSintatico` is
  `parser.dfy` (`Parser`). Each nonterminal is a function from the parser
  state (cursor, messages) to a new state, and the class `Parser.Analisador` runs
  the same grammar by updating its fields. `parser_props.dfy` proves
  progress, recovery and the messages reported for concrete inputs.
- **Semantic analysis.** There are two analysers:
  - The flat-table analyser `analisadorSemantico.js` is covered by
    `semantic*.dfy` (`Semantico`, `SemanticoExec`, `SemanticoProps`).
  - The scoped analyser `analisardorSemantico.js` is covered by
    `scoped_*.dfy`: the table class `TabelaSimbolos`, its driver, and the
    lemmas about scopes, declarations and exceptions.
- **Three-address code.** `gerarCodigoIntermediario` is `tac_gen*.dfy`. Its
  instructions are the tagged union of `tac.dfy`, shared with the later
  stages. The lemmas cover fresh temporaries, fresh labels and the label
  stack.
- **Optimisation.** The seven passes of `otimizarCodigo` and the round loop
  around them are in `optimizer*.dfy`. The proofs cover what each pass
  removes or rewrites, and the bounds and result of the round loop.
- **Register translation.** `traduzirParaSimpSIM` (`tradutorSimpSIM.js`) is
  `simpsim_tradutor*.dfy`. It includes byte-level semantics of the emitted
  straight-line code (`byte.dfy`).
- **Memory-based generation.** `gerarAssemblySimpSIM`
  (`geradorAssemblySimpSIM.js`) is `gerador*.dfy`. It includes the layout
  of the output, the addresses and labels, and what each emitted block
  computes on the machine.

The seven defects listed under "## Findings" are each modelled twice: once
as written, and once corrected. The main chain of each affected stage (the
driver functions and the methods proved equal to them) runs the corrected
behaviour; "## Left out" names each member this concerns. Everywhere else,
where the code and the documented design of the repository differ, the
model follows the code:
- Optimiser pass 1 never invalidates a recorded expression.
- Optimiser pass 2 never records a definition, because every ` := ` line
  contains `:`.
- Pass 5 simplifies only a constant on the right (`x * 1`, `x * 0`, `x + 0`,
  `x - 0`, `x / 1`).
- Pass 6 throws on a comparison of two numerals.
- Pass 7 removes self-copies and merges adjacent labels, but does not remove
  duplicated instructions.
- The intermediate-code generator closes a `while` with `undefined:` and no
  jump back to the start of the loop.

## Model

| member | source | states |
|---|---|---|
| Lexer.LineCommentEnd | src/utils/analisadorLexico.js:53-60 | a `//` comment runs up to the first line feed after it, or to the end of the text, and holds no line feed |
| Lexer.BlockComment | src/utils/analisadorLexico.js:64-84 | a block comment is closed exactly when a star-slash follows its start, and then ends just after the first one; an unclosed one stops at the last character |
| Lexer.StringBody | src/utils/analisadorLexico.js:102-135 | a string body ends just after its closing quote, at a line feed, or at the end of the text, and the decoded content only grows |
| Lexer.StringBodyContent | src/utils/analisadorLexico.js:101-135 | a string body stops at the first `"` or line feed that no backslash escapes, or at the end of the text; the content it adds is the decoded text read before that stop, `Unescape(c)` for each `\c` and every other character as it is |
| Lexer.WordEnd | src/utils/analisadorLexico.js:149-153 | the rest of a word is the longest run of `[a-zA-Z0-9_]` |
| Lexer.NumberEnd | src/utils/analisadorLexico.js:162-173 | the rest of a number is the longest run of digits with at most one dot; the dot flag is set exactly when a dot was read |
| Lexer.TrailEnd | src/utils/analisadorLexico.js:175-180 | the letters after a number are the longest run of `[a-zA-Z_]` |
| Lexer.StepAt | src/utils/analisadorLexico.js:42-230 | one round of the main loop advances the position and never moves the line counter back; a token carries the current line and comes without a message; every message is lexical |
| Lexer.LexFrom | src/utils/analisadorLexico.js:42-231 | every message of the main loop is a lexical one |
| Lexer.Lex | src/utils/analisadorLexico.js:3-12 | the invalid-input message is produced exactly when the text is missing or empty, and then it is the only message and there are no tokens |
| Lexer.LexFromLines | src/utils/analisadorLexico.js:42-231 | tokens come out in order of line, never before the line the scan started on; messages likewise |
| Lexer.LexLines | src/utils/analisadorLexico.js:11 | every token of the analysis is on line 1 or later, in order of line |
| Lexer.SkipLineComment | src/utils/analisadorLexico.js:57-59 | the comment loop stops where `LineCommentEnd` says |
| Lexer.SkipBlockComment | src/utils/analisadorLexico.js:71-83 | the block-comment loop ends at the position, line and closed flag `BlockComment` gives |
| Lexer.ScanString | src/utils/analisadorLexico.js:102-135 | the string loop yields the scan `StringBody` describes |
| Lexer.ScanWord | src/utils/analisadorLexico.js:150-153 | the word loop stops where `WordEnd` says |
| Lexer.ScanNumber | src/utils/analisadorLexico.js:166-173 | the digit loop stops where `NumberEnd` says, with its dot flag |
| Lexer.ScanTrail | src/utils/analisadorLexico.js:177-180 | the trailing-letter loop stops where `TrailEnd` says |
| Lexer.ScanStep | src/utils/analisadorLexico.js:43-230 | one round of the loop body computes `StepAt` |
| Lexer.Varrer | src/utils/analisadorLexico.js:42-231 | the main loop over the text with its trailing space yields the tokens and messages of `LexFrom` |
| Lexer.AnalisarCodigo | src/utils/analisadorLexico.js:3-234 | `analisarCodigo` returns `Lex(codigo)` |
| Lexer.WordToken | src/utils/analisadorLexico.js:149-158 | a word is taken whole, gets the kind the keyword table of lines 15-27 gives it (identifier otherwise) and the current line |
| Lexer.NumberToken | src/utils/analisadorLexico.js:162-188 | a number is a digit followed by digits and at most one dot, a decimal exactly when it holds the dot; when letters or underscores follow, the whole run is one malformed-identifier message and no token |
| Lexer.BlockCommentError | src/utils/analisadorLexico.js:64-91 | a block comment produces a message exactly when no star-slash closes it |
| Lexer.LongestOperator | src/utils/analisadorLexico.js:192-216 | `==`, `<=` and `>=` are one token each, not two |
| Lexer.InvalidCharacter | src/utils/analisadorLexico.js:228-229 | a character that starts nothing gives one invalid-character message on the current line and is skipped |
| Lexer.BlockCommentLines | src/utils/analisadorLexico.js:78-80 | the line counter after a block comment has grown by exactly the line feeds the comment consumed |
| Lexer.StringBodyLines | src/utils/analisadorLexico.js:119-130 | the escaped line feeds a string body counts are exactly the line feeds it consumed |
| Lexer.StepKeepsLineCount | src/utils/analisadorLexico.js:42-230 | with the corrected string branch, the line counter stays one more than the line feeds consumed, round after round, and a token carries the line of its first character |
| Lexer.CommentLineCount | src/utils/analisadorLexico.js:46-91 | the same invariant across white space and comments, which emit no token |
| Lexer.WordLineCount | src/utils/analisadorLexico.js:94-188 | the same invariant across strings, words and numbers |
| Lexer.StringStepAsWritten | src/utils/analisadorLexico.js:94-142 | the string branch as written stops at the same position as the corrected one |
| Lexer.StepAsWritten | src/utils/analisadorLexico.js:42-230 | a round as written differs from the corrected one only on string literals, and stops at the same position |
| Lexer.UnterminatedStringCountsTwice | src/utils/analisadorLexico.js:47 | on `"a`, line feed, `x`, the line counter as written puts `x` on line 3; corrected, on line 2 |
| Lexer.UnterminatedStrings | src/utils/analisadorLexico.js:111-116 | the unclosed string of that text gives its message on line 1; as written the counter is already 2 before the main loop sees the same line feed |
| Lexer.EscapedNewlineNotCounted | src/utils/analisadorLexico.js:119-130 | a line feed after a backslash inside a string is not counted as written, so the next token is one line early; corrected, it is counted |
| Lexer.EscapedNewlineStrings | src/utils/analisadorLexico.js:119-139 | the string token of that text decodes the escaped line feed; as written the counter stays 1, corrected it is 2 |
| Lexer.MalformedIdentifierExample | src/utils/analisadorLexico.js:175-185 | `123abc` is one malformed-identifier message and no token |
| Lexer.UnterminatedStringAtEndDropped | src/utils/analisadorLexico.js:102-142 | a string that runs into the end of the text yields neither a token nor a message |
| Lexer.EscapeExample | src/utils/analisadorLexico.js:119-139 | `\t` inside a literal is decoded to a tab in the token's text |
| Lexer.DeclarationExample | src/utils/analisadorLexico.js:42-231 | `variavel x : inteiro = 5;` is the seven tokens of a declaration, all on line 1, with no message |
| AppLexer.DigitEnd | src/App.js:115-118 | the rest of a number is the longest run of digits |
| AppLexer.NextToken | src/App.js:68-190 | `getNextToken` gives no result exactly at the end of the text, and otherwise advances; a token carries the current line and comes without a message; a line increment comes only from a line feed and without a token; a message carries the current line and comes without a token |
| AppLexer.GetNextToken | src/App.js:68-190 | the method returns the result of `NextToken` and pushes exactly its message, if any, onto `errors` |
| AppLexer.AnalyzeCode | src/App.js:38-65 | `analyzeCode` stores the tokens and messages of `AppLex` |
| AppLexer.NextKeepsLineCount | src/App.js:48-61 | the line counter stays one more than the line feeds consumed, and a token carries the line of its first character |
| AppLexer.UnderscoreStartIsInvalid | src/App.js:86 | an identifier must begin with a letter: a leading `_` is one invalid-character message and is skipped |
| AppLexer.NumberOrMalformed | src/App.js:113-138 | a digit run is an integer token; a run followed by letters or underscores is reported whole as a malformed identifier, with no token |
| AppLexer.InvalidCharacter | src/App.js:175-189 | a character outside every class, a quote or a dot included, is one invalid-character message and is skipped |
| AppLexer.KeywordTypeAsWritten | src/App.js:92-107 | the lookup as written agrees with the keyword table on its own entries, and answers an inherited member for names such as `constructor` |
| AppLexer.ConstructorTypeAsWritten | src/App.js:107 | as written, the word `constructor` gets a function as its token type; corrected, it is an identifier |
| AppLexer.KeywordLookupCorrected | src/App.js:92-107 | with own entries only, a word is a type exactly when it is one of the four type names and an identifier exactly when it is not in the table; the written lookup agrees with it exactly outside the inherited names |
| JavaLexer.IdentEnd | compilador/src/main/java/org/fipp/compilador/HelloController.java:118-121 | the rest of an identifier is the longest run of letters, digits and `_` |
| JavaLexer.DigitEnd | compilador/src/main/java/org/fipp/compilador/HelloController.java:140-143 | the rest of a number is the longest run of digits |
| JavaLexer.JNext | compilador/src/main/java/org/fipp/compilador/HelloController.java:100-226 | `getProximoToken` advances unless at the end, where it returns nothing; a token carries the current line and comes without messages |
| JavaLexer.SkipSpaces | compilador/src/main/java/org/fipp/compilador/HelloController.java:228-233 | `consumirEspacos` moves past exactly the white space at the cursor and never moves the line counter back |
| JavaLexer.Controller.constructor | compilador/src/main/java/org/fipp/compilador/HelloController.java:72-73 | the controller starts with no tokens and no messages |
| JavaLexer.Controller.GetProximoToken | compilador/src/main/java/org/fipp/compilador/HelloController.java:100-226 | the method moves the cursor and line counter as `JNext` says and appends its messages, leaving text and tokens alone |
| JavaLexer.Controller.PularIdentificador | compilador/src/main/java/org/fipp/compilador/HelloController.java:118-121 | the inner loop moves the cursor to `IdentEnd`, nothing else changes |
| JavaLexer.Controller.PularDigitos | compilador/src/main/java/org/fipp/compilador/HelloController.java:140-143 | the inner loop moves the cursor to `DigitEnd`, nothing else changes |
| JavaLexer.Controller.ConsumirEspacos | compilador/src/main/java/org/fipp/compilador/HelloController.java:228-233 | the method moves cursor and line counter as `SkipSpaces` says, nothing else changes |
| JavaLexer.Controller.AnalisarCodigo | compilador/src/main/java/org/fipp/compilador/HelloController.java:71-89 | on the editor text plus a blank, the loop ends at the end of the text with the tokens and messages of `JLex` |
| JavaLexer.Controller.Rodada | compilador/src/main/java/org/fipp/compilador/HelloController.java:82-88 | one round of the loop: the token attempt of `JNext`, its token appended, then the white space after it |
| JavaLexer.JNextKeepsLineCount | compilador/src/main/java/org/fipp/compilador/HelloController.java:106-109 | `getProximoToken` keeps the line counter at one more than the line feeds consumed |
| JavaLexer.SkipSpacesKeepsLineCount | compilador/src/main/java/org/fipp/compilador/HelloController.java:228-233 | so does `consumirEspacos` |
| JavaLexer.JLexFromLines | compilador/src/main/java/org/fipp/compilador/HelloController.java:81-89 | tokens come in order of line from the starting line on, and every message's line lies between the starting line and the last line |
| JavaLexer.JNextErrorLines | compilador/src/main/java/org/fipp/compilador/HelloController.java:190-224 | the messages of one token attempt carry the line it started on |
| JavaLexer.JLexLines | compilador/src/main/java/org/fipp/compilador/HelloController.java:77-89 | the tokens of the editor text come in order of line from line 1, and every message names a line of the text |
| JavaLexer.DefaultBranchErrors | compilador/src/main/java/org/fipp/compilador/HelloController.java:190-224 | on a one-character lexeme the length, number and string checks never fire, the comment check only for `{`, the malformed-identifier message appears exactly when the next character cannot continue an identifier, and the invalid-character message always closes the list |
| JavaLexer.InvalidCharacter | compilador/src/main/java/org/fipp/compilador/HelloController.java:190-224 | a character no branch accepts yields no token and one or two messages, the last the invalid-character one |
| JavaLexer.WordToken | compilador/src/main/java/org/fipp/compilador/HelloController.java:117-136 | a letter starts a word of letters, digits and `_`, classified by the keyword switch |
| JavaLexer.NumberToken | compilador/src/main/java/org/fipp/compilador/HelloController.java:139-146 | a digit starts an integer that stops at the first non-digit, whatever follows |
| JavaLexer.LongestOperator | compilador/src/main/java/org/fipp/compilador/HelloController.java:150-167 | `=`, `<` and `>` followed by `=` make one two-character operator |
| JavaLexer.NumberThenWordExample | compilador/src/main/java/org/fipp/compilador/HelloController.java:139-146 | `123abc` is two tokens, `123` and `abc`, and no message |
| JavaLexer.AccentedIdentifierExample | compilador/src/main/java/org/fipp/compilador/HelloController.java:117 | `ação` is one identifier, since accented letters are letters here |
| Parser.ReportHere | src/utils/analisadorSintatico.js:33-38 | a report appends exactly one message and leaves the cursor where it was |
| Parser.Sincronizado | src/utils/analisadorSintatico.js:41-45 | `sincronizar` stops at the first real token whose kind is in the follow set, or at the end marker, never before where it started |
| Parser.SincronizadoSkips | src/utils/analisadorSintatico.js:41-45 | every token `sincronizar` skips is outside the follow set |
| Parser.Fail | src/utils/analisadorSintatico.js:33-45 | the usual error exit (report, then synchronise) costs exactly one message and never moves the cursor back |
| Parser.Expect | src/utils/analisadorSintatico.js:24-30 | `consumir` with a report: on a token of the expected kind it steps over it silently, otherwise it stays and reports once |
| Parser.Close | src/utils/analisadorSintatico.js:24-45 | `consumir` of a closing token: on the expected kind it steps over it silently, otherwise one message and a synchronisation |
| Parser.Programa | src/utils/analisadorSintatico.js:48-66 | `programa` runs up to the end marker, never past it |
| Parser.Item | src/utils/analisadorSintatico.js:51-64 | one turn of the `programa` loop always advances; a token that cannot start a declaration is reported once and skipped |
| Parser.Declaracao | src/utils/analisadorSintatico.js:68-141 | `declaracao` advances whenever the token can start a declaration |
| Parser.Retornar | src/utils/analisadorSintatico.js:102-131 | the `retornar` branch always advances past the keyword |
| Parser.Bloco | src/utils/analisadorSintatico.js:325-327 | the body of a block stops at the first token that cannot start a declaration |
| Parser.DeclaracaoVariavel | src/utils/analisadorSintatico.js:143-207 | `declaracao_variavel` advances on `variavel` and stays within the tokens |
| Parser.Inicializacao | src/utils/analisadorSintatico.js:187-206 | the optional `= expressao` and the `;` stay within the tokens |
| Parser.Atribuicao | src/utils/analisadorSintatico.js:209-260 | `atribuicao` advances on an identifier |
| Parser.Condicional | src/utils/analisadorSintatico.js:262-362 | `condicional` advances on `se` |
| Parser.CorpoCondicional | src/utils/analisadorSintatico.js:305-362 | the rest of `condicional` after the condition stays within the tokens |
| Parser.BlocoCondicional | src/utils/analisadorSintatico.js:315-362 | the `se` block from its `{` stays within the tokens |
| Parser.FimCondicional | src/utils/analisadorSintatico.js:328-362 | the `}` and optional `senao` stay within the tokens |
| Parser.Senao | src/utils/analisadorSintatico.js:338-361 | without a `senao` token nothing happens |
| Parser.BlocoFechado | src/utils/analisadorSintatico.js:325-337 | a block body and its `}` stay within the tokens |
| Parser.Repeticao | src/utils/analisadorSintatico.js:364-542 | `repeticao` advances on `enquanto` or `para` |
| Parser.CorpoBloco | src/utils/analisadorSintatico.js:408-436 | `) { bloco }` closing a loop or function header stays within the tokens |
| Parser.AbreBloco | src/utils/analisadorSintatico.js:418-436 | `{ bloco }` stays within the tokens |
| Parser.Enquanto | src/utils/analisadorSintatico.js:377-436 | the `enquanto` branch always advances |
| Parser.Para | src/utils/analisadorSintatico.js:440-532 | the `para` branch always advances |
| Parser.ParaCabecalho | src/utils/analisadorSintatico.js:461-480 | the `para` header after `(` stays within the tokens |
| Parser.ParaIncremento | src/utils/analisadorSintatico.js:481-532 | the rest of the `para` header stays within the tokens |
| Parser.DeclaracaoFuncao | src/utils/analisadorSintatico.js:544-622 | `declaracao_funcao` advances on `funcao` |
| Parser.CorpoFuncao | src/utils/analisadorSintatico.js:587-622 | parameters and body of a function stay within the tokens |
| Parser.ListaParametros | src/utils/analisadorSintatico.js:624-641 | `lista_parametros` stays within the tokens |
| Parser.MaisParametros | src/utils/analisadorSintatico.js:627-640 | the comma loop of `lista_parametros` stays within the tokens |
| Parser.Parametro | src/utils/analisadorSintatico.js:643-677 | `parametro` advances on an identifier |
| Parser.ChamadaFuncao | src/utils/analisadorSintatico.js:679-733 | `chamada_funcao` advances on an identifier |
| Parser.ArgumentosChamada | src/utils/analisadorSintatico.js:702-733 | `( [argumentos] ) ;` stays within the tokens |
| Parser.FimChamada | src/utils/analisadorSintatico.js:715-733 | `) ;` stays within the tokens |
| Parser.ListaArgumentos | src/utils/analisadorSintatico.js:735-763 | `lista_argumentos` stays within the tokens |
| Parser.MaisArgumentos | src/utils/analisadorSintatico.js:749-762 | the comma loop of `lista_argumentos` stays within the tokens |
| Parser.Expressao | src/utils/analisadorSintatico.js:765-794 | `expressao` advances on a token that can start an expression |
| Parser.MaisTermos | src/utils/analisadorSintatico.js:779-793 | the `+`/`-` loop stays within the tokens |
| Parser.Termo | src/utils/analisadorSintatico.js:796-825 | `termo` advances on a token that can start an expression |
| Parser.MaisFatores | src/utils/analisadorSintatico.js:810-824 | the `*`/`/` loop stays within the tokens |
| Parser.Fator | src/utils/analisadorSintatico.js:827-875 | `fator` advances on a token that can start an expression |
| Parser.ExpressaoRelacional | src/utils/analisadorSintatico.js:877-904 | `expressao_relacional` advances on a token that can start an expression |
| Parser.OperadorRelacional | src/utils/analisadorSintatico.js:906-930 | a relational operator is consumed silently |
| Parser.Tipo | src/utils/analisadorSintatico.js:932-954 | a `t_tipo` token is consumed silently |
| Parser.ComFim | src/utils/analisadorSintatico.js:16 | the marked list is the tokens followed by one end marker |
| Parser.Analisar | src/utils/analisadorSintatico.js:3-10 | a non-array gives only the invalid-list message and an empty list only the empty-input message; those two messages appear exactly for those two inputs |
| Parser.Analisador.constructor | src/utils/analisadorSintatico.js:12-16 | the parser state starts on the marked list, at its first token, with no messages |
| Parser.Analisador.Consumir | src/utils/analisadorSintatico.js:24-30 | `consumir` returns true exactly when the current token has the expected kind, and then steps over it; messages unchanged |
| Parser.Analisador.ReportarErro | src/utils/analisadorSintatico.js:33-38 | `reportarErro` appends exactly one message and leaves the cursor |
| Parser.Analisador.Sincronizar | src/utils/analisadorSintatico.js:41-45 | the loop stops where `Sincronizado` says; messages unchanged |
| Parser.Analisador.Falhar | src/utils/analisadorSintatico.js:33-45 | the method's cursor and messages are those of `Fail` |
| Parser.Analisador.Esperar | src/utils/analisadorSintatico.js:24-38 | the method's cursor and messages are those of `Expect` |
| Parser.Analisador.Fechar | src/utils/analisadorSintatico.js:24-45 | the method's cursor and messages are those of `Close` |
| Parser.Analisador.ParsePrograma | src/utils/analisadorSintatico.js:48-66 | the loop's cursor and messages are those of `Programa` |
| Parser.Analisador.ParseItem | src/utils/analisadorSintatico.js:52-64 | the loop body's cursor and messages are those of `Item` |
| Parser.Analisador.ParseDeclaracao | src/utils/analisadorSintatico.js:68-141 | the method's cursor and messages are those of `Declaracao` |
| Parser.Analisador.ExpressaoOuErro | src/utils/analisadorSintatico.js:113-122 | an expression when one can start at the cursor, else one report: the method's outcome is that one |
| Parser.Analisador.RelacionalOuErro | src/utils/analisadorSintatico.js:295-304 | a relational expression when one can start, else one report |
| Parser.Analisador.AtribuicaoOuErro | src/utils/analisadorSintatico.js:461-470 | an assignment when an identifier is at the cursor, else one report |
| Parser.Analisador.ParseRetornar | src/utils/analisadorSintatico.js:102-131 | the method's outcome is that of `Retornar` |
| Parser.Analisador.ParseBloco | src/utils/analisadorSintatico.js:325-327 | the block loop's outcome is that of `Bloco` |
| Parser.Analisador.ParseDeclaracaoVariavel | src/utils/analisadorSintatico.js:143-207 | outcome of `DeclaracaoVariavel` |
| Parser.Analisador.ParseInicializacao | src/utils/analisadorSintatico.js:187-206 | outcome of `Inicializacao` |
| Parser.Analisador.ParseAtribuicao | src/utils/analisadorSintatico.js:209-260 | outcome of `Atribuicao` |
| Parser.Analisador.ParseCondicional | src/utils/analisadorSintatico.js:262-304 | outcome of `Condicional` |
| Parser.Analisador.ParseCorpoCondicional | src/utils/analisadorSintatico.js:305-314 | outcome of `CorpoCondicional` |
| Parser.Analisador.ParseBlocoCondicional | src/utils/analisadorSintatico.js:315-327 | outcome of `BlocoCondicional` |
| Parser.Analisador.ParseFimCondicional | src/utils/analisadorSintatico.js:328-337 | outcome of `FimCondicional` |
| Parser.Analisador.ParseSenao | src/utils/analisadorSintatico.js:338-361 | outcome of `Senao` |
| Parser.Analisador.ParseBlocoFechado | src/utils/analisadorSintatico.js:349-360 | outcome of `BlocoFechado` |
| Parser.Analisador.ParseRepeticao | src/utils/analisadorSintatico.js:364-542 | outcome of `Repeticao` |
| Parser.Analisador.ParseCorpoBloco | src/utils/analisadorSintatico.js:408-417 | outcome of `CorpoBloco` |
| Parser.Analisador.ParseAbreBloco | src/utils/analisadorSintatico.js:418-436 | outcome of `AbreBloco` |
| Parser.Analisador.ParseEnquanto | src/utils/analisadorSintatico.js:377-407 | outcome of `Enquanto` |
| Parser.Analisador.ParsePara | src/utils/analisadorSintatico.js:440-460 | outcome of `Para` |
| Parser.Analisador.ParseParaCabecalho | src/utils/analisadorSintatico.js:461-480 | outcome of `ParaCabecalho` |
| Parser.Analisador.ParseParaIncremento | src/utils/analisadorSintatico.js:481-532 | outcome of `ParaIncremento` |
| Parser.Analisador.ParseDeclaracaoFuncao | src/utils/analisadorSintatico.js:544-586 | outcome of `DeclaracaoFuncao` |
| Parser.Analisador.ParseCorpoFuncao | src/utils/analisadorSintatico.js:587-622 | outcome of `CorpoFuncao` |
| Parser.Analisador.ParseListaParametros | src/utils/analisadorSintatico.js:624-641 | outcome of `ListaParametros`, comma loop included |
| Parser.Analisador.ParseParametro | src/utils/analisadorSintatico.js:643-677 | outcome of `Parametro` |
| Parser.Analisador.ParseChamadaFuncao | src/utils/analisadorSintatico.js:679-701 | outcome of `ChamadaFuncao` |
| Parser.Analisador.ParseArgumentosChamada | src/utils/analisadorSintatico.js:702-714 | outcome of `ArgumentosChamada` |
| Parser.Analisador.ParseFimChamada | src/utils/analisadorSintatico.js:715-733 | outcome of `FimChamada` |
| Parser.Analisador.ParseListaArgumentos | src/utils/analisadorSintatico.js:735-763 | outcome of `ListaArgumentos`, comma loop included |
| Parser.Analisador.ParseExpressao | src/utils/analisadorSintatico.js:765-794 | outcome of `Expressao`, `+`/`-` loop included |
| Parser.Analisador.ParseTermo | src/utils/analisadorSintatico.js:796-825 | outcome of `Termo`, `*`/`/` loop included |
| Parser.Analisador.ParseFator | src/utils/analisadorSintatico.js:827-875 | outcome of `Fator` |
| Parser.Analisador.ParseExpressaoRelacional | src/utils/analisadorSintatico.js:877-904 | outcome of `ExpressaoRelacional` |
| Parser.Analisador.ParseOperadorRelacional | src/utils/analisadorSintatico.js:906-930 | outcome of `OperadorRelacional` |
| Parser.Analisador.ParseTipo | src/utils/analisadorSintatico.js:932-954 | outcome of `Tipo` |
| Parser.AnalisarSintatico | src/utils/analisadorSintatico.js:3-966 | `analisarSintatico` returns the messages of `Analisar` |
| ParserProps.ProgramaReportaCadaToken | src/utils/analisadorSintatico.js:51-64 | when no remaining token can start a declaration, `programa` reports each of them once, in order, as an unexpected token |
| ParserProps.ProgramaPulaToken | src/utils/analisadorSintatico.js:54-63 | a token that cannot start a declaration costs exactly one message and one step |
| ParserProps.MaisFatoresPlanos | src/utils/analisadorSintatico.js:810-824 | on a flat run the `*`/`/` loop stops silently at its end or at the next `+`/`-` |
| ParserProps.TermoPlano | src/utils/analisadorSintatico.js:796-825 | `termo` on a flat run reads silently up to the next `+`/`-` or the end |
| ParserProps.MaisTermosPlanos | src/utils/analisadorSintatico.js:779-793 | the `+`/`-` loop consumes a flat run silently |
| ParserProps.ExpressaoPlana | src/utils/analisadorSintatico.js:765-875 | `operand {op operand}` followed by anything else is one `expressao` with no message, ending right after it |
| ParserProps.RelacionalSemOperador | src/utils/analisadorSintatico.js:891 | the relational operator and its right side are optional |
| ParserProps.RelacionalComOperador | src/utils/analisadorSintatico.js:877-904 | `a op b` with flat sides is one relational expression with no message |
| ParserProps.OperadorSemTermo | src/utils/analisadorSintatico.js:781-791 | an operator with no term after it is reported as a missing term, on the token after it |
| ParserProps.ExemploSemPontoEVirgula | src/utils/analisadorSintatico.js:199-206 | `variavel x : inteiro` without `;` gives exactly one message, found at the end marker |
| Semantico.Erro | src/utils/analisadorSemantico.js:16-18 | `adicionarErro` appends exactly one message at the given line and changes nothing else |
| Semantico.AdicionarSimbolo | src/utils/analisadorSemantico.js:20-31 | a name already in that scope leaves the table as it was and adds one redeclaration message; a new name appends exactly one uninitialised, unused symbol with the given name, category, type, scope and line |
| Semantico.ObterSimbolo | src/utils/analisadorSemantico.js:50-55 | `obterSimbolo` finds the first symbol of that name in the current scope or in `global`, and finds none exactly when there is none |
| Semantico.ObterDesde | src/utils/analisadorSemantico.js:51-53 | the same search from index `k` on |
| Semantico.Marcar | src/utils/analisadorSemantico.js:69-70 | marking a symbol used sets its flag and adds its name to the used names; table size, stack and messages unchanged |
| Semantico.Inicializado | src/utils/analisadorSemantico.js:193-194 | marking a symbol initialised sets its flag and adds its name to the initialised names |
| Semantico.Compatibilidade | src/utils/analisadorSemantico.js:33-48 | the check passes exactly when the types are equal or one is `inteiro` and the other `decimal`; it is silent exactly on equal types, and otherwise gives one message, the incompatibility message when it fails |
| Semantico.Verificado | src/utils/analisadorSemantico.js:33-48 | the check only adds messages |
| Semantico.CombinarAritmetico | src/utils/analisadorSemantico.js:96-106 | with both sides typed, a `texto` or `logico` side gives one message at the operator and no type; otherwise the result is `decimal` exactly when a side is, else `inteiro`; with a side missing the left type stays and nothing is reported |
| Semantico.Expressao | src/utils/analisadorSemantico.js:57-119 | `processarExpressao` ends at or after the token before it started, within the tokens, and only marks, reports and keeps the table's shape |
| Semantico.Laco | src/utils/analisadorSemantico.js:61-116 | the same for the loop from any index |
| Semantico.PassoExpressao | src/utils/analisadorSemantico.js:62-115 | one turn of the loop either stops or moves forward |
| Semantico.UsoEmExpressao | src/utils/analisadorSemantico.js:64-75 | an identifier in an expression is one step |
| Semantico.Parenteses | src/utils/analisadorSemantico.js:82-89 | `( expressao )` moves past the group |
| Semantico.OperacaoAritmetica | src/utils/analisadorSemantico.js:90-106 | `+ - * /` moves past the right operand |
| Semantico.OperacaoRelacional | src/utils/analisadorSemantico.js:107-111 | a relational operator moves past the right operand and makes the type `logico` |
| Semantico.BuscarFuncao | src/utils/analisadorSemantico.js:123-124 | the scan finds the first `funcao nome`, and none exactly when there is none |
| Semantico.LerParametro | src/utils/analisadorSemantico.js:129-142 | one parameter `nome : tipo` is kept; one without `:` or type is dropped; the index moves two or three tokens |
| Semantico.LerParametros | src/utils/analisadorSemantico.js:128-143 | the parameter loop only appends, at most one parameter per token |
| Semantico.ParametrosDeclarados | src/utils/analisadorSemantico.js:121-149 | `obterParametrosFuncao` returns no more parameters than tokens |
| Semantico.Variavel | src/utils/analisadorSemantico.js:162-196 | a declaration moves forward and leaves the scope stack alone |
| Semantico.Inicializacao | src/utils/analisadorSemantico.js:182-196 | the initialiser leaves the scope stack alone |
| Semantico.Funcao | src/utils/analisadorSemantico.js:197-235 | `funcao nome` pushes `nome` as the current scope exactly when a name follows the keyword |
| Semantico.Parametros | src/utils/analisadorSemantico.js:208-235 | the parameter loop of a declaration leaves the scope stack alone |
| Semantico.UmParametro | src/utils/analisadorSemantico.js:210-231 | one turn of that loop moves forward, only grows the table and the initialised names |
| Semantico.Atribuicao | src/utils/analisadorSemantico.js:236-270 | an assignment moves forward and leaves the scope stack alone |
| Semantico.Argumento | src/utils/analisadorSemantico.js:283-290 | one argument keeps what was collected and only marks and reports |
| Semantico.Argumentos | src/utils/analisadorSemantico.js:282-291 | the argument loop keeps what was collected; see the findings for the case the source never leaves |
| Semantico.ChecarArgumentos | src/utils/analisadorSemantico.js:305-315 | at most one message per argument, and none when every type matches its parameter |
| Semantico.Chamada | src/utils/analisadorSemantico.js:271-317 | a call leaves the scope stack alone |
| Semantico.Uso | src/utils/analisadorSemantico.js:318-325 | any other identifier is looked up and marked in place |
| Semantico.Passo | src/utils/analisadorSemantico.js:158-328 | one turn of the main loop never moves back |
| Semantico.NaoInicializadas | src/utils/analisadorSemantico.js:331-335 | at most one message per symbol |
| Semantico.NaoUtilizadas | src/utils/analisadorSemantico.js:337-341 | at most one message per symbol |
| Semantico.Exportar | src/utils/analisadorSemantico.js:343-350 | one exported entry per symbol, in order, with its name and scope |
| SemanticoExec.ObterParametrosFuncao | src/utils/analisadorSemantico.js:121-149 | the method returns `ParametrosDeclarados` |
| SemanticoExec.LerParametrosDe | src/utils/analisadorSemantico.js:126-144 | with `(` after the name the loop's parameters, else none |
| SemanticoExec.LerListaParametros | src/utils/analisadorSemantico.js:128-143 | the loop returns `LerParametros` |
| SemanticoExec.LerUmParametro | src/utils/analisadorSemantico.js:129-142 | the loop body returns `LerParametro` |
| SemanticoExec.Analise.constructor | src/utils/analisadorSemantico.js:152-156 | the state starts from a copy of the initial table, no messages, empty sets and the stack `global` |
| SemanticoExec.Analise.AdicionarErro | src/utils/analisadorSemantico.js:16-18 | the state becomes `Erro` of the old one |
| SemanticoExec.Analise.Adicionar | src/utils/analisadorSemantico.js:20-31 | the state becomes `AdicionarSimbolo` of the old one |
| SemanticoExec.Analise.VerificarCompatibilidadeTipos | src/utils/analisadorSemantico.js:33-48 | the method returns the verdict and adds the messages of `Compatibilidade` |
| SemanticoExec.Analise.ProcessarExpressao | src/utils/analisadorSemantico.js:57-119 | the method returns the type and index and leaves the state of `Expressao` |
| SemanticoExec.Analise.ProcessarToken | src/utils/analisadorSemantico.js:62-115 | the loop body does what `PassoExpressao` says |
| SemanticoExec.Analise.UsarEmExpressao | src/utils/analisadorSemantico.js:64-75 | an identifier in an expression does what `UsoEmExpressao` says |
| SemanticoExec.Analise.ProcessarParenteses | src/utils/analisadorSemantico.js:82-89 | a parenthesis does what `Parenteses` says |
| SemanticoExec.Analise.ProcessarAritmetico | src/utils/analisadorSemantico.js:90-106 | an arithmetic operator does what `OperacaoAritmetica` says |
| SemanticoExec.Analise.ProcessarRelacional | src/utils/analisadorSemantico.js:107-111 | a relational operator does what `OperacaoRelacional` says |
| SemanticoExec.Analise.PercorrerTokens | src/utils/analisadorSemantico.js:158-329 | the main loop leaves the state `Principal` computes |
| SemanticoExec.Analise.Avancar | src/utils/analisadorSemantico.js:158-329 | one turn of the main loop is one step of `Principal` |
| SemanticoExec.Analise.ProcessarDeclaracao | src/utils/analisadorSemantico.js:159-328 | the loop body does what `Passo` says |
| SemanticoExec.Analise.AnalisarVariavel | src/utils/analisadorSemantico.js:162-196 | a declaration does what `Variavel` says |
| SemanticoExec.Analise.AnalisarInicializacao | src/utils/analisadorSemantico.js:182-196 | an initialiser does what `Inicializacao` says |
| SemanticoExec.Analise.AnalisarFuncao | src/utils/analisadorSemantico.js:197-235 | a function header does what `Funcao` says |
| SemanticoExec.Analise.AnalisarParametros | src/utils/analisadorSemantico.js:208-235 | the parameter loop does what `Parametros` says |
| SemanticoExec.Analise.ProximoParametro | src/utils/analisadorSemantico.js:210-231 | one turn of that loop does what `UmParametro` says |
| SemanticoExec.Analise.ProcurarProprioValor | src/utils/analisadorSemantico.js:245-255 | the scan returns `UsaProprioValor` |
| SemanticoExec.Analise.AnalisarAtribuicao | src/utils/analisadorSemantico.js:236-270 | an assignment does what `Atribuicao` says |
| SemanticoExec.Analise.AnalisarArgumentos | src/utils/analisadorSemantico.js:280-291 | the argument loop does what `Argumentos` says |
| SemanticoExec.Analise.ProcessarArgumento | src/utils/analisadorSemantico.js:283-290 | one argument does what `Argumento` says |
| SemanticoExec.Analise.VerificarArgumentos | src/utils/analisadorSemantico.js:305-315 | the check loop appends the messages of `ChecarArgumentos` |
| SemanticoExec.Analise.AnalisarChamada | src/utils/analisadorSemantico.js:271-317 | a call does what `Chamada` says |
| SemanticoExec.Analise.AnalisarUso | src/utils/analisadorSemantico.js:318-325 | any other identifier does what `Uso` says |
| SemanticoExec.Analise.RelatarNaoInicializadas | src/utils/analisadorSemantico.js:331-335 | the first `forEach` appends the messages of `NaoInicializadas` |
| SemanticoExec.Analise.RelatarNaoUtilizadas | src/utils/analisadorSemantico.js:337-341 | the second `forEach` appends the messages of `NaoUtilizadas` |
| SemanticoExec.AnalisarSemantico | src/utils/analisadorSemantico.js:151-353 | `analisarSemantico` returns the model's result |
| SemanticoProps.AdicionarSimboloUnicos | src/utils/analisadorSemantico.js:20-31 | `adicionarSimbolo` never puts a second symbol with the same name in the same scope |
| SemanticoProps.AdicionarSimboloCresce | src/utils/analisadorSemantico.js:20-31 | it keeps every symbol where it was, by name and scope |
| SemanticoProps.InicializacaoCresce | src/utils/analisadorSemantico.js:182-196 | an initialiser keeps every symbol where it was |
| SemanticoProps.VariavelCresce | src/utils/analisadorSemantico.js:162-196 | a declaration keeps every symbol where it was |
| SemanticoProps.ParametrosCresce | src/utils/analisadorSemantico.js:208-235 | the parameter loop keeps every symbol where it was |
| SemanticoProps.UmParametroCresce | src/utils/analisadorSemantico.js:210-231 | one parameter keeps every symbol where it was |
| SemanticoProps.FuncaoCresce | src/utils/analisadorSemantico.js:197-235 | a function header keeps every symbol where it was |
| SemanticoProps.AtribuicaoCresce | src/utils/analisadorSemantico.js:236-270 | an assignment keeps every symbol where it was |
| SemanticoProps.ChamadaCresce | src/utils/analisadorSemantico.js:271-317 | a call keeps every symbol where it was |
| SemanticoProps.UsoCresce | src/utils/analisadorSemantico.js:318-325 | a use keeps every symbol where it was |
| SemanticoProps.PassoCresce | src/utils/analisadorSemantico.js:158-328 | one turn of the main loop keeps every symbol where it was |
| SemanticoProps.PrincipalCresce | src/utils/analisadorSemantico.js:158-329 | the whole loop keeps every symbol in place, and unique name-and-scope pairs unique |
| SemanticoProps.AnalisarSemanticoPreservaTabela | src/utils/analisadorSemantico.js:151-353 | the returned table starts with the initial symbols, by name and scope, and holds no two symbols with the same name in one scope unless the initial table did |
| SemanticoProps.PassoGlobalNaBase | src/utils/analisadorSemantico.js:326-327 | one turn keeps `global` at the bottom of the scope stack |
| SemanticoProps.PrincipalGlobalNaBase | src/utils/analisadorSemantico.js:156-329 | `global` is never popped, whatever the tokens |
| SemanticoProps.FechaChaveDesempilha | src/utils/analisadorSemantico.js:326-327 | `}` closes the innermost function scope, and only that one |
| SemanticoProps.ParametrosAcrescentam | src/utils/analisadorSemantico.js:208-235 | the parameter loop only appends symbols and only adds initialised names |
| SemanticoProps.ParametroRegistrado | src/utils/analisadorSemantico.js:222-224 | a parameter `nome : tipo` new to the function's scope is registered there, with its type |
| SemanticoProps.FuncaoRegistra | src/utils/analisadorSemantico.js:203-205 | `funcao f` with `f` new in `global` registers `f` there as a `void` function at the keyword's line, and `f` becomes the current scope |
| SemanticoProps.LacoFim | src/utils/analisadorSemantico.js:112-118 | the expression loop ends at a token that cannot continue it, one before it |
| SemanticoProps.LacoSegue | src/utils/analisadorSemantico.js:61-116 | one turn of the expression loop, then the rest |
| SemanticoProps.ExpressaoNumero | src/utils/analisadorSemantico.js:76-77 | a number alone is an `inteiro` expression ending at it, with no message |
| SemanticoProps.OperadorComTexto | src/utils/analisadorSemantico.js:97-99 | `texto` with an arithmetic operator gives one message at the operator and no type |
| SemanticoProps.AritmeticoPasso | src/utils/analisadorSemantico.js:90-95 | an arithmetic operator takes the rest of the expression as its right operand |
| SemanticoProps.ExpressaoDecimal | src/utils/analisadorSemantico.js:78-79 | a decimal number alone is a `decimal` expression, with no message |
| SemanticoProps.InteiroComDecimal | src/utils/analisadorSemantico.js:103-104 | `inteiro` with `decimal` gives `decimal`, silently |
| SemanticoProps.RelacionalPasso | src/utils/analisadorSemantico.js:107-111 | a relational operator takes the rest as its right operand and gives `logico` |
| SemanticoProps.Comparacao | src/utils/analisadorSemantico.js:107-111 | a comparison of two numbers is `logico`, silently |
| SemanticoProps.ExpressaoNaoDeclarada | src/utils/analisadorSemantico.js:64-67 | an identifier with no visible symbol gives one "não declarada" message and no type |
| SemanticoProps.AtribuicaoNaoDeclarada | src/utils/analisadorSemantico.js:238-242 | assigning to a name with no visible symbol gives one "não declarada" message, skips two tokens and does nothing else |
| SemanticoProps.ChamadaContagem | src/utils/analisadorSemantico.js:296-316 | a call of a visible function whose argument count differs from the re-scanned parameter list ends in one count message; equal counts with matching types and a closing `)` add no message after the arguments' |
| SemanticoProps.NaoInicializadasExatas | src/utils/analisadorSemantico.js:331-335 | a message is in the first report exactly when it names a variable never initialised, at its line |
| SemanticoProps.NaoUtilizadasExatas | src/utils/analisadorSemantico.js:337-341 | a message is in the second report exactly when it names a variable never used, at its line |
| SemanticoProps.NaoInicializadasAppend | src/utils/analisadorSemantico.js:331-335 | appending one symbol appends its own message, if any, to the first report |
| SemanticoProps.AdicionarSimboloAsWritten | src/utils/analisadorSemantico.js:25-26 | as written, a redeclaration throws instead of reporting; otherwise it agrees with the corrected `AdicionarSimbolo` |
| SemanticoProps.PrimeiraDeclaracao | src/utils/analisadorSemantico.js:162-180 | the first `variavel x : inteiro` registers `x` in `global` |
| SemanticoProps.SegundaDeclaracao | src/utils/analisadorSemantico.js:180 | the second finds `x` in `global` and only reports it |
| SemanticoProps.RedeclaracaoExemplo | src/utils/analisadorSemantico.js:20-31 | on the second declaration of `x` the source throws, while the corrected model reports one redeclaration and keeps one `x` |
| SemanticoProps.ParentesesAsWritten | src/utils/analisadorSemantico.js:82-89 | for a group that holds no further `(` (one level of parentheses), the `(` case as written checks for `)` at the last token the inner expression consumed and steps only past that token |
| SemanticoProps.ParentesesAsWrittenNumero | src/utils/analisadorSemantico.js:86-89 | on `( 1 )` the source reports a missing `)` at the `1` and leaves the `)` unread |
| SemanticoProps.ParentesesNumero | src/utils/analisadorSemantico.js:82-89 | the corrected model reads `( 1 )` whole, as `inteiro`, with no message |
| SemanticoProps.ArgumentosAsWritten | src/utils/analisadorSemantico.js:282-291 | the loop as written, bounded by fuel, ends only at `)` or at the end of the tokens |
| SemanticoProps.ArgumentoParado | src/utils/analisadorSemantico.js:283-290 | at a token that is no expression start, `,` or `)`, one turn changes nothing |
| SemanticoProps.ArgumentosAsWrittenNaoTermina | src/utils/analisadorSemantico.js:282 | so the source's loop never ends there, however many turns it is given |
| SemanticoProps.ArgumentosParam | src/utils/analisadorSemantico.js:292-294 | the corrected loop stops there, and the call reports the missing `)` |
| TabelaEscopos.Nova | src/utils/analisardorSemantico.js:14-17 | the new table has one empty global scope and it is the current one |
| TabelaEscopos.Entrar | src/utils/analisardorSemantico.js:20-23 | `entrarEscopo` puts one empty scope on top, keeps the others, and moves the current index up by one |
| TabelaEscopos.Sair | src/utils/analisardorSemantico.js:26-29 | `sairEscopo` drops the top scope and moves the current index down by one |
| TabelaEscopos.ProcurarDesde | src/utils/analisardorSemantico.js:44 | a match found from index `k` on has the name |
| TabelaEscopos.Procurar | src/utils/analisardorSemantico.js:43-45 | a match found in a scope has the name |
| TabelaEscopos.BuscarDesde | src/utils/analisardorSemantico.js:49-53 | the walk from scope `s` down finds a symbol in a scope at or below `s` |
| TabelaEscopos.Buscar | src/utils/analisardorSemantico.js:48-54 | `buscarSimbolo` finds a symbol at or below the current scope |
| TabelaEscopos.Atualizar | src/utils/analisardorSemantico.js:57-77 | flag updates keep the number of scopes and the current index |
| TabelaEscopos.Adicionar | src/utils/analisardorSemantico.js:32-40 | `adicionarSimbolo` keeps the number of scopes and the current index |
| TabelaEscopos.Inicializar | src/utils/analisardorSemantico.js:57-64 | `marcarInicializado` keeps the number of scopes and the current index |
| TabelaEscopos.Usar | src/utils/analisardorSemantico.js:67-77 | `marcarUsado` keeps the number of scopes and the current index |
| TabelaEscopos.VerificarTipos | src/utils/analisardorSemantico.js:80-92 | a message, when there is one, is the incompatibility message for those types |
| TabelaEscopos.TabelaSimbolos.constructor | src/utils/analisardorSemantico.js:14-17 | the object holds the table of `Nova` |
| TabelaEscopos.TabelaSimbolos.EntrarEscopo | src/utils/analisardorSemantico.js:20-23 | the object holds `Entrar` of its old table |
| TabelaEscopos.TabelaSimbolos.SairEscopo | src/utils/analisardorSemantico.js:26-29 | the object holds `Sair` of its old table |
| TabelaEscopos.TabelaSimbolos.BuscarSimboloNoEscopoAtual | src/utils/analisardorSemantico.js:43-45 | the method returns `Procurar` on the current scope |
| TabelaEscopos.TabelaSimbolos.BuscarSimbolo | src/utils/analisardorSemantico.js:48-54 | the loop returns `Buscar` |
| TabelaEscopos.TabelaSimbolos.AdicionarSimbolo | src/utils/analisardorSemantico.js:32-40 | the new table and the returned message are those of `Adicionar` |
| TabelaEscopos.TabelaSimbolos.MarcarInicializado | src/utils/analisardorSemantico.js:57-64 | the new table and message are those of `Inicializar` |
| TabelaEscopos.TabelaSimbolos.MarcarUsado | src/utils/analisardorSemantico.js:67-77 | the new table and message are those of `Usar` |
| TabelaEscopos.TabelaSimbolos.VerificarNaoUsadas | src/utils/analisardorSemantico.js:95-105 | the nested loops return `Avisos` of the scopes |
| TabelaEscoposProps.NovaCoerente | src/utils/analisardorSemantico.js:14-17 | the new table satisfies the table invariant |
| TabelaEscoposProps.EntrarCoerente | src/utils/analisardorSemantico.js:20-23 | `entrarEscopo` keeps the invariant |
| TabelaEscoposProps.SairCoerente | src/utils/analisardorSemantico.js:26-29 | `sairEscopo` keeps it while the global scope is not the one left |
| TabelaEscoposProps.Equilibrados | src/utils/analisardorSemantico.js:20-29 | after `n` entries the current index is the top scope; leaving as many scopes as were entered gives back the table exactly |
| TabelaEscoposProps.ProcurarDesdeExato | src/utils/analisardorSemantico.js:44 | `find` returns the first match, and nothing only when there is none |
| TabelaEscoposProps.ProcurarExato | src/utils/analisardorSemantico.js:43-45 | the same for the current scope |
| TabelaEscoposProps.BuscarDesdeMaisInterno | src/utils/analisardorSemantico.js:49-53 | the walk from scope `s` down finds the innermost declaring scope |
| TabelaEscoposProps.BuscarMaisInterno | src/utils/analisardorSemantico.js:48-54 | `buscarSimbolo` finds the first entry of the innermost scope that declares the name, no scope between that one and the current one declares it, and it finds nothing only when no visible scope does |
| TabelaEscoposProps.AdicionarRepetido | src/utils/analisardorSemantico.js:33-36 | a name the current scope already has gives the message naming that earlier symbol's line, and the table is left as it was |
| TabelaEscoposProps.AdicionarNovo | src/utils/analisardorSemantico.js:37-39 | otherwise the symbol, uninitialised and unused, is appended to the current scope, nothing is reported, and the name then resolves to it |
| TabelaEscoposProps.AdicionarCoerente | src/utils/analisardorSemantico.js:32-40 | `adicionarSimbolo` keeps the invariant, so a name never appears twice in a scope |
| TabelaEscoposProps.AtualizarCoerente | src/utils/analisardorSemantico.js:57-77 | replacing a symbol by one with the same name, flags aside, keeps the invariant |
| TabelaEscoposProps.InicializarCoerente | src/utils/analisardorSemantico.js:57-64 | `marcarInicializado` keeps the invariant |
| TabelaEscoposProps.UsarCasos | src/utils/analisardorSemantico.js:67-77 | an undeclared name is reported and nothing changes; a symbol not yet initialised is reported and stays unused; otherwise that symbol is marked used and nothing is reported |
| TabelaEscoposProps.UsarCoerente | src/utils/analisardorSemantico.js:67-77 | `marcarUsado` keeps the invariant: a used symbol is always an initialised one |
| TabelaEscoposProps.CompatibilidadeTipos | src/utils/analisardorSemantico.js:81-91 | on a known left type, `inteiro` and `decimal` accept each other, `texto` and `logico` only themselves |
| TabelaEscoposProps.AvisosEscopoExatos | src/utils/analisardorSemantico.js:98-102 | a warning is produced for a scope exactly for its unused symbols, at their lines |
| TabelaEscoposProps.AvisosExatos | src/utils/analisardorSemantico.js:95-105 | `verificarNaoUsadas` warns about exactly the symbols still in the table that were never used, each at its line |
| SemanticoEscopos.Consumir | src/utils/analisardorSemantico.js:115-121 | `consumir` steps over the token exactly when it has the expected kind, and otherwise stays |
| SemanticoEscopos.Relatar | src/utils/analisardorSemantico.js:169 | `if (erro) erros.push(erro)` appends exactly the message there is |
| SemanticoEscopos.Declarar | src/utils/analisardorSemantico.js:168-169 | declaring only adds to the table and the messages |
| SemanticoEscopos.Inicializada | src/utils/analisardorSemantico.js:175-176 | marking initialised only updates the table and adds messages |
| SemanticoEscopos.Usada | src/utils/analisardorSemantico.js:342-343 | marking used only updates the table and adds messages |
| SemanticoEscopos.Verificar | src/utils/analisardorSemantico.js:80-92 | the type check leaves the table alone, and the analysis breaks off exactly when the left type is not one of the four known ones |
| SemanticoEscopos.Declaracoes | src/utils/analisardorSemantico.js:124-126 | the declaration loop stops at the first token that cannot start a declaration |
| SemanticoEscopos.Declaracao | src/utils/analisardorSemantico.js:129-158 | `declaracao` always consumes the current token |
| SemanticoEscopos.Retornar | src/utils/analisardorSemantico.js:152-156 | `retornar expressao ;` always advances |
| SemanticoEscopos.DeclaracaoVariavel | src/utils/analisardorSemantico.js:160-179 | `declaracao_variavel` always advances |
| SemanticoEscopos.RestoVariavel | src/utils/analisardorSemantico.js:171-178 | the optional `= expressao` and `;` stay within the tokens |
| SemanticoEscopos.Inicializacao | src/utils/analisardorSemantico.js:172-176 | the initialiser stays within the tokens |
| SemanticoEscopos.Atribuicao | src/utils/analisardorSemantico.js:181-197 | `atribuicao` advances on an identifier |
| SemanticoEscopos.Atribuir | src/utils/analisardorSemantico.js:188-196 | the checks at the end of `atribuicao` only add messages and update flags |
| SemanticoEscopos.Bloco | src/utils/analisardorSemantico.js:205-210 | a block body stays within the tokens |
| SemanticoEscopos.AbreBloco | src/utils/analisardorSemantico.js:204-210 | `{` and a block body stay within the tokens |
| SemanticoEscopos.FechaEBloco | src/utils/analisardorSemantico.js:203-210 | `)`, `{` and a block body stay within the tokens |
| SemanticoEscopos.Condicional | src/utils/analisardorSemantico.js:199-220 | `condicional` always advances |
| SemanticoEscopos.Senao | src/utils/analisardorSemantico.js:211-219 | the optional `senao` block stays within the tokens |
| SemanticoEscopos.Enquanto | src/utils/analisardorSemantico.js:223-234 | the `enquanto` branch always advances |
| SemanticoEscopos.Para | src/utils/analisardorSemantico.js:235-250 | the `para` branch always advances |
| SemanticoEscopos.ParaIncremento | src/utils/analisardorSemantico.js:240-250 | the rest of `para` stays within the tokens |
| SemanticoEscopos.DeclaracaoFuncao | src/utils/analisardorSemantico.js:253-272 | `declaracao_funcao` always advances |
| SemanticoEscopos.CorpoFuncao | src/utils/analisardorSemantico.js:261-271 | the body and the late declaration of the name stay within the tokens |
| SemanticoEscopos.ListaParametros | src/utils/analisardorSemantico.js:274-279 | `lista_parametros` stays within the tokens |
| SemanticoEscopos.MaisParametros | src/utils/analisardorSemantico.js:276-278 | its comma loop stays within the tokens |
| SemanticoEscopos.Parametro | src/utils/analisardorSemantico.js:281-292 | `parametro` stays within the tokens |
| SemanticoEscopos.ChamadaFuncao | src/utils/analisardorSemantico.js:294-306 | `chamada_funcao` always advances |
| SemanticoEscopos.ListaArgumentos | src/utils/analisardorSemantico.js:308-313 | `lista_argumentos` stays within the tokens |
| SemanticoEscopos.MaisArgumentos | src/utils/analisardorSemantico.js:310-312 | its comma loop stays within the tokens |
| SemanticoEscopos.Expressao | src/utils/analisardorSemantico.js:315-325 | `expressao` stays within the tokens |
| SemanticoEscopos.MaisTermos | src/utils/analisardorSemantico.js:317-323 | the `+`/`-` loop keeps the first term's type |
| SemanticoEscopos.OutroTermo | src/utils/analisardorSemantico.js:318-322 | one turn of that loop advances and keeps the type |
| SemanticoEscopos.Termo | src/utils/analisardorSemantico.js:327-337 | `termo` stays within the tokens |
| SemanticoEscopos.MaisFatores | src/utils/analisardorSemantico.js:329-335 | the `*`/`/` loop keeps the first factor's type |
| SemanticoEscopos.OutroFator | src/utils/analisardorSemantico.js:330-334 | one turn of that loop advances and keeps the type |
| SemanticoEscopos.Fator | src/utils/analisardorSemantico.js:339-354 | `fator` stays within the tokens |
| SemanticoEscopos.ExpressaoRelacional | src/utils/analisardorSemantico.js:356-364 | `expressao_relacional` stays within the tokens |
| SemanticoEscopos.ComFim | src/utils/analisardorSemantico.js:112 | the marked list is the tokens followed by one end marker |
| SemanticoEscopos.Programa | src/utils/analisardorSemantico.js:109-127 | `programa` ends within the tokens with a table back at its one global scope |
| SemanticoEscopos.AnalisarSemantico | src/utils/analisardorSemantico.js:108-376 | the analysis ends in an exception exactly when the descent broke off on an unknown type |
| SemanticoEscoposExec.Analisador.constructor | src/utils/analisardorSemantico.js:109-112 | the analyser starts at token 0 of the marked list, with a fresh table of one global scope, no messages and no exception |
| SemanticoEscoposExec.Analisador.Consumir | src/utils/analisardorSemantico.js:115-121 | `consumir` leaves the analyser where `SemanticoEscopos.Consumir` says and answers true exactly when the token had the expected kind |
| SemanticoEscoposExec.Analisador.Relatar | src/utils/analisardorSemantico.js:169 | the message, when there is one, is appended to the list |
| SemanticoEscoposExec.Analisador.Declarar | src/utils/analisardorSemantico.js:168-169 | the table object and the messages become those of `SemanticoEscopos.Declarar` |
| SemanticoEscoposExec.Analisador.Inicializada | src/utils/analisardorSemantico.js:175-176 | the table object and the messages become those of `SemanticoEscopos.Inicializada` |
| SemanticoEscoposExec.Analisador.Usada | src/utils/analisardorSemantico.js:342-343 | the table object and the messages become those of `SemanticoEscopos.Usada` |
| SemanticoEscoposExec.Analisador.Verificar | src/utils/analisardorSemantico.js:190-195 | the messages and the exception flag become those of `SemanticoEscopos.Verificar` |
| SemanticoEscoposExec.Analisador.Declaracoes | src/utils/analisardorSemantico.js:124-126 | the `while (firstDeclaracao…)` loop ends in the state of `SemanticoEscopos.Declaracoes` |
| SemanticoEscoposExec.Analisador.Declaracao | src/utils/analisardorSemantico.js:129-158 | the method ends in the state of `SemanticoEscopos.Declaracao` |
| SemanticoEscoposExec.Analisador.Retornar | src/utils/analisardorSemantico.js:152-156 | the method ends in the state of `SemanticoEscopos.Retornar` |
| SemanticoEscoposExec.Analisador.DeclaracaoVariavel | src/utils/analisardorSemantico.js:160-179 | the method ends in the state of `SemanticoEscopos.DeclaracaoVariavel` |
| SemanticoEscoposExec.Analisador.RestoVariavel | src/utils/analisardorSemantico.js:171-178 | the method ends in the state of `SemanticoEscopos.RestoVariavel` |
| SemanticoEscoposExec.Analisador.Inicializacao | src/utils/analisardorSemantico.js:172-176 | the method ends in the state of `SemanticoEscopos.Inicializacao` |
| SemanticoEscoposExec.Analisador.Atribuicao | src/utils/analisardorSemantico.js:181-197 | the method ends in the state of `SemanticoEscopos.Atribuicao` |
| SemanticoEscoposExec.Analisador.Atribuir | src/utils/analisardorSemantico.js:188-196 | the method ends in the state of `SemanticoEscopos.Atribuir` |
| SemanticoEscoposExec.Analisador.Bloco | src/utils/analisardorSemantico.js:205-210 | entering a scope, the statements and leaving the scope end in the state of `SemanticoEscopos.Bloco` |
| SemanticoEscoposExec.Analisador.AbreBloco | src/utils/analisardorSemantico.js:204-210 | the method ends in the state of `SemanticoEscopos.AbreBloco` |
| SemanticoEscoposExec.Analisador.FechaEBloco | src/utils/analisardorSemantico.js:203-210 | the method ends in the state of `SemanticoEscopos.FechaEBloco` |
| SemanticoEscoposExec.Analisador.Condicional | src/utils/analisardorSemantico.js:199-220 | the method ends in the state of `SemanticoEscopos.Condicional` |
| SemanticoEscoposExec.Analisador.Senao | src/utils/analisardorSemantico.js:211-219 | the method ends in the state of `SemanticoEscopos.Senao` |
| SemanticoEscoposExec.Analisador.Enquanto | src/utils/analisardorSemantico.js:223-234 | the method ends in the state of `SemanticoEscopos.Enquanto` |
| SemanticoEscoposExec.Analisador.Para | src/utils/analisardorSemantico.js:235-250 | the method ends in the state of `SemanticoEscopos.Para` |
| SemanticoEscoposExec.Analisador.ParaIncremento | src/utils/analisardorSemantico.js:240-250 | the method ends in the state of `SemanticoEscopos.ParaIncremento` |
| SemanticoEscoposExec.Analisador.DeclaracaoFuncao | src/utils/analisardorSemantico.js:253-272 | the method ends in the state of `SemanticoEscopos.DeclaracaoFuncao` |
| SemanticoEscoposExec.Analisador.CorpoFuncao | src/utils/analisardorSemantico.js:261-271 | the method ends in the state of `SemanticoEscopos.CorpoFuncao` |
| SemanticoEscoposExec.Analisador.ListaParametros | src/utils/analisardorSemantico.js:274-279 | the comma loop ends in the state of `SemanticoEscopos.ListaParametros` |
| SemanticoEscoposExec.Analisador.Parametro | src/utils/analisardorSemantico.js:281-292 | the method ends in the state of `SemanticoEscopos.Parametro` |
| SemanticoEscoposExec.Analisador.ChamadaFuncao | src/utils/analisardorSemantico.js:294-306 | the method ends in the state of `SemanticoEscopos.ChamadaFuncao` |
| SemanticoEscoposExec.Analisador.ListaArgumentos | src/utils/analisardorSemantico.js:308-313 | the comma loop ends in the state of `SemanticoEscopos.ListaArgumentos` |
| SemanticoEscoposExec.Analisador.Argumento | src/utils/analisardorSemantico.js:309-311 | one argument and its comma end in the state of one turn of `SemanticoEscopos.MaisArgumentos` |
| SemanticoEscoposExec.Analisador.Expressao | src/utils/analisardorSemantico.js:315-325 | the `+`/`-` loop ends in the state and with the type of `SemanticoEscopos.Expressao` |
| SemanticoEscoposExec.Analisador.OutroTermo | src/utils/analisardorSemantico.js:318-322 | one turn ends in the state and with the type of `SemanticoEscopos.OutroTermo` |
| SemanticoEscoposExec.Analisador.Termo | src/utils/analisardorSemantico.js:327-337 | the `*`/`/` loop ends in the state and with the type of `SemanticoEscopos.Termo` |
| SemanticoEscoposExec.Analisador.OutroFator | src/utils/analisardorSemantico.js:330-334 | one turn ends in the state and with the type of `SemanticoEscopos.OutroFator` |
| SemanticoEscoposExec.Analisador.Fator | src/utils/analisardorSemantico.js:339-354 | the method ends in the state and with the type of `SemanticoEscopos.Fator` |
| SemanticoEscoposExec.Analisador.ExpressaoRelacional | src/utils/analisardorSemantico.js:356-364 | the method ends in the state of `SemanticoEscopos.ExpressaoRelacional` |
| SemanticoEscoposExec.AnalisarSemantico | src/utils/analisardorSemantico.js:108-376 | the method returns `SemanticoEscopos.AnalisarSemantico` of the tokens |
| SemanticoEscoposProps.Cabecas | src/utils/analisardorSemantico.js:32-40 | one entry per symbol of the scope, in order, with its name, type and line |
| SemanticoEscoposProps.Forma | src/utils/analisardorSemantico.js:13-17 | one list per scope, each the `Cabecas` of that scope |
| SemanticoEscoposProps.AvancaTrans | src/utils/analisardorSemantico.js:129-158 | two declarations in a row still only append to the current scope and keep the scopes below it |
| SemanticoEscoposProps.AtualizarForma | src/utils/analisardorSemantico.js:57-77 | setting a flag changes no symbol's name, type or line |
| SemanticoEscoposProps.ProcurarDesdeForma | src/utils/analisardorSemantico.js:44 | `find` depends only on the names of a scope |
| SemanticoEscoposProps.BuscarDesdeForma | src/utils/analisardorSemantico.js:49-53 | the walk down the scopes depends only on their names |
| SemanticoEscoposProps.BuscarForma | src/utils/analisardorSemantico.js:48-54 | `buscarSimbolo` gives the same position on tables that differ only in flags |
| SemanticoEscoposProps.FormaEntrar | src/utils/analisardorSemantico.js:20-23 | `entrarEscopo` adds one empty scope on top |
| SemanticoEscoposProps.FormaSair | src/utils/analisardorSemantico.js:26-29 | `sairEscopo` removes exactly the top scope |
| SemanticoEscoposProps.DeclararForma | src/utils/analisardorSemantico.js:32-40 | a new name is appended to the current scope with no message; a name the current scope has is reported with its earlier line and nothing is added |
| SemanticoEscoposProps.DeclararAvanca | src/utils/analisardorSemantico.js:168-169 | a declaration only appends to the current scope |
| SemanticoEscoposProps.InicializadaPreserva | src/utils/analisardorSemantico.js:175-176 | marking a variable initialised keeps every symbol's name, type and line |
| SemanticoEscoposProps.UsadaPreserva | src/utils/analisardorSemantico.js:342-343 | marking a variable used keeps them too |
| SemanticoEscoposProps.ExpressaoPreserva | src/utils/analisardorSemantico.js:315-325 | an expression declares nothing and only appends messages |
| SemanticoEscoposProps.MaisTermosPreserva | src/utils/analisardorSemantico.js:317-323 | the `+`/`-` loop declares nothing |
| SemanticoEscoposProps.OutroTermoPreserva | src/utils/analisardorSemantico.js:318-322 | one turn of it declares nothing |
| SemanticoEscoposProps.TermoPreserva | src/utils/analisardorSemantico.js:327-337 | a term declares nothing |
| SemanticoEscoposProps.MaisFatoresPreserva | src/utils/analisardorSemantico.js:329-335 | the `*`/`/` loop declares nothing |
| SemanticoEscoposProps.OutroFatorPreserva | src/utils/analisardorSemantico.js:330-334 | one turn of it declares nothing |
| SemanticoEscoposProps.FatorPreserva | src/utils/analisardorSemantico.js:339-354 | a factor declares nothing |
| SemanticoEscoposProps.ExpressaoRelacionalPreserva | src/utils/analisardorSemantico.js:356-364 | a condition declares nothing |
| SemanticoEscoposProps.AtribuirPreserva | src/utils/analisardorSemantico.js:188-196 | the checks of an assignment declare nothing |
| SemanticoEscoposProps.AtribuicaoPreserva | src/utils/analisardorSemantico.js:181-197 | an assignment declares nothing |
| SemanticoEscoposProps.RetornarPreserva | src/utils/analisardorSemantico.js:152-156 | `retornar` declares nothing |
| SemanticoEscoposProps.InicializacaoPreserva | src/utils/analisardorSemantico.js:172-176 | an initialiser declares nothing |
| SemanticoEscoposProps.RestoVariavelPreserva | src/utils/analisardorSemantico.js:171-178 | the rest of a variable declaration declares nothing more |
| SemanticoEscoposProps.DeclaracaoVariavelAvanca | src/utils/analisardorSemantico.js:160-179 | a variable declaration only appends to the current scope |
| SemanticoEscoposProps.ParametroAvanca | src/utils/analisardorSemantico.js:281-292 | a parameter only appends to the current scope |
| SemanticoEscoposProps.MaisParametrosAvanca | src/utils/analisardorSemantico.js:276-278 | the comma loop over parameters only appends to the current scope |
| SemanticoEscoposProps.ListaParametrosAvanca | src/utils/analisardorSemantico.js:274-279 | a parameter list only appends to the current scope |
| SemanticoEscoposProps.MaisArgumentosPreserva | src/utils/analisardorSemantico.js:310-312 | the comma loop over arguments declares nothing |
| SemanticoEscoposProps.ChamadaFuncaoPreserva | src/utils/analisardorSemantico.js:294-306 | a call declares nothing |
| SemanticoEscoposProps.DeclaracoesAvanca | src/utils/analisardorSemantico.js:124-126 | a run of statements only appends to the current scope |
| SemanticoEscoposProps.DeclaracaoAvanca | src/utils/analisardorSemantico.js:129-158 | one statement only appends to the current scope |
| SemanticoEscoposProps.BlocoPreserva | src/utils/analisardorSemantico.js:205-210 | a block's symbols are dropped with its scope: every enclosing scope keeps exactly the symbols it had |
| SemanticoEscoposProps.AbreBlocoPreserva | src/utils/analisardorSemantico.js:204-210 | `{` and a block keep the symbols |
| SemanticoEscoposProps.FechaEBlocoPreserva | src/utils/analisardorSemantico.js:203-210 | `)`, `{` and a block keep the symbols |
| SemanticoEscoposProps.CondicionalPreserva | src/utils/analisardorSemantico.js:199-220 | a `se` keeps the symbols |
| SemanticoEscoposProps.SenaoPreserva | src/utils/analisardorSemantico.js:211-219 | a `senao` keeps the symbols |
| SemanticoEscoposProps.EnquantoPreserva | src/utils/analisardorSemantico.js:223-234 | an `enquanto` keeps the symbols |
| SemanticoEscoposProps.ParaPreserva | src/utils/analisardorSemantico.js:235-250 | a `para` keeps the symbols, although its loop variable is declared in the enclosing scope before the block's |
| SemanticoEscoposProps.ParaIncrementoPreserva | src/utils/analisardorSemantico.js:240-250 | the rest of a `para` keeps the symbols |
| SemanticoEscoposProps.DeclaracaoFuncaoAvanca | src/utils/analisardorSemantico.js:253-272 | a function declaration only appends to the current scope |
| SemanticoEscoposProps.CorpoFuncaoAvanca | src/utils/analisardorSemantico.js:261-271 | the function body and the late declaration only append to the current scope |
| SemanticoEscoposProps.BlocoInvisivel | src/utils/analisardorSemantico.js:205-210 | after a block `buscarSimbolo` answers every name as it did before the block |
| SemanticoEscoposProps.FuncaoDepoisDoCorpo | src/utils/analisardorSemantico.js:253-271 | a function's own name is added to the enclosing scope only after the body's scope is dropped, as a `funcao` at the line of the name, or reported when that scope has it |
| SemanticoEscoposProps.TermoNaoDeclarado | src/utils/analisardorSemantico.js:339-346 | an undeclared name followed by `+` or `-` is a whole term of type `desconhecido` that leaves the table alone |
| SemanticoEscoposProps.NaoDeclaradaAEsquerdaQuebra | src/utils/analisardorSemantico.js:80-92 | an undeclared name as the left operand of `+` or `-` makes `verificarTipos` throw: the analysis ends in the exception |
| SemanticoEscoposProps.ProgramaAvanca | src/utils/analisardorSemantico.js:123-127 | the whole program ends with one scope, whose symbols only grew, and messages were only appended |
| CodigoIntermediario.FimExpressao | src/utils/geradorCodigoIntermediario.js:76-78 | the scan stops at the first `;` at or after the start, or at the end of the tokens, and no `;` lies before it |
| CodigoIntermediario.FechaPar | src/utils/geradorCodigoIntermediario.js:98-102 | the parenthesis scan never passes the end of the right-hand side |
| CodigoIntermediario.AteFechaPar | src/utils/geradorCodigoIntermediario.js:156-158 | the scan stops at the first `)` at or after the start, or at the end, and no `)` lies before it |
| CodigoIntermediario.ArgsDesde | src/utils/geradorCodigoIntermediario.js:205-210 | the argument scan only moves forward, only appends values and stays within the tokens |
| CodigoIntermediario.Params | src/utils/geradorCodigoIntermediario.js:213-215 | one `param v` per argument, in order |
| CodigoIntermediario.PassoExpr | src/utils/geradorCodigoIntermediario.js:90-127 | one turn moves forward, at most to the `;`, and only appends code and takes temporaries |
| CodigoIntermediario.ExprDesde | src/utils/geradorCodigoIntermediario.js:90-127 | the loop ends exactly at the `;` and only appends code |
| CodigoIntermediario.DeclaracaoVariavel | src/utils/geradorCodigoIntermediario.js:49-66 | a declaration takes no temporary or label, leaves the stack alone and moves forward within the tokens |
| CodigoIntermediario.Atribuicao | src/utils/geradorCodigoIntermediario.js:69-135 | an assignment takes no label, leaves the stack alone and moves forward within the tokens |
| CodigoIntermediario.AtribuicaoComposta | src/utils/geradorCodigoIntermediario.js:88-134 | a longer right-hand side ends at the `;` and takes no label |
| CodigoIntermediario.Se | src/utils/geradorCodigoIntermediario.js:138-159 | `se` takes the next two labels and pushes them as one entry, taking no temporary |
| CodigoIntermediario.Senao | src/utils/geradorCodigoIntermediario.js:162-166 | `senao` pops exactly the top entry and stays on its token |
| CodigoIntermediario.FechaChave | src/utils/geradorCodigoIntermediario.js:169-172 | `}` pops exactly the top entry and stays on its token |
| CodigoIntermediario.Enquanto | src/utils/geradorCodigoIntermediario.js:175-196 | `enquanto` takes the next two labels and pushes them as one entry, taking no temporary |
| CodigoIntermediario.ChamadaFuncao | src/utils/geradorCodigoIntermediario.js:199-221 | a call takes exactly one temporary and no label, and moves forward within the tokens |
| CodigoIntermediario.Corpo | src/utils/geradorCodigoIntermediario.js:48-221 | the loop body never moves back and only appends code and increases both counters |
| CodigoIntermediario.Passo | src/utils/geradorCodigoIntermediario.js:45-222 | one turn of the `for` loop, with its `i++`, always moves forward |
| CodigoIntermediario.GerarDesde | src/utils/geradorCodigoIntermediario.js:45-222 | the loop only appends code and increases both counters |
| CodigoIntermediario.Gerar | src/utils/geradorCodigoIntermediario.js:8-14 | no tokens gives no code and the one error; otherwise no error |
| CodigoIntermediarioExec.Gerador.constructor | src/utils/geradorCodigoIntermediario.js:13-17 | the generator starts with no code, both counters at zero and an empty stack |
| CodigoIntermediarioExec.Gerador.GerarTemp | src/utils/geradorCodigoIntermediario.js:20 | `gerarTemp` returns the current counter and increments it, changing nothing else |
| CodigoIntermediarioExec.Gerador.GerarRotulo | src/utils/geradorCodigoIntermediario.js:23 | `gerarRotulo` returns the current counter and increments it, changing nothing else |
| CodigoIntermediarioExec.Gerador.FimExpressao | src/utils/geradorCodigoIntermediario.js:76-78 | the loop stops where `CodigoIntermediario.FimExpressao` says |
| CodigoIntermediarioExec.Gerador.FechaPar | src/utils/geradorCodigoIntermediario.js:98-102 | the loop stops where `CodigoIntermediario.FechaPar` says |
| CodigoIntermediarioExec.Gerador.AteFechaPar | src/utils/geradorCodigoIntermediario.js:156-158 | the loop stops where `CodigoIntermediario.AteFechaPar` says |
| CodigoIntermediarioExec.Gerador.Argumentos | src/utils/geradorCodigoIntermediario.js:205-210 | the loop collects the values `CodigoIntermediario.ArgsDesde` gives |
| CodigoIntermediarioExec.Gerador.PassoExpressao | src/utils/geradorCodigoIntermediario.js:91-126 | one turn ends in the state of `CodigoIntermediario.PassoExpr`, taking at most one temporary, which `tempVars` records |
| CodigoIntermediarioExec.Gerador.PassoParenteses | src/utils/geradorCodigoIntermediario.js:92-112 | a parenthesised group ends in the state of `CodigoIntermediario.PassoExpr` |
| CodigoIntermediarioExec.Gerador.PassoBinaria | src/utils/geradorCodigoIntermediario.js:114-122 | `a op b` ends in the state of `CodigoIntermediario.PassoExpr` |
| CodigoIntermediarioExec.Gerador.ProcessarExpressao | src/utils/geradorCodigoIntermediario.js:89-127 | the loop ends in the state of `CodigoIntermediario.ExprDesde`, and `tempVars` holds one entry per temporary it took |
| CodigoIntermediarioExec.Gerador.DeclaracaoVariavel | src/utils/geradorCodigoIntermediario.js:49-66 | the branch ends in the state of `CodigoIntermediario.DeclaracaoVariavel` |
| CodigoIntermediarioExec.Gerador.Atribuicao | src/utils/geradorCodigoIntermediario.js:69-135 | the branch ends in the state of `CodigoIntermediario.Atribuicao` |
| CodigoIntermediarioExec.Gerador.AtribuicaoComposta | src/utils/geradorCodigoIntermediario.js:88-134 | the branch ends in the state of `CodigoIntermediario.AtribuicaoComposta` |
| CodigoIntermediarioExec.Gerador.Se | src/utils/geradorCodigoIntermediario.js:138-159 | the branch ends in the state of `CodigoIntermediario.Se` |
| CodigoIntermediarioExec.Gerador.Senao | src/utils/geradorCodigoIntermediario.js:162-166 | the branch ends in the state of `CodigoIntermediario.Senao` |
| CodigoIntermediarioExec.Gerador.FechaChave | src/utils/geradorCodigoIntermediario.js:169-172 | the branch ends in the state of `CodigoIntermediario.FechaChave` |
| CodigoIntermediarioExec.Gerador.Enquanto | src/utils/geradorCodigoIntermediario.js:175-196 | the branch ends in the state of `CodigoIntermediario.Enquanto` |
| CodigoIntermediarioExec.Gerador.EmitirParams | src/utils/geradorCodigoIntermediario.js:213-215 | the loop appends `CodigoIntermediario.Params` of the arguments and changes nothing else |
| CodigoIntermediarioExec.Gerador.ChamadaFuncao | src/utils/geradorCodigoIntermediario.js:199-221 | the branch ends in the state of `CodigoIntermediario.ChamadaFuncao` |
| CodigoIntermediarioExec.Gerador.Corpo | src/utils/geradorCodigoIntermediario.js:48-221 | the body ends in the state of `CodigoIntermediario.Corpo` |
| CodigoIntermediarioExec.Gerador.Executar | src/utils/geradorCodigoIntermediario.js:45-222 | the `for` loop emits the code of `CodigoIntermediario.GerarDesde` |
| CodigoIntermediarioExec.GerarCodigoIntermediario | src/utils/geradorCodigoIntermediario.js:8-225 | the method returns `CodigoIntermediario.Gerar` of the tokens |
| CodigoIntermediarioProps.Intervalo | src/utils/geradorCodigoIntermediario.js:15-20 | `0, 1, …, n - 1` |
| CodigoIntermediarioProps.TempsJunta | src/utils/geradorCodigoIntermediario.js:13 | the temporaries of joined code are those of each part, in order |
| CodigoIntermediarioProps.AcrescentaTemp | src/utils/geradorCodigoIntermediario.js:20 | appending a definition of the next temporary keeps the numbering |
| CodigoIntermediarioProps.PassoExprTemps | src/utils/geradorCodigoIntermediario.js:90-127 | one turn of the expression loop defines the next temporary or none |
| CodigoIntermediarioProps.ExprDesdeTemps | src/utils/geradorCodigoIntermediario.js:90-127 | the expression loop keeps the numbering |
| CodigoIntermediarioProps.AtribuicaoCompostaTemps | src/utils/geradorCodigoIntermediario.js:88-134 | a longer assignment keeps the numbering |
| CodigoIntermediarioProps.AtribuicaoTemps | src/utils/geradorCodigoIntermediario.js:69-135 | an assignment keeps the numbering |
| CodigoIntermediarioProps.ChamadaTemps | src/utils/geradorCodigoIntermediario.js:199-221 | a call keeps the numbering |
| CodigoIntermediarioProps.CorpoTemps | src/utils/geradorCodigoIntermediario.js:48-221 | every branch keeps the numbering |
| CodigoIntermediarioProps.GerarDesdeTemps | src/utils/geradorCodigoIntermediario.js:45-222 | the loop keeps the numbering |
| CodigoIntermediarioProps.TemporariosDistintos | src/utils/geradorCodigoIntermediario.js:15-20 | the temporaries the code defines are `t0, t1, …` in order, so no temporary is defined twice |
| CodigoIntermediarioProps.EmpilhaRotulado | src/utils/geradorCodigoIntermediario.js:139-141 | `se` and `enquanto` take two labels that no earlier code or stack entry names |
| CodigoIntermediarioProps.DesempilhaRotulado | src/utils/geradorCodigoIntermediario.js:163-171 | `senao` and `}` emit only labels of the entry they pop |
| CodigoIntermediarioProps.ExprAbaixo | src/utils/geradorCodigoIntermediario.js:90-127 | the expression loop emits no label |
| CodigoIntermediarioProps.DeclaracaoRotulado | src/utils/geradorCodigoIntermediario.js:49-66 | a declaration keeps the label invariant |
| CodigoIntermediarioProps.CopiaFinalCopia | src/utils/geradorCodigoIntermediario.js:130-132 | the final copy of an assignment is a copy |
| CodigoIntermediarioProps.AtribuicaoCompostaRotulado | src/utils/geradorCodigoIntermediario.js:88-134 | a longer assignment keeps the label invariant |
| CodigoIntermediarioProps.AtribuicaoRotulado | src/utils/geradorCodigoIntermediario.js:69-135 | an assignment keeps the label invariant |
| CodigoIntermediarioProps.ChamadaRotulado | src/utils/geradorCodigoIntermediario.js:199-221 | a call keeps the label invariant |
| CodigoIntermediarioProps.SeRotulado | src/utils/geradorCodigoIntermediario.js:138-159 | `se` keeps the label invariant |
| CodigoIntermediarioProps.EnquantoRotulado | src/utils/geradorCodigoIntermediario.js:175-196 | `enquanto` keeps the label invariant |
| CodigoIntermediarioProps.SenaoRotulado | src/utils/geradorCodigoIntermediario.js:162-166 | `senao` keeps the label invariant |
| CodigoIntermediarioProps.FechaChaveRotulado | src/utils/geradorCodigoIntermediario.js:169-172 | `}` keeps the label invariant |
| CodigoIntermediarioProps.CorpoRotulado | src/utils/geradorCodigoIntermediario.js:48-221 | every branch keeps the label invariant |
| CodigoIntermediarioProps.GerarDesdeRotulado | src/utils/geradorCodigoIntermediario.js:45-222 | the loop keeps the label invariant |
| CodigoIntermediarioProps.RotulosFrescos | src/utils/geradorCodigoIntermediario.js:16-23 | every label in the code was given out by the counter, each stack entry holds two consecutive labels, and the entries' labels are distinct and in the order taken |
| CodigoIntermediarioProps.DeclaracaoSemValor | src/utils/geradorCodigoIntermediario.js:61-65 | `variavel x : T` without `= v` emits `x = 0` marked uninitialised and skips to `T` |
| CodigoIntermediarioProps.DeclaracaoComValor | src/utils/geradorCodigoIntermediario.js:52-60 | `variavel x : T = v` emits `x = v` when `v` is a value, nothing otherwise, and skips past `v` |
| CodigoIntermediarioProps.AtribuicaoSimples | src/utils/geradorCodigoIntermediario.js:80-86 | `x = v ;` emits exactly `x = v`, takes no temporary and moves past the `;` |
| CodigoIntermediarioProps.AtribuicaoBinaria | src/utils/geradorCodigoIntermediario.js:114-132 | `x = a op b ;` emits `tN = a op b` with the next temporary, then `x = tN` |
| CodigoIntermediarioProps.ExprBinaria | src/utils/geradorCodigoIntermediario.js:114-122 | the right-hand side `a op b` is one operation into the next temporary |
| CodigoIntermediarioProps.Valores | src/utils/geradorCodigoIntermediario.js:206-208 | the value tokens of a stretch |
| CodigoIntermediarioProps.ArgsDesdeValores | src/utils/geradorCodigoIntermediario.js:205-210 | the argument scan stops at the first `)` and collects exactly the value tokens before it |
| CodigoIntermediarioProps.ChamadaEmite | src/utils/geradorCodigoIntermediario.js:199-221 | a call `f ( … )` emits one `param` per value token up to the first `)`, in order, then `tN = call f, n` with the next temporary and `n` the number of values, and moves past the `)` |
| CodigoIntermediarioProps.SeEmite | src/utils/geradorCodigoIntermediario.js:138-159 | `se ( a op b )` takes two labels and emits the jump to the first, the jump to the second, and the first label |
| CodigoIntermediarioProps.EnquantoEmite | src/utils/geradorCodigoIntermediario.js:175-190 | `enquanto ( a op b )` takes two labels and emits the first, then the exit to the second |
| CodigoIntermediarioProps.LacoVazioCabeca | src/utils/geradorCodigoIntermediario.js:175-196 | the head of `enquanto ( a < b ) { }`: its label, its exit test and the entry it pushes |
| CodigoIntermediarioProps.LacoFechaIndefinido | src/utils/geradorCodigoIntermediario.js:169-178 | the `}` that closes a loop pops an entry with no `fimIf`, so it emits `undefined:` and no jump back to the loop's start |
| Otimizador.Remove | src/utils/otimizadorCodigo.js:103 | `splice(i, 1)` removes exactly the line at `i` and shifts the rest down by one |
| Otimizador.Atualiza | src/utils/otimizadorCodigo.js:106 | `Map.set` keeps every existing key at its place and adds at most one at the end |
| Otimizador.RenomeiaOperandos | src/utils/otimizadorCodigo.js:97-100 | renaming keeps the number of operands |
| Otimizador.RenomeiaTodas | src/utils/otimizadorCodigo.js:96-101 | renaming keeps the number of lines |
| Otimizador.Definicoes | src/utils/otimizadorCodigo.js:130-150 | every definition recorded points at a line of the list |
| Otimizador.PrimeiraMorta | src/utils/otimizadorCodigo.js:162-169 | the line removed is one that was recorded as a definition |
| Otimizador.Propaga | src/utils/otimizadorCodigo.js:197-209 | propagation keeps the number of lines and never touches those before it starts |
| Otimizador.Copias | src/utils/otimizadorCodigo.js:184-221 | `propagarCopias` keeps the number of lines |
| Otimizador.AplicarAlgebricas | src/utils/otimizadorCodigo.js:260-312 | pass 5 rewrites line by line, keeping the number of lines |
| Otimizador.Redireciona | src/utils/otimizadorCodigo.js:398-402 | a redirected line is a jump exactly when it was one, and labels are untouched |
| Otimizador.RedirecionaTodas | src/utils/otimizadorCodigo.js:398-402 | redirection keeps the number of lines |
| OtimizadorExec.RenomearDepois | src/utils/otimizadorCodigo.js:96-101 | the inner loop renames `de` in every line after `i` and leaves the others alone |
| OtimizadorExec.Reaproveitar | src/utils/otimizadorCodigo.js:93-104 | a repeated expression's later uses read the first temporary and the line goes |
| OtimizadorExec.EliminarSubexpressoesComuns | src/utils/otimizadorCodigo.js:77-112 | the loop returns `Otimizador.EliminarSubexpressoes` |
| OtimizadorExec.Levantar | src/utils/otimizadorCodigo.js:130-158 | the first loop of a round collects exactly the names used and the definitions of the model |
| OtimizadorExec.EliminarCodigoMorto | src/utils/otimizadorCodigo.js:120-172 | the rounds return `Otimizador.Morto` |
| OtimizadorExec.PropagarDepois | src/utils/otimizadorCodigo.js:197-209 | the inner loop returns `Otimizador.Propaga` |
| OtimizadorExec.AplicarCopias | src/utils/otimizadorCodigo.js:214-220 | the loop over `copias` rewrites the line as `Otimizador.AplicaCopias` does |
| OtimizadorExec.PropagarCopiasLinhas | src/utils/otimizadorCodigo.js:180-224 | the loop returns `Otimizador.PropagarCopias` |
| OtimizadorExec.EliminarDesviosDesnecessarios | src/utils/otimizadorCodigo.js:232-252 | the loop returns `Otimizador.EliminarDesvios`, `None` where the source reads index -1 |
| OtimizadorExec.SimplificarCondicoesLinhas | src/utils/otimizadorCodigo.js:320-371 | the loop returns `Otimizador.SimplificarCondicoes`, `None` where the source writes into a boolean |
| OtimizadorExec.EliminarCodigoRedundante | src/utils/otimizadorCodigo.js:379-409 | the loop returns `Otimizador.EliminarRedundante` of the list it was given |
| OtimizadorExec.Rodar | src/utils/otimizadorCodigo.js:25-50 | one round returns `Otimizador.Rodada` |
| OtimizadorExec.Ciclar | src/utils/otimizadorCodigo.js:20-56 | the round loop returns `Otimizador.Ciclo` from its initial state |
| OtimizadorExec.ListarOriginais | src/utils/otimizadorCodigo.js:59-63 | the loop fills `Otimizador.Originais` |
| OtimizadorExec.OtimizarCodigo | src/utils/otimizadorCodigo.js:10-70 | the method returns `Otimizador.Otimizar` |
| OtimizadorProps.SubexpressoesEncurta | src/utils/otimizadorCodigo.js:82-109 | pass 1 never lengthens the list |
| OtimizadorProps.SubexpressoesDistintasDesde | src/utils/otimizadorCodigo.js:82-109 | from any point where the keys seen are distinct and known, the output computes each `a op b` into at most one temporary |
| OtimizadorProps.SubexpressoesDistintas | src/utils/otimizadorCodigo.js:77-112 | after pass 1 every `a op b` is computed into at most one temporary |
| OtimizadorProps.SubexpressoesFixoDesde | src/utils/otimizadorCodigo.js:82-109 | a list with distinct keys comes out unchanged |
| OtimizadorProps.SubexpressoesIdempotente | src/utils/otimizadorCodigo.js:77-112 | pass 1 applied to its own output changes nothing |
| OtimizadorProps.SubexpressoesExemplo | src/utils/otimizadorCodigo.js:91-106 | `t1 := a + b`, `t2 := a + b`, `x := t2` becomes `t1 := a + b`, `x := t1` |
| OtimizadorProps.DefinicoesVazias | src/utils/otimizadorCodigo.js:135-150 | no line is recorded as a definition: every line containing ` := ` also contains `:` and is skipped |
| OtimizadorProps.MortoIdentidade | src/utils/otimizadorCodigo.js:120-172 | so pass 2 returns its input unchanged |
| OtimizadorProps.PropagaForma | src/utils/otimizadorCodigo.js:197-209 | propagation only renames names: every line keeps its index and its form |
| OtimizadorProps.CopiasFormaDesde | src/utils/otimizadorCodigo.js:184-221 | the pass from any index keeps every line's form |
| OtimizadorProps.CopiasForma | src/utils/otimizadorCodigo.js:180-224 | pass 3 only renames: every line keeps its index and its form |
| OtimizadorProps.CopiasExemplo | src/utils/otimizadorCodigo.js:189-209 | after `x := y`, a later use of `x` reads `y` |
| OtimizadorProps.CopiaObsoleta | src/utils/otimizadorCodigo.js:214-220 | a recorded copy is never forgotten: after `x := y` and `x := 3`, `w := x` still becomes `w := y` |
| OtimizadorProps.RemoveGoto | src/utils/otimizadorCodigo.js:237-249 | removing a `goto` keeps all other lines in order |
| OtimizadorProps.DesviosSoGotosDesde | src/utils/otimizadorCodigo.js:235-249 | from any index, pass 4 removes only `goto` lines and never lengthens the list |
| OtimizadorProps.DesviosSoGotos | src/utils/otimizadorCodigo.js:232-252 | pass 4 removes only lines that begin with `goto`; all others stay, in order |
| OtimizadorProps.DesviosExemplo | src/utils/otimizadorCodigo.js:237-248 | a jump to the very next label is removed, and so is any jump right before a label |
| OtimizadorProps.DesviosFalha | src/utils/otimizadorCodigo.js:235-248 | `goto L1` as the first line, right before `L1:`, makes the pass read index -1 and throw |
| OtimizadorProps.AlgebricaPreservaValor | src/utils/otimizadorCodigo.js:263-309 | pass 5 keeps a line an assignment exactly when it was one, keeps its destination and the value it stores in every state, and leaves other lines alone |
| OtimizadorProps.CondicoesDesde | src/utils/otimizadorCodigo.js:323-368 | pass 6 from index `i` keeps the lines before `i` and simplifies or fails on the rest |
| OtimizadorProps.SimplificaOuFalhaCaracterizacao | src/utils/otimizadorCodigo.js:323-368 | the reference: failure exactly when some line compares two unsigned constants, otherwise the simplified lines |
| OtimizadorProps.CondicoesCaracterizacao | src/utils/otimizadorCodigo.js:320-371 | pass 6 throws exactly when some line compares two unsigned constants other than `v == v`/`v != v`; otherwise `if v == v goto L` became `goto L`, `if v != v goto L` is gone, and every other line is kept |
| OtimizadorProps.SimplificaTodasEncurta | src/utils/otimizadorCodigo.js:320-371 | pass 6 never lengthens the list |
| OtimizadorProps.RedirecionaRotulos | src/utils/otimizadorCodigo.js:398-402 | redirection keeps the labels |
| OtimizadorProps.RedirecionaAlvos | src/utils/otimizadorCodigo.js:398-402 | after redirection no jump names the dropped label, and the targets are the old ones with it replaced by the kept one |
| OtimizadorProps.AlvosJunta | src/utils/otimizadorCodigo.js:379-409 | targets and labels of joined code are those of the parts |
| OtimizadorProps.RedundanteFechaDesde | src/utils/otimizadorCodigo.js:382-406 | from any closed state, the corrected pass 7 ends closed |
| OtimizadorProps.UmaLinha | src/utils/otimizadorCodigo.js:379-409 | the targets and labels of one line |
| OtimizadorProps.PulaFechado | src/utils/otimizadorCodigo.js:386-389 | dropping `x := x` keeps the state closed |
| OtimizadorProps.FundeFechado | src/utils/otimizadorCodigo.js:392-404 | merging a label into the one before it keeps the state closed |
| OtimizadorProps.MantemFechado | src/utils/otimizadorCodigo.js:406 | keeping a line keeps the state closed |
| OtimizadorProps.RedundanteFecha | src/utils/otimizadorCodigo.js:379-409 | when every jump of the input names one of its labels, so does every jump of the output of the corrected pass 7 |
| OtimizadorProps.RedundanteEncurtaDesde | src/utils/otimizadorCodigo.js:382-406 | from any index pass 7 never lengthens the output and adds no `x := x` |
| OtimizadorProps.RedundanteEncurta | src/utils/otimizadorCodigo.js:379-409 | pass 7 never lengthens the list and leaves no `x := x` |
| OtimizadorProps.RedundanteComoEscritoPerdeRotulo | src/utils/otimizadorCodigo.js:392-404 | as written, `goto L2`, `L1:`, `L2:` becomes `goto L2`, `L1:`, losing the only `L2:`; the corrected pass gives `goto L1`, `L1:` |
| OtimizadorProps.RodadaEncurta | src/utils/otimizadorCodigo.js:24-50 | a round that does not throw never lengthens the list |
| OtimizadorProps.CicloLimites | src/utils/otimizadorCodigo.js:24-56 | the round loop counts at most as many rounds as remain, and each counted round removed at least one line |
| OtimizadorProps.OtimizarPropriedades | src/utils/otimizadorCodigo.js:10-70 | an empty list comes back as it is; otherwise at most ten rounds count, each counted round made the list shorter, and `otimizacoesOriginais` holds the input line exactly where the output is shorter or differs |
| TradutorSimpSim.SemReservadas | src/utils/tradutorSimpSIM.js:400-410 | `extrairVariaveis` keeps exactly the words of the line that are not reserved |
| TradutorSimpSim.LinhasDoMapa | src/utils/tradutorSimpSIM.js:53-56 | one register comment per mapped name |
| TradutorSimpSimExec.IncluiHalt | src/utils/tradutorSimpSIM.js:131 | `linha.includes('halt')` answers `TradutorSimpSim.ContemHalt` |
| TradutorSimpSimExec.AlgumHalt | src/utils/tradutorSimpSIM.js:131 | `codigoAssembly.some(…)` answers `TradutorSimpSim.TemHalt` |
| TradutorSimpSimExec.MapearNomes | src/utils/tradutorSimpSIM.js:24-50 | the first pass builds `TradutorSimpSim.Mapeamento` |
| TradutorSimpSimExec.ListarMapeamento | src/utils/tradutorSimpSIM.js:53-56 | the loop emits `TradutorSimpSim.LinhasDoMapa` |
| TradutorSimpSimExec.TraduzirLinhas | src/utils/tradutorSimpSIM.js:60-128 | the second pass, threading the `*`/`/` label number, emits `TradutorSimpSim.Corpo` |
| TradutorSimpSimExec.TraduzirParaSimpSim | src/utils/tradutorSimpSIM.js:1-141 | the method returns `TradutorSimpSim.Traduzir` |
| TradutorSimpSimProps.MapeiaDesdePropriedades | src/utils/tradutorSimpSIM.js:24-50 | the first pass from any line keeps what was mapped, adds no repeat, and maps exactly the names of the lines left |
| TradutorSimpSimProps.MapeamentoCaracterizacao | src/utils/tradutorSimpSIM.js:24-50 | each name gets one register: the mapping has no repeats and holds exactly the names of the lines |
| TradutorSimpSimProps.MapeiaDesdeCorta | src/utils/tradutorSimpSIM.js:24-50 | the first pass over a prefix, then the rest, is the whole pass |
| TradutorSimpSimProps.MapeamentoPrefixo | src/utils/tradutorSimpSIM.js:31-47 | registers go in order of first appearance: the names of the first `k` lines keep their registers |
| TradutorSimpSimProps.ReservadaSoComoDestino | src/utils/tradutorSimpSIM.js:28-47 | a reserved word gets a register only as the destination of an assignment |
| TradutorSimpSimProps.RegistradorPosicao | src/utils/tradutorSimpSIM.js:417-421 | a mapped name's register is `R{k+1}` for its position `k`; any other name reads `undefined` |
| TradutorSimpSimProps.TemHaltJunta | src/utils/tradutorSimpSIM.js:131 | a list with `halt` in one part has it |
| TradutorSimpSimProps.ComHaltTermina | src/utils/tradutorSimpSIM.js:130-134 | whatever the body, the output contains `halt`, the body is kept as its first lines, and nothing is added when it already had one |
| TradutorSimpSimProps.HaltSoNoComentario | src/utils/tradutorSimpSIM.js:130-134 | for the single line `x := halt`, the output has ten lines: the heading, the mapping of `x`, a blank line, `move R1, undefined`, then the appended blank line and `halt`; the comment-free lines hold no `halt` (the source's line also carries ` ; x := halt`, so the source appends nothing) |
| TradutorSimpSimProps.ComecaComTres | src/utils/tradutorSimpSIM.js:17-57 | a list that begins with `a + b + c` holds `a`, then `b`, then `c`, line by line |
| TradutorSimpSimProps.ComecaComCabecalho | src/utils/tradutorSimpSIM.js:17-57 | the heading, then the register comments, then an empty line |
| TradutorSimpSimProps.TraduzirPropriedades | src/utils/tradutorSimpSIM.js:1-141 | no lines gives no output and no mapping; any other program gives the five heading lines, one comment per register in the order of the mapping, an empty line, and an output that contains `halt` |
| TradutorSimpSimRotulos.AtribuicaoContador | src/utils/tradutorSimpSIM.js:143-244 | the label number moves on exactly for `*` and `/`; `+` and `-` are translated by their own cases |
| TradutorSimpSimRotulos.MultiplicacaoNumerada | src/utils/tradutorSimpSIM.js:246-305 | every label a multiplication mentions carries its own number |
| TradutorSimpSimRotulos.NumeradasJunta | src/utils/tradutorSimpSIM.js:143-244 | the numbered labels of joined lines are those of the parts |
| TradutorSimpSimRotulos.CargaDivisaoSemNumeradas | src/utils/tradutorSimpSIM.js:454-473 | loading the division's operands mentions no numbered label |
| TradutorSimpSimRotulos.InicioDivisaoSemNumeradas | src/utils/tradutorSimpSIM.js:475-485 | starting the quotient mentions none |
| TradutorSimpSimRotulos.TesteDivisaoNumerada | src/utils/tradutorSimpSIM.js:488-499 | the loop test mentions only its own number |
| TradutorSimpSimRotulos.PassoDivisaoNumerada | src/utils/tradutorSimpSIM.js:501-505 | the loop step mentions only its own number |
| TradutorSimpSimRotulos.ErroDivisaoNumerada | src/utils/tradutorSimpSIM.js:507-518 | the division-by-zero block mentions only its own number |
| TradutorSimpSimRotulos.LacoNumerado | src/utils/tradutorSimpSIM.js:488-505 | the loop's head and body share the number |
| TradutorSimpSimRotulos.LacoDivisaoNumerada | src/utils/tradutorSimpSIM.js:454-518 | the whole loop mentions only its own number |
| TradutorSimpSimRotulos.DivisaoNumerada | src/utils/tradutorSimpSIM.js:424-520 | a division mentions only its own number |
| TradutorSimpSimRotulos.TesteDivisorNumerado | src/utils/tradutorSimpSIM.js:440-445 | the test of a variable divisor mentions only its own number |
| TradutorSimpSimRotulos.CorpoDivisaoNumerado | src/utils/tradutorSimpSIM.js:424-520 | the body of a division mentions only its own number |
| TradutorSimpSimRotulos.SaltoSemNumeradas | src/utils/tradutorSimpSIM.js:307-397 | a conditional jump mentions no `*`/`/` label |
| TradutorSimpSimRotulos.SaltoMaiorIgualSemNumeradas | src/utils/tradutorSimpSIM.js:327-355 | the `>=` case mentions none |
| TradutorSimpSimRotulos.SaltoMenorIgualSemNumeradas | src/utils/tradutorSimpSIM.js:356-372 | the `<=` case mentions none |
| TradutorSimpSimRotulos.SaltoIgualSemNumeradas | src/utils/tradutorSimpSIM.js:373-389 | the `==` case mentions none |
| TradutorSimpSimRotulos.AtribuicaoNumerada | src/utils/tradutorSimpSIM.js:143-244 | `*` and `/` use their own number; `:=`, `+` and `-` use none |
| TradutorSimpSimRotulos.LinhaNumerada | src/utils/tradutorSimpSIM.js:60-128 | a line uses the number exactly when it is a `*` or a `/`, and then moves it on |
| TradutorSimpSimRotulos.CorpoAcima | src/utils/tradutorSimpSIM.js:60-128 | the lines translated from any line on use numbers from the current one up |
| TradutorSimpSimRotulos.RotulosNaoRepetem | src/utils/tradutorSimpSIM.js:60-128 | the `*` and `/` labels of one line (`Loop_Mul_c`, `Fim_Div_c`, …) are never mentioned by a later line |
| TradutorSimpSimSemantica.CopiaCalcula | src/utils/tradutorSimpSIM.js:147-161 | `d := v` is one `load` or one `move` that leaves `v` in the register of `d` |
| TradutorSimpSimSemantica.ByteFixo | src/utils/tradutorSimpSIM.js:147-151 | a byte read back modulo 256 is itself |
| TradutorSimpSimSemantica.CarregaESoma | src/utils/tradutorSimpSIM.js:181-186 | `load R0, k` then `addi` with R0 as one operand adds `k` modulo 256 |
| TradutorSimpSimSemantica.AdicaoCalcula | src/utils/tradutorSimpSIM.js:170-191 | `d := a + b` leaves `a + b` modulo 256 in the register of `d` |
| TradutorSimpSimSemantica.AdicaoDeConstantes | src/utils/tradutorSimpSIM.js:175-178 | two constants are one `load` of their sum |
| TradutorSimpSimSemantica.AdicaoDeVariaveis | src/utils/tradutorSimpSIM.js:187-189 | two names are one `addi` of their two registers |
| TradutorSimpSimSemantica.ExecutaJunta | src/utils/tradutorSimpSIM.js:143-244 | running joined lines is running the first part, then the second |
| TradutorSimpSimSemantica.NegacaoComoEscritaCalcula | src/utils/tradutorSimpSIM.js:207-211 | the negation the source writes leaves `b - 1` in RF and changes no name's register |
| TradutorSimpSimSemantica.XorMascara | src/utils/tradutorSimpSIM.js:481-482 | `xor RF, r, R0` with 255 in R0 leaves the one's complement of `r` |
| TradutorSimpSimSemantica.ComplementoMaisUm | src/utils/tradutorSimpSIM.js:481-485 | one's complement plus one is the negation modulo 256 |
| TradutorSimpSimSemantica.NegacaoCalcula | src/utils/tradutorSimpSIM.js:207-211 | the corrected negation leaves `-b` in RF and changes no name's register |
| TradutorSimpSimSemantica.CaudaCalcula | src/utils/tradutorSimpSIM.js:213-217 | the closing `addi` adds RF to the first operand |
| TradutorSimpSimSemantica.SubtracaoDeConstantes | src/utils/tradutorSimpSIM.js:197-202 | two constants: both loaded, the second negated, and `a - b` modulo 256 lands in `d` |
| TradutorSimpSimSemantica.SubtracaoDeConstante | src/utils/tradutorSimpSIM.js:197-204 | a name minus a constant: the constant loaded negated, and `a - b` lands in `d` |
| TradutorSimpSimSemantica.SubtracaoForma | src/utils/tradutorSimpSIM.js:193-218 | with a name as subtrahend: a comment, the negation into RF, then the sum into `d` |
| TradutorSimpSimSemantica.SubtracaoDeVariavel | src/utils/tradutorSimpSIM.js:206-218 | a variable subtrahend, negated by one's complement plus one, gives `a - b` |
| TradutorSimpSimSemantica.SubtracaoCalcula | src/utils/tradutorSimpSIM.js:193-220 | `d := a - b` leaves `a - b` modulo 256 in the register of `d` in every case |
| TradutorSimpSimSemantica.SubtracaoComoEscritaCalcula | src/utils/tradutorSimpSIM.js:206-218 | as written, a name as subtrahend leaves `a + b - 1` in `d` |
| TradutorSimpSimSemantica.SubtracaoComoEscritaErra | src/utils/tradutorSimpSIM.js:206-218 | with 5 in `y` and 3 in `z`, `x := y - z` leaves 7 as written and 2 as corrected |
| TradutorSimpSimSemantica.MultiplicacaoConstantes | src/utils/tradutorSimpSIM.js:257-261 | two constants are multiplied at translation time: no loop, the product modulo 256 in `d` |
| TradutorSimpSimSemantica.DivisaoConstante | src/utils/tradutorSimpSIM.js:424-451 | a constant divisor 0 gives 0 without a loop, whatever the dividend; two constants are divided at translation time |
| TradutorSimpSimSemantica.DivisaoPorVariavel | src/utils/tradutorSimpSIM.js:440-518 | a variable divisor is compared with 0 before the loop; the jump goes to `Erro_Div_Zero_c`, which sets `d` to 0 and ends at `Fim_Div_c_Skip`, and the loop jumps over it |
| GeradorAssembly.Textos | src/utils/geradorAssemblySimpSIM.js:141 | one text per assembly line, in order |
| GeradorAssembly.SemExcluidas | src/utils/geradorAssemblySimpSIM.js:40-44 | the words kept are exactly those that are not `if`, `goto`, `call`, `return` or `L\d+` |
| GeradorAssembly.NomesPorLinha | src/utils/geradorAssemblySimpSIM.js:37-46 | the names of each line, line by line |
| GeradorAssembly.Dados | src/utils/geradorAssemblySimpSIM.js:50-54 | one `x db 0` line per collected name, in order |
| GeradorAssemblyExec.Saida.constructor | src/utils/geradorAssemblySimpSIM.js:10 | the assembly list starts empty |
| GeradorAssemblyExec.Saida.Emite | src/utils/geradorAssemblySimpSIM.js:19-138 | `assembly.push(…)` appends the lines in order and nothing else |
| GeradorAssemblyExec.TraduzirAtribuicao | src/utils/geradorAssemblySimpSIM.js:147-210 | the method appends `GeradorAssembly.Atribuicao` of the line |
| GeradorAssemblyExec.TraduzirSaltoCondicional | src/utils/geradorAssemblySimpSIM.js:212-266 | the method appends `GeradorAssembly.Salto` of the condition and label |
| GeradorAssemblyExec.TraduzirChamadaFuncao | src/utils/geradorAssemblySimpSIM.js:268-275 | the method appends `GeradorAssembly.Chamada` |
| GeradorAssemblyExec.TraduzirReturn | src/utils/geradorAssemblySimpSIM.js:277-286 | the method appends `GeradorAssembly.Retorno` |
| GeradorAssemblyExec.AdicionarSubrotinasMultiplicacao | src/utils/geradorAssemblySimpSIM.js:288-304 | the method appends the multiplication subroutine |
| GeradorAssemblyExec.AdicionarSubrotinasDivisao | src/utils/geradorAssemblySimpSIM.js:306-335 | the method appends the division subroutine |
| GeradorAssemblyExec.AcrescentarPalavras | src/utils/geradorAssemblySimpSIM.js:38-45 | the words of one line are added to the set unless already there, as `Insercao.Acrescenta` says |
| GeradorAssemblyExec.IdentificarVariaveis | src/utils/geradorAssemblySimpSIM.js:36-46 | the loop collects `GeradorAssembly.Usadas` |
| GeradorAssemblyExec.DeclararVariaveis | src/utils/geradorAssemblySimpSIM.js:49-54 | the loop appends `GeradorAssembly.Dados` and builds the address map `GeradorAssembly.Enderecos` |
| GeradorAssemblyExec.TraduzirLinha | src/utils/geradorAssemblySimpSIM.js:69-127 | one turn of the main loop leaves the list and `labels` as `GeradorAssembly.TraduzLinha` says |
| GeradorAssemblyExec.JuntarLinhas | src/utils/geradorAssemblySimpSIM.js:141 | `assembly.join('\n')` |
| GeradorAssemblyExec.Preparar | src/utils/geradorAssemblySimpSIM.js:10-65 | the list up to `main:` is `GeradorAssembly.Preambulo` and the address map is `GeradorAssembly.Enderecos` of the collected names |
| GeradorAssemblyExec.TraduzirLinhas | src/utils/geradorAssemblySimpSIM.js:68-128 | the main loop leaves the list and `labels` as `GeradorAssembly.TraduzDesde` says |
| GeradorAssemblyExec.Concluir | src/utils/geradorAssemblySimpSIM.js:131-138 | `fim_programa:`, `halt` and the two subroutines are appended |
| GeradorAssemblyExec.GerarAssemblySimpSim | src/utils/geradorAssemblySimpSIM.js:1-145 | the method returns `GeradorAssembly.Gerar` |
| GeradorAssemblyProps.UsadasDistintas | src/utils/geradorAssemblySimpSIM.js:36-46 | the collected names hold no repeat |
| GeradorAssemblyProps.UsadasCaracterizacao | src/utils/geradorAssemblySimpSIM.js:36-46 | the set holds each word of a line that is not `if`, `goto`, `call`, `return` or `L\d+` exactly once, comment lines included |
| GeradorAssemblyProps.NomesPorLinhaPrefixo | src/utils/geradorAssemblySimpSIM.js:37-46 | the names of the first `k` lines are the first `k` entries |
| GeradorAssemblyProps.UsadasPrefixo | src/utils/geradorAssemblySimpSIM.js:36-46 | order of first appearance: the names of the first `k` lines come first, in their own order |
| GeradorAssemblyProps.EnderecosAteMais | src/utils/geradorAssemblySimpSIM.js:50-54 | one more turn of the loop maps the next name to the next address |
| GeradorAssemblyProps.EnderecosAteTodos | src/utils/geradorAssemblySimpSIM.js:50-54 | the loop's map is the whole address map |
| GeradorAssemblyProps.EnderecosCaracterizacao | src/utils/geradorAssemblySimpSIM.js:49-54 | the `k`-th name gets address `0x20 + k`; the map holds exactly the collected names, and no two names share an address |
| GeradorAssemblyProps.TraduzLinhaIndexa | src/utils/geradorAssemblySimpSIM.js:69-127 | one line of the main loop appends to the list, records at most its own label, and every recorded label still points at its `label:` line |
| GeradorAssemblyProps.TraduzDesdeIndexa | src/utils/geradorAssemblySimpSIM.js:68-128 | the main loop keeps every recorded label pointing at its `label:` line |
| GeradorAssemblyProps.MontagemPropriedades | src/utils/geradorAssemblySimpSIM.js:10-138 | `labels` holds exactly the labels of the input, each at a line `label:` of the list; the list begins with the data and `main:` and ends with `fim_programa:`, `halt` and the two subroutines |
| GeradorAssemblyProps.RotulosDesdeCaracterizacao | src/utils/geradorAssemblySimpSIM.js:79-84 | the labels recorded from line `i` are exactly the label lines from `i` on |
| GeradorAssemblyProps.JuntarComeca | src/utils/geradorAssemblySimpSIM.js:141 | the joined text begins with its first line |
| GeradorAssemblyProps.MontagemComeca | src/utils/geradorAssemblySimpSIM.js:19 | the list of a program with lines starts with the heading comment |
| GeradorAssemblyProps.GerarComeca | src/utils/geradorAssemblySimpSIM.js:19 | the text of a program with lines starts with the heading comment |
| GeradorAssemblyProps.GerarVazio | src/utils/geradorAssemblySimpSIM.js:2-8 | the fixed answer `; Programa vazio` / `halt`, with no names and no labels, is given for the program without lines and only for it |
| GeradorAssemblyProps.GerarPropriedades | src/utils/geradorAssemblySimpSIM.js:140-144 | for a program with lines, `variaveis` maps exactly the collected names, the `k`-th to `0x20 + k`; `labels` holds exactly the labels of the input, each at the index of the output line that reads `label:` |
| GeradorAssemblySemantica.CorreJunta | src/utils/geradorAssemblySimpSIM.js:68-128 | running joined blocks is running the first, then the second when the first falls through |
| GeradorAssemblySemantica.CargaCalcula | src/utils/geradorAssemblySimpSIM.js:149-174 | `load r, …` of an operand puts its value in `r` and changes nothing else |
| GeradorAssemblySemantica.CargasCalculam | src/utils/geradorAssemblySimpSIM.js:164-175 | the two loads put `a` in R1 and `b` in R2 and leave R0 and memory alone |
| GeradorAssemblySemantica.DiferencaCorre | src/utils/geradorAssemblySimpSIM.js:184-188 | the five lines of the difference, step by step |
| GeradorAssemblySemantica.DiferencaCalcula | src/utils/geradorAssemblySimpSIM.js:184-188 | with R1 = a and R2 = b, the five lines leave a - b modulo 256 in R3, keeping R0, R1 and memory |
| GeradorAssemblySemantica.OperacaoCalcula | src/utils/geradorAssemblySimpSIM.js:178-189 | the operation of a `+` or `-` leaves the result modulo 256 in R3 and memory untouched |
| GeradorAssemblySemantica.CargasOperacao | src/utils/geradorAssemblySimpSIM.js:164-189 | loads and operation of `a + b` or `a - b` leave the result in R3 |
| GeradorAssemblySemantica.AtribuicaoCopia | src/utils/geradorAssemblySimpSIM.js:149-159 | `x := v` of a word stores the value of `v` in `x` |
| GeradorAssemblySemantica.AtribuicaoBinaria | src/utils/geradorAssemblySimpSIM.js:160-205 | `x := a + b` and `x := a - b` store the result modulo 256 in `x` |
| GeradorAssemblySemantica.AtribuicaoCalcula | src/utils/geradorAssemblySimpSIM.js:147-210 | for a copy of a word, or `a + b` / `a - b` of words, the block falls through and the only cell it changes is the destination's, which then holds the value modulo 256 |
| GeradorAssemblySemantica.PassagemCalcula | src/utils/geradorAssemblySimpSIM.js:192-194 | `move R3, R1`, `move R4, R2`, `jmp sub` pass the operands and jump |
| GeradorAssemblySemantica.MultiplicacaoDivisaoSaem | src/utils/geradorAssemblySimpSIM.js:190-204 | `*` and `/` move the operands to R3 and R4 and jump to the subroutine, which does not come back, so the `store` is never reached and no cell changes |
| GeradorAssemblySemantica.SaltoNegado | src/utils/geradorAssemblySimpSIM.js:239-243 | a test for the opposite condition that skips over `jmp l` to `skip_l:` reaches `l` exactly when the test falls through |
| GeradorAssemblySemantica.SinalCalcula | src/utils/geradorAssemblySimpSIM.js:246-247 | `load R4, 0x80` and `and R5, R3, R4` put the sign bit of R3 in R5 |
| GeradorAssemblySemantica.PuloDistinto | src/utils/geradorAssemblySimpSIM.js:240-242 | `skip_l` is never `l` |
| GeradorAssemblySemantica.DesvioCalcula | src/utils/geradorAssemblySimpSIM.js:235-265 | with R3 = d and R0 = 0, the jump goes to `l` exactly when the condition holds of `d` read in two's complement, else past the block; no cell changes |
| GeradorAssemblySemantica.ComparacaoCalcula | src/utils/geradorAssemblySimpSIM.js:213-232 | the loads, the comment and the difference that open a conditional jump leave a - b in R3 |
| GeradorAssemblySemantica.SaltoCalcula | src/utils/geradorAssemblySimpSIM.js:212-266 | the block jumps to `l` exactly when the condition holds of a - b modulo 256, and otherwise goes on past its end; memory is not changed |
| GeradorAssemblySemantica.CondicaoCompara | src/utils/geradorAssemblySimpSIM.js:226-265 | for values read in two's complement, the tested condition is the intended comparison whenever their difference fits in a signed byte |
| GeradorAssemblySemantica.CondicaoTransborda | src/utils/geradorAssemblySimpSIM.js:244-249 | outside that range the test is wrong: `100 < -100` holds on the machine |
| GeradorAssemblySemantica.SaltosCalculam | src/utils/geradorAssemblySimpSIM.js:103-124 | `goto l`, `call f(…)` and `return v` jump to `l`, to `f`, or to `fim_programa` with `v` in RF |
| Insercao.Posicao | src/utils/geradorAssemblySimpSIM.js:50-53 | the index of the first occurrence of a name, before which it does not occur |
| Insercao.AcrescentaPropriedades | src/utils/geradorAssemblySimpSIM.js:40-44 | adding the words of one line to a `Set` keeps what was there in front, in order, adds no repeat, and holds exactly the old names and the new words |
| Insercao.AcrescentaDesdePropriedades | src/utils/tradutorSimpSIM.js:24-50 | filling line by line keeps what was collected in front, adds no repeat, and holds exactly the words of the lines |
| Insercao.AcrescentaDesdeCorta | src/utils/tradutorSimpSIM.js:24-50 | filling over a prefix, then the rest, is filling over the whole |
| Insercao.PosicaoDistintos | src/utils/geradorAssemblySimpSIM.js:50-53 | without repeats, the first occurrence of the `k`-th name is at `k` |
| Byte.DeInteiro | src/utils/tradutorSimpSIM.js:151 | a constant is stored as a byte, negatives in two's complement |
| Byte.Soma | src/utils/tradutorSimpSIM.js:189 | `addi` yields a byte |
| Byte.XorByte | src/utils/tradutorSimpSIM.js:482 | `xor` of two bytes is a byte |
| Byte.Mascara | src/utils/geradorAssemblySimpSIM.js:184-185 | `xor` with 0xFF is the one's complement of a byte |
| Byte.Negacao | src/utils/geradorAssemblySimpSIM.js:184-187 | one's complement plus one is the two's complement negation |
| Byte.SubtraiPorNegacao | src/utils/geradorAssemblySimpSIM.js:184-188 | adding the negation of `b` subtracts `b` modulo 256 |
| Byte.SomaDeInteiros | src/utils/tradutorSimpSIM.js:175-178 | adding two stored constants is storing their sum |
| Byte.BitDeSinal | src/utils/geradorAssemblySimpSIM.js:246-248 | `and` with 0x80 keeps exactly the sign bit of a byte |
| Byte.ComSinal | src/utils/geradorAssemblySimpSIM.js:245 | a byte read in two's complement lies in -128..127 and stores back as itself |
| Byte.ComSinalDeInteiro | src/utils/geradorAssemblySimpSIM.js:245 | a difference that fits in a signed byte reads back as itself |

## Left out

- User interface. The React components, the JSX and scroll synchronisation of `src/App.js`, `src/App.jsx`, and the JavaFX parts and file I/O of `HelloController.java` are not part of this model. They only display the outputs of the stages.
- `HelloController.java` from line 270 on repeats the scanner methods. Only the first copy is modelled.
- End-to-end composition is left out. The generator writes `x = …` but the optimiser and translators read `x := …`, so each stage is modelled on its own input form.
- Text rendering is abstract. Messages are datatypes with functions that give their text. Assembly lines are datatypes rendered by `Texto` / `TextoLinha`. Joining into one string is modelled; JavaScript template formatting beyond that is not.
- Regular expressions are not re-verified. Each test on the text of a line is the corresponding test on the fields of an instruction. Names are identifiers other than `if`, `goto`, `call` and `return`, and constants are integers, as `parseInt` makes them.
- Characters are Dafny characters, not JavaScript UTF-16 code units. Only the character classes written out in the lexers are modelled.
- The Java lexer's letter and digit classes are narrowed. `JavaLexer.IsLetter` covers `Character.isLetter` for the Latin blocks up to U+024F only, and `JavaLexer.IsDigit` covers `Character.isDigit` for the ASCII digits only (HelloController.java:117, :119, :139, :140, :194). So a letter such as `π` or `ж`, and a digit such as `٣`, is an invalid character in the model, where Java starts a word or a number with it. The members this affects have their own lines below.
- IdentEnd (`JavaLexer.IdentEnd`): an identifier continues only over Latin letters up to U+024F, ASCII digits and `_`. `Character.isLetterOrDigit` (HelloController.java:119) also continues it over every other Unicode letter and digit.
- DigitEnd (`JavaLexer.DigitEnd`): a number continues only over ASCII digits. `Character.isDigit` (HelloController.java:140) also continues it over every other Unicode decimal digit, for example `٣`.
- JNext (`JavaLexer.JNext`): a letter outside the Latin blocks or a digit outside ASCII is reported as an invalid character. In the source it starts a word or a number (HelloController.java:117, :139).
- DefaultBranchErrors (`JavaLexer.DefaultBranchErrors`): "can continue an identifier" is decided with the narrowed letter and digit classes, not with `Character.isLetterOrDigit` (HelloController.java:194).
- InvalidCharacter (`JavaLexer.InvalidCharacter`): the characters it reports as invalid include the non-Latin letters and non-ASCII digits that Java accepts.
- WordToken (`JavaLexer.WordToken`): a word starts only at a Latin letter up to U+024F. `Character.isLetter` (HelloController.java:117) also starts one at `π` or `ж`.
- NumberToken (`JavaLexer.NumberToken`): a number starts only at an ASCII digit. `Character.isDigit` (HelloController.java:139) also starts one at any Unicode decimal digit.
- The `Sugestao` texts of the parser's messages are left out. Only the expected construct, the token found and the context are kept.
- The parser's branches for a cursor at or past the end of the token list are left out. `analisarSintatico` appends the `$` marker itself, so those branches cannot be reached from it. The parser functions require a marked list.
- In the flat-table analyser, a symbol's `valor`, `declarado` and token kind never change after creation and are not kept.
- In the scoped analyser, a `TypeError` thrown by `verificarTipos` is modelled as a flag. Once it is set, the result is the exception.
- The constant comparison in pass 6 of the optimiser (`simplificarCondicoes`, lines 344-366) throws, because the local `resultado` shadows the output list. It is modelled as the failure result `Excecao`, not as a fold.
- The `Math.random` suffix of the `Pular_…` labels in the register translator is the parameter `aleatorio`. Label uniqueness is not claimed for those labels.
- The last branch of each translator is not modelled: `; INSTRUÇÃO NÃO RECONHECIDA` (tradutorSimpSIM.js:127) and `; LINHA NÃO TRADUZIDA` (geradorAssemblySimpSIM.js:127). Under the `Instr` reading, every line matches an earlier branch.
- MapearNomes (`TradutorSimpSimExec.MapearNomes`, with `TradutorSimpSim.Mapeamento` and the register lookups built on it): the source tests `!mapeamentoVariaveis[v]` on a plain object (tradutorSimpSIM.js:32, :43, :421). A name that is an inherited member of every JavaScript object (`constructor`, `toString`, `valueOf`, …) therefore never gets a register, and its uses are written as the inherited function's text. The model gives such a name the next register like any other name. The same lookup fault is modelled for the editor lexer (`AppLexer.KeywordTypeAsWritten`), but not here.
- The register translator's trailing comments are not rendered. Most of its instructions end with a comment such as ` ; x := y` (tradutorSimpSIM.js:151-217 and later), and `TextoInstr` renders an instruction without it. The final test at tradutorSimpSIM.js:131, `linha.includes('halt')`, also searches those comments. The members below therefore differ from the source on a program whose names or constants spell `halt` only inside such a comment.
- ComHalt (`TradutorSimpSim.ComHalt`, with `TradutorSimpSim.TemHalt`): decides "the output already has a `halt`" on the lines without their trailing comments. For the input `x := halt`, where `halt` is never given a register, the source writes `move R1, undefined ; x := halt` and appends nothing. The model writes `move R1, undefined` and then appends an empty line and `halt`; `TradutorSimpSimProps.HaltSoNoComentario` states this output.
- ComHaltTermina (`TradutorSimpSimProps.ComHaltTermina`): "nothing is added when the output already had a `halt`" is proved for that comment-free reading. It does not hold for the source's lines on inputs such as `x := halt`.
- AlgumHalt (`TradutorSimpSimExec.AlgumHalt`): is proved equal to `TemHalt`, so it searches the lines without their trailing comments.
- TraduzirParaSimpSim (`TradutorSimpSimExec.TraduzirParaSimpSim`, with `TradutorSimpSim.Traduzir`): besides the corrected subtraction listed below, it ends with the comment-free halt test. For `x := halt` it returns two more lines than the source.
- In the register translator, only copies, `+` and `-` are proved to compute their result on the machine. Multiplication and division are described by the code they emit and by their folding of constants, not by what their loops compute.
- GeradorAssemblySemantica.AtribuicaoCalcula and GeradorAssemblySemantica.SaltoCalcula cover word (name or constant) operands only. The emitted division and multiplication subroutines are not executed. The data section is not executed either: the lemmas start from `R0 = 0`, `UM = 1` and `MASCARA_NEG = 0xFF`.
- `jmpLE` is read as a signed comparison of bytes, which is the SimpSIM machine's convention. The machine itself is not part of this model.
- GeradorAssemblyProps.MontagemPropriedades does not count duplicate `fim_programa` labels that a program with a label of that name would produce.
- The `trim()` of each input line in the two translators is left out. A `Linha` is already an instruction, a `;` comment holding the text after the `;`, or a blank line.
- StepAt (`Lexer.StepAt`): runs the corrected string branch of the first Findings row. An unterminated string's line feed is counted once, and an escaped line feed is counted. The source counts the first twice (analisadorLexico.js:112 and :47) and the second not at all. The round as written is `Lexer.StepAsWritten`.
- LexFrom (`Lexer.LexFrom`): is built on the corrected `StepAt`, so after a string its line numbers can differ from the source's. The scan as written is `Lexer.LexFromAsWritten`.
- Lex (`Lexer.Lex`): returns the corrected scan `LexFrom` for a present, non-empty text; its rejection of a missing or empty text is as written.
- ScanStep (`Lexer.ScanStep`): is proved equal to the corrected `StepAt`, not to the loop body as written.
- Varrer (`Lexer.Varrer`): is proved equal to the corrected `LexFrom`.
- AnalisarCodigo (`Lexer.AnalisarCodigo`): returns the corrected `Lex`, not `analisarCodigo` as written, for texts holding a string literal that spans or ends a line.
- NextToken (`AppLexer.NextToken`): classifies a word by the own entries of the keyword table only. App.js:107 also finds inherited members, for example `constructor`; that lookup is `AppLexer.KeywordTypeAsWritten`.
- GetNextToken (`AppLexer.GetNextToken`): is proved equal to the corrected `NextToken`.
- AnalyzeCode (`AppLexer.AnalyzeCode`): stores the tokens of the corrected `NextToken`.
- AdicionarSimbolo (`Semantico.AdicionarSimbolo`): reports a redeclaration and goes on, as the design intends. As written, analisadorSemantico.js:26 throws and ends the analysis; that is `SemanticoProps.AdicionarSimboloAsWritten`.
- Parenteses (`Semantico.Parenteses`): checks and steps over the `)` after the inner expression. As written, analisadorSemantico.js:86-89 checks the inner expression's last token and leaves the `)` unread; that is `SemanticoProps.ParentesesAsWritten`.
- Argumentos (`Semantico.Argumentos`): stops at a token that is no expression start, `,` or `)`. As written, the loop of analisadorSemantico.js:282-291 never ends there; that is `SemanticoProps.ArgumentosAsWritten`.
- Adicionar (`SemanticoExec.Analise.Adicionar`): is proved equal to the corrected `AdicionarSimbolo`, so it reports a redeclaration where the source throws.
- ProcessarParenteses (`SemanticoExec.Analise.ProcessarParenteses`): is proved equal to the corrected `Parenteses`.
- AnalisarArgumentos (`SemanticoExec.Analise.AnalisarArgumentos`): is proved equal to the corrected `Argumentos`, which ends where the source's loop does not.
- AnalisarSemantico (`SemanticoExec.AnalisarSemantico`, with `Semantico.Principal` and `Semantico.AnalisarSemantico`): runs the corrected redeclaration, `(` and argument cases, not `analisarSemantico` as written.
- EliminarCodigoRedundante (`OtimizadorExec.EliminarCodigoRedundante`, with `Otimizador.EliminarRedundante`): runs the corrected pass 7, which also redirects jumps already copied to the output when two labels merge. As written, otimizadorCodigo.js:392-404 rewrites only later lines; that is `Otimizador.RedundanteComoEscrito`.
- Rodar (`OtimizadorExec.Rodar`, with `Otimizador.Rodada`): runs the corrected pass 7.
- Ciclar (`OtimizadorExec.Ciclar`, with `Otimizador.Ciclo`): runs rounds with the corrected pass 7.
- OtimizarCodigo (`OtimizadorExec.OtimizarCodigo`, with `Otimizador.Otimizar`): returns the optimisation with the corrected pass 7, not `otimizarCodigo` as written.
- TraduzirLinhas (`TradutorSimpSimExec.TraduzirLinhas`, with `TradutorSimpSim.Atribuicao` and `TradutorSimpSim.Corpo`): emits the corrected negation (`xor` with 255, then add one) for a variable subtrahend. As written, tradutorSimpSIM.js:208-211 emits `load R0, -1`, `load RF, 0`, `addi RF, RF, R0`, `addi RF, RF, z`; that is `TradutorSimpSim.NegacaoComoEscrita`, reached through `Subtracao(…, false)`.
- TraduzirParaSimpSim (`TradutorSimpSimExec.TraduzirParaSimpSim`, with `TradutorSimpSim.Traduzir`): returns the translation with the corrected subtraction, not `traduzirParaSimpSIM` as written.

## Findings

| source | as written | input that shows it | evidently intended | confidence | as-written member | corrected member |
|---|---|---|---|---|---|---|
| src/utils/analisadorLexico.js:110-114 | a line feed that ends an unterminated string is counted inside the string loop and again by the whitespace branch; a line feed after `\` inside a string is never counted | `"a` line feed `x`: `x` is reported on line 3; `"\` line feed `"` line feed `x`: `x` is reported on line 2 | the line counter is 1 plus the number of line feeds read | not executed | Lexer.UnterminatedStringCountsTwice | Lexer.StepKeepsLineCount |
| src/App.js:107 | the keyword lookup `keywords[lexeme]` also finds the members every JavaScript object inherits | `constructor` gets a function as its token type | a name that is not a keyword is a `t_identificador` | not executed | AppLexer.ConstructorTypeAsWritten | AppLexer.KeywordLookupCorrected |
| src/utils/analisadorSemantico.js:26 | a redeclaration pushes its message onto `tabelaSimbolos.erros`, which is undefined, so the analysis throws | `variavel x : inteiro ; variavel x : inteiro ;` | one redeclaration message, one symbol `x` kept | not executed | SemanticoProps.RedeclaracaoExemplo | SemanticoProps.AdicionarSimboloUnicos |
| src/utils/analisadorSemantico.js:86-89 | after a parenthesised expression the test reads the last token of the expression, never the `)` | `( 1 )`: a missing `)` is reported at the `1` and the `)` is left unread | the `)` after the expression is checked and consumed | not executed | SemanticoProps.ParentesesAsWrittenNumero | SemanticoProps.ParentesesNumero |
| src/utils/analisadorSemantico.js:282-291 | the argument loop does not advance at a token that is no expression start, `,` or `)` | a call `f(;` | the loop stops at such a token | not executed | SemanticoProps.ArgumentosAsWrittenNaoTermina | SemanticoProps.ArgumentosParam |
| src/utils/otimizadorCodigo.js:392-404 | when adjacent labels merge, jumps already copied to the output are not redirected | `goto L2`, `L1:`, `L2:` becomes `goto L2`, `L1:`, a jump to a label that is gone | every jump still targets a label of the output | not executed | OtimizadorProps.RedundanteComoEscritoPerdeRotulo | OtimizadorProps.RedundanteFecha |
| src/utils/tradutorSimpSIM.js:207-217 | `x := y - z` with a variable `z` adds `-1 + z` to `y` instead of `-z` | `y = 5`, `z = 3`: `x` becomes 7 | `x` becomes `y - z` modulo 256 | not executed | TradutorSimpSimSemantica.SubtracaoComoEscritaErra | TradutorSimpSimSemantica.SubtracaoCalcula |
