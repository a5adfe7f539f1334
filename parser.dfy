/**
 * The recursive-descent parser (`analisarSintatico`).  The source keeps a
 * cursor `indiceToken` and a message list `erros` shared by nested
 * functions, one per nonterminal; here each nonterminal is a function from
 * the parser state before it to the state after it (`PState`), and the
 * class `Parser` at the end runs the same grammar by updating its fields.
 *
 * `tc` is always the token list with the end marker `$` appended
 * (`tokensComFim`); the real tokens are `tc[..|tc| - 1]`.
 */
module Parser {
  import opened Wrappers
  import opened Tokens

  // -------------------------------------------------------------- messages

  /**
   * One syntax message: the line, the text of the complaint, the token found
   * and the construct being parsed.
   */
  datatype Diag = Diag(line: int, message: Msg, found: Token, context: Ctx)

  /** The three kinds of entry in the returned `erros` list. */
  datatype SynError =
    | ListaInvalida   // the input is not an array
    | EntradaVazia    // the token list is empty
    | Sintatico(diag: Diag)

  /** Where the cursor ends after a nonterminal, and the messages it appended to `erros`. */
  datatype Outcome = Outcome(idx: nat, errs: seq<Diag>)

  // ------------------------------------------------------------ FIRST sets

  predicate FirstDeclaracao(k: Kind) {
    k == TVariavel || k == TIdentificador || k == TSe || k == TEnquanto || k == TPara ||
    k == TFuncao || k == TRetornar
  }
  predicate FirstListaParametros(k: Kind) { k == TIdentificador }
  predicate FirstExpressao(k: Kind) {
    k == TIdentificador || k == TNum || k == TNumDecimal || k == TString || k == TAbrePar
  }
  predicate FirstOperadorRelacional(k: Kind) {
    k == TMenor || k == TMaior || k == TIgualdade || k == TMenorIgual || k == TMaiorIgual
  }

  /** The synchronisation sets (`follow`) of the nonterminals. */
  datatype Follow =
    | FollowDeclaracao | FollowChamada | FollowParametro | FollowLista | FollowExpressao
    | FollowTermo | FollowFator | FollowRelacional | FollowOperador | FollowTipo

  /** Kind `k` is in the synchronisation set `f`. */
  predicate InFollow(f: Follow, k: Kind) {
    match f
    case FollowDeclaracao => k == TFechaChave || k == TEnd
    case FollowChamada => k == TPv || k == TFechaChave || k == TEnd
    case FollowParametro => k == TVirgula || k == TFechaPar
    case FollowLista => k == TFechaPar
    case FollowExpressao =>
      k == TPv || k == TVirgula || k == TFechaPar || k == TMenor || k == TMaior ||
      k == TIgualdade || k == TMenorIgual || k == TMaiorIgual
    case FollowTermo =>
      k == TPv || k == TVirgula || k == TFechaPar || k == TMenor || k == TMaior ||
      k == TIgualdade || k == TMenorIgual || k == TMaiorIgual || k == TSoma || k == TSubtracao
    case FollowFator =>
      k == TPv || k == TVirgula || k == TFechaPar || k == TMenor || k == TMaior ||
      k == TIgualdade || k == TMenorIgual || k == TMaiorIgual || k == TSoma || k == TSubtracao ||
      k == TMultiplicacao || k == TDivisao
    case FollowRelacional => k == TFechaPar || k == TPv
    case FollowOperador => k == TIdentificador || k == TNum || k == TAbrePar
    case FollowTipo => k == TAtribuicao || k == TPv || k == TVirgula || k == TFechaPar
  }

  // --------------------------------------------------------- state helpers

  /** The token at `i` has kind `k` (false past the end). */
  predicate At(tc: seq<Token>, i: nat, k: Kind) {
    i < |tc| && tc[i].kind == k
  }

  /** The token at `i` has a kind in `first`. */
  predicate Starts(tc: seq<Token>, i: nat, first: Kind -> bool) {
    i < |tc| && first(tc[i].kind)
  }

  /** The last token is the end marker `$`, which no nonterminal consumes. */
  predicate EndMarked(tc: seq<Token>) {
    |tc| > 0 && tc[|tc| - 1].kind == TEnd
  }

  /** What holds whenever a nonterminal is entered: the cursor is on a token of `tc`. */
  predicate Pre(tc: seq<Token>, i: nat) {
    EndMarked(tc) && i < |tc|
  }

  /**
   * What every nonterminal does: the cursor only moves forward and is still
   * on a token afterwards, so the end marker is never consumed.
   */
  predicate Grows(tc: seq<Token>, i: nat, r: Outcome) {
    i <= r.idx < |tc|
  }

  /** Run `r1`, then `r2` from where `r1` stopped. */
  function Then(r1: Outcome, r2: Outcome): Outcome {
    Outcome(r2.idx, r1.errs + r2.errs)
  }

  /** The messages of `Then(r1, r2)` after `e` are those of `r1`, then those of `r2`. */
  lemma ThenErrs(e: seq<Diag>, r1: Outcome, r2: Outcome)
    ensures e + Then(r1, r2).errs == (e + r1.errs) + r2.errs
  {
  }

  /** The entry `reportarErro` appends: on the line of the token found. */
  function Diagnostico(message: Msg, found: Token, context: Ctx): Diag {
    Diag(found.line, message, found, context)
  }

  /** `reportarErro(..., proximoToken(), ...)`, leaving the cursor at `i`. */
  function ReportHere(tc: seq<Token>, i: nat, message: Msg, context: Ctx): (r: Outcome)
    requires Pre(tc, i)
    ensures r.idx == i && |r.errs| == 1
  {
    Outcome(i, [Diagnostico(message, tc[i], context)])
  }

  /**
   * Where `sincronizar` leaves the cursor: real tokens (never the end marker)
   * are skipped until one whose kind is in `follow`.
   */
  function Sincronizado(tc: seq<Token>, i: nat, follow: Follow): (j: nat)
    requires Pre(tc, i)
    ensures i <= j < |tc|
    ensures j < |tc| - 1 ==> InFollow(follow, tc[j].kind)
    decreases |tc| - i
  {
    if i < |tc| - 1 && !InFollow(follow, tc[i].kind) then Sincronizado(tc, i + 1, follow) else i
  }

  /** `sincronizar` stops at the first token of `follow`: every token it skips is outside it. */
  lemma {:induction false} SincronizadoSkips(tc: seq<Token>, i: nat, follow: Follow)
    requires Pre(tc, i)
    ensures forall k :: i <= k < Sincronizado(tc, i, follow) ==> !InFollow(follow, tc[k].kind)
    decreases |tc| - i
  {
    if i < |tc| - 1 && !InFollow(follow, tc[i].kind) {
      var j := Sincronizado(tc, i + 1, follow);
      assert Sincronizado(tc, i, follow) == j;
      SincronizadoSkips(tc, i + 1, follow);
      assert forall k :: i + 1 <= k < j ==> !InFollow(follow, tc[k].kind);
    }
  }

  /** Report the token at `i`, then synchronise: the usual error exit. */
  function Fail(tc: seq<Token>, i: nat, message: Msg, context: Ctx, follow: Follow): (r: Outcome)
    requires Pre(tc, i)
    ensures Grows(tc, i, r) && |r.errs| == 1
  {
    Outcome(Sincronizado(tc, i, follow), [Diagnostico(message, tc[i], context)])
  }

  /** `consumir(k)`, with a report and no synchronisation when it fails. */
  function Expect(tc: seq<Token>, i: nat, k: Kind, message: Msg, context: Ctx): (r: Outcome)
    requires Pre(tc, i) && k != TEnd
    ensures Grows(tc, i, r)
    ensures At(tc, i, k) ==> r == Outcome(i + 1, [])
    ensures !At(tc, i, k) ==> r.idx == i && |r.errs| == 1
  {
    if At(tc, i, k) then Outcome(i + 1, []) else ReportHere(tc, i, message, context)
  }

  /** `consumir(k)` of a closing token; when it fails, report and synchronise. */
  function Close(tc: seq<Token>, i: nat, k: Kind, message: Msg, context: Ctx, follow: Follow): (r: Outcome)
    requires Pre(tc, i) && k != TEnd
    ensures Grows(tc, i, r)
    ensures At(tc, i, k) ==> r == Outcome(i + 1, [])
    ensures !At(tc, i, k) ==> |r.errs| == 1
  {
    if At(tc, i, k) then Outcome(i + 1, []) else Fail(tc, i, message, context, follow)
  }

  // -------------------------------------------------------------- message texts

  /** The complaints passed to `reportarErro`. */
  datatype Msg =
    | MsgExpressaoAposRetornar
    | MsgPvRetorno
    | MsgEsperadoVariavel
    | MsgIdAposVariavel
    | MsgDoisPontos
    | MsgExpressaoAposIgual
    | MsgPvVariavel
    | MsgIdAtribuicao
    | MsgIgualAposId
    | MsgPvAtribuicao
    | MsgEsperadoSe
    | MsgAbreParSe
    | MsgRelacionalEsperada
    | MsgFechaParRelacional
    | MsgAbreChave
    | MsgFechaChave
    | MsgAbreChaveSenao
    | MsgFechaChaveSenao
    | MsgEsperadoLaco
    | MsgAbreParEnquanto
    | MsgAbreParPara
    | MsgAtribuicaoInicial
    | MsgPvRelacional
    | MsgAtribuicaoIncremento
    | MsgFechaParPara
    | MsgEsperadoFuncao
    | MsgIdAposFuncao
    | MsgAbreParAposId
    | MsgFechaParParametros
    | MsgParametroAposVirgula
    | MsgIdParametro
    | MsgIdChamada
    | MsgFechaParArgumentos
    | MsgPvChamada
    | MsgArgumentoEsperado
    | MsgExpressaoAposVirgula
    | MsgExpressaoValida
    | MsgTermoAposOperador
    | MsgFatorEsperado
    | MsgFatorAposOperador
    | MsgExpressaoEntreParenteses
    | MsgFechaParExpressao
    | MsgFatorInvalido
    | MsgExpressaoEsperada
    | MsgExpressaoAposRelacional
    | MsgOperadorEsperado
    | MsgTokenInesperado(lexeme: string)
    | MsgTipoEsperado(lexeme: string)

  /** The constructs named in the `Contexto` part of a message. */
  datatype Ctx =
    | CtxPrograma
    | CtxDeclaracao
    | CtxRetorno
    | CtxVariavel
    | CtxAtribuicao
    | CtxCondicional
    | CtxRepeticao
    | CtxEnquanto
    | CtxPara
    | CtxFuncao
    | CtxParametros
    | CtxChamada
    | CtxArgumentos
    | CtxExpressao
    | CtxTermo
    | CtxRelacional
    | CtxTipo

  /** The text of a complaint, word for word. */
  function MsgText(m: Msg): string {
    match m
    case MsgExpressaoAposRetornar => "Esperada uma expressão após retornar"
    case MsgPvRetorno => "Esperado ';' após expressão de retorno"
    case MsgEsperadoVariavel => "Esperado 'variavel'"
    case MsgIdAposVariavel => "Esperado identificador após palavra-chave variavel"
    case MsgDoisPontos => "Esperado ':' após identificador"
    case MsgExpressaoAposIgual => "Esperada uma expressão após ="
    case MsgPvVariavel => "Esperado ';' ao final da declaração de variável"
    case MsgIdAtribuicao => "Esperado identificador para atribuição"
    case MsgIgualAposId => "Esperado '=' após identificador"
    case MsgPvAtribuicao => "Esperado ';' ao final da atribuição"
    case MsgEsperadoSe => "Esperado 'se'"
    case MsgAbreParSe => "Esperado '(' após 'se'"
    case MsgRelacionalEsperada => "Esperada uma expressão relacional"
    case MsgFechaParRelacional => "Esperado ')' após expressão relacional"
    case MsgAbreChave => "Esperado '{' para bloco de declarações"
    case MsgFechaChave => "Esperado '}' para fechar bloco de declarações"
    case MsgAbreChaveSenao => "Esperado '{' após 'senao'"
    case MsgFechaChaveSenao => "Esperado '}' para fechar bloco do 'senao'"
    case MsgEsperadoLaco => "Esperado 'enquanto' ou 'para'"
    case MsgAbreParEnquanto => "Esperado '(' após 'enquanto'"
    case MsgAbreParPara => "Esperado '(' após 'para'"
    case MsgAtribuicaoInicial => "Esperada uma atribuição inicial"
    case MsgPvRelacional => "Esperado ';' após expressão relacional"
    case MsgAtribuicaoIncremento => "Esperada uma atribuição de incremento"
    case MsgFechaParPara => "Esperado ')' após expressões do laço"
    case MsgEsperadoFuncao => "Esperado 'funcao'"
    case MsgIdAposFuncao => "Esperado identificador após palavra-chave funcao"
    case MsgAbreParAposId => "Esperado '(' após identificador"
    case MsgFechaParParametros => "Esperado ')' após lista de parâmetros"
    case MsgParametroAposVirgula => "Esperado parâmetro após vírgula"
    case MsgIdParametro => "Esperado identificador para parâmetro"
    case MsgIdChamada => "Esperado identificador para chamada de função"
    case MsgFechaParArgumentos => "Esperado ')' após lista de argumentos"
    case MsgPvChamada => "Esperado ';' ao final da chamada de função"
    case MsgArgumentoEsperado => "Esperada uma expressão como argumento"
    case MsgExpressaoAposVirgula => "Esperada uma expressão após vírgula"
    case MsgExpressaoValida => "Esperada uma expressão válida"
    case MsgTermoAposOperador => "Esperado um termo após operador + ou -"
    case MsgFatorEsperado => "Esperado um fator"
    case MsgFatorAposOperador => "Esperado um fator após operador * ou /"
    case MsgExpressaoEntreParenteses => "Esperada uma expressão entre parênteses"
    case MsgFechaParExpressao => "Esperado ')' para fechar expressão"
    case MsgFatorInvalido => "Esperado identificador, número, string ou '('"
    case MsgExpressaoEsperada => "Esperada uma expressão"
    case MsgExpressaoAposRelacional => "Esperada uma expressão após operador relacional"
    case MsgOperadorEsperado => "Esperado operador relacional ('<', '>', '==', '<=', '>=')"
    case MsgTokenInesperado(lexeme) => "Token inesperado: '" + lexeme + "'"
    case MsgTipoEsperado(lexeme) =>
      "Esperado tipo ('inteiro', 'decimal', 'texto', 'logico'), encontrado '" + lexeme + "'"
  }

  /** The text naming a construct. */
  function CtxText(c: Ctx): string {
    match c
    case CtxPrograma => "Programa"
    case CtxDeclaracao => "Declaração"
    case CtxRetorno => "Instrução de retorno"
    case CtxVariavel => "Declaração de variável"
    case CtxAtribuicao => "Atribuição"
    case CtxCondicional => "Estrutura condicional"
    case CtxRepeticao => "Estrutura de repetição"
    case CtxEnquanto => "Laço enquanto"
    case CtxPara => "Laço para"
    case CtxFuncao => "Declaração de função"
    case CtxParametros => "Lista de parâmetros"
    case CtxChamada => "Chamada de função"
    case CtxArgumentos => "Lista de argumentos"
    case CtxExpressao => "Expressão"
    case CtxTermo => "Termo"
    case CtxRelacional => "Expressão relacional"
    case CtxTipo => "Declaração de tipo"
  }

  // ------------------------------------------------------------ the grammar

  /** `programa`: declarations until the end marker; any other token is reported and skipped. */
  function Programa(tc: seq<Token>, i: nat): (r: Outcome)
    requires Pre(tc, i)
    ensures Grows(tc, i, r)
    ensures r.idx == |tc| - 1
    decreases |tc| - i
  {
    if i < |tc| - 1 then
      var r1 := Item(tc, i);
      Then(r1, Programa(tc, r1.idx))
    else Outcome(i, [])
  }

  /** One turn of the `programa` loop at a real token: a declaration, or a report and a skip. */
  function Item(tc: seq<Token>, i: nat): (r: Outcome)
    requires Pre(tc, i) && i < |tc| - 1
    ensures i < r.idx < |tc|
    ensures !FirstDeclaracao(tc[i].kind) ==> r.idx == i + 1 && |r.errs| == 1
  {
    if FirstDeclaracao(tc[i].kind) then Declaracao(tc, i)
    else Outcome(i + 1, [Diagnostico(MsgTokenInesperado(tc[i].lexeme), tc[i], CtxPrograma)])
  }

  /** `declaracao`: dispatch on the kind of the current token. */
  function Declaracao(tc: seq<Token>, i: nat): (r: Outcome)
    requires Pre(tc, i)
    ensures Grows(tc, i, r)
    ensures Starts(tc, i, FirstDeclaracao) ==> i < r.idx
    decreases |tc| - i, 7
  {
    var k := tc[i].kind;
    if k == TVariavel then DeclaracaoVariavel(tc, i)
    else if k == TIdentificador then
      if At(tc, i + 1, TAbrePar) then ChamadaFuncao(tc, i) else Atribuicao(tc, i)
    else if k == TSe then Condicional(tc, i)
    else if k == TEnquanto || k == TPara then Repeticao(tc, i)
    else if k == TFuncao then DeclaracaoFuncao(tc, i)
    else if k == TRetornar then Retornar(tc, i)
    else Fail(tc, i, MsgTokenInesperado(tc[i].lexeme), CtxDeclaracao, FollowDeclaracao)
  }

  /** The `retornar` branch of `declaracao`, entered on a `retornar` token. */
  function Retornar(tc: seq<Token>, i: nat): (r: Outcome)
    requires Pre(tc, i) && At(tc, i, TRetornar)
    ensures Grows(tc, i, r) && i < r.idx
    decreases |tc| - i, 6
  {
    var r1 := if Starts(tc, i + 1, FirstExpressao) then Expressao(tc, i + 1)
      else ReportHere(tc, i + 1, MsgExpressaoAposRetornar, CtxRetorno);
    Then(r1, Expect(tc, r1.idx, TPv, MsgPvRetorno, CtxRetorno))
  }

  /** Declarations while the current token can start one (the body of a block). */
  function Bloco(tc: seq<Token>, i: nat): (r: Outcome)
    requires Pre(tc, i)
    ensures Grows(tc, i, r)
    ensures !Starts(tc, r.idx, FirstDeclaracao)
    decreases |tc| - i, 8
  {
    if Starts(tc, i, FirstDeclaracao) then
      var r1 := Declaracao(tc, i);
      Then(r1, Bloco(tc, r1.idx))
    else Outcome(i, [])
  }

  /** `declaracao_variavel`: `variavel id : tipo [= expressao] ;`. */
  function DeclaracaoVariavel(tc: seq<Token>, i: nat): (r: Outcome)
    requires Pre(tc, i)
    ensures Grows(tc, i, r)
    ensures At(tc, i, TVariavel) ==> i < r.idx
    decreases |tc| - i, 6
  {
    var ctx := CtxVariavel;
    if !At(tc, i, TVariavel) then Fail(tc, i, MsgEsperadoVariavel, ctx, FollowDeclaracao)
    else if !At(tc, i + 1, TIdentificador) then
      Fail(tc, i + 1, MsgIdAposVariavel, ctx, FollowDeclaracao)
    else if !At(tc, i + 2, TDoisPontos) then
      Fail(tc, i + 2, MsgDoisPontos, ctx, FollowDeclaracao)
    else
      var r1 := Tipo(tc, i + 3);
      Then(r1, Inicializacao(tc, r1.idx))
  }

  /** The rest of `declaracao_variavel` after the type: `[= expressao] ;`. */
  function Inicializacao(tc: seq<Token>, i: nat): (r: Outcome)
    requires Pre(tc, i)
    ensures Grows(tc, i, r)
    decreases |tc| - i, 5
  {
    var ctx := CtxVariavel;
    var r1 :=
      if !At(tc, i, TAtribuicao) then Outcome(i, [])
      else if Starts(tc, i + 1, FirstExpressao) then Expressao(tc, i + 1)
      else ReportHere(tc, i + 1, MsgExpressaoAposIgual, ctx);
    Then(r1, Expect(tc, r1.idx, TPv, MsgPvVariavel, ctx))
  }

  /** `atribuicao`: `id = expressao ;`. */
  function Atribuicao(tc: seq<Token>, i: nat): (r: Outcome)
    requires Pre(tc, i)
    ensures Grows(tc, i, r)
    ensures At(tc, i, TIdentificador) ==> i < r.idx
    decreases |tc| - i, 6
  {
    var ctx := CtxAtribuicao;
    if !At(tc, i, TIdentificador) then Fail(tc, i, MsgIdAtribuicao, ctx, FollowDeclaracao)
    else if !At(tc, i + 1, TAtribuicao) then Fail(tc, i + 1, MsgIgualAposId, ctx, FollowDeclaracao)
    else
      var r1 := if Starts(tc, i + 2, FirstExpressao) then Expressao(tc, i + 2)
        else ReportHere(tc, i + 2, MsgExpressaoAposIgual, ctx);
      Then(r1, Expect(tc, r1.idx, TPv, MsgPvAtribuicao, ctx))
  }

  /** `condicional`: `se ( relacional ) { bloco } [senao { bloco }]`. */
  function Condicional(tc: seq<Token>, i: nat): (r: Outcome)
    requires Pre(tc, i)
    ensures Grows(tc, i, r)
    ensures At(tc, i, TSe) ==> i < r.idx
    decreases |tc| - i, 6
  {
    var ctx := CtxCondicional;
    if !At(tc, i, TSe) then Fail(tc, i, MsgEsperadoSe, ctx, FollowDeclaracao)
    else if !At(tc, i + 1, TAbrePar) then Fail(tc, i + 1, MsgAbreParSe, ctx, FollowDeclaracao)
    else
      var r1 := if Starts(tc, i + 2, FirstExpressao) then ExpressaoRelacional(tc, i + 2)
        else ReportHere(tc, i + 2, MsgRelacionalEsperada, ctx);
      Then(r1, CorpoCondicional(tc, r1.idx))
  }

  /** The rest of `condicional` after the condition: `) { bloco } [senao { bloco }]`. */
  function CorpoCondicional(tc: seq<Token>, i: nat): (r: Outcome)
    requires Pre(tc, i)
    ensures Grows(tc, i, r)
    decreases |tc| - i, 5
  {
    var ctx := CtxCondicional;
    if !At(tc, i, TFechaPar) then Fail(tc, i, MsgFechaParRelacional, ctx, FollowDeclaracao)
    else BlocoCondicional(tc, i + 1)
  }

  /** The `se` block from its `{`, then what follows it. */
  function BlocoCondicional(tc: seq<Token>, i: nat): (r: Outcome)
    requires Pre(tc, i)
    ensures Grows(tc, i, r)
    decreases |tc| - i, 5
  {
    if !At(tc, i, TAbreChave) then Fail(tc, i, MsgAbreChave, CtxCondicional, FollowDeclaracao)
    else
      var r1 := Bloco(tc, i + 1);
      Then(r1, FimCondicional(tc, r1.idx))
  }

  /** After the `se` block: `}` and the optional `senao` part. */
  function FimCondicional(tc: seq<Token>, i: nat): (r: Outcome)
    requires Pre(tc, i)
    ensures Grows(tc, i, r)
    decreases |tc| - i, 5
  {
    if At(tc, i, TFechaChave) then Senao(tc, i + 1)
    else Fail(tc, i, MsgFechaChave, CtxCondicional, FollowDeclaracao)
  }

  /** The optional `senao { bloco }` after the `se` block. */
  function Senao(tc: seq<Token>, i: nat): (r: Outcome)
    requires Pre(tc, i)
    ensures Grows(tc, i, r)
    ensures !At(tc, i, TSenao) ==> r == Outcome(i, [])
    decreases |tc| - i, 5
  {
    var ctx := CtxCondicional;
    if !At(tc, i, TSenao) then Outcome(i, [])
    else if !At(tc, i + 1, TAbreChave) then Fail(tc, i + 1, MsgAbreChaveSenao, ctx, FollowDeclaracao)
    else BlocoFechado(tc, i + 2, MsgFechaChaveSenao, ctx)
  }

  /** `bloco }`: the body of a block after its `{`, then the closing brace. */
  function BlocoFechado(tc: seq<Token>, i: nat, message: Msg, ctx: Ctx): (r: Outcome)
    requires Pre(tc, i)
    ensures Grows(tc, i, r)
    decreases |tc| - i, 9
  {
    var r1 := Bloco(tc, i);
    Then(r1, Close(tc, r1.idx, TFechaChave, message, ctx, FollowDeclaracao))
  }

  /** `repeticao`: dispatch between `enquanto` and `para`. */
  function Repeticao(tc: seq<Token>, i: nat): (r: Outcome)
    requires Pre(tc, i)
    ensures Grows(tc, i, r)
    ensures (At(tc, i, TEnquanto) || At(tc, i, TPara)) ==> i < r.idx
    decreases |tc| - i, 6
  {
    if At(tc, i, TEnquanto) then Enquanto(tc, i)
    else if At(tc, i, TPara) then Para(tc, i)
    else Fail(tc, i, MsgEsperadoLaco, CtxRepeticao, FollowDeclaracao)
  }

  /** `) { bloco }` closing the header of a loop or function; `ctx` names the construct. */
  function CorpoBloco(tc: seq<Token>, i: nat, closeMessage: Msg, ctx: Ctx): (r: Outcome)
    requires Pre(tc, i)
    ensures Grows(tc, i, r)
    decreases |tc| - i, 5
  {
    if !At(tc, i, TFechaPar) then Fail(tc, i, closeMessage, ctx, FollowDeclaracao)
    else AbreBloco(tc, i + 1, ctx)
  }

  /** `{ bloco }` after the closing parenthesis of a header. */
  function AbreBloco(tc: seq<Token>, i: nat, ctx: Ctx): (r: Outcome)
    requires Pre(tc, i)
    ensures Grows(tc, i, r)
    decreases |tc| - i, 10
  {
    if !At(tc, i, TAbreChave) then Fail(tc, i, MsgAbreChave, ctx, FollowDeclaracao)
    else BlocoFechado(tc, i + 1, MsgFechaChave, ctx)
  }

  /** The `enquanto ( relacional ) { bloco }` branch, entered on `enquanto`. */
  function Enquanto(tc: seq<Token>, i: nat): (r: Outcome)
    requires Pre(tc, i) && At(tc, i, TEnquanto)
    ensures Grows(tc, i, r) && i < r.idx
    decreases |tc| - i, 5
  {
    var ctx := CtxEnquanto;
    if !At(tc, i + 1, TAbrePar) then Fail(tc, i + 1, MsgAbreParEnquanto, ctx, FollowDeclaracao)
    else
      var r1 := if Starts(tc, i + 2, FirstExpressao) then ExpressaoRelacional(tc, i + 2)
        else ReportHere(tc, i + 2, MsgRelacionalEsperada, ctx);
      Then(r1, CorpoBloco(tc, r1.idx, MsgFechaParRelacional, ctx))
  }

  /** The `para ( atribuicao relacional ; atribuicao ) { bloco }` branch, entered on `para`. */
  function Para(tc: seq<Token>, i: nat): (r: Outcome)
    requires Pre(tc, i) && At(tc, i, TPara)
    ensures Grows(tc, i, r) && i < r.idx
    decreases |tc| - i, 5
  {
    var ctx := CtxPara;
    if !At(tc, i + 1, TAbrePar) then Fail(tc, i + 1, MsgAbreParPara, ctx, FollowDeclaracao)
    else ParaCabecalho(tc, i + 2)
  }

  /** The `para` header after `(`: `atribuicao relacional`, then the increment part. */
  function ParaCabecalho(tc: seq<Token>, i: nat): (r: Outcome)
    requires Pre(tc, i)
    ensures Grows(tc, i, r)
    decreases |tc| - i, 7
  {
    var r1 := if At(tc, i, TIdentificador) then Atribuicao(tc, i)
      else ReportHere(tc, i, MsgAtribuicaoInicial, CtxPara);
    var r2 := if Starts(tc, r1.idx, FirstExpressao) then ExpressaoRelacional(tc, r1.idx)
      else ReportHere(tc, r1.idx, MsgRelacionalEsperada, CtxPara);
    Then(r1, Then(r2, ParaIncremento(tc, r2.idx)))
  }

  /** The rest of the `para` header after the condition: `; atribuicao ) { bloco }`. */
  function ParaIncremento(tc: seq<Token>, i: nat): (r: Outcome)
    requires Pre(tc, i)
    ensures Grows(tc, i, r)
    decreases |tc| - i, 5
  {
    var ctx := CtxPara;
    if !At(tc, i, TPv) then Fail(tc, i, MsgPvRelacional, ctx, FollowDeclaracao)
    else
      var r1 := if At(tc, i + 1, TIdentificador) then Atribuicao(tc, i + 1)
        else ReportHere(tc, i + 1, MsgAtribuicaoIncremento, ctx);
      Then(r1, CorpoBloco(tc, r1.idx, MsgFechaParPara, ctx))
  }

  /** `declaracao_funcao`: `funcao id ( [parametros] ) { bloco }`. */
  function DeclaracaoFuncao(tc: seq<Token>, i: nat): (r: Outcome)
    requires Pre(tc, i)
    ensures Grows(tc, i, r)
    ensures At(tc, i, TFuncao) ==> i < r.idx
    decreases |tc| - i, 6
  {
    var ctx := CtxFuncao;
    if !At(tc, i, TFuncao) then Fail(tc, i, MsgEsperadoFuncao, ctx, FollowDeclaracao)
    else if !At(tc, i + 1, TIdentificador) then
      Fail(tc, i + 1, MsgIdAposFuncao, ctx, FollowDeclaracao)
    else if !At(tc, i + 2, TAbrePar) then Fail(tc, i + 2, MsgAbreParAposId, ctx, FollowDeclaracao)
    else CorpoFuncao(tc, i + 3)
  }

  /** After `funcao id (`: the optional parameters, then `) { bloco }`. */
  function CorpoFuncao(tc: seq<Token>, i: nat): (r: Outcome)
    requires Pre(tc, i)
    ensures Grows(tc, i, r)
    decreases |tc| - i, 6
  {
    var r1 := if Starts(tc, i, FirstListaParametros) then ListaParametros(tc, i) else Outcome(i, []);
    Then(r1, CorpoBloco(tc, r1.idx, MsgFechaParParametros, CtxFuncao))
  }

  /** `lista_parametros`: `parametro {, parametro}`. */
  function ListaParametros(tc: seq<Token>, i: nat): (r: Outcome)
    requires Pre(tc, i)
    ensures Grows(tc, i, r)
    decreases |tc| - i, 2
  {
    var r1 := Parametro(tc, i);
    Then(r1, MaisParametros(tc, r1.idx))
  }

  /** The `while (consumir(','))` loop of `lista_parametros`. */
  function MaisParametros(tc: seq<Token>, i: nat): (r: Outcome)
    requires Pre(tc, i)
    ensures Grows(tc, i, r)
    decreases |tc| - i, 2
  {
    if !At(tc, i, TVirgula) then Outcome(i, [])
    else if Starts(tc, i + 1, FirstListaParametros) then
      var r1 := Parametro(tc, i + 1);
      Then(r1, MaisParametros(tc, r1.idx))
    else Fail(tc, i + 1, MsgParametroAposVirgula, CtxParametros, FollowLista)
  }

  /** `parametro`: `id : tipo`. */
  function Parametro(tc: seq<Token>, i: nat): (r: Outcome)
    requires Pre(tc, i)
    ensures Grows(tc, i, r)
    ensures At(tc, i, TIdentificador) ==> i < r.idx
    decreases |tc| - i, 1
  {
    var ctx := CtxParametros;
    if !At(tc, i, TIdentificador) then Fail(tc, i, MsgIdParametro, ctx, FollowParametro)
    else if !At(tc, i + 1, TDoisPontos) then Fail(tc, i + 1, MsgDoisPontos, ctx, FollowParametro)
    else Tipo(tc, i + 2)
  }

  /** `chamada_funcao`: `id ( [argumentos] ) ;`. */
  function ChamadaFuncao(tc: seq<Token>, i: nat): (r: Outcome)
    requires Pre(tc, i)
    ensures Grows(tc, i, r)
    ensures At(tc, i, TIdentificador) ==> i < r.idx
    decreases |tc| - i, 6
  {
    if !At(tc, i, TIdentificador) then Fail(tc, i, MsgIdChamada, CtxChamada, FollowChamada)
    else ArgumentosChamada(tc, i + 1)
  }

  /** A call after its name: `( [lista_argumentos] ) ;`. */
  function ArgumentosChamada(tc: seq<Token>, i: nat): (r: Outcome)
    requires Pre(tc, i)
    ensures Grows(tc, i, r)
    decreases |tc| - i, 5
  {
    if !At(tc, i, TAbrePar) then Fail(tc, i, MsgAbreParAposId, CtxChamada, FollowChamada)
    else
      var r1 := if Starts(tc, i + 1, FirstExpressao) then ListaArgumentos(tc, i + 1) else Outcome(i + 1, []);
      Then(r1, FimChamada(tc, r1.idx))
  }

  /** After the arguments of a call: `) ;`. */
  function FimChamada(tc: seq<Token>, i: nat): (r: Outcome)
    requires Pre(tc, i)
    ensures Grows(tc, i, r)
  {
    if At(tc, i, TFechaPar) then Expect(tc, i + 1, TPv, MsgPvChamada, CtxChamada)
    else Fail(tc, i, MsgFechaParArgumentos, CtxChamada, FollowChamada)
  }

  /** `lista_argumentos`: `expressao {, expressao}`. */
  function ListaArgumentos(tc: seq<Token>, i: nat): (r: Outcome)
    requires Pre(tc, i)
    ensures Grows(tc, i, r)
    decreases |tc| - i, 4
  {
    if Starts(tc, i, FirstExpressao) then
      var r1 := Expressao(tc, i);
      Then(r1, MaisArgumentos(tc, r1.idx))
    else Fail(tc, i, MsgArgumentoEsperado, CtxArgumentos, FollowLista)
  }

  /** The `while (consumir(','))` loop of `lista_argumentos`. */
  function MaisArgumentos(tc: seq<Token>, i: nat): (r: Outcome)
    requires Pre(tc, i)
    ensures Grows(tc, i, r)
    decreases |tc| - i, 4
  {
    if !At(tc, i, TVirgula) then Outcome(i, [])
    else if Starts(tc, i + 1, FirstExpressao) then
      var r1 := Expressao(tc, i + 1);
      Then(r1, MaisArgumentos(tc, r1.idx))
    else Fail(tc, i + 1, MsgExpressaoAposVirgula, CtxArgumentos, FollowLista)
  }

  /** `expressao`: `termo {(+|-) termo}`. */
  function Expressao(tc: seq<Token>, i: nat): (r: Outcome)
    requires Pre(tc, i)
    ensures Grows(tc, i, r)
    ensures Starts(tc, i, FirstExpressao) ==> i < r.idx
    decreases |tc| - i, 3
  {
    if Starts(tc, i, FirstExpressao) then
      var r1 := Termo(tc, i);
      Then(r1, MaisTermos(tc, r1.idx))
    else Fail(tc, i, MsgExpressaoValida, CtxExpressao, FollowExpressao)
  }

  /** The `+`/`-` loop of `expressao`. */
  function MaisTermos(tc: seq<Token>, i: nat): (r: Outcome)
    requires Pre(tc, i)
    ensures Grows(tc, i, r)
    decreases |tc| - i, 3
  {
    if !(At(tc, i, TSoma) || At(tc, i, TSubtracao)) then Outcome(i, [])
    else if Starts(tc, i + 1, FirstExpressao) then
      var r1 := Termo(tc, i + 1);
      Then(r1, MaisTermos(tc, r1.idx))
    else Fail(tc, i + 1, MsgTermoAposOperador, CtxExpressao, FollowExpressao)
  }

  /** `termo`: `fator {(*|/) fator}`. */
  function Termo(tc: seq<Token>, i: nat): (r: Outcome)
    requires Pre(tc, i)
    ensures Grows(tc, i, r)
    ensures Starts(tc, i, FirstExpressao) ==> i < r.idx
    decreases |tc| - i, 2
  {
    if Starts(tc, i, FirstExpressao) then
      var r1 := Fator(tc, i);
      Then(r1, MaisFatores(tc, r1.idx))
    else Fail(tc, i, MsgFatorEsperado, CtxTermo, FollowTermo)
  }

  /** The `*`/`/` loop of `termo`. */
  function MaisFatores(tc: seq<Token>, i: nat): (r: Outcome)
    requires Pre(tc, i)
    ensures Grows(tc, i, r)
    decreases |tc| - i, 2
  {
    if !(At(tc, i, TMultiplicacao) || At(tc, i, TDivisao)) then Outcome(i, [])
    else if Starts(tc, i + 1, FirstExpressao) then
      var r1 := Fator(tc, i + 1);
      Then(r1, MaisFatores(tc, r1.idx))
    else Fail(tc, i + 1, MsgFatorAposOperador, CtxTermo, FollowTermo)
  }

  /** `fator`: identifier, number, string, or a parenthesised expression. */
  function Fator(tc: seq<Token>, i: nat): (r: Outcome)
    requires Pre(tc, i)
    ensures Grows(tc, i, r)
    ensures Starts(tc, i, FirstExpressao) ==> i < r.idx
    decreases |tc| - i, 1
  {
    if (At(tc, i, TIdentificador) || At(tc, i, TNum) || At(tc, i, TNumDecimal) || At(tc, i, TString)) then Outcome(i + 1, [])
    else if At(tc, i, TAbrePar) then
      var r1 := if Starts(tc, i + 1, FirstExpressao) then Expressao(tc, i + 1)
        else ReportHere(tc, i + 1, MsgExpressaoEntreParenteses, CtxExpressao);
      Then(r1, Close(tc, r1.idx, TFechaPar, MsgFechaParExpressao, CtxExpressao, FollowFator))
    else Fail(tc, i, MsgFatorInvalido, CtxExpressao, FollowFator)
  }

  /** `expressao_relacional`: `expressao [oprel expressao]`. */
  function ExpressaoRelacional(tc: seq<Token>, i: nat): (r: Outcome)
    requires Pre(tc, i)
    ensures Grows(tc, i, r)
    ensures Starts(tc, i, FirstExpressao) ==> i < r.idx
    decreases |tc| - i, 4
  {
    if !Starts(tc, i, FirstExpressao) then Fail(tc, i, MsgExpressaoEsperada, CtxRelacional, FollowRelacional)
    else
      var r1 := Expressao(tc, i);
      if !Starts(tc, r1.idx, FirstOperadorRelacional) then r1
      else
        var r2 := OperadorRelacional(tc, r1.idx);
        Then(r1, Then(r2,
          if Starts(tc, r2.idx, FirstExpressao) then Expressao(tc, r2.idx)
          else ReportHere(tc, r2.idx, MsgExpressaoAposRelacional, CtxRelacional)))
  }

  /** `operador_relacional`. */
  function OperadorRelacional(tc: seq<Token>, i: nat): (r: Outcome)
    requires Pre(tc, i)
    ensures Grows(tc, i, r)
    ensures Starts(tc, i, FirstOperadorRelacional) ==> r == Outcome(i + 1, [])
  {
    if Starts(tc, i, FirstOperadorRelacional) then Outcome(i + 1, [])
    else Fail(tc, i, MsgOperadorEsperado, CtxRelacional, FollowOperador)
  }

  /** `tipo`: one `t_tipo` token. */
  function Tipo(tc: seq<Token>, i: nat): (r: Outcome)
    requires Pre(tc, i)
    ensures Grows(tc, i, r)
    ensures At(tc, i, TTipo) ==> r == Outcome(i + 1, [])
  {
    if At(tc, i, TTipo) then Outcome(i + 1, [])
    else
      Fail(tc, i, MsgTipoEsperado(tc[i].lexeme),
        CtxTipo, FollowTipo)
  }

  // ---------------------------------------------------------- entry point

  /** `tokensComFim`: the end marker on the line of the last token (or 1). */
  function ComFim(ts: seq<Token>): (tc: seq<Token>)
    requires |ts| > 0
    ensures |tc| == |ts| + 1 && tc[..|ts|] == ts && EndMarked(tc)
  {
    var l := ts[|ts| - 1].line;
    ts + [Token("$", TEnd, if l == 0 then 1 else l)]
  }

  function AsErrors(ds: seq<Diag>): (es: seq<SynError>)
    ensures |es| == |ds| && forall i :: 0 <= i < |ds| ==> es[i] == Sintatico(ds[i])
  {
    if ds == [] then [] else [Sintatico(ds[0])] + AsErrors(ds[1..])
  }

  /** `analisarSintatico`; `None` stands for an argument that is not an array. */
  function Analisar(tokens: Option<seq<Token>>): (es: seq<SynError>)
    ensures tokens.None? ==> es == [ListaInvalida]
    ensures tokens == Some([]) ==> es == [EntradaVazia]
    ensures (ListaInvalida in es || EntradaVazia in es) <==> (tokens.None? || tokens == Some([]))
  {
    match tokens
    case None => [ListaInvalida]
    case Some(ts) =>
      if ts == [] then [EntradaVazia]
      else AsErrors(Programa(ComFim(ts), 0).errs)
  }

  // ------------------------------------------------------ the running parser

  /**
   * The state `analisarSintatico` shares between its nested functions: the
   * token list with its end marker, the cursor `indiceToken` and the list
   * `erros`.  Each `Parse` method runs one nonterminal by updating the
   * fields, and is proved to end where the function of the same name says,
   * having appended exactly the messages that function lists.
   */
  class Analisador {
    const tc: seq<Token>
    var indiceToken: nat
    var erros: seq<Diag>

    /** The cursor is on a token of a list that ends with the end marker. */
    predicate Valid()
      reads this
    {
      Pre(tc, indiceToken)
    }

    /** The fields are what running `r` from cursor `i0` with messages `e0` leaves. */
    predicate Ran(i0: nat, e0: seq<Diag>, r: Outcome)
      reads this
    {
      indiceToken == r.idx && erros == e0 + r.errs
    }

    /** `tokensComFim`, a cursor at the first token and no messages yet. */
    constructor(tokens: seq<Token>)
      requires |tokens| > 0
      ensures tc == ComFim(tokens) && indiceToken == 0 && erros == []
      ensures Valid()
    {
      tc := ComFim(tokens);
      indiceToken := 0;
      erros := [];
    }

    /** `consumir`: step over the current token exactly when it has kind `k`. */
    method Consumir(k: Kind) returns (ok: bool)
      requires Valid() && k != TEnd
      modifies this
      ensures Valid() && erros == old(erros)
      ensures ok <==> At(tc, old(indiceToken), k)
      ensures indiceToken == if ok then old(indiceToken) + 1 else old(indiceToken)
    {
      ok := tc[indiceToken].kind == k;
      if ok {
        indiceToken := indiceToken + 1;
      }
    }

    /** `reportarErro`: append one message; the cursor stays. */
    method ReportarErro(message: Msg, found: Token, context: Ctx)
      modifies this
      ensures indiceToken == old(indiceToken)
      ensures erros == old(erros) + [Diagnostico(message, found, context)]
    {
      erros := erros + [Diagnostico(message, found, context)];
    }

    /** `sincronizar`: skip real tokens until one whose kind is in `follow`. */
    method Sincronizar(follow: Follow)
      requires Valid()
      modifies this
      ensures Valid() && erros == old(erros)
      ensures indiceToken == Sincronizado(tc, old(indiceToken), follow)
    {
      while indiceToken < |tc| - 1 && !InFollow(follow, tc[indiceToken].kind)
        invariant Valid() && erros == old(erros)
        invariant Sincronizado(tc, indiceToken, follow) == Sincronizado(tc, old(indiceToken), follow)
        decreases |tc| - indiceToken
      {
        indiceToken := indiceToken + 1;
      }
    }

    /** Report the current token and synchronise: the usual error exit. */
    method Falhar(message: Msg, context: Ctx, follow: Follow)
      requires Valid()
      modifies this
      ensures Valid() && Ran(old(indiceToken), old(erros), Fail(tc, old(indiceToken), message, context, follow))
    {
      ReportarErro(message, tc[indiceToken], context);
      Sincronizar(follow);
    }

    /** `if (!consumir(k)) reportarErro(...)`. */
    method Esperar(k: Kind, message: Msg, context: Ctx)
      requires Valid() && k != TEnd
      modifies this
      ensures Valid() && Ran(old(indiceToken), old(erros), Expect(tc, old(indiceToken), k, message, context))
    {
      var ok := Consumir(k);
      if !ok {
        ReportarErro(message, tc[indiceToken], context);
      }
    }

    /** `if (!consumir(k)) { reportarErro(...); sincronizar(follow); }`. */
    method Fechar(k: Kind, message: Msg, context: Ctx, follow: Follow)
      requires Valid() && k != TEnd
      modifies this
      ensures Valid()
      ensures Ran(old(indiceToken), old(erros), Close(tc, old(indiceToken), k, message, context, follow))
    {
      var ok := Consumir(k);
      if !ok {
        Falhar(message, context, follow);
      }
    }

    /** `programa`: the loop over the real tokens. */
    method ParsePrograma()
      requires Valid()
      modifies this
      ensures Valid() && Ran(old(indiceToken), old(erros), Programa(tc, old(indiceToken)))
    {
      while indiceToken < |tc| - 1
        invariant Valid()
        invariant Programa(tc, indiceToken).idx == Programa(tc, old(indiceToken)).idx
        invariant erros + Programa(tc, indiceToken).errs == old(erros) + Programa(tc, old(indiceToken)).errs
        decreases |tc| - indiceToken
      {
        ghost var e := erros;
        ghost var r := Item(tc, indiceToken);
        ParseItem();
        ThenErrs(e, r, Programa(tc, r.idx));
      }
    }

    /** The body of the `programa` loop. */
    method ParseItem()
      requires Valid() && indiceToken < |tc| - 1
      modifies this
      ensures Valid() && Ran(old(indiceToken), old(erros), Item(tc, old(indiceToken)))
    {
      var token := tc[indiceToken];
      if FirstDeclaracao(token.kind) {
        ParseDeclaracao();
      } else {
        ReportarErro(MsgTokenInesperado(token.lexeme), token, CtxPrograma);
        indiceToken := indiceToken + 1;
      }
    }

    /** `declaracao`: dispatch on the kind of the current token. */
    method ParseDeclaracao()
      requires Valid()
      modifies this
      ensures Valid() && Ran(old(indiceToken), old(erros), Declaracao(tc, old(indiceToken)))
      decreases |tc| - indiceToken, 7
    {
      var tokenAtual := tc[indiceToken];
      var k := tokenAtual.kind;
      if k == TVariavel {
        ParseDeclaracaoVariavel();
      } else if k == TIdentificador {
        if At(tc, indiceToken + 1, TAbrePar) {
          ParseChamadaFuncao();
        } else {
          ParseAtribuicao();
        }
      } else if k == TSe {
        ParseCondicional();
      } else if k == TEnquanto || k == TPara {
        ParseRepeticao();
      } else if k == TFuncao {
        ParseDeclaracaoFuncao();
      } else if k == TRetornar {
        ParseRetornar();
      } else {
        Falhar(MsgTokenInesperado(tokenAtual.lexeme), CtxDeclaracao, FollowDeclaracao);
      }
    }

    /**
     * An expression if one can start here, else a report (`r` is what the
     * specification says happens).
     */
    method ExpressaoOuErro(message: Msg, context: Ctx) returns (ghost r: Outcome)
      requires Valid()
      modifies this
      ensures r == (if FirstExpressao(tc[old(indiceToken)].kind) then Expressao(tc, old(indiceToken))
        else ReportHere(tc, old(indiceToken), message, context))
      ensures Valid() && Ran(old(indiceToken), old(erros), r)
      decreases |tc| - indiceToken, 4
    {
      if FirstExpressao(tc[indiceToken].kind) {
        r := Expressao(tc, indiceToken);
        ParseExpressao();
      } else {
        r := ReportHere(tc, indiceToken, message, context);
        ReportarErro(message, tc[indiceToken], context);
      }
    }

    /** A relational expression if one can start here, else a report. */
    method RelacionalOuErro(context: Ctx) returns (ghost r: Outcome)
      requires Valid()
      modifies this
      ensures r == (if FirstExpressao(tc[old(indiceToken)].kind) then ExpressaoRelacional(tc, old(indiceToken))
        else ReportHere(tc, old(indiceToken), MsgRelacionalEsperada, context))
      ensures Valid() && Ran(old(indiceToken), old(erros), r)
      decreases |tc| - indiceToken, 5
    {
      if FirstExpressao(tc[indiceToken].kind) {
        r := ExpressaoRelacional(tc, indiceToken);
        ParseExpressaoRelacional();
      } else {
        r := ReportHere(tc, indiceToken, MsgRelacionalEsperada, context);
        ReportarErro(MsgRelacionalEsperada, tc[indiceToken], context);
      }
    }

    /** An assignment if an identifier is here, else a report. */
    method AtribuicaoOuErro(message: Msg) returns (ghost r: Outcome)
      requires Valid()
      modifies this
      ensures r == (if At(tc, old(indiceToken), TIdentificador) then Atribuicao(tc, old(indiceToken))
        else ReportHere(tc, old(indiceToken), message, CtxPara))
      ensures Valid() && Ran(old(indiceToken), old(erros), r)
      decreases |tc| - indiceToken, 7
    {
      if At(tc, indiceToken, TIdentificador) {
        r := Atribuicao(tc, indiceToken);
        ParseAtribuicao();
      } else {
        r := ReportHere(tc, indiceToken, message, CtxPara);
        ReportarErro(message, tc[indiceToken], CtxPara);
      }
    }

    /** The `retornar` branch of `declaracao`. */
    method ParseRetornar()
      requires Valid() && At(tc, indiceToken, TRetornar)
      modifies this
      ensures Valid() && Ran(old(indiceToken), old(erros), Retornar(tc, old(indiceToken)))
      decreases |tc| - indiceToken, 6
    {
      // the dispatch has seen `retornar`, so this `consumir` succeeds
      var consumed := Consumir(TRetornar);
      var r1 := ExpressaoOuErro(MsgExpressaoAposRetornar, CtxRetorno);
      Esperar(TPv, MsgPvRetorno, CtxRetorno);
      ThenErrs(old(erros), r1, Expect(tc, r1.idx, TPv, MsgPvRetorno, CtxRetorno));
    }

    /** The `while (firstDeclaracao...) declaracao()` loop of every block. */
    method ParseBloco()
      requires Valid()
      modifies this
      ensures Valid() && Ran(old(indiceToken), old(erros), Bloco(tc, old(indiceToken)))
      decreases |tc| - indiceToken, 8
    {
      while FirstDeclaracao(tc[indiceToken].kind)
        invariant Valid() && old(indiceToken) <= indiceToken
        invariant Bloco(tc, indiceToken).idx == Bloco(tc, old(indiceToken)).idx
        invariant erros + Bloco(tc, indiceToken).errs == old(erros) + Bloco(tc, old(indiceToken)).errs
        decreases |tc| - indiceToken
      {
        ghost var e := erros;
        ghost var r := Declaracao(tc, indiceToken);
        ParseDeclaracao();
        ThenErrs(e, r, Bloco(tc, r.idx));
      }
    }

    /** `declaracao_variavel`. */
    method ParseDeclaracaoVariavel()
      requires Valid()
      modifies this
      ensures Valid() && Ran(old(indiceToken), old(erros), DeclaracaoVariavel(tc, old(indiceToken)))
      decreases |tc| - indiceToken, 6
    {
      var tokenAtual := tc[indiceToken];
      var ok := Consumir(TVariavel);
      if !ok {
        ReportarErro(MsgEsperadoVariavel, tokenAtual, CtxVariavel);
        Sincronizar(FollowDeclaracao);
        return;
      }
      ok := Consumir(TIdentificador);
      if !ok {
        Falhar(MsgIdAposVariavel, CtxVariavel, FollowDeclaracao);
        return;
      }
      ok := Consumir(TDoisPontos);
      if !ok {
        Falhar(MsgDoisPontos, CtxVariavel, FollowDeclaracao);
        return;
      }
      ghost var r1 := Tipo(tc, indiceToken);
      ParseTipo();
      ParseInicializacao();
      ThenErrs(old(erros), r1, Inicializacao(tc, r1.idx));
    }

    /** The optional `= expressao` and the `;` of `declaracao_variavel`. */
    method ParseInicializacao()
      requires Valid()
      modifies this
      ensures Valid() && Ran(old(indiceToken), old(erros), Inicializacao(tc, old(indiceToken)))
      decreases |tc| - indiceToken, 5
    {
      ghost var r1 := Outcome(indiceToken, []);
      var ok := Consumir(TAtribuicao);
      if ok {
        r1 := ExpressaoOuErro(MsgExpressaoAposIgual, CtxVariavel);
      }
      Esperar(TPv, MsgPvVariavel, CtxVariavel);
      ThenErrs(old(erros), r1, Expect(tc, r1.idx, TPv, MsgPvVariavel, CtxVariavel));
    }

    /** `atribuicao`. */
    method ParseAtribuicao()
      requires Valid()
      modifies this
      ensures Valid() && Ran(old(indiceToken), old(erros), Atribuicao(tc, old(indiceToken)))
      decreases |tc| - indiceToken, 6
    {
      var tokenAtual := tc[indiceToken];
      var ok := Consumir(TIdentificador);
      if !ok {
        ReportarErro(MsgIdAtribuicao, tokenAtual, CtxAtribuicao);
        Sincronizar(FollowDeclaracao);
        return;
      }
      ok := Consumir(TAtribuicao);
      if !ok {
        Falhar(MsgIgualAposId, CtxAtribuicao, FollowDeclaracao);
        return;
      }
      var r1 := ExpressaoOuErro(MsgExpressaoAposIgual, CtxAtribuicao);
      Esperar(TPv, MsgPvAtribuicao, CtxAtribuicao);
      ThenErrs(old(erros), r1, Expect(tc, r1.idx, TPv, MsgPvAtribuicao, CtxAtribuicao));
    }

    /** `condicional`, up to the condition. */
    method ParseCondicional()
      requires Valid()
      modifies this
      ensures Valid() && Ran(old(indiceToken), old(erros), Condicional(tc, old(indiceToken)))
      decreases |tc| - indiceToken, 6
    {
      var tokenAtual := tc[indiceToken];
      var ok := Consumir(TSe);
      if !ok {
        ReportarErro(MsgEsperadoSe, tokenAtual, CtxCondicional);
        Sincronizar(FollowDeclaracao);
        return;
      }
      ok := Consumir(TAbrePar);
      if !ok {
        Falhar(MsgAbreParSe, CtxCondicional, FollowDeclaracao);
        return;
      }
      var r1 := RelacionalOuErro(CtxCondicional);
      ParseCorpoCondicional();
      ThenErrs(old(erros), r1, CorpoCondicional(tc, r1.idx));
    }

    /** `) { bloco }` of `condicional`. */
    method ParseCorpoCondicional()
      requires Valid()
      modifies this
      ensures Valid() && Ran(old(indiceToken), old(erros), CorpoCondicional(tc, old(indiceToken)))
      decreases |tc| - indiceToken, 5
    {
      var ok := Consumir(TFechaPar);
      if !ok {
        Falhar(MsgFechaParRelacional, CtxCondicional, FollowDeclaracao);
        return;
      }
      ParseBlocoCondicional();
    }

    /** `consumir('{')`, the `se` block, then its `}` and the optional `senao`. */
    method ParseBlocoCondicional()
      requires Valid()
      modifies this
      ensures Valid() && Ran(old(indiceToken), old(erros), BlocoCondicional(tc, old(indiceToken)))
      decreases |tc| - indiceToken, 5
    {
      var ok := Consumir(TAbreChave);
      if !ok {
        Falhar(MsgAbreChave, CtxCondicional, FollowDeclaracao);
        return;
      }
      ghost var r1 := Bloco(tc, indiceToken);
      ParseBloco();
      ParseFimCondicional();
      ThenErrs(old(erros), r1, FimCondicional(tc, r1.idx));
    }

    /** The `}` of the `se` block, then the optional `senao` part. */
    method ParseFimCondicional()
      requires Valid()
      modifies this
      ensures Valid() && Ran(old(indiceToken), old(erros), FimCondicional(tc, old(indiceToken)))
      decreases |tc| - indiceToken, 5
    {
      var ok := Consumir(TFechaChave);
      if !ok {
        Falhar(MsgFechaChave, CtxCondicional, FollowDeclaracao);
        return;
      }
      ParseSenao();
    }

    /** `if (consumir('t_senao')) { ... }`. */
    method ParseSenao()
      requires Valid()
      modifies this
      ensures Valid() && Ran(old(indiceToken), old(erros), Senao(tc, old(indiceToken)))
      decreases |tc| - indiceToken, 5
    {
      var ok := Consumir(TSenao);
      if ok {
        ok := Consumir(TAbreChave);
        if !ok {
          Falhar(MsgAbreChaveSenao, CtxCondicional, FollowDeclaracao);
          return;
        }
        ParseBlocoFechado(MsgFechaChaveSenao, CtxCondicional);
      }
    }

    /** `bloco` after a `{`, then `consumir('}')` or the given complaint. */
    method ParseBlocoFechado(message: Msg, ctx: Ctx)
      requires Valid()
      modifies this
      ensures Valid() && Ran(old(indiceToken), old(erros), BlocoFechado(tc, old(indiceToken), message, ctx))
      decreases |tc| - indiceToken, 9
    {
      ghost var r1 := Bloco(tc, indiceToken);
      ParseBloco();
      Fechar(TFechaChave, message, ctx, FollowDeclaracao);
      ThenErrs(old(erros), r1, Close(tc, r1.idx, TFechaChave, message, ctx, FollowDeclaracao));
    }

    /** `repeticao`: dispatch between `enquanto` and `para`. */
    method ParseRepeticao()
      requires Valid()
      modifies this
      ensures Valid() && Ran(old(indiceToken), old(erros), Repeticao(tc, old(indiceToken)))
      decreases |tc| - indiceToken, 6
    {
      if At(tc, indiceToken, TEnquanto) {
        ParseEnquanto();
      } else if At(tc, indiceToken, TPara) {
        ParsePara();
      } else {
        Falhar(MsgEsperadoLaco, CtxRepeticao, FollowDeclaracao);
      }
    }

    /** `) { bloco }` closing a loop or function header. */
    method ParseCorpoBloco(closeMessage: Msg, ctx: Ctx)
      requires Valid()
      modifies this
      ensures Valid() && Ran(old(indiceToken), old(erros), CorpoBloco(tc, old(indiceToken), closeMessage, ctx))
      decreases |tc| - indiceToken, 5
    {
      var ok := Consumir(TFechaPar);
      if !ok {
        Falhar(closeMessage, ctx, FollowDeclaracao);
        return;
      }
      ParseAbreBloco(ctx);
    }

    /** `consumir('{')`, then the block and its `}`. */
    method ParseAbreBloco(ctx: Ctx)
      requires Valid()
      modifies this
      ensures Valid() && Ran(old(indiceToken), old(erros), AbreBloco(tc, old(indiceToken), ctx))
      decreases |tc| - indiceToken, 10
    {
      var ok := Consumir(TAbreChave);
      if !ok {
        Falhar(MsgAbreChave, ctx, FollowDeclaracao);
        return;
      }
      ParseBlocoFechado(MsgFechaChave, ctx);
    }

    /** The `enquanto` branch of `repeticao`. */
    method ParseEnquanto()
      requires Valid() && At(tc, indiceToken, TEnquanto)
      modifies this
      ensures Valid() && Ran(old(indiceToken), old(erros), Enquanto(tc, old(indiceToken)))
      decreases |tc| - indiceToken, 5
    {
      var consumed := Consumir(TEnquanto);
      var ok := Consumir(TAbrePar);
      if !ok {
        Falhar(MsgAbreParEnquanto, CtxEnquanto, FollowDeclaracao);
        return;
      }
      var r1 := RelacionalOuErro(CtxEnquanto);
      ParseCorpoBloco(MsgFechaParRelacional, CtxEnquanto);
      ThenErrs(old(erros), r1, CorpoBloco(tc, r1.idx, MsgFechaParRelacional, CtxEnquanto));
    }

    /** The `para` branch of `repeticao`, up to the condition. */
    method ParsePara()
      requires Valid() && At(tc, indiceToken, TPara)
      modifies this
      ensures Valid() && Ran(old(indiceToken), old(erros), Para(tc, old(indiceToken)))
      decreases |tc| - indiceToken, 5
    {
      var consumed := Consumir(TPara);
      var ok := Consumir(TAbrePar);
      if !ok {
        Falhar(MsgAbreParPara, CtxPara, FollowDeclaracao);
        return;
      }
      ParseParaCabecalho();
    }

    /** The `para` header after `(`. */
    method ParseParaCabecalho()
      requires Valid()
      modifies this
      ensures Valid() && Ran(old(indiceToken), old(erros), ParaCabecalho(tc, old(indiceToken)))
      decreases |tc| - indiceToken, 8
    {
      var r1 := AtribuicaoOuErro(MsgAtribuicaoInicial);
      ghost var e1 := erros;
      var r2 := RelacionalOuErro(CtxPara);
      ParseParaIncremento();
      ThenErrs(e1, r2, ParaIncremento(tc, r2.idx));
      ThenErrs(old(erros), r1, Then(r2, ParaIncremento(tc, r2.idx)));
    }

    /** `; atribuicao ) { bloco }` of the `para` header. */
    method ParseParaIncremento()
      requires Valid()
      modifies this
      ensures Valid() && Ran(old(indiceToken), old(erros), ParaIncremento(tc, old(indiceToken)))
      decreases |tc| - indiceToken, 5
    {
      var ok := Consumir(TPv);
      if !ok {
        Falhar(MsgPvRelacional, CtxPara, FollowDeclaracao);
        return;
      }
      var r1 := AtribuicaoOuErro(MsgAtribuicaoIncremento);
      ParseCorpoBloco(MsgFechaParPara, CtxPara);
      ThenErrs(old(erros), r1, CorpoBloco(tc, r1.idx, MsgFechaParPara, CtxPara));
    }

    /** `declaracao_funcao`. */
    method ParseDeclaracaoFuncao()
      requires Valid()
      modifies this
      ensures Valid() && Ran(old(indiceToken), old(erros), DeclaracaoFuncao(tc, old(indiceToken)))
      decreases |tc| - indiceToken, 6
    {
      var tokenAtual := tc[indiceToken];
      var ok := Consumir(TFuncao);
      if !ok {
        ReportarErro(MsgEsperadoFuncao, tokenAtual, CtxFuncao);
        Sincronizar(FollowDeclaracao);
        return;
      }
      ok := Consumir(TIdentificador);
      if !ok {
        Falhar(MsgIdAposFuncao, CtxFuncao, FollowDeclaracao);
        return;
      }
      ok := Consumir(TAbrePar);
      if !ok {
        Falhar(MsgAbreParAposId, CtxFuncao, FollowDeclaracao);
        return;
      }
      ParseCorpoFuncao();
    }

    /** After `funcao id (`: the optional parameters, then `) { bloco }`. */
    method ParseCorpoFuncao()
      requires Valid()
      modifies this
      ensures Valid() && Ran(old(indiceToken), old(erros), CorpoFuncao(tc, old(indiceToken)))
      decreases |tc| - indiceToken, 6
    {
      ghost var r1 := Outcome(indiceToken, []);
      if FirstListaParametros(tc[indiceToken].kind) {
        r1 := ListaParametros(tc, indiceToken);
        ParseListaParametros();
      }
      ParseCorpoBloco(MsgFechaParParametros, CtxFuncao);
      ThenErrs(old(erros), r1, CorpoBloco(tc, r1.idx, MsgFechaParParametros, CtxFuncao));
    }

    /** `lista_parametros`, with its `while (consumir(','))` loop. */
    method ParseListaParametros()
      requires Valid()
      modifies this
      ensures Valid() && Ran(old(indiceToken), old(erros), ListaParametros(tc, old(indiceToken)))
      decreases |tc| - indiceToken, 2
    {
      ghost var r1 := Parametro(tc, indiceToken);
      ParseParametro();
      ghost var e1 := erros;
      while true
        invariant Valid() && r1.idx <= indiceToken
        invariant MaisParametros(tc, indiceToken).idx == MaisParametros(tc, r1.idx).idx
        invariant erros + MaisParametros(tc, indiceToken).errs == e1 + MaisParametros(tc, r1.idx).errs
        decreases |tc| - indiceToken
      {
        ghost var e := erros;
        var ok := Consumir(TVirgula);
        if !ok {
          break;
        }
        if FirstListaParametros(tc[indiceToken].kind) {
          ghost var r := Parametro(tc, indiceToken);
          ParseParametro();
          ThenErrs(e, r, MaisParametros(tc, r.idx));
        } else {
          Falhar(MsgParametroAposVirgula, CtxParametros, FollowLista);
          break;
        }
      }
      ThenErrs(old(erros), r1, MaisParametros(tc, r1.idx));
    }

    /** `parametro`. */
    method ParseParametro()
      requires Valid()
      modifies this
      ensures Valid() && Ran(old(indiceToken), old(erros), Parametro(tc, old(indiceToken)))
      decreases |tc| - indiceToken, 1
    {
      var tokenAtual := tc[indiceToken];
      var ok := Consumir(TIdentificador);
      if !ok {
        ReportarErro(MsgIdParametro, tokenAtual, CtxParametros);
        Sincronizar(FollowParametro);
        return;
      }
      ok := Consumir(TDoisPontos);
      if !ok {
        Falhar(MsgDoisPontos, CtxParametros, FollowParametro);
        return;
      }
      ParseTipo();
    }

    /** `chamada_funcao`, up to the arguments. */
    method ParseChamadaFuncao()
      requires Valid()
      modifies this
      ensures Valid() && Ran(old(indiceToken), old(erros), ChamadaFuncao(tc, old(indiceToken)))
      decreases |tc| - indiceToken, 6
    {
      var tokenAtual := tc[indiceToken];
      var ok := Consumir(TIdentificador);
      if !ok {
        ReportarErro(MsgIdChamada, tokenAtual, CtxChamada);
        Sincronizar(FollowChamada);
        return;
      }
      ParseArgumentosChamada();
    }

    /** `consumir('(')`, the optional arguments, then `) ;`. */
    method ParseArgumentosChamada()
      requires Valid()
      modifies this
      ensures Valid() && Ran(old(indiceToken), old(erros), ArgumentosChamada(tc, old(indiceToken)))
      decreases |tc| - indiceToken, 5
    {
      var ok := Consumir(TAbrePar);
      if !ok {
        Falhar(MsgAbreParAposId, CtxChamada, FollowChamada);
        return;
      }
      ghost var r1 := Outcome(indiceToken, []);
      if FirstExpressao(tc[indiceToken].kind) {
        r1 := ListaArgumentos(tc, indiceToken);
        ParseListaArgumentos();
      }
      ParseFimChamada();
      ThenErrs(old(erros), r1, FimChamada(tc, r1.idx));
    }

    /** `) ;` closing a call. */
    method ParseFimChamada()
      requires Valid()
      modifies this
      ensures Valid() && Ran(old(indiceToken), old(erros), FimChamada(tc, old(indiceToken)))
    {
      var ok := Consumir(TFechaPar);
      if !ok {
        Falhar(MsgFechaParArgumentos, CtxChamada, FollowChamada);
        return;
      }
      Esperar(TPv, MsgPvChamada, CtxChamada);
    }

    /** `lista_argumentos`, with its `while (consumir(','))` loop. */
    method ParseListaArgumentos()
      requires Valid()
      modifies this
      ensures Valid() && Ran(old(indiceToken), old(erros), ListaArgumentos(tc, old(indiceToken)))
      decreases |tc| - indiceToken, 4
    {
      if !FirstExpressao(tc[indiceToken].kind) {
        Falhar(MsgArgumentoEsperado, CtxArgumentos, FollowLista);
        return;
      }
      ghost var r1 := Expressao(tc, indiceToken);
      ParseExpressao();
      ghost var e1 := erros;
      while true
        invariant Valid() && r1.idx <= indiceToken
        invariant MaisArgumentos(tc, indiceToken).idx == MaisArgumentos(tc, r1.idx).idx
        invariant erros + MaisArgumentos(tc, indiceToken).errs == e1 + MaisArgumentos(tc, r1.idx).errs
        decreases |tc| - indiceToken
      {
        ghost var e := erros;
        var ok := Consumir(TVirgula);
        if !ok {
          break;
        }
        if FirstExpressao(tc[indiceToken].kind) {
          ghost var r := Expressao(tc, indiceToken);
          ParseExpressao();
          ThenErrs(e, r, MaisArgumentos(tc, r.idx));
        } else {
          Falhar(MsgExpressaoAposVirgula, CtxArgumentos, FollowLista);
          break;
        }
      }
      ThenErrs(old(erros), r1, MaisArgumentos(tc, r1.idx));
    }

    /** `expressao`, with its `+`/`-` loop. */
    method ParseExpressao()
      requires Valid()
      modifies this
      ensures Valid() && Ran(old(indiceToken), old(erros), Expressao(tc, old(indiceToken)))
      decreases |tc| - indiceToken, 3
    {
      if !FirstExpressao(tc[indiceToken].kind) {
        Falhar(MsgExpressaoValida, CtxExpressao, FollowExpressao);
        return;
      }
      ghost var r1 := Termo(tc, indiceToken);
      ParseTermo();
      ghost var e1 := erros;
      while At(tc, indiceToken, TSoma) || At(tc, indiceToken, TSubtracao)
        invariant Valid() && r1.idx <= indiceToken
        invariant MaisTermos(tc, indiceToken).idx == MaisTermos(tc, r1.idx).idx
        invariant erros + MaisTermos(tc, indiceToken).errs == e1 + MaisTermos(tc, r1.idx).errs
        decreases |tc| - indiceToken
      {
        ghost var e := erros;
        var consumed := Consumir(tc[indiceToken].kind);
        if FirstExpressao(tc[indiceToken].kind) {
          ghost var r := Termo(tc, indiceToken);
          ParseTermo();
          ThenErrs(e, r, MaisTermos(tc, r.idx));
        } else {
          Falhar(MsgTermoAposOperador, CtxExpressao, FollowExpressao);
          break;
        }
      }
      ThenErrs(old(erros), r1, MaisTermos(tc, r1.idx));
    }

    /** `termo`, with its `*`/`/` loop. */
    method ParseTermo()
      requires Valid()
      modifies this
      ensures Valid() && Ran(old(indiceToken), old(erros), Termo(tc, old(indiceToken)))
      decreases |tc| - indiceToken, 2
    {
      if !FirstExpressao(tc[indiceToken].kind) {
        Falhar(MsgFatorEsperado, CtxTermo, FollowTermo);
        return;
      }
      ghost var r1 := Fator(tc, indiceToken);
      ParseFator();
      ghost var e1 := erros;
      while At(tc, indiceToken, TMultiplicacao) || At(tc, indiceToken, TDivisao)
        invariant Valid() && r1.idx <= indiceToken
        invariant MaisFatores(tc, indiceToken).idx == MaisFatores(tc, r1.idx).idx
        invariant erros + MaisFatores(tc, indiceToken).errs == e1 + MaisFatores(tc, r1.idx).errs
        decreases |tc| - indiceToken
      {
        ghost var e := erros;
        var consumed := Consumir(tc[indiceToken].kind);
        if FirstExpressao(tc[indiceToken].kind) {
          ghost var r := Fator(tc, indiceToken);
          ParseFator();
          ThenErrs(e, r, MaisFatores(tc, r.idx));
        } else {
          Falhar(MsgFatorAposOperador, CtxTermo, FollowTermo);
          break;
        }
      }
      ThenErrs(old(erros), r1, MaisFatores(tc, r1.idx));
    }

    /** `fator`. */
    method ParseFator()
      requires Valid()
      modifies this
      ensures Valid() && Ran(old(indiceToken), old(erros), Fator(tc, old(indiceToken)))
      decreases |tc| - indiceToken, 1
    {
      var k := tc[indiceToken].kind;
      if k == TIdentificador || k == TNum || k == TNumDecimal || k == TString {
        var consumed := Consumir(k);
      } else if k == TAbrePar {
        var consumed := Consumir(TAbrePar);
        var r1 := ExpressaoOuErro(MsgExpressaoEntreParenteses, CtxExpressao);
        Fechar(TFechaPar, MsgFechaParExpressao, CtxExpressao, FollowFator);
        ThenErrs(old(erros), r1, Close(tc, r1.idx, TFechaPar, MsgFechaParExpressao, CtxExpressao, FollowFator));
      } else {
        Falhar(MsgFatorInvalido, CtxExpressao, FollowFator);
      }
    }

    /** `expressao_relacional`. */
    method ParseExpressaoRelacional()
      requires Valid()
      modifies this
      ensures Valid() && Ran(old(indiceToken), old(erros), ExpressaoRelacional(tc, old(indiceToken)))
      decreases |tc| - indiceToken, 4
    {
      if !FirstExpressao(tc[indiceToken].kind) {
        Falhar(MsgExpressaoEsperada, CtxRelacional, FollowRelacional);
        return;
      }
      ghost var r1 := Expressao(tc, indiceToken);
      ParseExpressao();
      if FirstOperadorRelacional(tc[indiceToken].kind) {
        ghost var r2 := OperadorRelacional(tc, indiceToken);
        ParseOperadorRelacional();
        ghost var e2 := erros;
        var r3 := ExpressaoOuErro(MsgExpressaoAposRelacional, CtxRelacional);
        ThenErrs(old(erros), r1, Then(r2, r3));
        ThenErrs(old(erros) + r1.errs, r2, r3);
      }
    }

    /** `operador_relacional`. */
    method ParseOperadorRelacional()
      requires Valid()
      modifies this
      ensures Valid() && Ran(old(indiceToken), old(erros), OperadorRelacional(tc, old(indiceToken)))
    {
      var k := tc[indiceToken].kind;
      if FirstOperadorRelacional(k) {
        var consumed := Consumir(k);
      } else {
        Falhar(MsgOperadorEsperado, CtxRelacional, FollowOperador);
      }
    }

    /** `tipo`. */
    method ParseTipo()
      requires Valid()
      modifies this
      ensures Valid() && Ran(old(indiceToken), old(erros), Tipo(tc, old(indiceToken)))
    {
      var tokenAtual := tc[indiceToken];
      var ok := Consumir(TTipo);
      if !ok {
        Falhar(MsgTipoEsperado(tokenAtual.lexeme), CtxTipo, FollowTipo);
      }
    }
  }

  /**
   * `analisarSintatico` as it runs: reject a non-array or an empty list, or
   * build the parser state, run `programa` and return the collected messages.
   */
  method AnalisarSintatico(tokens: Option<seq<Token>>) returns (es: seq<SynError>)
    ensures es == Analisar(tokens)
  {
    match tokens
    case None =>
      es := [ListaInvalida];
    case Some(ts) =>
      if ts == [] {
        es := [EntradaVazia];
        return;
      }
      var p := new Analisador(ts);
      p.ParsePrograma();
      es := AsErrors(p.erros);
  }
}
