/**
 * The driver `analisarSemantico` of the second semantic analyser
 * (`analisardorSemantico.js`): a recursive descent over the tokens (plus
 * the `$` end marker) that declares, initialises and uses symbols of a
 * `TabelaSimbolos` and collects messages.
 *
 * Each nested function of the source is a function here from the tokens,
 * the cursor `indiceToken` and the state (table, messages) to the cursor
 * where it stops and the new state; the class `Analisador` at the end runs
 * the same descent by updating fields and is proved to agree with them.
 *
 * `verificarTipos` throws a `TypeError` when the left type is not one of
 * the four type names (for instance `desconhecido`, which `fator` returns
 * for an undeclared name, or `funcao`).  The state records that in
 * `quebrou`; once it is set, the result of the analysis is the exception
 * whatever the rest of the descent does, so the descent just goes on.
 */
module SemanticoEscopos {
  import opened Wrappers
  import opened Tokens
  import opened TabelaEscopos
  import Parser

  // ----------------------------------------------------------- the state

  /** The table, the list `erros`, and whether `verificarTipos` has thrown. */
  datatype Estado = Estado(tabela: Tabela, erros: seq<Mensagem>, quebrou: bool)

  /** Where a statement-level function stops, and the state it leaves. */
  datatype Volta = Volta(i: nat, st: Estado)

  /** The same for `expressao`, `termo` and `fator`, with the type they return. */
  datatype Tipada = Tipada(i: nat, st: Estado, tipo: string)

  /** `firstExpressao` of this analyser: no decimal or string literals. */
  predicate InicioExpressao(k: Kind) {
    k == TIdentificador || k == TNum || k == TAbrePar
  }

  /** The cursor is on a token of a list that ends with the end marker. */
  predicate Pre(tc: seq<Token>, i: nat) {
    Parser.Pre(tc, i)
  }

  /**
   * What every function keeps: the scope stack is as deep as before and still
   * well formed, and an exception once thrown stays thrown.
   */
  predicate Mantem(st: Estado, r: Estado) {
    Valida(r.tabela) && |r.tabela.escopos| == |st.tabela.escopos| && (st.quebrou ==> r.quebrou)
  }

  /** `consumir(k)`: the cursor after it. */
  function Consumir(tc: seq<Token>, i: nat, k: Kind): (j: nat)
    requires Pre(tc, i) && k != TEnd
    ensures i <= j < |tc| && (j == i + 1 <==> Parser.At(tc, i, k)) && (j == i <==> !Parser.At(tc, i, k))
  {
    if tc[i].kind == k then i + 1 else i
  }

  /** `if (erro) erros.push(erro)`. */
  function Relatar(st: Estado, erro: Option<Mensagem>): (r: Estado)
    ensures r.tabela == st.tabela && r.quebrou == st.quebrou
    ensures r.erros == st.erros + (if erro.Some? then [erro.value] else [])
  {
    if erro.Some? then st.(erros := st.erros + [erro.value]) else st
  }

  /** `tabela.adicionarSimbolo(...)` and the push of its message. */
  function Declarar(st: Estado, nome: string, tipo: string, linha: int): (r: Estado)
    requires Valida(st.tabela)
    ensures Mantem(st, r)
  {
    var a := Adicionar(st.tabela, nome, tipo, linha);
    Relatar(st.(tabela := a.t), a.erro)
  }

  /** `tabela.marcarInicializado(...)` and the push of its message. */
  function Inicializada(st: Estado, nome: string, linha: int): (r: Estado)
    requires Valida(st.tabela)
    ensures Mantem(st, r)
  {
    var a := Inicializar(st.tabela, nome, linha);
    Relatar(st.(tabela := a.t), a.erro)
  }

  /** `tabela.marcarUsado(...)` and the push of its message. */
  function Usada(st: Estado, nome: string, linha: int): (r: Estado)
    requires Valida(st.tabela)
    ensures Mantem(st, r)
  {
    var a := Usar(st.tabela, nome, linha);
    Relatar(st.(tabela := a.t), a.erro)
  }

  /** `tabela.verificarTipos(...)`: throws on an unknown left type. */
  function Verificar(st: Estado, esquerda: string, direita: string, linha: int, operacao: Operacao): (r: Estado)
    requires Valida(st.tabela)
    ensures Mantem(st, r) && r.tabela == st.tabela
    ensures r.quebrou <==> st.quebrou || !TipoConhecido(esquerda)
  {
    if !TipoConhecido(esquerda) then st.(quebrou := true)
    else Relatar(st, VerificarTipos(esquerda, direita, linha, operacao))
  }

  // ---------------------------------------------------------- statements

  /** `while (firstDeclaracao.includes(tokensComFim[indiceToken].tipo)) declaracao()`. */
  function Declaracoes(tc: seq<Token>, i: nat, st: Estado): (r: Volta)
    requires Pre(tc, i) && Valida(st.tabela)
    ensures i <= r.i < |tc| && Mantem(st, r.st)
    ensures !Parser.FirstDeclaracao(tc[r.i].kind)
    decreases |tc| - i, 7
  {
    if Parser.FirstDeclaracao(tc[i].kind) then
      var d := Declaracao(tc, i, st);
      Declaracoes(tc, d.i, d.st)
    else Volta(i, st)
  }

  /** `declaracao`: dispatch on the current token, which is always consumed. */
  function Declaracao(tc: seq<Token>, i: nat, st: Estado): (r: Volta)
    requires Pre(tc, i) && Valida(st.tabela) && Parser.FirstDeclaracao(tc[i].kind)
    ensures i < r.i < |tc| && Mantem(st, r.st)
    decreases |tc| - i, 6
  {
    var k := tc[i].kind;
    if k == TVariavel then DeclaracaoVariavel(tc, i, st)
    else if k == TIdentificador then
      if Parser.At(tc, i + 1, TAbrePar) then ChamadaFuncao(tc, i, st) else Atribuicao(tc, i, st)
    else if k == TSe then Condicional(tc, i, st)
    else if k == TEnquanto then Enquanto(tc, i, st)
    else if k == TPara then Para(tc, i, st)
    else if k == TFuncao then DeclaracaoFuncao(tc, i, st)
    else Retornar(tc, i, st)
  }

  /** The `retornar` branch: `retornar expressao ;`. */
  function Retornar(tc: seq<Token>, i: nat, st: Estado): (r: Volta)
    requires Pre(tc, i) && Valida(st.tabela) && Parser.At(tc, i, TRetornar)
    ensures i < r.i < |tc| && Mantem(st, r.st)
  {
    var e := Expressao(tc, i + 1, st);
    Volta(Consumir(tc, e.i, TPv), e.st)
  }

  /** `declaracao_variavel`: declare, then check and initialise when `=` follows. */
  function DeclaracaoVariavel(tc: seq<Token>, i: nat, st: Estado): (r: Volta)
    requires Pre(tc, i) && Valida(st.tabela) && Parser.At(tc, i, TVariavel)
    ensures i < r.i < |tc| && Mantem(st, r.st)
  {
    var ident := tc[i + 1];
    var i1 := Consumir(tc, i + 1, TIdentificador);
    var i2 := Consumir(tc, i1, TDoisPontos);
    var tipo := tc[i2];
    var i3 := Consumir(tc, i2, TTipo);
    RestoVariavel(tc, i3, Declarar(st, ident.lexeme, tipo.lexeme, ident.line), ident, tipo.lexeme)
  }

  /** The end of `declaracao_variavel`, after the declaration: an optional `= expressao`, then `;`. */
  function RestoVariavel(tc: seq<Token>, i: nat, st: Estado, ident: Token, tipo: string): (r: Volta)
    requires Pre(tc, i) && Valida(st.tabela)
    ensures i <= r.i < |tc| && Mantem(st, r.st)
  {
    var v := if Parser.At(tc, i, TAtribuicao) then Inicializacao(tc, i + 1, st, ident, tipo) else Volta(i, st);
    Volta(Consumir(tc, v.i, TPv), v.st)
  }

  /** The `if (consumir('t_atribuicao'))` branch of `declaracao_variavel`, after the `=`. */
  function Inicializacao(tc: seq<Token>, i: nat, st: Estado, ident: Token, tipo: string): (r: Volta)
    requires Pre(tc, i) && Valida(st.tabela)
    ensures i <= r.i < |tc| && Mantem(st, r.st)
  {
    var e := Expressao(tc, i, st);
    var st1 := Verificar(e.st, tipo, e.tipo, ident.line, NaAtribuicao);
    Volta(e.i, Inicializada(st1, ident.lexeme, ident.line))
  }

  /** `atribuicao`: `x = expressao ;`, then the checks on `x`. */
  function Atribuicao(tc: seq<Token>, i: nat, st: Estado): (r: Volta)
    requires Pre(tc, i) && Valida(st.tabela)
    ensures i <= r.i < |tc| && Mantem(st, r.st)
    ensures Parser.At(tc, i, TIdentificador) ==> i < r.i
  {
    var ident := tc[i];
    var i1 := Consumir(tc, i, TIdentificador);
    var i2 := Consumir(tc, i1, TAtribuicao);
    var e := Expressao(tc, i2, st);
    Volta(Consumir(tc, e.i, TPv), Atribuir(e.st, ident, e.tipo))
  }

  /** The checks at the end of `atribuicao`, on the name `ident` and the type of the expression. */
  function Atribuir(st: Estado, ident: Token, tipo: string): (r: Estado)
    requires Valida(st.tabela)
    ensures Mantem(st, r)
  {
    match Buscar(st.tabela, ident.lexeme)
    case None => Relatar(st, Some(NaoDeclarada(ident.line, ident.lexeme)))
    case Some(p) =>
      var st1 := Verificar(st, Em(st.tabela, p).tipo, tipo, ident.line, NaAtribuicao);
      Inicializada(st1, ident.lexeme, ident.line)
  }

  /**
   * A block body: `entrarEscopo`, the declarations, `sairEscopo`, then the
   * closing brace.
   */
  function Bloco(tc: seq<Token>, i: nat, st: Estado): (r: Volta)
    requires Pre(tc, i) && Valida(st.tabela)
    ensures i <= r.i < |tc| && Mantem(st, r.st)
    decreases |tc| - i, 8
  {
    var d := Declaracoes(tc, i, st.(tabela := Entrar(st.tabela)));
    Volta(Consumir(tc, d.i, TFechaChave), d.st.(tabela := Sair(d.st.tabela)))
  }

  /** `consumir('t_abre_chave')`, then a block body. */
  function AbreBloco(tc: seq<Token>, i: nat, st: Estado): (r: Volta)
    requires Pre(tc, i) && Valida(st.tabela)
    ensures i <= r.i < |tc| && Mantem(st, r.st)
    decreases |tc| - i, 9
  {
    Bloco(tc, Consumir(tc, i, TAbreChave), st)
  }

  /** `consumir('t_fecha_par')`, then `{` and a block body: the tail of every construct with a body. */
  function FechaEBloco(tc: seq<Token>, i: nat, st: Estado): (r: Volta)
    requires Pre(tc, i) && Valida(st.tabela)
    ensures i <= r.i < |tc| && Mantem(st, r.st)
    decreases |tc| - i, 10
  {
    AbreBloco(tc, Consumir(tc, i, TFechaPar), st)
  }

  /** `condicional`: `se ( relacional ) { ... }` and an optional `senao { ... }`. */
  function Condicional(tc: seq<Token>, i: nat, st: Estado): (r: Volta)
    requires Pre(tc, i) && Valida(st.tabela) && Parser.At(tc, i, TSe)
    ensures i < r.i < |tc| && Mantem(st, r.st)
    decreases |tc| - i, 5
  {
    var c := ExpressaoRelacional(tc, Consumir(tc, i + 1, TAbrePar), st);
    var b := FechaEBloco(tc, c.i, c.st);
    Senao(tc, b.i, b.st)
  }

  /** `if (consumir('t_senao'))`: the second block of `condicional`. */
  function Senao(tc: seq<Token>, i: nat, st: Estado): (r: Volta)
    requires Pre(tc, i) && Valida(st.tabela)
    ensures i <= r.i < |tc| && Mantem(st, r.st)
    decreases |tc| - i, 5
  {
    if Parser.At(tc, i, TSenao) then AbreBloco(tc, i + 1, st) else Volta(i, st)
  }

  /** The `enquanto` branch of `repeticao`. */
  function Enquanto(tc: seq<Token>, i: nat, st: Estado): (r: Volta)
    requires Pre(tc, i) && Valida(st.tabela) && Parser.At(tc, i, TEnquanto)
    ensures i < r.i < |tc| && Mantem(st, r.st)
    decreases |tc| - i, 5
  {
    var c := ExpressaoRelacional(tc, Consumir(tc, i + 1, TAbrePar), st);
    FechaEBloco(tc, c.i, c.st)
  }

  /** The `para` branch of `repeticao`: `para ( atribuicao relacional ; atribuicao ) { ... }`. */
  function Para(tc: seq<Token>, i: nat, st: Estado): (r: Volta)
    requires Pre(tc, i) && Valida(st.tabela) && Parser.At(tc, i, TPara)
    ensures i < r.i < |tc| && Mantem(st, r.st)
    decreases |tc| - i, 5
  {
    var a := Atribuicao(tc, Consumir(tc, i + 1, TAbrePar), st);
    var c := ExpressaoRelacional(tc, a.i, a.st);
    ParaIncremento(tc, c.i, c.st)
  }

  /** The rest of `para` from the second `;`: the increment, then the body. */
  function ParaIncremento(tc: seq<Token>, i: nat, st: Estado): (r: Volta)
    requires Pre(tc, i) && Valida(st.tabela)
    ensures i <= r.i < |tc| && Mantem(st, r.st)
    decreases |tc| - i, 11
  {
    var b := Atribuicao(tc, Consumir(tc, i, TPv), st);
    FechaEBloco(tc, b.i, b.st)
  }

  /**
   * `declaracao_funcao`: the parameters go into the current scope, the body
   * into a scope of its own, and the function's name is declared in the
   * current scope only after that scope is left.
   */
  function DeclaracaoFuncao(tc: seq<Token>, i: nat, st: Estado): (r: Volta)
    requires Pre(tc, i) && Valida(st.tabela) && Parser.At(tc, i, TFuncao)
    ensures i < r.i < |tc| && Mantem(st, r.st)
    decreases |tc| - i, 5
  {
    var i1 := Consumir(tc, i + 1, TIdentificador);
    var i2 := Consumir(tc, i1, TAbrePar);
    var p := if Parser.At(tc, i2, TIdentificador) then ListaParametros(tc, i2, st) else Volta(i2, st);
    CorpoFuncao(tc, p.i, p.st, tc[i + 1])
  }

  /** The rest of `declaracao_funcao` after the parameters: the body, then the declaration of `ident`. */
  function CorpoFuncao(tc: seq<Token>, i: nat, st: Estado, ident: Token): (r: Volta)
    requires Pre(tc, i) && Valida(st.tabela)
    ensures i <= r.i < |tc| && Mantem(st, r.st)
    decreases |tc| - i, 11
  {
    var b := FechaEBloco(tc, i, st);
    Volta(b.i, Declarar(b.st, ident.lexeme, "funcao", ident.line))
  }

  /** `lista_parametros`. */
  function ListaParametros(tc: seq<Token>, i: nat, st: Estado): (r: Volta)
    requires Pre(tc, i) && Valida(st.tabela)
    ensures i <= r.i < |tc| && Mantem(st, r.st)
  {
    var p := Parametro(tc, i, st);
    MaisParametros(tc, p.i, p.st)
  }

  /** The `while (consumir('t_virgula'))` loop of `lista_parametros`. */
  function MaisParametros(tc: seq<Token>, i: nat, st: Estado): (r: Volta)
    requires Pre(tc, i) && Valida(st.tabela)
    ensures i <= r.i < |tc| && Mantem(st, r.st)
    decreases |tc| - i
  {
    if Parser.At(tc, i, TVirgula) then
      var p := Parametro(tc, i + 1, st);
      MaisParametros(tc, p.i, p.st)
    else Volta(i, st)
  }

  /** `parametro`: `x : tipo`, declared and marked initialised. */
  function Parametro(tc: seq<Token>, i: nat, st: Estado): (r: Volta)
    requires Pre(tc, i) && Valida(st.tabela)
    ensures i <= r.i < |tc| && Mantem(st, r.st)
  {
    var ident := tc[i];
    var i1 := Consumir(tc, i, TIdentificador);
    var i2 := Consumir(tc, i1, TDoisPontos);
    var tipo := tc[i2];
    var st1 := Declarar(st, ident.lexeme, tipo.lexeme, ident.line);
    Volta(Consumir(tc, i2, TTipo), Inicializada(st1, ident.lexeme, ident.line))
  }

  /** `chamada_funcao`: `f ( argumentos ) ;`, then `marcarUsado(f)`. */
  function ChamadaFuncao(tc: seq<Token>, i: nat, st: Estado): (r: Volta)
    requires Pre(tc, i) && Valida(st.tabela) && Parser.At(tc, i, TIdentificador)
    ensures i < r.i < |tc| && Mantem(st, r.st)
  {
    var ident := tc[i];
    var i1 := Consumir(tc, i + 1, TAbrePar);
    var a := if InicioExpressao(tc[i1].kind) then ListaArgumentos(tc, i1, st) else Volta(i1, st);
    var i2 := Consumir(tc, a.i, TFechaPar);
    Volta(Consumir(tc, i2, TPv), Usada(a.st, ident.lexeme, ident.line))
  }

  /** `lista_argumentos`. */
  function ListaArgumentos(tc: seq<Token>, i: nat, st: Estado): (r: Volta)
    requires Pre(tc, i) && Valida(st.tabela)
    ensures i <= r.i < |tc| && Mantem(st, r.st)
  {
    var e := Expressao(tc, i, st);
    MaisArgumentos(tc, e.i, e.st)
  }

  /** The `while (consumir('t_virgula'))` loop of `lista_argumentos`. */
  function MaisArgumentos(tc: seq<Token>, i: nat, st: Estado): (r: Volta)
    requires Pre(tc, i) && Valida(st.tabela)
    ensures i <= r.i < |tc| && Mantem(st, r.st)
    decreases |tc| - i
  {
    if Parser.At(tc, i, TVirgula) then
      var e := Expressao(tc, i + 1, st);
      MaisArgumentos(tc, e.i, e.st)
    else Volta(i, st)
  }

  // --------------------------------------------------------- expressions

  /** `expressao`: `termo {(+|-) termo}`; its type is that of the first term. */
  function Expressao(tc: seq<Token>, i: nat, st: Estado): (r: Tipada)
    requires Pre(tc, i) && Valida(st.tabela)
    ensures i <= r.i < |tc| && Mantem(st, r.st)
    decreases |tc| - i, 4
  {
    var t := Termo(tc, i, st);
    MaisTermos(tc, t.i, t.st, t.tipo)
  }

  /** The `+`/`-` loop of `expressao`: each term is checked against the first one's type. */
  function MaisTermos(tc: seq<Token>, i: nat, st: Estado, tipo: string): (r: Tipada)
    requires Pre(tc, i) && Valida(st.tabela)
    ensures i <= r.i < |tc| && Mantem(st, r.st) && r.tipo == tipo
    decreases |tc| - i, 3
  {
    if Parser.At(tc, i, TSoma) || Parser.At(tc, i, TSubtracao) then
      var d := OutroTermo(tc, i, st, tipo);
      MaisTermos(tc, d.i, d.st, tipo)
    else Tipada(i, st, tipo)
  }

  /** One turn of that loop: the operator, the next operand, and the check of its type against `tipo`. */
  function OutroTermo(tc: seq<Token>, i: nat, st: Estado, tipo: string): (r: Tipada)
    requires Pre(tc, i) && Valida(st.tabela) && (Parser.At(tc, i, TSoma) || Parser.At(tc, i, TSubtracao))
    ensures i < r.i < |tc| && Mantem(st, r.st) && r.tipo == tipo
    decreases |tc| - i, 2
  {
    var d := Termo(tc, i + 1, st);
    Tipada(d.i, Verificar(d.st, tipo, d.tipo, tc[d.i - 1].line, NaOperacao(tc[i].lexeme)), tipo)
  }

  /** `termo`: `fator {(*|/) fator}`; its type is that of the first factor. */
  function Termo(tc: seq<Token>, i: nat, st: Estado): (r: Tipada)
    requires Pre(tc, i) && Valida(st.tabela)
    ensures i <= r.i < |tc| && Mantem(st, r.st)
    decreases |tc| - i, 2
  {
    var f := Fator(tc, i, st);
    MaisFatores(tc, f.i, f.st, f.tipo)
  }

  /** The `*`/`/` loop of `termo`. */
  function MaisFatores(tc: seq<Token>, i: nat, st: Estado, tipo: string): (r: Tipada)
    requires Pre(tc, i) && Valida(st.tabela)
    ensures i <= r.i < |tc| && Mantem(st, r.st) && r.tipo == tipo
    decreases |tc| - i, 1
  {
    if Parser.At(tc, i, TMultiplicacao) || Parser.At(tc, i, TDivisao) then
      var d := OutroFator(tc, i, st, tipo);
      MaisFatores(tc, d.i, d.st, tipo)
    else Tipada(i, st, tipo)
  }

  /** One turn of that loop: the operator, the next operand, and the check of its type against `tipo`. */
  function OutroFator(tc: seq<Token>, i: nat, st: Estado, tipo: string): (r: Tipada)
    requires Pre(tc, i) && Valida(st.tabela) && (Parser.At(tc, i, TMultiplicacao) || Parser.At(tc, i, TDivisao))
    ensures i < r.i < |tc| && Mantem(st, r.st) && r.tipo == tipo
    decreases |tc| - i, 0
  {
    var d := Fator(tc, i + 1, st);
    Tipada(d.i, Verificar(d.st, tipo, d.tipo, tc[d.i - 1].line, NaOperacao(tc[i].lexeme)), tipo)
  }

  /**
   * `fator`: a name is marked used and has its declared type (`desconhecido`
   * when undeclared); a number is `inteiro`; a parenthesised expression has
   * its type; anything else is `desconhecido` and is not consumed.
   */
  function Fator(tc: seq<Token>, i: nat, st: Estado): (r: Tipada)
    requires Pre(tc, i) && Valida(st.tabela)
    ensures i <= r.i < |tc| && Mantem(st, r.st)
    decreases |tc| - i, 0
  {
    if Parser.At(tc, i, TIdentificador) then
      var st1 := Usada(st, tc[i].lexeme, tc[i].line);
      Tipada(i + 1, st1, TipoDe(st1.tabela, tc[i].lexeme))
    else if Parser.At(tc, i, TNum) then Tipada(i + 1, st, "inteiro")
    else if Parser.At(tc, i, TAbrePar) then
      var e := Expressao(tc, i + 1, st);
      Tipada(Consumir(tc, e.i, TFechaPar), e.st, e.tipo)
    else Tipada(i, st, "desconhecido")
  }

  /** `simbolo ? simbolo.tipo : 'desconhecido'`. */
  function TipoDe(t: Tabela, nome: string): string
    requires Valida(t)
  {
    match Buscar(t, nome)
    case Some(p) => Em(t, p).tipo
    case None => "desconhecido"
  }

  /** `expressao_relacional`: `expressao [oprel expressao]`, the two sides checked. */
  function ExpressaoRelacional(tc: seq<Token>, i: nat, st: Estado): (r: Volta)
    requires Pre(tc, i) && Valida(st.tabela)
    ensures i <= r.i < |tc| && Mantem(st, r.st)
  {
    var e := Expressao(tc, i, st);
    if Parser.FirstOperadorRelacional(tc[e.i].kind) then
      var d := Expressao(tc, e.i + 1, e.st);
      Volta(d.i, Verificar(d.st, e.tipo, d.tipo, tc[d.i - 1].line, NaComparacao))
    else Volta(e.i, e.st)
  }

  // --------------------------------------------------------- entry point

  /** `tokensComFim`: the end marker on the line of the last token, or line 1. */
  function ComFim(ts: seq<Token>): (tc: seq<Token>)
    ensures |tc| == |ts| + 1 && tc[..|ts|] == ts && Pre(tc, 0)
  {
    var l := if ts == [] then 1 else ts[|ts| - 1].line;
    ts + [Token("$", TEnd, if l == 0 then 1 else l)]
  }

  /** What `analisarSemantico` gives back: its `erros`, or the `TypeError` it throws. */
  datatype Resultado = Erros(erros: seq<Mensagem>) | Excecao

  /** The state after `programa()`, from a fresh table. */
  function Programa(ts: seq<Token>): (r: Volta)
    ensures r.i < |ts| + 1 && Valida(r.st.tabela) && |r.st.tabela.escopos| == 1
  {
    Declaracoes(ComFim(ts), 0, Estado(Nova(), [], false))
  }

  /** `analisarSemantico`: the messages of the descent, then the unused-symbol warnings. */
  function AnalisarSemantico(ts: seq<Token>): (r: Resultado)
    ensures r.Excecao? <==> Programa(ts).st.quebrou
  {
    var p := Programa(ts);
    if p.st.quebrou then Excecao
    else Erros(p.st.erros + Avisos(p.st.tabela.escopos))
  }
}
