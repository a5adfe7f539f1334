/**
 * The semantic analyser `analisadorSemantico.js`: one pass over the token
 * list that keeps a symbol table (`tabelaSimbolos`), the error list, the
 * sets of used and initialised names and a stack of scope names.
 *
 * All of that state is the value `Estado`; every function below is one piece
 * of the pass as a function from the tokens, a position and the state to the
 * new state (and the position the source's loop variable ends on).  The
 * class in `semantic_exec.dfy` runs the same pass by updating fields and is
 * proved to agree with these functions.
 */
module Semantico {
  import opened Wrappers
  import opened Tokens

  // ----------------------------------------------------------------- data

  datatype Categoria = CatVariavel | CatFuncao

  /** A `Simbolo`; `valor`, `declarado` and the token kind never vary and are left out. */
  datatype Simbolo = Simbolo(
    cadeia: string, categoria: Categoria, tipo: string, escopo: string, linha: int,
    inicializado: bool, utilizado: bool)

  /** Where a type check happens, as named in the compatibility messages. */
  datatype Contexto = AtribuicaoA(nome: string) | ArgumentoDe(posicao: nat, funcao: string)

  /** The messages `adicionarErro` records, without their wording. */
  datatype SemMsg =
    | Redeclaracao(cadeia: string, escopo: string)
    | CastingParaDecimal(ctx: Contexto)
    | CastingParaInteiro(ctx: Contexto)
    | Incompativeis(ctx: Contexto, esperado: string, encontrado: string)
    | NaoDeclarada(nome: string)
    | UsadaAntesDeInicializada(nome: string)
    | FechaParExpressao
    | OperadorTexto(op: string)
    | OperadorLogico(op: string)
    | IdAposVariavel
    | DoisPontosVariavel
    | TipoEsperado
    | IdAposFuncao
    | DoisPontosParametro
    | TipoParametro
    | FechaParParametros
    | NaoInicializadaNaAtribuicao(nome: string)
    | FuncaoNaoDeclarada(nome: string)
    | NaoEhFuncao(nome: string)
    | FechaParChamada
    | NumeroDeArgumentos(chamada: string, parametros: nat, argumentos: nat)
    | DeclaradaNaoInicializada(nome: string)
    | DeclaradaNaoUtilizada(nome: string)

  /** "Erro semântico na linha N: ...". */
  datatype SemErro = SemErro(linha: int, msg: SemMsg)

  /** Everything the pass updates: the table, the messages, the two name sets and the scope stack. */
  datatype Estado = Estado(
    tabela: seq<Simbolo>, erros: seq<SemErro>, usadas: set<string>,
    inicializadas: set<string>, pilha: seq<string>)

  function Erro(st: Estado, linha: int, msg: SemMsg): (r: Estado)
    ensures r.erros == st.erros + [SemErro(linha, msg)]
    ensures r.tabela == st.tabela && r.pilha == st.pilha
  {
    st.(erros := st.erros + [SemErro(linha, msg)])
  }

  /** The top of the scope stack, `pilhaEscopos[pilhaEscopos.length - 1]`. */
  function Topo(pilha: seq<string>): string {
    if pilha == [] then "" else pilha[|pilha| - 1]
  }

  /** `tokens[i]?.tipo === k`. */
  predicate Tem(ts: seq<Token>, i: int, k: Kind) {
    0 <= i < |ts| && ts[i].kind == k
  }

  /** `tokens[i]?.linha || fallback`: a missing token or line 0 falls back. */
  function LinhaOu(ts: seq<Token>, i: int, fallback: int): int {
    if 0 <= i < |ts| && ts[i].line != 0 then ts[i].line else fallback
  }

  /** A JavaScript truthy type: present and not the empty string. */
  predicate Presente(t: Option<string>) {
    t.Some? && t.value != ""
  }

  predicate Aritmetico(k: Kind) {
    k == TSoma || k == TSubtracao || k == TMultiplicacao || k == TDivisao
  }

  predicate Relacional(k: Kind) {
    k == TMenor || k == TMaior || k == TIgualdade || k == TMenorIgual || k == TMaiorIgual
  }

  // -------------------------------------------------------- symbol table

  predicate Declarado(tabela: seq<Simbolo>, cadeia: string, escopo: string) {
    exists k :: 0 <= k < |tabela| && tabela[k].cadeia == cadeia && tabela[k].escopo == escopo
  }

  /** No two symbols share a name and a scope. */
  predicate Unicos(tabela: seq<Simbolo>) {
    forall a, b :: 0 <= a < b < |tabela| ==>
      !(tabela[a].cadeia == tabela[b].cadeia && tabela[a].escopo == tabela[b].escopo)
  }

  /**
   * `adicionarSimbolo` with the redeclaration reported in the error list and
   * the table left as it was (the source's own report crashes; see
   * `AdicionarSimboloAsWritten`).
   */
  function AdicionarSimbolo(st: Estado, cadeia: string, categoria: Categoria, tipo: string,
                            escopo: string, linha: int): (r: Estado)
    ensures r.pilha == st.pilha && r.usadas == st.usadas && r.inicializadas == st.inicializadas
    ensures Declarado(st.tabela, cadeia, escopo) ==>
      r.tabela == st.tabela && r.erros == st.erros + [SemErro(linha, Redeclaracao(cadeia, escopo))]
    ensures !Declarado(st.tabela, cadeia, escopo) ==>
      r.erros == st.erros &&
      r.tabela == st.tabela + [Simbolo(cadeia, categoria, tipo, escopo, linha, false, false)]
  {
    if Declarado(st.tabela, cadeia, escopo) then Erro(st, linha, Redeclaracao(cadeia, escopo))
    else st.(tabela := st.tabela + [Simbolo(cadeia, categoria, tipo, escopo, linha, false, false)])
  }

  /** A symbol `obterSimbolo` accepts: the name, in the given scope or in `global`. */
  predicate Visivel(s: Simbolo, cadeia: string, escopo: string) {
    s.cadeia == cadeia && (s.escopo == escopo || s.escopo == "global")
  }

  /** `obterSimbolo`: the index of the first visible symbol of that name, or none. */
  function ObterSimbolo(tabela: seq<Simbolo>, cadeia: string, escopo: string): (r: Option<nat>)
    ensures r.Some? ==> r.value < |tabela| && Visivel(tabela[r.value], cadeia, escopo)
    ensures r.Some? ==> forall j :: 0 <= j < r.value ==> !Visivel(tabela[j], cadeia, escopo)
    ensures r.None? ==> forall j :: 0 <= j < |tabela| ==> !Visivel(tabela[j], cadeia, escopo)
  {
    ObterDesde(tabela, cadeia, escopo, 0)
  }

  function ObterDesde(tabela: seq<Simbolo>, cadeia: string, escopo: string, k: nat): (r: Option<nat>)
    requires k <= |tabela|
    ensures r.Some? ==> k <= r.value < |tabela| && Visivel(tabela[r.value], cadeia, escopo)
    ensures r.Some? ==> forall j :: k <= j < r.value ==> !Visivel(tabela[j], cadeia, escopo)
    ensures r.None? ==> forall j :: k <= j < |tabela| ==> !Visivel(tabela[j], cadeia, escopo)
    decreases |tabela| - k
  {
    if k == |tabela| then None
    else if Visivel(tabela[k], cadeia, escopo) then Some(k)
    else ObterDesde(tabela, cadeia, escopo, k + 1)
  }

  /** `simbolo.utilizado = true` and `variaveisUsadas.add(nome)`. */
  function Marcar(st: Estado, k: nat, nome: string): (r: Estado)
    requires k < |st.tabela|
    ensures |r.tabela| == |st.tabela| && r.pilha == st.pilha && r.erros == st.erros
    ensures r.tabela[k].utilizado && nome in r.usadas
  {
    st.(tabela := st.tabela[k := st.tabela[k].(utilizado := true)], usadas := st.usadas + {nome})
  }

  /** `simbolo.inicializado = true` and `variaveisInicializadas.add(nome)`. */
  function Inicializado(st: Estado, k: nat, nome: string): (r: Estado)
    requires k < |st.tabela|
    ensures |r.tabela| == |st.tabela| && r.pilha == st.pilha && r.erros == st.erros
    ensures r.tabela[k].inicializado && nome in r.inicializadas
  {
    st.(tabela := st.tabela[k := st.tabela[k].(inicializado := true)],
        inicializadas := st.inicializadas + {nome})
  }

  // ------------------------------------------------------ type checking

  /** What `verificarCompatibilidadeTipos` returns, with the messages it adds. */
  datatype Verificacao = Verificacao(ok: bool, avisos: seq<SemErro>)

  predicate Numericos(esq: string, dir: string) {
    (esq == "decimal" && dir == "inteiro") || (esq == "inteiro" && dir == "decimal")
  }

  /**
   * `verificarCompatibilidadeTipos`: equal types pass silently, `inteiro`
   * and `decimal` pass with one implicit-cast message, anything else fails
   * with one incompatibility message.
   */
  function Compatibilidade(esq: string, dir: string, linha: int, ctx: Contexto): (r: Verificacao)
    ensures r.ok <==> esq == dir || Numericos(esq, dir)
    ensures r.avisos == [] <==> esq == dir
    ensures esq != dir ==> |r.avisos| == 1 && r.avisos[0].linha == linha
    ensures !r.ok ==> r.avisos == [SemErro(linha, Incompativeis(ctx, esq, dir))]
  {
    if esq == dir then Verificacao(true, [])
    else if esq == "decimal" && dir == "inteiro" then Verificacao(true, [SemErro(linha, CastingParaDecimal(ctx))])
    else if esq == "inteiro" && dir == "decimal" then Verificacao(true, [SemErro(linha, CastingParaInteiro(ctx))])
    else Verificacao(false, [SemErro(linha, Incompativeis(ctx, esq, dir))])
  }

  function Verificado(st: Estado, esq: string, dir: string, linha: int, ctx: Contexto): (r: Estado)
    ensures r.tabela == st.tabela && r.pilha == st.pilha
  {
    st.(erros := st.erros + Compatibilidade(esq, dir, linha, ctx).avisos)
  }

  /** The type an arithmetic operator leaves, and the message it adds. */
  datatype Combinacao = Combinacao(tipo: Option<string>, avisos: seq<SemErro>)

  predicate NaoNumerico(t: string) { t == "texto" || t == "logico" }

  /**
   * The `+ - * /` case of `processarExpressao`: with both sides typed, a
   * `texto` or `logico` side gives one message and no type, and otherwise
   * the result is `decimal` when a side is, else `inteiro`; with a side
   * missing the left type stays.
   */
  function CombinarAritmetico(op: Token, esq: Option<string>, dir: Option<string>): (c: Combinacao)
    ensures |c.avisos| <= 1
    ensures |c.avisos| == 1 <==>
      Presente(esq) && Presente(dir) && (NaoNumerico(esq.value) || NaoNumerico(dir.value))
    ensures |c.avisos| == 1 ==> c.tipo.None? && c.avisos[0].linha == op.line
    ensures !(Presente(esq) && Presente(dir)) ==> c == Combinacao(esq, [])
    ensures Presente(esq) && Presente(dir) && c.avisos == [] ==>
      c.tipo == Some("decimal") || c.tipo == Some("inteiro")
    ensures c.tipo == Some("decimal") <==>
      (Presente(esq) && Presente(dir) && !NaoNumerico(esq.value) && !NaoNumerico(dir.value) &&
       (esq.value == "decimal" || dir.value == "decimal")) ||
      (!(Presente(esq) && Presente(dir)) && esq == Some("decimal"))
  {
    if Presente(esq) && Presente(dir) then
      if esq.value == "texto" || dir.value == "texto" then
        Combinacao(None, [SemErro(op.line, OperadorTexto(op.lexeme))])
      else if esq.value == "logico" || dir.value == "logico" then
        Combinacao(None, [SemErro(op.line, OperadorLogico(op.lexeme))])
      else Combinacao(Some(if esq.value == "decimal" || dir.value == "decimal" then "decimal" else "inteiro"), [])
    else Combinacao(esq, [])
  }

  // --------------------------------------------------- processarExpressao

  /** `{ tipo, indice }` returned by `processarExpressao`, with the state it leaves. */
  datatype Avaliacao = Avaliacao(tipo: Option<string>, indice: int, st: Estado)

  /** One turn of the expression loop: stop (`break`) or go on at `prox` with a type. */
  datatype PassoExpr = Pare | Segue(prox: nat, tipo: Option<string>, st: Estado)

  /** The state an expression may change: messages, flags, the used set; never the table's size. */
  predicate Mantem(a: Estado, b: Estado) {
    MesmasChaves(a.tabela, b.tabela) && b.pilha == a.pilha && b.inicializadas == a.inicializadas
  }

  /** `b` keeps every symbol of `a`, by name and scope, at its place, and may add more after them. */
  predicate Estende(a: seq<Simbolo>, b: seq<Simbolo>) {
    |a| <= |b| && forall k :: 0 <= k < |a| ==> b[k].cadeia == a[k].cadeia && b[k].escopo == a[k].escopo
  }

  /** The same symbols, by name and scope, in the same order; only their flags may differ. */
  predicate MesmasChaves(a: seq<Simbolo>, b: seq<Simbolo>) {
    |a| == |b| && forall k :: 0 <= k < |a| ==> b[k].cadeia == a[k].cadeia && b[k].escopo == a[k].escopo
  }

  /** `processarExpressao(i, ...)`: the loop from `i` with no type yet. */
  function Expressao(ts: seq<Token>, i: nat, st: Estado): (r: Avaliacao)
    requires i <= |ts|
    ensures i - 1 <= r.indice < |ts| && Mantem(st, r.st)
    decreases |ts| - i, 3
  {
    Laco(ts, i, None, st)
  }

  /** The `while (i < tokens.length)` loop of `processarExpressao`. */
  function Laco(ts: seq<Token>, i: nat, tipo: Option<string>, st: Estado): (r: Avaliacao)
    requires i <= |ts|
    ensures i - 1 <= r.indice < |ts| && Mantem(st, r.st)
    decreases |ts| - i, 2
  {
    if i == |ts| then Avaliacao(tipo, i - 1, st)
    else
      match PassoExpressao(ts, i, tipo, st)
      case Pare => Avaliacao(tipo, i - 1, st)
      case Segue(j, t, st1) => Laco(ts, j, t, st1)
  }

  /** The body of that loop for the token at `i`, ending with its `i++`. */
  function PassoExpressao(ts: seq<Token>, i: nat, tipo: Option<string>, st: Estado): (p: PassoExpr)
    requires i < |ts|
    ensures p.Segue? ==> i < p.prox <= |ts| && Mantem(st, p.st)
    decreases |ts| - i, 1
  {
    var k := ts[i].kind;
    if k == TIdentificador then UsoEmExpressao(ts, i, tipo, st)
    else if k == TNum then Segue(i + 1, Some("inteiro"), st)
    else if k == TNumDecimal then Segue(i + 1, Some("decimal"), st)
    else if k == TString then Segue(i + 1, Some("texto"), st)
    else if k == TAbrePar then Parenteses(ts, i, st)
    else if Aritmetico(k) then OperacaoAritmetica(ts, i, tipo, st)
    else if Relacional(k) then OperacaoRelacional(ts, i, st)
    else Pare
  }

  /** An identifier inside an expression: look it up, mark it used, take its type. */
  function UsoEmExpressao(ts: seq<Token>, i: nat, tipo: Option<string>, st: Estado): (p: PassoExpr)
    requires i < |ts|
    ensures p.Segue? && p.prox == i + 1 && Mantem(st, p.st)
  {
    var tok := ts[i];
    match ObterSimbolo(st.tabela, tok.lexeme, Topo(st.pilha))
    case None => Segue(i + 1, tipo, Erro(st, tok.line, NaoDeclarada(tok.lexeme)))
    case Some(k) =>
      var s := st.tabela[k];
      var st1 := Marcar(st, k, tok.lexeme);
      Segue(i + 1, Some(s.tipo),
        if s.inicializado then st1 else Erro(st1, tok.line, UsadaAntesDeInicializada(tok.lexeme)))
  }

  /**
   * `( expressao )`: the inner expression, then its `)` is checked at the
   * token after the inner expression's last token and stepped over.
   * See `ParentesesAsWritten` for the check the source makes.
   */
  function Parenteses(ts: seq<Token>, i: nat, st: Estado): (p: PassoExpr)
    requires i < |ts|
    ensures p.Segue? && i < p.prox <= |ts| && Mantem(st, p.st)
    decreases |ts| - i, 0
  {
    var r := Expressao(ts, i + 1, st);
    if Tem(ts, r.indice + 1, TFechaPar) then Segue(r.indice + 2, r.tipo, r.st)
    else Segue(r.indice + 1, r.tipo, Erro(r.st, LinhaOu(ts, r.indice + 1, ts[i].line), FechaParExpressao))
  }

  /** `+ - * /`: the rest of the expression is the right operand. */
  function OperacaoAritmetica(ts: seq<Token>, i: nat, tipo: Option<string>, st: Estado): (p: PassoExpr)
    requires i < |ts|
    ensures p.Segue? && i < p.prox <= |ts| && Mantem(st, p.st)
    decreases |ts| - i, 0
  {
    var r := Expressao(ts, i + 1, st);
    var c := CombinarAritmetico(ts[i], tipo, r.tipo);
    Segue(r.indice + 1, c.tipo, r.st.(erros := r.st.erros + c.avisos))
  }

  /** `< > == <= >=`: the rest of the expression is the right operand; the type is `logico`. */
  function OperacaoRelacional(ts: seq<Token>, i: nat, st: Estado): (p: PassoExpr)
    requires i < |ts|
    ensures p.Segue? && i < p.prox <= |ts| && Mantem(st, p.st) && p.tipo == Some("logico")
    decreases |ts| - i, 0
  {
    var r := Expressao(ts, i + 1, st);
    Segue(r.indice + 1, Some("logico"), r.st)
  }

  // ------------------------------------------------ obterParametrosFuncao

  datatype Parametro = Parametro(nome: string, tipo: string)

  /** The first `funcao nome` in the token list. */
  function BuscarFuncao(ts: seq<Token>, nome: string, i: nat): (r: Option<nat>)
    requires i <= |ts|
    ensures r.Some? ==>
      i <= r.value && r.value + 1 < |ts| && ts[r.value].kind == TFuncao && ts[r.value + 1].lexeme == nome
    ensures r.Some? ==> forall j :: i <= j < r.value ==> !(ts[j].kind == TFuncao && j + 1 < |ts| && ts[j + 1].lexeme == nome)
    ensures r.None? ==> forall j :: i <= j < |ts| ==> !(ts[j].kind == TFuncao && j + 1 < |ts| && ts[j + 1].lexeme == nome)
    decreases |ts| - i
  {
    if i == |ts| then None
    else if ts[i].kind == TFuncao && i + 1 < |ts| && ts[i + 1].lexeme == nome then Some(i)
    else BuscarFuncao(ts, nome, i + 1)
  }

  /** The index after one parameter and the parameters read so far. */
  datatype Leitura = Leitura(fim: nat, ps: seq<Parametro>)

  /**
   * One turn of the loop of `obterParametrosFuncao` at the identifier `i`:
   * `nome : tipo` is kept, a parameter without `:` or without a type is
   * dropped, and the index moves past what was read.
   */
  function LerParametro(ts: seq<Token>, i: nat, acc: seq<Parametro>): (l: Leitura)
    requires i < |ts|
    ensures i + 2 <= l.fim <= i + 3
    ensures Tem(ts, i + 1, TDoisPontos) && Tem(ts, i + 2, TTipo) ==>
      l.ps == acc + [Parametro(ts[i].lexeme, ts[i + 2].lexeme)]
    ensures !(Tem(ts, i + 1, TDoisPontos) && Tem(ts, i + 2, TTipo)) ==> l.ps == acc
  {
    if !Tem(ts, i + 1, TDoisPontos) then Leitura(i + 2, acc)
    else if Tem(ts, i + 2, TTipo) then Leitura(i + 3, acc + [Parametro(ts[i].lexeme, ts[i + 2].lexeme)])
    else Leitura(i + 3, acc)
  }

  /** The `while (tokens[i]?.tipo === 't_identificador')` loop of `obterParametrosFuncao`. */
  function LerParametros(ts: seq<Token>, i: nat, acc: seq<Parametro>): (ps: seq<Parametro>)
    requires i <= |ts|
    ensures acc <= ps && |ps| - |acc| <= |ts| - i
    decreases |ts| - i
  {
    if !Tem(ts, i, TIdentificador) then acc
    else
      var l := LerParametro(ts, i, acc);
      if Tem(ts, l.fim, TVirgula) then LerParametros(ts, l.fim + 1, l.ps) else l.ps
  }

  /** `obterParametrosFuncao`: the typed parameters of the first `funcao nome (`. */
  function ParametrosDeclarados(ts: seq<Token>, nome: string): (ps: seq<Parametro>)
    ensures |ps| <= |ts|
  {
    match BuscarFuncao(ts, nome, 0)
    case None => []
    case Some(i) => if Tem(ts, i + 2, TAbrePar) then LerParametros(ts, i + 3, []) else []
  }

  // --------------------------------------------------- analisarSemantico

  /** Where the loop variable `i` stands at the end of one turn (before `i++`), and the state. */
  datatype Volta = Volta(j: nat, st: Estado)

  /** `variavel nome : tipo [= expressao]`. */
  function Variavel(ts: seq<Token>, i: nat, st: Estado): (v: Volta)
    requires i < |ts|
    ensures i < v.j <= |ts| && v.st.pilha == st.pilha
  {
    var tok := ts[i];
    var escopo := Topo(st.pilha);
    if !Tem(ts, i + 1, TIdentificador) then Volta(i + 1, Erro(st, tok.line, IdAposVariavel))
    else if !Tem(ts, i + 2, TDoisPontos) then
      Volta(i + 2, Erro(st, LinhaOu(ts, i + 2, tok.line), DoisPontosVariavel))
    else if !Tem(ts, i + 3, TTipo) then
      Volta(i + 3, Erro(st, LinhaOu(ts, i + 3, tok.line), TipoEsperado))
    else
      var nome := ts[i + 1].lexeme;
      var tipo := ts[i + 3].lexeme;
      var st1 := AdicionarSimbolo(st, nome, CatVariavel, tipo, escopo, tok.line);
      if Tem(ts, i + 4, TAtribuicao) then Inicializacao(ts, i + 5, nome, tipo, escopo, tok.line, st1)
      else Volta(i + 3, st1)
  }

  /** `= expressao` of a declaration: check the type, then mark the variable initialised. */
  function Inicializacao(ts: seq<Token>, e: nat, nome: string, tipo: string, escopo: string,
                         linha: int, st: Estado): (v: Volta)
    requires 1 <= e <= |ts|
    ensures e - 1 <= v.j < |ts| && v.st.pilha == st.pilha
  {
    var r := Expressao(ts, e, st);
    match ObterSimbolo(r.st.tabela, nome, escopo)
    case None => Volta(r.indice, r.st)
    case Some(k) =>
      var st1 := if Presente(r.tipo) then Verificado(r.st, tipo, r.tipo.value, linha, AtribuicaoA(nome)) else r.st;
      Volta(r.indice, Inicializado(st1, k, nome))
  }

  /** `funcao nome ( parametros )`: open the scope `nome`, declare `nome` in `global`. */
  function Funcao(ts: seq<Token>, i: nat, st: Estado): (v: Volta)
    requires i < |ts|
    ensures i < v.j <= |ts|
    ensures Tem(ts, i + 1, TIdentificador) ==> v.st.pilha == st.pilha + [ts[i + 1].lexeme]
    ensures !Tem(ts, i + 1, TIdentificador) ==> v.st.pilha == st.pilha
  {
    var tok := ts[i];
    if !Tem(ts, i + 1, TIdentificador) then Volta(i + 1, Erro(st, tok.line, IdAposFuncao))
    else
      var nome := ts[i + 1].lexeme;
      var st1 := AdicionarSimbolo(st.(pilha := st.pilha + [nome]), nome, CatFuncao, "void", "global", tok.line);
      if !Tem(ts, i + 2, TAbrePar) then Volta(i + 2, st1)
      else
        var v := Parametros(ts, i + 3, nome, tok.line, st1);
        if Tem(ts, v.j, TFechaPar) then v
        else Volta(v.j, Erro(v.st, LinhaOu(ts, v.j, tok.line), FechaParParametros))
  }

  /** The parameter loop of a declaration: each `nome : tipo` goes into the function's scope. */
  function Parametros(ts: seq<Token>, i: nat, funcao: string, linha: int, st: Estado): (v: Volta)
    requires i <= |ts|
    ensures i <= v.j <= |ts| && v.st.pilha == st.pilha
    decreases |ts| - i
  {
    if !Tem(ts, i, TIdentificador) then Volta(i, st)
    else
      var (p, segue) := UmParametro(ts, i, funcao, linha, st);
      if segue then Parametros(ts, p.j, funcao, linha, p.st) else p
  }

  /**
   * One turn of that loop from the name at `i`: a missing `:` or type is
   * reported and the loop goes on after it; a `nome : tipo` is declared and
   * initialised, and the loop goes on only past a `,`.
   */
  function UmParametro(ts: seq<Token>, i: nat, funcao: string, linha: int, st: Estado): (r: (Volta, bool))
    requires Tem(ts, i, TIdentificador)
    ensures i < r.0.j <= |ts| && r.0.st.pilha == st.pilha
    ensures st.tabela <= r.0.st.tabela && st.inicializadas <= r.0.st.inicializadas
  {
    if !Tem(ts, i + 1, TDoisPontos) then
      (Volta(i + 1, Erro(st, LinhaOu(ts, i + 1, linha), DoisPontosParametro)), true)
    else if !Tem(ts, i + 2, TTipo) then
      (Volta(i + 2, Erro(st, LinhaOu(ts, i + 2, linha), TipoParametro)), true)
    else
      var nome := ts[i].lexeme;
      var st1 := AdicionarSimbolo(st, nome, CatVariavel, ts[i + 2].lexeme, funcao, linha);
      var st2 := st1.(inicializadas := st1.inicializadas + {nome});
      if Tem(ts, i + 3, TVirgula) then (Volta(i + 4, st2), true) else (Volta(i + 3, st2), false)
  }

  /** The scan for `usaProprioValor`: past operators, is the first other token the name itself? */
  predicate UsaProprioValor(ts: seq<Token>, j: nat, nome: string)
    decreases |ts| - j
  {
    j < |ts| &&
    ((ts[j].kind == TIdentificador && ts[j].lexeme == nome) ||
     (!(ts[j].kind == TIdentificador && ts[j].lexeme == nome) &&
      (Aritmetico(ts[j].kind) || Relacional(ts[j].kind)) && UsaProprioValor(ts, j + 1, nome)))
  }

  /** `nome = expressao`. */
  function Atribuicao(ts: seq<Token>, i: nat, st: Estado): (v: Volta)
    requires i + 1 < |ts|
    ensures i < v.j <= |ts| && v.st.pilha == st.pilha
  {
    var tok := ts[i];
    var nome := tok.lexeme;
    match ObterSimbolo(st.tabela, nome, Topo(st.pilha))
    case None => Volta(i + 2, Erro(st, tok.line, NaoDeclarada(nome)))
    case Some(k) =>
      var s := st.tabela[k];
      var st1 := if !s.inicializado && UsaProprioValor(ts, i + 2, nome)
        then Erro(st, tok.line, NaoInicializadaNaAtribuicao(nome)) else st;
      var r := Expressao(ts, i + 2, st1);
      var st2 := if Presente(r.tipo) then Verificado(r.st, s.tipo, r.tipo.value, tok.line, AtribuicaoA(nome)) else r.st;
      Volta(r.indice, Inicializado(st2, k, nome))
  }

  /** The types of the arguments of a call, the index it stops at and the state. */
  datatype Lista = Lista(fim: nat, tipos: seq<string>, st: Estado)

  /**
   * One turn of the argument loop of a call: the argument is one
   * `processarExpressao`, its type kept when it has one, and a `,` after it
   * is stepped over.
   */
  function Argumento(ts: seq<Token>, i: nat, tipos: seq<string>, st: Estado): (a: Lista)
    requires i < |ts|
    ensures i <= a.fim <= |ts| && Mantem(st, a.st) && tipos <= a.tipos
  {
    var r := Expressao(ts, i, st);
    var tipos1 := if Presente(r.tipo) then tipos + [r.tipo.value] else tipos;
    var k := r.indice + 1;
    Lista(if Tem(ts, k, TVirgula) then k + 1 else k, tipos1, r.st)
  }

  /**
   * The argument loop of a call, up to `)` or the end.  It also stops when
   * a turn consumes nothing (an argument that is not an expression and no
   * `,` after it; see `ArgumentoAsWritten` for the source's loop, which then
   * spins).
   */
  function Argumentos(ts: seq<Token>, i: nat, tipos: seq<string>, st: Estado): (a: Lista)
    requires i <= |ts|
    ensures i <= a.fim <= |ts| && Mantem(st, a.st) && tipos <= a.tipos
    decreases |ts| - i
  {
    if i == |ts| || ts[i].kind == TFechaPar then Lista(i, tipos, st)
    else
      var a := Argumento(ts, i, tipos, st);
      if a.fim == i then a else Argumentos(ts, a.fim, a.tipos, a.st)
  }

  /** The `for` loop checking argument `j` against parameter `j`, from `j` on. */
  function ChecarArgumentos(tipos: seq<string>, ps: seq<Parametro>, linha: int, funcao: string, j: nat): (avisos: seq<SemErro>)
    requires |tipos| == |ps| && j <= |tipos|
    ensures |avisos| <= |tipos| - j
    ensures (forall n :: j <= n < |tipos| ==> ps[n].tipo == tipos[n]) ==> avisos == []
    decreases |tipos| - j
  {
    if j == |tipos| then []
    else
      Compatibilidade(ps[j].tipo, tipos[j], linha, ArgumentoDe(j + 1, funcao)).avisos
        + ChecarArgumentos(tipos, ps, linha, funcao, j + 1)
  }

  /** `nome ( argumentos )`. */
  function Chamada(ts: seq<Token>, i: nat, st: Estado): (v: Volta)
    requires i + 1 < |ts|
    ensures i <= v.j <= |ts| && v.st.pilha == st.pilha
  {
    var tok := ts[i];
    var nome := tok.lexeme;
    match ObterSimbolo(st.tabela, nome, Topo(st.pilha))
    case None => Volta(i, Erro(st, tok.line, FuncaoNaoDeclarada(nome)))
    case Some(k) =>
      if st.tabela[k].categoria != CatFuncao then Volta(i, Erro(st, tok.line, NaoEhFuncao(nome)))
      else
        var st1 := st.(tabela := st.tabela[k := st.tabela[k].(utilizado := true)]);
        var a := Argumentos(ts, i + 2, [], st1);
        var st2 := if Tem(ts, a.fim, TFechaPar) then a.st
          else Erro(a.st, LinhaOu(ts, a.fim, tok.line), FechaParChamada);
        var ps := ParametrosDeclarados(ts, nome);
        if |a.tipos| != |ps| then
          Volta(a.fim, Erro(st2, tok.line, NumeroDeArgumentos(nome, |ps|, |a.tipos|)))
        else Volta(a.fim, st2.(erros := st2.erros + ChecarArgumentos(a.tipos, ps, tok.line, nome, 0)))
  }

  /** Any other identifier: look it up and mark it used. */
  function Uso(ts: seq<Token>, i: nat, st: Estado): (v: Volta)
    requires i < |ts|
    ensures v.j == i && v.st.pilha == st.pilha && |v.st.tabela| == |st.tabela|
  {
    var tok := ts[i];
    match ObterSimbolo(st.tabela, tok.lexeme, Topo(st.pilha))
    case None => Volta(i, Erro(st, tok.line, NaoDeclarada(tok.lexeme)))
    case Some(k) => Volta(i, Marcar(st, k, tok.lexeme))
  }

  /** One turn of the main `for` loop. */
  function Passo(ts: seq<Token>, i: nat, st: Estado): (v: Volta)
    requires i < |ts|
    ensures i <= v.j <= |ts|
  {
    var k := ts[i].kind;
    if k == TVariavel then Variavel(ts, i, st)
    else if k == TFuncao then Funcao(ts, i, st)
    else if k == TIdentificador && Tem(ts, i + 1, TAtribuicao) then Atribuicao(ts, i, st)
    else if k == TIdentificador && Tem(ts, i + 1, TAbrePar) then Chamada(ts, i, st)
    else if k == TIdentificador then Uso(ts, i, st)
    else if k == TFechaChave && |st.pilha| > 1 then Volta(i, st.(pilha := st.pilha[..|st.pilha| - 1]))
    else Volta(i, st)
  }

  /** The main `for` loop from `i`. */
  function Principal(ts: seq<Token>, i: nat, st: Estado): (r: Estado)
    requires i <= |ts| + 1
    decreases |ts| + 1 - i
  {
    if i >= |ts| then st
    else
      var v := Passo(ts, i, st);
      Principal(ts, v.j + 1, v.st)
  }

  /** One turn of the main loop, then the rest of it. */
  lemma PrincipalPasso(ts: seq<Token>, i: nat, st: Estado)
    requires i < |ts|
    ensures Principal(ts, i, st) == Principal(ts, Passo(ts, i, st).j + 1, Passo(ts, i, st).st)
  {
  }

  // ------------------------------------------------------- final reports

  predicate SemInicializacao(s: Simbolo, inicializadas: set<string>) {
    s.categoria == CatVariavel && !s.inicializado && s.cadeia !in inicializadas
  }

  predicate SemUso(s: Simbolo, usadas: set<string>) {
    s.categoria == CatVariavel && !s.utilizado && s.cadeia !in usadas
  }

  /** The first `forEach`: one message per variable never initialised, at its line. */
  function NaoInicializadas(tabela: seq<Simbolo>, inicializadas: set<string>): (avisos: seq<SemErro>)
    ensures |avisos| <= |tabela|
  {
    if tabela == [] then []
    else
      var s := tabela[|tabela| - 1];
      NaoInicializadas(tabela[..|tabela| - 1], inicializadas)
      + (if SemInicializacao(s, inicializadas) then [SemErro(s.linha, DeclaradaNaoInicializada(s.cadeia))] else [])
  }

  /** The second `forEach`: one message per variable never used, at its line. */
  function NaoUtilizadas(tabela: seq<Simbolo>, usadas: set<string>): (avisos: seq<SemErro>)
    ensures |avisos| <= |tabela|
  {
    if tabela == [] then []
    else
      var s := tabela[|tabela| - 1];
      NaoUtilizadas(tabela[..|tabela| - 1], usadas)
      + (if SemUso(s, usadas) then [SemErro(s.linha, DeclaradaNaoUtilizada(s.cadeia))] else [])
  }

  /** An entry of the returned `tabelaSimbolos` array. */
  datatype Entrada = Entrada(nome: string, tipo: string, linha: int, escopo: string,
                             inicializado: bool, usado: bool)

  function Exportar(tabela: seq<Simbolo>): (es: seq<Entrada>)
    ensures |es| == |tabela|
    ensures forall k :: 0 <= k < |tabela| ==> es[k].nome == tabela[k].cadeia && es[k].escopo == tabela[k].escopo
  {
    if tabela == [] then []
    else
      var s := tabela[0];
      [Entrada(s.cadeia, s.tipo, s.linha, s.escopo, s.inicializado, s.utilizado)] + Exportar(tabela[1..])
  }

  datatype Resultado = Resultado(erros: seq<SemErro>, tabela: seq<Entrada>)

  function Inicial(tabela: seq<Simbolo>): Estado {
    Estado(tabela, [], {}, {}, ["global"])
  }

  /** `analisarSemantico(tokens, tabelaSimbolosInicial)`. */
  function AnalisarSemantico(ts: seq<Token>, inicial: seq<Simbolo>): (r: Resultado)
  {
    var st := Principal(ts, 0, Inicial(inicial));
    Resultado(st.erros + NaoInicializadas(st.tabela, st.inicializadas) + NaoUtilizadas(st.tabela, st.usadas),
      Exportar(st.tabela))
  }
}
