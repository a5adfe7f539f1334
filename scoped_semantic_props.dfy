/**
 * Properties of the driver of `analisardorSemantico.js` (`SemanticoEscopos`):
 * what each part of the descent does to the symbols the table holds.
 *
 * `Forma` forgets the two flags of every symbol and keeps, scope by scope,
 * the name, type and line of each.  Then:
 *  - an expression, an assignment, a call, a `se`, an `enquanto`, a `para`
 *    and every block leave `Forma` as it was: what a block declares is
 *    dropped with its scope (`Preserva`);
 *  - a declaration only appends to the current (innermost) scope and leaves
 *    the scopes below it alone (`Avanca`);
 *  - in every case messages are only ever appended.
 * A function's own symbol lands in the current scope after its body's scope
 * has gone (`FuncaoDepoisDoCorpo`).
 */
module SemanticoEscoposProps {
  import opened Wrappers
  import opened Tokens
  import opened TabelaEscopos
  import Parser
  import opened SemanticoEscopos

  // ------------------------------------------------------------- shapes

  /** A symbol without its flags. */
  datatype Cabeca = Cabeca(nome: string, tipo: string, linha: int)

  function CabecaDe(s: Simbolo): Cabeca {
    Cabeca(s.nome, s.tipo, s.linha)
  }

  /** The symbols of one scope, without their flags. */
  function Cabecas(escopo: seq<Simbolo>): (r: seq<Cabeca>)
    ensures |r| == |escopo|
    ensures forall k :: 0 <= k < |escopo| ==> r[k] == CabecaDe(escopo[k])
  {
    seq(|escopo|, k requires 0 <= k < |escopo| => CabecaDe(escopo[k]))
  }

  /** The symbols of every scope, without their flags. */
  function Forma(t: Tabela): (r: seq<seq<Cabeca>>)
    ensures |r| == |t.escopos|
    ensures forall s :: 0 <= s < |t.escopos| ==> r[s] == Cabecas(t.escopos[s])
  {
    seq(|t.escopos|, s requires 0 <= s < |t.escopos| => Cabecas(t.escopos[s]))
  }

  /** From `a` to `b` the declared symbols are the same and messages were only appended. */
  predicate Preserva(a: Estado, b: Estado) {
    Forma(b.tabela) == Forma(a.tabela) && a.erros <= b.erros
  }

  /**
   * From `a` to `b` the scopes below the innermost one kept their symbols,
   * the innermost one only gained symbols at its end, and messages were only
   * appended.
   */
  predicate Avanca(a: Estado, b: Estado) {
    var n := |a.tabela.escopos|;
    n >= 1 && |b.tabela.escopos| == n
    && Forma(b.tabela)[..n - 1] == Forma(a.tabela)[..n - 1]
    && Forma(a.tabela)[n - 1] <= Forma(b.tabela)[n - 1]
    && a.erros <= b.erros
  }

  lemma PreservaAvanca(a: Estado, b: Estado)
    requires |a.tabela.escopos| >= 1 && Preserva(a, b)
    ensures Avanca(a, b)
  {
  }

  lemma PreservaTrans(a: Estado, b: Estado, c: Estado)
    requires Preserva(a, b) && Preserva(b, c)
    ensures Preserva(a, c)
  {
  }

  lemma AvancaTrans(a: Estado, b: Estado, c: Estado)
    requires Avanca(a, b) && Avanca(b, c)
    ensures Avanca(a, c)
  {
    var n := |a.tabela.escopos|;
    assert Forma(c.tabela)[..n - 1] == Forma(a.tabela)[..n - 1];
  }

  // ------------------------------------------------- the table functions

  /** Replacing a symbol by one with the same name, type and line keeps the shape. */
  lemma AtualizarForma(t: Tabela, p: Pos, s: Simbolo)
    requires p.escopo < |t.escopos| && p.indice < |t.escopos[p.escopo]|
    requires CabecaDe(s) == CabecaDe(Em(t, p))
    ensures Forma(Atualizar(t, p, s)) == Forma(t)
  {
    var r := Atualizar(t, p, s);
    assert Cabecas(r.escopos[p.escopo]) == Cabecas(t.escopos[p.escopo]);
    assert forall e :: 0 <= e < |t.escopos| ==> Forma(r)[e] == Forma(t)[e];
  }

  /** Scopes with the same names give the same answer to `Procurar`. */
  lemma {:induction false} ProcurarDesdeForma(a: seq<Simbolo>, b: seq<Simbolo>, nome: string, k: nat)
    requires Cabecas(a) == Cabecas(b) && k <= |a|
    ensures ProcurarDesde(a, nome, k) == ProcurarDesde(b, nome, k)
    decreases |a| - k
  {
    if k < |a| {
      assert CabecaDe(a[k]) == Cabecas(b)[k];
      ProcurarDesdeForma(a, b, nome, k + 1);
    }
  }

  lemma {:induction false} BuscarDesdeForma(a: Tabela, b: Tabela, nome: string, s: int)
    requires Forma(a) == Forma(b) && s < |a.escopos|
    ensures BuscarDesde(a.escopos, nome, s) == BuscarDesde(b.escopos, nome, s)
    decreases s + 1
  {
    if s >= 0 {
      assert Cabecas(a.escopos[s]) == Forma(b)[s];
      ProcurarDesdeForma(a.escopos[s], b.escopos[s], nome, 0);
      BuscarDesdeForma(a, b, nome, s - 1);
    }
  }

  /** `buscarSimbolo` only looks at names: tables of the same shape answer it alike. */
  lemma BuscarForma(a: Tabela, b: Tabela, nome: string)
    requires Forma(a) == Forma(b) && a.atual == b.atual && a.atual < |a.escopos|
    ensures Buscar(a, nome) == Buscar(b, nome)
  {
    BuscarDesdeForma(a, b, nome, a.atual);
  }

  lemma FormaEntrar(t: Tabela)
    ensures Forma(Entrar(t)) == Forma(t) + [[]]
  {
  }

  lemma FormaSair(t: Tabela)
    requires |t.escopos| >= 1
    ensures Forma(Sair(t)) == Forma(t)[..|t.escopos| - 1]
  {
  }

  /**
   * `adicionarSimbolo` through the driver: a new name is appended to the
   * current scope with no message; a name the current scope has is
   * reported with its earlier line and nothing is added.
   */
  lemma DeclararForma(st: Estado, nome: string, tipo: string, linha: int)
    requires Valida(st.tabela)
    ensures var t := st.tabela; var r := Declarar(st, nome, tipo, linha);
      match Procurar(t.escopos[t.atual], nome)
      case None =>
        Forma(r.tabela) == Forma(t)[t.atual := Forma(t)[t.atual] + [Cabeca(nome, tipo, linha)]]
        && r.erros == st.erros
      case Some(k) =>
        Forma(r.tabela) == Forma(t)
        && r.erros == st.erros + [JaDeclarada(linha, nome, t.escopos[t.atual][k].linha)]
  {
    var t := st.tabela;
    var atual := t.escopos[t.atual];
    if Procurar(atual, nome).None? {
      var novo := atual + [Simbolo(nome, tipo, linha, t.atual, false, false)];
      assert Cabecas(novo) == Cabecas(atual) + [Cabeca(nome, tipo, linha)];
    }
  }

  lemma DeclararAvanca(st: Estado, nome: string, tipo: string, linha: int)
    requires Valida(st.tabela)
    ensures Avanca(st, Declarar(st, nome, tipo, linha))
  {
    DeclararForma(st, nome, tipo, linha);
  }

  lemma InicializadaPreserva(st: Estado, nome: string, linha: int)
    requires Valida(st.tabela)
    ensures Preserva(st, Inicializada(st, nome, linha))
  {
    match Buscar(st.tabela, nome)
    case None =>
    case Some(p) => AtualizarForma(st.tabela, p, Em(st.tabela, p).(inicializada := true));
  }

  lemma UsadaPreserva(st: Estado, nome: string, linha: int)
    requires Valida(st.tabela)
    ensures Preserva(st, Usada(st, nome, linha))
  {
    match Buscar(st.tabela, nome)
    case None =>
    case Some(p) =>
      if Em(st.tabela, p).inicializada {
        AtualizarForma(st.tabela, p, Em(st.tabela, p).(usada := true));
      }
  }

  // --------------------------------------------------------- expressions

  lemma {:induction false} ExpressaoPreserva(tc: seq<Token>, i: nat, st: Estado)
    requires Pre(tc, i) && Valida(st.tabela)
    ensures Preserva(st, Expressao(tc, i, st).st)
    decreases |tc| - i, 4
  {
    var t := Termo(tc, i, st);
    TermoPreserva(tc, i, st);
    MaisTermosPreserva(tc, t.i, t.st, t.tipo);
  }

  lemma {:induction false} MaisTermosPreserva(tc: seq<Token>, i: nat, st: Estado, tipo: string)
    requires Pre(tc, i) && Valida(st.tabela)
    ensures Preserva(st, MaisTermos(tc, i, st, tipo).st)
    decreases |tc| - i, 3
  {
    if Parser.At(tc, i, TSoma) || Parser.At(tc, i, TSubtracao) {
      var d := OutroTermo(tc, i, st, tipo);
      OutroTermoPreserva(tc, i, st, tipo);
      MaisTermosPreserva(tc, d.i, d.st, tipo);
    }
  }

  lemma {:induction false} OutroTermoPreserva(tc: seq<Token>, i: nat, st: Estado, tipo: string)
    requires Pre(tc, i) && Valida(st.tabela) && (Parser.At(tc, i, TSoma) || Parser.At(tc, i, TSubtracao))
    ensures Preserva(st, OutroTermo(tc, i, st, tipo).st)
    decreases |tc| - i, 2
  {
    TermoPreserva(tc, i + 1, st);
  }

  lemma {:induction false} TermoPreserva(tc: seq<Token>, i: nat, st: Estado)
    requires Pre(tc, i) && Valida(st.tabela)
    ensures Preserva(st, Termo(tc, i, st).st)
    decreases |tc| - i, 2
  {
    var f := Fator(tc, i, st);
    FatorPreserva(tc, i, st);
    MaisFatoresPreserva(tc, f.i, f.st, f.tipo);
  }

  lemma {:induction false} MaisFatoresPreserva(tc: seq<Token>, i: nat, st: Estado, tipo: string)
    requires Pre(tc, i) && Valida(st.tabela)
    ensures Preserva(st, MaisFatores(tc, i, st, tipo).st)
    decreases |tc| - i, 1
  {
    if Parser.At(tc, i, TMultiplicacao) || Parser.At(tc, i, TDivisao) {
      var d := OutroFator(tc, i, st, tipo);
      OutroFatorPreserva(tc, i, st, tipo);
      MaisFatoresPreserva(tc, d.i, d.st, tipo);
    }
  }

  lemma {:induction false} OutroFatorPreserva(tc: seq<Token>, i: nat, st: Estado, tipo: string)
    requires Pre(tc, i) && Valida(st.tabela) && (Parser.At(tc, i, TMultiplicacao) || Parser.At(tc, i, TDivisao))
    ensures Preserva(st, OutroFator(tc, i, st, tipo).st)
    decreases |tc| - i, 0
  {
    FatorPreserva(tc, i + 1, st);
  }

  lemma {:induction false} FatorPreserva(tc: seq<Token>, i: nat, st: Estado)
    requires Pre(tc, i) && Valida(st.tabela)
    ensures Preserva(st, Fator(tc, i, st).st)
    decreases |tc| - i, 0
  {
    if Parser.At(tc, i, TIdentificador) {
      UsadaPreserva(st, tc[i].lexeme, tc[i].line);
    } else if Parser.At(tc, i, TNum) {
    } else if Parser.At(tc, i, TAbrePar) {
      ExpressaoPreserva(tc, i + 1, st);
    }
  }

  lemma ExpressaoRelacionalPreserva(tc: seq<Token>, i: nat, st: Estado)
    requires Pre(tc, i) && Valida(st.tabela)
    ensures Preserva(st, ExpressaoRelacional(tc, i, st).st)
  {
    var e := Expressao(tc, i, st);
    ExpressaoPreserva(tc, i, st);
    if Parser.FirstOperadorRelacional(tc[e.i].kind) {
      ExpressaoPreserva(tc, e.i + 1, e.st);
    }
  }

  // ---------------------------------------------------------- statements

  lemma AtribuirPreserva(st: Estado, ident: Token, tipo: string)
    requires Valida(st.tabela)
    ensures Preserva(st, Atribuir(st, ident, tipo))
  {
    match Buscar(st.tabela, ident.lexeme)
    case None =>
    case Some(p) =>
      var st1 := Verificar(st, Em(st.tabela, p).tipo, tipo, ident.line, NaAtribuicao);
      InicializadaPreserva(st1, ident.lexeme, ident.line);
  }

  lemma AtribuicaoPreserva(tc: seq<Token>, i: nat, st: Estado)
    requires Pre(tc, i) && Valida(st.tabela)
    ensures Preserva(st, Atribuicao(tc, i, st).st)
  {
    var i2 := Consumir(tc, Consumir(tc, i, TIdentificador), TAtribuicao);
    var e := Expressao(tc, i2, st);
    ExpressaoPreserva(tc, i2, st);
    AtribuirPreserva(e.st, tc[i], e.tipo);
  }

  lemma RetornarPreserva(tc: seq<Token>, i: nat, st: Estado)
    requires Pre(tc, i) && Valida(st.tabela) && Parser.At(tc, i, TRetornar)
    ensures Preserva(st, Retornar(tc, i, st).st)
  {
    ExpressaoPreserva(tc, i + 1, st);
  }

  lemma InicializacaoPreserva(tc: seq<Token>, i: nat, st: Estado, ident: Token, tipo: string)
    requires Pre(tc, i) && Valida(st.tabela)
    ensures Preserva(st, Inicializacao(tc, i, st, ident, tipo).st)
  {
    var e := Expressao(tc, i, st);
    ExpressaoPreserva(tc, i, st);
    InicializadaPreserva(Verificar(e.st, tipo, e.tipo, ident.line, NaAtribuicao), ident.lexeme, ident.line);
  }

  lemma RestoVariavelPreserva(tc: seq<Token>, i: nat, st: Estado, ident: Token, tipo: string)
    requires Pre(tc, i) && Valida(st.tabela)
    ensures Preserva(st, RestoVariavel(tc, i, st, ident, tipo).st)
  {
    if Parser.At(tc, i, TAtribuicao) {
      InicializacaoPreserva(tc, i + 1, st, ident, tipo);
    }
  }

  lemma DeclaracaoVariavelAvanca(tc: seq<Token>, i: nat, st: Estado)
    requires Pre(tc, i) && Valida(st.tabela) && Parser.At(tc, i, TVariavel)
    ensures Avanca(st, DeclaracaoVariavel(tc, i, st).st)
  {
    var ident := tc[i + 1];
    var i2 := Consumir(tc, Consumir(tc, i + 1, TIdentificador), TDoisPontos);
    var i3 := Consumir(tc, i2, TTipo);
    var st1 := Declarar(st, ident.lexeme, tc[i2].lexeme, ident.line);
    DeclararAvanca(st, ident.lexeme, tc[i2].lexeme, ident.line);
    var r := RestoVariavel(tc, i3, st1, ident, tc[i2].lexeme);
    RestoVariavelPreserva(tc, i3, st1, ident, tc[i2].lexeme);
    PreservaAvanca(st1, r.st);
    AvancaTrans(st, st1, r.st);
  }

  lemma ParametroAvanca(tc: seq<Token>, i: nat, st: Estado)
    requires Pre(tc, i) && Valida(st.tabela)
    ensures Avanca(st, Parametro(tc, i, st).st)
  {
    var ident := tc[i];
    var i2 := Consumir(tc, Consumir(tc, i, TIdentificador), TDoisPontos);
    var st1 := Declarar(st, ident.lexeme, tc[i2].lexeme, ident.line);
    DeclararAvanca(st, ident.lexeme, tc[i2].lexeme, ident.line);
    InicializadaPreserva(st1, ident.lexeme, ident.line);
    PreservaAvanca(st1, Parametro(tc, i, st).st);
    AvancaTrans(st, st1, Parametro(tc, i, st).st);
  }

  lemma {:induction false} MaisParametrosAvanca(tc: seq<Token>, i: nat, st: Estado)
    requires Pre(tc, i) && Valida(st.tabela)
    ensures Avanca(st, MaisParametros(tc, i, st).st)
    decreases |tc| - i
  {
    if Parser.At(tc, i, TVirgula) {
      var p := Parametro(tc, i + 1, st);
      ParametroAvanca(tc, i + 1, st);
      MaisParametrosAvanca(tc, p.i, p.st);
      AvancaTrans(st, p.st, MaisParametros(tc, p.i, p.st).st);
    }
  }

  lemma ListaParametrosAvanca(tc: seq<Token>, i: nat, st: Estado)
    requires Pre(tc, i) && Valida(st.tabela)
    ensures Avanca(st, ListaParametros(tc, i, st).st)
  {
    var p := Parametro(tc, i, st);
    ParametroAvanca(tc, i, st);
    MaisParametrosAvanca(tc, p.i, p.st);
    AvancaTrans(st, p.st, ListaParametros(tc, i, st).st);
  }

  lemma {:induction false} MaisArgumentosPreserva(tc: seq<Token>, i: nat, st: Estado)
    requires Pre(tc, i) && Valida(st.tabela)
    ensures Preserva(st, MaisArgumentos(tc, i, st).st)
    decreases |tc| - i
  {
    if Parser.At(tc, i, TVirgula) {
      var e := Expressao(tc, i + 1, st);
      ExpressaoPreserva(tc, i + 1, st);
      MaisArgumentosPreserva(tc, e.i, e.st);
    }
  }

  lemma ChamadaFuncaoPreserva(tc: seq<Token>, i: nat, st: Estado)
    requires Pre(tc, i) && Valida(st.tabela) && Parser.At(tc, i, TIdentificador)
    ensures Preserva(st, ChamadaFuncao(tc, i, st).st)
  {
    var i1 := Consumir(tc, i + 1, TAbrePar);
    var a := if InicioExpressao(tc[i1].kind) then ListaArgumentos(tc, i1, st) else Volta(i1, st);
    if InicioExpressao(tc[i1].kind) {
      var e := Expressao(tc, i1, st);
      ExpressaoPreserva(tc, i1, st);
      MaisArgumentosPreserva(tc, e.i, e.st);
    }
    UsadaPreserva(a.st, tc[i].lexeme, tc[i].line);
  }

  lemma {:induction false} DeclaracoesAvanca(tc: seq<Token>, i: nat, st: Estado)
    requires Pre(tc, i) && Valida(st.tabela)
    ensures Avanca(st, Declaracoes(tc, i, st).st)
    decreases |tc| - i, 7
  {
    if Parser.FirstDeclaracao(tc[i].kind) {
      var d := Declaracao(tc, i, st);
      DeclaracaoAvanca(tc, i, st);
      DeclaracoesAvanca(tc, d.i, d.st);
      AvancaTrans(st, d.st, Declaracoes(tc, d.i, d.st).st);
    }
  }

  lemma {:induction false} DeclaracaoAvanca(tc: seq<Token>, i: nat, st: Estado)
    requires Pre(tc, i) && Valida(st.tabela) && Parser.FirstDeclaracao(tc[i].kind)
    ensures Avanca(st, Declaracao(tc, i, st).st)
    decreases |tc| - i, 6
  {
    var k := tc[i].kind;
    var r := Declaracao(tc, i, st);
    if k == TVariavel {
      DeclaracaoVariavelAvanca(tc, i, st);
    } else if k == TIdentificador {
      if Parser.At(tc, i + 1, TAbrePar) {
        ChamadaFuncaoPreserva(tc, i, st);
      } else {
        AtribuicaoPreserva(tc, i, st);
      }
      PreservaAvanca(st, r.st);
    } else if k == TSe {
      CondicionalPreserva(tc, i, st);
      PreservaAvanca(st, r.st);
    } else if k == TEnquanto {
      EnquantoPreserva(tc, i, st);
      PreservaAvanca(st, r.st);
    } else if k == TPara {
      ParaPreserva(tc, i, st);
      PreservaAvanca(st, r.st);
    } else if k == TFuncao {
      DeclaracaoFuncaoAvanca(tc, i, st);
    } else {
      RetornarPreserva(tc, i, st);
      PreservaAvanca(st, r.st);
    }
  }

  /**
   * Blocks discard their symbols: whatever the block declares lives in its
   * own scope and is gone once `sairEscopo` drops it; the enclosing scopes
   * keep exactly the symbols they had.
   */
  lemma {:induction false} BlocoPreserva(tc: seq<Token>, i: nat, st: Estado)
    requires Pre(tc, i) && Valida(st.tabela)
    ensures Preserva(st, Bloco(tc, i, st).st)
    decreases |tc| - i, 8
  {
    var st1 := st.(tabela := Entrar(st.tabela));
    var d := Declaracoes(tc, i, st1);
    DeclaracoesAvanca(tc, i, st1);
    FormaEntrar(st.tabela);
    FormaSair(d.st.tabela);
    assert Forma(st1.tabela)[..|st.tabela.escopos|] == Forma(st.tabela);
  }

  lemma {:induction false} AbreBlocoPreserva(tc: seq<Token>, i: nat, st: Estado)
    requires Pre(tc, i) && Valida(st.tabela)
    ensures Preserva(st, AbreBloco(tc, i, st).st)
    decreases |tc| - i, 9
  {
    BlocoPreserva(tc, Consumir(tc, i, TAbreChave), st);
  }

  lemma {:induction false} FechaEBlocoPreserva(tc: seq<Token>, i: nat, st: Estado)
    requires Pre(tc, i) && Valida(st.tabela)
    ensures Preserva(st, FechaEBloco(tc, i, st).st)
    decreases |tc| - i, 10
  {
    AbreBlocoPreserva(tc, Consumir(tc, i, TFechaPar), st);
  }

  lemma {:induction false} CondicionalPreserva(tc: seq<Token>, i: nat, st: Estado)
    requires Pre(tc, i) && Valida(st.tabela) && Parser.At(tc, i, TSe)
    ensures Preserva(st, Condicional(tc, i, st).st)
    decreases |tc| - i, 5
  {
    var i1 := Consumir(tc, i + 1, TAbrePar);
    var c := ExpressaoRelacional(tc, i1, st);
    ExpressaoRelacionalPreserva(tc, i1, st);
    var b := FechaEBloco(tc, c.i, c.st);
    FechaEBlocoPreserva(tc, c.i, c.st);
    SenaoPreserva(tc, b.i, b.st);
    PreservaTrans(st, c.st, b.st);
  }

  lemma {:induction false} SenaoPreserva(tc: seq<Token>, i: nat, st: Estado)
    requires Pre(tc, i) && Valida(st.tabela)
    ensures Preserva(st, Senao(tc, i, st).st)
    decreases |tc| - i, 5
  {
    if Parser.At(tc, i, TSenao) {
      AbreBlocoPreserva(tc, i + 1, st);
    }
  }

  lemma {:induction false} EnquantoPreserva(tc: seq<Token>, i: nat, st: Estado)
    requires Pre(tc, i) && Valida(st.tabela) && Parser.At(tc, i, TEnquanto)
    ensures Preserva(st, Enquanto(tc, i, st).st)
    decreases |tc| - i, 5
  {
    var i1 := Consumir(tc, i + 1, TAbrePar);
    var c := ExpressaoRelacional(tc, i1, st);
    ExpressaoRelacionalPreserva(tc, i1, st);
    FechaEBlocoPreserva(tc, c.i, c.st);
  }

  lemma {:induction false} ParaPreserva(tc: seq<Token>, i: nat, st: Estado)
    requires Pre(tc, i) && Valida(st.tabela) && Parser.At(tc, i, TPara)
    ensures Preserva(st, Para(tc, i, st).st)
    decreases |tc| - i, 5
  {
    var i1 := Consumir(tc, i + 1, TAbrePar);
    var a := Atribuicao(tc, i1, st);
    AtribuicaoPreserva(tc, i1, st);
    var c := ExpressaoRelacional(tc, a.i, a.st);
    ExpressaoRelacionalPreserva(tc, a.i, a.st);
    ParaIncrementoPreserva(tc, c.i, c.st);
    PreservaTrans(st, a.st, c.st);
  }

  lemma {:induction false} ParaIncrementoPreserva(tc: seq<Token>, i: nat, st: Estado)
    requires Pre(tc, i) && Valida(st.tabela)
    ensures Preserva(st, ParaIncremento(tc, i, st).st)
    decreases |tc| - i, 11
  {
    var i1 := Consumir(tc, i, TPv);
    var b := Atribuicao(tc, i1, st);
    AtribuicaoPreserva(tc, i1, st);
    FechaEBlocoPreserva(tc, b.i, b.st);
  }

  lemma {:induction false} DeclaracaoFuncaoAvanca(tc: seq<Token>, i: nat, st: Estado)
    requires Pre(tc, i) && Valida(st.tabela) && Parser.At(tc, i, TFuncao)
    ensures Avanca(st, DeclaracaoFuncao(tc, i, st).st)
    decreases |tc| - i, 5
  {
    var i2 := Consumir(tc, Consumir(tc, i + 1, TIdentificador), TAbrePar);
    var p := if Parser.At(tc, i2, TIdentificador) then ListaParametros(tc, i2, st) else Volta(i2, st);
    if Parser.At(tc, i2, TIdentificador) {
      ListaParametrosAvanca(tc, i2, st);
    }
    CorpoFuncaoAvanca(tc, p.i, p.st, tc[i + 1]);
    AvancaTrans(st, p.st, DeclaracaoFuncao(tc, i, st).st);
  }

  lemma {:induction false} CorpoFuncaoAvanca(tc: seq<Token>, i: nat, st: Estado, ident: Token)
    requires Pre(tc, i) && Valida(st.tabela)
    ensures Avanca(st, CorpoFuncao(tc, i, st, ident).st)
    decreases |tc| - i, 11
  {
    var b := FechaEBloco(tc, i, st);
    FechaEBlocoPreserva(tc, i, st);
    DeclararAvanca(b.st, ident.lexeme, "funcao", ident.line);
    PreservaAvanca(st, b.st);
    AvancaTrans(st, b.st, CorpoFuncao(tc, i, st, ident).st);
  }

  // ----------------------------------------------------------- headlines

  /**
   * After a block, `buscarSimbolo` finds for every name what it found before
   * the block: nothing the block declared is visible any more.
   */
  lemma BlocoInvisivel(tc: seq<Token>, i: nat, st: Estado, nome: string)
    requires Pre(tc, i) && Valida(st.tabela)
    ensures Buscar(Bloco(tc, i, st).st.tabela, nome) == Buscar(st.tabela, nome)
  {
    BlocoPreserva(tc, i, st);
    BuscarForma(Bloco(tc, i, st).st.tabela, st.tabela, nome);
  }

  /**
   * A function's own symbol: once the body's scope has been dropped, the
   * name is appended to the scope that was current before the body, as a
   * `funcao` on the line of the name; if that scope already has the name,
   * it is reported instead and the table keeps its symbols.
   */
  lemma FuncaoDepoisDoCorpo(tc: seq<Token>, i: nat, st: Estado, ident: Token)
    requires Pre(tc, i) && Valida(st.tabela)
    ensures var t := st.tabela; var r := CorpoFuncao(tc, i, st, ident).st;
      var b := FechaEBloco(tc, i, st).st;
      match Procurar(t.escopos[t.atual], ident.lexeme)
      case None =>
        Forma(r.tabela) == Forma(t)[t.atual := Forma(t)[t.atual] + [Cabeca(ident.lexeme, "funcao", ident.line)]]
        && r.erros == b.erros
      case Some(k) =>
        Forma(r.tabela) == Forma(t)
        && r.erros == b.erros + [JaDeclarada(ident.line, ident.lexeme, t.escopos[t.atual][k].linha)]
  {
    var t := st.tabela;
    var b := FechaEBloco(tc, i, st);
    FechaEBlocoPreserva(tc, i, st);
    DeclararForma(b.st, ident.lexeme, "funcao", ident.line);
    assert Cabecas(b.st.tabela.escopos[t.atual]) == Cabecas(t.escopos[t.atual]);
    ProcurarDesdeForma(b.st.tabela.escopos[t.atual], t.escopos[t.atual], ident.lexeme, 0);
    match Procurar(t.escopos[t.atual], ident.lexeme)
    case None =>
    case Some(k) =>
      assert CabecaDe(b.st.tabela.escopos[t.atual][k]) == Cabecas(t.escopos[t.atual])[k];
  }

  /** An undeclared name followed by `+` or `-` is a whole term, of type `desconhecido`. */
  lemma TermoNaoDeclarado(tc: seq<Token>, i: nat, st: Estado)
    requires Pre(tc, i) && Valida(st.tabela) && Parser.At(tc, i, TIdentificador)
    requires Buscar(st.tabela, tc[i].lexeme).None?
    requires Parser.At(tc, i + 1, TSoma) || Parser.At(tc, i + 1, TSubtracao)
    ensures var t := Termo(tc, i, st); t.i == i + 1 && t.tipo == "desconhecido" && t.st.tabela == st.tabela
  {
    var f := Fator(tc, i, st);
    assert f.st.tabela == st.tabela;
    assert f.i == i + 1 && f.tipo == "desconhecido";
    assert Termo(tc, i, st) == MaisFatores(tc, f.i, f.st, f.tipo);
  }

  /**
   * An undeclared name as the left operand of `+` or `-` has type
   * `desconhecido`, which `verificarTipos` cannot look up: the analysis
   * ends in the `TypeError`.
   */
  lemma NaoDeclaradaAEsquerdaQuebra(tc: seq<Token>, i: nat, st: Estado)
    requires Pre(tc, i) && Valida(st.tabela) && Parser.At(tc, i, TIdentificador)
    requires Buscar(st.tabela, tc[i].lexeme).None?
    requires Parser.At(tc, i + 1, TSoma) || Parser.At(tc, i + 1, TSubtracao)
    ensures Expressao(tc, i, st).st.quebrou
  {
    TermoNaoDeclarado(tc, i, st);
    var t := Termo(tc, i, st);
    var d := OutroTermo(tc, i + 1, t.st, t.tipo);
    assert d.st.quebrou;
    assert Expressao(tc, i, st) == MaisTermos(tc, i + 1, t.st, t.tipo);
    assert MaisTermos(tc, i + 1, t.st, t.tipo) == MaisTermos(tc, d.i, d.st, t.tipo);
  }

  /** The whole program leaves exactly one scope, and its messages start with those of the descent. */
  lemma ProgramaAvanca(ts: seq<Token>)
    ensures Avanca(Estado(Nova(), [], false), Programa(ts).st)
  {
    DeclaracoesAvanca(ComFim(ts), 0, Estado(Nova(), [], false));
  }
}
