/**
 * Properties of the semantic pass of `analisadorSemantico.js`: the symbol
 * table only grows and keeps (name, scope) pairs unique, `global` stays at
 * the bottom of the scope stack, declarations register what they declare,
 * the messages of expressions, assignments, calls and the final reports,
 * and the three places where the source does not do what it evidently
 * means to.
 */
module SemanticoProps {
  import opened Wrappers
  import opened Tokens
  import opened Semantico

  // ------------------------------------------------ the table only grows

  /** `b` keeps every symbol of `a` in place and keeps (name, scope) pairs unique when `a` does. */
  ghost predicate Cresce(a: seq<Simbolo>, b: seq<Simbolo>) {
    Estende(a, b) && (Unicos(a) ==> Unicos(b))
  }

  lemma CresceTransitivo(a: seq<Simbolo>, b: seq<Simbolo>, c: seq<Simbolo>)
    requires Cresce(a, b) && Cresce(b, c)
    ensures Cresce(a, c)
  {
  }

  lemma MesmasChavesCresce(a: seq<Simbolo>, b: seq<Simbolo>)
    requires MesmasChaves(a, b)
    ensures Cresce(a, b)
  {
  }

  /** `adicionarSimbolo` never puts a second symbol with the same name in the same scope. */
  lemma AdicionarSimboloUnicos(st: Estado, cadeia: string, categoria: Categoria, tipo: string,
                               escopo: string, linha: int)
    requires Unicos(st.tabela)
    ensures Unicos(AdicionarSimbolo(st, cadeia, categoria, tipo, escopo, linha).tabela)
  {
    var t := st.tabela;
    if !Declarado(t, cadeia, escopo) {
      var t1 := AdicionarSimbolo(st, cadeia, categoria, tipo, escopo, linha).tabela;
      forall a, b | 0 <= a < b < |t1|
        ensures !(t1[a].cadeia == t1[b].cadeia && t1[a].escopo == t1[b].escopo)
      {
        if b == |t| {
          assert t1[a] == t[a];
        }
      }
    }
  }

  lemma AdicionarSimboloCresce(st: Estado, cadeia: string, categoria: Categoria, tipo: string,
                               escopo: string, linha: int)
    ensures Cresce(st.tabela, AdicionarSimbolo(st, cadeia, categoria, tipo, escopo, linha).tabela)
  {
    if Unicos(st.tabela) {
      AdicionarSimboloUnicos(st, cadeia, categoria, tipo, escopo, linha);
    }
  }

  lemma InicializacaoCresce(ts: seq<Token>, e: nat, nome: string, tipo: string, escopo: string,
                            linha: int, st: Estado)
    requires 1 <= e <= |ts|
    ensures Cresce(st.tabela, Inicializacao(ts, e, nome, tipo, escopo, linha, st).st.tabela)
  {
    var r := Expressao(ts, e, st);
    MesmasChavesCresce(st.tabela, r.st.tabela);
    match ObterSimbolo(r.st.tabela, nome, escopo)
    case None =>
    case Some(k) =>
      var st1 := if Presente(r.tipo) then Verificado(r.st, tipo, r.tipo.value, linha, AtribuicaoA(nome)) else r.st;
      MesmasChavesCresce(st1.tabela, Inicializado(st1, k, nome).tabela);
      CresceTransitivo(st.tabela, st1.tabela, Inicializado(st1, k, nome).tabela);
  }

  lemma VariavelCresce(ts: seq<Token>, i: nat, st: Estado)
    requires i < |ts|
    ensures Cresce(st.tabela, Variavel(ts, i, st).st.tabela)
  {
    if Tem(ts, i + 1, TIdentificador) && Tem(ts, i + 2, TDoisPontos) && Tem(ts, i + 3, TTipo) {
      var nome := ts[i + 1].lexeme;
      var tipo := ts[i + 3].lexeme;
      var escopo := Topo(st.pilha);
      var st1 := AdicionarSimbolo(st, nome, CatVariavel, tipo, escopo, ts[i].line);
      AdicionarSimboloCresce(st, nome, CatVariavel, tipo, escopo, ts[i].line);
      if Tem(ts, i + 4, TAtribuicao) {
        InicializacaoCresce(ts, i + 5, nome, tipo, escopo, ts[i].line, st1);
        CresceTransitivo(st.tabela, st1.tabela, Variavel(ts, i, st).st.tabela);
      }
    }
  }

  lemma {:induction false} ParametrosCresce(ts: seq<Token>, i: nat, funcao: string, linha: int, st: Estado)
    requires i <= |ts|
    ensures Cresce(st.tabela, Parametros(ts, i, funcao, linha, st).st.tabela)
    decreases |ts| - i
  {
    if Tem(ts, i, TIdentificador) {
      var (p, segue) := UmParametro(ts, i, funcao, linha, st);
      UmParametroCresce(ts, i, funcao, linha, st);
      if segue {
        ParametrosCresce(ts, p.j, funcao, linha, p.st);
        CresceTransitivo(st.tabela, p.st.tabela, Parametros(ts, p.j, funcao, linha, p.st).st.tabela);
      }
    }
  }

  lemma UmParametroCresce(ts: seq<Token>, i: nat, funcao: string, linha: int, st: Estado)
    requires Tem(ts, i, TIdentificador)
    ensures Cresce(st.tabela, UmParametro(ts, i, funcao, linha, st).0.st.tabela)
  {
    if Tem(ts, i + 1, TDoisPontos) && Tem(ts, i + 2, TTipo) {
      AdicionarSimboloCresce(st, ts[i].lexeme, CatVariavel, ts[i + 2].lexeme, funcao, linha);
    }
  }

  lemma FuncaoCresce(ts: seq<Token>, i: nat, st: Estado)
    requires i < |ts|
    ensures Cresce(st.tabela, Funcao(ts, i, st).st.tabela)
  {
    if Tem(ts, i + 1, TIdentificador) {
      var nome := ts[i + 1].lexeme;
      var st0 := st.(pilha := st.pilha + [nome]);
      var st1 := AdicionarSimbolo(st0, nome, CatFuncao, "void", "global", ts[i].line);
      AdicionarSimboloCresce(st0, nome, CatFuncao, "void", "global", ts[i].line);
      if Tem(ts, i + 2, TAbrePar) {
        ParametrosCresce(ts, i + 3, nome, ts[i].line, st1);
        CresceTransitivo(st.tabela, st1.tabela, Parametros(ts, i + 3, nome, ts[i].line, st1).st.tabela);
      }
    }
  }

  lemma AtribuicaoCresce(ts: seq<Token>, i: nat, st: Estado)
    requires i + 1 < |ts|
    ensures Cresce(st.tabela, Atribuicao(ts, i, st).st.tabela)
  {
    var nome := ts[i].lexeme;
    match ObterSimbolo(st.tabela, nome, Topo(st.pilha))
    case None =>
    case Some(k) =>
      var s := st.tabela[k];
      var st1 := if !s.inicializado && UsaProprioValor(ts, i + 2, nome)
        then Erro(st, ts[i].line, NaoInicializadaNaAtribuicao(nome)) else st;
      var r := Expressao(ts, i + 2, st1);
      var st2 := if Presente(r.tipo) then Verificado(r.st, s.tipo, r.tipo.value, ts[i].line, AtribuicaoA(nome)) else r.st;
      MesmasChavesCresce(st.tabela, st2.tabela);
      MesmasChavesCresce(st2.tabela, Inicializado(st2, k, nome).tabela);
      CresceTransitivo(st.tabela, st2.tabela, Inicializado(st2, k, nome).tabela);
  }

  lemma ChamadaCresce(ts: seq<Token>, i: nat, st: Estado)
    requires i + 1 < |ts|
    ensures Cresce(st.tabela, Chamada(ts, i, st).st.tabela)
  {
    var nome := ts[i].lexeme;
    match ObterSimbolo(st.tabela, nome, Topo(st.pilha))
    case None =>
    case Some(k) =>
      if st.tabela[k].categoria == CatFuncao {
        var st1 := st.(tabela := st.tabela[k := st.tabela[k].(utilizado := true)]);
        var a := Argumentos(ts, i + 2, [], st1);
        assert MesmasChaves(st.tabela, a.st.tabela);
        MesmasChavesCresce(st.tabela, a.st.tabela);
      }
  }

  lemma UsoCresce(ts: seq<Token>, i: nat, st: Estado)
    requires i < |ts|
    ensures Cresce(st.tabela, Uso(ts, i, st).st.tabela)
  {
    match ObterSimbolo(st.tabela, ts[i].lexeme, Topo(st.pilha))
    case None =>
    case Some(k) => MesmasChavesCresce(st.tabela, Marcar(st, k, ts[i].lexeme).tabela);
  }

  lemma PassoCresce(ts: seq<Token>, i: nat, st: Estado)
    requires i < |ts|
    ensures Cresce(st.tabela, Passo(ts, i, st).st.tabela)
  {
    var k := ts[i].kind;
    if k == TVariavel {
      VariavelCresce(ts, i, st);
    } else if k == TFuncao {
      FuncaoCresce(ts, i, st);
    } else if k == TIdentificador && Tem(ts, i + 1, TAtribuicao) {
      AtribuicaoCresce(ts, i, st);
    } else if k == TIdentificador && Tem(ts, i + 1, TAbrePar) {
      ChamadaCresce(ts, i, st);
    } else if k == TIdentificador {
      UsoCresce(ts, i, st);
    }
  }

  /** The whole loop keeps every symbol in place, and unique (name, scope) pairs unique. */
  lemma {:induction false} PrincipalCresce(ts: seq<Token>, i: nat, st: Estado)
    requires i <= |ts| + 1
    ensures Cresce(st.tabela, Principal(ts, i, st).tabela)
    decreases |ts| + 1 - i
  {
    if i < |ts| {
      PrincipalPasso(ts, i, st);
      PassoCresce(ts, i, st);
      PrincipalCresce(ts, Passo(ts, i, st).j + 1, Passo(ts, i, st).st);
      CresceTransitivo(st.tabela, Passo(ts, i, st).st.tabela, Principal(ts, Passo(ts, i, st).j + 1, Passo(ts, i, st).st).tabela);
    }
  }

  /**
   * The returned table starts with the initial table's symbols, by name and
   * scope, and never holds two symbols with the same name in the same scope
   * unless the initial table did.
   */
  lemma AnalisarSemanticoPreservaTabela(ts: seq<Token>, inicial: seq<Simbolo>)
    ensures var r := AnalisarSemantico(ts, inicial);
      |r.tabela| >= |inicial| &&
      (forall k :: 0 <= k < |inicial| ==>
        r.tabela[k].nome == inicial[k].cadeia && r.tabela[k].escopo == inicial[k].escopo) &&
      (Unicos(inicial) ==> forall a, b :: 0 <= a < b < |r.tabela| ==>
        !(r.tabela[a].nome == r.tabela[b].nome && r.tabela[a].escopo == r.tabela[b].escopo))
  {
    PrincipalCresce(ts, 0, Inicial(inicial));
  }

  // ------------------------------------------------------ the scope stack

  /** `global` is at the bottom of the stack. */
  predicate GlobalNaBase(pilha: seq<string>) {
    |pilha| >= 1 && pilha[0] == "global"
  }

  /** `}` pops only above `global`, and `funcao` pushes: one turn keeps `global` at the bottom. */
  lemma PassoGlobalNaBase(ts: seq<Token>, i: nat, st: Estado)
    requires i < |ts| && GlobalNaBase(st.pilha)
    ensures GlobalNaBase(Passo(ts, i, st).st.pilha)
  {
  }

  /** `global` is never popped, whatever the tokens. */
  lemma {:induction false} PrincipalGlobalNaBase(ts: seq<Token>, i: nat, st: Estado)
    requires i <= |ts| + 1 && GlobalNaBase(st.pilha)
    ensures GlobalNaBase(Principal(ts, i, st).pilha)
    decreases |ts| + 1 - i
  {
    if i < |ts| {
      PassoGlobalNaBase(ts, i, st);
      PrincipalGlobalNaBase(ts, Passo(ts, i, st).j + 1, Passo(ts, i, st).st);
    }
  }

  /** `}` closes the innermost function scope, and only that one. */
  lemma FechaChaveDesempilha(ts: seq<Token>, i: nat, st: Estado)
    requires i < |ts| && ts[i].kind == TFechaChave && |st.pilha| > 1
    ensures var v := Passo(ts, i, st);
      v.st.pilha + [Topo(st.pilha)] == st.pilha && v.st.tabela == st.tabela && v.st.erros == st.erros
  {
  }

  // ----------------------------------------------------- declarations

  /** The parameter loop only appends symbols and only adds initialised names. */
  lemma {:induction false} ParametrosAcrescentam(ts: seq<Token>, i: nat, funcao: string, linha: int, st: Estado)
    requires i <= |ts|
    ensures var v := Parametros(ts, i, funcao, linha, st);
      st.tabela <= v.st.tabela && st.inicializadas <= v.st.inicializadas
    decreases |ts| - i
  {
    if Tem(ts, i, TIdentificador) {
      var (p, segue) := UmParametro(ts, i, funcao, linha, st);
      if segue {
        ParametrosAcrescentam(ts, p.j, funcao, linha, p.st);
      }
    }
  }

  /** A parameter `nome : tipo` new to the function's scope is registered there, initialised. */
  lemma ParametroRegistrado(ts: seq<Token>, i: nat, funcao: string, linha: int, st: Estado)
    requires i + 2 < |ts| && ts[i].kind == TIdentificador && ts[i + 1].kind == TDoisPontos
    requires ts[i + 2].kind == TTipo && !Declarado(st.tabela, ts[i].lexeme, funcao)
    ensures var v := Parametros(ts, i, funcao, linha, st);
      |v.st.tabela| > |st.tabela| &&
      v.st.tabela[|st.tabela|] == Simbolo(ts[i].lexeme, CatVariavel, ts[i + 2].lexeme, funcao, linha, false, false) &&
      ts[i].lexeme in v.st.inicializadas
  {
    var (p, segue) := UmParametro(ts, i, funcao, linha, st);
    assert p.st.tabela == st.tabela + [Simbolo(ts[i].lexeme, CatVariavel, ts[i + 2].lexeme, funcao, linha, false, false)];
    assert ts[i].lexeme in p.st.inicializadas;
    if segue {
      ParametrosAcrescentam(ts, p.j, funcao, linha, p.st);
      var v := Parametros(ts, p.j, funcao, linha, p.st);
      assert v.st.tabela[|st.tabela|] == p.st.tabela[|st.tabela|];
    }
  }

  /**
   * `funcao f` with `f` new in `global`: `f` is registered there as a `void`
   * function at the keyword's line, and `f` is the scope on top of the stack.
   */
  lemma FuncaoRegistra(ts: seq<Token>, i: nat, st: Estado)
    requires i + 1 < |ts| && ts[i + 1].kind == TIdentificador
    requires !Declarado(st.tabela, ts[i + 1].lexeme, "global")
    ensures var v := Funcao(ts, i, st);
      |v.st.tabela| > |st.tabela| &&
      v.st.tabela[|st.tabela|] == Simbolo(ts[i + 1].lexeme, CatFuncao, "void", "global", ts[i].line, false, false) &&
      Topo(v.st.pilha) == ts[i + 1].lexeme
  {
    var nome := ts[i + 1].lexeme;
    var st1 := AdicionarSimbolo(st.(pilha := st.pilha + [nome]), nome, CatFuncao, "void", "global", ts[i].line);
    if Tem(ts, i + 2, TAbrePar) {
      ParametrosAcrescentam(ts, i + 3, nome, ts[i].line, st1);
      var v := Parametros(ts, i + 3, nome, ts[i].line, st1);
      assert v.st.tabela[|st.tabela|] == st1.tabela[|st.tabela|];
    }
  }

  // ------------------------------------------------------- expressions

  /** A token that starts or continues an expression in `processarExpressao`. */
  predicate InicioExpressao(k: Kind) {
    k == TIdentificador || k == TNum || k == TNumDecimal || k == TString || k == TAbrePar ||
    Aritmetico(k) || Relacional(k)
  }

  /** The expression loop stops at `j`: the end, or a token that cannot continue it. */
  predicate Fim(ts: seq<Token>, j: nat) {
    j == |ts| || (j < |ts| && !InicioExpressao(ts[j].kind))
  }

  /** The expression loop ends at a token that cannot continue it. */
  lemma LacoFim(ts: seq<Token>, j: nat, tipo: Option<string>, st: Estado)
    requires j <= |ts| && Fim(ts, j)
    ensures Laco(ts, j, tipo, st) == Avaliacao(tipo, j - 1, st)
  {
    if j < |ts| {
      assert PassoExpressao(ts, j, tipo, st) == Pare;
    }
  }

  /** One turn of the expression loop. */
  lemma LacoSegue(ts: seq<Token>, j: nat, tipo: Option<string>, st: Estado)
    requires j < |ts| && PassoExpressao(ts, j, tipo, st).Segue?
    ensures var p := PassoExpressao(ts, j, tipo, st); Laco(ts, j, tipo, st) == Laco(ts, p.prox, p.tipo, p.st)
  {
  }

  /** A number alone is an `inteiro` expression ending at it, with no message. */
  lemma ExpressaoNumero(ts: seq<Token>, i: nat, st: Estado)
    requires i < |ts| && ts[i].kind == TNum && Fim(ts, i + 1)
    ensures Expressao(ts, i, st) == Avaliacao(Some("inteiro"), i, st)
  {
    assert PassoExpressao(ts, i, None, st) == Segue(i + 1, Some("inteiro"), st);
    LacoSegue(ts, i, None, st);
    LacoFim(ts, i + 1, Some("inteiro"), st);
  }

  /** `texto` with an arithmetic operator: one message at the operator, and no type. */
  lemma OperadorComTexto(ts: seq<Token>, i: nat, st: Estado)
    requires i + 2 < |ts| && ts[i].kind == TString && Aritmetico(ts[i + 1].kind)
    requires ts[i + 2].kind == TNum && Fim(ts, i + 3)
    ensures Expressao(ts, i, st) ==
      Avaliacao(None, i + 2, Erro(st, ts[i + 1].line, OperadorTexto(ts[i + 1].lexeme)))
  {
    ExpressaoNumero(ts, i + 2, st);
    AritmeticoPasso(ts, i + 1, Some("texto"), st);
    var st1 := Erro(st, ts[i + 1].line, OperadorTexto(ts[i + 1].lexeme));
    assert PassoExpressao(ts, i, None, st) == Segue(i + 1, Some("texto"), st);
    LacoSegue(ts, i, None, st);
    assert PassoExpressao(ts, i + 1, Some("texto"), st) == Segue(i + 3, None, st1);
    LacoSegue(ts, i + 1, Some("texto"), st);
    LacoFim(ts, i + 3, None, st1);
  }

  /** An arithmetic operator takes the rest of the expression as its right operand. */
  lemma AritmeticoPasso(ts: seq<Token>, i: nat, tipo: Option<string>, st: Estado)
    requires i < |ts| && Aritmetico(ts[i].kind)
    ensures var r := Expressao(ts, i + 1, st);
      var c := CombinarAritmetico(ts[i], tipo, r.tipo);
      PassoExpressao(ts, i, tipo, st) == Segue(r.indice + 1, c.tipo, r.st.(erros := r.st.erros + c.avisos))
  {
  }

  /** A decimal number alone is a `decimal` expression ending at it, with no message. */
  lemma ExpressaoDecimal(ts: seq<Token>, i: nat, st: Estado)
    requires i < |ts| && ts[i].kind == TNumDecimal && Fim(ts, i + 1)
    ensures Expressao(ts, i, st) == Avaliacao(Some("decimal"), i, st)
  {
    assert PassoExpressao(ts, i, None, st) == Segue(i + 1, Some("decimal"), st);
    LacoSegue(ts, i, None, st);
    LacoFim(ts, i + 1, Some("decimal"), st);
  }

  /** `inteiro` with `decimal` gives `decimal`, silently. */
  lemma InteiroComDecimal(ts: seq<Token>, i: nat, st: Estado)
    requires i + 2 < |ts| && ts[i].kind == TNum && Aritmetico(ts[i + 1].kind)
    requires ts[i + 2].kind == TNumDecimal && Fim(ts, i + 3)
    ensures Expressao(ts, i, st) == Avaliacao(Some("decimal"), i + 2, st)
  {
    ExpressaoDecimal(ts, i + 2, st);
    AritmeticoPasso(ts, i + 1, Some("inteiro"), st);
    var c := CombinarAritmetico(ts[i + 1], Some("inteiro"), Some("decimal"));
    assert c.tipo == Some("decimal") && c.avisos == [];
    assert st.(erros := st.erros + c.avisos) == st;
    assert PassoExpressao(ts, i, None, st) == Segue(i + 1, Some("inteiro"), st);
    LacoSegue(ts, i, None, st);
    LacoSegue(ts, i + 1, Some("inteiro"), st);
    LacoFim(ts, i + 3, Some("decimal"), st);
  }

  /** A relational operator takes the rest of the expression as its right operand, and gives `logico`. */
  lemma RelacionalPasso(ts: seq<Token>, i: nat, tipo: Option<string>, st: Estado)
    requires i < |ts| && Relacional(ts[i].kind)
    ensures var r := Expressao(ts, i + 1, st);
      PassoExpressao(ts, i, tipo, st) == Segue(r.indice + 1, Some("logico"), r.st)
  {
  }

  /** A comparison of two numbers is `logico`, silently. */
  lemma Comparacao(ts: seq<Token>, i: nat, st: Estado)
    requires i + 2 < |ts| && ts[i].kind == TNum && Relacional(ts[i + 1].kind)
    requires ts[i + 2].kind == TNum && Fim(ts, i + 3)
    ensures Expressao(ts, i, st) == Avaliacao(Some("logico"), i + 2, st)
  {
    ExpressaoNumero(ts, i + 2, st);
    RelacionalPasso(ts, i + 1, Some("inteiro"), st);
    assert PassoExpressao(ts, i, None, st) == Segue(i + 1, Some("inteiro"), st);
    LacoSegue(ts, i, None, st);
    LacoSegue(ts, i + 1, Some("inteiro"), st);
    LacoFim(ts, i + 3, Some("logico"), st);
  }

  /** An identifier with no visible symbol: one "não declarada" message and no type. */
  lemma ExpressaoNaoDeclarada(ts: seq<Token>, i: nat, st: Estado)
    requires i < |ts| && ts[i].kind == TIdentificador && Fim(ts, i + 1)
    requires forall k :: 0 <= k < |st.tabela| ==> !Visivel(st.tabela[k], ts[i].lexeme, Topo(st.pilha))
    ensures Expressao(ts, i, st) == Avaliacao(None, i, Erro(st, ts[i].line, NaoDeclarada(ts[i].lexeme)))
  {
    var st1 := Erro(st, ts[i].line, NaoDeclarada(ts[i].lexeme));
    assert ObterSimbolo(st.tabela, ts[i].lexeme, Topo(st.pilha)).None?;
    assert PassoExpressao(ts, i, None, st) == Segue(i + 1, None, st1);
    LacoSegue(ts, i, None, st);
    LacoFim(ts, i + 1, None, st1);
  }

  // -------------------------------------------------- assignments, calls

  /** Assigning to a name with no visible symbol gives one "não declarada" message and nothing else. */
  lemma AtribuicaoNaoDeclarada(ts: seq<Token>, i: nat, st: Estado)
    requires i + 1 < |ts| && ts[i].kind == TIdentificador && ts[i + 1].kind == TAtribuicao
    requires forall k :: 0 <= k < |st.tabela| ==> !Visivel(st.tabela[k], ts[i].lexeme, Topo(st.pilha))
    ensures Passo(ts, i, st) == Volta(i + 2, Erro(st, ts[i].line, NaoDeclarada(ts[i].lexeme)))
  {
  }

  /**
   * A call of a visible function: a count that differs from the re-scanned
   * parameter list ends in one count message; equal counts with matching
   * types and a closing `)` add no message after the arguments'.
   */
  lemma ChamadaContagem(ts: seq<Token>, i: nat, st: Estado, k: nat)
    requires i + 1 < |ts| && ts[i].kind == TIdentificador && ts[i + 1].kind == TAbrePar
    requires ObterSimbolo(st.tabela, ts[i].lexeme, Topo(st.pilha)) == Some(k)
    requires st.tabela[k].categoria == CatFuncao
    ensures var st1 := st.(tabela := st.tabela[k := st.tabela[k].(utilizado := true)]);
      var a := Argumentos(ts, i + 2, [], st1);
      var ps := ParametrosDeclarados(ts, ts[i].lexeme);
      var v := Chamada(ts, i, st);
      v.j == a.fim &&
      (|a.tipos| != |ps| ==>
        v.st.erros[|v.st.erros| - 1] == SemErro(ts[i].line, NumeroDeArgumentos(ts[i].lexeme, |ps|, |a.tipos|))) &&
      ((|a.tipos| == |ps| && Tem(ts, a.fim, TFechaPar) &&
        forall n :: 0 <= n < |ps| ==> ps[n].tipo == a.tipos[n]) ==> v.st.erros == a.st.erros)
  {
  }

  // ----------------------------------------------------- final reports

  /** The message for a variable that is never initialised. */
  function AvisoInicializacao(s: Simbolo): SemErro {
    SemErro(s.linha, DeclaradaNaoInicializada(s.cadeia))
  }

  /** The message for a variable that is never used. */
  function AvisoUso(s: Simbolo): SemErro {
    SemErro(s.linha, DeclaradaNaoUtilizada(s.cadeia))
  }

  /** A message is in the first report exactly when it is the message of a never-initialised variable. */
  lemma {:induction false} NaoInicializadasExatas(tabela: seq<Simbolo>, inicializadas: set<string>, e: SemErro)
    ensures e in NaoInicializadas(tabela, inicializadas) <==>
      exists k :: 0 <= k < |tabela| && SemInicializacao(tabela[k], inicializadas) && e == AvisoInicializacao(tabela[k])
    decreases |tabela|
  {
    if tabela != [] {
      var n := |tabela| - 1;
      var prefixo := tabela[..n];
      NaoInicializadasExatas(prefixo, inicializadas, e);
      if e in NaoInicializadas(tabela, inicializadas) {
        if e in NaoInicializadas(prefixo, inicializadas) {
          var k :| 0 <= k < |prefixo| && SemInicializacao(prefixo[k], inicializadas) && e == AvisoInicializacao(prefixo[k]);
          assert tabela[k] == prefixo[k];
        } else {
          assert SemInicializacao(tabela[n], inicializadas) && e == AvisoInicializacao(tabela[n]);
        }
      }
      if exists k :: 0 <= k < |tabela| && SemInicializacao(tabela[k], inicializadas) && e == AvisoInicializacao(tabela[k]) {
        var k :| 0 <= k < |tabela| && SemInicializacao(tabela[k], inicializadas) && e == AvisoInicializacao(tabela[k]);
        if k < n {
          assert prefixo[k] == tabela[k];
        }
      }
    }
  }

  /** A message is in the second report exactly when it is the message of a never-used variable. */
  lemma {:induction false} NaoUtilizadasExatas(tabela: seq<Simbolo>, usadas: set<string>, e: SemErro)
    ensures e in NaoUtilizadas(tabela, usadas) <==>
      exists k :: 0 <= k < |tabela| && SemUso(tabela[k], usadas) && e == AvisoUso(tabela[k])
    decreases |tabela|
  {
    if tabela != [] {
      var n := |tabela| - 1;
      var prefixo := tabela[..n];
      var ultimo := if SemUso(tabela[n], usadas) then [AvisoUso(tabela[n])] else [];
      assert NaoUtilizadas(tabela, usadas) == NaoUtilizadas(prefixo, usadas) + ultimo;
      NaoUtilizadasExatas(prefixo, usadas, e);
      if e in NaoUtilizadas(tabela, usadas) {
        if e in NaoUtilizadas(prefixo, usadas) {
          var k :| 0 <= k < |prefixo| && SemUso(prefixo[k], usadas) && e == AvisoUso(prefixo[k]);
          assert tabela[k] == prefixo[k];
        } else {
          assert SemUso(tabela[n], usadas) && e == AvisoUso(tabela[n]);
        }
      }
      if exists k :: 0 <= k < |tabela| && SemUso(tabela[k], usadas) && e == AvisoUso(tabela[k]) {
        var k :| 0 <= k < |tabela| && SemUso(tabela[k], usadas) && e == AvisoUso(tabela[k]);
        if k < n {
          assert prefixo[k] == tabela[k];
        }
      }
    }
  }

  /** Each symbol adds at most one message to each report: appending one symbol appends its own. */
  lemma NaoInicializadasAppend(tabela: seq<Simbolo>, s: Simbolo, inicializadas: set<string>)
    ensures NaoInicializadas(tabela + [s], inicializadas) ==
      NaoInicializadas(tabela, inicializadas) + (if SemInicializacao(s, inicializadas) then [AvisoInicializacao(s)] else [])
  {
    assert (tabela + [s])[..|tabela|] == tabela;
  }

  // ------------------------------------------------------------ findings

  /**
   * `adicionarSimbolo` as written: a redeclaration reports into
   * `tabelaSimbolos.erros`, a property the array never has, so the call
   * throws (`None`) instead of reporting.
   */
  function AdicionarSimboloAsWritten(st: Estado, cadeia: string, categoria: Categoria, tipo: string,
                                     escopo: string, linha: int): (r: Option<Estado>)
    ensures r.None? <==> Declarado(st.tabela, cadeia, escopo)
    ensures r.Some? ==> r.value == AdicionarSimbolo(st, cadeia, categoria, tipo, escopo, linha)
  {
    if Declarado(st.tabela, cadeia, escopo) then None
    else Some(st.(tabela := st.tabela + [Simbolo(cadeia, categoria, tipo, escopo, linha, false, false)]))
  }

  /** `variavel x : inteiro variavel x : inteiro` on line 1. */
  function DeclaracaoDupla(): (ts: seq<Token>)
    ensures |ts| == 8 && ts[0] == ts[4]
  {
    [Token("variavel", TVariavel, 1), Token("x", TIdentificador, 1), Token(":", TDoisPontos, 1),
     Token("inteiro", TTipo, 1),
     Token("variavel", TVariavel, 1), Token("x", TIdentificador, 1), Token(":", TDoisPontos, 1),
     Token("inteiro", TTipo, 1)]
  }

  /** The table after the first `variavel x : inteiro`. */
  function SoX(): Estado {
    Inicial([]).(tabela := [Simbolo("x", CatVariavel, "inteiro", "global", 1, false, false)])
  }

  /** The first declaration registers `x` in `global` and stops at its type. */
  lemma PrimeiraDeclaracao()
    ensures Passo(DeclaracaoDupla(), 0, Inicial([])) == Volta(3, SoX())
  {
    assert AdicionarSimbolo(Inicial([]), "x", CatVariavel, "inteiro", "global", 1) == SoX();
  }

  /** The second declaration finds `x` in `global` and only reports it. */
  lemma SegundaDeclaracao()
    ensures Declarado(SoX().tabela, "x", "global")
    ensures Passo(DeclaracaoDupla(), 4, SoX()) == Volta(7, Erro(SoX(), 1, Redeclaracao("x", "global")))
  {
    assert SoX().tabela[0].cadeia == "x" && SoX().tabela[0].escopo == "global";
    assert AdicionarSimbolo(SoX(), "x", CatVariavel, "inteiro", "global", 1) ==
      Erro(SoX(), 1, Redeclaracao("x", "global"));
  }

  /**
   * On the second declaration of `x` the source's `adicionarSimbolo`
   * throws, while the model reports one redeclaration and keeps one `x`.
   */
  lemma RedeclaracaoExemplo()
    ensures AdicionarSimboloAsWritten(SoX(), "x", CatVariavel, "inteiro", "global", 1).None?
    ensures Principal(DeclaracaoDupla(), 0, Inicial([])).erros == [SemErro(1, Redeclaracao("x", "global"))]
    ensures |Principal(DeclaracaoDupla(), 0, Inicial([])).tabela| == 1
  {
    var ts := DeclaracaoDupla();
    PrimeiraDeclaracao();
    SegundaDeclaracao();
    PrincipalPasso(ts, 0, Inicial([]));
    PrincipalPasso(ts, 4, SoX());
  }

  /**
   * The `(` case of `processarExpressao` as written, one level deep: it
   * checks for `)` at the last token the inner expression consumed, and
   * steps only to the token after that one.  The inner expression is read
   * by `Expressao`, whose own `(` case is the corrected one, so this is the
   * source's behaviour exactly when the group holds no further `(`.
   */
  function ParentesesAsWritten(ts: seq<Token>, i: nat, st: Estado): (p: PassoExpr)
    requires i < |ts|
    ensures p.Segue? && i < p.prox <= |ts| && Mantem(st, p.st)
  {
    var r := Expressao(ts, i + 1, st);
    if Tem(ts, r.indice, TFechaPar) then Segue(r.indice + 1, r.tipo, r.st)
    else Segue(r.indice + 1, r.tipo, Erro(r.st, LinhaOu(ts, r.indice, ts[i].line), FechaParExpressao))
  }

  /** On `( 1 )` the source reports a missing `)` at the `1` and leaves the `)` unread. */
  lemma ParentesesAsWrittenNumero(ts: seq<Token>, i: nat, st: Estado)
    requires i + 2 < |ts| && ts[i].kind == TAbrePar && ts[i + 1].kind == TNum && ts[i + 2].kind == TFechaPar
    ensures ParentesesAsWritten(ts, i, st) ==
      Segue(i + 2, Some("inteiro"), Erro(st, LinhaOu(ts, i + 1, ts[i].line), FechaParExpressao))
  {
    ExpressaoNumero(ts, i + 1, st);
  }

  /** The model reads `( 1 )` whole, as `inteiro`, with no message. */
  lemma ParentesesNumero(ts: seq<Token>, i: nat, st: Estado)
    requires i + 2 < |ts| && ts[i].kind == TAbrePar && ts[i + 1].kind == TNum && ts[i + 2].kind == TFechaPar
    ensures Parenteses(ts, i, st) == Segue(i + 3, Some("inteiro"), st)
  {
    ExpressaoNumero(ts, i + 1, st);
  }

  /**
   * The argument loop of a call as written: it runs while the token is not
   * `)`, with no other exit; `fuel` bounds the turns, and `None` means the
   * turns ran out.
   */
  function ArgumentosAsWritten(ts: seq<Token>, i: nat, tipos: seq<string>, st: Estado, fuel: nat): (a: Option<Lista>)
    requires i <= |ts|
    ensures a.Some? ==> a.value.fim == |ts| || Tem(ts, a.value.fim, TFechaPar)
    decreases fuel
  {
    if i == |ts| || ts[i].kind == TFechaPar then Some(Lista(i, tipos, st))
    else if fuel == 0 then None
    else
      var a := Argumento(ts, i, tipos, st);
      ArgumentosAsWritten(ts, a.fim, a.tipos, a.st, fuel - 1)
  }

  /** A token that is neither `)`, `,` nor the start of an expression, as the `;` of `f(x;`. */
  predicate Travado(ts: seq<Token>, i: nat) {
    i < |ts| && ts[i].kind != TFechaPar && ts[i].kind != TVirgula && !InicioExpressao(ts[i].kind)
  }

  /** At such a token one turn of the argument loop changes nothing. */
  lemma ArgumentoParado(ts: seq<Token>, i: nat, tipos: seq<string>, st: Estado)
    requires Travado(ts, i)
    ensures Argumento(ts, i, tipos, st) == Lista(i, tipos, st)
  {
    LacoFim(ts, i, None, st);
  }

  /** So the source's loop never ends there, however many turns it is given. */
  lemma {:induction false} ArgumentosAsWrittenNaoTermina(ts: seq<Token>, i: nat, tipos: seq<string>, st: Estado, fuel: nat)
    requires Travado(ts, i)
    ensures ArgumentosAsWritten(ts, i, tipos, st, fuel).None?
    decreases fuel
  {
    if fuel > 0 {
      ArgumentoParado(ts, i, tipos, st);
      ArgumentosAsWrittenNaoTermina(ts, i, tipos, st, fuel - 1);
    }
  }

  /** The model's loop stops there, and the call then reports the missing `)`. */
  lemma ArgumentosParam(ts: seq<Token>, i: nat, tipos: seq<string>, st: Estado)
    requires Travado(ts, i)
    ensures Argumentos(ts, i, tipos, st) == Lista(i, tipos, st) && !Tem(ts, i, TFechaPar)
  {
    ArgumentoParado(ts, i, tipos, st);
  }
}
