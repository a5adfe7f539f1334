/**
 * `analisarSemantico` with the source's mutable state: the symbol table, the error
 * list, the two name sets and the scope stack are fields that the steps of
 * the pass update in place, and each loop of the source is a `while` loop.
 * Every method is proved to leave the fields as the function of the same
 * piece in `Semantico` says.  Those functions run the corrected
 * redeclaration, `(` and argument cases, so these methods do too; the cases
 * as written are in `SemanticoProps`.
 */
module SemanticoExec {
  import opened Wrappers
  import opened Tokens
  import opened Semantico

  /** `obterParametrosFuncao`: the `for` scan for `funcao nome`, then its parameter loop. */
  method ObterParametrosFuncao(nome: string, ts: seq<Token>) returns (ps: seq<Parametro>)
    ensures ps == ParametrosDeclarados(ts, nome)
  {
    ps := [];
    var i := 0;
    while i < |ts|
      invariant i <= |ts|
      invariant BuscarFuncao(ts, nome, i) == BuscarFuncao(ts, nome, 0)
      decreases |ts| - i
    {
      if ts[i].kind == TFuncao && i + 1 < |ts| && ts[i + 1].lexeme == nome {
        ps := LerParametrosDe(ts, i + 2);
        return;
      }
      i := i + 1;
    }
  }

  /** After `funcao nome`: `(` and the `nome : tipo {, nome : tipo}` loop. */
  method LerParametrosDe(ts: seq<Token>, i0: nat) returns (ps: seq<Parametro>)
    requires i0 <= |ts|
    ensures Tem(ts, i0, TAbrePar) ==> ps == LerParametros(ts, i0 + 1, [])
    ensures !Tem(ts, i0, TAbrePar) ==> ps == []
  {
    if Tem(ts, i0, TAbrePar) {
      ps := LerListaParametros(ts, i0 + 1);
    } else {
      ps := [];
    }
  }

  /** The loop itself, from the first name. */
  method LerListaParametros(ts: seq<Token>, i0: nat) returns (ps: seq<Parametro>)
    requires i0 <= |ts|
    ensures ps == LerParametros(ts, i0, [])
  {
    ps := [];
    var i := i0;
    while Tem(ts, i, TIdentificador)
      invariant i0 <= i <= |ts|
      invariant LerParametros(ts, i, ps) == LerParametros(ts, i0, [])
      decreases |ts| - i
    {
      i, ps := LerUmParametro(ts, i, ps);
      if Tem(ts, i, TVirgula) {
        i := i + 1;
      } else {
        break;
      }
    }
  }

  /** The body of that loop: one `nome [: [tipo]]`. */
  method LerUmParametro(ts: seq<Token>, i0: nat, acc: seq<Parametro>) returns (i: nat, ps: seq<Parametro>)
    requires i0 < |ts|
    ensures Leitura(i, ps) == LerParametro(ts, i0, acc)
  {
    i, ps := i0, acc;
    var paramNome := ts[i].lexeme;
    i := i + 1;
    if Tem(ts, i, TDoisPontos) {
      i := i + 1;
      if Tem(ts, i, TTipo) {
        ps := ps + [Parametro(paramNome, ts[i].lexeme)];
      }
    }
    i := i + 1;
  }

  /**
   * The local state of `analisarSemantico`: `tabelaSimbolos`, `erros`,
   * `variaveisUsadas`, `variaveisInicializadas` and `pilhaEscopos`, over the
   * token list `ts`.
   */
  class Analise {
    const ts: seq<Token>
    var tabela: seq<Simbolo>
    var erros: seq<SemErro>
    var usadas: set<string>
    var inicializadas: set<string>
    var pilha: seq<string>

    function St(): Estado
      reads this
    {
      Estado(tabela, erros, usadas, inicializadas, pilha)
    }

    /** `[...tabelaSimbolosInicial]`, empty lists and sets, and the stack `['global']`. */
    constructor(tokens: seq<Token>, inicial: seq<Simbolo>)
      ensures ts == tokens && St() == Inicial(inicial)
    {
      ts := tokens;
      tabela := inicial;
      erros := [];
      usadas := {};
      inicializadas := {};
      pilha := ["global"];
    }

    /** `adicionarErro`. */
    method AdicionarErro(linha: int, msg: SemMsg)
      modifies this
      ensures St() == Erro(old(St()), linha, msg)
    {
      erros := erros + [SemErro(linha, msg)];
    }

    /** `adicionarSimbolo`, with the redeclaration reported. */
    method Adicionar(cadeia: string, categoria: Categoria, tipo: string, escopo: string, linha: int)
      modifies this
      ensures St() == AdicionarSimbolo(old(St()), cadeia, categoria, tipo, escopo, linha)
    {
      var existente := exists k :: 0 <= k < |tabela| && tabela[k].cadeia == cadeia && tabela[k].escopo == escopo;
      if existente {
        AdicionarErro(linha, Redeclaracao(cadeia, escopo));
      } else {
        tabela := tabela + [Simbolo(cadeia, categoria, tipo, escopo, linha, false, false)];
      }
    }

    /** `verificarCompatibilidadeTipos(erros, ...)`. */
    method VerificarCompatibilidadeTipos(esq: string, dir: string, linha: int, ctx: Contexto) returns (ok: bool)
      modifies this
      ensures ok == Compatibilidade(esq, dir, linha, ctx).ok
      ensures St() == Verificado(old(St()), esq, dir, linha, ctx)
    {
      var v := Compatibilidade(esq, dir, linha, ctx);
      erros := erros + v.avisos;
      ok := v.ok;
    }

    // ------------------------------------------------ processarExpressao

    /** `processarExpressao(indice, ...)`: returns `tipo` and `indice`. */
    method ProcessarExpressao(indice: nat) returns (tipo: Option<string>, fim: int)
      requires indice <= |ts|
      modifies this
      ensures var r := Expressao(ts, indice, old(St())); tipo == r.tipo && fim == r.indice && St() == r.st
      decreases |ts| - indice, 3
    {
      var i := indice;
      tipo := None;
      while i < |ts|
        invariant indice <= i <= |ts|
        invariant Laco(ts, i, tipo, St()) == Expressao(ts, indice, old(St()))
        decreases |ts| - i
      {
        var continua, prox, t := ProcessarToken(i, tipo);
        if !continua {
          break;
        }
        i, tipo := prox, t;
      }
      fim := i - 1;
    }

    /** The body of the loop of `processarExpressao` for the token at `i`. */
    method ProcessarToken(i: nat, tipo: Option<string>) returns (continua: bool, prox: nat, t: Option<string>)
      requires i < |ts|
      modifies this
      ensures var p := PassoExpressao(ts, i, tipo, old(St()));
        (p.Pare? ==> !continua && St() == old(St())) &&
        (p.Segue? ==> continua && prox == p.prox && t == p.tipo && St() == p.st)
      decreases |ts| - i, 1
    {
      var tok := ts[i];
      var k := tok.kind;
      continua, prox, t := true, i + 1, tipo;
      if k == TIdentificador {
        t := UsarEmExpressao(i, tipo);
      } else if k == TNum {
        t := Some("inteiro");
      } else if k == TNumDecimal {
        t := Some("decimal");
      } else if k == TString {
        t := Some("texto");
      } else if k == TAbrePar {
        prox, t := ProcessarParenteses(i);
      } else if Aritmetico(k) {
        prox, t := ProcessarAritmetico(i, tipo);
      } else if Relacional(k) {
        prox := ProcessarRelacional(i);
        t := Some("logico");
      } else {
        continua := false;
      }
    }

    /** An identifier in an expression. */
    method UsarEmExpressao(i: nat, tipo: Option<string>) returns (t: Option<string>)
      requires i < |ts|
      modifies this
      ensures var p := UsoEmExpressao(ts, i, tipo, old(St())); t == p.tipo && St() == p.st
    {
      var tok := ts[i];
      var s := ObterSimbolo(tabela, tok.lexeme, Topo(pilha));
      t := tipo;
      if s.None? {
        AdicionarErro(tok.line, NaoDeclarada(tok.lexeme));
      } else {
        var simbolo := tabela[s.value];
        usadas := usadas + {tok.lexeme};
        tabela := tabela[s.value := simbolo.(utilizado := true)];
        if !simbolo.inicializado {
          AdicionarErro(tok.line, UsadaAntesDeInicializada(tok.lexeme));
        }
        t := Some(simbolo.tipo);
      }
    }

    /** `(`: the inner expression and its `)`. */
    method ProcessarParenteses(i: nat) returns (prox: nat, t: Option<string>)
      requires i < |ts|
      modifies this
      ensures var p := Parenteses(ts, i, old(St())); prox == p.prox && t == p.tipo && St() == p.st
      decreases |ts| - i, 0
    {
      var fim;
      t, fim := ProcessarExpressao(i + 1);
      if Tem(ts, fim + 1, TFechaPar) {
        prox := fim + 2;
      } else {
        AdicionarErro(LinhaOu(ts, fim + 1, ts[i].line), FechaParExpressao);
        prox := fim + 1;
      }
    }

    /** `+ - * /`. */
    method ProcessarAritmetico(i: nat, tipo: Option<string>) returns (prox: nat, t: Option<string>)
      requires i < |ts|
      modifies this
      ensures var p := OperacaoAritmetica(ts, i, tipo, old(St())); prox == p.prox && t == p.tipo && St() == p.st
      decreases |ts| - i, 0
    {
      var dir, fim := ProcessarExpressao(i + 1);
      var c := CombinarAritmetico(ts[i], tipo, dir);
      erros := erros + c.avisos;
      prox, t := fim + 1, c.tipo;
    }

    /** `< > == <= >=`. */
    method ProcessarRelacional(i: nat) returns (prox: nat)
      requires i < |ts|
      modifies this
      ensures var p := OperacaoRelacional(ts, i, old(St())); prox == p.prox && St() == p.st
      decreases |ts| - i, 0
    {
      var dir, fim := ProcessarExpressao(i + 1);
      prox := fim + 1;
    }

    // ---------------------------------------------------- the main loop

    /** The `for` loop of `analisarSemantico` over all tokens. */
    method PercorrerTokens()
      modifies this
      ensures St() == Principal(ts, 0, old(St()))
    {
      var i := 0;
      while i < |ts|
        invariant i <= |ts| + 1
        invariant Principal(ts, i, St()) == Principal(ts, 0, old(St()))
        decreases |ts| + 1 - i
      {
        i := Avancar(i);
      }
    }

    /** One turn of that loop, including the `i++`, as a step of `Principal`. */
    method Avancar(i: nat) returns (prox: nat)
      requires i < |ts|
      modifies this
      ensures i < prox <= |ts| + 1
      ensures Principal(ts, prox, St()) == Principal(ts, i, old(St()))
    {
      ghost var s0 := St();
      ghost var v := Passo(ts, i, s0);
      PrincipalPasso(ts, i, s0);
      assert Principal(ts, i, s0) == Principal(ts, v.j + 1, v.st);
      var j := ProcessarDeclaracao(i);
      assert j == v.j && St() == v.st;
      prox := j + 1;
      assert Principal(ts, prox, St()) == Principal(ts, v.j + 1, v.st);
    }

    /** One turn of that loop; returns where `i` stands before the loop's `i++`. */
    method ProcessarDeclaracao(i: nat) returns (j: nat)
      requires i < |ts|
      modifies this
      ensures var v := Passo(ts, i, old(St())); j == v.j && St() == v.st
    {
      var k := ts[i].kind;
      if k == TVariavel {
        j := AnalisarVariavel(i);
      } else if k == TFuncao {
        j := AnalisarFuncao(i);
      } else if k == TIdentificador && Tem(ts, i + 1, TAtribuicao) {
        j := AnalisarAtribuicao(i);
      } else if k == TIdentificador && Tem(ts, i + 1, TAbrePar) {
        j := AnalisarChamada(i);
      } else if k == TIdentificador {
        AnalisarUso(i);
        j := i;
      } else if k == TFechaChave && |pilha| > 1 {
        pilha := pilha[..|pilha| - 1];
        j := i;
      } else {
        j := i;
      }
    }

    /** `variavel nome : tipo [= expressao]`. */
    method AnalisarVariavel(i: nat) returns (j: nat)
      requires i < |ts|
      modifies this
      ensures var v := Variavel(ts, i, old(St())); j == v.j && St() == v.st
    {
      var tok := ts[i];
      var escopo := Topo(pilha);
      if !Tem(ts, i + 1, TIdentificador) {
        AdicionarErro(tok.line, IdAposVariavel);
        return i + 1;
      }
      if !Tem(ts, i + 2, TDoisPontos) {
        AdicionarErro(LinhaOu(ts, i + 2, tok.line), DoisPontosVariavel);
        return i + 2;
      }
      if !Tem(ts, i + 3, TTipo) {
        AdicionarErro(LinhaOu(ts, i + 3, tok.line), TipoEsperado);
        return i + 3;
      }
      var nome := ts[i + 1].lexeme;
      var tipo := ts[i + 3].lexeme;
      Adicionar(nome, CatVariavel, tipo, escopo, tok.line);
      if Tem(ts, i + 4, TAtribuicao) {
        j := AnalisarInicializacao(i + 5, nome, tipo, escopo, tok.line);
      } else {
        j := i + 3;
      }
    }

    /** The initialiser of a declaration. */
    method AnalisarInicializacao(e: nat, nome: string, tipo: string, escopo: string, linha: int) returns (j: nat)
      requires 1 <= e <= |ts|
      modifies this
      ensures var v := Inicializacao(ts, e, nome, tipo, escopo, linha, old(St())); j == v.j && St() == v.st
    {
      var tipoExpressao, fim := ProcessarExpressao(e);
      j := fim;
      var s := ObterSimbolo(tabela, nome, escopo);
      if s.Some? {
        if Presente(tipoExpressao) {
          var ok := VerificarCompatibilidadeTipos(tipo, tipoExpressao.value, linha, AtribuicaoA(nome));
        }
        tabela := tabela[s.value := tabela[s.value].(inicializado := true)];
        inicializadas := inicializadas + {nome};
      }
    }

    /** `funcao nome ( parametros )`. */
    method AnalisarFuncao(i: nat) returns (j: nat)
      requires i < |ts|
      modifies this
      ensures var v := Funcao(ts, i, old(St())); j == v.j && St() == v.st
    {
      var tok := ts[i];
      if !Tem(ts, i + 1, TIdentificador) {
        AdicionarErro(tok.line, IdAposFuncao);
        return i + 1;
      }
      var nome := ts[i + 1].lexeme;
      pilha := pilha + [nome];
      Adicionar(nome, CatFuncao, "void", "global", tok.line);
      if !Tem(ts, i + 2, TAbrePar) {
        return i + 2;
      }
      j := AnalisarParametros(i + 3, nome, tok.line);
      if !Tem(ts, j, TFechaPar) {
        AdicionarErro(LinhaOu(ts, j, tok.line), FechaParParametros);
      }
    }

    /** The parameter loop of a declaration. */
    method AnalisarParametros(i0: nat, funcao: string, linha: int) returns (j: nat)
      requires i0 <= |ts|
      modifies this
      ensures var v := Parametros(ts, i0, funcao, linha, old(St())); j == v.j && St() == v.st
    {
      var i := i0;
      while Tem(ts, i, TIdentificador)
        invariant i0 <= i <= |ts|
        invariant Parametros(ts, i, funcao, linha, St()) == Parametros(ts, i0, funcao, linha, old(St()))
        decreases |ts| - i
      {
        var segue;
        i, segue := ProximoParametro(i, funcao, linha);
        if !segue {
          break;
        }
      }
      j := i;
    }

    /** One turn of that loop, from the name at `i0`. */
    method ProximoParametro(i0: nat, funcao: string, linha: int) returns (i: nat, segue: bool)
      requires Tem(ts, i0, TIdentificador)
      modifies this
      ensures (Volta(i, St()), segue) == UmParametro(ts, i0, funcao, linha, old(St()))
    {
      var paramNome := ts[i0].lexeme;
      if !Tem(ts, i0 + 1, TDoisPontos) {
        AdicionarErro(LinhaOu(ts, i0 + 1, linha), DoisPontosParametro);
        return i0 + 1, true;
      }
      if !Tem(ts, i0 + 2, TTipo) {
        AdicionarErro(LinhaOu(ts, i0 + 2, linha), TipoParametro);
        return i0 + 2, true;
      }
      Adicionar(paramNome, CatVariavel, ts[i0 + 2].lexeme, funcao, linha);
      inicializadas := inicializadas + {paramNome};
      if Tem(ts, i0 + 3, TVirgula) {
        return i0 + 4, true;
      }
      return i0 + 3, false;
    }

    /** The `usaProprioValor` scan from `j0`. */
    method ProcurarProprioValor(j0: nat, nome: string) returns (usa: bool)
      ensures usa == UsaProprioValor(ts, j0, nome)
    {
      usa := false;
      var j := j0;
      while j < |ts|
        invariant j0 <= j
        invariant UsaProprioValor(ts, j, nome) == UsaProprioValor(ts, j0, nome)
        decreases |ts| - j
      {
        if ts[j].kind == TIdentificador && ts[j].lexeme == nome {
          usa := true;
          break;
        }
        if Aritmetico(ts[j].kind) || Relacional(ts[j].kind) {
          j := j + 1;
          continue;
        }
        break;
      }
    }

    /** `nome = expressao`. */
    method AnalisarAtribuicao(i: nat) returns (j: nat)
      requires i + 1 < |ts|
      modifies this
      ensures var v := Atribuicao(ts, i, old(St())); j == v.j && St() == v.st
    {
      var tok := ts[i];
      var nome := tok.lexeme;
      var s := ObterSimbolo(tabela, nome, Topo(pilha));
      if s.None? {
        AdicionarErro(tok.line, NaoDeclarada(nome));
        return i + 2;
      }
      var k := s.value;
      var simbolo := tabela[k];
      var usa := ProcurarProprioValor(i + 2, nome);
      if !simbolo.inicializado && usa {
        AdicionarErro(tok.line, NaoInicializadaNaAtribuicao(nome));
      }
      var tipoExpressao, fim := ProcessarExpressao(i + 2);
      if Presente(tipoExpressao) {
        var ok := VerificarCompatibilidadeTipos(simbolo.tipo, tipoExpressao.value, tok.line, AtribuicaoA(nome));
      }
      tabela := tabela[k := tabela[k].(inicializado := true)];
      inicializadas := inicializadas + {nome};
      j := fim;
    }

    /** The argument loop of a call, from `i0`. */
    method AnalisarArgumentos(i0: nat) returns (fim: nat, tipos: seq<string>)
      requires i0 <= |ts|
      modifies this
      ensures var a := Argumentos(ts, i0, [], old(St())); fim == a.fim && tipos == a.tipos && St() == a.st
    {
      var i := i0;
      tipos := [];
      while i < |ts| && ts[i].kind != TFechaPar
        invariant i0 <= i <= |ts|
        invariant Argumentos(ts, i, tipos, St()) == Argumentos(ts, i0, [], old(St()))
        decreases |ts| - i
      {
        var prox, t := ProcessarArgumento(i, tipos);
        tipos := t;
        if prox == i {
          break;
        }
        i := prox;
      }
      fim := i;
    }

    /** The body of the argument loop for the argument at `i`. */
    method ProcessarArgumento(i: nat, tipos: seq<string>) returns (prox: nat, t: seq<string>)
      requires i < |ts|
      modifies this
      ensures var a := Argumento(ts, i, tipos, old(St())); prox == a.fim && t == a.tipos && St() == a.st
    {
      var tipo, indice := ProcessarExpressao(i);
      t := tipos;
      if Presente(tipo) {
        t := t + [tipo.value];
      }
      prox := indice + 1;
      if Tem(ts, prox, TVirgula) {
        prox := prox + 1;
      }
    }

    /** The `for` loop checking each argument against its parameter. */
    method VerificarArgumentos(tipos: seq<string>, ps: seq<Parametro>, linha: int, funcao: string)
      requires |tipos| == |ps|
      modifies this
      ensures St() == old(St()).(erros := old(erros) + ChecarArgumentos(tipos, ps, linha, funcao, 0))
    {
      var j := 0;
      while j < |tipos|
        invariant j <= |tipos|
        invariant tabela == old(tabela) && usadas == old(usadas) && inicializadas == old(inicializadas) && pilha == old(pilha)
        invariant erros + ChecarArgumentos(tipos, ps, linha, funcao, j) ==
          old(erros) + ChecarArgumentos(tipos, ps, linha, funcao, 0)
        decreases |tipos| - j
      {
        ghost var e0 := erros;
        ghost var a := Compatibilidade(ps[j].tipo, tipos[j], linha, ArgumentoDe(j + 1, funcao)).avisos;
        ghost var resto := ChecarArgumentos(tipos, ps, linha, funcao, j + 1);
        assert ChecarArgumentos(tipos, ps, linha, funcao, j) == a + resto;
        var ok := VerificarCompatibilidadeTipos(ps[j].tipo, tipos[j], linha, ArgumentoDe(j + 1, funcao));
        assert erros == e0 + a;
        assert e0 + (a + resto) == (e0 + a) + resto;
        j := j + 1;
      }
    }

    /** `nome ( argumentos )`. */
    method AnalisarChamada(i: nat) returns (j: nat)
      requires i + 1 < |ts|
      modifies this
      ensures var v := Chamada(ts, i, old(St())); j == v.j && St() == v.st
    {
      var tok := ts[i];
      var nome := tok.lexeme;
      var s := ObterSimbolo(tabela, nome, Topo(pilha));
      if s.None? {
        AdicionarErro(tok.line, FuncaoNaoDeclarada(nome));
        return i;
      }
      var k := s.value;
      if tabela[k].categoria != CatFuncao {
        AdicionarErro(tok.line, NaoEhFuncao(nome));
        return i;
      }
      tabela := tabela[k := tabela[k].(utilizado := true)];
      var tipos;
      j, tipos := AnalisarArgumentos(i + 2);
      if !Tem(ts, j, TFechaPar) {
        AdicionarErro(LinhaOu(ts, j, tok.line), FechaParChamada);
      }
      var ps := ObterParametrosFuncao(nome, ts);
      if |tipos| != |ps| {
        AdicionarErro(tok.line, NumeroDeArgumentos(nome, |ps|, |tipos|));
      } else {
        VerificarArgumentos(tipos, ps, tok.line, nome);
      }
    }

    /** Any other identifier. */
    method AnalisarUso(i: nat)
      requires i < |ts|
      modifies this
      ensures St() == Uso(ts, i, old(St())).st
    {
      var tok := ts[i];
      var s := ObterSimbolo(tabela, tok.lexeme, Topo(pilha));
      if s.None? {
        AdicionarErro(tok.line, NaoDeclarada(tok.lexeme));
      } else {
        usadas := usadas + {tok.lexeme};
        tabela := tabela[s.value := tabela[s.value].(utilizado := true)];
      }
    }

    // ------------------------------------------------- the final reports

    /** The first `forEach` over the table. */
    method RelatarNaoInicializadas()
      modifies this
      ensures St() == old(St()).(erros := old(erros) + NaoInicializadas(tabela, inicializadas))
    {
      var k := 0;
      while k < |tabela|
        invariant k <= |tabela| && St() == old(St()).(erros := erros)
        invariant erros == old(erros) + NaoInicializadas(tabela[..k], inicializadas)
        decreases |tabela| - k
      {
        var s := tabela[k];
        assert tabela[..k + 1][..k] == tabela[..k];
        if SemInicializacao(s, inicializadas) {
          AdicionarErro(s.linha, DeclaradaNaoInicializada(s.cadeia));
        }
        k := k + 1;
      }
      assert tabela[..k] == tabela;
    }

    /** The second `forEach` over the table. */
    method RelatarNaoUtilizadas()
      modifies this
      ensures St() == old(St()).(erros := old(erros) + NaoUtilizadas(tabela, usadas))
    {
      var k := 0;
      while k < |tabela|
        invariant k <= |tabela| && St() == old(St()).(erros := erros)
        invariant erros == old(erros) + NaoUtilizadas(tabela[..k], usadas)
        decreases |tabela| - k
      {
        var s := tabela[k];
        assert tabela[..k + 1][..k] == tabela[..k];
        if SemUso(s, usadas) {
          AdicionarErro(s.linha, DeclaradaNaoUtilizada(s.cadeia));
        }
        k := k + 1;
      }
      assert tabela[..k] == tabela;
    }
  }

  /** `analisarSemantico(tokens, tabelaSimbolosInicial)`. */
  method AnalisarSemantico(tokens: seq<Token>, inicial: seq<Simbolo>) returns (r: Resultado)
    ensures r == Semantico.AnalisarSemantico(tokens, inicial)
  {
    var a := new Analise(tokens, inicial);
    a.PercorrerTokens();
    a.RelatarNaoInicializadas();
    a.RelatarNaoUtilizadas();
    r := Resultado(a.erros, Exportar(a.tabela));
  }
}
