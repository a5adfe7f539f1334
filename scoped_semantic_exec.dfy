/**
 * `analisarSemantico` of `analisardorSemantico.js` as the source runs it: the
 * cursor `indiceToken` and the list `erros` are variables its nested
 * functions update, and the table is a `TabelaSimbolos` object.  Here they are
 * the fields of an `Analisador`, whose methods are the nested functions; each
 * is proved to leave the cursor and the state where the function of the same
 * name in `SemanticoEscopos` says.  The `TypeError` of `verificarTipos` sets
 * `quebrou`.
 */
module SemanticoEscoposExec {
  import opened Wrappers
  import opened Tokens
  import opened TabelaEscopos
  import Parser
  import S = SemanticoEscopos

  class Analisador {
    /** `tokensComFim`. */
    const tc: seq<Token>
    const tabela: TabelaSimbolos
    var indiceToken: nat
    var erros: seq<Mensagem>
    var quebrou: bool

    /** The state as the functions of `SemanticoEscopos` see it. */
    function St(): S.Estado
      reads this, tabela
    {
      S.Estado(tabela.Valor(), erros, quebrou)
    }

    predicate Valid()
      reads this, tabela
    {
      S.Pre(tc, indiceToken) && Valida(tabela.Valor())
    }

    /** The cursor and the state are those of `r`. */
    predicate Chegou(r: S.Volta)
      reads this, tabela
    {
      Valid() && indiceToken == r.i && St() == r.st
    }

    /** The same for an expression, whose type the method returns. */
    predicate ChegouTipada(r: S.Tipada, tipo: string)
      reads this, tabela
    {
      Valid() && indiceToken == r.i && St() == r.st && tipo == r.tipo
    }

    constructor(tokens: seq<Token>)
      ensures tc == S.ComFim(tokens) && fresh(tabela)
      ensures Chegou(S.Volta(0, S.Estado(Nova(), [], false)))
    {
      tc := S.ComFim(tokens);
      tabela := new TabelaSimbolos();
      indiceToken := 0;
      erros := [];
      quebrou := false;
    }

    // ------------------------------------------------------------ helpers

    /** `consumir(k)`. */
    method Consumir(k: Kind) returns (ok: bool)
      requires Valid() && k != TEnd
      modifies this
      ensures Chegou(S.Volta(S.Consumir(tc, old(indiceToken), k), old(St())))
      ensures ok <==> Parser.At(tc, old(indiceToken), k)
    {
      ok := tc[indiceToken].kind == k;
      if ok {
        indiceToken := indiceToken + 1;
      }
    }

    /** `if (erro) erros.push(erro)`. */
    method Relatar(erro: Option<Mensagem>)
      requires Valid()
      modifies this
      ensures Chegou(S.Volta(old(indiceToken), S.Relatar(old(St()), erro)))
    {
      if erro.Some? {
        erros := erros + [erro.value];
      }
    }

    method Declarar(nome: string, tipo: string, linha: int)
      requires Valid()
      modifies this, tabela
      ensures Chegou(S.Volta(old(indiceToken), S.Declarar(old(St()), nome, tipo, linha)))
    {
      var erro := tabela.AdicionarSimbolo(nome, tipo, linha);
      Relatar(erro);
    }

    method Inicializada(nome: string, linha: int)
      requires Valid()
      modifies this, tabela
      ensures Chegou(S.Volta(old(indiceToken), S.Inicializada(old(St()), nome, linha)))
    {
      var erro := tabela.MarcarInicializado(nome, linha);
      Relatar(erro);
    }

    method Usada(nome: string, linha: int)
      requires Valid()
      modifies this, tabela
      ensures Chegou(S.Volta(old(indiceToken), S.Usada(old(St()), nome, linha)))
    {
      var erro := tabela.MarcarUsado(nome, linha);
      Relatar(erro);
    }

    /** `tabela.verificarTipos(...)` and the push of its message, or the throw. */
    method Verificar(esquerda: string, direita: string, linha: int, operacao: Operacao)
      requires Valid()
      modifies this
      ensures Chegou(S.Volta(old(indiceToken), S.Verificar(old(St()), esquerda, direita, linha, operacao)))
    {
      if !TipoConhecido(esquerda) {
        quebrou := true;
      } else {
        Relatar(VerificarTipos(esquerda, direita, linha, operacao));
      }
    }

    // --------------------------------------------------------- statements

    /** `programa` and the body of every block: `while (firstDeclaracao...) declaracao()`. */
    method Declaracoes()
      requires Valid()
      modifies this, tabela
      ensures Chegou(S.Declaracoes(tc, old(indiceToken), old(St())))
      decreases |tc| - indiceToken, 7
    {
      while Parser.FirstDeclaracao(tc[indiceToken].kind)
        invariant Valid() && old(indiceToken) <= indiceToken
        invariant S.Declaracoes(tc, indiceToken, St()) == S.Declaracoes(tc, old(indiceToken), old(St()))
        decreases |tc| - indiceToken
      {
        Declaracao();
      }
    }

    method Declaracao()
      requires Valid() && Parser.FirstDeclaracao(tc[indiceToken].kind)
      modifies this, tabela
      ensures Chegou(S.Declaracao(tc, old(indiceToken), old(St())))
      decreases |tc| - indiceToken, 6
    {
      var k := tc[indiceToken].kind;
      if k == TVariavel {
        DeclaracaoVariavel();
      } else if k == TIdentificador {
        if Parser.At(tc, indiceToken + 1, TAbrePar) {
          ChamadaFuncao();
        } else {
          Atribuicao();
        }
      } else if k == TSe {
        Condicional();
      } else if k == TEnquanto {
        Enquanto();
      } else if k == TPara {
        Para();
      } else if k == TFuncao {
        DeclaracaoFuncao();
      } else {
        Retornar();
      }
    }

    method Retornar()
      requires Valid() && Parser.At(tc, indiceToken, TRetornar)
      modifies this, tabela
      ensures Chegou(S.Retornar(tc, old(indiceToken), old(St())))
    {
      var ok := Consumir(TRetornar);
      var _ := Expressao();
      ok := Consumir(TPv);
    }

    method DeclaracaoVariavel()
      requires Valid() && Parser.At(tc, indiceToken, TVariavel)
      modifies this, tabela
      ensures Chegou(S.DeclaracaoVariavel(tc, old(indiceToken), old(St())))
    {
      var ok := Consumir(TVariavel);
      var ident := tc[indiceToken];
      ok := Consumir(TIdentificador);
      ok := Consumir(TDoisPontos);
      var tipo := tc[indiceToken];
      ok := Consumir(TTipo);
      Declarar(ident.lexeme, tipo.lexeme, ident.line);
      RestoVariavel(ident, tipo.lexeme);
    }

    method RestoVariavel(ident: Token, tipo: string)
      requires Valid()
      modifies this, tabela
      ensures Chegou(S.RestoVariavel(tc, old(indiceToken), old(St()), ident, tipo))
    {
      var ok := Consumir(TAtribuicao);
      if ok {
        Inicializacao(ident, tipo);
      }
      ok := Consumir(TPv);
    }

    method Inicializacao(ident: Token, tipo: string)
      requires Valid()
      modifies this, tabela
      ensures Chegou(S.Inicializacao(tc, old(indiceToken), old(St()), ident, tipo))
    {
      var tipoExpressao := Expressao();
      Verificar(tipo, tipoExpressao, ident.line, NaAtribuicao);
      Inicializada(ident.lexeme, ident.line);
    }

    method Atribuicao()
      requires Valid()
      modifies this, tabela
      ensures Chegou(S.Atribuicao(tc, old(indiceToken), old(St())))
    {
      var ident := tc[indiceToken];
      var ok := Consumir(TIdentificador);
      ok := Consumir(TAtribuicao);
      var tipoExpressao := Expressao();
      ok := Consumir(TPv);
      Atribuir(ident, tipoExpressao);
    }

    /** The end of `atribuicao`, from `tabela.buscarSimbolo`. */
    method Atribuir(ident: Token, tipo: string)
      requires Valid()
      modifies this, tabela
      ensures Chegou(S.Volta(old(indiceToken), S.Atribuir(old(St()), ident, tipo)))
    {
      var simbolo := tabela.BuscarSimbolo(ident.lexeme);
      if simbolo.None? {
        Relatar(Some(NaoDeclarada(ident.line, ident.lexeme)));
        return;
      }
      var declarado := tabela.escopos[simbolo.value.escopo][simbolo.value.indice];
      Verificar(declarado.tipo, tipo, ident.line, NaAtribuicao);
      Inicializada(ident.lexeme, ident.line);
    }

    method Bloco()
      requires Valid()
      modifies this, tabela
      ensures Chegou(S.Bloco(tc, old(indiceToken), old(St())))
      decreases |tc| - indiceToken, 8
    {
      tabela.EntrarEscopo();
      Declaracoes();
      tabela.SairEscopo();
      var ok := Consumir(TFechaChave);
    }

    method AbreBloco()
      requires Valid()
      modifies this, tabela
      ensures Chegou(S.AbreBloco(tc, old(indiceToken), old(St())))
      decreases |tc| - indiceToken, 9
    {
      var ok := Consumir(TAbreChave);
      Bloco();
    }

    method FechaEBloco()
      requires Valid()
      modifies this, tabela
      ensures Chegou(S.FechaEBloco(tc, old(indiceToken), old(St())))
      decreases |tc| - indiceToken, 10
    {
      var ok := Consumir(TFechaPar);
      AbreBloco();
    }

    method Condicional()
      requires Valid() && Parser.At(tc, indiceToken, TSe)
      modifies this, tabela
      ensures Chegou(S.Condicional(tc, old(indiceToken), old(St())))
      decreases |tc| - indiceToken, 5
    {
      var ok := Consumir(TSe);
      ok := Consumir(TAbrePar);
      ExpressaoRelacional();
      FechaEBloco();
      Senao();
    }

    method Senao()
      requires Valid()
      modifies this, tabela
      ensures Chegou(S.Senao(tc, old(indiceToken), old(St())))
      decreases |tc| - indiceToken, 5
    {
      var ok := Consumir(TSenao);
      if ok {
        AbreBloco();
      }
    }

    method Enquanto()
      requires Valid() && Parser.At(tc, indiceToken, TEnquanto)
      modifies this, tabela
      ensures Chegou(S.Enquanto(tc, old(indiceToken), old(St())))
      decreases |tc| - indiceToken, 5
    {
      var ok := Consumir(TEnquanto);
      ok := Consumir(TAbrePar);
      ExpressaoRelacional();
      FechaEBloco();
    }

    method Para()
      requires Valid() && Parser.At(tc, indiceToken, TPara)
      modifies this, tabela
      ensures Chegou(S.Para(tc, old(indiceToken), old(St())))
      decreases |tc| - indiceToken, 5
    {
      var ok := Consumir(TPara);
      ok := Consumir(TAbrePar);
      Atribuicao();
      ExpressaoRelacional();
      ParaIncremento();
    }

    method ParaIncremento()
      requires Valid()
      modifies this, tabela
      ensures Chegou(S.ParaIncremento(tc, old(indiceToken), old(St())))
      decreases |tc| - indiceToken, 11
    {
      var ok := Consumir(TPv);
      Atribuicao();
      FechaEBloco();
    }

    method DeclaracaoFuncao()
      requires Valid() && Parser.At(tc, indiceToken, TFuncao)
      modifies this, tabela
      ensures Chegou(S.DeclaracaoFuncao(tc, old(indiceToken), old(St())))
      decreases |tc| - indiceToken, 5
    {
      var ok := Consumir(TFuncao);
      var ident := tc[indiceToken];
      ok := Consumir(TIdentificador);
      ok := Consumir(TAbrePar);
      if tc[indiceToken].kind == TIdentificador {
        ListaParametros();
      }
      CorpoFuncao(ident);
    }

    method CorpoFuncao(ident: Token)
      requires Valid()
      modifies this, tabela
      ensures Chegou(S.CorpoFuncao(tc, old(indiceToken), old(St()), ident))
      decreases |tc| - indiceToken, 11
    {
      FechaEBloco();
      Declarar(ident.lexeme, "funcao", ident.line);
    }

    method ListaParametros()
      requires Valid()
      modifies this, tabela
      ensures Chegou(S.ListaParametros(tc, old(indiceToken), old(St())))
    {
      Parametro();
      var mais := Consumir(TVirgula);
      while mais
        invariant Valid() && old(indiceToken) <= indiceToken
        invariant mais ==> 0 < indiceToken && Parser.At(tc, indiceToken - 1, TVirgula)
        invariant (if mais then S.MaisParametros(tc, indiceToken - 1, St()) else S.Volta(indiceToken, St()))
          == S.ListaParametros(tc, old(indiceToken), old(St()))
        decreases |tc| - indiceToken, if mais then 1 else 0
      {
        Parametro();
        mais := Consumir(TVirgula);
      }
    }

    method Parametro()
      requires Valid()
      modifies this, tabela
      ensures Chegou(S.Parametro(tc, old(indiceToken), old(St())))
    {
      var ident := tc[indiceToken];
      var ok := Consumir(TIdentificador);
      ok := Consumir(TDoisPontos);
      var tipo := tc[indiceToken];
      ok := Consumir(TTipo);
      Declarar(ident.lexeme, tipo.lexeme, ident.line);
      Inicializada(ident.lexeme, ident.line);
    }

    method ChamadaFuncao()
      requires Valid() && Parser.At(tc, indiceToken, TIdentificador)
      modifies this, tabela
      ensures Chegou(S.ChamadaFuncao(tc, old(indiceToken), old(St())))
    {
      var ident := tc[indiceToken];
      var ok := Consumir(TIdentificador);
      ok := Consumir(TAbrePar);
      if S.InicioExpressao(tc[indiceToken].kind) {
        ListaArgumentos();
      }
      ok := Consumir(TFechaPar);
      ok := Consumir(TPv);
      Usada(ident.lexeme, ident.line);
    }

    /** `lista_argumentos`: `expressao(); while (consumir('t_virgula')) expressao();`. */
    method ListaArgumentos()
      requires Valid()
      modifies this, tabela
      ensures Chegou(S.ListaArgumentos(tc, old(indiceToken), old(St())))
    {
      var mais := true;
      while mais
        invariant Valid() && old(indiceToken) <= indiceToken
        invariant (if mais then S.ListaArgumentos(tc, indiceToken, St()) else S.Volta(indiceToken, St()))
          == S.ListaArgumentos(tc, old(indiceToken), old(St()))
        decreases |tc| - indiceToken, if mais then 1 else 0
      {
        mais := Argumento();
      }
    }

    /** An argument, then `consumir('t_virgula')`: whether another argument follows. */
    method Argumento() returns (mais: bool)
      requires Valid()
      modifies this, tabela
      ensures Valid() && old(indiceToken) <= indiceToken && (mais ==> old(indiceToken) < indiceToken)
      ensures (if mais then S.ListaArgumentos(tc, indiceToken, St()) else S.Volta(indiceToken, St()))
        == S.ListaArgumentos(tc, old(indiceToken), old(St()))
    {
      var _ := Expressao();
      mais := Consumir(TVirgula);
    }

    // -------------------------------------------------------- expressions

    method Expressao() returns (tipo: string)
      requires Valid()
      modifies this, tabela
      ensures ChegouTipada(S.Expressao(tc, old(indiceToken), old(St())), tipo)
      decreases |tc| - indiceToken, 4
    {
      tipo := Termo();
      while Parser.At(tc, indiceToken, TSoma) || Parser.At(tc, indiceToken, TSubtracao)
        invariant Valid() && old(indiceToken) <= indiceToken
        invariant S.MaisTermos(tc, indiceToken, St(), tipo) == S.Expressao(tc, old(indiceToken), old(St()))
        decreases |tc| - indiceToken
      {
        OutroTermo(tipo);
      }
    }

    /** One turn of the loop of `expressao`: the operator, the next operand, the check. */
    method OutroTermo(tipo: string)
      requires Valid() && (Parser.At(tc, indiceToken, TSoma) || Parser.At(tc, indiceToken, TSubtracao))
      modifies this, tabela
      ensures ChegouTipada(S.OutroTermo(tc, old(indiceToken), old(St()), tipo), tipo)
      decreases |tc| - indiceToken, 3
    {
      ghost var i0, st0 := indiceToken, St();
      var op := tc[indiceToken].lexeme;
      indiceToken := indiceToken + 1;
      assert St() == st0;
      var direita := Termo();
      ghost var d := S.Termo(tc, i0 + 1, st0);
      assert indiceToken == d.i && St() == d.st && direita == d.tipo;
      Verificar(tipo, direita, tc[indiceToken - 1].line, NaOperacao(op));
      assert S.OutroTermo(tc, i0, st0, tipo) == S.Tipada(d.i, S.Verificar(d.st, tipo, d.tipo, tc[d.i - 1].line, NaOperacao(op)), tipo);
    }

    method Termo() returns (tipo: string)
      requires Valid()
      modifies this, tabela
      ensures ChegouTipada(S.Termo(tc, old(indiceToken), old(St())), tipo)
      decreases |tc| - indiceToken, 2
    {
      tipo := Fator();
      while Parser.At(tc, indiceToken, TMultiplicacao) || Parser.At(tc, indiceToken, TDivisao)
        invariant Valid() && old(indiceToken) <= indiceToken
        invariant S.MaisFatores(tc, indiceToken, St(), tipo) == S.Termo(tc, old(indiceToken), old(St()))
        decreases |tc| - indiceToken
      {
        OutroFator(tipo);
      }
    }

    /** One turn of the loop of `termo`: the operator, the next operand, the check. */
    method OutroFator(tipo: string)
      requires Valid() && (Parser.At(tc, indiceToken, TMultiplicacao) || Parser.At(tc, indiceToken, TDivisao))
      modifies this, tabela
      ensures ChegouTipada(S.OutroFator(tc, old(indiceToken), old(St()), tipo), tipo)
      decreases |tc| - indiceToken, 1
    {
      ghost var i0, st0 := indiceToken, St();
      var op := tc[indiceToken].lexeme;
      indiceToken := indiceToken + 1;
      assert St() == st0;
      var direita := Fator();
      ghost var d := S.Fator(tc, i0 + 1, st0);
      assert indiceToken == d.i && St() == d.st && direita == d.tipo;
      Verificar(tipo, direita, tc[indiceToken - 1].line, NaOperacao(op));
      assert S.OutroFator(tc, i0, st0, tipo) == S.Tipada(d.i, S.Verificar(d.st, tipo, d.tipo, tc[d.i - 1].line, NaOperacao(op)), tipo);
    }

    method Fator() returns (tipo: string)
      requires Valid()
      modifies this, tabela
      ensures ChegouTipada(S.Fator(tc, old(indiceToken), old(St())), tipo)
      decreases |tc| - indiceToken, 0
    {
      var atual := tc[indiceToken];
      var ok := Consumir(TIdentificador);
      if ok {
        Usada(atual.lexeme, atual.line);
        var simbolo := tabela.BuscarSimbolo(atual.lexeme);
        tipo := if simbolo.Some? then tabela.escopos[simbolo.value.escopo][simbolo.value.indice].tipo else "desconhecido";
        return;
      }
      ok := Consumir(TNum);
      if ok {
        return "inteiro";
      }
      ok := Consumir(TAbrePar);
      if ok {
        tipo := Expressao();
        ok := Consumir(TFechaPar);
        return;
      }
      tipo := "desconhecido";
    }

    method ExpressaoRelacional()
      requires Valid()
      modifies this, tabela
      ensures Chegou(S.ExpressaoRelacional(tc, old(indiceToken), old(St())))
    {
      var esquerda := Expressao();
      if Parser.FirstOperadorRelacional(tc[indiceToken].kind) {
        indiceToken := indiceToken + 1;
        var direita := Expressao();
        Verificar(esquerda, direita, tc[indiceToken - 1].line, NaComparacao);
      }
    }
  }

  /**
   * `analisarSemantico`: run `programa`, then append the warnings of
   * `verificarNaoUsadas`; the result is that of the function.
   */
  method AnalisarSemantico(tokens: seq<Token>) returns (r: S.Resultado)
    ensures r == S.AnalisarSemantico(tokens)
  {
    var a := new Analisador(tokens);
    a.Declaracoes();
    if a.quebrou {
      return S.Excecao;
    }
    var avisos := a.tabela.VerificarNaoUsadas();
    r := S.Erros(a.erros + avisos);
  }

}
