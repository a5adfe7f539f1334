/**
 * `gerarCodigoIntermediario` as the source runs it: the output array, the two
 * counters and the label stack are variables the loop updates, and the inner
 * `while` loops move their own cursors.  Here they are the fields of a
 * `Gerador`; each method is proved to leave the fields where the function of
 * the same name in `CodigoIntermediario` says.
 */
module CodigoIntermediarioExec {
  import opened Tokens
  import S = CodigoIntermediario

  class Gerador {
    const tokens: seq<Token>
    var codigo: seq<S.Instr>
    var contadorTemp: nat
    var contadorRotulo: nat
    var pilhaRotulos: seq<S.Entrada>

    /** The fields, with the loop cursor `i`, as the functions see them. */
    function St(i: nat): S.Geracao
      reads this
    {
      S.Geracao(i, codigo, contadorTemp, contadorRotulo, pilhaRotulos)
    }

    constructor(ts: seq<Token>)
      ensures tokens == ts && St(0) == S.Inicio()
    {
      tokens := ts;
      codigo := [];
      contadorTemp := 0;
      contadorRotulo := 0;
      pilhaRotulos := [];
    }

    /** `gerarTemp`: the current counter, then one more. */
    method GerarTemp() returns (t: nat)
      modifies this
      ensures t == old(contadorTemp) && contadorTemp == t + 1
      ensures codigo == old(codigo) && contadorRotulo == old(contadorRotulo) && pilhaRotulos == old(pilhaRotulos)
    {
      t := contadorTemp;
      contadorTemp := contadorTemp + 1;
    }

    /** `gerarRotulo`: the current counter, then one more. */
    method GerarRotulo() returns (l: nat)
      modifies this
      ensures l == old(contadorRotulo) && contadorRotulo == l + 1
      ensures codigo == old(codigo) && contadorTemp == old(contadorTemp) && pilhaRotulos == old(pilhaRotulos)
    {
      l := contadorRotulo;
      contadorRotulo := contadorRotulo + 1;
    }

    // ------------------------------------------------------------ scans

    /** The loop of lines 76-78. */
    method FimExpressao(j: nat) returns (k: nat)
      requires j <= |tokens|
      ensures k == S.FimExpressao(tokens, j)
    {
      k := j;
      while k < |tokens| && tokens[k].kind != TPv
        invariant j <= k <= |tokens|
        invariant S.FimExpressao(tokens, k) == S.FimExpressao(tokens, j)
        decreases |tokens| - k
      {
        k := k + 1;
      }
    }

    /** The loop of lines 98-102. */
    method FechaPar(j0: nat, fim: nat, contador0: int) returns (j: nat)
      requires j0 <= fim <= |tokens|
      ensures j == S.FechaPar(tokens, j0, fim, contador0)
    {
      j := j0;
      var contador := contador0;
      while j < fim && contador > 0
        invariant j0 <= j <= fim
        invariant S.FechaPar(tokens, j, fim, contador) == S.FechaPar(tokens, j0, fim, contador0)
        decreases fim - j
      {
        if tokens[j].kind == TAbrePar {
          contador := contador + 1;
        }
        if tokens[j].kind == TFechaPar {
          contador := contador - 1;
        }
        j := j + 1;
      }
    }

    /** The loops of lines 156-158 and 193-195. */
    method AteFechaPar(i0: nat) returns (i: nat)
      ensures i == S.AteFechaPar(tokens, i0)
    {
      i := i0;
      while i < |tokens| && tokens[i].kind != TFechaPar
        invariant i0 <= i
        invariant S.AteFechaPar(tokens, i) == S.AteFechaPar(tokens, i0)
        decreases |tokens| - i
      {
        i := i + 1;
      }
    }

    /** The loop of lines 205-210. */
    method Argumentos(j0: nat) returns (j: nat, args: seq<string>)
      ensures S.Args(j, args) == S.ArgsDesde(tokens, S.Args(j0, []))
    {
      j := j0;
      args := [];
      while j < |tokens| && tokens[j].kind != TFechaPar
        invariant j0 <= j
        invariant S.ArgsDesde(tokens, S.Args(j, args)) == S.ArgsDesde(tokens, S.Args(j0, []))
        decreases |tokens| - j
      {
        if S.EhValor(tokens[j].kind) {
          args := args + [tokens[j].lexeme];
        }
        j := j + 1;
      }
    }

    /**
     * One turn of the loop of lines 90-127; `tempVars` collects the
     * temporaries the loop creates.
     */
    method PassoExpressao(j0: nat, fim: nat, tempVars0: seq<nat>) returns (j: nat, tempVars: seq<nat>)
      requires j0 < fim <= |tokens|
      modifies this
      ensures S.Trecho(j, codigo, contadorTemp) == S.PassoExpr(tokens, fim, S.Trecho(j0, old(codigo), old(contadorTemp)))
      ensures contadorRotulo == old(contadorRotulo) && pilhaRotulos == old(pilhaRotulos)
      ensures old(contadorTemp) <= contadorTemp <= old(contadorTemp) + 1
      ensures tempVars == tempVars0 + (if contadorTemp > old(contadorTemp) then [old(contadorTemp)] else [])
    {
      if tokens[j0].kind == TAbrePar {
        j, tempVars := PassoParenteses(j0, fim, tempVars0);
      } else if j0 + 2 < fim && S.EhOperador(tokens[j0 + 1].kind) {
        j, tempVars := PassoBinaria(j0, fim, tempVars0);
      } else {
        j, tempVars := j0 + 1, tempVars0;
      }
    }

    /** A parenthesised group: skipped to its `)`, with one temporary when it is not empty. */
    method PassoParenteses(j0: nat, fim: nat, tempVars0: seq<nat>) returns (j: nat, tempVars: seq<nat>)
      requires j0 < fim <= |tokens| && tokens[j0].kind == TAbrePar
      modifies this
      ensures S.Trecho(j, codigo, contadorTemp) == S.PassoExpr(tokens, fim, S.Trecho(j0, old(codigo), old(contadorTemp)))
      ensures contadorRotulo == old(contadorRotulo) && pilhaRotulos == old(pilhaRotulos)
      ensures old(contadorTemp) <= contadorTemp <= old(contadorTemp) + 1
      ensures tempVars == tempVars0 + (if contadorTemp > old(contadorTemp) then [old(contadorTemp)] else [])
    {
      tempVars := tempVars0;
      var inicioParenteses := j0;
      j := FechaPar(j0 + 1, fim, 1);
      if j - 1 > inicioParenteses + 1 {
        var tempVar := GerarTemp();
        codigo := codigo + [S.Parenteses(tempVar)];
        tempVars := tempVars + [tempVar];
      }
    }

    /** `a op b`: one temporary holds it. */
    method PassoBinaria(j0: nat, fim: nat, tempVars0: seq<nat>) returns (j: nat, tempVars: seq<nat>)
      requires j0 < fim <= |tokens| && tokens[j0].kind != TAbrePar
      requires j0 + 2 < fim && S.EhOperador(tokens[j0 + 1].kind)
      modifies this
      ensures S.Trecho(j, codigo, contadorTemp) == S.PassoExpr(tokens, fim, S.Trecho(j0, old(codigo), old(contadorTemp)))
      ensures contadorRotulo == old(contadorRotulo) && pilhaRotulos == old(pilhaRotulos)
      ensures old(contadorTemp) <= contadorTemp <= old(contadorTemp) + 1
      ensures tempVars == tempVars0 + (if contadorTemp > old(contadorTemp) then [old(contadorTemp)] else [])
    {
      var operando1 := tokens[j0].lexeme;
      var operador := S.Operador(tokens[j0 + 1].kind);
      var operando2 := tokens[j0 + 2].lexeme;
      var tempVar := GerarTemp();
      codigo := codigo + [S.Binaria(tempVar, operando1, operador, operando2)];
      tempVars := tempVars0 + [tempVar];
      j := j0 + 3;
    }

    /** The loop of lines 90-127, which also collects `tempVars`. */
    method ProcessarExpressao(j0: nat, fim: nat) returns (tempVars: seq<nat>)
      requires j0 <= fim <= |tokens|
      modifies this
      ensures S.Trecho(fim, codigo, contadorTemp) == S.ExprDesde(tokens, fim, S.Trecho(j0, old(codigo), old(contadorTemp)))
      ensures contadorRotulo == old(contadorRotulo) && pilhaRotulos == old(pilhaRotulos)
      ensures |tempVars| == contadorTemp - old(contadorTemp)
      ensures |tempVars| > 0 ==> tempVars[|tempVars| - 1] == contadorTemp - 1
    {
      var j := j0;
      tempVars := [];
      while j < fim
        invariant j0 <= j <= fim
        invariant S.ExprDesde(tokens, fim, S.Trecho(j, codigo, contadorTemp)) == S.ExprDesde(tokens, fim, S.Trecho(j0, old(codigo), old(contadorTemp)))
        invariant contadorRotulo == old(contadorRotulo) && pilhaRotulos == old(pilhaRotulos)
        invariant old(contadorTemp) <= contadorTemp
        invariant |tempVars| == contadorTemp - old(contadorTemp)
        invariant |tempVars| > 0 ==> tempVars[|tempVars| - 1] == contadorTemp - 1
        decreases fim - j
      {
        j, tempVars := PassoExpressao(j, fim, tempVars);
      }
    }

    // ---------------------------------------------------------- branches

    method DeclaracaoVariavel(i: nat) returns (novo: nat)
      requires i + 3 < |tokens|
      modifies this
      ensures St(novo) == S.DeclaracaoVariavel(tokens, old(St(i)))
    {
      var identificador := tokens[i + 1];
      if i + 5 < |tokens| && tokens[i + 3].kind == TAtribuicao {
        novo := i + 4;
        if S.EhValor(tokens[novo].kind) {
          codigo := codigo + [S.Copia(identificador.lexeme, S.Lexema(tokens[novo].lexeme))];
        }
      } else {
        codigo := codigo + [S.NaoInicializada(identificador.lexeme)];
        novo := i + 2;
      }
    }

    method Atribuicao(i: nat) returns (novo: nat)
      requires i + 2 < |tokens|
      modifies this
      ensures St(novo) == S.Atribuicao(tokens, old(St(i)))
    {
      var expFinal := FimExpressao(i + 2);
      if expFinal - (i + 2) == 1 {
        codigo := codigo + [S.Copia(tokens[i].lexeme, S.Lexema(tokens[i + 2].lexeme))];
      } else {
        AtribuicaoComposta(i, expFinal);
      }
      novo := expFinal;
    }

    method AtribuicaoComposta(i: nat, expFinal: nat)
      requires i + 2 <= expFinal <= |tokens|
      modifies this
      ensures St(expFinal) == S.AtribuicaoComposta(tokens, old(St(i)), expFinal)
    {
      var identificador := tokens[i].lexeme;
      var tempVars := ProcessarExpressao(i + 2, expFinal);
      if |tempVars| > 0 {
        codigo := codigo + [S.Copia(identificador, S.Temp(tempVars[|tempVars| - 1]))];
      }
    }

    method Se(i: nat) returns (novo: nat)
      modifies this
      ensures St(novo) == S.Se(tokens, old(St(i)))
    {
      var rotuloPulaElse := GerarRotulo();
      var rotuloFimIf := GerarRotulo();
      pilhaRotulos := pilhaRotulos + [S.DeSe(rotuloPulaElse, rotuloFimIf)];
      novo := i + 2;
      if novo + 2 < |tokens| && S.ComecaComT(tokens[novo + 1].kind) {
        var operando1 := tokens[novo].lexeme;
        var operador := S.Operador(tokens[novo + 1].kind);
        var operando2 := tokens[novo + 2].lexeme;
        codigo := codigo + [S.SeVaPara(operando1, operador, operando2, S.L(rotuloPulaElse)),
                            S.VaPara(S.L(rotuloFimIf)),
                            S.Marca(S.L(rotuloPulaElse))];
      }
      novo := AteFechaPar(novo);
    }

    method Senao(i: nat)
      requires |pilhaRotulos| > 0
      modifies this
      ensures St(i) == S.Senao(old(St(i)))
    {
      var rotulos := pilhaRotulos[|pilhaRotulos| - 1];
      pilhaRotulos := pilhaRotulos[..|pilhaRotulos| - 1];
      codigo := codigo + [S.VaPara(S.FimIf(rotulos))];
      codigo := codigo + [S.Marca(S.PulaElse(rotulos))];
    }

    method FechaChave(i: nat)
      requires |pilhaRotulos| > 0
      modifies this
      ensures St(i) == S.FechaChave(old(St(i)))
    {
      var rotulos := pilhaRotulos[|pilhaRotulos| - 1];
      pilhaRotulos := pilhaRotulos[..|pilhaRotulos| - 1];
      codigo := codigo + [S.Marca(S.FimIf(rotulos))];
    }

    method Enquanto(i: nat) returns (novo: nat)
      modifies this
      ensures St(novo) == S.Enquanto(tokens, old(St(i)))
    {
      var rotuloInicio := GerarRotulo();
      var rotuloFim := GerarRotulo();
      pilhaRotulos := pilhaRotulos + [S.DeEnquanto(rotuloInicio, rotuloFim)];
      codigo := codigo + [S.Marca(S.L(rotuloInicio))];
      novo := i + 2;
      if novo + 2 < |tokens| && S.ComecaComT(tokens[novo + 1].kind) {
        var operando1 := tokens[novo].lexeme;
        var operador := S.Operador(tokens[novo + 1].kind);
        var operando2 := tokens[novo + 2].lexeme;
        codigo := codigo + [S.SeNaoVaPara(operando1, operador, operando2, S.L(rotuloFim))];
      }
      novo := AteFechaPar(novo);
    }

    /** The loop of lines 213-215. */
    method EmitirParams(args: seq<string>)
      modifies this
      ensures codigo == old(codigo) + S.Params(args)
      ensures contadorTemp == old(contadorTemp) && contadorRotulo == old(contadorRotulo) && pilhaRotulos == old(pilhaRotulos)
    {
      var k := 0;
      while k < |args|
        invariant k <= |args|
        invariant codigo == old(codigo) + S.Params(args[..k])
        invariant contadorTemp == old(contadorTemp) && contadorRotulo == old(contadorRotulo) && pilhaRotulos == old(pilhaRotulos)
      {
        codigo := codigo + [S.Param(args[k])];
        k := k + 1;
        assert S.Params(args[..k]) == S.Params(args[..k - 1]) + [S.Param(args[k - 1])];
      }
      assert args[..k] == args;
    }

    method ChamadaFuncao(i: nat) returns (novo: nat)
      requires i + 1 < |tokens|
      modifies this
      ensures St(novo) == S.ChamadaFuncao(tokens, old(St(i)))
    {
      var nomeFuncao := tokens[i].lexeme;
      var j, args := Argumentos(i + 2);
      EmitirParams(args);
      var tempVar := GerarTemp();
      codigo := codigo + [S.Chamada(tempVar, nomeFuncao, |args|)];
      novo := j;
    }

    // ------------------------------------------------------------- loop

    /** The body of the `for` loop. */
    method Corpo(i: nat) returns (novo: nat)
      requires i < |tokens|
      modifies this
      ensures St(novo) == S.Corpo(tokens, old(St(i)))
    {
      var k := tokens[i].kind;
      novo := i;
      if k == TVariavel && i + 3 < |tokens| {
        novo := DeclaracaoVariavel(i);
      } else if S.EhAtribuicao(tokens, i) {
        novo := Atribuicao(i);
      } else if k == TSe {
        novo := Se(i);
      } else if k == TSenao && |pilhaRotulos| > 0 {
        Senao(i);
      } else if k == TFechaChave && |pilhaRotulos| > 0 {
        FechaChave(i);
      } else if k == TEnquanto {
        novo := Enquanto(i);
      } else if S.EhChamada(tokens, i) {
        novo := ChamadaFuncao(i);
      }
    }

    /** The `for` loop of line 45, from the state the constructor leaves. */
    method Executar()
      requires St(0) == S.Inicio()
      modifies this
      ensures codigo == S.GerarDesde(tokens, S.Inicio()).codigo
    {
      var i: nat := 0;
      while i < |tokens|
        invariant S.GerarDesde(tokens, St(i)) == S.GerarDesde(tokens, S.Inicio())
        decreases |tokens| - i
      {
        i := Corpo(i);
        i := i + 1;
      }
    }
  }

  /** `gerarCodigoIntermediario`. */
  method GerarCodigoIntermediario(ts: seq<Token>) returns (r: S.Saida)
    ensures r == S.Gerar(ts)
  {
    if |ts| == 0 {
      return S.Saida([], [S.SemTokens]);
    }
    var g := new Gerador(ts);
    g.Executar();
    r := S.Saida(g.codigo, []);
  }
}
