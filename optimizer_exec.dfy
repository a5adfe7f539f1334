/**
 * The loops of `otimizadorCodigo.js`, each proved equal to the function of
 * `Otimizador` that follows it.  A `splice(i, 1)` is `Remove`, a JavaScript
 * `Map` kept in insertion order is a sequence of pairs, and a TypeError is
 * the answer `None`.  Pass 7 is the corrected `EliminarRedundante`; the
 * pass as written is `RedundanteComoEscrito`.
 */
module OtimizadorExec {
  import opened Wrappers
  import opened Tac
  import opened Otimizador

  /** The inner loop of pass 1: rename `de` in every line after `i`. */
  method RenomearDepois(r: seq<Instr>, i: nat, de: string, para: string) returns (s: seq<Instr>)
    requires i < |r|
    ensures s == r[..i + 1] + RenomeiaTodas(r[i + 1..], de, para)
  {
    s := r;
    var j := i + 1;
    while j < |s|
      invariant i + 1 <= j <= |s| == |r|
      invariant forall k :: 0 <= k <= i ==> s[k] == r[k]
      invariant forall k :: i + 1 <= k < j ==> s[k] == Renomeia(r[k], de, para)
      invariant forall k :: j <= k < |s| ==> s[k] == r[k]
    {
      s := s[j := Renomeia(s[j], de, para)];
      j := j + 1;
    }
    assert s == r[..i + 1] + RenomeiaTodas(r[i + 1..], de, para);
  }

  /** A repeated expression at `i`: its later uses read the first temporary, and the line goes. */
  method Reaproveitar(r: seq<Instr>, i: nat, de: string, para: string) returns (s: seq<Instr>)
    requires i < |r|
    ensures s == r[..i] + RenomeiaTodas(r[i + 1..], de, para)
  {
    s := RenomearDepois(r, i, de, para);
    s := Remove(s, i);
  }

  /** `eliminarSubexpressoesComuns` */
  method EliminarSubexpressoesComuns(codigo: seq<Instr>) returns (resultado: seq<Instr>)
    ensures resultado == EliminarSubexpressoes(codigo)
  {
    resultado := codigo;
    var expressoes: map<Chave, string> := map[];
    var i: int := 0;
    while i < |resultado|
      invariant 0 <= i <= |resultado|
      invariant Subexpressoes(resultado, i, expressoes) == EliminarSubexpressoes(codigo)
      decreases |resultado| - i
    {
      var linha := resultado[i];
      if EhExpressaoTemp(linha) {
        var chave := ChaveDe(linha);
        if chave in expressoes {
          resultado := Reaproveitar(resultado, i, linha.destino, expressoes[chave]);
          i := i - 1;
        } else {
          expressoes := expressoes[chave := linha.destino];
        }
      }
      i := i + 1;
    }
  }

  /** The first loop of a round of `eliminarCodigoMorto`: names used and definitions. */
  method Levantar(r: seq<Instr>) returns (variaveis: set<string>, definicoes: seq<(string, nat)>)
    ensures variaveis == Usadas(r, 0)
    ensures definicoes == Definicoes(r, 0, [])
  {
    variaveis, definicoes := {}, [];
    var i := 0;
    while i < |r|
      invariant i <= |r|
      invariant variaveis + Usadas(r, i) == Usadas(r, 0)
      invariant definicoes == []
      invariant Definicoes(r, i, definicoes) == Definicoes(r, 0, [])
    {
      var linha := r[i];
      assert Usadas(r, i) == UsadasEm(linha) + Usadas(r, i + 1);
      // A line reaching the ` := ` test has no `:`, so that test never holds
      // and no definition is recorded.
      assert Definicoes(r, i, []) == Definicoes(r, i + 1, []);
      if TemDoisPontos(linha) || ComecaComGoto(linha) {
        assert UsadasEm(linha) == {};
      } else if linha.SeVaPara? {
        variaveis := variaveis + UsadasEm(linha);
      } else {
        assert UsadasEm(linha) == {};
      }
      i := i + 1;
    }
  }

  /** `eliminarCodigoMorto` */
  method EliminarCodigoMorto(codigo: seq<Instr>) returns (resultado: seq<Instr>)
    ensures resultado == Morto(codigo)
  {
    resultado := codigo;
    var mudou := true;
    while mudou
      invariant Morto(resultado) == Morto(codigo)
      invariant !mudou ==> Morto(resultado) == resultado
      decreases |resultado| + (if mudou then 1 else 0)
    {
      mudou := false;
      var variaveis, definicoes := Levantar(resultado);
      var k := 0;
      while k < |definicoes|
        invariant k <= |definicoes|
        invariant PrimeiraMorta(definicoes[k..], variaveis) == PrimeiraMorta(definicoes, variaveis)
      {
        var (varDef, indice) := definicoes[k];
        if EhTemp(varDef) && varDef !in variaveis {
          resultado := Remove(resultado, indice);
          mudou := true;
          break;
        }
        assert definicoes[k..][1..] == definicoes[k + 1..];
        k := k + 1;
      }
    }
  }

  /** The inner loop of pass 3: rename `de` after `i` up to a line assigning `de`. */
  method PropagarDepois(r: seq<Instr>, i: nat, de: string, para: string) returns (s: seq<Instr>)
    requires i < |r|
    ensures s == Propaga(r, i + 1, de, para)
  {
    s := r;
    var j := i + 1;
    while j < |s|
      invariant i + 1 <= j <= |s|
      invariant Propaga(s, j, de, para) == Propaga(r, i + 1, de, para)
    {
      if Define(s[j], de) {
        break;
      }
      s := s[j := Renomeia(s[j], de, para)];
      j := j + 1;
    }
  }

  /** The loop over `copias` for line `i`. */
  method AplicarCopias(x: Instr, copias: seq<(string, string)>, linha: Instr) returns (y: Instr)
    ensures y == AplicaCopias(x, copias, linha)
  {
    y := x;
    var k := 0;
    while k < |copias|
      invariant k <= |copias|
      invariant AplicaCopias(y, copias[k..], linha) == AplicaCopias(x, copias, linha)
    {
      var (destino, origem) := copias[k];
      if !Define(linha, destino) {
        y := Renomeia(y, destino, origem);
      }
      assert copias[k..][1..] == copias[k + 1..];
      k := k + 1;
    }
  }

  /** `propagarCopias` */
  method PropagarCopiasLinhas(codigo: seq<Instr>) returns (resultado: seq<Instr>)
    ensures resultado == PropagarCopias(codigo)
  {
    resultado := codigo;
    var copias: seq<(string, string)> := [];
    var i := 0;
    while i < |resultado|
      invariant i <= |resultado|
      invariant Copias(resultado, i, copias) == PropagarCopias(codigo)
    {
      var linha := resultado[i];
      if EhCopiaSimples(linha) {
        var destino, origem := linha.destino, linha.fonte.nome;
        if destino != origem {
          copias := Atualiza(copias, destino, origem);
          resultado := PropagarDepois(resultado, i, destino, origem);
        }
      }
      var atual := AplicarCopias(resultado[i], copias, linha);
      resultado := resultado[i := atual];
      i := i + 1;
    }
  }

  /** `eliminarDesviosUnnecessarios`; `None` where it reads `resultado[-1]`. */
  method EliminarDesviosDesnecessarios(codigo: seq<Instr>) returns (resultado: Option<seq<Instr>>)
    ensures resultado == EliminarDesvios(codigo)
  {
    var r := codigo;
    var i: int := 0;
    while i < |r| - 1
      invariant 0 <= i
      invariant Desvios(r, i) == EliminarDesvios(codigo)
      decreases |r|, |r| - i
    {
      ghost var r0, i0 := r, i;
      if r[i].VaPara? && "L" <= r[i].alvo {
        var rotulo := r[i].alvo;
        if r[i + 1] == Rotulo(rotulo) {
          r := Remove(r, i);
          i := i - 1;
        }
      }
      if i < 0 {
        return None;
      }
      assert r == (if SaltoAoSeguinte(r0, i0) then Remove(r0, i0) else r0);
      ghost var r1, i1 := r, i;
      if ComecaComGoto(r[i]) && r[i + 1].Rotulo? {
        r := Remove(r, i);
        i := i - 1;
      }
      assert Desvios(r0, i0) == Desvios(r, i + 1) by {
        assert Desvios(r0, i0) == if SaltoAntesDeRotulo(r1, i1) then Desvios(Remove(r1, i1), i1) else Desvios(r1, i1 + 1);
      }
      i := i + 1;
    }
    resultado := Some(r);
  }

  /** `simplificarCondicoes`; `None` where it would write into a boolean. */
  method SimplificarCondicoesLinhas(codigo: seq<Instr>) returns (resultado: Option<seq<Instr>>)
    ensures resultado == SimplificarCondicoes(codigo)
  {
    var r := codigo;
    var i: int := 0;
    while i < |r|
      invariant 0 <= i <= |r|
      invariant Condicoes(r, i) == SimplificarCondicoes(codigo)
      decreases |r| - i
    {
      var linha := r[i];
      if linha.SeVaPara? {
        if SempreVerdadeira(linha) {
          r := r[i := VaPara(linha.alvo)];
        } else if SempreFalsa(linha) {
          r := Remove(r, i);
          i := i - 1;
        } else if ComparaConstantes(linha) {
          return None;
        }
      }
      i := i + 1;
    }
    resultado := Some(r);
  }

  /**
   * `eliminarCodigoRedundante`, which rewrites the list it is given, with the
   * redirection done as intended: on the output so far as well as on the
   * list, to the label kept for the run, and for exact targets only.
   */
  method EliminarCodigoRedundante(codigo: array<Instr>) returns (resultado: seq<Instr>)
    modifies codigo
    ensures resultado == EliminarRedundante(old(codigo[..]))
  {
    resultado := [];
    var mantido := "";
    var i := 0;
    while i < codigo.Length
      invariant i <= codigo.Length
      invariant Redundante(codigo[..], i, resultado, mantido) == EliminarRedundante(old(codigo[..]))
    {
      var linha := codigo[i];
      if AutoCopia(linha) {
      } else if linha.Rotulo? && i > 0 && codigo[i - 1].Rotulo? {
        ghost var c0 := codigo[..];
        var j := 0;
        while j < codigo.Length
          invariant j <= codigo.Length
          invariant forall k :: 0 <= k < j ==> codigo[k] == Redireciona(c0[k], linha.nome, mantido)
          invariant forall k :: j <= k < codigo.Length ==> codigo[k] == c0[k]
        {
          codigo[j] := Redireciona(codigo[j], linha.nome, mantido);
          j := j + 1;
        }
        assert codigo[..] == RedirecionaTodas(c0, linha.nome, mantido);
        resultado := RedirecionaTodas(resultado, linha.nome, mantido);
      } else {
        resultado := resultado + [linha];
        if linha.Rotulo? {
          mantido := linha.nome;
        }
      }
      i := i + 1;
    }
  }

  /** One round of the driver loop. */
  method Rodar(c: seq<Instr>) returns (r: Option<seq<Instr>>)
    ensures r == Rodada(c)
  {
    var c1 := EliminarSubexpressoesComuns(c);
    var c2 := EliminarCodigoMorto(c1);
    var c3 := PropagarCopiasLinhas(c2);
    var c4 := EliminarDesviosDesnecessarios(c3);
    if c4.None? {
      return None;
    }
    var c5 := AplicarAlgebricas(c4.value);
    var c6 := SimplificarCondicoesLinhas(c5);
    if c6.None? {
      return None;
    }
    var a := new Instr[|c6.value|](k requires 0 <= k < |c6.value| => c6.value[k]);
    assert a[..] == c6.value;
    var c7 := EliminarCodigoRedundante(a);
    r := Some(c7);
  }

  /** The round loop of `otimizarCodigo`: at most `MaxIteracoes` rounds, while the length changes. */
  method Ciclar(codigo: seq<Instr>) returns (r: Option<(seq<Instr>, nat)>)
    ensures r == Ciclo(codigo, 0, 0, true)
  {
    var codigoOtimizado := codigo;
    var realizadas: nat := 0;
    var continuar := true;
    var iteracoes: nat := 0;
    while continuar && iteracoes < MaxIteracoes
      invariant iteracoes <= MaxIteracoes
      invariant Ciclo(codigoOtimizado, iteracoes, realizadas, continuar) == Ciclo(codigo, 0, 0, true)
      decreases MaxIteracoes - iteracoes
    {
      iteracoes := iteracoes + 1;
      var tamanhoAnterior := |codigoOtimizado|;
      var proximo := Rodar(codigoOtimizado);
      if proximo.None? {
        return None;
      }
      codigoOtimizado := proximo.value;
      continuar := |codigoOtimizado| != tamanhoAnterior;
      if continuar {
        realizadas := realizadas + 1;
      }
    }
    r := Some((codigoOtimizado, realizadas));
  }

  /** `otimizacoesOriginais`, filled index by index. */
  method ListarOriginais(codigo: seq<Instr>, saida: seq<Instr>) returns (originais: map<nat, Instr>)
    ensures originais == Originais(codigo, saida)
  {
    originais := map[];
    var i := 0;
    while i < |codigo|
      invariant i <= |codigo|
      invariant originais == map k: nat | k < i && (k >= |saida| || codigo[k] != saida[k]) :: codigo[k]
    {
      if i >= |saida| || codigo[i] != saida[i] {
        originais := originais[i := codigo[i]];
      }
      i := i + 1;
    }
  }

  /** `otimizarCodigo` */
  method OtimizarCodigo(codigo: seq<Instr>) returns (r: Resultado)
    ensures r == Otimizar(codigo)
  {
    if codigo == [] {
      return Entrada(codigo);
    }
    var ciclo := Ciclar(codigo);
    if ciclo.None? {
      return Excecao;
    }
    var (codigoOtimizado, realizadas) := ciclo.value;
    var originais := ListarOriginais(codigo, codigoOtimizado);
    r := Otimizado(codigoOtimizado, realizadas, originais);
  }
}
