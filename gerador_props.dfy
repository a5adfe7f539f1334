/**
 * What the memory-based generator guarantees about the shape of its
 * output: every name gets one cell, at `0x20 + k` for the `k`-th name in
 * order of first appearance; every recorded label points at its own line;
 * the program always ends with `fim_programa:` / `halt` and the two
 * subroutines; and only the empty program gives the fixed two-line answer.
 */
module GeradorAssemblyProps {
  import opened Wrappers
  import opened Tac
  import opened Insercao
  import opened GeradorAssembly

  // ------------------------------------------------------------ first pass

  lemma UsadasDistintas(codigo: seq<Linha>)
    ensures Distintos(Usadas(codigo))
  {
    AcrescentaDesdePropriedades(NomesPorLinha(codigo), 0, []);
  }

  /**
   * Lines 36-46: the set holds each word of a line that is not `if`, `goto`,
   * `call`, `return` or `L\d+` exactly once, comment lines included.
   */
  lemma UsadasCaracterizacao(codigo: seq<Linha>)
    ensures Distintos(Usadas(codigo))
    ensures forall x :: x in Usadas(codigo) <==>
      !Excluida(x) && exists j :: 0 <= j < |codigo| && x in PalavrasDaLinha(codigo[j])
  {
    AcrescentaDesdePropriedades(NomesPorLinha(codigo), 0, []);
    forall x
      ensures x in Usadas(codigo) <==> !Excluida(x) && exists j :: 0 <= j < |codigo| && x in PalavrasDaLinha(codigo[j])
    {
      if x in Usadas(codigo) {
        var j :| 0 <= j < |codigo| && x in NomesDaLinha(codigo[j]);
        assert x in PalavrasDaLinha(codigo[j]);
      }
      if !Excluida(x) && exists j :: 0 <= j < |codigo| && x in PalavrasDaLinha(codigo[j]) {
        var j :| 0 <= j < |codigo| && x in PalavrasDaLinha(codigo[j]);
        assert x in NomesDaLinha(codigo[j]);
      }
    }
  }

  lemma NomesPorLinhaPrefixo(codigo: seq<Linha>, k: nat)
    requires k <= |codigo|
    ensures NomesPorLinha(codigo[..k]) == NomesPorLinha(codigo)[..k]
  {
  }

  /** Order of first appearance: the names of the first `k` lines come first, in their own order. */
  lemma UsadasPrefixo(codigo: seq<Linha>, k: nat)
    requires k <= |codigo|
    ensures |Usadas(codigo[..k])| <= |Usadas(codigo)|
    ensures Usadas(codigo)[..|Usadas(codigo[..k])|] == Usadas(codigo[..k])
  {
    var listas := NomesPorLinha(codigo);
    NomesPorLinhaPrefixo(codigo, k);
    AcrescentaDesdeCorta(listas, 0, k, []);
    AcrescentaDesdePropriedades(listas, k, Usadas(codigo[..k]));
  }

  // ------------------------------------------------------------- addresses

  /** `variaveis` after `k` turns of the declaration loop. */
  function EnderecosAte(usadas: seq<string>, k: nat): map<string, nat>
    requires Distintos(usadas) && k <= |usadas|
  {
    map j | 0 <= j < k :: usadas[j] := InicioDados + j
  }

  lemma EnderecosAteMais(usadas: seq<string>, k: nat)
    requires Distintos(usadas) && k < |usadas|
    ensures EnderecosAte(usadas, k + 1) == EnderecosAte(usadas, k)[usadas[k] := InicioDados + k]
  {
    var a, b := EnderecosAte(usadas, k + 1), EnderecosAte(usadas, k)[usadas[k] := InicioDados + k];
    forall x | x in a
      ensures x in b && a[x] == b[x]
    {
      var j :| 0 <= j < k + 1 && usadas[j] == x;
    }
    forall x | x in b
      ensures x in a
    {
      if x != usadas[k] {
        var j :| 0 <= j < k && usadas[j] == x;
      }
    }
  }

  lemma EnderecosAteTodos(usadas: seq<string>)
    requires Distintos(usadas)
    ensures EnderecosAte(usadas, |usadas|) == Enderecos(usadas)
  {
    var a, b := EnderecosAte(usadas, |usadas|), Enderecos(usadas);
    forall x | x in a
      ensures x in b && a[x] == b[x]
    {
      var j :| 0 <= j < |usadas| && usadas[j] == x;
      PosicaoDistintos(usadas, j);
    }
    forall x | x in b
      ensures x in a
    {
      var j := Posicao(usadas, x);
      assert usadas[j] == x;
    }
  }

  /**
   * Lines 49-54: the `k`-th name is declared on its own `x db 0` line and
   * gets address `0x20 + k`; the map holds exactly the collected names, and
   * no two names share an address.
   */
  lemma EnderecosCaracterizacao(usadas: seq<string>)
    requires Distintos(usadas)
    ensures Enderecos(usadas).Keys == set x | x in usadas
    ensures forall k :: 0 <= k < |usadas| ==> Enderecos(usadas)[usadas[k]] == InicioDados + k
    ensures forall x, y :: x in Enderecos(usadas) && y in Enderecos(usadas) && x != y ==>
      Enderecos(usadas)[x] != Enderecos(usadas)[y]
  {
    forall k | 0 <= k < |usadas|
      ensures Enderecos(usadas)[usadas[k]] == InicioDados + k
    {
      PosicaoDistintos(usadas, k);
    }
  }

  // ---------------------------------------------------------------- labels

  /** Every recorded label points at a line `l:` of the list. */
  predicate Indexados(t: Traducao) {
    forall l :: l in t.labels ==> t.labels[l] < |t.linhas| && t.linhas[t.labels[l]] == Def(l)
  }

  /** One line of the main loop appends to the list and records at most its own label. */
  lemma TraduzLinhaIndexa(l: Linha, t: Traducao)
    requires Indexados(t)
    ensures var r := TraduzLinha(l, t);
      Indexados(r) && |t.linhas| <= |r.linhas| && r.linhas[..|t.linhas|] == t.linhas &&
      r.labels.Keys == t.labels.Keys + (if l.Codigo? && l.instr.Rotulo? then {l.instr.nome} else {})
  {
    var r := TraduzLinha(l, t);
    if l.Codigo? {
      var x := l.instr;
      var eco := t.linhas + [Nota(Escrita(x))];
      if x.Rotulo? {
        assert r.linhas == eco + [Def(x.nome)];
        forall m | m in r.labels
          ensures r.labels[m] < |r.linhas| && r.linhas[r.labels[m]] == Def(m)
        {
          if m != x.nome {
            assert r.linhas[t.labels[m]] == t.linhas[t.labels[m]];
          }
        }
      } else {
        assert r.linhas == eco + Bloco(x);
        forall m | m in r.labels
          ensures r.labels[m] < |r.linhas| && r.linhas[r.labels[m]] == Def(m)
        {
          assert r.linhas[t.labels[m]] == t.linhas[t.labels[m]];
        }
      }
    } else {
      forall m | m in r.labels
        ensures r.labels[m] < |r.linhas| && r.linhas[r.labels[m]] == Def(m)
      {
        assert r.linhas[t.labels[m]] == t.linhas[t.labels[m]];
      }
    }
  }

  /** The labels of the lines from `i` on. */
  function RotulosDesde(codigo: seq<Linha>, i: nat): set<string>
    requires i <= |codigo|
    decreases |codigo| - i
  {
    if i == |codigo| then {}
    else (if codigo[i].Codigo? && codigo[i].instr.Rotulo? then {codigo[i].instr.nome} else {}) + RotulosDesde(codigo, i + 1)
  }

  lemma {:induction false} TraduzDesdeIndexa(codigo: seq<Linha>, i: nat, t: Traducao)
    requires i <= |codigo| && Indexados(t)
    ensures var r := TraduzDesde(codigo, i, t);
      Indexados(r) && |t.linhas| <= |r.linhas| && r.linhas[..|t.linhas|] == t.linhas &&
      r.labels.Keys == t.labels.Keys + RotulosDesde(codigo, i)
    decreases |codigo| - i
  {
    if i < |codigo| {
      var t1 := TraduzLinha(codigo[i], t);
      TraduzLinhaIndexa(codigo[i], t);
      TraduzDesdeIndexa(codigo, i + 1, t1);
      var r := TraduzDesde(codigo, i + 1, t1);
      assert r.linhas[..|t.linhas|] == r.linhas[..|t1.linhas|][..|t.linhas|];
    }
  }

  /**
   * Lines 79-84: `labels` holds exactly the labels of the input, and the
   * index recorded for each is a line `label:` of the assembly list.  The
   * list begins with the data and `main:` and ends with `fim_programa:`,
   * `halt` and the two subroutines.
   */
  lemma MontagemPropriedades(codigo: seq<Linha>)
    ensures var m := Montagem(codigo);
      Indexados(m) && m.labels.Keys == RotulosDesde(codigo, 0) &&
      |Preambulo(Usadas(codigo))| + |Epilogo()| <= |m.linhas| &&
      m.linhas[..|Preambulo(Usadas(codigo))|] == Preambulo(Usadas(codigo)) &&
      m.linhas[|m.linhas| - |Epilogo()|..] == Epilogo()
  {
    var p := Preambulo(Usadas(codigo));
    var t := TraduzDesde(codigo, 0, Traducao(p, map[]));
    TraduzDesdeIndexa(codigo, 0, Traducao(p, map[]));
    var m := Montagem(codigo);
    assert m.linhas == t.linhas + Epilogo();
    forall l | l in m.labels
      ensures m.labels[l] < |m.linhas| && m.linhas[m.labels[l]] == Def(l)
    {
      assert m.linhas[t.labels[l]] == t.linhas[t.labels[l]];
    }
    assert m.linhas[..|p|] == t.linhas[..|p|];
  }

  lemma {:induction false} RotulosDesdeCaracterizacao(codigo: seq<Linha>, i: nat)
    requires i <= |codigo|
    ensures forall l :: l in RotulosDesde(codigo, i) <==> exists j :: i <= j < |codigo| && codigo[j] == Codigo(Rotulo(l))
    decreases |codigo| - i
  {
    if i < |codigo| {
      RotulosDesdeCaracterizacao(codigo, i + 1);
      forall l | l in RotulosDesde(codigo, i)
        ensures exists j :: i <= j < |codigo| && codigo[j] == Codigo(Rotulo(l))
      {
        if l !in RotulosDesde(codigo, i + 1) {
          assert codigo[i] == Codigo(Rotulo(l));
        }
      }
    }
  }

  // ----------------------------------------------------------------- result

  /** `join('\n')` begins with its first line. */
  lemma {:induction false} JuntarComeca(linhas: seq<string>)
    requires |linhas| > 0
    ensures |linhas[0]| <= |Juntar(linhas)| && Juntar(linhas)[..|linhas[0]|] == linhas[0]
    decreases |linhas|
  {
    if |linhas| > 1 {
      var inicio := linhas[..|linhas| - 1];
      JuntarComeca(inicio);
      var j := Juntar(inicio);
      assert Juntar(linhas) == j + "\n" + linhas[|linhas| - 1];
      assert Juntar(linhas)[..|linhas[0]|] == j[..|linhas[0]|];
    }
  }

  /** A program with lines: the list starts with the heading comment. */
  lemma MontagemComeca(codigo: seq<Linha>)
    ensures |Montagem(codigo).linhas| > 0 && Montagem(codigo).linhas[0] == Cabecalho[0]
  {
    MontagemPropriedades(codigo);
    var p := Preambulo(Usadas(codigo));
    assert p[0] == Cabecalho[0];
    assert Montagem(codigo).linhas[0] == Montagem(codigo).linhas[..|p|][0];
  }

  lemma TituloTamanho()
    ensures |TextoLinha(Cabecalho[0])| == 48
  {
    assert Cabecalho[0] == Fixa("; Código Assembly SimpSIM gerado pelo compilador");
  }

  /** A program with lines: the text starts with the heading comment. */
  lemma GerarComeca(codigo: seq<Linha>)
    requires codigo != []
    ensures var h := TextoLinha(Cabecalho[0]);
      |h| <= |Gerar(codigo).assembly| && Gerar(codigo).assembly[..|h|] == h
  {
    MontagemComeca(codigo);
    JuntarComeca(Textos(Montagem(codigo).linhas));
  }

  /**
   * Lines 2-8: the fixed answer `; Programa vazio` / `halt`, with no names
   * and no labels, is given for the program without lines and only for it.
   */
  lemma GerarVazio(codigo: seq<Linha>)
    ensures Gerar(codigo).assembly == ProgramaVazio <==> codigo == []
    ensures codigo == [] ==> Gerar(codigo).variaveis == map[] && Gerar(codigo).labels == map[]
  {
    if codigo != [] {
      GerarComeca(codigo);
      TituloTamanho();
      assert |ProgramaVazio| == 22;
    }
  }

  /**
   * Lines 140-144: for a program with lines, `variaveis` maps exactly the
   * collected names, the `k`-th to `0x20 + k`; `labels` holds exactly the
   * labels of the input, and the number recorded for each is the index of
   * the output line that reads `label:`.
   */
  lemma GerarPropriedades(codigo: seq<Linha>)
    requires codigo != []
    ensures var r := Gerar(codigo);
      var usadas := Usadas(codigo);
      r.variaveis.Keys == (set x | x in usadas) &&
      (forall k :: 0 <= k < |usadas| ==> r.variaveis[usadas[k]] == InicioDados + k) &&
      (forall l :: l in r.labels <==> exists j :: 0 <= j < |codigo| && codigo[j] == Codigo(Rotulo(l))) &&
      (forall l :: l in r.labels ==>
        r.labels[l] < |Montagem(codigo).linhas| && Textos(Montagem(codigo).linhas)[r.labels[l]] == l + ":")
  {
    UsadasDistintas(codigo);
    EnderecosCaracterizacao(Usadas(codigo));
    MontagemPropriedades(codigo);
    RotulosDesdeCaracterizacao(codigo, 0);
  }
}
