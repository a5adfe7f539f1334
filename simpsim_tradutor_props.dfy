/**
 * What the register translator guarantees about its two passes: the first
 * maps every name once, in order of appearance, and the output always stops
 * with `halt`.
 */
module TradutorSimpSimProps {
  import opened Wrappers
  import opened Tac
  import opened TradutorSimpSim
  import opened Insercao

  // ------------------------------------------------------------ first pass

  /** The first pass from line `i` keeps what was mapped and adds the names of the lines left. */
  lemma {:induction false} MapeiaDesdePropriedades(codigo: seq<Linha>, i: nat, nomes: seq<string>)
    requires i <= |codigo|
    ensures |nomes| <= |MapeiaDesde(codigo, i, nomes)| && MapeiaDesde(codigo, i, nomes)[..|nomes|] == nomes
    ensures Distintos(nomes) ==> Distintos(MapeiaDesde(codigo, i, nomes))
    ensures forall x :: x in MapeiaDesde(codigo, i, nomes) <==>
      x in nomes || exists j :: i <= j < |codigo| && x in NomesDaLinha(codigo[j])
    decreases |codigo| - i
  {
    if i < |codigo| {
      var n1 := Acrescenta(nomes, NomesDaLinha(codigo[i]));
      AcrescentaPropriedades(nomes, NomesDaLinha(codigo[i]));
      MapeiaDesdePropriedades(codigo, i + 1, n1);
      var r := MapeiaDesde(codigo, i + 1, n1);
      assert r[..|nomes|] == r[..|n1|][..|nomes|];
      forall x | x in r
        ensures x in nomes || exists j :: i <= j < |codigo| && x in NomesDaLinha(codigo[j])
      {
        if x !in nomes && x in NomesDaLinha(codigo[i]) {
          assert i <= i < |codigo| && x in NomesDaLinha(codigo[i]);
        }
      }
      forall x, j | i <= j < |codigo| && x in NomesDaLinha(codigo[j])
        ensures x in r
      {
        if j == i {
          assert x in n1;
        } else {
          assert i + 1 <= j < |codigo| && x in NomesDaLinha(codigo[j]);
        }
      }
    }
  }

  /**
   * Each name gets one register: the mapping has no repeats and holds
   * exactly the names of the lines (destinations, then the words of the
   * line that are not reserved).
   */
  lemma MapeamentoCaracterizacao(codigo: seq<Linha>)
    ensures Distintos(Mapeamento(codigo))
    ensures forall x :: x in Mapeamento(codigo) <==> exists j :: 0 <= j < |codigo| && x in NomesDaLinha(codigo[j])
  {
    MapeiaDesdePropriedades(codigo, 0, []);
  }

  lemma {:induction false} MapeiaDesdeCorta(codigo: seq<Linha>, i: nat, k: nat, nomes: seq<string>)
    requires i <= k <= |codigo|
    ensures MapeiaDesde(codigo, i, nomes) == MapeiaDesde(codigo, k, MapeiaDesde(codigo[..k], i, nomes))
    decreases k - i
  {
    if i < k {
      var prefixo := codigo[..k];
      assert prefixo[i] == codigo[i];
      var seguintes := Acrescenta(nomes, NomesDaLinha(codigo[i]));
      assert MapeiaDesde(prefixo, i, nomes) == MapeiaDesde(prefixo, i + 1, seguintes);
      MapeiaDesdeCorta(codigo, i + 1, k, seguintes);
    } else {
      assert MapeiaDesde(codigo[..k], i, nomes) == nomes;
    }
  }

  /** Registers go in order of first appearance: the names of the first `k` lines keep their registers. */
  lemma MapeamentoPrefixo(codigo: seq<Linha>, k: nat)
    requires k <= |codigo|
    ensures |Mapeamento(codigo[..k])| <= |Mapeamento(codigo)|
    ensures Mapeamento(codigo)[..|Mapeamento(codigo[..k])|] == Mapeamento(codigo[..k])
  {
    MapeiaDesdeCorta(codigo, 0, k, []);
    MapeiaDesdePropriedades(codigo, k, Mapeamento(codigo[..k]));
  }

  /** A reserved word gets a register only as the destination of an assignment. */
  lemma ReservadaSoComoDestino(codigo: seq<Linha>, x: string)
    requires Reservada(x) && x in Mapeamento(codigo)
    ensures exists j :: 0 <= j < |codigo| && codigo[j].Codigo? && Atribui(codigo[j].instr) && codigo[j].instr.destino == x
  {
    MapeamentoCaracterizacao(codigo);
    var j :| 0 <= j < |codigo| && x in NomesDaLinha(codigo[j]);
    var l := codigo[j];
    assert l.Codigo? && !l.instr.Rotulo?;
    var ws := SemReservadas(Palavras(l.instr));
    assert x !in ws;
  }

  /** The register of a mapped name is `R{k+1}` for its position `k`; other names read `undefined`. */
  lemma RegistradorPosicao(nomes: seq<string>, x: string, n: nat)
    requires Distintos(nomes)
    ensures Registrador(nomes, x) == Mapeado(n) <==> 1 <= n <= |nomes| && nomes[n - 1] == x
    ensures Registrador(nomes, x) == Indefinido <==> x !in nomes
  {
    if x in nomes {
      var p := Posicao(nomes, x);
    }
  }

  // ------------------------------------------------------------------ halt

  lemma TemHaltJunta(a: seq<LinhaSim>, b: seq<LinhaSim>)
    requires TemHalt(a) || TemHalt(b)
    ensures TemHalt(a + b)
  {
    if TemHalt(a) {
      var k :| 0 <= k < |a| && ContemHalt(TextoLinha(a[k]));
      assert (a + b)[k] == a[k];
    } else {
      var k :| 0 <= k < |b| && ContemHalt(TextoLinha(b[k]));
      assert (a + b)[|a| + k] == b[k];
    }
  }

  /** Whatever the body, the output contains `halt`, and the body is kept as its first lines. */
  lemma ComHaltTermina(saida: seq<LinhaSim>)
    ensures TemHalt(ComHalt(saida))
    ensures |saida| <= |ComHalt(saida)| && ComHalt(saida)[..|saida|] == saida
    ensures TemHalt(saida) <==> ComHalt(saida) == saida
  {
    if !TemHalt(saida) {
      var fim := [Vazia, Ins(Halt)];
      assert HaltEm(TextoLinha(fim[1]), 0);
      assert ContemHalt(TextoLinha(fim[1]));
      TemHaltJunta(saida, fim);
      assert (saida + fim)[..|saida|] == saida;
    }
  }

  /** A text without the letter `h` does not contain `halt`. */
  lemma SemHNaoContem(s: string)
    requires 'h' !in s
    ensures !ContemHalt(s)
  {
    forall k | 0 <= k < |s|
      ensures !HaltEm(s, k)
    {
      assert s[k] in s;
    }
  }

  /** A comment without the letter `h` does not mention `halt`. */
  lemma NotaSemHalt(t: string)
    requires 'h' !in t
    ensures !ContemHalt(TextoLinha(Nota(t)))
  {
    assert TextoLinha(Nota(t)) == ";" + t;
    SemHNaoContem(";" + t);
  }

  lemma Cabecalho0SemH()
    ensures Cabecalho[0].Nota? && 'h' !in Cabecalho[0].texto
  {
    assert 'h' !in " Código Assembly SimpSIM" + " gerado automaticamente";
  }

  lemma Cabecalho1SemH()
    ensures Cabecalho[1].Nota? && 'h' !in Cabecalho[1].texto
  {
    assert 'h' !in " Mapeamento de registradores:";
  }

  lemma Cabecalho2SemH()
    ensures Cabecalho[2].Nota? && 'h' !in Cabecalho[2].texto
  {
    assert 'h' !in " R0: Registrador de comparação" + " para saltos condicionais";
  }

  lemma Cabecalho3SemH()
    ensures Cabecalho[3].Nota? && 'h' !in Cabecalho[3].texto
  {
    assert 'h' !in " R1-RF: Variáveis e" + " temporárias do programa";
  }

  /** Each heading line is blank or a comment without the letter `h`. */
  lemma CabecalhoSemH(k: nat)
    requires k < |Cabecalho|
    ensures Cabecalho[k] == Vazia || (Cabecalho[k].Nota? && 'h' !in Cabecalho[k].texto)
  {
    if k == 0 {
      Cabecalho0SemH();
    } else if k == 1 {
      Cabecalho1SemH();
    } else if k == 2 {
      Cabecalho2SemH();
    } else if k == 3 {
      Cabecalho3SemH();
    }
  }

  /**
   * For `x := halt` the lines without their trailing comments hold no `halt`,
   * so an empty line and `halt` are appended after `move R1, undefined`.
   */
  lemma HaltSoNoComentario(aleatorio: nat -> string)
    ensures var t := Traduzir([Codigo(Copia("x", Nome("halt")))], aleatorio).codigo;
      |t| == 10 && t[7] == Ins(Move(Mapeado(1), Indefinido)) && t[8..] == [Vazia, Ins(Halt)]
  {
    var codigo := [Codigo(Copia("x", Nome("halt")))];
    assert SemReservadas(["halt"]) == [];
    assert SemReservadas(["x", "halt"]) == ["x"];
    assert NomesDaLinha(codigo[0]) == ["x", "x"];
    assert Acrescenta([], ["x", "x"]) == ["x"];
    assert Mapeamento(codigo) == ["x"];
    var nomes := ["x"];
    assert Posicao(nomes, "x") == 0;
    var mapa := LinhaDoMapa(nomes, 0);
    var corpo := [Ins(Move(Mapeado(1), Indefinido))];
    assert Corpo(nomes, codigo, 1, 1, aleatorio) == [];
    assert Corpo(nomes, codigo, 0, 1, aleatorio) == corpo;
    assert LinhasDoMapa(nomes) == [mapa];
    var saida := Montagem(nomes, codigo, aleatorio);
    assert saida == Cabecalho + [mapa, Vazia] + corpo;
    forall k | 0 <= k < |saida|
      ensures !ContemHalt(TextoLinha(saida[k]))
    {
      if k < |Cabecalho| {
        assert saida[k] == Cabecalho[k];
        CabecalhoSemH(k);
        if saida[k].Nota? {
          NotaSemHalt(saida[k].texto);
        }
      } else if k == |Cabecalho| {
        MapaSemH();
        NotaSemHalt(mapa.texto);
      } else if k == |Cabecalho| + 2 {
        MoveSemH();
        SemHNaoContem(TextoLinha(saida[k]));
      }
    }
  }

  /** The mapping line of `x` is a comment without the letter `h`. */
  lemma MapaSemH()
    ensures LinhaDoMapa(["x"], 0).Nota? && 'h' !in LinhaDoMapa(["x"], 0).texto
  {
    assert Decimal(1) == "1";
    assert 'h' !in " R" + "1" + ": " + "x" + " " + "(variável)";
  }

  /** `move R1, undefined` has no letter `h`. */
  lemma MoveSemH()
    ensures 'h' !in TextoLinha(Ins(Move(Mapeado(1), Indefinido)))
  {
    assert Decimal(1) == "1";
    assert 'h' !in "move " + "R" + "1" + ", " + "undefined";
  }

  /** A list that begins with `a + b + c` holds `a`, then `b`, then `c`, line by line. */
  lemma ComecaComTres(t: seq<LinhaSim>, a: seq<LinhaSim>, b: seq<LinhaSim>, c: seq<LinhaSim>)
    requires |a| + |b| + |c| <= |t| && t[..|a| + |b| + |c|] == a + b + c
    ensures t[..|a|] == a
    ensures forall k :: 0 <= k < |b| ==> t[|a| + k] == b[k]
    ensures forall k :: 0 <= k < |c| ==> t[|a| + |b| + k] == c[k]
  {
    var abc := a + b + c;
    assert t[..|a|] == abc[..|a|];
    forall k | 0 <= k < |b|
      ensures t[|a| + k] == b[k]
    {
      assert t[|a| + k] == abc[|a| + k];
    }
    forall k | 0 <= k < |c|
      ensures t[|a| + |b| + k] == c[k]
    {
      assert t[|a| + |b| + k] == abc[|a| + |b| + k];
    }
  }

  /** Lines that begin with a heading `cab`, the register comments and an empty line. */
  lemma ComecaComCabecalho(t: seq<LinhaSim>, cab: seq<LinhaSim>, nomes: seq<string>)
    requires |cab| + |nomes| < |t|
    requires t[..|cab| + |nomes| + 1] == cab + LinhasDoMapa(nomes) + [Vazia]
    ensures t[..|cab|] == cab
    ensures forall k :: 0 <= k < |nomes| ==> t[|cab| + k] == LinhaDoMapa(nomes, k)
    ensures t[|cab| + |nomes|] == Vazia
  {
    var mapa := LinhasDoMapa(nomes);
    ComecaComTres(t, cab, mapa, [Vazia]);
    forall k | 0 <= k < |nomes|
      ensures t[|cab| + k] == LinhaDoMapa(nomes, k)
    {
      assert t[|cab| + k] == mapa[k];
    }
    assert t[|cab| + |nomes| + 0] == [Vazia][0];
  }

  /**
   * The program without lines gives no output and no mapping; any other
   * gives the heading, one comment per register in the order of the
   * mapping, and an output that contains `halt`.
   */
  lemma TraduzirPropriedades(codigo: seq<Linha>, aleatorio: nat -> string)
    ensures codigo == [] ==> Traduzir(codigo, aleatorio) == Traducao([], [], NadaATraduzir)
    ensures codigo != [] ==>
      var t := Traduzir(codigo, aleatorio);
      t.mapeamento == Mapeamento(codigo) &&
      TemHalt(t.codigo) &&
      |Cabecalho| + |t.mapeamento| < |t.codigo| &&
      t.codigo[..|Cabecalho|] == Cabecalho &&
      (forall k :: 0 <= k < |t.mapeamento| ==> t.codigo[|Cabecalho| + k] == LinhaDoMapa(t.mapeamento, k)) &&
      t.codigo[|Cabecalho| + |t.mapeamento|] == Vazia
  {
    if codigo != [] {
      var nomes := Mapeamento(codigo);
      var m := Montagem(nomes, codigo, aleatorio);
      var t := Traduzir(codigo, aleatorio).codigo;
      assert t == ComHalt(m);
      ComHaltTermina(m);
      var cab := Cabecalho + LinhasDoMapa(nomes) + [Vazia];
      assert m == cab + Corpo(nomes, codigo, 0, 1, aleatorio);
      assert t[..|cab|] == cab by {
        assert t[..|cab|] == t[..|m|][..|cab|];
      }
      ComecaComCabecalho(t, Cabecalho, nomes);
    }
  }
}
