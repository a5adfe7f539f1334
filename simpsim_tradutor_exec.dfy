/**
 * `traduzirParaSimpSIM` with the source's loops: two passes over the lines
 * that push onto one output list, and a final scan for `halt`.  The
 * method is proved to return `Traduzir`, whose subtraction of a variable
 * uses the corrected negation (see `NegacaoComoEscrita` for the code as
 * written).
 */
module TradutorSimpSimExec {
  import opened Tac
  import opened TradutorSimpSim
  import opened Insercao

  /** `linha.includes('halt')` */
  method IncluiHalt(s: string) returns (b: bool)
    ensures b == ContemHalt(s)
  {
    var k := 0;
    while k + 4 <= |s|
      invariant k <= |s|
      invariant forall j :: 0 <= j < k ==> !HaltEm(s, j)
    {
      if HaltEm(s, k) {
        return true;
      }
      k := k + 1;
    }
    return false;
  }

  /** `codigoAssembly.some(linha => linha.includes('halt'))` */
  method AlgumHalt(ls: seq<LinhaSim>) returns (b: bool)
    ensures b == TemHalt(ls)
  {
    var k := 0;
    while k < |ls|
      invariant k <= |ls|
      invariant forall j :: 0 <= j < k ==> !ContemHalt(TextoLinha(ls[j]))
    {
      b := IncluiHalt(TextoLinha(ls[k]));
      if b {
        return;
      }
      k := k + 1;
    }
    return false;
  }

  /** The first pass: a register for each new name, in order of appearance. */
  method MapearNomes(codigo: seq<Linha>) returns (nomes: seq<string>)
    ensures nomes == Mapeamento(codigo)
  {
    nomes := [];
    var i := 0;
    while i < |codigo|
      invariant i <= |codigo|
      invariant MapeiaDesde(codigo, i, nomes) == Mapeamento(codigo)
    {
      var ws := NomesDaLinha(codigo[i]);
      ghost var antes := nomes;
      var j := 0;
      while j < |ws|
        invariant j <= |ws|
        invariant Acrescenta(nomes, ws[j..]) == Acrescenta(antes, ws)
      {
        if ws[j] !in nomes {
          nomes := nomes + [ws[j]];
        }
        assert ws[j..][1..] == ws[j + 1..];
        j := j + 1;
      }
      assert ws[j..] == [];
      i := i + 1;
    }
  }

  /** The comment lines that list the registers. */
  method ListarMapeamento(nomes: seq<string>) returns (saida: seq<LinhaSim>)
    ensures saida == LinhasDoMapa(nomes)
  {
    saida := [];
    var k := 0;
    while k < |nomes|
      invariant k <= |nomes|
      invariant saida == LinhasDoMapa(nomes)[..k]
    {
      saida := saida + [LinhaDoMapa(nomes, k)];
      k := k + 1;
    }
    assert LinhasDoMapa(nomes)[..k] == LinhasDoMapa(nomes);
  }

  /** The second pass, threading the label number of `*` and `/`. */
  method TraduzirLinhas(nomes: seq<string>, codigo: seq<Linha>, aleatorio: nat -> string) returns (saida: seq<LinhaSim>)
    ensures saida == Corpo(nomes, codigo, 0, 1, aleatorio)
  {
    saida := [];
    var contador := 1;
    var i := 0;
    while i < |codigo|
      invariant i <= |codigo|
      invariant saida + Corpo(nomes, codigo, i, contador, aleatorio) == Corpo(nomes, codigo, 0, 1, aleatorio)
    {
      var (ls, proximo) := TraduzLinha(nomes, codigo[i], i, contador, aleatorio);
      assert Corpo(nomes, codigo, i, contador, aleatorio) == ls + Corpo(nomes, codigo, i + 1, proximo, aleatorio);
      assert saida + (ls + Corpo(nomes, codigo, i + 1, proximo, aleatorio))
          == (saida + ls) + Corpo(nomes, codigo, i + 1, proximo, aleatorio);
      saida := saida + ls;
      contador := proximo;
      i := i + 1;
    }
    assert saida + [] == saida;
  }

  /** `traduzirParaSimpSIM` */
  method TraduzirParaSimpSim(codigo: seq<Linha>, aleatorio: nat -> string) returns (r: Traducao)
    ensures r == Traduzir(codigo, aleatorio)
  {
    if codigo == [] {
      return Traducao([], [], NadaATraduzir);
    }
    var nomes := MapearNomes(codigo);
    var mapa := ListarMapeamento(nomes);
    var corpo := TraduzirLinhas(nomes, codigo, aleatorio);
    var saida := Cabecalho + mapa + [Vazia] + corpo;
    var temHalt := AlgumHalt(saida);
    if !temHalt {
      saida := saida + [Vazia, Ins(Halt)];
    }
    r := Traducao(saida, nomes, "Tradução concluída. " + Decimal(|nomes|) + " variáveis mapeadas.");
  }
}
