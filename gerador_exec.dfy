/**
 * `gerarAssemblySimpSIM` as the source runs it: every helper pushes onto
 * one shared `assembly` list, the names are collected into a set and then
 * given increasing addresses, and each label is recorded as it is pushed.
 * The methods are proved to build what the functions of `GeradorAssembly`
 * describe.
 */
module GeradorAssemblyExec {
  import opened Wrappers
  import opened Tac
  import opened Insercao
  import opened GeradorAssembly
  import opened GeradorAssemblyProps

  /** The `assembly` list that every helper pushes onto. */
  class Saida {
    var linhas: seq<LinhaAsm>

    constructor ()
      ensures linhas == []
    {
      linhas := [];
    }

    /** `assembly.push(…)` of the lines of `ls`, in order. */
    method Emite(ls: seq<LinhaAsm>)
      modifies this
      ensures linhas == old(linhas) + ls
    {
      linhas := linhas + ls;
    }
  }

  /** `traduzirAtribuicao` */
  method TraduzirAtribuicao(assembly: Saida, x: Instr)
    requires Atribui(x)
    modifies assembly
    ensures assembly.linhas == old(assembly.linhas) + Atribuicao(x)
  {
    match x
    case Copia(d, v) =>
      if EhPalavra(v) {
        assembly.Emite([Ins(Carga(R1, v))]);
        assembly.Emite([Ins(Store(R1, d))]);
      } else {
        assembly.Emite([Nota("EXPRESSÃO NÃO TRADUZIDA: " + Texto(v))]);
      }
    case Binaria(d, a, op, b) =>
      assembly.Emite([Ins(Carga(R1, a))]);
      assembly.Emite([Ins(Carga(R2, b))]);
      assembly.Emite(Operacao(op));
      assembly.Emite([Ins(Store(R3, d))]);
  }

  /** `traduzirSaltoCondicional` */
  method TraduzirSaltoCondicional(assembly: Saida, a: Operando, rel: Rel, b: Operando, l: string)
    modifies assembly
    ensures assembly.linhas == old(assembly.linhas) + Salto(a, rel, b, l)
  {
    assembly.Emite([Ins(Carga(R1, a))]);
    assembly.Emite([Ins(Carga(R2, b))]);
    assembly.Emite([Nota("Calcular R1 - R2 para comparação")]);
    ghost var abertura := assembly.linhas;
    assembly.Emite(Diferenca);
    assembly.Emite(Desvio(rel, l));
    assert abertura == old(assembly.linhas) + [Ins(Carga(R1, a)), Ins(Carga(R2, b)), Nota("Calcular R1 - R2 para comparação")];
  }

  /** `traduzirChamadaFuncao` */
  method TraduzirChamadaFuncao(assembly: Saida, f: string, args: seq<Operando>)
    modifies assembly
    ensures assembly.linhas == old(assembly.linhas) + Chamada(f, args)
  {
    assembly.Emite([Nota("Chamada de função: " + f)]);
    if args != [] {
      assembly.Emite([Nota("Argumentos: " + TextoArgumentos(args))]);
    }
    assembly.Emite([Ins(Jmp(f))]);
  }

  /** `traduzirReturn` */
  method TraduzirReturn(assembly: Saida, v: Option<Operando>)
    modifies assembly
    ensures assembly.linhas == old(assembly.linhas) + Retorno(v)
  {
    if v.Some? {
      assembly.Emite([Ins(Carga(RF, v.value))]);
    }
    assembly.Emite([Ins(Jmp("fim_programa"))]);
  }

  /** `adicionarSubrotinasMultiplicacao` */
  method AdicionarSubrotinasMultiplicacao(assembly: Saida)
    modifies assembly
    ensures assembly.linhas == old(assembly.linhas) + SubrotinaMultiplicacao
  {
    assembly.Emite(SubrotinaMultiplicacao);
  }

  /** `adicionarSubrotinasDivisao` */
  method AdicionarSubrotinasDivisao(assembly: Saida)
    modifies assembly
    ensures assembly.linhas == old(assembly.linhas) + SubrotinaDivisao
  {
    assembly.Emite(SubrotinaDivisao);
  }

  /** Lines 38-45: the words of one line, each added to the set unless already there. */
  method AcrescentarPalavras(usadas: seq<string>, ws: seq<string>) returns (r: seq<string>)
    ensures r == Acrescenta(usadas, ws)
  {
    r := usadas;
    var j := 0;
    while j < |ws|
      invariant j <= |ws|
      invariant Acrescenta(r, ws[j..]) == Acrescenta(usadas, ws)
    {
      if ws[j] !in r {
        r := r + [ws[j]];
      }
      assert ws[j..][1..] == ws[j + 1..];
      j := j + 1;
    }
    assert ws[j..] == [];
  }

  /** Lines 36-46: the set of names, filled line by line. */
  method IdentificarVariaveis(codigo: seq<Linha>) returns (usadas: seq<string>)
    ensures usadas == Usadas(codigo)
  {
    ghost var listas := NomesPorLinha(codigo);
    usadas := [];
    var i := 0;
    while i < |codigo|
      invariant i <= |codigo|
      invariant AcrescentaDesde(listas, i, usadas) == Usadas(codigo)
    {
      assert listas[i] == NomesDaLinha(codigo[i]);
      usadas := AcrescentarPalavras(usadas, NomesDaLinha(codigo[i]));
      i := i + 1;
    }
  }

  /** Lines 49-54: one `x db 0` per name and the address map, from `0x20` up. */
  method DeclararVariaveis(assembly: Saida, usadas: seq<string>) returns (variaveis: map<string, nat>)
    requires Distintos(usadas)
    modifies assembly
    ensures assembly.linhas == old(assembly.linhas) + Dados(usadas)
    ensures variaveis == Enderecos(usadas)
  {
    variaveis := map[];
    var enderecoMemoria := InicioDados;
    var k := 0;
    while k < |usadas|
      invariant k <= |usadas|
      invariant assembly.linhas == old(assembly.linhas) + Dados(usadas)[..k]
      invariant enderecoMemoria == InicioDados + k
      invariant variaveis == EnderecosAte(usadas, k)
    {
      assembly.Emite([Dado(usadas[k])]);
      EnderecosAteMais(usadas, k);
      variaveis := variaveis[usadas[k] := enderecoMemoria];
      enderecoMemoria := enderecoMemoria + 1;
      assert Dados(usadas)[..k + 1] == Dados(usadas)[..k] + [Dado(usadas[k])];
      k := k + 1;
    }
    assert Dados(usadas)[..k] == Dados(usadas);
    EnderecosAteTodos(usadas);
  }

  /** One turn of the loop of lines 68-128, returning the new `labels`. */
  method TraduzirLinha(assembly: Saida, l: Linha, labels: map<string, nat>) returns (labels2: map<string, nat>)
    modifies assembly
    ensures Traducao(assembly.linhas, labels2) == TraduzLinha(l, Traducao(old(assembly.linhas), labels))
  {
    labels2 := labels;
    match l
    case EmBranco =>
      assembly.Emite([Copiada("")]);
    case Comentario(c) =>
      assembly.Emite([Copiada(";" + c)]);
    case Codigo(x) =>
      assembly.Emite([Nota(Escrita(x))]);
      if x.Rotulo? {
        assembly.Emite([Def(x.nome)]);
        labels2 := labels[x.nome := |assembly.linhas| - 1];
      } else if Atribui(x) {
        TraduzirAtribuicao(assembly, x);
      } else if x.SeVaPara? {
        TraduzirSaltoCondicional(assembly, x.esq, x.rel, x.dir, x.alvo);
      } else if x.VaPara? {
        assembly.Emite([Ins(Jmp(x.alvo))]);
      } else if x.Chama? {
        TraduzirChamadaFuncao(assembly, x.funcao, x.argumentos);
      } else {
        TraduzirReturn(assembly, x.valor);
      }
  }

  /** `assembly.join('\n')` */
  method JuntarLinhas(ls: seq<LinhaAsm>) returns (s: string)
    ensures s == Juntar(Textos(ls))
  {
    s := "";
    var k := 0;
    while k < |ls|
      invariant k <= |ls|
      invariant s == Juntar(Textos(ls)[..k])
    {
      assert Textos(ls)[..k + 1][..k] == Textos(ls)[..k];
      if k == 0 {
        s := TextoLinha(ls[0]);
      } else {
        s := s + "\n" + TextoLinha(ls[k]);
      }
      k := k + 1;
    }
    assert Textos(ls)[..k] == Textos(ls);
  }

  /** Lines 10-65: the list up to `main:` and the address map. */
  method Preparar(codigo: seq<Linha>) returns (assembly: Saida, variaveis: map<string, nat>)
    ensures fresh(assembly)
    ensures assembly.linhas == Preambulo(Usadas(codigo))
    ensures variaveis == Enderecos(Usadas(codigo))
  {
    assembly := new Saida();
    assembly.Emite(Cabecalho);
    var usadas := IdentificarVariaveis(codigo);
    UsadasDistintas(codigo);
    assembly.Emite([Fixa("; Variáveis do programa")]);
    variaveis := DeclararVariaveis(assembly, usadas);
    assembly.Emite(Principal);
  }

  /** The loop of lines 68-128. */
  method TraduzirLinhas(assembly: Saida, codigo: seq<Linha>) returns (labels: map<string, nat>)
    modifies assembly
    ensures Traducao(assembly.linhas, labels) == TraduzDesde(codigo, 0, Traducao(old(assembly.linhas), map[]))
  {
    labels := map[];
    var i := 0;
    while i < |codigo|
      invariant i <= |codigo|
      invariant TraduzDesde(codigo, i, Traducao(assembly.linhas, labels))
             == TraduzDesde(codigo, 0, Traducao(old(assembly.linhas), map[]))
    {
      labels := TraduzirLinha(assembly, codigo[i], labels);
      i := i + 1;
    }
  }

  /** Lines 131-137: `fim_programa:`, `halt` and the two subroutines. */
  method Concluir(assembly: Saida)
    modifies assembly
    ensures assembly.linhas == old(assembly.linhas) + Epilogo()
  {
    assembly.Emite(Final);
    AdicionarSubrotinasDivisao(assembly);
    AdicionarSubrotinasMultiplicacao(assembly);
  }

  /** `gerarAssemblySimpSIM` */
  method GerarAssemblySimpSim(codigo: seq<Linha>) returns (r: Resultado)
    ensures r == Gerar(codigo)
  {
    if |codigo| == 0 {
      return Resultado(ProgramaVazio, map[], map[]);
    }
    var assembly, variaveis := Preparar(codigo);
    ghost var t := TraduzDesde(codigo, 0, Traducao(assembly.linhas, map[]));
    var labels := TraduzirLinhas(assembly, codigo);
    Concluir(assembly);
    assert assembly.linhas == t.linhas + Epilogo();
    var texto := JuntarLinhas(assembly.linhas);
    r := Resultado(texto, variaveis, labels);
  }
}
