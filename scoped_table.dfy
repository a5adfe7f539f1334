/**
 * The symbol table of the second semantic analyser
 * (`analisardorSemantico.js`), class `TabelaSimbolos`: a stack of scopes,
 * each a list of symbols, and the index of the current scope.
 *
 * The functions below say what each operation does to the table as a value
 * `Tabela`; the class at the end holds the same two fields and its methods
 * are proved to update them as those functions say.  `buscarSimbolo` hands
 * back the symbol object itself, which the callers then update; here it
 * hands back the symbol's position `Pos`, and the updates go through it.
 */
module TabelaEscopos {
  import opened Wrappers

  // ----------------------------------------------------------------- data

  /** A `Simbolo`; `escopo` is the index of the scope it was declared in. */
  datatype Simbolo = Simbolo(
    nome: string, tipo: string, linha: int, escopo: int, inicializada: bool, usada: bool)

  /** Where a type check happens, as named in the incompatibility message. */
  datatype Operacao = NaAtribuicao | NaOperacao(op: string) | NaComparacao

  /** The messages of this analyser, without their wording. */
  datatype Mensagem =
    | JaDeclarada(linha: int, nome: string, anterior: int)    // "... já declarada na linha N."
    | NaoDeclarada(linha: int, nome: string)                  // "... não declarada."
    | AntesDeInicializada(linha: int, nome: string)           // "... usada antes de ser inicializada."
    | Incompativeis(linha: int, operacao: Operacao, esperado: string, encontrado: string)
    | NaoUsada(linha: int, nome: string)                      // "Aviso semântico ... declarada mas não usada."

  /** The two fields of `TabelaSimbolos`: `escopos` and `escopoAtual`. */
  datatype Tabela = Tabela(escopos: seq<seq<Simbolo>>, atual: int)

  /** Position of a symbol: scope index, then index inside the scope. */
  datatype Pos = Pos(escopo: nat, indice: nat)

  /** The current scope is the top of the stack. */
  predicate Valida(t: Tabela) {
    |t.escopos| >= 1 && t.atual == |t.escopos| - 1
  }

  /** The table of the constructor: one empty (global) scope. */
  function Nova(): (t: Tabela)
    ensures Valida(t) && t.atual == 0
  {
    Tabela([[]], 0)
  }

  // ------------------------------------------------------------- scopes

  /** `entrarEscopo`: an empty scope on top. */
  function Entrar(t: Tabela): (r: Tabela)
    ensures |r.escopos| == |t.escopos| + 1 && r.escopos[..|t.escopos|] == t.escopos
    ensures r.escopos[|t.escopos|] == [] && r.atual == t.atual + 1
  {
    Tabela(t.escopos + [[]], t.atual + 1)
  }

  /** `sairEscopo`: the top scope is dropped (`pop` on an empty stack leaves it empty). */
  function Sair(t: Tabela): (r: Tabela)
    ensures r.atual == t.atual - 1
    ensures |t.escopos| >= 1 ==> r.escopos == t.escopos[..|t.escopos| - 1]
    ensures |t.escopos| == 0 ==> r.escopos == []
  {
    Tabela(if |t.escopos| == 0 then [] else t.escopos[..|t.escopos| - 1], t.atual - 1)
  }

  // ------------------------------------------------------------- lookup

  /** `escopo.find(s => s.nome === nome)` from index `k` on. */
  function ProcurarDesde(escopo: seq<Simbolo>, nome: string, k: nat): (r: Option<nat>)
    requires k <= |escopo|
    ensures r.Some? ==> k <= r.value < |escopo| && escopo[r.value].nome == nome
    decreases |escopo| - k
  {
    if k == |escopo| then None
    else if escopo[k].nome == nome then Some(k)
    else ProcurarDesde(escopo, nome, k + 1)
  }

  /** The index of the first symbol of `escopo` named `nome`. */
  function Procurar(escopo: seq<Simbolo>, nome: string): (r: Option<nat>)
    ensures r.Some? ==> r.value < |escopo| && escopo[r.value].nome == nome
  {
    ProcurarDesde(escopo, nome, 0)
  }

  /** The loop of `buscarSimbolo` from scope `s` down to scope 0. */
  function BuscarDesde(escopos: seq<seq<Simbolo>>, nome: string, s: int): (r: Option<Pos>)
    requires s < |escopos|
    ensures r.Some? ==> r.value.escopo <= s && r.value.indice < |escopos[r.value.escopo]|
    decreases s + 1
  {
    if s < 0 then None
    else match Procurar(escopos[s], nome)
      case Some(k) => Some(Pos(s, k))
      case None => BuscarDesde(escopos, nome, s - 1)
  }

  /** `buscarSimbolo`: from the current scope down to the global one. */
  function Buscar(t: Tabela, nome: string): (r: Option<Pos>)
    requires t.atual < |t.escopos|
    ensures r.Some? ==> r.value.escopo <= t.atual && r.value.indice < |t.escopos[r.value.escopo]|
  {
    BuscarDesde(t.escopos, nome, t.atual)
  }

  /** The symbol at `p`. */
  function Em(t: Tabela, p: Pos): Simbolo
    requires p.escopo < |t.escopos| && p.indice < |t.escopos[p.escopo]|
  {
    t.escopos[p.escopo][p.indice]
  }

  /** The table with the symbol at `p` replaced by `s` (the in-place flag updates). */
  function Atualizar(t: Tabela, p: Pos, s: Simbolo): (r: Tabela)
    requires p.escopo < |t.escopos| && p.indice < |t.escopos[p.escopo]|
    ensures |r.escopos| == |t.escopos| && r.atual == t.atual
  {
    Tabela(t.escopos[p.escopo := t.escopos[p.escopo][p.indice := s]], t.atual)
  }

  // ------------------------------------------------------------ updates

  /** What `adicionarSimbolo` leaves and what it returns. */
  datatype Adicao = Adicao(t: Tabela, erro: Option<Mensagem>)

  /** `adicionarSimbolo`: refused when the current scope already has the name. */
  function Adicionar(t: Tabela, nome: string, tipo: string, linha: int): (r: Adicao)
    requires 0 <= t.atual < |t.escopos|
    ensures |r.t.escopos| == |t.escopos| && r.t.atual == t.atual
  {
    var atual := t.escopos[t.atual];
    match Procurar(atual, nome)
    case Some(k) => Adicao(t, Some(JaDeclarada(linha, nome, atual[k].linha)))
    case None =>
      Adicao(Tabela(t.escopos[t.atual := atual + [Simbolo(nome, tipo, linha, t.atual, false, false)]], t.atual), None)
  }

  /** `marcarInicializado`: the symbol found is flagged as initialised. */
  function Inicializar(t: Tabela, nome: string, linha: int): (r: Adicao)
    requires t.atual < |t.escopos|
    ensures |r.t.escopos| == |t.escopos| && r.t.atual == t.atual
  {
    match Buscar(t, nome)
    case None => Adicao(t, Some(NaoDeclarada(linha, nome)))
    case Some(p) => Adicao(Atualizar(t, p, Em(t, p).(inicializada := true)), None)
  }

  /** `marcarUsado`: a symbol not yet initialised is reported and left unmarked. */
  function Usar(t: Tabela, nome: string, linha: int): (r: Adicao)
    requires t.atual < |t.escopos|
    ensures |r.t.escopos| == |t.escopos| && r.t.atual == t.atual
  {
    match Buscar(t, nome)
    case None => Adicao(t, Some(NaoDeclarada(linha, nome)))
    case Some(p) =>
      if !Em(t, p).inicializada then Adicao(t, Some(AntesDeInicializada(linha, nome)))
      else Adicao(Atualizar(t, p, Em(t, p).(usada := true)), None)
  }

  // -------------------------------------------------------------- types

  /** The keys of `tiposCompatíveis`; any other left type makes the lookup `undefined`. */
  predicate TipoConhecido(esquerda: string) {
    esquerda == "inteiro" || esquerda == "decimal" || esquerda == "texto" || esquerda == "logico"
  }

  /** `tiposCompatíveis[esquerda]`. */
  function Aceitos(esquerda: string): seq<string>
    requires TipoConhecido(esquerda)
  {
    if esquerda == "inteiro" || esquerda == "decimal" then ["inteiro", "decimal"]
    else [esquerda]
  }

  /** `verificarTipos`: a message when the right type is not accepted for the left one. */
  function VerificarTipos(esquerda: string, direita: string, linha: int, operacao: Operacao): (r: Option<Mensagem>)
    requires TipoConhecido(esquerda)
    ensures r.Some? ==> r.value == Incompativeis(linha, operacao, esquerda, direita)
  {
    if direita in Aceitos(esquerda) then None
    else Some(Incompativeis(linha, operacao, esquerda, direita))
  }

  // ------------------------------------------------------------ warnings

  /** The warnings for one scope, in order. */
  function AvisosEscopo(escopo: seq<Simbolo>): seq<Mensagem> {
    if escopo == [] then []
    else
      var s := escopo[|escopo| - 1];
      AvisosEscopo(escopo[..|escopo| - 1]) + (if !s.usada then [NaoUsada(s.linha, s.nome)] else [])
  }

  /** `verificarNaoUsadas`: scope by scope, from the global one up. */
  function Avisos(escopos: seq<seq<Simbolo>>): seq<Mensagem> {
    if escopos == [] then []
    else Avisos(escopos[..|escopos| - 1]) + AvisosEscopo(escopos[|escopos| - 1])
  }

  // ------------------------------------------------------------ the class

  class TabelaSimbolos {
    var escopos: seq<seq<Simbolo>>
    var escopoAtual: int

    function Valor(): Tabela
      reads this
    {
      Tabela(escopos, escopoAtual)
    }

    constructor()
      ensures Valor() == Nova()
    {
      escopos := [[]];
      escopoAtual := 0;
    }

    method EntrarEscopo()
      modifies this
      ensures Valor() == Entrar(old(Valor()))
    {
      escopos := escopos + [[]];
      escopoAtual := escopoAtual + 1;
    }

    method SairEscopo()
      modifies this
      ensures Valor() == Sair(old(Valor()))
    {
      if |escopos| > 0 {
        escopos := escopos[..|escopos| - 1];
      }
      escopoAtual := escopoAtual - 1;
    }

    /** `buscarSimboloNoEscopoAtual`. */
    method BuscarSimboloNoEscopoAtual(nome: string) returns (r: Option<nat>)
      requires 0 <= escopoAtual < |escopos|
      ensures r == Procurar(escopos[escopoAtual], nome)
    {
      var escopo := escopos[escopoAtual];
      var k := 0;
      while k < |escopo|
        invariant k <= |escopo|
        invariant ProcurarDesde(escopo, nome, k) == Procurar(escopo, nome)
      {
        if escopo[k].nome == nome {
          return Some(k);
        }
        k := k + 1;
      }
      return None;
    }

    /** `buscarSimbolo`. */
    method BuscarSimbolo(nome: string) returns (r: Option<Pos>)
      requires escopoAtual < |escopos|
      ensures r == Buscar(Valor(), nome)
    {
      var s := escopoAtual;
      while s >= 0
        invariant s < |escopos|
        invariant BuscarDesde(escopos, nome, s) == Buscar(Valor(), nome)
        decreases s + 1
      {
        var escopo := escopos[s];
        var k := 0;
        while k < |escopo|
          invariant k <= |escopo|
          invariant ProcurarDesde(escopo, nome, k) == Procurar(escopo, nome)
        {
          if escopo[k].nome == nome {
            return Some(Pos(s, k));
          }
          k := k + 1;
        }
        s := s - 1;
      }
      return None;
    }

    method AdicionarSimbolo(nome: string, tipo: string, linha: int) returns (erro: Option<Mensagem>)
      requires 0 <= escopoAtual < |escopos|
      modifies this
      ensures Adicao(Valor(), erro) == Adicionar(old(Valor()), nome, tipo, linha)
    {
      var existente := BuscarSimboloNoEscopoAtual(nome);
      if existente.Some? {
        return Some(JaDeclarada(linha, nome, escopos[escopoAtual][existente.value].linha));
      }
      var simbolo := Simbolo(nome, tipo, linha, escopoAtual, false, false);
      escopos := escopos[escopoAtual := escopos[escopoAtual] + [simbolo]];
      return None;
    }

    method MarcarInicializado(nome: string, linha: int) returns (erro: Option<Mensagem>)
      requires escopoAtual < |escopos|
      modifies this
      ensures Adicao(Valor(), erro) == Inicializar(old(Valor()), nome, linha)
    {
      var p := BuscarSimbolo(nome);
      if p.None? {
        return Some(NaoDeclarada(linha, nome));
      }
      var pos := p.value;
      escopos := escopos[pos.escopo := escopos[pos.escopo][pos.indice := escopos[pos.escopo][pos.indice].(inicializada := true)]];
      return None;
    }

    method MarcarUsado(nome: string, linha: int) returns (erro: Option<Mensagem>)
      requires escopoAtual < |escopos|
      modifies this
      ensures Adicao(Valor(), erro) == Usar(old(Valor()), nome, linha)
    {
      var p := BuscarSimbolo(nome);
      if p.None? {
        return Some(NaoDeclarada(linha, nome));
      }
      var pos := p.value;
      if !escopos[pos.escopo][pos.indice].inicializada {
        return Some(AntesDeInicializada(linha, nome));
      }
      escopos := escopos[pos.escopo := escopos[pos.escopo][pos.indice := escopos[pos.escopo][pos.indice].(usada := true)]];
      return None;
    }

    /** `verificarNaoUsadas`: the two nested `forEach` loops. */
    method VerificarNaoUsadas() returns (erros: seq<Mensagem>)
      ensures erros == Avisos(escopos)
    {
      erros := [];
      var s := 0;
      while s < |escopos|
        invariant s <= |escopos|
        invariant erros == Avisos(escopos[..s])
      {
        var escopo := escopos[s];
        var k := 0;
        ghost var antes := erros;
        while k < |escopo|
          invariant k <= |escopo|
          invariant erros == antes + AvisosEscopo(escopo[..k])
        {
          assert escopo[..k + 1][..k] == escopo[..k];
          if !escopo[k].usada {
            erros := erros + [NaoUsada(escopo[k].linha, escopo[k].nome)];
          }
          k := k + 1;
        }
        assert escopo[..k] == escopo;
        assert escopos[..s + 1][..s] == escopos[..s];
        s := s + 1;
      }
      assert escopos[..s] == escopos;
    }
  }
}
