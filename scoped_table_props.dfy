/**
 * What the operations of `TabelaSimbolos` promise, stated on the value
 * functions of `TabelaEscopos`.
 */
module TabelaEscoposProps {
  import opened Wrappers
  import opened TabelaEscopos

  // -------------------------------------------------------- the invariant

  /** No scope holds two symbols of the same name. */
  predicate Unicos(escopo: seq<Simbolo>) {
    forall j, k :: 0 <= j < k < |escopo| ==> escopo[j].nome != escopo[k].nome
  }

  /**
   * What every table the analyser builds satisfies: the current scope is the
   * top of the stack, each symbol records the scope it sits in, names are
   * unique per scope, and a symbol is only ever used once initialised.
   */
  predicate Coerente(t: Tabela) {
    Valida(t)
    && (forall s :: 0 <= s < |t.escopos| ==> Unicos(t.escopos[s]))
    && (forall s, k :: 0 <= s < |t.escopos| && 0 <= k < |t.escopos[s]| ==>
          t.escopos[s][k].escopo == s && (t.escopos[s][k].usada ==> t.escopos[s][k].inicializada))
  }

  lemma NovaCoerente()
    ensures Coerente(Nova())
  {
  }

  /** `entrarEscopo` keeps the invariant. */
  lemma EntrarCoerente(t: Tabela)
    requires Coerente(t)
    ensures Coerente(Entrar(t))
  {
    var r := Entrar(t);
    forall s | 0 <= s < |r.escopos|
      ensures Unicos(r.escopos[s])
    {
      if s < |t.escopos| {
        assert r.escopos[s] == t.escopos[s];
      }
    }
    forall s, k | 0 <= s < |r.escopos| && 0 <= k < |r.escopos[s]|
      ensures r.escopos[s][k].escopo == s && (r.escopos[s][k].usada ==> r.escopos[s][k].inicializada)
    {
      assert s < |t.escopos| && r.escopos[s] == t.escopos[s];
    }
  }

  /** `sairEscopo` keeps it too, as long as the global scope is not the one left. */
  lemma SairCoerente(t: Tabela)
    requires Coerente(t) && |t.escopos| >= 2
    ensures Coerente(Sair(t))
  {
    var r := Sair(t);
    forall s | 0 <= s < |r.escopos|
      ensures Unicos(r.escopos[s])
    {
      assert r.escopos[s] == t.escopos[s];
    }
    forall s, k | 0 <= s < |r.escopos| && 0 <= k < |r.escopos[s]|
      ensures r.escopos[s][k].escopo == s && (r.escopos[s][k].usada ==> r.escopos[s][k].inicializada)
    {
      assert r.escopos[s] == t.escopos[s];
    }
  }

  /** `n` scopes entered, one after the other. */
  function EntrarN(t: Tabela, n: nat): Tabela {
    if n == 0 then t else Entrar(EntrarN(t, n - 1))
  }

  /** `n` scopes left, one after the other. */
  function SairN(t: Tabela, n: nat): Tabela
    decreases n
  {
    if n == 0 then t else SairN(Sair(t), n - 1)
  }

  /**
   * Balanced `entrarEscopo`/`sairEscopo`: every intermediate table keeps
   * `escopoAtual == escopos.length - 1`, and leaving as many scopes as were
   * entered gives back the table exactly.
   */
  lemma {:induction false} Equilibrados(t: Tabela, n: nat)
    requires Valida(t)
    ensures Valida(EntrarN(t, n)) && |EntrarN(t, n).escopos| == |t.escopos| + n
    ensures SairN(EntrarN(t, n), n) == t
  {
    if n > 0 {
      Equilibrados(t, n - 1);
      var u := EntrarN(t, n - 1);
      assert Sair(Entrar(u)) == u;
    }
  }

  // -------------------------------------------------------------- lookup

  /** `find` returns the first match, and nothing only when there is none. */
  lemma {:induction false} ProcurarDesdeExato(escopo: seq<Simbolo>, nome: string, k: nat)
    requires k <= |escopo|
    ensures var r := ProcurarDesde(escopo, nome, k);
      (r.Some? ==> forall j :: k <= j < r.value ==> escopo[j].nome != nome)
      && (r.None? <==> forall j :: k <= j < |escopo| ==> escopo[j].nome != nome)
    decreases |escopo| - k
  {
    if k < |escopo| && escopo[k].nome != nome {
      ProcurarDesdeExato(escopo, nome, k + 1);
    }
  }

  lemma ProcurarExato(escopo: seq<Simbolo>, nome: string)
    ensures var r := Procurar(escopo, nome);
      (r.Some? ==> forall j :: 0 <= j < r.value ==> escopo[j].nome != nome)
      && (r.None? <==> forall j :: 0 <= j < |escopo| ==> escopo[j].nome != nome)
  {
    ProcurarDesdeExato(escopo, nome, 0);
  }

  /** The scope-stack walk of `buscarSimbolo` from scope `s` down. */
  lemma {:induction false} BuscarDesdeMaisInterno(escopos: seq<seq<Simbolo>>, nome: string, s: int)
    requires s < |escopos|
    ensures var r := BuscarDesde(escopos, nome, s);
      (r.Some? ==>
         Procurar(escopos[r.value.escopo], nome) == Some(r.value.indice)
         && forall u :: r.value.escopo < u <= s ==> Procurar(escopos[u], nome).None?)
      && (r.None? ==> forall u :: 0 <= u <= s ==> Procurar(escopos[u], nome).None?)
    decreases s + 1
  {
    if s >= 0 && Procurar(escopos[s], nome).None? {
      BuscarDesdeMaisInterno(escopos, nome, s - 1);
    }
  }

  /**
   * `buscarSimbolo` finds the symbol of the innermost scope that declares the
   * name (its first such entry); no scope between that one and the current
   * one declares it; and it finds nothing only when no visible scope does.
   */
  lemma BuscarMaisInterno(t: Tabela, nome: string)
    requires Valida(t)
    ensures var r := Buscar(t, nome);
      (r.Some? ==>
         Em(t, r.value).nome == nome
         && (forall j :: 0 <= j < r.value.indice ==> t.escopos[r.value.escopo][j].nome != nome)
         && forall u, j :: r.value.escopo < u < |t.escopos| && 0 <= j < |t.escopos[u]| ==> t.escopos[u][j].nome != nome)
      && (r.None? <==> forall u, j :: 0 <= u < |t.escopos| && 0 <= j < |t.escopos[u]| ==> t.escopos[u][j].nome != nome)
  {
    var r := Buscar(t, nome);
    BuscarDesdeMaisInterno(t.escopos, nome, t.atual);
    if r.Some? {
      ProcurarExato(t.escopos[r.value.escopo], nome);
      forall u, j | r.value.escopo < u < |t.escopos| && 0 <= j < |t.escopos[u]|
        ensures t.escopos[u][j].nome != nome
      {
        ProcurarExato(t.escopos[u], nome);
      }
    } else {
      forall u, j | 0 <= u < |t.escopos| && 0 <= j < |t.escopos[u]|
        ensures t.escopos[u][j].nome != nome
      {
        ProcurarExato(t.escopos[u], nome);
      }
    }
  }

  // ---------------------------------------------------------- declaring

  /**
   * `adicionarSimbolo` on a name the current scope already has: the message
   * names the line of that earlier symbol and the table is left as it was.
   */
  lemma AdicionarRepetido(t: Tabela, nome: string, tipo: string, linha: int, k: nat)
    requires Coerente(t) && k < |t.escopos[t.atual]| && t.escopos[t.atual][k].nome == nome
    ensures Adicionar(t, nome, tipo, linha) == Adicao(t, Some(JaDeclarada(linha, nome, t.escopos[t.atual][k].linha)))
  {
    var atual := t.escopos[t.atual];
    ProcurarExato(atual, nome);
    var j := Procurar(atual, nome).value;
    assert j == k;
  }

  /**
   * Otherwise the symbol, uninitialised and unused, is appended to the current
   * scope, nothing is reported, and the name now resolves to it.
   */
  lemma AdicionarNovo(t: Tabela, nome: string, tipo: string, linha: int)
    requires Coerente(t) && forall k :: 0 <= k < |t.escopos[t.atual]| ==> t.escopos[t.atual][k].nome != nome
    ensures var r := Adicionar(t, nome, tipo, linha);
      r.erro == None && r.t.atual == t.atual
      && r.t.escopos == t.escopos[..t.atual] + [t.escopos[t.atual] + [Simbolo(nome, tipo, linha, t.atual, false, false)]]
      && Buscar(r.t, nome) == Some(Pos(t.atual, |t.escopos[t.atual]|))
  {
    var atual := t.escopos[t.atual];
    ProcurarExato(atual, nome);
    var r := Adicionar(t, nome, tipo, linha);
    var novo := atual + [Simbolo(nome, tipo, linha, t.atual, false, false)];
    assert r.t.escopos == t.escopos[..t.atual] + [novo];
    ProcurarExato(novo, nome);
    assert novo[|atual|].nome == nome;
    var v := Procurar(novo, nome).value;
    assert v == |atual|;
    assert r.t.escopos[t.atual] == novo;
  }

  /** `adicionarSimbolo` keeps the invariant: in particular a name never appears twice in a scope. */
  lemma AdicionarCoerente(t: Tabela, nome: string, tipo: string, linha: int)
    requires Coerente(t)
    ensures Coerente(Adicionar(t, nome, tipo, linha).t)
  {
    var atual := t.escopos[t.atual];
    ProcurarExato(atual, nome);
    var r := Adicionar(t, nome, tipo, linha);
    if Procurar(atual, nome).None? {
      var novo := atual + [Simbolo(nome, tipo, linha, t.atual, false, false)];
      assert r.t.escopos[t.atual] == novo;
      forall s | 0 <= s < |r.t.escopos|
        ensures Unicos(r.t.escopos[s])
      {
        if s != t.atual {
          assert r.t.escopos[s] == t.escopos[s];
        }
      }
      forall s, k | 0 <= s < |r.t.escopos| && 0 <= k < |r.t.escopos[s]|
        ensures r.t.escopos[s][k].escopo == s && (r.t.escopos[s][k].usada ==> r.t.escopos[s][k].inicializada)
      {
        if s != t.atual {
          assert r.t.escopos[s] == t.escopos[s];
        } else if k < |atual| {
          assert r.t.escopos[s][k] == atual[k];
        }
      }
    }
  }

  /** Replacing a symbol by one with the same name and scope, flags aside, keeps the invariant. */
  lemma AtualizarCoerente(t: Tabela, p: Pos, s: Simbolo)
    requires Coerente(t) && p.escopo < |t.escopos| && p.indice < |t.escopos[p.escopo]|
    requires s.nome == Em(t, p).nome && s.escopo == Em(t, p).escopo && (s.usada ==> s.inicializada)
    ensures Coerente(Atualizar(t, p, s))
  {
    var r := Atualizar(t, p, s);
    forall u | 0 <= u < |r.escopos|
      ensures Unicos(r.escopos[u])
    {
      if u != p.escopo {
        assert r.escopos[u] == t.escopos[u];
      } else {
        forall j, k | 0 <= j < k < |r.escopos[u]|
          ensures r.escopos[u][j].nome != r.escopos[u][k].nome
        {
          assert t.escopos[u][j].nome != t.escopos[u][k].nome;
        }
      }
    }
    forall u, k | 0 <= u < |r.escopos| && 0 <= k < |r.escopos[u]|
      ensures r.escopos[u][k].escopo == u && (r.escopos[u][k].usada ==> r.escopos[u][k].inicializada)
    {
      if u != p.escopo {
        assert r.escopos[u] == t.escopos[u];
      } else if k != p.indice {
        assert r.escopos[u][k] == t.escopos[u][k];
      }
    }
  }

  /** `marcarInicializado` keeps the invariant. */
  lemma InicializarCoerente(t: Tabela, nome: string, linha: int)
    requires Coerente(t)
    ensures Coerente(Inicializar(t, nome, linha).t)
  {
    var p := Buscar(t, nome);
    if p.Some? {
      AtualizarCoerente(t, p.value, Em(t, p.value).(inicializada := true));
    }
  }

  // ------------------------------------------------------------- marking

  /**
   * `marcarUsado`: an undeclared name is reported and nothing changes; a
   * symbol not yet initialised is reported and stays unused; otherwise that
   * symbol alone becomes used and nothing is reported.
   */
  lemma UsarCasos(t: Tabela, nome: string, linha: int)
    requires Coerente(t)
    ensures var r := Usar(t, nome, linha);
      var p := Buscar(t, nome);
      (p.None? ==> r == Adicao(t, Some(NaoDeclarada(linha, nome))))
      && (p.Some? && !Em(t, p.value).inicializada ==>
            r == Adicao(t, Some(AntesDeInicializada(linha, nome))) && !Em(r.t, p.value).usada)
      && (p.Some? && Em(t, p.value).inicializada ==>
            r.erro == None && Em(r.t, p.value) == Em(t, p.value).(usada := true)
            && forall u, k :: 0 <= u < |t.escopos| && 0 <= k < |t.escopos[u]| && Pos(u, k) != p.value ==>
                 k < |r.t.escopos[u]| && r.t.escopos[u][k] == t.escopos[u][k])
  {
    var p := Buscar(t, nome);
    if p.Some? {
      var q := p.value;
      assert t.escopos[q.escopo][q.indice].escopo == q.escopo;
    }
  }

  /** `marcarUsado` keeps the invariant: a used symbol is always an initialised one. */
  lemma UsarCoerente(t: Tabela, nome: string, linha: int)
    requires Coerente(t)
    ensures Coerente(Usar(t, nome, linha).t)
  {
    var p := Buscar(t, nome);
    if p.Some? && Em(t, p.value).inicializada {
      AtualizarCoerente(t, p.value, Em(t, p.value).(usada := true));
    }
  }

  // --------------------------------------------------------------- types

  /**
   * `verificarTipos` on a known left type: `inteiro` and `decimal` accept
   * each other, `texto` and `logico` only themselves.
   */
  lemma CompatibilidadeTipos(esquerda: string, direita: string, linha: int, operacao: Operacao)
    requires TipoConhecido(esquerda)
    ensures VerificarTipos(esquerda, direita, linha, operacao) == None <==>
      esquerda == direita
      || (esquerda == "inteiro" && direita == "decimal")
      || (esquerda == "decimal" && direita == "inteiro")
  {
  }

  // ------------------------------------------------------------- warnings

  lemma {:induction false} AvisosEscopoExatos(escopo: seq<Simbolo>, m: Mensagem)
    ensures m in AvisosEscopo(escopo) <==>
      exists k :: 0 <= k < |escopo| && !escopo[k].usada && m == NaoUsada(escopo[k].linha, escopo[k].nome)
    decreases |escopo|
  {
    if escopo != [] {
      var n := |escopo| - 1;
      AvisosEscopoExatos(escopo[..n], m);
      if exists k :: 0 <= k < |escopo| && !escopo[k].usada && m == NaoUsada(escopo[k].linha, escopo[k].nome) {
        var k :| 0 <= k < |escopo| && !escopo[k].usada && m == NaoUsada(escopo[k].linha, escopo[k].nome);
        if k < n {
          assert escopo[..n][k] == escopo[k];
        }
      }
    }
  }

  /**
   * `verificarNaoUsadas` warns about exactly the symbols still in the table
   * that were never used, each at its declaration line.
   */
  lemma {:induction false} AvisosExatos(escopos: seq<seq<Simbolo>>, m: Mensagem)
    ensures m in Avisos(escopos) <==>
      exists s, k :: 0 <= s < |escopos| && 0 <= k < |escopos[s]| && !escopos[s][k].usada
        && m == NaoUsada(escopos[s][k].linha, escopos[s][k].nome)
    decreases |escopos|
  {
    if escopos != [] {
      var n := |escopos| - 1;
      var antes := escopos[..n];
      AvisosExatos(antes, m);
      AvisosEscopoExatos(escopos[n], m);
      assert Avisos(escopos) == Avisos(antes) + AvisosEscopo(escopos[n]);
      if m in Avisos(escopos) {
        if m in Avisos(antes) {
          var s, k :| 0 <= s < |antes| && 0 <= k < |antes[s]| && !antes[s][k].usada
            && m == NaoUsada(antes[s][k].linha, antes[s][k].nome);
          assert antes[s] == escopos[s];
        } else {
          var k :| 0 <= k < |escopos[n]| && !escopos[n][k].usada && m == NaoUsada(escopos[n][k].linha, escopos[n][k].nome);
        }
      } else {
        forall s, k | 0 <= s < |escopos| && 0 <= k < |escopos[s]| && !escopos[s][k].usada
          ensures m != NaoUsada(escopos[s][k].linha, escopos[s][k].nome)
        {
          if s < n {
            assert antes[s] == escopos[s];
          }
        }
      }
    }
  }
}
