/**
 * What `gerarCodigoIntermediario` promises about the code it emits:
 * temporaries are numbered `t0, t1, ...` in order of definition, so no two
 * definitions share a temporary; a label is always below the counter when it
 * is emitted, so the two labels each `se`/`enquanto` takes are new; and the
 * shapes each statement emits.
 */
module CodigoIntermediarioProps {
  import opened Tokens
  import opened CodigoIntermediario

  // ------------------------------------------------------------ temporaries

  /** The temporary an instruction defines, if any. */
  function Def(x: Instr): seq<nat> {
    match x
    case Binaria(t, _, _, _) => [t]
    case Parenteses(t) => [t]
    case Chamada(t, _, _) => [t]
    case _ => []
  }

  /** The temporaries the code defines, in order. */
  function Temps(c: seq<Instr>): seq<nat>
    decreases |c|
  {
    if c == [] then [] else Temps(c[..|c| - 1]) + Def(c[|c| - 1])
  }

  /** `0, 1, ..., n - 1`. */
  function Intervalo(n: nat): (r: seq<nat>)
    ensures |r| == n && forall k :: 0 <= k < |r| ==> r[k] == k
  {
    seq(n, k requires 0 <= k < n => k)
  }

  lemma IntervaloMais(n: nat)
    ensures Intervalo(n) + [n] == Intervalo(n + 1)
  {
    assert forall k :: 0 <= k < n + 1 ==> (Intervalo(n) + [n])[k] == k;
  }

  /** The numbering invariant: the code defines `t0 ... t(n-1)`, in that order, and the counter is `n`. */
  predicate Numerado(c: seq<Instr>, n: nat) {
    Temps(c) == Intervalo(n)
  }

  lemma {:induction false} TempsJunta(a: seq<Instr>, b: seq<Instr>)
    ensures Temps(a + b) == Temps(a) + Temps(b)
    decreases |b|
  {
    if b == [] {
      assert a + b == a;
    } else {
      var b' := b[..|b| - 1];
      assert (a + b)[..|a + b| - 1] == a + b';
      TempsJunta(a, b');
    }
  }

  lemma TempsUm(x: Instr)
    ensures Temps([x]) == Def(x)
  {
    assert [x][..0] == [];
  }

  /** Code none of whose instructions defines a temporary. */
  lemma {:induction false} NenhumTemp(c: seq<Instr>)
    requires forall k :: 0 <= k < |c| ==> Def(c[k]) == []
    ensures Temps(c) == []
    decreases |c|
  {
    if c != [] {
      NenhumTemp(c[..|c| - 1]);
    }
  }

  /** Appending code that defines no temporary keeps the numbering. */
  lemma AcrescentaSemTemps(c: seq<Instr>, novo: seq<Instr>, n: nat)
    requires Numerado(c, n)
    requires forall k :: 0 <= k < |novo| ==> Def(novo[k]) == []
    ensures Numerado(c + novo, n)
  {
    NenhumTemp(novo);
    TempsJunta(c, novo);
  }

  /** Appending one definition of the next temporary keeps the numbering. */
  lemma AcrescentaTemp(c: seq<Instr>, x: Instr, n: nat)
    requires Numerado(c, n) && Def(x) == [n]
    ensures Numerado(c + [x], n + 1)
  {
    TempsJunta(c, [x]);
    TempsUm(x);
    IntervaloMais(n);
  }

  /** A branch that appends instructions defining no temporary. */
  lemma RamoSemTemps(g: Geracao, r: Geracao)
    requires Numerado(g.codigo, g.temp)
    requires g.codigo <= r.codigo && r.temp == g.temp
    requires forall k :: |g.codigo| <= k < |r.codigo| ==> Def(r.codigo[k]) == []
    ensures Numerado(r.codigo, r.temp)
  {
    var novo := r.codigo[|g.codigo|..];
    assert r.codigo == g.codigo + novo;
    assert forall k :: 0 <= k < |novo| ==> novo[k] == r.codigo[|g.codigo| + k];
    AcrescentaSemTemps(g.codigo, novo, g.temp);
  }

  /** One turn of the expression loop defines the next temporary, or none. */
  lemma PassoExprTemps(ts: seq<Token>, fim: nat, t: Trecho)
    requires t.j < fim <= |ts| && Numerado(t.codigo, t.temp)
    ensures var r := PassoExpr(ts, fim, t); Numerado(r.codigo, r.temp)
  {
    var r := PassoExpr(ts, fim, t);
    if r.temp != t.temp {
      var x := r.codigo[|r.codigo| - 1];
      assert r.codigo == t.codigo + [x] && Def(x) == [t.temp] && r.temp == t.temp + 1;
      AcrescentaTemp(t.codigo, x, t.temp);
    }
  }

  lemma {:induction false} ExprDesdeTemps(ts: seq<Token>, fim: nat, t: Trecho)
    requires t.j <= fim <= |ts| && Numerado(t.codigo, t.temp)
    ensures var r := ExprDesde(ts, fim, t); Numerado(r.codigo, r.temp)
    decreases fim - t.j
  {
    if t.j < fim {
      var p := PassoExpr(ts, fim, t);
      PassoExprTemps(ts, fim, t);
      assert ExprDesde(ts, fim, t) == ExprDesde(ts, fim, p);
      ExprDesdeTemps(ts, fim, p);
    }
  }

  lemma AtribuicaoCompostaTemps(ts: seq<Token>, g: Geracao, fim: nat)
    requires g.i + 2 <= fim <= |ts| && Numerado(g.codigo, g.temp)
    ensures var r := AtribuicaoComposta(ts, g, fim); Numerado(r.codigo, r.temp)
  {
    var t0 := Trecho(g.i + 2, g.codigo, g.temp);
    var t := ExprDesde(ts, fim, t0);
    ExprDesdeTemps(ts, fim, t0);
    var fecho := CopiaFinal(ts[g.i].lexeme, g.temp, t.temp);
    CopiaFinalCopia(ts[g.i].lexeme, g.temp, t.temp);
    AcrescentaSemTemps(t.codigo, fecho, t.temp);
    CompostaCodigo(ts, g, fim);
  }

  lemma AtribuicaoTemps(ts: seq<Token>, g: Geracao)
    requires g.i + 2 < |ts| && Numerado(g.codigo, g.temp)
    ensures var r := Atribuicao(ts, g); Numerado(r.codigo, r.temp)
  {
    var fim := FimExpressao(ts, g.i + 2);
    if fim - (g.i + 2) == 1 {
      RamoSemTemps(g, Atribuicao(ts, g));
    } else {
      AtribuicaoCompostaTemps(ts, g, fim);
    }
  }

  lemma ChamadaTemps(ts: seq<Token>, g: Geracao)
    requires g.i + 1 < |ts| && Numerado(g.codigo, g.temp)
    ensures var r := ChamadaFuncao(ts, g); Numerado(r.codigo, r.temp)
  {
    var a := ArgsDesde(ts, Args(g.i + 2, []));
    var x := Chamada(g.temp, ts[g.i].lexeme, |a.valores|);
    var ps := Params(a.valores);
    AcrescentaSemTemps(g.codigo, ps, g.temp);
    AcrescentaTemp(g.codigo + ps, x, g.temp);
    assert ChamadaFuncao(ts, g).codigo == (g.codigo + ps) + [x];
  }

  lemma CorpoTemps(ts: seq<Token>, g: Geracao)
    requires g.i < |ts| && Numerado(g.codigo, g.temp)
    ensures var r := Corpo(ts, g); Numerado(r.codigo, r.temp)
  {
    var k := ts[g.i].kind;
    if k == TVariavel && g.i + 3 < |ts| {
      RamoSemTemps(g, DeclaracaoVariavel(ts, g));
    } else if EhAtribuicao(ts, g.i) {
      AtribuicaoTemps(ts, g);
    } else if k == TSe {
      RamoSemTemps(g, Se(ts, g));
    } else {
      CorpoTempsResto(ts, g);
    }
  }

  /** The branches of `Corpo` after `se`. */
  lemma CorpoTempsResto(ts: seq<Token>, g: Geracao)
    requires g.i < |ts| && Numerado(g.codigo, g.temp)
    requires !(ts[g.i].kind == TVariavel && g.i + 3 < |ts|) && !EhAtribuicao(ts, g.i) && ts[g.i].kind != TSe
    ensures var r := Corpo(ts, g); Numerado(r.codigo, r.temp)
  {
    var k := ts[g.i].kind;
    if k == TSenao && |g.pilha| > 0 {
      RamoSemTemps(g, Senao(g));
    } else if k == TFechaChave && |g.pilha| > 0 {
      RamoSemTemps(g, FechaChave(g));
    } else if k == TEnquanto {
      RamoSemTemps(g, Enquanto(ts, g));
    } else if EhChamada(ts, g.i) {
      ChamadaTemps(ts, g);
    }
  }

  lemma {:induction false} GerarDesdeTemps(ts: seq<Token>, g: Geracao)
    requires Numerado(g.codigo, g.temp)
    ensures var r := GerarDesde(ts, g); Numerado(r.codigo, r.temp)
    decreases |ts| - g.i
  {
    if g.i < |ts| {
      var p := Passo(ts, g);
      CorpoTemps(ts, g);
      assert GerarDesde(ts, g) == GerarDesde(ts, p);
      GerarDesdeTemps(ts, p);
    }
  }

  /**
   * Lines 15-23: the temporaries the code defines are `t0, t1, ...` in
   * order, so no temporary is defined twice.
   */
  lemma TemporariosDistintos(ts: seq<Token>)
    ensures var d := Temps(Gerar(ts).codigo);
      (forall k :: 0 <= k < |d| ==> d[k] == k) &&
      (forall p, q :: 0 <= p < q < |d| ==> d[p] != d[q])
  {
    if ts != [] {
      assert Temps([]) == Intervalo(0);
      GerarDesdeTemps(ts, Inicio());
    }
  }

  // ------------------------------------------------------------- labels

  /** A label below the counter `n` (`undefined` is no label). */
  predicate Abaixo(r: Rotulo, n: nat) {
    r.L? ==> r.n < n
  }

  /** Every label an instruction names is below `n`. */
  predicate InstrAbaixo(x: Instr, n: nat) {
    match x
    case SeVaPara(_, _, _, alvo) => Abaixo(alvo, n)
    case VaPara(alvo) => Abaixo(alvo, n)
    case Marca(rotulo) => Abaixo(rotulo, n)
    case SeNaoVaPara(_, _, _, alvo) => Abaixo(alvo, n)
    case _ => true
  }

  function Primeiro(e: Entrada): nat {
    match e
    case DeSe(p, _) => p
    case DeEnquanto(p, _) => p
  }

  function Segundo(e: Entrada): nat {
    match e
    case DeSe(_, s) => s
    case DeEnquanto(_, s) => s
  }

  /**
   * The label invariant: every label in the code and on the stack is below
   * the counter; each stack entry holds two consecutive labels, and the
   * entries are in the order they were taken.
   */
  predicate Rotulado(g: Geracao) {
    (forall k :: 0 <= k < |g.codigo| ==> InstrAbaixo(g.codigo[k], g.rotulo)) &&
    (forall k :: 0 <= k < |g.pilha| ==> Segundo(g.pilha[k]) == Primeiro(g.pilha[k]) + 1 < g.rotulo) &&
    (forall p, q :: 0 <= p < q < |g.pilha| ==> Segundo(g.pilha[p]) < Primeiro(g.pilha[q]))
  }

  lemma CodigoAbaixo(c: seq<Instr>, novo: seq<Instr>, n: nat, m: nat)
    requires n <= m
    requires forall k :: 0 <= k < |c| ==> InstrAbaixo(c[k], n)
    requires forall k :: 0 <= k < |novo| ==> InstrAbaixo(novo[k], m)
    ensures forall k :: 0 <= k < |c + novo| ==> InstrAbaixo((c + novo)[k], m)
  {
    forall k | 0 <= k < |c + novo|
      ensures InstrAbaixo((c + novo)[k], m)
    {
      if k < |c| {
        assert (c + novo)[k] == c[k];
        assert InstrAbaixo(c[k], n);
      } else {
        assert (c + novo)[k] == novo[k - |c|];
      }
    }
  }

  /** `se` and `enquanto` take two labels no earlier code or entry names. */
  lemma EmpilhaRotulado(g: Geracao, r: Geracao, novo: seq<Instr>)
    requires Rotulado(g)
    requires r.rotulo == g.rotulo + 2 && r.codigo == g.codigo + novo
    requires r.pilha == g.pilha + [DeSe(g.rotulo, g.rotulo + 1)] || r.pilha == g.pilha + [DeEnquanto(g.rotulo, g.rotulo + 1)]
    requires forall k :: 0 <= k < |novo| ==> InstrAbaixo(novo[k], r.rotulo)
    ensures Rotulado(r)
  {
    CodigoAbaixo(g.codigo, novo, g.rotulo, r.rotulo);
  }

  /** `senao` and `}` name the labels of the entry they pop. */
  lemma DesempilhaRotulado(g: Geracao, r: Geracao, novo: seq<Instr>)
    requires Rotulado(g) && |g.pilha| > 0
    requires r.rotulo == g.rotulo && r.codigo == g.codigo + novo && r.pilha == g.pilha[..|g.pilha| - 1]
    requires forall k :: 0 <= k < |novo| ==> InstrAbaixo(novo[k], r.rotulo)
    ensures Rotulado(r)
  {
    CodigoAbaixo(g.codigo, novo, g.rotulo, r.rotulo);
  }

  /** One turn of the expression loop appends at most one operation, which names no label. */
  lemma PassoExprAbaixo(ts: seq<Token>, fim: nat, t: Trecho, n: nat)
    requires t.j < fim <= |ts|
    requires forall k :: 0 <= k < |t.codigo| ==> InstrAbaixo(t.codigo[k], n)
    ensures var r := PassoExpr(ts, fim, t); forall k :: 0 <= k < |r.codigo| ==> InstrAbaixo(r.codigo[k], n)
  {
    var r := PassoExpr(ts, fim, t);
    if r.codigo != t.codigo {
      var x := r.codigo[|t.codigo|];
      assert r.codigo == t.codigo + [x];
      assert x.Binaria? || x.Parenteses?;
      CodigoAbaixo(t.codigo, [x], n, n);
    }
  }

  /** The expression loop emits no label. */
  lemma {:induction false} ExprAbaixo(ts: seq<Token>, fim: nat, t: Trecho, n: nat)
    requires t.j <= fim <= |ts|
    requires forall k :: 0 <= k < |t.codigo| ==> InstrAbaixo(t.codigo[k], n)
    ensures forall k :: 0 <= k < |ExprDesde(ts, fim, t).codigo| ==> InstrAbaixo(ExprDesde(ts, fim, t).codigo[k], n)
    decreases fim - t.j
  {
    if t.j < fim {
      var p := PassoExpr(ts, fim, t);
      PassoExprAbaixo(ts, fim, t, n);
      assert ExprDesde(ts, fim, t) == ExprDesde(ts, fim, p);
      ExprAbaixo(ts, fim, p, n);
    }
  }

  /** A branch that takes no label and appends code naming labels below the counter. */
  lemma MesmaPilhaRotulado(g: Geracao, r: Geracao)
    requires Rotulado(g) && g.codigo <= r.codigo && r.rotulo == g.rotulo && r.pilha == g.pilha
    requires forall k :: |g.codigo| <= k < |r.codigo| ==> InstrAbaixo(r.codigo[k], r.rotulo)
    ensures Rotulado(r)
  {
    var novo := r.codigo[|g.codigo|..];
    assert r.codigo == g.codigo + novo;
    assert forall k :: 0 <= k < |novo| ==> novo[k] == r.codigo[|g.codigo| + k];
    CodigoAbaixo(g.codigo, novo, g.rotulo, r.rotulo);
  }

  lemma DeclaracaoRotulado(ts: seq<Token>, g: Geracao)
    requires g.i + 3 < |ts| && Rotulado(g)
    ensures Rotulado(DeclaracaoVariavel(ts, g))
  {
    MesmaPilhaRotulado(g, DeclaracaoVariavel(ts, g));
  }

  /** The final copy is a copy, which names no label and defines no temporary. */
  lemma CopiaFinalCopia(x: string, antes: nat, depois: nat)
    ensures forall k :: 0 <= k < |CopiaFinal(x, antes, depois)| ==> CopiaFinal(x, antes, depois)[k].Copia?
  {
    if depois > antes {
      assert CopiaFinal(x, antes, depois) == [Copia(x, Temp(depois - 1))];
    }
  }

  lemma AtribuicaoCompostaRotulado(ts: seq<Token>, g: Geracao, fim: nat)
    requires g.i + 2 <= fim <= |ts| && Rotulado(g)
    ensures Rotulado(AtribuicaoComposta(ts, g, fim))
  {
    CompostaAbaixo(ts, g, fim);
  }

  /** An assignment with a longer right-hand side emits operations and a copy, which name no label. */
  lemma CompostaAbaixo(ts: seq<Token>, g: Geracao, fim: nat)
    requires g.i + 2 <= fim <= |ts|
    requires forall k :: 0 <= k < |g.codigo| ==> InstrAbaixo(g.codigo[k], g.rotulo)
    ensures var c := AtribuicaoComposta(ts, g, fim).codigo; forall k :: 0 <= k < |c| ==> InstrAbaixo(c[k], g.rotulo)
  {
    var t0 := Trecho(g.i + 2, g.codigo, g.temp);
    var t := ExprDesde(ts, fim, t0);
    var fecho := CopiaFinal(ts[g.i].lexeme, g.temp, t.temp);
    ExprAbaixo(ts, fim, t0, g.rotulo);
    CopiaFinalCopia(ts[g.i].lexeme, g.temp, t.temp);
    CodigoAbaixo(t.codigo, fecho, g.rotulo, g.rotulo);
    CompostaCodigo(ts, g, fim);
  }

  lemma CompostaCodigo(ts: seq<Token>, g: Geracao, fim: nat)
    requires g.i + 2 <= fim <= |ts|
    ensures var t := ExprDesde(ts, fim, Trecho(g.i + 2, g.codigo, g.temp));
      AtribuicaoComposta(ts, g, fim).codigo == t.codigo + CopiaFinal(ts[g.i].lexeme, g.temp, t.temp) &&
      AtribuicaoComposta(ts, g, fim).temp == t.temp
  {
  }

  lemma AtribuicaoRotulado(ts: seq<Token>, g: Geracao)
    requires g.i + 2 < |ts| && Rotulado(g)
    ensures Rotulado(Atribuicao(ts, g))
  {
    var fim := FimExpressao(ts, g.i + 2);
    if fim - (g.i + 2) == 1 {
      MesmaPilhaRotulado(g, Atribuicao(ts, g));
    } else {
      AtribuicaoCompostaRotulado(ts, g, fim);
    }
  }

  lemma ChamadaRotulado(ts: seq<Token>, g: Geracao)
    requires g.i + 1 < |ts| && Rotulado(g)
    ensures Rotulado(ChamadaFuncao(ts, g))
  {
    var r := ChamadaFuncao(ts, g);
    var a := ArgsDesde(ts, Args(g.i + 2, []));
    var novo := Params(a.valores) + [Chamada(g.temp, ts[g.i].lexeme, |a.valores|)];
    assert r.codigo == g.codigo + novo;
    assert forall k :: 0 <= k < |novo| ==> novo[k].Param? || novo[k].Chamada?;
    CodigoAbaixo(g.codigo, novo, g.rotulo, r.rotulo);
  }

  lemma SeRotulado(ts: seq<Token>, g: Geracao)
    requires Rotulado(g)
    ensures Rotulado(Se(ts, g))
  {
    var r := Se(ts, g);
    EmpilhaRotulado(g, r, r.codigo[|g.codigo|..]);
  }

  lemma EnquantoRotulado(ts: seq<Token>, g: Geracao)
    requires Rotulado(g)
    ensures Rotulado(Enquanto(ts, g))
  {
    var r := Enquanto(ts, g);
    EmpilhaRotulado(g, r, r.codigo[|g.codigo|..]);
  }

  lemma SenaoRotulado(g: Geracao)
    requires Rotulado(g) && |g.pilha| > 0
    ensures Rotulado(Senao(g))
  {
    var r := Senao(g);
    var e := g.pilha[|g.pilha| - 1];
    assert Segundo(e) < g.rotulo;
    DesempilhaRotulado(g, r, r.codigo[|g.codigo|..]);
  }

  lemma FechaChaveRotulado(g: Geracao)
    requires Rotulado(g) && |g.pilha| > 0
    ensures Rotulado(FechaChave(g))
  {
    var r := FechaChave(g);
    var e := g.pilha[|g.pilha| - 1];
    assert Segundo(e) < g.rotulo;
    DesempilhaRotulado(g, r, r.codigo[|g.codigo|..]);
  }

  lemma CorpoRotulado(ts: seq<Token>, g: Geracao)
    requires g.i < |ts| && Rotulado(g)
    ensures Rotulado(Corpo(ts, g))
  {
    var k := ts[g.i].kind;
    if k == TVariavel && g.i + 3 < |ts| {
      DeclaracaoRotulado(ts, g);
    } else if EhAtribuicao(ts, g.i) {
      AtribuicaoRotulado(ts, g);
    } else if k == TSe {
      SeRotulado(ts, g);
    } else if k == TSenao && |g.pilha| > 0 {
      SenaoRotulado(g);
    } else if k == TFechaChave && |g.pilha| > 0 {
      FechaChaveRotulado(g);
    } else if k == TEnquanto {
      EnquantoRotulado(ts, g);
    } else if EhChamada(ts, g.i) {
      ChamadaRotulado(ts, g);
    }
  }

  lemma {:induction false} GerarDesdeRotulado(ts: seq<Token>, g: Geracao)
    requires Rotulado(g)
    ensures Rotulado(GerarDesde(ts, g))
    decreases |ts| - g.i
  {
    if g.i < |ts| {
      CorpoRotulado(ts, g);
      GerarDesdeRotulado(ts, Passo(ts, g));
    }
  }

  /**
   * Lines 15-23 and 139-141, 176-178: every label of the code is one the
   * counter gave out, and the entries left on the stack hold distinct labels.
   */
  lemma RotulosFrescos(ts: seq<Token>)
    ensures Rotulado(GerarDesde(ts, Inicio()))
  {
    GerarDesdeRotulado(ts, Inicio());
  }

  // ------------------------------------------------------------- shapes

  /** Lines 62-64: `variavel x : T` not followed by `= v` emits the uninitialised copy and skips to `T`. */
  lemma DeclaracaoSemValor(ts: seq<Token>, g: Geracao)
    requires g.i + 3 < |ts| && ts[g.i].kind == TVariavel
    requires !(g.i + 5 < |ts| && ts[g.i + 3].kind == TAtribuicao)
    ensures var r := Passo(ts, g); r.codigo == g.codigo + [NaoInicializada(ts[g.i + 1].lexeme)] && r.i == g.i + 3
  {
  }

  /** Lines 52-60: `variavel x : T = v` emits `x = v` when `v` is a value, nothing otherwise, and skips past `v`. */
  lemma DeclaracaoComValor(ts: seq<Token>, g: Geracao)
    requires g.i + 5 < |ts| && ts[g.i].kind == TVariavel && ts[g.i + 3].kind == TAtribuicao
    ensures var r := Passo(ts, g);
      r.i == g.i + 5 &&
      r.codigo == g.codigo + (if EhValor(ts[g.i + 4].kind) then [Copia(ts[g.i + 1].lexeme, Lexema(ts[g.i + 4].lexeme))] else [])
  {
  }

  /** Lines 80-86: `x = v ;` emits exactly `x = v` and moves past the `;`. */
  lemma AtribuicaoSimples(ts: seq<Token>, g: Geracao)
    requires g.i + 3 < |ts| && ts[g.i].kind == TIdentificador && ts[g.i + 1].kind == TAtribuicao
    requires ts[g.i + 2].kind != TPv && ts[g.i + 3].kind == TPv
    ensures var r := Passo(ts, g);
      r.i == g.i + 4 && r.temp == g.temp && r.codigo == g.codigo + [Copia(ts[g.i].lexeme, Lexema(ts[g.i + 2].lexeme))]
  {
    assert FimExpressao(ts, g.i + 3) == g.i + 3;
  }

  /** Lines 114-132: `x = a op b ;` emits `tN = a op b` with a fresh `tN`, then `x = tN`. */
  lemma AtribuicaoBinaria(ts: seq<Token>, g: Geracao)
    requires g.i + 5 < |ts| && ts[g.i].kind == TIdentificador && ts[g.i + 1].kind == TAtribuicao
    requires ts[g.i + 2].kind != TPv && ts[g.i + 2].kind != TAbrePar && EhOperador(ts[g.i + 3].kind)
    requires ts[g.i + 4].kind != TPv && ts[g.i + 5].kind == TPv
    ensures var r := Passo(ts, g);
      r.i == g.i + 6 && r.temp == g.temp + 1 &&
      r.codigo == g.codigo + [Binaria(g.temp, ts[g.i + 2].lexeme, Operador(ts[g.i + 3].kind), ts[g.i + 4].lexeme),
                              Copia(ts[g.i].lexeme, Temp(g.temp))]
  {
    var i := g.i;
    assert FimExpressao(ts, i + 5) == i + 5;
    assert FimExpressao(ts, i + 2) == i + 5 by {
      assert ts[i + 3].kind != TPv && ts[i + 4].kind != TPv;
    }
    PassoAtribuicao(ts, g);
    ExprBinaria(ts, i + 2, g.codigo, g.temp);
  }

  /** The loop body on `x =` is the assignment branch. */
  lemma PassoAtribuicao(ts: seq<Token>, g: Geracao)
    requires EhAtribuicao(ts, g.i)
    ensures Passo(ts, g) == Atribuicao(ts, g).(i := Atribuicao(ts, g).i + 1)
  {
    assert ts[g.i].kind != TVariavel;
    assert Corpo(ts, g) == Atribuicao(ts, g);
  }

  /** Lines 114-127: a right-hand side `a op b` is one operation into a fresh temporary. */
  lemma ExprBinaria(ts: seq<Token>, j: nat, codigo: seq<Instr>, temp: nat)
    requires j + 3 <= |ts| && ts[j].kind != TAbrePar && EhOperador(ts[j + 1].kind)
    ensures ExprDesde(ts, j + 3, Trecho(j, codigo, temp))
      == Trecho(j + 3, codigo + [Binaria(temp, ts[j].lexeme, Operador(ts[j + 1].kind), ts[j + 2].lexeme)], temp + 1)
  {
    var t1 := PassoExpr(ts, j + 3, Trecho(j, codigo, temp));
    assert t1.j == j + 3;
    assert ExprDesde(ts, j + 3, t1) == t1;
  }

  /** The arguments of a call: the value tokens in `ts[j..k]`. */
  function Valores(ts: seq<Token>): (r: seq<string>)
    ensures |r| <= |ts|
    decreases |ts|
  {
    if ts == [] then []
    else Valores(ts[..|ts| - 1]) + ValorDe(ts[|ts| - 1])
  }

  /** The values of a stretch one token longer. */
  lemma ValoresMais(ts: seq<Token>, j0: nat, j: nat)
    requires j0 <= j < |ts|
    ensures Valores(ts[j0..j + 1]) == Valores(ts[j0..j]) + ValorDe(ts[j])
  {
    var s := ts[j0..j + 1];
    assert s[..|s| - 1] == ts[j0..j] && s[|s| - 1] == ts[j];
  }

  lemma {:induction false} ArgsDesdeValores(ts: seq<Token>, j0: nat, a: Args)
    requires j0 <= a.j <= |ts| && a.valores == Valores(ts[j0..a.j])
    ensures ArgsDesde(ts, a).j == AteFechaPar(ts, a.j)
    ensures ArgsDesde(ts, a).valores == Valores(ts[j0..ArgsDesde(ts, a).j])
    decreases |ts| - a.j
  {
    if a.j < |ts| && ts[a.j].kind != TFechaPar {
      ArgsUmPasso(ts, j0, a);
      ArgsDesdeValores(ts, j0, Args(a.j + 1, Valores(ts[j0..a.j + 1])));
    } else {
      assert ArgsDesde(ts, a) == a;
    }
  }

  /** The value a token contributes to an argument list: its text when it is a value. */
  function ValorDe(t: Token): seq<string> {
    if EhValor(t.kind) then [t.lexeme] else []
  }

  /** One token of the argument scan extends the values of `ts[j0..]` by that token. */
  lemma ArgsUmPasso(ts: seq<Token>, j0: nat, a: Args)
    requires j0 <= a.j < |ts| && ts[a.j].kind != TFechaPar && a.valores == Valores(ts[j0..a.j])
    ensures ArgsDesde(ts, a) == ArgsDesde(ts, Args(a.j + 1, Valores(ts[j0..a.j + 1])))
    ensures AteFechaPar(ts, a.j) == AteFechaPar(ts, a.j + 1)
  {
    ValoresMais(ts, j0, a.j);
    ArgsDesdeUm(ts, a);
  }

  lemma ArgsDesdeUm(ts: seq<Token>, a: Args)
    requires a.j < |ts| && ts[a.j].kind != TFechaPar
    ensures ArgsDesde(ts, a) == ArgsDesde(ts, Args(a.j + 1, a.valores + ValorDe(ts[a.j])))
  {
    if !EhValor(ts[a.j].kind) {
      assert a.valores + ValorDe(ts[a.j]) == a.valores;
    }
  }

  /**
   * Lines 199-221: a call `f ( ... )` emits one `param` per value token up
   * to the first `)`, in order, then `tN = call f, n` with a fresh `tN` and
   * `n` the number of those values, and moves past the `)`.
   */
  lemma ChamadaEmite(ts: seq<Token>, g: Geracao)
    requires g.i + 1 < |ts| && ts[g.i].kind == TIdentificador && ts[g.i + 1].kind == TAbrePar
    ensures var r := Passo(ts, g); var fecha := AteFechaPar(ts, g.i + 2); var v := Valores(ts[g.i + 2..fecha]);
      fecha <= |ts| && r.i == fecha + 1 && r.temp == g.temp + 1 &&
      r.codigo == g.codigo + Params(v) + [Chamada(g.temp, ts[g.i].lexeme, |v|)]
  {
    assert ts[g.i + 2..g.i + 2] == [];
    ArgsDesdeValores(ts, g.i + 2, Args(g.i + 2, []));
    assert !EhAtribuicao(ts, g.i) && EhChamada(ts, g.i);
    assert Corpo(ts, g) == ChamadaFuncao(ts, g);
  }

  /** Lines 138-159: `se ( a op b )` takes two labels and emits the jump to the first, the jump to the second, and the first. */
  lemma SeEmite(ts: seq<Token>, g: Geracao)
    requires g.i + 4 < |ts| && ts[g.i].kind == TSe && ts[g.i + 3].kind != TEnd
    ensures var r := Passo(ts, g); var a := ts[g.i + 2]; var b := ts[g.i + 4]; var op := Operador(ts[g.i + 3].kind);
      r.rotulo == g.rotulo + 2 && r.pilha == g.pilha + [DeSe(g.rotulo, g.rotulo + 1)] &&
      r.codigo == g.codigo + [SeVaPara(a.lexeme, op, b.lexeme, L(g.rotulo)), VaPara(L(g.rotulo + 1)), Marca(L(g.rotulo))]
  {
    assert !EhAtribuicao(ts, g.i) && TemCondicao(ts, g.i + 2);
    assert Corpo(ts, g) == Se(ts, g);
  }

  /** The loop body on `enquanto` is the `enquanto` branch. */
  lemma PassoEnquanto(ts: seq<Token>, g: Geracao)
    requires g.i < |ts| && ts[g.i].kind == TEnquanto
    ensures Passo(ts, g) == Enquanto(ts, g).(i := Enquanto(ts, g).i + 1)
  {
    assert !EhAtribuicao(ts, g.i) && !EhChamada(ts, g.i);
    assert Corpo(ts, g) == Enquanto(ts, g);
  }

  /** The loop body on a `}` with an open block is the closing branch. */
  lemma PassoFechaChave(ts: seq<Token>, g: Geracao)
    requires g.i < |ts| && ts[g.i].kind == TFechaChave && |g.pilha| > 0
    ensures Passo(ts, g) == FechaChave(g).(i := g.i + 1)
  {
    assert !EhAtribuicao(ts, g.i) && !EhChamada(ts, g.i);
    assert Corpo(ts, g) == FechaChave(g);
  }

  /** Lines 175-190: `enquanto ( a op b )` emits its first label, then the exit to its second. */
  lemma EnquantoEmite(ts: seq<Token>, g: Geracao)
    requires g.i + 4 < |ts| && ts[g.i].kind == TEnquanto && ts[g.i + 3].kind != TEnd
    ensures var r := Passo(ts, g); var a := ts[g.i + 2]; var b := ts[g.i + 4]; var op := Operador(ts[g.i + 3].kind);
      r.rotulo == g.rotulo + 2 && r.pilha == g.pilha + [DeEnquanto(g.rotulo, g.rotulo + 1)] &&
      r.codigo == g.codigo + [Marca(L(g.rotulo)), SeNaoVaPara(a.lexeme, op, b.lexeme, L(g.rotulo + 1))]
  {
    PassoEnquanto(ts, g);
    assert TemCondicao(ts, g.i + 2);
  }

  function Tk(lexeme: string, kind: Kind): Token {
    Token(lexeme, kind, 1)
  }

  /** `enquanto ( a < b ) { }`. */
  function LacoVazio(): seq<Token> {
    [Tk("enquanto", TEnquanto), Tk("(", TAbrePar), Tk("a", TIdentificador), Tk("<", TMenor),
     Tk("b", TIdentificador), Tk(")", TFechaPar), Tk("{", TAbreChave), Tk("}", TFechaChave)]
  }

  /** The head of that loop: its label, its exit test, and the entry it pushes. */
  lemma LacoVazioCabeca()
    ensures Passo(LacoVazio(), Inicio()) ==
      Geracao(6, [Marca(L(0)), SeNaoVaPara("a", "<", "b", L(1))], 0, 2, [DeEnquanto(0, 1)])
  {
    var ts := LacoVazio();
    assert AteFechaPar(ts, 5) == 5;
    assert AteFechaPar(ts, 2) == 5;
    PassoEnquanto(ts, Inicio());
  }

  /**
   * Lines 169-178: the `}` that closes a loop pops the loop's entry, which
   * has no `fimIf`, so it emits `undefined:`; no jump back to the start is
   * emitted.
   */
  lemma LacoFechaIndefinido()
    ensures Gerar(LacoVazio()).codigo == [Marca(L(0)), SeNaoVaPara("a", "<", "b", L(1)), Marca(Indefinido)]
  {
    var ts := LacoVazio();
    var g1 := Geracao(6, [Marca(L(0)), SeNaoVaPara("a", "<", "b", L(1))], 0, 2, [DeEnquanto(0, 1)]);
    var g2 := g1.(i := 7);
    var g3 := Geracao(8, g1.codigo + [Marca(Indefinido)], 0, 2, []);
    LacoVazioCabeca();
    GerarDesdePasso(ts, Inicio());
    LacoVazioBloco(g1);
    GerarDesdePasso(ts, g1);
    LacoVazioFecha(g2);
    GerarDesdePasso(ts, g2);
    assert GerarDesde(ts, g3) == g3;
  }

  lemma GerarDesdePasso(ts: seq<Token>, g: Geracao)
    requires g.i < |ts|
    ensures GerarDesde(ts, g) == GerarDesde(ts, Passo(ts, g))
  {
  }

  /** The `{` of that loop emits nothing. */
  lemma LacoVazioBloco(g: Geracao)
    requires g.i == 6
    ensures Passo(LacoVazio(), g) == g.(i := 7)
  {
    assert Corpo(LacoVazio(), g) == g;
  }

  /** Its `}` pops the loop's entry and emits `undefined:`. */
  lemma LacoVazioFecha(g: Geracao)
    requires g.i == 7 && g.pilha == [DeEnquanto(0, 1)]
    ensures Passo(LacoVazio(), g) == Geracao(8, g.codigo + [Marca(Indefinido)], g.temp, g.rotulo, [])
  {
    PassoFechaChave(LacoVazio(), g);
  }
}
