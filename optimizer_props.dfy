/**
 * Properties of the optimiser's passes and of its round loop.
 */
module OtimizadorProps {
  import opened Wrappers
  import opened Tac
  import opened Otimizador

  // ------------------------------------------------ 1. common subexpressions

  /** No two temporaries of the list are computed by the same `a op b`. */
  predicate ChavesDistintas(s: seq<Instr>) {
    forall a, b :: 0 <= a < b < |s| && EhExpressaoTemp(s[a]) && EhExpressaoTemp(s[b]) ==>
      ChaveDe(s[a]) != ChaveDe(s[b])
  }

  lemma {:induction false} SubexpressoesEncurta(r: seq<Instr>, i: nat, vistas: map<Chave, string>)
    requires i <= |r|
    ensures |Subexpressoes(r, i, vistas)| <= |r|
    decreases |r| - i
  {
    if i < |r| && EhExpressaoTemp(r[i]) {
      var k := ChaveDe(r[i]);
      if k in vistas {
        SubexpressoesEncurta(r[..i] + RenomeiaTodas(r[i + 1..], r[i].destino, vistas[k]), i, vistas);
      } else {
        SubexpressoesEncurta(r, i + 1, vistas[k := r[i].destino]);
      }
    } else if i < |r| {
      SubexpressoesEncurta(r, i + 1, vistas);
    }
  }

  /**
   * Every key computed into a temporary before `i` is known, and the keys
   * before `i` are distinct: then the whole output has distinct keys.
   */
  lemma {:induction false} SubexpressoesDistintasDesde(r: seq<Instr>, i: nat, vistas: map<Chave, string>)
    requires i <= |r|
    requires forall k :: 0 <= k < i && EhExpressaoTemp(r[k]) ==> ChaveDe(r[k]) in vistas
    requires ChavesDistintas(r[..i])
    ensures ChavesDistintas(Subexpressoes(r, i, vistas))
    decreases |r| - i
  {
    if i == |r| {
      assert r[..i] == r;
    } else if EhExpressaoTemp(r[i]) {
      var k := ChaveDe(r[i]);
      if k in vistas {
        var r' := r[..i] + RenomeiaTodas(r[i + 1..], r[i].destino, vistas[k]);
        assert r'[..i] == r[..i];
        SubexpressoesDistintasDesde(r', i, vistas);
      } else {
        assert r[..i + 1][..i] == r[..i];
        SubexpressoesDistintasDesde(r, i + 1, vistas[k := r[i].destino]);
      }
    } else {
      assert r[..i + 1][..i] == r[..i];
      SubexpressoesDistintasDesde(r, i + 1, vistas);
    }
  }

  /** After pass 1 every `a op b` is computed into at most one temporary. */
  lemma SubexpressoesDistintas(r: seq<Instr>)
    ensures ChavesDistintas(EliminarSubexpressoes(r))
  {
    SubexpressoesDistintasDesde(r, 0, map[]);
  }

  lemma {:induction false} SubexpressoesFixoDesde(s: seq<Instr>, i: nat, vistas: map<Chave, string>)
    requires i <= |s|
    requires ChavesDistintas(s)
    requires forall k :: i <= k < |s| && EhExpressaoTemp(s[k]) ==> ChaveDe(s[k]) !in vistas
    ensures Subexpressoes(s, i, vistas) == s
    decreases |s| - i
  {
    if i < |s| && EhExpressaoTemp(s[i]) {
      SubexpressoesFixoDesde(s, i + 1, vistas[ChaveDe(s[i]) := s[i].destino]);
    } else if i < |s| {
      SubexpressoesFixoDesde(s, i + 1, vistas);
    }
  }

  /** Pass 1 removes nothing from its own output. */
  lemma SubexpressoesIdempotente(r: seq<Instr>)
    ensures EliminarSubexpressoes(EliminarSubexpressoes(r)) == EliminarSubexpressoes(r)
  {
    SubexpressoesDistintas(r);
    SubexpressoesFixoDesde(EliminarSubexpressoes(r), 0, map[]);
  }

  /** `t1 := a + b`, `t2 := a + b`, `x := t2` keeps the first temporary and reads it. */
  lemma SubexpressoesExemplo()
    ensures EliminarSubexpressoes([Binaria("t1", Nome("a"), Mais, Nome("b")),
                                   Binaria("t2", Nome("a"), Mais, Nome("b")),
                                   Copia("x", Nome("t2"))])
         == [Binaria("t1", Nome("a"), Mais, Nome("b")), Copia("x", Nome("t1"))]
  {
    var r := [Binaria("t1", Nome("a"), Mais, Nome("b")), Binaria("t2", Nome("a"), Mais, Nome("b")),
              Copia("x", Nome("t2"))];
    var v := map[Chave(Nome("a"), Mais, Nome("b")) := "t1"];
    assert EhTemp("t1") && EhTemp("t2");
    var r' := r[..1] + RenomeiaTodas(r[2..], "t2", "t1");
    assert r' == [Binaria("t1", Nome("a"), Mais, Nome("b")), Copia("x", Nome("t1"))];
    assert Subexpressoes(r, 1, v) == Subexpressoes(r', 1, v);
    assert !EhTemp("x");
  }

  // ------------------------------------------------------------ 2. dead code

  lemma {:induction false} DefinicoesVazias(r: seq<Instr>, i: nat)
    requires i <= |r|
    ensures Definicoes(r, i, []) == []
    decreases |r| - i
  {
    if i < |r| {
      DefinicoesVazias(r, i + 1);
    }
  }

  /** As written, pass 2 records no definition and so returns its input. */
  lemma MortoIdentidade(r: seq<Instr>)
    ensures Morto(r) == r
  {
    DefinicoesVazias(r, 0);
  }

  // ------------------------------------------------------ 3. copy propagation

  /** Which of the seven line forms `x` has. */
  function Forma(x: Instr): nat {
    match x
    case Binaria(_, _, _, _) => 0
    case Copia(_, _) => 1
    case SeVaPara(_, _, _, _) => 2
    case VaPara(_) => 3
    case Rotulo(_) => 4
    case Chama(_, _) => 5
    case Retorna(_) => 6
  }

  predicate MesmasFormas(a: seq<Instr>, b: seq<Instr>) {
    |a| == |b| && forall k :: 0 <= k < |a| ==> Forma(a[k]) == Forma(b[k])
  }

  lemma {:induction false} AplicaCopiasForma(x: Instr, copias: seq<(string, string)>, linha: Instr)
    ensures Forma(AplicaCopias(x, copias, linha)) == Forma(x)
    decreases |copias|
  {
    if copias != [] {
      var y := if Define(linha, copias[0].0) then x else Renomeia(x, copias[0].0, copias[0].1);
      AplicaCopiasForma(y, copias[1..], linha);
    }
  }

  lemma {:induction false} PropagaForma(r: seq<Instr>, j: nat, de: string, para: string)
    requires j <= |r|
    ensures MesmasFormas(Propaga(r, j, de, para), r)
    decreases |r| - j
  {
    if j < |r| && !Define(r[j], de) {
      PropagaForma(r[j := Renomeia(r[j], de, para)], j + 1, de, para);
    }
  }

  lemma {:induction false} CopiasFormaDesde(r: seq<Instr>, i: nat, copias: seq<(string, string)>)
    requires i <= |r|
    ensures MesmasFormas(Copias(r, i, copias), r)
    decreases |r| - i
  {
    if i < |r| {
      var linha := r[i];
      var novo := EhCopiaSimples(linha) && linha.destino != linha.fonte.nome;
      var r1 := if novo then Propaga(r, i + 1, linha.destino, linha.fonte.nome) else r;
      var c1 := if novo then Atualiza(copias, linha.destino, linha.fonte.nome) else copias;
      if novo {
        PropagaForma(r, i + 1, linha.destino, linha.fonte.nome);
      }
      AplicaCopiasForma(r1[i], c1, linha);
      CopiasFormaDesde(r1[i := AplicaCopias(r1[i], c1, linha)], i + 1, c1);
    }
  }

  /** Pass 3 only renames: every line keeps its index and its form. */
  lemma CopiasForma(r: seq<Instr>)
    ensures MesmasFormas(PropagarCopias(r), r)
  {
    CopiasFormaDesde(r, 0, []);
  }

  /** After `x := y`, a later use of `x` reads `y`. */
  lemma CopiasExemplo()
    ensures PropagarCopias([Copia("x", Nome("y")), Binaria("w", Nome("x"), Mais, Num(1))])
         == [Copia("x", Nome("y")), Binaria("w", Nome("y"), Mais, Num(1))]
  {
    var r := [Copia("x", Nome("y")), Binaria("w", Nome("x"), Mais, Num(1))];
    var w1 := Binaria("w", Nome("y"), Mais, Num(1));
    var r1 := [Copia("x", Nome("y")), w1];
    var c1 := [("x", "y")];
    assert EhIdentificador("x") && EhIdentificador("y");
    assert Renomeia(r[1], "x", "y") == w1;
    assert r[1 := w1] == r1;
    assert Propaga(r1, 2, "x", "y") == r1;
    assert Propaga(r, 1, "x", "y") == r1;
    assert Atualiza([], "x", "y") == c1;
    assert c1[1..] == [];
    assert AplicaCopias(r1[0], c1, r[0]) == r1[0];
    assert r1[0 := r1[0]] == r1;
    assert Copias(r, 0, []) == Copias(r1, 1, c1);
    assert AplicaCopias(w1, c1, w1) == w1;
    assert r1[1 := w1] == r1;
    assert Copias(r1, 1, c1) == Copias(r1, 2, c1);
  }

  /**
   * The copies are never forgotten: after `x := y` and `x := 3`, the line
   * `w := x` still becomes `w := y`.
   */
  lemma CopiaObsoleta()
    ensures PropagarCopias([Copia("x", Nome("y")), Copia("x", Num(3)), Copia("w", Nome("x"))])
         == [Copia("x", Nome("y")), Copia("x", Num(3)), Copia("w", Nome("y"))]
  {
    var r := [Copia("x", Nome("y")), Copia("x", Num(3)), Copia("w", Nome("x"))];
    assert EhIdentificador("x") && EhIdentificador("y") && EhIdentificador("w");
    var c := [("x", "y")];
    assert Propaga(r, 1, "x", "y") == r;
    assert Atualiza([], "x", "y") == c;
    assert c[1..] == [];
    assert AplicaCopias(r[0], c, r[0]) == r[0];
    assert r[0 := r[0]] == r;
    assert Copias(r, 0, []) == Copias(r, 1, c);
    assert AplicaCopias(r[1], c, r[1]) == r[1];
    assert r[1 := r[1]] == r;
    assert Copias(r, 1, c) == Copias(r, 2, c);
    var c2 := [("x", "y"), ("w", "x")];
    assert Atualiza([], "w", "x") == [("w", "x")];
    assert Atualiza(c, "w", "x") == c2;
    assert Propaga(r, 3, "w", "x") == r;
    var y := Copia("w", Nome("y"));
    assert Renomeia(r[2], "x", "y") == y;
    assert c2[1..] == [("w", "x")] && c2[1..][1..] == [];
    assert AplicaCopias(y, c2[1..], r[2]) == y;
    assert AplicaCopias(r[2], c2, r[2]) == y;
    var r3 := r[2 := y];
    assert Copias(r, 2, c) == Copias(r3, 3, c2);
  }

  // ---------------------------------------------------- 4. unnecessary jumps

  /** The lines that do not begin with `goto`, in order. */
  function SemGoto(r: seq<Instr>): seq<Instr> {
    if r == [] then []
    else (if ComecaComGoto(r[0]) then [] else [r[0]]) + SemGoto(r[1..])
  }

  lemma {:induction false} SemGotoJunta(a: seq<Instr>, b: seq<Instr>)
    ensures SemGoto(a + b) == SemGoto(a) + SemGoto(b)
    decreases |a|
  {
    if a != [] {
      assert (a + b)[1..] == a[1..] + b;
      SemGotoJunta(a[1..], b);
    } else {
      assert a + b == b;
    }
  }

  lemma RemoveGoto(r: seq<Instr>, i: nat)
    requires i < |r| && ComecaComGoto(r[i])
    ensures SemGoto(Remove(r, i)) == SemGoto(r)
  {
    var a, b := r[..i], r[i + 1..];
    assert r == (a + [r[i]]) + b;
    assert SemGoto([r[i]]) == [] by {
      assert [r[i]][1..] == [];
    }
    SemGotoJunta(a + [r[i]], b);
    SemGotoJunta(a, [r[i]]);
    SemGotoJunta(a, b);
    assert SemGoto(a) + [] == SemGoto(a);
  }

  lemma {:induction false} DesviosSoGotosDesde(r: seq<Instr>, i: nat)
    requires Desvios(r, i).Some?
    ensures SemGoto(Desvios(r, i).value) == SemGoto(r)
    ensures |Desvios(r, i).value| <= |r|
    decreases |r|, |r| - i
  {
    if i + 1 < |r| {
      var r1 := if SaltoAoSeguinte(r, i) then Remove(r, i) else r;
      var i1 := if SaltoAoSeguinte(r, i) then i - 1 else i;
      if SaltoAoSeguinte(r, i) {
        RemoveGoto(r, i);
      }
      if SaltoAntesDeRotulo(r1, i1) {
        RemoveGoto(r1, i1);
        DesviosSoGotosDesde(Remove(r1, i1), i1);
      } else {
        DesviosSoGotosDesde(r1, i1 + 1);
      }
    }
  }

  /** Pass 4 removes only lines that begin with `goto`; all others stay, in order. */
  lemma DesviosSoGotos(r: seq<Instr>)
    requires EliminarDesvios(r).Some?
    ensures SemGoto(EliminarDesvios(r).value) == SemGoto(r)
    ensures |EliminarDesvios(r).value| <= |r|
  {
    DesviosSoGotosDesde(r, 0);
  }

  /** A jump to the very next label is removed, and so is any jump before a label. */
  lemma DesviosExemplo()
    ensures EliminarDesvios([Copia("x", Num(1)), VaPara("L1"), Rotulo("L1")]) == Some([Copia("x", Num(1)), Rotulo("L1")])
    ensures EliminarDesvios([VaPara("L2"), Rotulo("L1")]) == Some([Rotulo("L1")])
  {
    var r := [Copia("x", Num(1)), VaPara("L1"), Rotulo("L1")];
    assert !SaltoAoSeguinte(r, 0) && !SaltoAntesDeRotulo(r, 0);
    assert SaltoAoSeguinte(r, 1);
    var r1 := Remove(r, 1);
    assert r1 == [Copia("x", Num(1)), Rotulo("L1")];
    assert !SaltoAntesDeRotulo(r1, 0);
    assert Desvios(r, 1) == Desvios(r1, 1);
    var s := [VaPara("L2"), Rotulo("L1")];
    assert !SaltoAoSeguinte(s, 0) && SaltoAntesDeRotulo(s, 0);
    assert Remove(s, 0) == [Rotulo("L1")];
  }

  /** `goto L1` as the first line, right before `L1:`, makes the pass read index -1. */
  lemma DesviosFalha()
    ensures EliminarDesvios([VaPara("L1"), Rotulo("L1")]) == None
  {
    assert SaltoAoSeguinte([VaPara("L1"), Rotulo("L1")], 0);
  }

  // ------------------------------------------------------ 5. algebraic rules

  /** `Math.floor(a / b)`; a zero divisor gives 0, as the translators choose. */
  function DivisaoPiso(a: int, b: int): int {
    if b == 0 then 0 else if b > 0 then a / b else (-a) / (-b)
  }

  function ValorOperando(o: Operando, amb: string -> int): int {
    match o
    case Nome(s) => amb(s)
    case Num(n) => n
  }

  function Calcula(op: Op, a: int, b: int): int {
    match op
    case Mais => a + b
    case Menos => a - b
    case Vezes => a * b
    case Dividido => DivisaoPiso(a, b)
  }

  /** The value an assignment stores, the names read from `amb`. */
  function ValorAtribuido(x: Instr, amb: string -> int): int
    requires Atribui(x)
  {
    if x.Binaria? then Calcula(x.op, ValorOperando(x.esq, amb), ValorOperando(x.dir, amb))
    else ValorOperando(x.fonte, amb)
  }

  /**
   * Pass 5 turns an assignment into one with the same destination that
   * stores the same value in every state, and leaves other lines alone.
   */
  lemma AlgebricaPreservaValor(x: Instr, amb: string -> int)
    ensures Atribui(x) <==> Atribui(Algebrica(x))
    ensures Atribui(x) ==> Algebrica(x).destino == x.destino && ValorAtribuido(Algebrica(x), amb) == ValorAtribuido(x, amb)
    ensures !x.Binaria? ==> Algebrica(x) == x
  {
    if x.Binaria? && x.op == Dividido && x.dir == Num(1) {
      assert DivisaoPiso(ValorOperando(x.esq, amb), 1) == ValorOperando(x.esq, amb);
    }
  }

  // ------------------------------------------------- 6. constant conditions

  /** What pass 6 makes of one line when it does not throw. */
  function SimplificaLinha(x: Instr): seq<Instr> {
    if SempreVerdadeira(x) then [VaPara(x.alvo)]
    else if SempreFalsa(x) then []
    else [x]
  }

  function SimplificaTodas(r: seq<Instr>): seq<Instr> {
    if r == [] then [] else SimplificaLinha(r[0]) + SimplificaTodas(r[1..])
  }

  /** Pass 6 on a whole list, line by line: `None` at the first constant comparison. */
  function SimplificaOuFalha(s: seq<Instr>): Option<seq<Instr>> {
    if s == [] then Some([])
    else if ComparaConstantes(s[0]) then None
    else
      match SimplificaOuFalha(s[1..])
      case None => None
      case Some(t) => Some(SimplificaLinha(s[0]) + t)
  }

  function Apos(p: seq<Instr>, o: Option<seq<Instr>>): Option<seq<Instr>> {
    if o.Some? then Some(p + o.value) else None
  }

  lemma {:induction false} CondicoesDesde(r: seq<Instr>, i: nat)
    requires i <= |r|
    ensures Condicoes(r, i) == Apos(r[..i], SimplificaOuFalha(r[i..]))
    decreases |r| - i
  {
    if i == |r| {
      assert r[..i] == r && r[i..] == [] && r + [] == r;
    } else if SempreVerdadeira(r[i]) {
      var r' := r[i := VaPara(r[i].alvo)];
      CondicoesDesde(r', i + 1);
      assert r[i..][1..] == r'[i + 1..];
      assert r'[..i + 1] == r[..i] + SimplificaLinha(r[i]);
      assert !ComparaConstantes(r[i..][0]);
      if SimplificaOuFalha(r'[i + 1..]).Some? {
        var t := SimplificaOuFalha(r'[i + 1..]).value;
        assert (r[..i] + SimplificaLinha(r[i])) + t == r[..i] + (SimplificaLinha(r[i]) + t);
      }
    } else if SempreFalsa(r[i]) {
      var r' := Remove(r, i);
      CondicoesDesde(r', i);
      assert r[i..][1..] == r'[i..];
      assert r'[..i] == r[..i];
      assert !ComparaConstantes(r[i..][0]) && SimplificaLinha(r[i]) == [];
      if SimplificaOuFalha(r'[i..]).Some? {
        var t := SimplificaOuFalha(r'[i..]).value;
        assert SimplificaLinha(r[i]) + t == t;
      }
    } else if ComparaConstantes(r[i]) {
    } else {
      CondicoesDesde(r, i + 1);
      assert r[i..][1..] == r[i + 1..];
      assert r[..i + 1] == r[..i] + SimplificaLinha(r[i]);
      assert !ComparaConstantes(r[i..][0]);
      if SimplificaOuFalha(r[i + 1..]).Some? {
        var t := SimplificaOuFalha(r[i + 1..]).value;
        assert (r[..i] + SimplificaLinha(r[i])) + t == r[..i] + (SimplificaLinha(r[i]) + t);
      }
    }
  }

  lemma {:induction false} SimplificaOuFalhaCaracterizacao(s: seq<Instr>)
    ensures SimplificaOuFalha(s) ==
      if exists k :: 0 <= k < |s| && ComparaConstantes(s[k]) then None else Some(SimplificaTodas(s))
  {
    if s != [] {
      SimplificaOuFalhaCaracterizacao(s[1..]);
      if !ComparaConstantes(s[0]) {
        assert (exists k :: 0 <= k < |s| && ComparaConstantes(s[k])) <==>
               (exists k :: 0 <= k < |s[1..]| && ComparaConstantes(s[1..][k])) by {
          forall k | 0 <= k < |s| && ComparaConstantes(s[k])
            ensures 0 <= k - 1 < |s[1..]| && ComparaConstantes(s[1..][k - 1])
          {}
          forall k | 0 <= k < |s[1..]| && ComparaConstantes(s[1..][k])
            ensures ComparaConstantes(s[k + 1])
          {}
        }
      }
    }
  }

  /**
   * Pass 6 throws exactly when some line compares two unsigned constants
   * other than `v == v`/`v != v`; otherwise `if v == v goto L` became
   * `goto L`, `if v != v goto L` is gone, and every other line is kept.
   */
  lemma CondicoesCaracterizacao(r: seq<Instr>)
    ensures SimplificarCondicoes(r) ==
      if exists k :: 0 <= k < |r| && ComparaConstantes(r[k]) then None else Some(SimplificaTodas(r))
  {
    CondicoesDesde(r, 0);
    assert r[0..] == r && r[..0] == [];
    SimplificaOuFalhaCaracterizacao(r);
    if SimplificaOuFalha(r).Some? {
      assert [] + SimplificaOuFalha(r).value == SimplificaOuFalha(r).value;
    }
  }

  lemma {:induction false} SimplificaTodasEncurta(r: seq<Instr>)
    ensures |SimplificaTodas(r)| <= |r|
  {
    if r != [] {
      SimplificaTodasEncurta(r[1..]);
    }
  }

  // ------------------------------------------------------- 7. redundant code

  lemma RedirecionaRotulos(r: seq<Instr>, atual: string, mantido: string)
    ensures Rotulos(RedirecionaTodas(r, atual, mantido)) == Rotulos(r)
  {
    var s := RedirecionaTodas(r, atual, mantido);
    assert forall k :: 0 <= k < |r| ==> (s[k].Rotulo? <==> r[k].Rotulo?) && (r[k].Rotulo? ==> s[k] == r[k]);
  }

  lemma RedirecionaAlvos(r: seq<Instr>, atual: string, mantido: string)
    ensures Alvos(RedirecionaTodas(r, atual, mantido)) <= (Alvos(r) - {atual}) + {mantido}
    ensures atual !in Alvos(RedirecionaTodas(r, atual, mantido)) || atual == mantido
  {
    var s := RedirecionaTodas(r, atual, mantido);
    forall t | t in Alvos(s)
      ensures t in (Alvos(r) - {atual}) + {mantido}
    {
      var k :| 0 <= k < |s| && Salta(s[k]) && s[k].alvo == t;
      assert Salta(r[k]);
    }
  }

  lemma AlvosJunta(a: seq<Instr>, b: seq<Instr>)
    ensures Alvos(a + b) == Alvos(a) + Alvos(b)
    ensures Rotulos(a + b) == Rotulos(a) + Rotulos(b)
  {
    var s := a + b;
    forall t | t in Alvos(a) ensures t in Alvos(s) {
      var k :| 0 <= k < |a| && Salta(a[k]) && a[k].alvo == t;
      assert s[k] == a[k];
    }
    forall t | t in Rotulos(a) ensures t in Rotulos(s) {
      var k :| 0 <= k < |a| && a[k].Rotulo? && a[k].nome == t;
      assert s[k] == a[k];
    }
    forall t | t in Alvos(s) ensures t in Alvos(a) + Alvos(b) {
      var k :| 0 <= k < |s| && Salta(s[k]) && s[k].alvo == t;
      if k >= |a| {
        assert b[k - |a|] == s[k];
      }
    }
    forall t | t in Alvos(b) ensures t in Alvos(s) {
      var k :| 0 <= k < |b| && Salta(b[k]) && b[k].alvo == t;
      assert s[|a| + k] == b[k];
    }
    forall t | t in Rotulos(s) ensures t in Rotulos(a) + Rotulos(b) {
      var k :| 0 <= k < |s| && s[k].Rotulo? && s[k].nome == t;
      if k >= |a| {
        assert b[k - |a|] == s[k];
      }
    }
    forall t | t in Rotulos(b) ensures t in Rotulos(s) {
      var k :| 0 <= k < |b| && b[k].Rotulo? && b[k].nome == t;
      assert s[|a| + k] == b[k];
    }
  }

  /** The state of pass 7 at index `i`: what is output plus what is left is closed. */
  predicate FechadoEm(c: seq<Instr>, i: nat, acc: seq<Instr>, mantido: string)
    requires i <= |c|
  {
    Fechado(acc + c[i..]) && (i > 0 && c[i - 1].Rotulo? ==> mantido in Rotulos(acc))
  }

  lemma {:induction false} RedundanteFechaDesde(c: seq<Instr>, i: nat, acc: seq<Instr>, mantido: string)
    requires i <= |c|
    requires FechadoEm(c, i, acc, mantido)
    ensures Fechado(Redundante(c, i, acc, mantido))
    decreases |c| - i
  {
    if i == |c| {
      assert acc + c[i..] == acc;
    } else if AutoCopia(c[i]) {
      PulaFechado(c, i, acc, mantido);
      RedundanteFechaDesde(c, i + 1, acc, mantido);
    } else if c[i].Rotulo? && i > 0 && c[i - 1].Rotulo? {
      FundeFechado(c, i, acc, mantido);
      RedundanteFechaDesde(RedirecionaTodas(c, c[i].nome, mantido), i + 1, RedirecionaTodas(acc, c[i].nome, mantido), mantido);
    } else {
      var m := if c[i].Rotulo? then c[i].nome else mantido;
      MantemFechado(c, i, acc, mantido);
      RedundanteFechaDesde(c, i + 1, acc + [c[i]], m);
    }
  }

  /** The jump targets and labels of a single line. */
  lemma UmaLinha(x: Instr)
    ensures Alvos([x]) == if Salta(x) then {x.alvo} else {}
    ensures Rotulos([x]) == if x.Rotulo? then {x.nome} else {}
  {
    var s := [x];
    assert s[0] == x;
    if Salta(x) {
      assert x.alvo in Alvos(s);
    }
    if x.Rotulo? {
      assert x.nome in Rotulos(s);
    }
  }

  /** Splits what is left at `i` into the line at `i` and the lines after it. */
  lemma PartesEm(c: seq<Instr>, i: nat, acc: seq<Instr>)
    requires i < |c|
    ensures Alvos(acc + c[i..]) == Alvos(acc) + Alvos([c[i]]) + Alvos(c[i + 1..])
    ensures Rotulos(acc + c[i..]) == Rotulos(acc) + Rotulos([c[i]]) + Rotulos(c[i + 1..])
  {
    assert c[i..] == [c[i]] + c[i + 1..];
    AlvosJunta(acc, c[i..]);
    AlvosJunta([c[i]], c[i + 1..]);
  }

  /** Dropping a self-copy keeps the state closed. */
  lemma PulaFechado(c: seq<Instr>, i: nat, acc: seq<Instr>, mantido: string)
    requires i < |c| && FechadoEm(c, i, acc, mantido) && AutoCopia(c[i])
    ensures FechadoEm(c, i + 1, acc, mantido)
  {
    PartesEm(c, i, acc);
    AlvosJunta(acc, c[i + 1..]);
    UmaLinha(c[i]);
  }

  /** Merging a label into the one before it keeps the state closed. */
  lemma FundeFechado(c: seq<Instr>, i: nat, acc: seq<Instr>, mantido: string)
    requires i < |c| && FechadoEm(c, i, acc, mantido) && !AutoCopia(c[i])
    requires c[i].Rotulo? && i > 0 && c[i - 1].Rotulo?
    ensures FechadoEm(RedirecionaTodas(c, c[i].nome, mantido), i + 1, RedirecionaTodas(acc, c[i].nome, mantido), mantido)
  {
    PartesEm(c, i, acc);
    var l := c[i].nome;
    var c' := RedirecionaTodas(c, l, mantido);
    var acc' := RedirecionaTodas(acc, l, mantido);
    assert c'[i + 1..] == RedirecionaTodas(c[i + 1..], l, mantido);
    RedirecionaRotulos(acc, l, mantido);
    RedirecionaRotulos(c[i + 1..], l, mantido);
    RedirecionaAlvos(acc, l, mantido);
    RedirecionaAlvos(c[i + 1..], l, mantido);
    AlvosJunta(acc', c'[i + 1..]);
    UmaLinha(c[i]);
    assert c'[i] == c[i];
  }

  /** Keeping the line at `i` keeps the state closed, with the label kept when it is one. */
  lemma MantemFechado(c: seq<Instr>, i: nat, acc: seq<Instr>, mantido: string)
    requires i < |c| && FechadoEm(c, i, acc, mantido) && !AutoCopia(c[i])
    requires !(c[i].Rotulo? && i > 0 && c[i - 1].Rotulo?)
    ensures FechadoEm(c, i + 1, acc + [c[i]], if c[i].Rotulo? then c[i].nome else mantido)
  {
    var m := if c[i].Rotulo? then c[i].nome else mantido;
    assert (acc + [c[i]]) + c[i + 1..] == acc + c[i..] by {
      assert c[i..] == [c[i]] + c[i + 1..];
    }
    AlvosJunta(acc, [c[i]]);
    UmaLinha(c[i]);
  }

  /** When every jump of the input names one of its labels, so does every jump of the output of pass 7. */
  lemma RedundanteFecha(r: seq<Instr>)
    requires Fechado(r)
    ensures Fechado(EliminarRedundante(r))
  {
    assert [] + r[0..] == r;
    RedundanteFechaDesde(r, 0, [], "");
  }

  lemma {:induction false} RedundanteEncurtaDesde(c: seq<Instr>, i: nat, acc: seq<Instr>, mantido: string)
    requires i <= |c|
    ensures |Redundante(c, i, acc, mantido)| <= |acc| + |c| - i
    ensures (forall k :: 0 <= k < |acc| ==> !AutoCopia(acc[k])) ==>
      forall k :: 0 <= k < |Redundante(c, i, acc, mantido)| ==> !AutoCopia(Redundante(c, i, acc, mantido)[k])
    decreases |c| - i
  {
    if i < |c| {
      if AutoCopia(c[i]) {
        RedundanteEncurtaDesde(c, i + 1, acc, mantido);
      } else if c[i].Rotulo? && i > 0 && c[i - 1].Rotulo? {
        var acc' := RedirecionaTodas(acc, c[i].nome, mantido);
        assert forall k :: 0 <= k < |acc| ==> (AutoCopia(acc'[k]) <==> AutoCopia(acc[k]));
        RedundanteEncurtaDesde(RedirecionaTodas(c, c[i].nome, mantido), i + 1, acc', mantido);
      } else {
        RedundanteEncurtaDesde(c, i + 1, acc + [c[i]], if c[i].Rotulo? then c[i].nome else mantido);
      }
    }
  }

  /** Pass 7 never lengthens the list and leaves no `x := x`. */
  lemma RedundanteEncurta(r: seq<Instr>)
    ensures |EliminarRedundante(r)| <= |r|
    ensures forall k :: 0 <= k < |EliminarRedundante(r)| ==> !AutoCopia(EliminarRedundante(r)[k])
  {
    RedundanteEncurtaDesde(r, 0, [], "");
  }

  /**
   * As written, a jump to a dropped label that sits before it is not
   * redirected: `goto L2`, `L1:`, `L2:` loses the only `L2:`.  The corrected
   * pass jumps to `L1` instead.
   */
  lemma RedundanteComoEscritoPerdeRotulo()
    ensures Fechado([VaPara("L2"), Rotulo("L1"), Rotulo("L2")])
    ensures RedundanteComoEscrito([VaPara("L2"), Rotulo("L1"), Rotulo("L2")], 0, []) == [VaPara("L2"), Rotulo("L1")]
    ensures !Fechado([VaPara("L2"), Rotulo("L1")])
    ensures EliminarRedundante([VaPara("L2"), Rotulo("L1"), Rotulo("L2")]) == [VaPara("L1"), Rotulo("L1")]
  {
    var r := [VaPara("L2"), Rotulo("L1"), Rotulo("L2")];
    assert Alvos(r) == {"L2"} by {
      assert Salta(r[0]);
      forall t | t in Alvos(r) ensures t == "L2" {}
    }
    assert "L2" in Rotulos(r) by { assert r[2].Rotulo?; }
    assert !AutoCopia(r[0]) && !AutoCopia(r[1]) && !AutoCopia(r[2]);
    var s := [VaPara("L2"), Rotulo("L1")];
    assert Salta(s[0]) && "L2" in Alvos(s);
    assert "L2" !in Rotulos(s);
    assert RedirecionaComoEscrito(r[0], "L2", "L1") == VaPara("L1") by {
      assert "L2"[|"L2"|..] == [];
      assert "L1" + [] == "L1";
    }
    var c' := seq(|r|, j requires 0 <= j < |r| => RedirecionaComoEscrito(r[j], "L2", "L1"));
    assert c' == [VaPara("L1"), Rotulo("L1"), Rotulo("L2")];
    assert RedundanteComoEscrito(r, 0, []) == RedundanteComoEscrito(r, 1, [VaPara("L2")]);
    assert RedundanteComoEscrito(r, 1, [VaPara("L2")]) == RedundanteComoEscrito(r, 2, s);
    assert RedundanteComoEscrito(r, 2, s) == RedundanteComoEscrito(c', 3, s);
    assert Redundante(r, 0, [], "") == Redundante(r, 1, [VaPara("L2")], "");
    assert Redundante(r, 1, [VaPara("L2")], "") == Redundante(r, 2, s, "L1");
    var r' := RedirecionaTodas(r, "L2", "L1");
    var s' := RedirecionaTodas(s, "L2", "L1");
    assert s' == [VaPara("L1"), Rotulo("L1")];
    assert Redundante(r, 2, s, "L1") == Redundante(r', 3, s', "L1");
  }

  // ------------------------------------------------------------- the driver

  /** A round never lengthens the list. */
  lemma RodadaEncurta(c: seq<Instr>)
    requires Rodada(c).Some?
    ensures |Rodada(c).value| <= |c|
  {
    var c1 := EliminarSubexpressoes(c);
    SubexpressoesEncurta(c, 0, map[]);
    MortoIdentidade(c1);
    var c3 := PropagarCopias(Morto(c1));
    var c4 := EliminarDesvios(c3).value;
    DesviosSoGotos(c3);
    var c5 := AplicarAlgebricas(c4);
    CondicoesCaracterizacao(c5);
    SimplificaTodasEncurta(c5);
    RedundanteEncurta(SimplificarCondicoes(c5).value);
  }

  lemma {:induction false} CicloLimites(c: seq<Instr>, iteracoes: nat, realizadas: nat, continuar: bool)
    requires iteracoes <= MaxIteracoes
    requires Ciclo(c, iteracoes, realizadas, continuar).Some?
    ensures Ciclo(c, iteracoes, realizadas, continuar).value.1 <= realizadas + (MaxIteracoes - iteracoes)
    ensures |Ciclo(c, iteracoes, realizadas, continuar).value.0| + Ciclo(c, iteracoes, realizadas, continuar).value.1
            <= |c| + realizadas
    decreases MaxIteracoes - iteracoes
  {
    if continuar && iteracoes < MaxIteracoes {
      var c' := Rodada(c).value;
      RodadaEncurta(c);
      var mudou := |c'| != |c|;
      CicloLimites(c', iteracoes + 1, if mudou then realizadas + 1 else realizadas, mudou);
    }
  }

  /**
   * `otimizarCodigo`: an empty list comes back as it is; otherwise at most
   * ten rounds count, each counted round made the list shorter, and
   * `otimizacoesOriginais` holds the input line exactly where the output is
   * shorter or differs.
   */
  lemma OtimizarPropriedades(codigo: seq<Instr>)
    ensures codigo == [] ==> Otimizar(codigo) == Entrada([])
    ensures Otimizar(codigo).Otimizado? ==>
      var Otimizado(c, n, o) := Otimizar(codigo);
      n <= MaxIteracoes && |c| + n <= |codigo| &&
      forall i: nat :: (i in o <==> i < |codigo| && (i >= |c| || codigo[i] != c[i])) && (i in o ==> o[i] == codigo[i])
  {
    if codigo != [] && Ciclo(codigo, 0, 0, true).Some? {
      CicloLimites(codigo, 0, 0, true);
    }
  }
}
