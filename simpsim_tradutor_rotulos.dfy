/**
 * The labels the translation invents for the loops of `*` and `/`
 * (`Loop_Mul_c`, `Fim_Mul_c`, `Loop_Div_c`, `Fim_Div_c`, `Erro_Div_Zero_c`,
 * `Fim_Div_c_Skip`) carry the counter `c`, which moves on once per such line.
 */
module TradutorSimpSimRotulos {
  import opened Wrappers
  import opened Tac
  import opened TradutorSimpSim

  /** A line that uses up a label number: a recognised `*` or `/`. */
  predicate Conta(x: Instr) {
    x.Binaria? && Reconhecida(x) && (x.op == Vezes || x.op == Dividido)
  }

  /**
   * The label number moves on exactly for `*` and `/`; `+` and `-` are
   * translated by `Adicao` and by `Subtracao` with the corrected negation.
   */
  lemma AtribuicaoContador(nomes: seq<string>, x: Instr, c: nat)
    requires Atribui(x)
    ensures Atribuicao(nomes, x, c).1 == if Conta(x) then c + 1 else c
    ensures x.Binaria? && Reconhecida(x) && x.op == Mais ==>
      Atribuicao(nomes, x, c).0 == Adicao(nomes, x, Registrador(nomes, x.destino))
    ensures x.Binaria? && Reconhecida(x) && x.op == Menos ==>
      Atribuicao(nomes, x, c).0 == Subtracao(nomes, x, Registrador(nomes, x.destino), true)
  {
  }

  // ----------------------------------------------------------------- labels

  /** The label a line defines or jumps to. */
  function AlvoDe(l: LinhaSim): Option<Alvo> {
    match l
    case Def(a) => Some(a)
    case Ins(i) =>
      if i.Jmp? || i.JmpEQ? || i.JmpLE? then Some(i.l) else None
    case _ => None
  }

  /** A numbered label the line mentions. */
  predicate MencionaNumerado(l: LinhaSim) {
    AlvoDe(l).Some? && Gerado(AlvoDe(l).value)
  }

  /** Every numbered label the lines mention carries `c`. */
  predicate Numeradas(ls: seq<LinhaSim>, c: nat) {
    forall l :: l in ls && MencionaNumerado(l) ==> AlvoDe(l).value.k == c
  }

  /** The lines mention no numbered label. */
  predicate SemNumeradas(ls: seq<LinhaSim>) {
    forall l :: l in ls ==> !MencionaNumerado(l)
  }

  lemma MultiplicacaoNumerada(nomes: seq<string>, x: Instr, d: Arg, c: nat)
    requires x.Binaria?
    ensures Numeradas(Multiplicacao(nomes, x, d, c), c)
  {
  }

  /** Labels of a concatenation are those of its parts. */
  lemma NumeradasJunta(a: seq<LinhaSim>, b: seq<LinhaSim>, c: nat)
    ensures Numeradas(a + b, c) <==> Numeradas(a, c) && Numeradas(b, c)
    ensures SemNumeradas(a + b) <==> SemNumeradas(a) && SemNumeradas(b)
  {
  }

  lemma CargaDivisaoSemNumeradas(nomes: seq<string>, a: Operando, b: Operando)
    ensures SemNumeradas(CargaDivisao(nomes, a, b))
  {
  }

  lemma InicioDivisaoSemNumeradas(d: Arg)
    ensures SemNumeradas(InicioDivisao(d))
  {
  }

  lemma TesteDivisaoNumerada(c: nat)
    ensures Numeradas(TesteDivisao(c), c)
  {
  }

  lemma PassoDivisaoNumerada(d: Arg, c: nat)
    ensures Numeradas(PassoDivisao(d, c), c)
  {
  }

  lemma ErroDivisaoNumerada(d: Arg, c: nat)
    ensures Numeradas(ErroDivisao(d, c), c)
  {
  }

  /** The loop proper: its head and its body share the number `c`. */
  lemma LacoNumerado(d: Arg, c: nat)
    ensures Numeradas(TesteDivisao(c) + PassoDivisao(d, c), c)
  {
    TesteDivisaoNumerada(c);
    PassoDivisaoNumerada(d, c);
    NumeradasJunta(TesteDivisao(c), PassoDivisao(d, c), c);
  }

  lemma NumeradasQuatro(p: seq<LinhaSim>, q: seq<LinhaSim>, r: seq<LinhaSim>, s: seq<LinhaSim>, c: nat)
    requires SemNumeradas(p) && SemNumeradas(q) && Numeradas(r, c) && Numeradas(s, c)
    ensures Numeradas(p + q + r + s, c)
  {
    NumeradasJunta(p, q, c);
    NumeradasJunta(p + q, r, c);
    NumeradasJunta(p + q + r, s, c);
  }

  lemma LacoDivisaoNumerada(nomes: seq<string>, x: Instr, d: Arg, c: nat)
    requires x.Binaria?
    ensures Numeradas(LacoDivisao(nomes, x, d, c), c)
  {
    var carga, inicio := CargaDivisao(nomes, x.esq, x.dir), InicioDivisao(d);
    var laco := TesteDivisao(c) + PassoDivisao(d, c);
    CargaDivisaoSemNumeradas(nomes, x.esq, x.dir);
    InicioDivisaoSemNumeradas(d);
    LacoNumerado(d, c);
    if x.dir.Num? {
      NumeradasQuatro(carga, inicio, laco, [], c);
      assert LacoDivisao(nomes, x, d, c) == carga + inicio + laco + [];
    } else {
      ErroDivisaoNumerada(d, c);
      NumeradasQuatro(carga, inicio, laco, ErroDivisao(d, c), c);
    }
  }

  lemma DivisaoNumerada(nomes: seq<string>, x: Instr, d: Arg, c: nat)
    requires x.Binaria?
    ensures Numeradas(Divisao(nomes, x, d, c), c)
  {
    var cabeca := [Nota(" Divisão: " + x.destino + " := " + Texto(x.esq) + " / " + Texto(x.dir))];
    if x.dir == Num(0) {
      NumeradasJunta(cabeca, DivisaoPorZero(d), c);
    } else {
      TesteDivisorNumerado(nomes, x.dir, c);
      CorpoDivisaoNumerado(nomes, x, d, c);
      NumeradasJunta(TesteDivisor(nomes, x.dir, c), CorpoDivisao(nomes, x, d, c), c);
      NumeradasJunta(cabeca, TesteDivisor(nomes, x.dir, c) + CorpoDivisao(nomes, x, d, c), c);
    }
  }

  lemma TesteDivisorNumerado(nomes: seq<string>, b: Operando, c: nat)
    ensures Numeradas(TesteDivisor(nomes, b, c), c)
  {
  }

  lemma CorpoDivisaoNumerado(nomes: seq<string>, x: Instr, d: Arg, c: nat)
    requires x.Binaria? && x.dir != Num(0)
    ensures Numeradas(CorpoDivisao(nomes, x, d, c), c)
  {
    if !(x.esq.Num? && x.dir.Num?) {
      LacoDivisaoNumerada(nomes, x, d, c);
    }
  }

  lemma SaltoSemNumeradas(nomes: seq<string>, x: Instr, sufixo: string)
    requires x.SeVaPara?
    ensures SemNumeradas(Salto(nomes, x, sufixo))
  {
    if Reconhecida(x) {
      var cabeca := [Nota(" if " + TextoCondicao(x) + " goto " + x.alvo)];
      var corpo := Salto(nomes, x, sufixo)[1..];
      assert Salto(nomes, x, sufixo) == cabeca + corpo;
      match x.rel {
        case MaiorIgual => SaltoMaiorIgualSemNumeradas(nomes, x.esq, x.dir, x.alvo, sufixo);
        case MenorIgual => SaltoMenorIgualSemNumeradas(nomes, x.esq, x.dir, x.alvo);
        case Igual => SaltoIgualSemNumeradas(nomes, x.esq, x.dir, x.alvo);
        case _ =>
      }
      NumeradasJunta(cabeca, corpo, 0);
    }
  }

  lemma SaltoMaiorIgualSemNumeradas(nomes: seq<string>, a: Operando, b: Operando, l: string, sufixo: string)
    ensures SemNumeradas(SaltoMaiorIgual(nomes, a, b, l, Pular(l, sufixo)))
  {
  }

  lemma SaltoMenorIgualSemNumeradas(nomes: seq<string>, a: Operando, b: Operando, l: string)
    ensures SemNumeradas(SaltoMenorIgual(nomes, a, b, l))
  {
  }

  lemma SaltoIgualSemNumeradas(nomes: seq<string>, a: Operando, b: Operando, l: string)
    ensures SemNumeradas(SaltoIgual(nomes, a, b, l))
  {
  }

  /** `*` and `/` use their own number; `:=`, `+` and `-` use none. */
  lemma AtribuicaoNumerada(nomes: seq<string>, x: Instr, c: nat)
    requires Atribui(x)
    ensures var (ls, c') := Atribuicao(nomes, x, c);
      if Conta(x) then c' == c + 1 && Numeradas(ls, c) else c' == c && SemNumeradas(ls)
  {
    var d := Registrador(nomes, x.destino);
    AtribuicaoContador(nomes, x, c);
    if Conta(x) {
      if x.op == Vezes {
        MultiplicacaoNumerada(nomes, x, d, c);
      } else {
        DivisaoNumerada(nomes, x, d, c);
      }
    }
  }

  /** A line uses the number `c` exactly when it is a `*` or a `/`, and then moves it on. */
  lemma LinhaNumerada(nomes: seq<string>, l: Linha, i: nat, c: nat, aleatorio: nat -> string)
    ensures var (ls, c') := TraduzLinha(nomes, l, i, c, aleatorio);
      if l.Codigo? && Conta(l.instr) then c' == c + 1 && Numeradas(ls, c) else c' == c && SemNumeradas(ls)
  {
    if l.Codigo? {
      var x := l.instr;
      if x.Rotulo? {
      } else if Atribui(x) {
        AtribuicaoNumerada(nomes, x, c);
      } else if x.SeVaPara? {
        SaltoSemNumeradas(nomes, x, aleatorio(i));
      }
    }
  }

  /** Every numbered label in the lines is at least `lo`. */
  predicate Acima(ls: seq<LinhaSim>, lo: nat) {
    forall l :: l in ls && MencionaNumerado(l) ==> AlvoDe(l).value.k >= lo
  }

  /** The lines translated from `i` on with number `c` use numbers from `c` up. */
  lemma {:induction false} CorpoAcima(nomes: seq<string>, codigo: seq<Linha>, i: nat, c: nat, aleatorio: nat -> string)
    requires i <= |codigo|
    ensures Acima(Corpo(nomes, codigo, i, c, aleatorio), c)
    decreases |codigo| - i
  {
    if i < |codigo| {
      var (ls, c') := TraduzLinha(nomes, codigo[i], i, c, aleatorio);
      LinhaNumerada(nomes, codigo[i], i, c, aleatorio);
      CorpoAcima(nomes, codigo, i + 1, c', aleatorio);
      assert Corpo(nomes, codigo, i, c, aleatorio) == ls + Corpo(nomes, codigo, i + 1, c', aleatorio);
    }
  }

  /**
   * The `*` and `/` labels (`Loop_Mul_c`, `Fim_Div_c`, ...) of one line are
   * never mentioned by a later line: each line's loop gets its own number.
   */
  lemma RotulosNaoRepetem(nomes: seq<string>, codigo: seq<Linha>, i: nat, c: nat, aleatorio: nat -> string)
    requires i < |codigo|
    ensures var (ls, c') := TraduzLinha(nomes, codigo[i], i, c, aleatorio);
      var resto := Corpo(nomes, codigo, i + 1, c', aleatorio);
      Corpo(nomes, codigo, i, c, aleatorio) == ls + resto &&
      forall l, m :: l in ls && m in resto && MencionaNumerado(l) && MencionaNumerado(m) ==>
        AlvoDe(l).value != AlvoDe(m).value
  {
    var (ls, c') := TraduzLinha(nomes, codigo[i], i, c, aleatorio);
    LinhaNumerada(nomes, codigo[i], i, c, aleatorio);
    CorpoAcima(nomes, codigo, i + 1, c', aleatorio);
  }
}
