/**
 * What the straight-line SimpSIM code emitted for an assignment computes:
 * registers hold bytes, `load` truncates its constant to a byte, `addi` adds
 * modulo 256 and `xor` is bitwise.
 */
module TradutorSimpSimSemantica {
  import opened Wrappers
  import opened Tac
  import opened TradutorSimpSim
  import opened Insercao
  import Byte

  // ---------------------------------------------------- straight-line code

  /** Register contents; a register never written reads 0. */
  type Estado = map<Arg, Byte.Octeto>

  /** The byte an argument stands for: a constant modulo 256, a register's contents, 0 for a missing register. */
  function Le(e: Estado, a: Arg): Byte.Octeto {
    match a
    case Valor(v) => Byte.DeInteiro(v)
    case Mapeado(_) => if a in e then e[a] else 0
    case Fixo(_) => if a in e then e[a] else 0
    case _ => 0
  }

  /** SimpSIM's `load`, `move`, `addi` (sum modulo 256) and `xor`; other lines change no register. */
  function Passo(e: Estado, l: LinhaSim): Estado {
    if !l.Ins? then e
    else
      match l.instr
      case Load(r, v) => e[r := Le(e, v)]
      case Move(r, s) => e[r := Le(e, s)]
      case Addi(r, a, b) => e[r := Byte.Soma(Le(e, a), Le(e, b))]
      case Xor(r, a, b) => e[r := Byte.XorOcteto(Le(e, a), Le(e, b))]
      case _ => e
  }

  /** The state after the first `n` lines of straight-line code. */
  function Executa(e: Estado, ls: seq<LinhaSim>, n: nat): Estado
    requires n <= |ls|
  {
    if n == 0 then e else Passo(Executa(e, ls, n - 1), ls[n - 1])
  }

  /** The byte an operand of a three-address line stands for. */
  function ValorDe(e: Estado, nomes: seq<string>, o: Operando): int {
    if o.Num? then o.valor else Le(e, Registrador(nomes, o.nome))
  }

  /** Every name of an assignment has a register. */
  predicate Mapeada(nomes: seq<string>, x: Instr)
    requires Atribui(x)
  {
    x.destino in nomes &&
    (x.Copia? ==> (x.fonte.Nome? ==> x.fonte.nome in nomes)) &&
    (x.Binaria? ==> (x.esq.Nome? ==> x.esq.nome in nomes) && (x.dir.Nome? ==> x.dir.nome in nomes))
  }

  /** `d := v` is one `load` or one `move` that leaves `v` in the register of `d`. */
  lemma CopiaCalcula(nomes: seq<string>, x: Instr, c: nat, e: Estado)
    requires x.Copia? && Mapeada(nomes, x)
    ensures Atribuicao(nomes, x, c).1 == c
    ensures var ls := Atribuicao(nomes, x, c).0;
      |ls| == 1 && ls[0].Ins? && (ls[0].instr.Load? || ls[0].instr.Move?) &&
      Le(Executa(e, ls, 1), Registrador(nomes, x.destino)) == Byte.DeInteiro(ValorDe(e, nomes, x.fonte))
  {
    var ls := Atribuicao(nomes, x, c).0;
    assert Executa(e, ls, 1) == Passo(e, ls[0]);
  }

  /** A byte read back modulo 256 is itself. */
  lemma ByteFixo(v: int)
    requires 0 <= v < 256
    ensures Byte.DeInteiro(v) == v
  {
  }

  /** `load R0, k` then `addi d, p, q` with R0 one of `p`, `q` and the other a name's register. */
  lemma CarregaESoma(e: Estado, k: int, d: Arg, p: Arg, q: Arg, ls: seq<LinhaSim>)
    requires ls == [Ins(Load(R0, Valor(k))), Ins(Addi(d, p, q))]
    requires (p == R0 && q.Mapeado?) || (q == R0 && p.Mapeado?)
    requires d.Mapeado?
    ensures Le(Executa(e, ls, 2), d) == Byte.DeInteiro(k + Le(e, if p == R0 then q else p))
  {
    var e1 := Passo(e, ls[0]);
    assert Executa(e, ls, 1) == e1;
    var v := Le(e, if p == R0 then q else p);
    assert Le(e1, R0) == Byte.DeInteiro(k);
    assert Le(e1, if p == R0 then q else p) == v;
    var s := Byte.Soma(Le(e1, p), Le(e1, q));
    assert Executa(e, ls, 2) == e1[d := s];
    Byte.SomaDeInteiros(k, v);
    ByteFixo(v);
    ByteFixo(s);
  }

  /** `d := a + b` leaves `a + b` modulo 256 in the register of `d`. */
  lemma AdicaoCalcula(nomes: seq<string>, x: Instr, e: Estado)
    requires x.Binaria? && Reconhecida(x) && Mapeada(nomes, x)
    ensures var d := Registrador(nomes, x.destino);
      var ls := Adicao(nomes, x, d);
      Le(Executa(e, ls, |ls|), d) == Byte.DeInteiro(ValorDe(e, nomes, x.esq) + ValorDe(e, nomes, x.dir))
  {
    var d := Registrador(nomes, x.destino);
    var ls := Adicao(nomes, x, d);
    var a, b := x.esq, x.dir;
    if a.Num? && b.Num? {
      AdicaoDeConstantes(nomes, x, e);
    } else if a.Num? {
      CarregaESoma(e, a.valor, d, R0, RegistradorOuValor(nomes, b), ls);
    } else if b.Num? {
      CarregaESoma(e, b.valor, d, RegistradorOuValor(nomes, a), R0, ls);
    } else {
      AdicaoDeVariaveis(nomes, x, e);
    }
  }

  /** Both operands are constants: one `load` of their sum. */
  lemma AdicaoDeConstantes(nomes: seq<string>, x: Instr, e: Estado)
    requires x.Binaria? && Reconhecida(x) && Mapeada(nomes, x) && x.esq.Num? && x.dir.Num?
    ensures var d := Registrador(nomes, x.destino);
      var ls := Adicao(nomes, x, d);
      Le(Executa(e, ls, |ls|), d) == Byte.DeInteiro(ValorDe(e, nomes, x.esq) + ValorDe(e, nomes, x.dir))
  {
    var d := Registrador(nomes, x.destino);
    var ls := Adicao(nomes, x, d);
    assert ls == [Ins(Load(d, Valor(x.esq.valor + x.dir.valor)))];
    assert Executa(e, ls, 1) == Passo(e, ls[0]);
  }

  /** Both operands are names: one `addi` of their two registers. */
  lemma AdicaoDeVariaveis(nomes: seq<string>, x: Instr, e: Estado)
    requires x.Binaria? && Reconhecida(x) && Mapeada(nomes, x) && !x.esq.Num? && !x.dir.Num?
    ensures var d := Registrador(nomes, x.destino);
      var ls := Adicao(nomes, x, d);
      Le(Executa(e, ls, |ls|), d) == Byte.DeInteiro(ValorDe(e, nomes, x.esq) + ValorDe(e, nomes, x.dir))
  {
    var d := Registrador(nomes, x.destino);
    var ls := Adicao(nomes, x, d);
    assert ls == [Ins(Addi(d, RegistradorOuValor(nomes, x.esq), RegistradorOuValor(nomes, x.dir)))];
    assert Executa(e, ls, 1) == Passo(e, ls[0]);
    var va, vb := ValorDe(e, nomes, x.esq), ValorDe(e, nomes, x.dir);
    Byte.SomaDeInteiros(va, vb);
    ByteFixo(va);
    ByteFixo(vb);
  }

  // ------------------------------------------------------------ subtraction

  lemma {:induction false} ExecutaPrefixo(e: Estado, s: seq<LinhaSim>, t: seq<LinhaSim>, n: nat)
    requires n <= |s| && n <= |t| && s[..n] == t[..n]
    ensures Executa(e, s, n) == Executa(e, t, n)
  {
    if n > 0 {
      assert s[..n - 1] == s[..n][..n - 1] && t[..n - 1] == t[..n][..n - 1];
      assert s[n - 1] == s[..n][n - 1] && t[n - 1] == t[..n][n - 1];
      ExecutaPrefixo(e, s, t, n - 1);
    }
  }

  /** Running `a + b` is running `a`, then the first `n` lines of `b`. */
  lemma {:induction false} ExecutaJunta(e: Estado, a: seq<LinhaSim>, b: seq<LinhaSim>, n: nat)
    requires n <= |b|
    ensures Executa(e, a + b, |a| + n) == Executa(Executa(e, a, |a|), b, n)
  {
    if n == 0 {
      assert (a + b)[..|a|] == a[..|a|];
      ExecutaPrefixo(e, a + b, a, |a|);
    } else {
      ExecutaJunta(e, a, b, n - 1);
      assert (a + b)[|a| + n - 1] == b[n - 1];
    }
  }

  /** The negation as written leaves `b - 1` in RF and no name's register changed. */
  lemma NegacaoComoEscritaCalcula(e: Estado, r: Arg)
    requires r.Mapeado?
    ensures var f := Executa(e, NegacaoComoEscrita(r), 4);
      Le(f, RF) == Byte.DeInteiro(Le(e, r) - 1) && forall a: Arg :: a.Mapeado? ==> Le(f, a) == Le(e, a)
  {
    var ls := NegacaoComoEscrita(r);
    var b := Le(e, r);
    assert Le(Executa(e, ls, 1), R0) == 255;
    assert Le(Executa(e, ls, 2), RF) == 0;
    assert Le(Executa(e, ls, 3), RF) == 255;
    assert Le(Executa(e, ls, 3), r) == b;
    var n := Byte.Soma(255, b);
    ByteFixo(n);
    assert Le(Executa(e, ls, 4), RF) == n;
  }

  /** `xor RF, r, R0` with 255 in R0 leaves the one's complement of `r` in RF. */
  lemma XorMascara(e: Estado, r: Arg)
    requires r.Mapeado? && Le(e, R0) == 255
    ensures Le(Passo(e, Ins(Xor(RF, r, R0))), RF) == 255 - Le(e, r)
    ensures forall a: Arg :: a.Mapeado? ==> Le(Passo(e, Ins(Xor(RF, r, R0))), a) == Le(e, a)
  {
    var b := Le(e, r);
    Byte.Mascara(b);
    assert Byte.XorOcteto(b, 255) == 255 - b;
  }

  lemma ComplementoMaisUm(b: Byte.Octeto)
    ensures Byte.Soma(255 - b, 1) == Byte.DeInteiro(-(b as int))
  {
  }

  /** The negation by one's complement leaves `-b` in RF and no name's register changed. */
  lemma NegacaoCalcula(e: Estado, r: Arg)
    requires r.Mapeado?
    ensures var f := Executa(e, Negacao(r), 4);
      Le(f, RF) == Byte.DeInteiro(-(Le(e, r) as int)) && forall a: Arg :: a.Mapeado? ==> Le(f, a) == Le(e, a)
  {
    var ls := Negacao(r);
    var b := Le(e, r);
    var e1 := Executa(e, ls, 1);
    assert Executa(e, ls, 0) == e;
    assert e1 == Passo(e, ls[0]);
    assert Le(e1, R0) == 255;
    assert Le(e1, r) == b;
    XorMascara(e1, r);
    var e2 := Executa(e, ls, 2);
    assert e2 == Passo(e1, Ins(Xor(RF, r, R0)));
    assert Le(e2, RF) == 255 - b;
    var e3 := Passo(e2, ls[2]);
    assert Executa(e, ls, 3) == e3;
    assert Le(e3, R0) == 1 && Le(e3, RF) == 255 - b;
    var e4 := Passo(e3, ls[3]);
    assert Executa(e, ls, 4) == e4;
    ComplementoMaisUm(b);
    assert Le(e4, RF) == Byte.Soma(255 - b, 1);
  }

  /** The lines after the negation: `a` plus RF into `d`. */
  function Cauda(nomes: seq<string>, a: Operando, d: Arg): seq<LinhaSim> {
    if a.Num? then [Ins(Load(R0, Valor(a.valor))), Ins(Addi(d, R0, RF))]
    else [Ins(Addi(d, RegistradorOuValor(nomes, a), RF))]
  }

  lemma CaudaCalcula(f: Estado, nomes: seq<string>, a: Operando, d: Arg)
    requires d.Mapeado? && (a.Nome? ==> a.nome in nomes)
    ensures var ls := Cauda(nomes, a, d);
      Le(Executa(f, ls, |ls|), d) == Byte.Soma(Byte.DeInteiro(ValorDe(f, nomes, a)), Le(f, RF))
  {
    var ls := Cauda(nomes, a, d);
    assert Executa(f, ls, 0) == f;
    if a.Nome? {
      ByteFixo(ValorDe(f, nomes, a));
    }
  }

  /** Running the lines `[c] + (n + t)` for a comment `c`: `n`, then `t`. */
  lemma ExecutaTres(e: Estado, c: LinhaSim, n: seq<LinhaSim>, t: seq<LinhaSim>)
    requires c.Nota?
    ensures Executa(e, [c] + (n + t), 1 + |n| + |t|) == Executa(Executa(e, n, |n|), t, |t|)
  {
    assert [c] + (n + t) == ([c] + n) + t;
    ExecutaJunta(e, [c] + n, t, |t|);
    ExecutaJunta(e, [c], n, |n|);
    assert Executa(e, [c], 1) == e;
  }

  /** The case of two constants: both loaded, the second negated. */
  lemma SubtracaoDeConstantes(nomes: seq<string>, x: Instr, e: Estado)
    requires x.Binaria? && Reconhecida(x) && Mapeada(nomes, x) && x.dir.Num? && x.esq.Num?
    ensures var d := Registrador(nomes, x.destino);
      var ls := Subtracao(nomes, x, d, true);
      Le(Executa(e, ls, |ls|), d) == Byte.DeInteiro(x.esq.valor - x.dir.valor)
  {
    var d := Registrador(nomes, x.destino);
    var ls := Subtracao(nomes, x, d, true);
    var va, vb := x.esq.valor, x.dir.valor;
    assert Executa(e, ls, 0) == e;
    var e1 := Passo(e, Ins(Load(R0, Valor(-vb))));
    assert Executa(e, ls, 2) == e1;
    var e2 := Passo(e1, Ins(Load(RF, Valor(va))));
    assert Executa(e, ls, 3) == e2;
    assert Le(e2, RF) == Byte.DeInteiro(va) && Le(e2, R0) == Byte.DeInteiro(-vb);
    Byte.SomaDeInteiros(va, -vb);
  }

  /** The case of a name minus a constant, loaded negated. */
  lemma SubtracaoDeConstante(nomes: seq<string>, x: Instr, e: Estado)
    requires x.Binaria? && Reconhecida(x) && Mapeada(nomes, x) && x.dir.Num? && x.esq.Nome?
    ensures var d := Registrador(nomes, x.destino);
      var ls := Subtracao(nomes, x, d, true);
      Le(Executa(e, ls, |ls|), d) == Byte.DeInteiro(ValorDe(e, nomes, x.esq) - x.dir.valor)
  {
    var d := Registrador(nomes, x.destino);
    var ls := Subtracao(nomes, x, d, true);
    var va, vb := ValorDe(e, nomes, x.esq), x.dir.valor;
    assert Executa(e, ls, 0) == e;
    var e1 := Passo(e, Ins(Load(R0, Valor(-vb))));
    assert Executa(e, ls, 2) == e1;
    assert Le(e1, R0) == Byte.DeInteiro(-vb);
    assert Le(e1, RegistradorOuValor(nomes, x.esq)) == va;
    ByteFixo(va);
    Byte.SomaDeInteiros(va, -vb);
  }

  /** With a name as subtrahend: a comment, the negation into RF, then the sum into `d`. */
  lemma SubtracaoForma(nomes: seq<string>, x: Instr, d: Arg, corrigida: bool)
    requires x.Binaria? && x.dir.Nome?
    ensures var r2 := RegistradorOuValor(nomes, x.dir);
      var ls := Subtracao(nomes, x, d, corrigida);
      ls[0].Nota? && ls == [ls[0]] + ((if corrigida then Negacao(r2) else NegacaoComoEscrita(r2)) + Cauda(nomes, x.esq, d))
  {
  }

  /** The case of a variable subtrahend, negated by one's complement plus one. */
  lemma SubtracaoDeVariavel(nomes: seq<string>, x: Instr, e: Estado)
    requires x.Binaria? && Reconhecida(x) && Mapeada(nomes, x) && x.dir.Nome?
    ensures var d := Registrador(nomes, x.destino);
      var ls := Subtracao(nomes, x, d, true);
      Le(Executa(e, ls, |ls|), d) == Byte.DeInteiro(ValorDe(e, nomes, x.esq) - ValorDe(e, nomes, x.dir))
  {
    var d := Registrador(nomes, x.destino);
    var ls := Subtracao(nomes, x, d, true);
    var a, b := x.esq, x.dir;
    var va, vb := ValorDe(e, nomes, a), ValorDe(e, nomes, b);
    var r2 := RegistradorOuValor(nomes, b);
    var n, t := Negacao(r2), Cauda(nomes, a, d);
    SubtracaoForma(nomes, x, d, true);
    ExecutaTres(e, ls[0], n, t);
    NegacaoCalcula(e, r2);
    var f := Executa(e, n, 4);
    var g := Executa(f, t, |t|);
    assert Executa(e, ls, |ls|) == g;
    assert Le(f, RF) == Byte.DeInteiro(-(vb as int));
    CaudaCalcula(f, nomes, a, d);
    assert ValorDe(f, nomes, a) == va;
    assert Le(g, d) == Byte.Soma(Byte.DeInteiro(va), Byte.DeInteiro(-vb));
    Byte.SomaDeInteiros(va, -vb);
  }

  /**
   * `d := a - b` leaves `a - b` modulo 256 in the register of `d`: a
   * constant `b` is loaded negated, a variable one negated by one's
   * complement plus one.
   */
  lemma SubtracaoCalcula(nomes: seq<string>, x: Instr, e: Estado)
    requires x.Binaria? && Reconhecida(x) && Mapeada(nomes, x)
    ensures var d := Registrador(nomes, x.destino);
      var ls := Subtracao(nomes, x, d, true);
      Le(Executa(e, ls, |ls|), d) == Byte.DeInteiro(ValorDe(e, nomes, x.esq) - ValorDe(e, nomes, x.dir))
  {
    if x.dir.Num? && x.esq.Num? {
      SubtracaoDeConstantes(nomes, x, e);
    } else if x.dir.Num? {
      SubtracaoDeConstante(nomes, x, e);
    } else {
      SubtracaoDeVariavel(nomes, x, e);
    }
  }

  /** `d := a - b` with the negation the source writes leaves `a + b - 1` when `b` is a name. */
  lemma SubtracaoComoEscritaCalcula(nomes: seq<string>, x: Instr, e: Estado)
    requires x.Binaria? && Reconhecida(x) && Mapeada(nomes, x) && x.dir.Nome?
    ensures var d := Registrador(nomes, x.destino);
      var ls := Subtracao(nomes, x, d, false);
      Le(Executa(e, ls, |ls|), d) == Byte.DeInteiro(ValorDe(e, nomes, x.esq) + ValorDe(e, nomes, x.dir) - 1)
  {
    var d := Registrador(nomes, x.destino);
    var ls := Subtracao(nomes, x, d, false);
    var a, b := x.esq, x.dir;
    var va, vb := ValorDe(e, nomes, a), ValorDe(e, nomes, b);
    var r2 := RegistradorOuValor(nomes, b);
    var n, t := NegacaoComoEscrita(r2), Cauda(nomes, a, d);
    SubtracaoForma(nomes, x, d, false);
    ExecutaTres(e, ls[0], n, t);
    NegacaoComoEscritaCalcula(e, r2);
    var f := Executa(e, n, 4);
    var g := Executa(f, t, |t|);
    assert Executa(e, ls, |ls|) == g;
    assert Le(f, RF) == Byte.DeInteiro(vb - 1);
    CaudaCalcula(f, nomes, a, d);
    assert ValorDe(f, nomes, a) == va;
    assert Le(g, d) == Byte.Soma(Byte.DeInteiro(va), Byte.DeInteiro(vb - 1));
    Byte.SomaDeInteiros(va, vb - 1);
  }

  /**
   * The discrepancy at one input: with 5 in `y` and 3 in `z`, `x := y - z`
   * leaves 7 as the source writes it and 2 as corrected.
   */
  lemma SubtracaoComoEscritaErra()
    ensures var nomes := ["x", "y", "z"];
      var x := Binaria("x", Nome("y"), Menos, Nome("z"));
      var e: Estado := map[Mapeado(2) := 5, Mapeado(3) := 3];
      var ls := Subtracao(nomes, x, Mapeado(1), false);
      var ok := Subtracao(nomes, x, Mapeado(1), true);
      Le(Executa(e, ls, |ls|), Mapeado(1)) == 7 && Le(Executa(e, ok, |ok|), Mapeado(1)) == 2
  {
    var nomes := ["x", "y", "z"];
    var x := Binaria("x", Nome("y"), Menos, Nome("z"));
    var e: Estado := map[Mapeado(2) := 5, Mapeado(3) := 3];
    assert Posicao(nomes, "x") == 0;
    assert Posicao(nomes, "y") == 1;
    assert Posicao(nomes, "z") == 2;
    assert ValorDe(e, nomes, Nome("y")) == 5;
    assert ValorDe(e, nomes, Nome("z")) == 3;
    SubtracaoComoEscritaCalcula(nomes, x, e);
    SubtracaoCalcula(nomes, x, e);
  }

  // ------------------------------------------------- multiplication, division

  /** Two constants are multiplied at translation time: no loop, the product modulo 256 in `d`. */
  lemma MultiplicacaoConstantes(nomes: seq<string>, x: Instr, c: nat, e: Estado)
    requires x.Binaria? && x.esq.Num? && x.dir.Num? && x.destino in nomes
    ensures var d := Registrador(nomes, x.destino);
      var ls := Multiplicacao(nomes, x, d, c);
      |ls| == 2 && Le(Executa(e, ls, 2), d) == Byte.DeInteiro(x.esq.valor * x.dir.valor)
  {
    var d := Registrador(nomes, x.destino);
    var ls := Multiplicacao(nomes, x, d, c);
    assert Executa(e, ls, 1) == e;
  }

  /**
   * A constant divisor 0 gives 0 without a loop, whatever the dividend;
   * two constants are divided at translation time.
   */
  lemma DivisaoConstante(nomes: seq<string>, x: Instr, c: nat, e: Estado)
    requires x.Binaria? && Reconhecida(x) && x.dir.Num? && (x.esq.Num? || x.dir.valor == 0) && x.destino in nomes
    ensures var d := Registrador(nomes, x.destino);
      var ls := Divisao(nomes, x, d, c);
      Le(Executa(e, ls, |ls|), d) == (if x.dir.valor == 0 then 0 else Byte.DeInteiro(x.esq.valor / x.dir.valor))
  {
    var d := Registrador(nomes, x.destino);
    var ls := Divisao(nomes, x, d, c);
    assert Executa(e, ls, 0) == e;
    if x.dir.valor == 0 {
      assert Executa(e, ls, 2) == e;
    } else {
      assert Executa(e, ls, 1) == e;
    }
  }

  /**
   * A variable divisor is compared with 0 before the loop; the jump goes to
   * `Erro_Div_Zero_c`, which sets `d` to 0 and ends at `Fim_Div_c_Skip`,
   * and the loop jumps over it.
   */
  lemma DivisaoPorVariavel(nomes: seq<string>, x: Instr, c: nat)
    requires x.Binaria? && x.dir.Nome?
    ensures var d := Registrador(nomes, x.destino);
      var ls := Divisao(nomes, x, d, c);
      var n := |ls|;
      n > 8 &&
      ls[1] == Ins(Load(R0, Valor(0))) && ls[2] == Ins(JmpEQ(Registrador(nomes, x.dir.nome), R0, ErroDiv(c))) &&
      ls[n - 5] == Ins(Jmp(FimDivSkip(c))) && ls[n - 4] == Def(ErroDiv(c)) &&
      ls[n - 2] == Ins(Load(d, Valor(0))) && ls[n - 1] == Def(FimDivSkip(c))
  {
    var d := Registrador(nomes, x.destino);
    var cabeca := [Nota(" Divisão: " + x.destino + " := " + Texto(x.esq) + " / " + Texto(x.dir))];
    var teste := TesteDivisor(nomes, x.dir, c);
    var laco := LacoDivisao(nomes, x, d, c);
    var meio := CargaDivisao(nomes, x.esq, x.dir) + InicioDivisao(d) + (TesteDivisao(c) + PassoDivisao(d, c));
    var erro := ErroDivisao(d, c);
    assert laco == meio + erro;
    var ls := Divisao(nomes, x, d, c);
    assert ls == cabeca + (teste + laco);
    assert |teste| == 2 && |erro| == 5;
    assert ls[1] == teste[0] && ls[2] == teste[1];
    assert |ls| == 3 + |meio| + 5;
    assert ls[|ls| - 5] == erro[0];
    assert ls[|ls| - 4] == erro[1];
    assert ls[|ls| - 2] == erro[3];
    assert ls[|ls| - 1] == erro[4];
  }
}
