/**
 * What the block emitted for one three-address line does on the SimpSIM
 * machine.  Registers and memory cells hold bytes; `load` reads a constant
 * modulo 256 or a cell, `store` writes a cell, `addi` adds modulo 256,
 * `xor` and `and` are bitwise, `jmpEQ` compares two registers for
 * equality and `jmpLE Rn<=R0` compares in two's complement, as the
 * SimpSIM machine does.  A block is run from its first line until it falls
 * off its end or jumps; comment and label lines do nothing.
 *
 * The data section is not executed: the lemmas start from a machine in
 * which `R0` holds 0 (line 64) and the cells `UM` and `MASCARA_NEG` hold 1
 * and `0xFF` (lines 31-32).
 */
module GeradorAssemblySemantica {
  import opened Wrappers
  import opened Tac
  import opened GeradorAssembly
  import Byte

  // --------------------------------------------------------------- machine

  /** Registers and named cells; one never written reads 0. */
  datatype Maquina = Maquina(regs: map<Reg, Byte.Octeto>, mem: map<string, Byte.Octeto>)

  function Registro(m: Maquina, r: Reg): Byte.Octeto {
    if r in m.regs then m.regs[r] else 0
  }

  function Conteudo(m: Maquina, x: string): Byte.Octeto {
    if x in m.mem then m.mem[x] else 0
  }

  function Le(m: Maquina, f: Fonte): Byte.Octeto {
    match f
    case Imediato(v) => Byte.DeInteiro(v)
    case Hexa(h) => Byte.DeInteiro(h)
    case Celula(x) => Conteudo(m, x)
  }

  function Escreve(m: Maquina, r: Reg, v: Byte.Octeto): Maquina {
    m.(regs := m.regs[r := v])
  }

  /** Where control goes after an instruction. */
  datatype Fluxo = Segue | Salta(alvo: string) | Para

  /** One instruction. */
  function Passo(m: Maquina, i: InstrAsm): (Maquina, Fluxo) {
    match i
    case Load(r, f) => (Escreve(m, r, Le(m, f)), Segue)
    case Store(r, x) => (m.(mem := m.mem[x := Registro(m, r)]), Segue)
    case Move(r, s) => (Escreve(m, r, Registro(m, s)), Segue)
    case Addi(r, a, b) => (Escreve(m, r, Byte.Soma(Registro(m, a), Registro(m, b))), Segue)
    case Xor(r, a, b) => (Escreve(m, r, Byte.XorOcteto(Registro(m, a), Registro(m, b))), Segue)
    case And(r, a, b) => (Escreve(m, r, Byte.AndOcteto(Registro(m, a), Registro(m, b))), Segue)
    case Jmp(l) => (m, Salta(l))
    case JmpEQ(a, b, l) => (m, if Registro(m, a) == Registro(m, b) then Salta(l) else Segue)
    case JmpLE(a, b, l) =>
      (m, if Byte.ComSinal(Registro(m, a)) <= Byte.ComSinal(Registro(m, b)) then Salta(l) else Segue)
    case Halt => (m, Para)
  }

  /** Straight-line run: the lines in order until one of them jumps or halts. */
  function Corre(m: Maquina, ls: seq<LinhaAsm>): (Maquina, Fluxo)
    decreases |ls|
  {
    if ls == [] then (m, Segue)
    else if !ls[0].Ins? then Corre(m, ls[1..])
    else
      var p := Passo(m, ls[0].instr);
      if p.1 == Segue then Corre(p.0, ls[1..]) else p
  }

  lemma {:induction false} CorreJunta(m: Maquina, a: seq<LinhaAsm>, b: seq<LinhaAsm>)
    ensures Corre(m, a + b) == if Corre(m, a).1 == Segue then Corre(Corre(m, a).0, b) else Corre(m, a)
    decreases |a|
  {
    if a != [] {
      assert (a + b)[0] == a[0] && (a + b)[1..] == a[1..] + b;
      if !a[0].Ins? {
        CorreJunta(m, a[1..], b);
      } else {
        var p := Passo(m, a[0].instr);
        if p.1 == Segue {
          CorreJunta(p.0, a[1..], b);
        }
      }
    } else {
      assert a + b == b;
    }
  }

  lemma CorreUm(m: Maquina, i: InstrAsm)
    ensures Corre(m, [Ins(i)]) == Passo(m, i)
  {
    assert [Ins(i)][1..] == [];
  }

  lemma CorreNota(m: Maquina, l: LinhaAsm, ls: seq<LinhaAsm>)
    requires !l.Ins?
    ensures Corre(m, [l] + ls) == Corre(m, ls)
  {
    assert ([l] + ls)[1..] == ls;
  }

  lemma CorrePasso(m: Maquina, i: InstrAsm, ls: seq<LinhaAsm>)
    requires Passo(m, i).1 == Segue
    ensures Corre(m, [Ins(i)] + ls) == Corre(Passo(m, i).0, ls)
  {
    assert ([Ins(i)] + ls)[1..] == ls;
  }

  // ------------------------------------------------------------- operands

  /** `R0` holds 0 and the constant cells hold 1 and `0xFF`. */
  predicate Pronta(m: Maquina) {
    Registro(m, R0) == 0 && Conteudo(m, "UM") == 1 && Conteudo(m, "MASCARA_NEG") == 0xFF
  }

  /** The byte an operand stands for: an unsigned constant modulo 256 or a name's cell. */
  function Valor(m: Maquina, o: Operando): Byte.Octeto
    requires EhPalavra(o)
  {
    if o.Num? then Byte.DeInteiro(o.valor) else Conteudo(m, o.nome)
  }

  /** `load r, …` of an operand puts its value in `r` and changes nothing else. */
  lemma CargaCalcula(m: Maquina, r: Reg, o: Operando)
    requires EhPalavra(o)
    ensures Corre(m, [Ins(Carga(r, o))]) == (Escreve(m, r, Valor(m, o)), Segue)
  {
    CorreUm(m, Carga(r, o));
  }

  /** The two loads that open a binary assignment and a conditional jump. */
  function Cargas(a: Operando, b: Operando): seq<LinhaAsm> {
    [Ins(Carga(R1, a)), Ins(Carga(R2, b))]
  }

  /** They put `a` in R1 and `b` in R2 and leave R0 and memory alone. */
  lemma CargasCalculam(m: Maquina, a: Operando, b: Operando)
    requires EhPalavra(a) && EhPalavra(b)
    ensures var c := Corre(m, Cargas(a, b));
      c.1 == Segue && c.0.mem == m.mem && Registro(c.0, R0) == Registro(m, R0) &&
      Registro(c.0, R1) == Valor(m, a) && Registro(c.0, R2) == Valor(m, b)
  {
    var m1 := Escreve(m, R1, Valor(m, a));
    CargaCalcula(m, R1, a);
    CargaCalcula(m1, R2, b);
    assert Valor(m1, b) == Valor(m, b);
    CorreJunta(m, [Ins(Carga(R1, a))], [Ins(Carga(R2, b))]);
    assert [Ins(Carga(R1, a))] + [Ins(Carga(R2, b))] == Cargas(a, b);
  }

  // ----------------------------------------------------------- subtraction

  lemma CorreCinco(m: Maquina, i0: InstrAsm, i1: InstrAsm, i2: InstrAsm, i3: InstrAsm, i4: InstrAsm,
                   m1: Maquina, m2: Maquina, m3: Maquina, m4: Maquina)
    requires Passo(m, i0) == (m1, Segue) && Passo(m1, i1) == (m2, Segue)
    requires Passo(m2, i2) == (m3, Segue) && Passo(m3, i3) == (m4, Segue)
    ensures Corre(m, [Ins(i0), Ins(i1), Ins(i2), Ins(i3), Ins(i4)]) == Passo(m4, i4)
  {
    assert [Ins(i0), Ins(i1), Ins(i2), Ins(i3), Ins(i4)] == [Ins(i0)] + ([Ins(i1)] + ([Ins(i2)] + ([Ins(i3)] + [Ins(i4)])));
    CorrePasso(m, i0, [Ins(i1)] + ([Ins(i2)] + ([Ins(i3)] + [Ins(i4)])));
    CorrePasso(m1, i1, [Ins(i2)] + ([Ins(i3)] + [Ins(i4)]));
    CorrePasso(m2, i2, [Ins(i3)] + [Ins(i4)]);
    CorrePasso(m3, i3, [Ins(i4)]);
    CorreUm(m4, i4);
  }

  /** The five lines of the difference, step by step. */
  lemma DiferencaCorre(m: Maquina)
    ensures var c := Corre(m, Diferenca);
      var n := Byte.Soma(Byte.XorOcteto(Registro(m, R2), Conteudo(m, "MASCARA_NEG")), Conteudo(m, "UM"));
      c.1 == Segue && c.0.mem == m.mem && Registro(c.0, R0) == Registro(m, R0) &&
      Registro(c.0, R1) == Registro(m, R1) && Registro(c.0, R3) == Byte.Soma(Registro(m, R1), n)
  {
    var x := Byte.XorOcteto(Registro(m, R2), Conteudo(m, "MASCARA_NEG"));
    var n := Byte.Soma(x, Conteudo(m, "UM"));
    var m1 := Escreve(m, R4, Conteudo(m, "MASCARA_NEG"));
    var m2 := Escreve(m1, R2, x);
    var m3 := Escreve(m2, R4, Conteudo(m, "UM"));
    var m4 := Escreve(m3, R2, n);
    var m5 := Escreve(m4, R3, Byte.Soma(Registro(m, R1), n));
    assert Registro(m4, R1) == Registro(m, R1) && Registro(m4, R2) == n;
    assert Passo(m4, Addi(R3, R1, R2)) == (m5, Segue);
    CorreCinco(m, Load(R4, Celula("MASCARA_NEG")), Xor(R2, R2, R4), Load(R4, Celula("UM")), Addi(R2, R2, R4), Addi(R3, R1, R2),
      m1, m2, m3, m4);
  }

  /**
   * Lines 184-188 (and 228-232): with R1 = a and R2 = b, the five lines
   * leave a - b modulo 256 in R3; R4 and R2 are scratch, R0, R1 and memory
   * are kept.
   */
  lemma DiferencaCalcula(m: Maquina)
    requires Pronta(m)
    ensures var c := Corre(m, Diferenca);
      c.1 == Segue && c.0.mem == m.mem && Registro(c.0, R0) == 0 && Registro(c.0, R1) == Registro(m, R1) &&
      Registro(c.0, R3) == Byte.DeInteiro(Registro(m, R1) - Registro(m, R2))
  {
    DiferencaCorre(m);
    Byte.SubtraiPorNegacao(Registro(m, R1), Registro(m, R2));
  }

  // ----------------------------------------------------------- assignments

  /** A copy or a `+`/`-` of words: the only assignments whose value the block stores. */
  predicate Calculavel(x: Instr) {
    (x.Copia? && EhPalavra(x.fonte)) ||
    (x.Binaria? && (x.op == Mais || x.op == Menos) && EhPalavra(x.esq) && EhPalavra(x.dir))
  }

  /** The value a computable assignment gives its destination, as a byte. */
  function Resultado(m: Maquina, x: Instr): Byte.Octeto
    requires Calculavel(x)
  {
    if x.Copia? then Valor(m, x.fonte)
    else if x.op == Mais then Byte.DeInteiro(Valor(m, x.esq) + Valor(m, x.dir))
    else Byte.DeInteiro(Valor(m, x.esq) - Valor(m, x.dir))
  }

  /** R1 = a and R2 = b: the operation of a `+` or `-` leaves the result in R3 and memory untouched. */
  lemma OperacaoCalcula(m: Maquina, op: Op)
    requires Pronta(m) && (op == Mais || op == Menos)
    ensures var c := Corre(m, Operacao(op));
      c.1 == Segue && c.0.mem == m.mem &&
      Registro(c.0, R3) == Byte.DeInteiro(Registro(m, R1) + (if op == Mais then Registro(m, R2) as int else -(Registro(m, R2) as int)))
  {
    if op == Mais {
      CorreUm(m, Addi(R3, R1, R2));
    } else {
      CorreNota(m, Nota("Subtração usando complemento de 2"), Diferenca);
      DiferencaCalcula(m);
    }
  }

  /** Loads and operation of `a + b` or `a - b`: the result in R3, memory untouched. */
  lemma CargasOperacao(m: Maquina, a: Operando, op: Op, b: Operando)
    requires Pronta(m) && (op == Mais || op == Menos) && EhPalavra(a) && EhPalavra(b)
    ensures var c := Corre(m, Cargas(a, b) + Operacao(op));
      c.1 == Segue && c.0.mem == m.mem &&
      Registro(c.0, R3) == Byte.DeInteiro(if op == Mais then Valor(m, a) + Valor(m, b) else Valor(m, a) - Valor(m, b))
  {
    CargasCalculam(m, a, b);
    OperacaoCalcula(Corre(m, Cargas(a, b)).0, op);
    CorreJunta(m, Cargas(a, b), Operacao(op));
  }

  lemma AtribuicaoCopia(m: Maquina, x: Instr)
    requires x.Copia? && EhPalavra(x.fonte)
    ensures var c := Corre(m, Atribuicao(x));
      c.1 == Segue && c.0.mem == m.mem[x.destino := Valor(m, x.fonte)]
  {
    var m1 := Escreve(m, R1, Valor(m, x.fonte));
    CargaCalcula(m, R1, x.fonte);
    CorreUm(m1, Store(R1, x.destino));
    CorreJunta(m, [Ins(Carga(R1, x.fonte))], [Ins(Store(R1, x.destino))]);
    assert Atribuicao(x) == [Ins(Carga(R1, x.fonte))] + [Ins(Store(R1, x.destino))];
  }

  lemma AtribuicaoBinaria(m: Maquina, x: Instr)
    requires Pronta(m) && x.Binaria? && Calculavel(x)
    ensures var c := Corre(m, Atribuicao(x));
      c.1 == Segue && c.0.mem == m.mem[x.destino := Resultado(m, x)]
  {
    var antes := Cargas(x.esq, x.dir) + Operacao(x.op);
    CargasOperacao(m, x.esq, x.op, x.dir);
    CorreUm(Corre(m, antes).0, Store(R3, x.destino));
    CorreJunta(m, antes, [Ins(Store(R3, x.destino))]);
    assert Atribuicao(x) == antes + [Ins(Store(R3, x.destino))];
  }

  /**
   * `traduzirAtribuicao`: for a copy of a word, or `a + b` / `a - b` of
   * words, the block falls through and the only cell it changes is the
   * destination's, which then holds the value modulo 256.
   */
  lemma AtribuicaoCalcula(m: Maquina, x: Instr)
    requires Pronta(m) && Calculavel(x)
    ensures var c := Corre(m, Atribuicao(x));
      c.1 == Segue && c.0.mem == m.mem[x.destino := Resultado(m, x)]
  {
    if x.Copia? {
      AtribuicaoCopia(m, x);
    } else {
      AtribuicaoBinaria(m, x);
    }
  }

  /** `move R3, R1`, `move R4, R2`, `jmp sub`. */
  lemma PassagemCalcula(m: Maquina, sub: string)
    ensures var c := Corre(m, [Ins(Move(R3, R1)), Ins(Move(R4, R2)), Ins(Jmp(sub))]);
      c.1 == Salta(sub) && c.0.mem == m.mem && Registro(c.0, R3) == Registro(m, R1) && Registro(c.0, R4) == Registro(m, R2)
  {
    var m3 := Escreve(m, R3, Registro(m, R1));
    var m4 := Escreve(m3, R4, Registro(m3, R2));
    assert [Ins(Move(R3, R1)), Ins(Move(R4, R2)), Ins(Jmp(sub))] == [Ins(Move(R3, R1))] + ([Ins(Move(R4, R2))] + [Ins(Jmp(sub))]);
    CorrePasso(m, Move(R3, R1), [Ins(Move(R4, R2))] + [Ins(Jmp(sub))]);
    CorrePasso(m3, Move(R4, R2), [Ins(Jmp(sub))]);
    CorreUm(m4, Jmp(sub));
  }

  /**
   * Lines 190-201: `*` and `/` move the operands to R3 and R4 and jump to the
   * subroutine, which does not come back, so the `store` of line 204 is
   * never reached and no cell changes.
   */
  lemma MultiplicacaoDivisaoSaem(m: Maquina, x: Instr)
    requires x.Binaria? && (x.op == Vezes || x.op == Dividido) && EhPalavra(x.esq) && EhPalavra(x.dir)
    ensures var c := Corre(m, Atribuicao(x));
      c.1 == Salta(if x.op == Vezes then "mult_subroutine" else "div_subroutine") &&
      c.0.mem == m.mem && Registro(c.0, R3) == Valor(m, x.esq) && Registro(c.0, R4) == Valor(m, x.dir)
  {
    var cargas := Cargas(x.esq, x.dir);
    CargasCalculam(m, x.esq, x.dir);
    var m2 := Corre(m, cargas).0;
    var sub := if x.op == Vezes then "mult_subroutine" else "div_subroutine";
    var nota := if x.op == Vezes then "Multiplicação por somas sucessivas" else "Divisão por subtrações sucessivas";
    var movs := [Ins(Move(R3, R1)), Ins(Move(R4, R2)), Ins(Jmp(sub))];
    assert Operacao(x.op) == [Nota(nota)] + movs;
    CorreNota(m2, Nota(nota), movs);
    PassagemCalcula(m2, sub);
    CorreJunta(m, cargas, Operacao(x.op));
    CorreJunta(m, cargas + Operacao(x.op), [Ins(Store(R3, x.destino))]);
    assert Atribuicao(x) == cargas + Operacao(x.op) + [Ins(Store(R3, x.destino))];
  }

  // ------------------------------------------------------ conditional jumps

  /**
   * What the jump of lines 235-265 tests, on the byte `d` = a - b modulo 256
   * read in two's complement: equal to, different from, below, at most,
   * above or at least zero.
   */
  predicate Condicao(rel: Rel, d: Byte.Octeto) {
    var s := Byte.ComSinal(d);
    match rel
    case Igual => s == 0
    case Diferente => s != 0
    case Menor => s < 0
    case MenorIgual => s <= 0
    case Maior => s > 0
    case MaiorIgual => s >= 0
  }

  /** The block falls off its end: it runs on, or jumps to the `skip_` label that is its own last line. */
  predicate Prossegue(f: Fluxo, bloco: seq<LinhaAsm>) {
    f == Segue || (f.Salta? && |bloco| > 0 && bloco[|bloco| - 1] == Def(f.alvo))
  }

  /**
   * A test for the opposite condition that skips over `jmp l` to the
   * `skip_l:` line after it: `l` is reached exactly when the test falls
   * through.
   */
  lemma SaltoNegado(m: Maquina, i: InstrAsm, l: string)
    requires Passo(m, i).0 == m && (Passo(m, i).1 == Segue || Passo(m, i).1 == Salta(Pulo(l)))
    ensures Corre(m, [Ins(i), Ins(Jmp(l)), Def(Pulo(l))]) == (m, if Passo(m, i).1 == Segue then Salta(l) else Salta(Pulo(l)))
  {
    var resto := [Ins(Jmp(l))] + [Def(Pulo(l))];
    assert [Ins(i), Ins(Jmp(l)), Def(Pulo(l))] == [Ins(i)] + resto;
    if Passo(m, i).1 == Segue {
      CorrePasso(m, i, resto);
      CorreJunta(m, [Ins(Jmp(l))], [Def(Pulo(l))]);
      CorreUm(m, Jmp(l));
    } else {
      CorreJunta(m, [Ins(i)], resto);
      CorreUm(m, i);
    }
  }

  /** `load R4, 0x80` and `and R5, R3, R4`: the sign bit of R3 into R5, with R4 = 0x80. */
  lemma SinalCalcula(m: Maquina, resto: seq<LinhaAsm>)
    ensures var m2 := Escreve(Escreve(m, R4, 0x80), R5, Byte.AndOcteto(Registro(m, R3), 0x80));
      Corre(m, [Ins(Load(R4, Hexa(0x80))), Ins(And(R5, R3, R4))] + resto) == Corre(m2, resto)
  {
    var m1 := Escreve(m, R4, 0x80);
    assert [Ins(Load(R4, Hexa(0x80))), Ins(And(R5, R3, R4))] + resto == [Ins(Load(R4, Hexa(0x80)))] + ([Ins(And(R5, R3, R4))] + resto);
    CorrePasso(m, Load(R4, Hexa(0x80)), [Ins(And(R5, R3, R4))] + resto);
    CorrePasso(m1, And(R5, R3, R4), resto);
  }

  lemma PuloDistinto(l: string)
    ensures Pulo(l) != l
  {
    assert |Pulo(l)| == 5 + |l|;
  }

  /**
   * The jump itself, with R3 = d and R0 = 0: to `l` exactly when the
   * condition holds, else past the block; no cell changes.
   */
  lemma DesvioCalcula(m: Maquina, rel: Rel, l: string)
    requires Registro(m, R0) == 0
    ensures var c := Corre(m, Desvio(rel, l));
      c.0.mem == m.mem &&
      (c.1 == Salta(l) <==> Condicao(rel, Registro(m, R3))) &&
      (c.1 != Salta(l) ==> Prossegue(c.1, Desvio(rel, l)))
  {
    var d := Registro(m, R3);
    PuloDistinto(l);
    match rel {
      case Igual =>
        CorreUm(m, JmpEQ(R3, R0, l));
      case MenorIgual =>
        CorreUm(m, JmpLE(R3, R0, l));
      case Diferente =>
        SaltoNegado(m, JmpEQ(R3, R0, Pulo(l)), l);
      case Maior =>
        SaltoNegado(m, JmpLE(R3, R0, Pulo(l)), l);
      case Menor =>
        var m2 := Escreve(Escreve(m, R4, 0x80), R5, Byte.AndOcteto(d, 0x80));
        SinalCalcula(m, [Ins(JmpEQ(R5, R4, l))]);
        CorreUm(m2, JmpEQ(R5, R4, l));
        Byte.BitDeSinal(d);
      case MaiorIgual =>
        var m2 := Escreve(Escreve(m, R4, 0x80), R5, Byte.AndOcteto(d, 0x80));
        var resto := [Ins(JmpEQ(R5, R4, Pulo(l))), Ins(Jmp(l)), Def(Pulo(l))];
        assert Desvio(rel, l) == [Ins(Load(R4, Hexa(0x80))), Ins(And(R5, R3, R4))] + resto;
        SinalCalcula(m, resto);
        SaltoNegado(m2, JmpEQ(R5, R4, Pulo(l)), l);
        Byte.BitDeSinal(d);
    }
  }

  /** The loads, the comment and the difference that open a conditional jump. */
  lemma ComparacaoCalcula(m: Maquina, a: Operando, b: Operando)
    requires Pronta(m) && EhPalavra(a) && EhPalavra(b)
    ensures var c := Corre(m, Cargas(a, b) + ([Nota("Calcular R1 - R2 para comparação")] + Diferenca));
      c.1 == Segue && c.0.mem == m.mem && Registro(c.0, R0) == 0 &&
      Registro(c.0, R3) == Byte.DeInteiro(Valor(m, a) - Valor(m, b))
  {
    CargasCalculam(m, a, b);
    var m2 := Corre(m, Cargas(a, b)).0;
    CorreNota(m2, Nota("Calcular R1 - R2 para comparação"), Diferenca);
    DiferencaCalcula(m2);
    CorreJunta(m, Cargas(a, b), [Nota("Calcular R1 - R2 para comparação")] + Diferenca);
  }

  /**
   * `traduzirSaltoCondicional`: the block jumps to `l` exactly when the
   * condition holds of a - b modulo 256, and otherwise goes on past its end;
   * memory is not changed.
   */
  lemma SaltoCalcula(m: Maquina, a: Operando, rel: Rel, b: Operando, l: string)
    requires Pronta(m) && EhPalavra(a) && EhPalavra(b)
    ensures var c := Corre(m, Salto(a, rel, b, l));
      c.0.mem == m.mem &&
      (c.1 == Salta(l) <==> Condicao(rel, Byte.DeInteiro(Valor(m, a) - Valor(m, b)))) &&
      (c.1 != Salta(l) ==> Prossegue(c.1, Salto(a, rel, b, l)))
  {
    var antes := Cargas(a, b) + ([Nota("Calcular R1 - R2 para comparação")] + Diferenca);
    ComparacaoCalcula(m, a, b);
    DesvioCalcula(Corre(m, antes).0, rel, l);
    CorreJunta(m, antes, Desvio(rel, l));
    var ls := Salto(a, rel, b, l);
    assert ls == antes + Desvio(rel, l);
    assert ls[|ls| - 1] == Desvio(rel, l)[|Desvio(rel, l)| - 1];
  }

  /** The relation a three-address jump means, on integers. */
  predicate Compara(rel: Rel, a: int, b: int) {
    match rel
    case Igual => a == b
    case Diferente => a != b
    case Menor => a < b
    case MenorIgual => a <= b
    case Maior => a > b
    case MaiorIgual => a >= b
  }

  /**
   * For values read in two's complement, the tested condition is the
   * intended comparison whenever their difference fits in a signed byte.
   */
  lemma CondicaoCompara(rel: Rel, a: Byte.Octeto, b: Byte.Octeto)
    requires -128 <= Byte.ComSinal(a) - Byte.ComSinal(b) < 128
    ensures Condicao(rel, Byte.DeInteiro(a - b)) <==> Compara(rel, Byte.ComSinal(a), Byte.ComSinal(b))
  {
    var x, y := Byte.ComSinal(a), Byte.ComSinal(b);
    var v := x - y;
    var w := a - b;
    assert w == v || w == v + 256 || w == v - 256;
    assert Byte.DeInteiro(w) == Byte.DeInteiro(v);
    Byte.ComSinalDeInteiro(v);
  }

  /** Outside that range the test is wrong: `100 < -100` holds on the machine. */
  lemma CondicaoTransborda()
    ensures Condicao(Menor, Byte.DeInteiro(100 - Byte.DeInteiro(-100)))
    ensures !Compara(Menor, 100, -100)
  {
    assert Byte.DeInteiro(-100) == 156;
    assert Byte.DeInteiro(100 - 156) == 200;
  }

  // ------------------------------------------------------------ other lines

  /** `goto l`, `call f(…)` and `return v`: a jump to `l`, to `f`, or to `fim_programa` with `v` in RF. */
  lemma SaltosCalculam(m: Maquina, x: Instr)
    requires x.VaPara? || x.Chama? || (x.Retorna? && (x.valor.Some? ==> EhPalavra(x.valor.value)))
    ensures var c := Corre(m, Bloco(x));
      c.0.mem == m.mem &&
      c.1 == Salta(if x.VaPara? then x.alvo else if x.Chama? then x.funcao else "fim_programa") &&
      (x.Retorna? && x.valor.Some? ==> Registro(c.0, RF) == Valor(m, x.valor.value))
  {
    match x {
      case VaPara(l) =>
        CorreUm(m, Jmp(l));
      case Chama(f, args) =>
        if args == [] {
          assert Bloco(x) == [Nota("Chamada de função: " + f)] + [Ins(Jmp(f))];
          CorreNota(m, Nota("Chamada de função: " + f), [Ins(Jmp(f))]);
        } else {
          var n2 := Nota("Argumentos: " + TextoArgumentos(args));
          assert Bloco(x) == [Nota("Chamada de função: " + f)] + ([n2] + [Ins(Jmp(f))]);
          CorreNota(m, Nota("Chamada de função: " + f), [n2] + [Ins(Jmp(f))]);
          CorreNota(m, n2, [Ins(Jmp(f))]);
        }
        CorreUm(m, Jmp(f));
      case Retorna(v) =>
        if v.Some? {
          CargaCalcula(m, RF, v.value);
          CorreUm(Escreve(m, RF, Valor(m, v.value)), Jmp("fim_programa"));
          CorreJunta(m, [Ins(Carga(RF, v.value))], [Ins(Jmp("fim_programa"))]);
        } else {
          CorreUm(m, Jmp("fim_programa"));
        }
    }
  }
}
