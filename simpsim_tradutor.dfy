/**
 * The register translator of `tradutorSimpSIM.js`: three-address lines to
 * SimpSIM assembly where every name lives in a register.
 *
 * A first pass gives each name a register `R1`, `R2`, … in order of first
 * appearance; the mapping is the sequence of names, the name at position
 * `k` holding `R{k+1}`.  A second pass translates line by line, threading
 * the label counter of the multiplication and division loops.  Assembly
 * lines are values of `LinhaSim`; `Texto` renders one as the source writes
 * it, without the trailing `; …` comment of an instruction.
 *
 * The random suffix of each `Pular_…` label is the parameter `aleatorio`,
 * read at the index of the line being translated.
 */
module TradutorSimpSim {
  import opened Wrappers
  import opened Tac
  import opened Insercao

  // ---------------------------------------------------- registers and lines

  /** What an instruction names: a register, a constant or the text that stands in for a missing register. */
  datatype Arg =
    | Mapeado(n: nat)     // `R{n}`, the register of a name
    | Fixo(r: char)       // the scratch registers `R0`, `RA` … `RF`
    | Valor(v: int)       // a constant
    | Cru(nome: string)   // a name without register, written as it is
    | Indefinido          // `mapeamentoVariaveis[x]` of a name without register: `undefined`

  const R0 := Fixo('0')
  const RA := Fixo('A')
  const RB := Fixo('B')
  const RC := Fixo('C')
  const RD := Fixo('D')
  const RE := Fixo('E')
  const RF := Fixo('F')

  datatype Alvo =
    | Rot(nome: string)                     // a label of the input
    | Pular(rotulo: string, sufixo: string) // `Pular_{rotulo}_{sufixo}`
    | LoopMul(k: nat)                       // `Loop_Mul_k`
    | FimMul(k: nat)                        // `Fim_Mul_k`
    | LoopDiv(k: nat)                       // `Loop_Div_k`
    | FimDiv(k: nat)                        // `Fim_Div_k`
    | ErroDiv(k: nat)                       // `Erro_Div_Zero_k`
    | FimDivSkip(k: nat)                    // `Fim_Div_k_Skip`

  /** A label numbered by the counter of multiplications and divisions. */
  predicate Gerado(a: Alvo) {
    !a.Rot? && !a.Pular?
  }

  datatype InstrSim =
    | Load(r: Arg, v: Arg)
    | Move(r: Arg, s: Arg)
    | Addi(r: Arg, a: Arg, b: Arg)
    | Xor(r: Arg, a: Arg, b: Arg)
    | Jmp(l: Alvo)
    | JmpEQ(a: Arg, b: Arg, l: Alvo)
    | JmpLE(a: Arg, b: Arg, l: Alvo)
    | Call(f: string)
    | Halt

  datatype LinhaSim = Vazia | Nota(texto: string) | Def(alvo: Alvo) | Ins(instr: InstrSim)

  function TextoArg(a: Arg): string {
    match a
    case Mapeado(n) => "R" + Decimal(n)
    case Fixo(r) => ['R', r]
    case Valor(v) => Decimal(v)
    case Cru(s) => s
    case Indefinido => "undefined"
  }

  function TextoAlvo(a: Alvo): string {
    match a
    case Rot(l) => l
    case Pular(l, s) => "Pular_" + l + "_" + s
    case LoopMul(k) => "Loop_Mul_" + Decimal(k)
    case FimMul(k) => "Fim_Mul_" + Decimal(k)
    case LoopDiv(k) => "Loop_Div_" + Decimal(k)
    case FimDiv(k) => "Fim_Div_" + Decimal(k)
    case ErroDiv(k) => "Erro_Div_Zero_" + Decimal(k)
    case FimDivSkip(k) => "Fim_Div_" + Decimal(k) + "_Skip"
  }

  function TextoInstr(i: InstrSim): string {
    match i
    case Load(r, v) => "load " + TextoArg(r) + ", " + TextoArg(v)
    case Move(r, s) => "move " + TextoArg(r) + ", " + TextoArg(s)
    case Addi(r, a, b) => "addi " + TextoArg(r) + ", " + TextoArg(a) + ", " + TextoArg(b)
    case Xor(r, a, b) => "xor " + TextoArg(r) + ", " + TextoArg(a) + ", " + TextoArg(b)
    case Jmp(l) => "jmp " + TextoAlvo(l)
    case JmpEQ(a, b, l) => "jmpEQ " + TextoArg(a) + " = " + TextoArg(b) + ", " + TextoAlvo(l)
    case JmpLE(a, b, l) => "jmpLE " + TextoArg(a) + " <= " + TextoArg(b) + ", " + TextoAlvo(l)
    case Call(f) => "call " + f
    case Halt => "halt"
  }

  function TextoLinha(l: LinhaSim): string {
    match l
    case Vazia => ""
    case Nota(t) => ";" + t
    case Def(a) => TextoAlvo(a) + ":"
    case Ins(i) => TextoInstr(i)
  }

  /** `halt` written from position `k` of `s`. */
  predicate HaltEm(s: string, k: int) {
    0 <= k && k + 4 <= |s| && s[k] == 'h' && s[k + 1] == 'a' && s[k + 2] == 'l' && s[k + 3] == 't'
  }

  /** `linha.includes('halt')` */
  predicate ContemHalt(s: string) {
    exists k :: 0 <= k < |s| && HaltEm(s, k)
  }

  predicate TemHalt(ls: seq<LinhaSim>) {
    exists k :: 0 <= k < |ls| && ContemHalt(TextoLinha(ls[k]))
  }

  // ------------------------------------------------------------ first pass

  /** The words `extrairVariaveis` never maps. */
  predicate Reservada(w: string) {
    w in {"if", "goto", "call", "return", "load", "store", "move", "addi", "jmp", "jmpEQ", "jmpLE", "halt"}
  }

  function SemReservadas(ws: seq<string>): (r: seq<string>)
    ensures forall k :: 0 <= k < |r| ==> !Reservada(r[k]) && r[k] in ws
    ensures forall w :: w in ws && !Reservada(w) ==> w in r
  {
    if ws == [] then []
    else (if Reservada(ws[0]) then [] else [ws[0]]) + SemReservadas(ws[1..])
  }

  /**
   * The names one line asks registers for, in order: the destination of an
   * assignment, then every word but the reserved ones.  Blank lines,
   * comments and labels ask for none.
   */
  function NomesDaLinha(l: Linha): seq<string> {
    match l
    case Codigo(x) =>
      if x.Rotulo? then []
      else (if Atribui(x) then [x.destino] else []) + SemReservadas(Palavras(x))
    case _ => []
  }

  /** The first pass from line `i` with the names mapped so far. */
  function MapeiaDesde(codigo: seq<Linha>, i: nat, nomes: seq<string>): seq<string>
    requires i <= |codigo|
    decreases |codigo| - i
  {
    if i == |codigo| then nomes else MapeiaDesde(codigo, i + 1, Acrescenta(nomes, NomesDaLinha(codigo[i])))
  }

  function Mapeamento(codigo: seq<Linha>): seq<string> {
    MapeiaDesde(codigo, 0, [])
  }

  /** `mapeamentoVariaveis[x]` */
  function Registrador(nomes: seq<string>, x: string): Arg {
    if x in nomes then Mapeado(Posicao(nomes, x) + 1) else Indefinido
  }

  predicate EhConstante(o: Operando) {
    o.Num?
  }

  /** `obterRegistradorOuValor`: a constant as it is, a name by its register or else as written. */
  function RegistradorOuValor(nomes: seq<string>, o: Operando): Arg {
    match o
    case Num(n) => Valor(n)
    case Nome(x) => if x in nomes then Mapeado(Posicao(nomes, x) + 1) else Cru(x)
  }

  /** The heading comments, before the mapping. */
  const Cabecalho: seq<LinhaSim> := [
    Nota(" Código Assembly SimpSIM" + " gerado automaticamente"),
    Nota(" Mapeamento de registradores:"),
    Nota(" R0: Registrador de comparação" + " para saltos condicionais"),
    Nota(" R1-RF: Variáveis e" + " temporárias do programa"),
    Vazia
  ]

  /** A name beginning with `t` is listed as a temporary. */
  function Tipo(x: string): string {
    if |x| > 0 && x[0] == 't' then "(temporária)" else "(variável)"
  }

  function LinhaDoMapa(nomes: seq<string>, k: nat): LinhaSim
    requires k < |nomes|
  {
    Nota(" R" + Decimal(k + 1) + ": " + nomes[k] + " " + Tipo(nomes[k]))
  }

  function LinhasDoMapa(nomes: seq<string>): (r: seq<LinhaSim>)
    ensures |r| == |nomes|
  {
    seq(|nomes|, k requires 0 <= k < |nomes| => LinhaDoMapa(nomes, k))
  }

  // ------------------------------------------------------------ assignments

  function TextoExpressao(x: Instr): string
    requires x.Binaria?
  {
    Texto(x.esq) + " " + TextoOp(x.op) + " " + Texto(x.dir)
  }

  /** Both operands match `\w+|\d+`: no negative constant. */
  predicate Reconhecida(x: Instr)
    requires x.Binaria? || x.SeVaPara?
  {
    EhPalavra(x.esq) && EhPalavra(x.dir)
  }

  /** The `+` case of `traduzirAtribuicao`. */
  function Adicao(nomes: seq<string>, x: Instr, d: Arg): seq<LinhaSim>
    requires x.Binaria?
  {
    var a, b := x.esq, x.dir;
    if a.Num? && b.Num? then [Ins(Load(d, Valor(a.valor + b.valor)))]
    else if a.Num? then [Ins(Load(R0, Valor(a.valor))), Ins(Addi(d, R0, RegistradorOuValor(nomes, b)))]
    else if b.Num? then [Ins(Load(R0, Valor(b.valor))), Ins(Addi(d, RegistradorOuValor(nomes, a), R0))]
    else [Ins(Addi(d, RegistradorOuValor(nomes, a), RegistradorOuValor(nomes, b)))]
  }

  /** The four lines meant to leave `-b` in RF, as written: they leave `b - 1`. */
  function NegacaoComoEscrita(r: Arg): seq<LinhaSim> {
    [Ins(Load(R0, Valor(-1))), Ins(Load(RF, Valor(0))), Ins(Addi(RF, RF, R0)), Ins(Addi(RF, RF, r))]
  }

  /** `-b` in RF by one's complement plus one, as the division loop of the same file negates. */
  function Negacao(r: Arg): seq<LinhaSim> {
    [Ins(Load(R0, Valor(255))), Ins(Xor(RF, r, R0)), Ins(Load(R0, Valor(1))), Ins(Addi(RF, RF, R0))]
  }

  /**
   * The `-` case of `traduzirAtribuicao`; `corrigida` chooses the negation of
   * a variable subtrahend (the source's own lines, or `Negacao`).
   */
  function Subtracao(nomes: seq<string>, x: Instr, d: Arg, corrigida: bool): seq<LinhaSim>
    requires x.Binaria?
  {
    var a, b := x.esq, x.dir;
    var r1 := RegistradorOuValor(nomes, a);
    [Nota(" Subtração: " + x.destino + " := " + Texto(a) + " - " + Texto(b))] +
    if b.Num? then
      [Ins(Load(R0, Valor(-b.valor)))] +
      (if a.Num? then [Ins(Load(RF, Valor(a.valor))), Ins(Addi(d, RF, R0))] else [Ins(Addi(d, r1, R0))])
    else
      var r2 := RegistradorOuValor(nomes, b);
      (if corrigida then Negacao(r2) else NegacaoComoEscrita(r2)) +
      (if a.Num? then [Ins(Load(R0, Valor(a.valor))), Ins(Addi(d, R0, RF))] else [Ins(Addi(d, r1, RF))])
  }

  /** `traduzirMultiplicacao` with label number `c`. */
  function Multiplicacao(nomes: seq<string>, x: Instr, d: Arg, c: nat): seq<LinhaSim>
    requires x.Binaria?
  {
    var a, b := x.esq, x.dir;
    [Nota(" Multiplicação: " + x.destino + " := " + Texto(a) + " * " + Texto(b))] +
    if a.Num? && b.Num? then [Ins(Load(d, Valor(a.valor * b.valor)))]
    else
      var multiplicando := if a.Num? then Registrador(nomes, b.nome) else Registrador(nomes, a.nome);
      if a.Num? || b.Num? then
        var m := if a.Num? then a.valor else b.valor;
        [Ins(Load(RE, Valor(m))), Ins(Load(d, Valor(0))), Ins(Load(RD, Valor(-1))), Ins(Load(R0, Valor(0))),
         Def(LoopMul(c)), Ins(JmpEQ(RE, R0, FimMul(c))), Ins(Addi(d, d, multiplicando)), Ins(Addi(RE, RE, RD)),
         Ins(Jmp(LoopMul(c))), Def(FimMul(c))]
      else
        [Ins(Load(d, Valor(0))), Ins(Move(RF, Registrador(nomes, b.nome))), Ins(Load(RD, Valor(-1))), Ins(Load(R0, Valor(0))),
         Def(LoopMul(c)), Ins(JmpEQ(RF, R0, FimMul(c))), Ins(Addi(d, d, multiplicando)), Ins(Addi(RF, RF, RD)),
         Ins(Jmp(LoopMul(c))), Def(FimMul(c))]
  }

  /** Quotient 0, `RD` = -1, and `RB` = -`RE` by mask, xor and increment. */
  function InicioDivisao(d: Arg): seq<LinhaSim> {
    [Ins(Load(d, Valor(0))), Ins(Load(RD, Valor(-1))),
     Nota(" Calcular negativo do divisor para subtração"),
     Ins(Load(RC, Valor(255))), Ins(Xor(RC, RE, RC)), Ins(Move(RB, RC)), Ins(Load(RC, Valor(1))), Ins(Addi(RB, RB, RC))]
  }

  /** The loop head: leave for `Fim_Div_c` once `RF - (RE - 1) <= 0`. */
  function TesteDivisao(c: nat): seq<LinhaSim> {
    [Def(LoopDiv(c)),
     Nota(" Verificar se dividendo < divisor"),
     Nota(" Se dividendo <= (divisor - 1), então dividendo < divisor"),
     Ins(Move(RA, RE)), Ins(Load(RC, Valor(-1))), Ins(Addi(RA, RA, RC)),
     Nota(" Calcular diferença: dividendo - (divisor - 1)"),
     Ins(Load(RC, Valor(-1))), Ins(Addi(RC, RA, RC)), Ins(Addi(RC, RF, RC)), Ins(Load(R0, Valor(0))),
     Ins(JmpLE(RC, R0, FimDiv(c)))]
  }

  /** The loop body and its exit label. */
  function PassoDivisao(d: Arg, c: nat): seq<LinhaSim> {
    [Nota(" dividendo >= divisor: subtrai e incrementa quociente"),
     Ins(Addi(RF, RF, RB)), Ins(Load(RC, Valor(1))), Ins(Addi(d, d, RC)), Ins(Jmp(LoopDiv(c))),
     Def(FimDiv(c)),
     Nota(" " + TextoArg(d) + " contém o quociente"),
     Nota(" RF contém o resto (não usado)")]
  }

  /** The run-time division-by-zero handler, jumped over by the loop. */
  function ErroDivisao(d: Arg, c: nat): seq<LinhaSim> {
    [Ins(Jmp(FimDivSkip(c))), Def(ErroDiv(c)), Nota(" Divisão por zero detectada em tempo de execução"),
     Ins(Load(d, Valor(0))), Def(FimDivSkip(c))]
  }

  /** The dividend into `RF` and the divisor into `RE`. */
  function CargaDivisao(nomes: seq<string>, a: Operando, b: Operando): seq<LinhaSim> {
    (if a.Num? then [Ins(Load(RF, Valor(a.valor)))] else [Ins(Move(RF, Registrador(nomes, a.nome)))]) +
    (if b.Num? then [Ins(Load(RE, Valor(b.valor)))] else [Ins(Move(RE, Registrador(nomes, b.nome)))])
  }

  /** The repeated-subtraction loop of `traduzirDivisao`: dividend in `RF`, divisor in `RE`. */
  function LacoDivisao(nomes: seq<string>, x: Instr, d: Arg, c: nat): seq<LinhaSim>
    requires x.Binaria?
  {
    CargaDivisao(nomes, x.esq, x.dir) + InicioDivisao(d) + (TesteDivisao(c) + PassoDivisao(d, c)) +
    (if x.dir.Num? then [] else ErroDivisao(d, c))
  }

  /** `traduzirDivisao` with label number `c`; `Math.floor` of two unsigned constants is `/`. */
  function Divisao(nomes: seq<string>, x: Instr, d: Arg, c: nat): seq<LinhaSim>
    requires x.Binaria?
  {
    [Nota(" Divisão: " + x.destino + " := " + Texto(x.esq) + " / " + Texto(x.dir))] +
    if x.dir == Num(0) then DivisaoPorZero(d)
    else TesteDivisor(nomes, x.dir, c) + CorpoDivisao(nomes, x, d, c)
  }

  /** A constant divisor `0`: a comment and `d := 0`. */
  function DivisaoPorZero(d: Arg): seq<LinhaSim> {
    [Nota(" ERRO: Divisão por zero detectada!"), Ins(Load(d, Valor(0)))]
  }

  /** A divisor held in a register is compared with `0` first. */
  function TesteDivisor(nomes: seq<string>, b: Operando, c: nat): seq<LinhaSim> {
    if b.Num? then [] else [Ins(Load(R0, Valor(0))), Ins(JmpEQ(Registrador(nomes, b.nome), R0, ErroDiv(c)))]
  }

  /** Two constants are divided here; otherwise the subtraction loop. */
  function CorpoDivisao(nomes: seq<string>, x: Instr, d: Arg, c: nat): seq<LinhaSim>
    requires x.Binaria? && x.dir != Num(0)
  {
    if x.esq.Num? && x.dir.Num? then [Ins(Load(d, Valor(x.esq.valor / x.dir.valor)))] else LacoDivisao(nomes, x, d, c)
  }

  /** `traduzirAtribuicao`: the lines and the next label number. */
  function Atribuicao(nomes: seq<string>, x: Instr, c: nat): (seq<LinhaSim>, nat)
    requires Atribui(x)
  {
    var d := Registrador(nomes, x.destino);
    if x.Copia? then
      if x.fonte.Num? then ([Ins(Load(d, Valor(x.fonte.valor)))], c)
      else ([Ins(Move(d, Registrador(nomes, x.fonte.nome)))], c)
    else if !Reconhecida(x) then
      ([Nota(" EXPRESSÃO NÃO RECONHECIDA: " + TextoExpressao(x)), Ins(Load(d, Valor(0)))], c)
    else
      match x.op
      case Mais => (Adicao(nomes, x, d), c)
      case Menos => (Subtracao(nomes, x, d, true), c)
      case Vezes => (Multiplicacao(nomes, x, d, c), c + 1)
      case Dividido => (Divisao(nomes, x, d, c), c + 1)
  }

  // ------------------------------------------------------- conditional jumps

  function TextoCondicao(x: Instr): string
    requires x.SeVaPara?
  {
    Texto(x.esq) + " " + TextoRel(x.rel) + " " + Texto(x.dir)
  }

  /** `traduzirSaltoCondicional`, `sufixo` the random part of the `Pular_` label. */
  function Salto(nomes: seq<string>, x: Instr, sufixo: string): seq<LinhaSim>
    requires x.SeVaPara?
  {
    if !Reconhecida(x) then
      [Nota(" CONDIÇÃO NÃO RECONHECIDA: " + TextoCondicao(x)), Ins(Jmp(Rot(x.alvo)))]
    else
      [Nota(" if " + TextoCondicao(x) + " goto " + x.alvo)] +
      match x.rel
      case MaiorIgual => SaltoMaiorIgual(nomes, x.esq, x.dir, x.alvo, Pular(x.alvo, sufixo))
      case MenorIgual => SaltoMenorIgual(nomes, x.esq, x.dir, x.alvo)
      case Igual => SaltoIgual(nomes, x.esq, x.dir, x.alvo)
      case _ => [Nota(" OPERADOR DE COMPARAÇÃO NÃO IMPLEMENTADO: " + TextoRel(x.rel)), Ins(Jmp(Rot(x.alvo)))]
  }

  /** `a >= b` as `b - 1 <= a`, through the skip label `p`. */
  function SaltoMaiorIgual(nomes: seq<string>, a: Operando, b: Operando, l: string, p: Alvo): seq<LinhaSim> {
    var r1, r2 := RegistradorOuValor(nomes, a), RegistradorOuValor(nomes, b);
    (if b.Num? then
       [Ins(Load(R0, Valor(b.valor - 1)))] +
       (if a.Num? then [Ins(Load(RF, Valor(a.valor))), Ins(JmpLE(RF, R0, p))] else [Ins(JmpLE(r1, R0, p))])
     else
       [Nota(" Comparação complexa " + Texto(a) + " >= " + Texto(b)), Ins(Load(R0, Valor(-1)))] +
       (if a.Num? then [Ins(Load(RF, Valor(a.valor))), Ins(Addi(RF, r2, R0)), Ins(JmpLE(RF, R0, p))]
        else [Ins(Addi(R0, r2, R0)), Ins(JmpLE(r1, R0, p))])) +
    [Ins(Jmp(Rot(l))), Def(p)]
  }

  /** `a <= b` against a constant; between two names only a plain jump. */
  function SaltoMenorIgual(nomes: seq<string>, a: Operando, b: Operando, l: string): seq<LinhaSim> {
    if b.Num? then
      [Ins(Load(R0, Valor(b.valor)))] +
      (if a.Num? then [Ins(Load(RF, Valor(a.valor))), Ins(JmpLE(RF, R0, Rot(l)))]
       else [Ins(JmpLE(RegistradorOuValor(nomes, a), R0, Rot(l)))])
    else [Nota(" Comparação entre variáveis " + Texto(a) + " <= " + Texto(b)), Ins(Jmp(Rot(l)))]
  }

  /** `a == b` against a constant; between two names only a plain jump. */
  function SaltoIgual(nomes: seq<string>, a: Operando, b: Operando, l: string): seq<LinhaSim> {
    if b.Num? then
      [Ins(Load(R0, Valor(b.valor)))] +
      (if a.Num? then [Ins(Load(RF, Valor(a.valor))), Ins(JmpEQ(RF, R0, Rot(l)))]
       else [Ins(JmpEQ(RegistradorOuValor(nomes, a), R0, Rot(l)))])
    else [Nota(" Comparação entre variáveis " + Texto(a) + " == " + Texto(b)), Ins(Jmp(Rot(l)))]
  }

  // ---------------------------------------------------------- second pass

  function Chamada(f: string, args: seq<Operando>): seq<LinhaSim> {
    [Nota(" Chamada de função: " + f)] +
    (if args == [] then [] else [Nota(" Argumentos: " + TextoArgumentos(args))]) +
    [Ins(Call(f))]
  }

  function Retorno(nomes: seq<string>, v: Option<Operando>): seq<LinhaSim> {
    (if v.Some? then [Nota(" Retornar valor: " + Texto(v.value)), Ins(Move(RF, RegistradorOuValor(nomes, v.value)))] else []) +
    [Ins(Halt)]
  }

  /** One line of the second pass, at index `i` with label number `c`. */
  function TraduzLinha(nomes: seq<string>, l: Linha, i: nat, c: nat, aleatorio: nat -> string): (seq<LinhaSim>, nat) {
    match l
    case EmBranco => ([Vazia], c)
    case Comentario(t) => ([Nota(t)], c)
    case Codigo(x) =>
      if x.Rotulo? then ([Def(Rot(x.nome))], c)
      else if Atribui(x) then Atribuicao(nomes, x, c)
      else if x.SeVaPara? then (Salto(nomes, x, aleatorio(i)), c)
      else if x.VaPara? then ([Ins(Jmp(Rot(x.alvo)))], c)
      else if x.Chama? then (Chamada(x.funcao, x.argumentos), c)
      else (Retorno(nomes, x.valor), c)
  }

  /** The second pass from line `i` with label number `c`. */
  function Corpo(nomes: seq<string>, codigo: seq<Linha>, i: nat, c: nat, aleatorio: nat -> string): seq<LinhaSim>
    requires i <= |codigo|
    decreases |codigo| - i
  {
    if i == |codigo| then []
    else
      var (ls, c') := TraduzLinha(nomes, codigo[i], i, c, aleatorio);
      ls + Corpo(nomes, codigo, i + 1, c', aleatorio)
  }

  datatype Traducao = Traducao(codigo: seq<LinhaSim>, mapeamento: seq<string>, informacoes: string)

  const NadaATraduzir := "Nenhum código intermediário para traduzir."

  /** The lines before the final `halt` test. */
  function Montagem(nomes: seq<string>, codigo: seq<Linha>, aleatorio: nat -> string): seq<LinhaSim> {
    Cabecalho + LinhasDoMapa(nomes) + [Vazia] + Corpo(nomes, codigo, 0, 1, aleatorio)
  }

  /** An empty line and `halt` are appended when no line mentions `halt`. */
  function ComHalt(saida: seq<LinhaSim>): seq<LinhaSim> {
    if TemHalt(saida) then saida else saida + [Vazia, Ins(Halt)]
  }

  /** `traduzirParaSimpSIM` */
  function Traduzir(codigo: seq<Linha>, aleatorio: nat -> string): Traducao {
    if codigo == [] then Traducao([], [], NadaATraduzir)
    else
      var nomes := Mapeamento(codigo);
      var saida := Montagem(nomes, codigo, aleatorio);
      Traducao(ComHalt(saida), nomes,
               "Tradução concluída. " + Decimal(|nomes|) + " variáveis mapeadas.")
  }
}
