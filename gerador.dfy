/**
 * The memory-based SimpSIM generator of `geradorAssemblySimpSIM.js`:
 * three-address lines to SimpSIM assembly where every name lives in a
 * memory cell `[x]` and the code computes in the scratch registers.
 *
 * The output is a list of lines joined by newlines.  It is a data section
 * with the constants `ZERO`, `UM` and `MASCARA_NEG` and one `x db 0` per
 * name, then `main:`, one block per input line (each preceded by the line
 * itself as a comment), the end of the program `fim_programa:` / `halt`,
 * and the division and multiplication subroutines.  Names get addresses
 * `0x20`, `0x21`, … in order of first appearance, and each label of the
 * input is recorded with the index of its line in the list.
 *
 * Assembly lines are values of `LinhaAsm`; `TextoLinha` renders one as the
 * source writes it.
 */
module GeradorAssembly {
  import opened Wrappers
  import opened Tokens
  import opened Tac
  import opened Insercao

  // ---------------------------------------------------- registers and lines

  /** `R0` … `R9`, `RA` … `RF`, by the digit after the `R`. */
  datatype Reg = Reg(digito: char)

  const R0 := Reg('0')
  const R1 := Reg('1')
  const R2 := Reg('2')
  const R3 := Reg('3')
  const R4 := Reg('4')
  const R5 := Reg('5')
  const R6 := Reg('6')
  const R7 := Reg('7')
  const R8 := Reg('8')
  const R9 := Reg('9')
  const RA := Reg('A')
  const RF := Reg('F')

  /** What `load` reads: a decimal constant, a hexadecimal constant or the cell of a name. */
  datatype Fonte = Imediato(v: nat) | Hexa(h: nat) | Celula(nome: string)

  datatype InstrAsm =
    | Load(r: Reg, f: Fonte)
    | Store(r: Reg, nome: string)
    | Move(r: Reg, s: Reg)
    | Addi(r: Reg, a: Reg, b: Reg)
    | Xor(r: Reg, a: Reg, b: Reg)
    | And(r: Reg, a: Reg, b: Reg)
    | Jmp(l: string)
    | JmpEQ(a: Reg, b: Reg, l: string)
    | JmpLE(a: Reg, b: Reg, l: string)
    | Halt

  datatype LinhaAsm =
    | Fixa(texto: string)      // a line written as it is
    | Org(endereco: nat)       // `org 0x…`
    | Dado(nome: string)       // `nome db 0`
    | Def(rotulo: string)      // `rotulo:`
    | Ins(instr: InstrAsm)     // an indented instruction
    | Nota(texto: string)      // `    ; texto`
    | Copiada(texto: string)   // `    texto`: a blank or comment line passed through

  function DigitoHexa(d: nat): char
    requires d < 16
  {
    "0123456789ABCDEF"[d]
  }

  /** `n.toString(16).toUpperCase()` */
  function Hexadecimal(n: nat): string {
    if n < 16 then [DigitoHexa(n)] else Hexadecimal(n / 16) + [DigitoHexa(n % 16)]
  }

  function TextoReg(r: Reg): string {
    ['R', r.digito]
  }

  function TextoFonte(f: Fonte): string {
    match f
    case Imediato(v) => Decimal(v)
    case Hexa(h) => "0x" + Hexadecimal(h)
    case Celula(x) => "[" + x + "]"
  }

  function TextoInstr(i: InstrAsm): string {
    match i
    case Load(r, f) => "load " + TextoReg(r) + ", " + TextoFonte(f)
    case Store(r, x) => "store " + TextoReg(r) + ", [" + x + "]"
    case Move(r, s) => "move " + TextoReg(r) + ", " + TextoReg(s)
    case Addi(r, a, b) => "addi " + TextoReg(r) + ", " + TextoReg(a) + ", " + TextoReg(b)
    case Xor(r, a, b) => "xor " + TextoReg(r) + ", " + TextoReg(a) + ", " + TextoReg(b)
    case And(r, a, b) => "and " + TextoReg(r) + ", " + TextoReg(a) + ", " + TextoReg(b)
    case Jmp(l) => "jmp " + l
    case JmpEQ(a, b, l) => "jmpEQ " + TextoReg(a) + "=" + TextoReg(b) + ", " + l
    case JmpLE(a, b, l) => "jmpLE " + TextoReg(a) + "<=" + TextoReg(b) + ", " + l
    case Halt => "halt"
  }

  function TextoLinha(l: LinhaAsm): string {
    match l
    case Fixa(t) => t
    case Org(n) => "org 0x" + Hexadecimal(n)
    case Dado(x) => x + " db 0"
    case Def(r) => r + ":"
    case Ins(i) => "    " + TextoInstr(i)
    case Nota(t) => "    ; " + t
    case Copiada(t) => "    " + t
  }

  function Textos(ls: seq<LinhaAsm>): (r: seq<string>)
    ensures |r| == |ls| && forall k :: 0 <= k < |ls| ==> r[k] == TextoLinha(ls[k])
  {
    seq(|ls|, k requires 0 <= k < |ls| => TextoLinha(ls[k]))
  }

  /** `linhas.join('\n')` */
  function Juntar(linhas: seq<string>): string {
    if |linhas| == 0 then ""
    else if |linhas| == 1 then linhas[0]
    else Juntar(linhas[..|linhas| - 1]) + "\n" + linhas[|linhas| - 1]
  }

  // ------------------------------------------------------------ first pass

  /** `L` followed by one or more digits: the labels of the intermediate code. */
  predicate RotuloNumerado(w: string) {
    |w| >= 2 && w[0] == 'L' && forall k :: 1 <= k < |w| ==> IsAsciiDigit(w[k])
  }

  /** `/^(if|goto|call|return|L\d+)$/`: the words that get no cell. */
  predicate Excluida(w: string) {
    w in {"if", "goto", "call", "return"} || RotuloNumerado(w)
  }

  function SemExcluidas(ws: seq<string>): (r: seq<string>)
    ensures forall k :: 0 <= k < |r| ==> !Excluida(r[k]) && r[k] in ws
    ensures forall w :: w in ws && !Excluida(w) ==> w in r
  {
    if ws == [] then []
    else (if Excluida(ws[0]) then [] else [ws[0]]) + SemExcluidas(ws[1..])
  }

  /**
   * `linha.match(/\b[a-zA-Z_]\w*\b/g)` on the raw line: the words of an
   * instruction, and the words inside a comment too; an empty line has none.
   */
  function PalavrasDaLinha(l: Linha): seq<string> {
    match l
    case EmBranco => []
    case Comentario(t) => PalavrasTexto(";" + t)
    case Codigo(x) => Palavras(x)
  }

  /** The names of line `l` that get a cell, in order. */
  function NomesDaLinha(l: Linha): seq<string> {
    SemExcluidas(PalavrasDaLinha(l))
  }

  /** The names of each line, line by line. */
  function NomesPorLinha(codigo: seq<Linha>): (r: seq<seq<string>>)
    ensures |r| == |codigo| && forall j :: 0 <= j < |codigo| ==> r[j] == NomesDaLinha(codigo[j])
  {
    seq(|codigo|, j requires 0 <= j < |codigo| => NomesDaLinha(codigo[j]))
  }

  /** `variaveisUsadas` after the loop of lines 37-46, in order of insertion. */
  function Usadas(codigo: seq<Linha>): seq<string> {
    AcrescentaDesde(NomesPorLinha(codigo), 0, [])
  }

  /** The first data address. */
  const InicioDados: nat := 0x20

  /** The first code address. */
  const InicioCodigo: nat := 0x100

  /** `variaveis` after the declaration loop: the name at position `k` at address `0x20 + k`. */
  function Enderecos(usadas: seq<string>): map<string, nat> {
    map x | x in usadas :: InicioDados + Posicao(usadas, x)
  }

  // ------------------------------------------------------- fixed sections

  /** Lines 19-33: heading, data section and the three constants. */
  const Cabecalho: seq<LinhaAsm> := [
    Fixa("; Código Assembly SimpSIM gerado pelo compilador"),
    Fixa("; Gerado automaticamente - não editar manualmente"),
    Fixa(""),
    Fixa("; === SEÇÃO DE DADOS ==="),
    Org(InicioDados),
    Fixa(""),
    Fixa("; Constantes"),
    Fixa("ZERO db 0"),
    Fixa("UM db 1"),
    Fixa("MASCARA_NEG db 0xFF"),
    Fixa("")
  ]

  /** Lines 49-54: one cell per name. */
  function Dados(usadas: seq<string>): (r: seq<LinhaAsm>)
    ensures |r| == |usadas| && forall k :: 0 <= k < |r| ==> r[k] == Dado(usadas[k])
  {
    seq(|usadas|, k requires 0 <= k < |usadas| => Dado(usadas[k]))
  }

  /** Lines 55-65: the code section up to the first translated line. */
  const Principal: seq<LinhaAsm> := [
    Fixa(""),
    Fixa("; === SEÇÃO DE CÓDIGO ==="),
    Org(InicioCodigo),
    Fixa(""),
    Def("main"),
    Nota("Inicializar R0 com zero para comparações"),
    Ins(Load(R0, Celula("ZERO"))),
    Fixa("")
  ]

  /** Everything before the first translated line. */
  function Preambulo(usadas: seq<string>): seq<LinhaAsm> {
    Cabecalho + [Fixa("; Variáveis do programa")] + Dados(usadas) + Principal
  }

  /** Lines 131-134. */
  const Final: seq<LinhaAsm> := [Fixa(""), Def("fim_programa"), Ins(Halt), Fixa("")]

  /** `adicionarSubrotinasDivisao` */
  const SubrotinaDivisao: seq<LinhaAsm> := [
    Fixa("; === SUBROTINA DE DIVISÃO ==="),
    Def("div_subroutine"),
    Nota("R3 = R3 / R4 (entrada: R3, R4; saída: R3)"),
    Nota("Verificar divisão por zero"),
    Ins(JmpEQ(R4, R0, "div_erro")),
    Fixa("    load R5, [ZERO]    ; Quociente = 0"),
    Fixa("    move R6, R3        ; Dividendo"),
    Def("div_loop"),
    Nota("Verificar se dividendo < divisor"),
    Ins(Load(R7, Celula("MASCARA_NEG"))),
    Ins(Xor(R8, R4, R7)),
    Ins(Load(R7, Celula("UM"))),
    Fixa("    addi R8, R8, R7    ; -R4"),
    Fixa("    addi R9, R6, R8    ; R6 - R4"),
    Ins(Load(R7, Hexa(0x80))),
    Ins(And(RA, R9, R7)),
    Fixa("    jmpEQ RA=R7, div_end  ; Se negativo, termina"),
    Fixa("    move R6, R9        ; Atualizar dividendo"),
    Ins(Load(R7, Celula("UM"))),
    Fixa("    addi R5, R5, R7    ; Incrementar quociente"),
    Ins(Jmp("div_loop")),
    Def("div_end"),
    Fixa("    move R3, R5        ; Resultado no R3"),
    Nota("Retornar ao código principal seria aqui"),
    Def("div_erro"),
    Fixa("    load R3, [ZERO]    ; Resultado = 0 em caso de erro"),
    Nota("Tratar erro de divisão por zero"),
    Fixa("")
  ]

  /** `adicionarSubrotinasMultiplicacao` */
  const SubrotinaMultiplicacao: seq<LinhaAsm> := [
    Fixa("; === SUBROTINA DE MULTIPLICAÇÃO ==="),
    Def("mult_subroutine"),
    Nota("R3 = R3 * R4 (entrada: R3, R4; saída: R3)"),
    Fixa("    load R5, [ZERO]    ; Resultado = 0"),
    Fixa("    load R6, [ZERO]    ; Contador = 0"),
    Def("mult_loop"),
    Ins(JmpEQ(R6, R4, "mult_end")),
    Ins(Addi(R5, R5, R3)),
    Ins(Load(R7, Celula("UM"))),
    Ins(Addi(R6, R6, R7)),
    Ins(Jmp("mult_loop")),
    Def("mult_end"),
    Ins(Move(R3, R5)),
    Nota("Retornar ao código principal seria aqui"),
    Fixa("")
  ]

  /** Everything after the last translated line. */
  function Epilogo(): seq<LinhaAsm> {
    Final + SubrotinaDivisao + SubrotinaMultiplicacao
  }

  // ------------------------------------------------------------ assignments

  /** `load r, v` for a constant matching `\d+`, `load r, [x]` for anything else. */
  function Carga(r: Reg, o: Operando): InstrAsm {
    if EhNumeral(o) then Load(r, Imediato(o.valor)) else Load(r, Celula(Texto(o)))
  }

  /** Lines 228-232 (and 183-188): R3 := R1 + (R2 xor 0xFF) + 1, with R2 negated in place. */
  const Diferenca: seq<LinhaAsm> := [
    Ins(Load(R4, Celula("MASCARA_NEG"))),
    Ins(Xor(R2, R2, R4)),
    Ins(Load(R4, Celula("UM"))),
    Ins(Addi(R2, R2, R4)),
    Ins(Addi(R3, R1, R2))
  ]

  /** Lines 178-202: the operation, leaving the result in R3 where it is computed in place. */
  function Operacao(op: Op): seq<LinhaAsm> {
    match op
    case Mais => [Ins(Addi(R3, R1, R2))]
    case Menos => [Nota("Subtração usando complemento de 2")] + Diferenca
    case Vezes => [Nota("Multiplicação por somas sucessivas"), Ins(Move(R3, R1)), Ins(Move(R4, R2)), Ins(Jmp("mult_subroutine"))]
    case Dividido => [Nota("Divisão por subtrações sucessivas"), Ins(Move(R3, R1)), Ins(Move(R4, R2)), Ins(Jmp("div_subroutine"))]
  }

  /**
   * `traduzirAtribuicao`: a word (`\w+`) is loaded into R1 and stored; a
   * negative constant matches neither form and is reported; `a op b` loads
   * R1 and R2, operates and stores R3.
   */
  function Atribuicao(x: Instr): seq<LinhaAsm>
    requires Atribui(x)
  {
    match x
    case Copia(d, v) =>
      if EhPalavra(v) then [Ins(Carga(R1, v)), Ins(Store(R1, d))]
      else [Nota("EXPRESSÃO NÃO TRADUZIDA: " + Texto(v))]
    case Binaria(d, a, op, b) =>
      [Ins(Carga(R1, a)), Ins(Carga(R2, b))] + Operacao(op) + [Ins(Store(R3, d))]
  }

  // ------------------------------------------------------- conditional jumps

  /** `skip_L` */
  function Pulo(l: string): string {
    "skip_" + l
  }

  /** Lines 235-265: the jump on R3 = R1 - R2. */
  function Desvio(rel: Rel, l: string): seq<LinhaAsm> {
    match rel
    case Igual => [Ins(JmpEQ(R3, R0, l))]
    case Diferente => [Ins(JmpEQ(R3, R0, Pulo(l))), Ins(Jmp(l)), Def(Pulo(l))]
    case Menor => [Ins(Load(R4, Hexa(0x80))), Ins(And(R5, R3, R4)), Ins(JmpEQ(R5, R4, l))]
    case MenorIgual => [Ins(JmpLE(R3, R0, l))]
    case Maior => [Ins(JmpLE(R3, R0, Pulo(l))), Ins(Jmp(l)), Def(Pulo(l))]
    case MaiorIgual => [Ins(Load(R4, Hexa(0x80))), Ins(And(R5, R3, R4)), Ins(JmpEQ(R5, R4, Pulo(l))), Ins(Jmp(l)), Def(Pulo(l))]
  }

  /** `traduzirSaltoCondicional` */
  function Salto(a: Operando, rel: Rel, b: Operando, l: string): seq<LinhaAsm> {
    [Ins(Carga(R1, a)), Ins(Carga(R2, b)), Nota("Calcular R1 - R2 para comparação")] + Diferenca + Desvio(rel, l)
  }

  // ------------------------------------------------------------ other lines

  /** `traduzirChamadaFuncao`: comments, then a plain jump to the function. */
  function Chamada(f: string, args: seq<Operando>): seq<LinhaAsm> {
    [Nota("Chamada de função: " + f)] +
    (if args == [] then [] else [Nota("Argumentos: " + TextoArgumentos(args))]) +
    [Ins(Jmp(f))]
  }

  /** `traduzirReturn`: the value into RF, then the end of the program. */
  function Retorno(v: Option<Operando>): seq<LinhaAsm> {
    (if v.Some? then [Ins(Carga(RF, v.value))] else []) + [Ins(Jmp("fim_programa"))]
  }

  /** What the main loop has built: the lines and `labels`. */
  datatype Traducao = Traducao(linhas: seq<LinhaAsm>, labels: map<string, nat>)

  /** The code of one instruction, after its comment; a label is the one that records itself. */
  function Bloco(x: Instr): seq<LinhaAsm> {
    match x
    case Rotulo(l) => [Def(l)]
    case Binaria(_, _, _, _) => Atribuicao(x)
    case Copia(_, _) => Atribuicao(x)
    case SeVaPara(a, rel, b, l) => Salto(a, rel, b, l)
    case VaPara(l) => [Ins(Jmp(l))]
    case Chama(f, args) => Chamada(f, args)
    case Retorna(v) => Retorno(v)
  }

  /** One turn of the loop of lines 68-128. */
  function TraduzLinha(l: Linha, t: Traducao): Traducao {
    match l
    case EmBranco => t.(linhas := t.linhas + [Copiada("")])
    case Comentario(c) => t.(linhas := t.linhas + [Copiada(";" + c)])
    case Codigo(x) =>
      var eco := t.linhas + [Nota(Escrita(x))];
      if x.Rotulo? then Traducao(eco + [Def(x.nome)], t.labels[x.nome := |eco|])
      else t.(linhas := eco + Bloco(x))
  }

  /** The loop of lines 68-128 from line `i`. */
  function TraduzDesde(codigo: seq<Linha>, i: nat, t: Traducao): Traducao
    requires i <= |codigo|
    decreases |codigo| - i
  {
    if i == |codigo| then t else TraduzDesde(codigo, i + 1, TraduzLinha(codigo[i], t))
  }

  /** The lines and the labels of a program with at least one line. */
  function Montagem(codigo: seq<Linha>): Traducao {
    var t := TraduzDesde(codigo, 0, Traducao(Preambulo(Usadas(codigo)), map[]));
    t.(linhas := t.linhas + Epilogo())
  }

  datatype Resultado = Resultado(assembly: string, variaveis: map<string, nat>, labels: map<string, nat>)

  const ProgramaVazio := "; Programa vazio\nhalt\n"

  /** `gerarAssemblySimpSIM` */
  function Gerar(codigo: seq<Linha>): Resultado {
    if codigo == [] then Resultado(ProgramaVazio, map[], map[])
    else
      var m := Montagem(codigo);
      Resultado(Juntar(Textos(m.linhas)), Enderecos(Usadas(codigo)), m.labels)
  }
}
