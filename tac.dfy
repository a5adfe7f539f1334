/**
 * Three-address instructions as read by the optimiser and by the two SimpSIM
 * translators.  The source keeps them as text lines; here each line form is
 * one constructor:
 *
 *   Binaria   `d := a op b`            Copia    `d := v`
 *   SeVaPara  `if a rel b goto L`      VaPara   `goto L`
 *   Rotulo    `L:`                     Chama    `call f` / `call f(a, b)`
 *   Retorna   `return` / `return v`
 *
 * Names (variables, temporaries, labels, functions) are identifiers
 * `[a-zA-Z_][a-zA-Z0-9_]*` other than the words `if`, `goto`, `call` and
 * `return`; under that reading a whole-word or prefix test on the text of a
 * line becomes a test on these fields.  Constants are integers.
 */
module Tac {
  import opened Wrappers
  import opened Tokens

  datatype Operando = Nome(nome: string) | Num(valor: int)

  datatype Op = Mais | Menos | Vezes | Dividido

  datatype Rel = Igual | Diferente | Menor | MenorIgual | Maior | MaiorIgual

  datatype Instr =
    | Binaria(destino: string, esq: Operando, op: Op, dir: Operando)
    | Copia(destino: string, fonte: Operando)
    | SeVaPara(esq: Operando, rel: Rel, dir: Operando, alvo: string)
    | VaPara(alvo: string)
    | Rotulo(nome: string)
    | Chama(funcao: string, argumentos: seq<Operando>)
    | Retorna(valor: Option<Operando>)

  /** A line given to the translators: an instruction, `;texto` or an empty line. */
  datatype Linha = Codigo(instr: Instr) | Comentario(texto: string) | EmBranco

  /** A destination is written first: `d := ...`. */
  predicate Atribui(x: Instr) {
    x.Binaria? || x.Copia?
  }

  predicate Salta(x: Instr) {
    x.VaPara? || x.SeVaPara?
  }

  /** `\d+`: a constant written without a sign. */
  predicate EhNumeral(o: Operando) {
    o.Num? && o.valor >= 0
  }

  /** `\w+`: a name or an unsigned constant; a negative constant is not one word. */
  predicate EhPalavra(o: Operando) {
    o.Nome? || EhNumeral(o)
  }

  function Digito(d: nat): char
    requires d < 10
  {
    "0123456789"[d]
  }

  /** The decimal text of `n >= 0`, without leading zeros. */
  function Digitos(n: nat): (s: string)
    ensures |s| > 0
    ensures forall k :: 0 <= k < |s| ==> IsAsciiDigit(s[k])
  {
    if n < 10 then [Digito(n)] else Digitos(n / 10) + [Digito(n % 10)]
  }

  /** How JavaScript prints an integer. */
  function Decimal(n: int): string {
    if n < 0 then "-" + Digitos(-n) else Digitos(n)
  }

  function Texto(o: Operando): string {
    match o
    case Nome(s) => s
    case Num(n) => Decimal(n)
  }

  function TextoOp(op: Op): string {
    match op
    case Mais => "+"
    case Menos => "-"
    case Vezes => "*"
    case Dividido => "/"
  }

  function TextoRel(r: Rel): string {
    match r
    case Igual => "=="
    case Diferente => "!="
    case Menor => "<"
    case MenorIgual => "<="
    case Maior => ">"
    case MaiorIgual => ">="
  }

  /** The arguments of `call f(a, b)` as written between the parentheses. */
  function TextoArgumentos(os: seq<Operando>): string {
    if os == [] then ""
    else if |os| == 1 then Texto(os[0])
    else Texto(os[0]) + ", " + TextoArgumentos(os[1..])
  }

  /** The line as the optimiser writes it. */
  function Escrita(x: Instr): string {
    match x
    case Binaria(d, a, op, b) => d + " := " + Texto(a) + " " + TextoOp(op) + " " + Texto(b)
    case Copia(d, v) => d + " := " + Texto(v)
    case SeVaPara(a, r, b, l) => "if " + Texto(a) + " " + TextoRel(r) + " " + Texto(b) + " goto " + l
    case VaPara(l) => "goto " + l
    case Rotulo(l) => l + ":"
    case Chama(f, args) => "call " + f + (if args == [] then "" else "(" + TextoArgumentos(args) + ")")
    case Retorna(v) => "return" + (if v.Some? then " " + Texto(v.value) else "")
  }

  /** The words an operand contributes to its line: a name is one, a constant none. */
  function PalavrasDe(o: Operando): seq<string> {
    if o.Nome? then [o.nome] else []
  }

  function PalavrasDeTodos(os: seq<Operando>): seq<string> {
    if os == [] then [] else PalavrasDe(os[0]) + PalavrasDeTodos(os[1..])
  }

  /** The identifier-like words of a line's text, left to right, keywords included. */
  function Palavras(x: Instr): seq<string> {
    match x
    case Binaria(d, a, _, b) => [d] + PalavrasDe(a) + PalavrasDe(b)
    case Copia(d, v) => [d] + PalavrasDe(v)
    case SeVaPara(a, _, b, l) => ["if"] + PalavrasDe(a) + PalavrasDe(b) + ["goto", l]
    case VaPara(l) => ["goto", l]
    case Rotulo(l) => [l]
    case Chama(f, args) => ["call", f] + PalavrasDeTodos(args)
    case Retorna(v) => ["return"] + (if v.Some? then PalavrasDe(v.value) else [])
  }

  /** `\b[a-zA-Z_]\w*\b` over raw text: the runs of word characters that begin with a letter or `_`. */
  function PalavrasTexto(s: string): seq<string>
    decreases |s|
  {
    if s == [] then []
    else if !IsWordChar(s[0]) then PalavrasTexto(s[1..])
    else
      var e := FimPalavra(s, 0);
      (if IsAsciiLetter(s[0]) || s[0] == '_' then [s[..e]] else []) + PalavrasTexto(s[e..])
  }

  function FimPalavra(s: string, p: nat): (e: nat)
    requires p < |s| && IsWordChar(s[p])
    ensures p < e <= |s|
    ensures forall k :: p <= k < e ==> IsWordChar(s[k])
    ensures e < |s| ==> !IsWordChar(s[e])
    decreases |s| - p
  {
    if p + 1 < |s| && IsWordChar(s[p + 1]) then FimPalavra(s, p + 1) else p + 1
  }
}
