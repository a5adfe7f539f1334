/**
 * `gerarCodigoIntermediario` (`geradorCodigoIntermediario.js`): a single
 * pass over the tokens that recognises a few statement shapes by looking a
 * fixed number of tokens ahead, and emits three-address code.
 *
 * The code is a list of instructions, a tagged union with one case per
 * line shape the source writes.  Temporaries are `Temp(n)` (written `tn`)
 * and labels `L(n)` (written `Ln`); `Indefinido` is the label a `while`
 * entry of the label stack gives where an `if` entry's `fimIf`/`pulaElse`
 * is read (JavaScript writes it `undefined`).
 *
 * The loop body of the source is `Corpo`, one function per branch; the
 * `for` increment is added by `Passo`; `GerarDesde` runs the loop.  The
 * inner scans (`FimExpressao`, `FechaPar`, `AteFechaPar`, `ArgsDesde`,
 * `ExprDesde`) are functions of their own.
 */
module CodigoIntermediario {
  import opened Tokens

  // -------------------------------------------------------------- the code

  /** A right-hand side of a copy: a lexeme of the source or a temporary. */
  datatype Operando = Lexema(s: string) | Temp(n: nat)

  /** A label: `Ln`, or the `undefined` of a missing field. */
  datatype Rotulo = L(n: nat) | Indefinido

  datatype Instr =
    | Copia(destino: string, valor: Operando)                     // `x = v`
    | NaoInicializada(destino: string)                            // `x = 0 // variável não inicializada`
    | Binaria(temp: nat, a: string, op: string, b: string)        // `tn = a op b`
    | Parenteses(temp: nat)                                       // `tn = (expressão complexa em parênteses)`
    | SeVaPara(a: string, op: string, b: string, alvo: Rotulo)    // `if a op b goto L`
    | VaPara(alvo: Rotulo)                                        // `goto L`
    | Marca(rotulo: Rotulo)                                       // `L:`
    | SeNaoVaPara(a: string, op: string, b: string, alvo: Rotulo) // `if not (a op b) goto L`
    | Param(argumento: string)                                     // `param v`
    | Chamada(temp: nat, funcao: string, n: nat)                  // `tn = call f, n`

  /** An entry of `pilhaRotulos`: pushed by `se` and by `enquanto`. */
  datatype Entrada = DeSe(pulaElse: nat, fimIf: nat) | DeEnquanto(inicio: nat, fim: nat)

  /** `rotulos.pulaElse`. */
  function PulaElse(e: Entrada): Rotulo {
    if e.DeSe? then L(e.pulaElse) else Indefinido
  }

  /** `rotulos.fimIf`. */
  function FimIf(e: Entrada): Rotulo {
    if e.DeSe? then L(e.fimIf) else Indefinido
  }

  /** The state of the loop: the cursor, the code, the two counters and the label stack. */
  datatype Geracao = Geracao(i: nat, codigo: seq<Instr>, temp: nat, rotulo: nat, pilha: seq<Entrada>)

  /** What the function returns. */
  datatype Saida = Saida(codigo: seq<Instr>, erros: seq<string>)

  const SemTokens := "Nenhum token para gerar código intermediário"

  // ------------------------------------------------------------ tokens

  /** `ehOperador`. */
  predicate EhOperador(k: Kind) {
    k == TSoma || k == TSubtracao || k == TMultiplicacao || k == TDivisao
  }

  /** `converterOperador`. */
  function Operador(k: Kind): string {
    match k
    case TSoma => "+"
    case TSubtracao => "-"
    case TMultiplicacao => "*"
    case TDivisao => "/"
    case TMenor => "<"
    case TMaior => ">"
    case TIgualdade => "=="
    case TMenorIgual => "<="
    case TMaiorIgual => ">="
    case _ => ""
  }

  /** The kinds taken as a value by an initialiser and as an argument by a call. */
  predicate EhValor(k: Kind) {
    k == TNum || k == TNumDecimal || k == TString || k == TIdentificador
  }

  /** `tipo.startsWith('t_')`: every kind but the parsers' end marker. */
  predicate ComecaComT(k: Kind) {
    k != TEnd
  }

  // ------------------------------------------------------------ scans

  /** The loop of lines 76-78: the first `;` at or after `j`, or the end. */
  function FimExpressao(ts: seq<Token>, j: nat): (k: nat)
    requires j <= |ts|
    ensures j <= k <= |ts| && (k < |ts| ==> ts[k].kind == TPv)
    ensures forall m :: j <= m < k ==> ts[m].kind != TPv
    decreases |ts| - j
  {
    if j < |ts| && ts[j].kind != TPv then FimExpressao(ts, j + 1) else j
  }

  /** The loop of lines 98-102: past the parenthesis that closes, or up to `fim`. */
  function FechaPar(ts: seq<Token>, j: nat, fim: nat, contador: int): (k: nat)
    requires j <= fim <= |ts|
    ensures j <= k <= fim
    decreases fim - j
  {
    if j < fim && contador > 0 then
      var c := contador + (if ts[j].kind == TAbrePar then 1 else 0) - (if ts[j].kind == TFechaPar then 1 else 0);
      FechaPar(ts, j + 1, fim, c)
    else j
  }

  /** The loops of lines 156-158 and 193-195: the first `)` at or after `i`, or `i` when past the end. */
  function AteFechaPar(ts: seq<Token>, i: nat): (k: nat)
    ensures i <= k && (k < |ts| ==> ts[k].kind == TFechaPar)
    ensures i <= |ts| ==> k <= |ts|
    ensures forall m :: i <= m < k ==> m < |ts| && ts[m].kind != TFechaPar
    decreases |ts| - i
  {
    if i < |ts| && ts[i].kind != TFechaPar then AteFechaPar(ts, i + 1) else i
  }

  /** Where the argument scan of a call stands, and the values collected. */
  datatype Args = Args(j: nat, valores: seq<string>)

  /** The loop of lines 205-210: the values up to the first `)`. */
  function ArgsDesde(ts: seq<Token>, a: Args): (r: Args)
    ensures a.j <= r.j && a.valores <= r.valores
    ensures a.j <= |ts| ==> r.j <= |ts|
    decreases |ts| - a.j
  {
    if a.j < |ts| && ts[a.j].kind != TFechaPar then
      if EhValor(ts[a.j].kind) then ArgsDesde(ts, Args(a.j + 1, a.valores + [ts[a.j].lexeme]))
      else ArgsDesde(ts, Args(a.j + 1, a.valores))
    else a
  }

  /** The `param` lines of a call. */
  function Params(valores: seq<string>): (r: seq<Instr>)
    ensures |r| == |valores| && forall k :: 0 <= k < |r| ==> r[k] == Param(valores[k])
  {
    seq(|valores|, k requires 0 <= k < |valores| => Param(valores[k]))
  }

  /** Where the scan of an expression stands, the code so far and the temporary counter. */
  datatype Trecho = Trecho(j: nat, codigo: seq<Instr>, temp: nat)

  /** One turn of the loop of lines 90-127: a parenthesis, an operation `a op b`, or one token skipped. */
  function PassoExpr(ts: seq<Token>, fim: nat, t: Trecho): (r: Trecho)
    requires t.j < fim <= |ts|
    ensures t.j < r.j <= fim && t.temp <= r.temp && t.codigo <= r.codigo
  {
    if ts[t.j].kind == TAbrePar then
      var k := FechaPar(ts, t.j + 1, fim, 1);
      if k - 1 > t.j + 1 then Trecho(k, t.codigo + [Parenteses(t.temp)], t.temp + 1)
      else t.(j := k)
    else if t.j + 2 < fim && EhOperador(ts[t.j + 1].kind) then
      Trecho(t.j + 3, t.codigo + [Binaria(t.temp, ts[t.j].lexeme, Operador(ts[t.j + 1].kind), ts[t.j + 2].lexeme)], t.temp + 1)
    else t.(j := t.j + 1)
  }

  /** The loop of lines 90-127 over the tokens of a right-hand side. */
  function ExprDesde(ts: seq<Token>, fim: nat, t: Trecho): (r: Trecho)
    requires t.j <= fim <= |ts|
    ensures r.j == fim && t.temp <= r.temp && t.codigo <= r.codigo
    decreases fim - t.j
  {
    if t.j >= fim then t else ExprDesde(ts, fim, PassoExpr(ts, fim, t))
  }

  // ---------------------------------------------------------- branches

  /** Lines 49-66: `variavel x : T` with or without `= v`. */
  function DeclaracaoVariavel(ts: seq<Token>, g: Geracao): (r: Geracao)
    requires g.i + 3 < |ts|
    ensures r.temp == g.temp && r.rotulo == g.rotulo && r.pilha == g.pilha
    ensures g.i < r.i <= |ts| && g.codigo <= r.codigo
  {
    var x := ts[g.i + 1].lexeme;
    if g.i + 5 < |ts| && ts[g.i + 3].kind == TAtribuicao then
      var v := ts[g.i + 4];
      g.(i := g.i + 4, codigo := g.codigo + (if EhValor(v.kind) then [Copia(x, Lexema(v.lexeme))] else []))
    else g.(i := g.i + 2, codigo := g.codigo + [NaoInicializada(x)])
  }

  /** Lines 69-135: `x = ... ;`. */
  function Atribuicao(ts: seq<Token>, g: Geracao): (r: Geracao)
    requires g.i + 2 < |ts|
    ensures r.rotulo == g.rotulo && r.pilha == g.pilha && g.temp <= r.temp
    ensures g.i < r.i <= |ts| && g.codigo <= r.codigo
  {
    var x := ts[g.i].lexeme;
    var fim := FimExpressao(ts, g.i + 2);
    if fim - (g.i + 2) == 1 then
      g.(i := fim, codigo := g.codigo + [Copia(x, Lexema(ts[g.i + 2].lexeme))])
    else AtribuicaoComposta(ts, g, fim)
  }

  /** Lines 88-134: a right-hand side `g.i + 2 .. fim` of other than one token. */
  function AtribuicaoComposta(ts: seq<Token>, g: Geracao, fim: nat): (r: Geracao)
    requires g.i + 2 <= fim <= |ts|
    ensures r.rotulo == g.rotulo && r.pilha == g.pilha && g.temp <= r.temp
    ensures r.i == fim && g.codigo <= r.codigo
  {
    var t := ExprDesde(ts, fim, Trecho(g.i + 2, g.codigo, g.temp));
    g.(i := fim, codigo := t.codigo + CopiaFinal(ts[g.i].lexeme, g.temp, t.temp), temp := t.temp)
  }

  /** Lines 130-132: `x = tN` from the last temporary, when the right-hand side made one. */
  function CopiaFinal(x: string, antes: nat, depois: nat): seq<Instr> {
    if depois > antes then [Copia(x, Temp(depois - 1))] else []
  }

  /** The condition `a op b` three tokens from `i`, when there are three tokens. */
  predicate TemCondicao(ts: seq<Token>, i: nat) {
    i + 2 < |ts| && ComecaComT(ts[i + 1].kind)
  }

  /** Lines 138-159: `se`. */
  function Se(ts: seq<Token>, g: Geracao): (r: Geracao)
    ensures r.temp == g.temp && r.rotulo == g.rotulo + 2 && r.pilha == g.pilha + [DeSe(g.rotulo, g.rotulo + 1)]
    ensures g.i < r.i && g.codigo <= r.codigo
  {
    var i := g.i + 2;
    var cond := if TemCondicao(ts, i) then
        [SeVaPara(ts[i].lexeme, Operador(ts[i + 1].kind), ts[i + 2].lexeme, L(g.rotulo)), VaPara(L(g.rotulo + 1)), Marca(L(g.rotulo))]
      else [];
    Geracao(AteFechaPar(ts, i), g.codigo + cond, g.temp, g.rotulo + 2, g.pilha + [DeSe(g.rotulo, g.rotulo + 1)])
  }

  /** Lines 162-166: `senao` with an entry on the stack. */
  function Senao(g: Geracao): (r: Geracao)
    requires |g.pilha| > 0
    ensures r.i == g.i && r.temp == g.temp && r.rotulo == g.rotulo && r.pilha == g.pilha[..|g.pilha| - 1]
  {
    var e := g.pilha[|g.pilha| - 1];
    g.(codigo := g.codigo + [VaPara(FimIf(e)), Marca(PulaElse(e))], pilha := g.pilha[..|g.pilha| - 1])
  }

  /** Lines 169-172: `}` with an entry on the stack. */
  function FechaChave(g: Geracao): (r: Geracao)
    requires |g.pilha| > 0
    ensures r.i == g.i && r.temp == g.temp && r.rotulo == g.rotulo && r.pilha == g.pilha[..|g.pilha| - 1]
  {
    var e := g.pilha[|g.pilha| - 1];
    g.(codigo := g.codigo + [Marca(FimIf(e))], pilha := g.pilha[..|g.pilha| - 1])
  }

  /** Lines 175-196: `enquanto`. */
  function Enquanto(ts: seq<Token>, g: Geracao): (r: Geracao)
    ensures r.temp == g.temp && r.rotulo == g.rotulo + 2 && r.pilha == g.pilha + [DeEnquanto(g.rotulo, g.rotulo + 1)]
    ensures g.i < r.i && g.codigo <= r.codigo
  {
    var i := g.i + 2;
    var cond := if TemCondicao(ts, i) then
        [SeNaoVaPara(ts[i].lexeme, Operador(ts[i + 1].kind), ts[i + 2].lexeme, L(g.rotulo + 1))]
      else [];
    Geracao(AteFechaPar(ts, i), g.codigo + [Marca(L(g.rotulo))] + cond, g.temp, g.rotulo + 2,
            g.pilha + [DeEnquanto(g.rotulo, g.rotulo + 1)])
  }

  /** Lines 199-221: `f ( ... )`. */
  function ChamadaFuncao(ts: seq<Token>, g: Geracao): (r: Geracao)
    requires g.i + 1 < |ts|
    ensures r.temp == g.temp + 1 && r.rotulo == g.rotulo && r.pilha == g.pilha
    ensures g.i < r.i <= |ts| && g.codigo <= r.codigo
  {
    var a := ArgsDesde(ts, Args(g.i + 2, []));
    g.(i := a.j, codigo := g.codigo + Params(a.valores) + [Chamada(g.temp, ts[g.i].lexeme, |a.valores|)], temp := g.temp + 1)
  }

  // ------------------------------------------------------------- loop

  /** The guard of the assignment branch. */
  predicate EhAtribuicao(ts: seq<Token>, i: nat) {
    i + 2 < |ts| && ts[i].kind == TIdentificador && ts[i + 1].kind == TAtribuicao
  }

  /** The guard of the call branch. */
  predicate EhChamada(ts: seq<Token>, i: nat) {
    i + 1 < |ts| && ts[i].kind == TIdentificador && ts[i + 1].kind == TAbrePar
  }

  /** The body of the `for` loop: the first branch whose guard holds. */
  function Corpo(ts: seq<Token>, g: Geracao): (r: Geracao)
    requires g.i < |ts|
    ensures g.i <= r.i && g.codigo <= r.codigo && g.temp <= r.temp && g.rotulo <= r.rotulo
  {
    var k := ts[g.i].kind;
    if k == TVariavel && g.i + 3 < |ts| then DeclaracaoVariavel(ts, g)
    else if EhAtribuicao(ts, g.i) then Atribuicao(ts, g)
    else if k == TSe then Se(ts, g)
    else if k == TSenao && |g.pilha| > 0 then Senao(g)
    else if k == TFechaChave && |g.pilha| > 0 then FechaChave(g)
    else if k == TEnquanto then Enquanto(ts, g)
    else if EhChamada(ts, g.i) then ChamadaFuncao(ts, g)
    else g
  }

  /** One turn of the loop: the body, then `i++`. */
  function Passo(ts: seq<Token>, g: Geracao): (r: Geracao)
    requires g.i < |ts|
    ensures g.i < r.i
  {
    var b := Corpo(ts, g);
    b.(i := b.i + 1)
  }

  /** The `for` loop from the state `g` on. */
  function GerarDesde(ts: seq<Token>, g: Geracao): (r: Geracao)
    ensures g.codigo <= r.codigo && g.temp <= r.temp && g.rotulo <= r.rotulo
    decreases |ts| - g.i
  {
    if g.i < |ts| then GerarDesde(ts, Passo(ts, g)) else g
  }

  /** The state before the loop. */
  function Inicio(): Geracao {
    Geracao(0, [], 0, 0, [])
  }

  /** `gerarCodigoIntermediario`: no tokens is the one error; otherwise the code of the loop and no error. */
  function Gerar(ts: seq<Token>): (r: Saida)
    ensures ts == [] ==> r.codigo == [] && r.erros == [SemTokens]
    ensures ts != [] ==> r.erros == []
  {
    if ts == [] then Saida([], [SemTokens])
    else Saida(GerarDesde(ts, Inicio()).codigo, [])
  }
}
