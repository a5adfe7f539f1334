/**
 * The optimiser of `otimizadorCodigo.js`: seven rewrite passes over a list
 * of three-address instructions, run in rounds until a round leaves the
 * length unchanged or ten rounds have run.
 *
 * Each pass is a function following its loop index by index (a removal keeps
 * the index where it is, as the source's `splice` followed by `i--` does).
 * Passes 4 and 6 can throw a TypeError in the source; they answer `None`
 * there.  `OtimizadorExec` holds the loops themselves, proved equal to these
 * functions; `OtimizadorProps` the properties.
 */
module Otimizador {
  import opened Wrappers
  import opened Tokens
  import opened Tac

  function Remove<T>(r: seq<T>, i: nat): (s: seq<T>)
    requires i < |r|
    ensures |s| == |r| - 1
    ensures forall k :: 0 <= k < i ==> s[k] == r[k]
    ensures forall k :: i <= k < |s| ==> s[k] == r[k + 1]
  {
    r[..i] + r[i + 1..]
  }

  /** `Map.set` on an insertion-ordered map: a known key keeps its place. */
  function Atualiza<K(==), V>(m: seq<(K, V)>, k: K, v: V): (r: seq<(K, V)>)
    ensures |r| == |m| || |r| == |m| + 1
    ensures forall j :: 0 <= j < |m| ==> r[j].0 == m[j].0
  {
    if m == [] then [(k, v)]
    else if m[0].0 == k then [(k, v)] + m[1..]
    else [m[0]] + Atualiza(m[1..], k, v)
  }

  /** `t\d+` */
  predicate EhTemp(s: string) {
    |s| >= 2 && s[0] == 't' && forall k :: 1 <= k < |s| ==> IsAsciiDigit(s[k])
  }

  /** `[a-zA-Z][a-zA-Z0-9_]*` */
  predicate EhIdentificador(s: string) {
    |s| > 0 && IsAsciiLetter(s[0]) && forall k :: 1 <= k < |s| ==> IsWordChar(s[k])
  }

  function RenomeiaOperando(o: Operando, de: string, para: string): Operando {
    if o == Nome(de) then Nome(para) else o
  }

  function RenomeiaNome(s: string, de: string, para: string): string {
    if s == de then para else s
  }

  function RenomeiaOperandos(os: seq<Operando>, de: string, para: string): (r: seq<Operando>)
    ensures |r| == |os|
  {
    seq(|os|, k requires 0 <= k < |os| => RenomeiaOperando(os[k], de, para))
  }

  /** `replace(/\bde\b/g, para)`: every name `de` in the line becomes `para`. */
  function Renomeia(x: Instr, de: string, para: string): Instr {
    match x
    case Binaria(d, a, op, b) =>
      Binaria(RenomeiaNome(d, de, para), RenomeiaOperando(a, de, para), op, RenomeiaOperando(b, de, para))
    case Copia(d, v) => Copia(RenomeiaNome(d, de, para), RenomeiaOperando(v, de, para))
    case SeVaPara(a, rel, b, l) =>
      SeVaPara(RenomeiaOperando(a, de, para), rel, RenomeiaOperando(b, de, para), RenomeiaNome(l, de, para))
    case VaPara(l) => VaPara(RenomeiaNome(l, de, para))
    case Rotulo(l) => Rotulo(RenomeiaNome(l, de, para))
    case Chama(f, args) => Chama(RenomeiaNome(f, de, para), RenomeiaOperandos(args, de, para))
    case Retorna(v) => Retorna(if v.Some? then Some(RenomeiaOperando(v.value, de, para)) else None)
  }

  function RenomeiaTodas(r: seq<Instr>, de: string, para: string): (s: seq<Instr>)
    ensures |s| == |r|
  {
    seq(|r|, k requires 0 <= k < |r| => Renomeia(r[k], de, para))
  }

  // ------------------------------------------------ 1. common subexpressions

  /** `^(t\d+) := ([^ ]+) ([\+\-\*\/]) ([^ ]+)$` */
  predicate EhExpressaoTemp(x: Instr) {
    x.Binaria? && EhTemp(x.destino)
  }

  datatype Chave = Chave(esq: Operando, op: Op, dir: Operando)

  function ChaveDe(x: Instr): Chave
    requires x.Binaria?
  {
    Chave(x.esq, x.op, x.dir)
  }

  /**
   * `eliminarSubexpressoesComuns` from index `i`, `vistas` mapping each key
   * seen so far to the temporary that first computed it.
   */
  function Subexpressoes(r: seq<Instr>, i: nat, vistas: map<Chave, string>): seq<Instr>
    requires i <= |r|
    decreases |r| - i
  {
    if i == |r| then r
    else if EhExpressaoTemp(r[i]) then
      var k := ChaveDe(r[i]);
      if k in vistas then
        Subexpressoes(r[..i] + RenomeiaTodas(r[i + 1..], r[i].destino, vistas[k]), i, vistas)
      else
        Subexpressoes(r, i + 1, vistas[k := r[i].destino])
    else
      Subexpressoes(r, i + 1, vistas)
  }

  function EliminarSubexpressoes(r: seq<Instr>): seq<Instr> {
    Subexpressoes(r, 0, map[])
  }

  // ------------------------------------------------------------ 2. dead code

  /** `linha.includes(':')`: every assignment (` := `) and every label. */
  predicate TemDoisPontos(x: Instr) {
    x.Binaria? || x.Copia? || x.Rotulo?
  }

  /** `linha.startsWith('goto')`. */
  predicate ComecaComGoto(x: Instr) {
    match x
    case VaPara(_) => true
    case Binaria(d, _, _, _) => "goto" <= d
    case Copia(d, _) => "goto" <= d
    case Rotulo(l) => "goto" <= l
    case _ => false
  }

  /** The letter-initial words of the right-hand side or of an `if` line, without `if` and `goto`. */
  function UsadasEm(x: Instr): set<string> {
    if TemDoisPontos(x) || ComecaComGoto(x) then {}
    else if x.SeVaPara? then
      set w | w in PalavrasDe(x.esq) + PalavrasDe(x.dir) + [x.alvo] && EhIdentificador(w)
    else {}
  }

  /** The first pass of `eliminarCodigoMorto` from `i`: the names used. */
  function Usadas(r: seq<Instr>, i: nat): set<string>
    requires i <= |r|
    decreases |r| - i
  {
    if i == |r| then {} else UsadasEm(r[i]) + Usadas(r, i + 1)
  }

  /**
   * The first pass from `i`: the definitions recorded, an insertion-ordered
   * map from the defined name to its index.  A line is recorded only when it
   * has no `:` and contains ` := `, which no line does: the branch is dead.
   */
  function Definicoes(r: seq<Instr>, i: nat, defs: seq<(string, nat)>): (d: seq<(string, nat)>)
    requires i <= |r|
    requires forall j :: 0 <= j < |defs| ==> defs[j].1 < |r|
    ensures forall j :: 0 <= j < |d| ==> d[j].1 < |r|
    decreases |r| - i
  {
    if i == |r| then defs
    else if TemDoisPontos(r[i]) || ComecaComGoto(r[i]) then Definicoes(r, i + 1, defs)
    else if Atribui(r[i]) then assert false; defs
    else Definicoes(r, i + 1, defs)
  }

  /** The second pass: the first recorded temporary that is never used. */
  function PrimeiraMorta(defs: seq<(string, nat)>, usadas: set<string>): (k: Option<nat>)
    ensures k.Some? ==> exists j :: 0 <= j < |defs| && defs[j].1 == k.value
  {
    if defs == [] then None
    else if EhTemp(defs[0].0) && defs[0].0 !in usadas then Some(defs[0].1)
    else
      var k := PrimeiraMorta(defs[1..], usadas);
      assert k.Some? ==> exists j :: 0 <= j < |defs[1..]| && defs[1..][j].1 == k.value;
      k
  }

  /** `eliminarCodigoMorto`: rounds of both passes while a definition was removed. */
  function Morto(r: seq<Instr>): seq<Instr>
    decreases |r|
  {
    var defs := Definicoes(r, 0, []);
    match PrimeiraMorta(defs, Usadas(r, 0))
    case Some(k) => Morto(Remove(r, k))
    case None => r
  }

  // ------------------------------------------------------ 3. copy propagation

  /** `^([a-zA-Z][a-zA-Z0-9_]*) := ([a-zA-Z][a-zA-Z0-9_]*)$` */
  predicate EhCopiaSimples(x: Instr) {
    x.Copia? && x.fonte.Nome? && EhIdentificador(x.destino) && EhIdentificador(x.fonte.nome)
  }

  /** `linha.startsWith(`${d} :=`)`. */
  predicate Define(x: Instr, d: string) {
    Atribui(x) && x.destino == d
  }

  /** The inner loop from `j`: rename until a line that assigns `de`. */
  function Propaga(r: seq<Instr>, j: nat, de: string, para: string): (s: seq<Instr>)
    requires j <= |r|
    ensures |s| == |r|
    ensures forall k :: 0 <= k < j ==> s[k] == r[k]
    decreases |r| - j
  {
    if j == |r| || Define(r[j], de) then r
    else Propaga(r[j := Renomeia(r[j], de, para)], j + 1, de, para)
  }

  /** The loop over `copias` for line `x`, skipping each copy whose destination `linha` assigns. */
  function AplicaCopias(x: Instr, copias: seq<(string, string)>, linha: Instr): Instr
    decreases |copias|
  {
    if copias == [] then x
    else
      var y := if Define(linha, copias[0].0) then x else Renomeia(x, copias[0].0, copias[0].1);
      AplicaCopias(y, copias[1..], linha)
  }

  /** `propagarCopias` from index `i`, with the copies recorded so far. */
  function Copias(r: seq<Instr>, i: nat, copias: seq<(string, string)>): (s: seq<Instr>)
    requires i <= |r|
    ensures |s| == |r|
    decreases |r| - i
  {
    if i == |r| then r
    else
      var linha := r[i];
      var novo := EhCopiaSimples(linha) && linha.destino != linha.fonte.nome;
      var r1 := if novo then Propaga(r, i + 1, linha.destino, linha.fonte.nome) else r;
      var c1 := if novo then Atualiza(copias, linha.destino, linha.fonte.nome) else copias;
      Copias(r1[i := AplicaCopias(r1[i], c1, linha)], i + 1, c1)
  }

  function PropagarCopias(r: seq<Instr>): seq<Instr> {
    Copias(r, 0, [])
  }

  // ---------------------------------------------------- 4. unnecessary jumps

  /** `startsWith('goto L')` followed by the line `${label}:`. */
  predicate SaltoAoSeguinte(r: seq<Instr>, i: nat)
    requires i + 1 < |r|
  {
    r[i].VaPara? && "L" <= r[i].alvo && r[i + 1] == Rotulo(r[i].alvo)
  }

  /** `startsWith('goto')` followed by a line that ends with `:`. */
  predicate SaltoAntesDeRotulo(r: seq<Instr>, i: nat)
    requires i + 1 < |r|
  {
    ComecaComGoto(r[i]) && r[i + 1].Rotulo?
  }

  /**
   * `eliminarDesviosUnnecessarios` from index `i`.  When the first test
   * removes the line at index 0, the second test reads `resultado[-1]`,
   * which is `undefined`, and throws: `None`.
   */
  function Desvios(r: seq<Instr>, i: nat): Option<seq<Instr>>
    decreases |r|, |r| - i
  {
    if i + 1 >= |r| then Some(r)
    else if SaltoAoSeguinte(r, i) && i == 0 then None
    else
      var r1 := if SaltoAoSeguinte(r, i) then Remove(r, i) else r;
      var i1 := if SaltoAoSeguinte(r, i) then i - 1 else i;
      if SaltoAntesDeRotulo(r1, i1) then Desvios(Remove(r1, i1), i1)
      else Desvios(r1, i1 + 1)
  }

  function EliminarDesvios(r: seq<Instr>): Option<seq<Instr>> {
    Desvios(r, 0)
  }

  // ------------------------------------------------------ 5. algebraic rules

  /** One line of `aplicarPropriedadesAlgebricas`, in the order the source tests them. */
  function Algebrica(x: Instr): Instr {
    if x.Binaria? && x.op == Vezes && x.dir == Num(1) then Copia(x.destino, x.esq)
    else if x.Binaria? && x.op == Vezes && x.dir == Num(0) then Copia(x.destino, Num(0))
    else if x.Binaria? && x.op == Mais && x.dir == Num(0) then Copia(x.destino, x.esq)
    else if x.Binaria? && x.op == Menos && x.dir == Num(0) then Copia(x.destino, x.esq)
    else if x.Binaria? && x.op == Dividido && x.dir == Num(1) then Copia(x.destino, x.esq)
    else x
  }

  function AplicarAlgebricas(r: seq<Instr>): (s: seq<Instr>)
    ensures |s| == |r|
  {
    seq(|r|, k requires 0 <= k < |r| => Algebrica(r[k]))
  }

  // ------------------------------------------------- 6. constant conditions

  /** `^if (\w+) == \1 goto (.+)$` */
  predicate SempreVerdadeira(x: Instr) {
    x.SeVaPara? && x.rel == Igual && x.esq == x.dir && EhPalavra(x.esq)
  }

  /** `^if (\w+) != \1 goto (.+)$` */
  predicate SempreFalsa(x: Instr) {
    x.SeVaPara? && x.rel == Diferente && x.esq == x.dir && EhPalavra(x.esq)
  }

  /**
   * `^if (\d+) ([<>=!]+) (\d+) goto (.+)$` after the two tests above: the
   * local `let resultado` shadows the output list, and both the assignment
   * and the `splice` on a boolean throw in strict mode.
   */
  predicate ComparaConstantes(x: Instr) {
    x.SeVaPara? && EhNumeral(x.esq) && EhNumeral(x.dir) && !SempreVerdadeira(x) && !SempreFalsa(x)
  }

  /** `simplificarCondicoes` from index `i`. */
  function Condicoes(r: seq<Instr>, i: nat): Option<seq<Instr>>
    requires i <= |r|
    decreases |r| - i
  {
    if i == |r| then Some(r)
    else if SempreVerdadeira(r[i]) then Condicoes(r[i := VaPara(r[i].alvo)], i + 1)
    else if SempreFalsa(r[i]) then Condicoes(Remove(r, i), i)
    else if ComparaConstantes(r[i]) then None
    else Condicoes(r, i + 1)
  }

  function SimplificarCondicoes(r: seq<Instr>): Option<seq<Instr>> {
    Condicoes(r, 0)
  }

  // ------------------------------------------------------- 7. redundant code

  /** `^([a-zA-Z][a-zA-Z0-9_]*) := \1$` */
  predicate AutoCopia(x: Instr) {
    x.Copia? && x.fonte == Nome(x.destino) && EhIdentificador(x.destino)
  }

  function Alvos(r: seq<Instr>): set<string> {
    set k | 0 <= k < |r| && Salta(r[k]) :: r[k].alvo
  }

  function Rotulos(r: seq<Instr>): set<string> {
    set k | 0 <= k < |r| && r[k].Rotulo? :: r[k].nome
  }

  /** Every jump names a label of the list. */
  predicate Fechado(r: seq<Instr>) {
    Alvos(r) <= Rotulos(r)
  }

  /** `codigo[j].replace(`goto ${atual}`, `goto ${anterior}`)` when the line includes that text. */
  function RedirecionaComoEscrito(x: Instr, atual: string, anterior: string): Instr {
    if Salta(x) && atual <= x.alvo then x.(alvo := anterior + x.alvo[|atual|..]) else x
  }

  /**
   * `eliminarCodigoRedundante` AS WRITTEN, from index `i` with output `acc`:
   * only the lines after the dropped label are redirected (earlier ones are
   * already in the output), and the test is a prefix test.
   */
  function RedundanteComoEscrito(c: seq<Instr>, i: nat, acc: seq<Instr>): seq<Instr>
    requires i <= |c|
    decreases |c| - i
  {
    if i == |c| then acc
    else if AutoCopia(c[i]) then RedundanteComoEscrito(c, i + 1, acc)
    else if c[i].Rotulo? && i > 0 && c[i - 1].Rotulo? then
      var c' := seq(|c|, j requires 0 <= j < |c| => RedirecionaComoEscrito(c[j], c[i].nome, c[i - 1].nome));
      RedundanteComoEscrito(c', i + 1, acc)
    else RedundanteComoEscrito(c, i + 1, acc + [c[i]])
  }

  /** A jump to exactly `atual` now jumps to `mantido`. */
  function Redireciona(x: Instr, atual: string, mantido: string): (y: Instr)
    ensures Salta(y) == Salta(x) && y.Rotulo? == x.Rotulo?
    ensures x.Rotulo? ==> y == x
  {
    if Salta(x) && x.alvo == atual then x.(alvo := mantido) else x
  }

  function RedirecionaTodas(r: seq<Instr>, atual: string, mantido: string): (s: seq<Instr>)
    ensures |s| == |r|
  {
    seq(|r|, j requires 0 <= j < |r| => Redireciona(r[j], atual, mantido))
  }

  /**
   * `eliminarCodigoRedundante` as its comment intends: `x := x` is dropped;
   * of adjacent labels the later is dropped and EVERY jump to it, before or
   * after, goes to the label kept for that run, `mantido`.
   */
  function Redundante(c: seq<Instr>, i: nat, acc: seq<Instr>, mantido: string): seq<Instr>
    requires i <= |c|
    decreases |c| - i
  {
    if i == |c| then acc
    else if AutoCopia(c[i]) then Redundante(c, i + 1, acc, mantido)
    else if c[i].Rotulo? && i > 0 && c[i - 1].Rotulo? then
      Redundante(RedirecionaTodas(c, c[i].nome, mantido), i + 1, RedirecionaTodas(acc, c[i].nome, mantido), mantido)
    else
      Redundante(c, i + 1, acc + [c[i]], if c[i].Rotulo? then c[i].nome else mantido)
  }

  function EliminarRedundante(r: seq<Instr>): seq<Instr> {
    Redundante(r, 0, [], "")
  }

  // ------------------------------------------------------------- the driver

  /** One round of the seven passes; `None` when a pass throws. */
  function Rodada(c: seq<Instr>): Option<seq<Instr>> {
    var c3 := PropagarCopias(Morto(EliminarSubexpressoes(c)));
    match EliminarDesvios(c3)
    case None => None
    case Some(c4) =>
      match SimplificarCondicoes(AplicarAlgebricas(c4))
      case None => None
      case Some(c6) => Some(EliminarRedundante(c6))
  }

  const MaxIteracoes := 10

  /** The round loop from its state; the code and `otimizacoesRealizadas` at the end. */
  function Ciclo(c: seq<Instr>, iteracoes: nat, realizadas: nat, continuar: bool): Option<(seq<Instr>, nat)>
    decreases MaxIteracoes - iteracoes
  {
    if !(continuar && iteracoes < MaxIteracoes) then Some((c, realizadas))
    else
      match Rodada(c)
      case None => None
      case Some(c') =>
        var mudou := |c'| != |c|;
        Ciclo(c', iteracoes + 1, if mudou then realizadas + 1 else realizadas, mudou)
  }

  datatype Resultado =
    | Entrada(codigo: seq<Instr>)   // an empty list is returned as it came
    | Otimizado(codigo: seq<Instr>, realizadas: nat, originais: map<nat, Instr>)
    | Excecao                       // a pass threw

  /** `otimizacoesOriginais`: the input line at each index where the output is shorter or differs. */
  function Originais(codigo: seq<Instr>, saida: seq<Instr>): map<nat, Instr> {
    map i: nat | i < |codigo| && (i >= |saida| || codigo[i] != saida[i]) :: codigo[i]
  }

  function Otimizar(codigo: seq<Instr>): Resultado {
    if codigo == [] then Entrada(codigo)
    else
      match Ciclo(codigo, 0, 0, true)
      case None => Excecao
      case Some((c, n)) => Otimizado(c, n, Originais(codigo, c))
  }
}
