/**
 * Properties of the recursive-descent parser of `analisadorSintatico.js`
 * that relate several of its nonterminals: how `programa` treats tokens
 * that cannot start a declaration, that flat arithmetic expressions are
 * accepted whole, and the exact diagnostics of a small program.
 */
module ParserProps {
  import opened Wrappers
  import opened Tokens
  import opened Parser

  // ------------------------------------------------ tokens `programa` skips

  /**
   * From `i` on, no real token can start a declaration: `programa` reports
   * each of them once, in order, as an unexpected token, and skips it.
   */
  lemma {:induction false} ProgramaReportaCadaToken(tc: seq<Token>, i: nat)
    requires Pre(tc, i)
    requires forall k :: i <= k < |tc| - 1 ==> !FirstDeclaracao(tc[k].kind)
    ensures |Programa(tc, i).errs| == |tc| - 1 - i
    ensures forall n :: 0 <= n < |tc| - 1 - i ==>
      Programa(tc, i).errs[n] == Diagnostico(MsgTokenInesperado(tc[i + n].lexeme), tc[i + n], CtxPrograma)
    decreases |tc| - i
  {
    if i < |tc| - 1 {
      ProgramaReportaCadaToken(tc, i + 1);
      ProgramaPulaToken(tc, i);
      ReportaMaisUm(tc, i, Programa(tc, i).errs, Programa(tc, i + 1).errs);
    }
  }

  /** One report in front of the reports of the tokens after `i` makes the reports of the tokens from `i`. */
  lemma ReportaMaisUm(tc: seq<Token>, i: nat, todos: seq<Diag>, resto: seq<Diag>)
    requires i < |tc| - 1
    requires todos == [Diagnostico(MsgTokenInesperado(tc[i].lexeme), tc[i], CtxPrograma)] + resto
    requires |resto| == |tc| - 1 - (i + 1)
    requires forall n :: 0 <= n < |tc| - 1 - (i + 1) ==>
      resto[n] == Diagnostico(MsgTokenInesperado(tc[i + 1 + n].lexeme), tc[i + 1 + n], CtxPrograma)
    ensures |todos| == |tc| - 1 - i
    ensures forall n :: 0 <= n < |tc| - 1 - i ==>
      todos[n] == Diagnostico(MsgTokenInesperado(tc[i + n].lexeme), tc[i + n], CtxPrograma)
  {
    forall n | 0 < n < |tc| - 1 - i
      ensures todos[n] == Diagnostico(MsgTokenInesperado(tc[i + n].lexeme), tc[i + n], CtxPrograma)
    {
      assert todos[n] == resto[n - 1];
      assert i + 1 + (n - 1) == i + n;
    }
  }

  /** A token that cannot start a declaration costs exactly one message and one step. */
  lemma ProgramaPulaToken(tc: seq<Token>, i: nat)
    requires Pre(tc, i) && i < |tc| - 1 && !FirstDeclaracao(tc[i].kind)
    ensures Programa(tc, i).errs ==
      [Diagnostico(MsgTokenInesperado(tc[i].lexeme), tc[i], CtxPrograma)] + Programa(tc, i + 1).errs
  {
    assert Item(tc, i) == Outcome(i + 1, [Diagnostico(MsgTokenInesperado(tc[i].lexeme), tc[i], CtxPrograma)]);
  }

  // ------------------------------------------- flat arithmetic expressions

  /** The operands `fator` accepts without recursion. */
  predicate Operando(k: Kind) {
    k == TIdentificador || k == TNum || k == TNumDecimal || k == TString
  }

  predicate Aditivo(k: Kind) { k == TSoma || k == TSubtracao }

  predicate Multiplicativo(k: Kind) { k == TMultiplicacao || k == TDivisao }

  /** `tc[i..j]` is a run of pairs `operator operand`, with `+ - * /` operators. */
  ghost predicate Cauda(tc: seq<Token>, i: nat, j: nat)
    decreases j - i
  {
    i <= j < |tc| &&
    (i == j ||
     (i + 2 <= j && (Aditivo(tc[i].kind) || Multiplicativo(tc[i].kind)) &&
      Operando(tc[i + 1].kind) && Cauda(tc, i + 2, j)))
  }

  /** `tc[i..j]` is `operand {op operand}`, and the token at `j` does not continue it. */
  ghost predicate Plana(tc: seq<Token>, i: nat, j: nat) {
    i < j && Cauda(tc, i + 1, j) && Operando(tc[i].kind) &&
    !Aditivo(tc[j].kind) && !Multiplicativo(tc[j].kind)
  }

  /** The `*`/`/` loop stops, silently, at the end or at the next `+`/`-`. */
  lemma {:induction false} MaisFatoresPlanos(tc: seq<Token>, i: nat, j: nat)
    requires EndMarked(tc) && Cauda(tc, i, j)
    requires !Aditivo(tc[j].kind) && !Multiplicativo(tc[j].kind)
    ensures MaisFatores(tc, i).errs == []
    ensures Cauda(tc, MaisFatores(tc, i).idx, j)
    ensures MaisFatores(tc, i).idx == j || Aditivo(tc[MaisFatores(tc, i).idx].kind)
    decreases j - i
  {
    if i < j && Multiplicativo(tc[i].kind) {
      FatoresPasso(tc, i, j);
      MaisFatoresPlanos(tc, i + 2, j);
      assert MaisFatores(tc, i).idx == MaisFatores(tc, i + 2).idx;
      assert MaisFatores(tc, i).errs == [] + MaisFatores(tc, i + 2).errs;
    } else {
      FatoresPara(tc, i, j);
    }
  }

  lemma FatoresPasso(tc: seq<Token>, i: nat, j: nat)
    requires EndMarked(tc) && Cauda(tc, i, j) && i < j && Multiplicativo(tc[i].kind)
    ensures Cauda(tc, i + 2, j)
    ensures MaisFatores(tc, i) == Then(Outcome(i + 2, []), MaisFatores(tc, i + 2))
  {
    assert i + 2 <= j < |tc| && Operando(tc[i + 1].kind);
    assert FirstExpressao(tc[i + 1].kind);
    assert Starts(tc, i + 1, FirstExpressao);
    assert Fator(tc, i + 1) == Outcome(i + 2, []);
  }

  lemma FatoresPara(tc: seq<Token>, i: nat, j: nat)
    requires EndMarked(tc) && Cauda(tc, i, j) && !Multiplicativo(tc[j].kind)
    requires !(i < j && Multiplicativo(tc[i].kind))
    ensures MaisFatores(tc, i) == Outcome(i, [])
  {
  }

  /** `termo` on a flat run reads up to the next `+`/`-` or the end. */
  lemma TermoPlano(tc: seq<Token>, i: nat, j: nat)
    requires EndMarked(tc) && Plana(tc, i, j)
    ensures Termo(tc, i).errs == []
    ensures Cauda(tc, Termo(tc, i).idx, j)
    ensures Termo(tc, i).idx == j || Aditivo(tc[Termo(tc, i).idx].kind)
  {
    assert Fator(tc, i) == Outcome(i + 1, []);
    MaisFatoresPlanos(tc, i + 1, j);
  }

  /** The `+`/`-` loop consumes a run that starts at an additive operator, silently. */
  lemma {:induction false} MaisTermosPlanos(tc: seq<Token>, i: nat, j: nat)
    requires EndMarked(tc) && Cauda(tc, i, j) && (i == j || Aditivo(tc[i].kind))
    requires !Aditivo(tc[j].kind) && !Multiplicativo(tc[j].kind)
    ensures MaisTermos(tc, i) == Outcome(j, [])
    decreases j - i
  {
    if i < j {
      assert Plana(tc, i + 1, j);
      TermoPlano(tc, i + 1, j);
      var r1 := Termo(tc, i + 1);
      MaisTermosPlanos(tc, r1.idx, j);
    }
  }

  /**
   * Completeness on flat expressions: `operand {(+|-|*|/) operand}`, followed
   * by anything else, is one `expressao` that reports nothing and stops
   * right after it.
   */
  lemma ExpressaoPlana(tc: seq<Token>, i: nat, j: nat)
    requires EndMarked(tc) && Plana(tc, i, j)
    ensures Expressao(tc, i) == Outcome(j, [])
  {
    TermoPlano(tc, i, j);
    MaisTermosPlanos(tc, Termo(tc, i).idx, j);
  }

  /** The relational operator and its right-hand side are optional. */
  lemma RelacionalSemOperador(tc: seq<Token>, i: nat, j: nat)
    requires EndMarked(tc) && Plana(tc, i, j) && !FirstOperadorRelacional(tc[j].kind)
    ensures ExpressaoRelacional(tc, i) == Outcome(j, [])
  {
    ExpressaoPlana(tc, i, j);
  }

  /** `a op b` with flat `a` and `b` is one relational expression with no message. */
  lemma RelacionalComOperador(tc: seq<Token>, i: nat, j: nat, k: nat)
    requires EndMarked(tc) && Plana(tc, i, j) && FirstOperadorRelacional(tc[j].kind)
    requires Plana(tc, j + 1, k)
    ensures ExpressaoRelacional(tc, i) == Outcome(k, [])
  {
    ExpressaoPlana(tc, i, j);
    ExpressaoPlana(tc, j + 1, k);
  }

  /** An operator with nothing after it is reported as a missing term. */
  lemma OperadorSemTermo(tc: seq<Token>, i: nat)
    requires Pre(tc, i + 1) && Aditivo(tc[i].kind) && !FirstExpressao(tc[i + 1].kind)
    ensures MaisTermos(tc, i).errs == [Diagnostico(MsgTermoAposOperador, tc[i + 1], CtxExpressao)]
  {
  }

  // ----------------------------------------------------- a small program

  /** `variavel x : inteiro` on line 1, with no `;`. */
  function SemPontoEVirgula(): (ts: seq<Token>)
    ensures |ts| == 4 && ts[0].kind == TVariavel && ts[3].kind == TTipo
  {
    [Token("variavel", TVariavel, 1), Token("x", TIdentificador, 1),
     Token(":", TDoisPontos, 1), Token("inteiro", TTipo, 1)]
  }

  /** The declaration without `;` gives one message, found at the end marker. */
  lemma ExemploSemPontoEVirgula()
    ensures Analisar(Some(SemPontoEVirgula())) ==
      [Sintatico(Diag(1, MsgPvVariavel, Token("$", TEnd, 1), CtxVariavel))]
  {
    var tc := ComFim(SemPontoEVirgula());
    var fim := Token("$", TEnd, 1);
    assert tc[4] == fim;
    assert Expect(tc, 4, TPv, MsgPvVariavel, CtxVariavel) == Outcome(4, [Diag(1, MsgPvVariavel, fim, CtxVariavel)]);
    assert Inicializacao(tc, 4) == Outcome(4, [Diag(1, MsgPvVariavel, fim, CtxVariavel)]);
    assert Tipo(tc, 3) == Outcome(4, []);
    assert DeclaracaoVariavel(tc, 0) == Outcome(4, [Diag(1, MsgPvVariavel, fim, CtxVariavel)]);
    assert Programa(tc, 4) == Outcome(4, []);
    assert Programa(tc, 0).errs == [Diag(1, MsgPvVariavel, fim, CtxVariavel)];
  }
}
