/**
 * Tokens shared by the lexers, the parser, the semantic analysers and the
 * intermediate-code generator (`Token.js`, `Token.java`): a lexeme, its kind
 * and the line it was found on.  Kinds are the `t_*` strings of the source.
 */
module Tokens {
  datatype Kind =
    | TVariavel | TSe | TSenao | TEnquanto | TPara | TFuncao | TRetornar
    | TTipo | TIdentificador | TNum | TNumDecimal | TString
    | TIgualdade | TAtribuicao | TMenorIgual | TMenor | TMaiorIgual | TMaior
    | TSoma | TSubtracao | TMultiplicacao | TDivisao
    | TAbrePar | TFechaPar | TAbreChave | TFechaChave
    | TPv | TVirgula | TDoisPontos
    | TEnd  // the `$` end-of-input sentinel appended by the parsers

  datatype Token = Token(lexeme: string, kind: Kind, line: int)

  predicate IsAsciiLetter(c: char) {
    ('a' <= c <= 'z') || ('A' <= c <= 'Z')
  }

  predicate IsAsciiDigit(c: char) {
    '0' <= c <= '9'
  }

  /** `[a-zA-Z0-9_]`, the word characters of JavaScript regular expressions. */
  predicate IsWordChar(c: char) {
    IsAsciiLetter(c) || IsAsciiDigit(c) || c == '_'
  }

  /** Number of line feeds in `s`. */
  function Newlines(s: string): nat {
    if s == [] then 0
    else Newlines(s[..|s| - 1]) + (if s[|s| - 1] == '\n' then 1 else 0)
  }

  lemma {:induction false} NewlinesAppend(a: string, b: string)
    ensures Newlines(a + b) == Newlines(a) + Newlines(b)
    decreases |b|
  {
    if b == [] {
      assert a + b == a;
    } else {
      assert (a + b)[..|a + b| - 1] == a + b[..|b| - 1];
      NewlinesAppend(a, b[..|b| - 1]);
    }
  }

  /** Counting line feeds one character further. */
  lemma NewlinesStep(s: string, i: nat)
    requires i < |s|
    ensures Newlines(s[..i + 1]) == Newlines(s[..i]) + (if s[i] == '\n' then 1 else 0)
  {
    assert s[..i + 1][..i] == s[..i];
  }

  /** A stretch without line feeds leaves the count unchanged. */
  lemma {:induction false} NewlinesNone(s: string, i: nat, j: nat)
    requires i <= j <= |s|
    requires forall k :: i <= k < j ==> s[k] != '\n'
    ensures Newlines(s[..j]) == Newlines(s[..i])
    decreases j - i
  {
    if i < j {
      NewlinesNone(s, i, j - 1);
      NewlinesStep(s, j - 1);
    }
  }
}
