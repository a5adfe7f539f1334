/**
 * A JavaScript `Set`, or a `Map` filled by testing `has` first, iterates in
 * order of first insertion; both are modelled as a sequence without
 * repeats.  Shared by the two SimpSIM translators.
 */
module Insercao {
  predicate Distintos(s: seq<string>) {
    forall p, q :: 0 <= p < q < |s| ==> s[p] != s[q]
  }

  /** `set.add(w)` for each word `w` in order: a word already present keeps its place. */
  function Acrescenta(nomes: seq<string>, ws: seq<string>): seq<string>
    decreases |ws|
  {
    if ws == [] then nomes
    else Acrescenta(if ws[0] in nomes then nomes else nomes + [ws[0]], ws[1..])
  }

  /** The index of the first `x` in `nomes`. */
  function Posicao(nomes: seq<string>, x: string): (p: nat)
    requires x in nomes
    ensures p < |nomes| && nomes[p] == x
    ensures forall j :: 0 <= j < p ==> nomes[j] != x
  {
    if nomes[0] == x then 0 else 1 + Posicao(nomes[1..], x)
  }

  /** Adding the words of one line keeps what was mapped and maps exactly the new words once. */
  lemma {:induction false} AcrescentaPropriedades(nomes: seq<string>, ws: seq<string>)
    ensures |nomes| <= |Acrescenta(nomes, ws)| && Acrescenta(nomes, ws)[..|nomes|] == nomes
    ensures Distintos(nomes) ==> Distintos(Acrescenta(nomes, ws))
    ensures forall x :: x in Acrescenta(nomes, ws) <==> x in nomes || x in ws
    decreases |ws|
  {
    if ws != [] {
      var n1 := if ws[0] in nomes then nomes else nomes + [ws[0]];
      AcrescentaPropriedades(n1, ws[1..]);
      var r := Acrescenta(n1, ws[1..]);
      assert r == Acrescenta(nomes, ws);
      assert n1[..|nomes|] == nomes;
      assert r[..|nomes|] == r[..|n1|][..|nomes|];
      assert ws == [ws[0]] + ws[1..];
    }
  }

  /** `set.add` of the words of each list from the `i`-th on, in order. */
  function AcrescentaDesde(listas: seq<seq<string>>, i: nat, nomes: seq<string>): seq<string>
    requires i <= |listas|
    decreases |listas| - i
  {
    if i == |listas| then nomes else AcrescentaDesde(listas, i + 1, Acrescenta(nomes, listas[i]))
  }

  /** From the `i`-th list on: what was collected stays in front, and exactly the new words are added once. */
  lemma {:induction false} AcrescentaDesdePropriedades(listas: seq<seq<string>>, i: nat, nomes: seq<string>)
    requires i <= |listas|
    ensures |nomes| <= |AcrescentaDesde(listas, i, nomes)| && AcrescentaDesde(listas, i, nomes)[..|nomes|] == nomes
    ensures Distintos(nomes) ==> Distintos(AcrescentaDesde(listas, i, nomes))
    ensures forall x :: x in AcrescentaDesde(listas, i, nomes) <==>
      x in nomes || exists j :: i <= j < |listas| && x in listas[j]
    decreases |listas| - i
  {
    if i < |listas| {
      var n1 := Acrescenta(nomes, listas[i]);
      AcrescentaPropriedades(nomes, listas[i]);
      AcrescentaDesdePropriedades(listas, i + 1, n1);
      var r := AcrescentaDesde(listas, i + 1, n1);
      assert r[..|nomes|] == r[..|n1|][..|nomes|];
      forall x | x in r
        ensures x in nomes || exists j :: i <= j < |listas| && x in listas[j]
      {
        if x !in nomes && x in listas[i] {
          assert i <= i < |listas| && x in listas[i];
        }
      }
      forall x, j | i <= j < |listas| && x in listas[j]
        ensures x in r
      {
        if j == i {
          assert x in n1;
        } else {
          assert i + 1 <= j < |listas| && x in listas[j];
        }
      }
    }
  }

  lemma {:induction false} AcrescentaDesdeCorta(listas: seq<seq<string>>, i: nat, k: nat, nomes: seq<string>)
    requires i <= k <= |listas|
    ensures AcrescentaDesde(listas, i, nomes) == AcrescentaDesde(listas, k, AcrescentaDesde(listas[..k], i, nomes))
    decreases k - i
  {
    if i < k {
      var prefixo := listas[..k];
      assert prefixo[i] == listas[i];
      var seguintes := Acrescenta(nomes, listas[i]);
      assert AcrescentaDesde(prefixo, i, nomes) == AcrescentaDesde(prefixo, i + 1, seguintes);
      AcrescentaDesdeCorta(listas, i + 1, k, seguintes);
    } else {
      assert AcrescentaDesde(listas[..k], i, nomes) == nomes;
    }
  }

  /** Without repeats, the first `x` is the only one. */
  lemma PosicaoDistintos(nomes: seq<string>, k: nat)
    requires Distintos(nomes) && k < |nomes|
    ensures Posicao(nomes, nomes[k]) == k
  {
  }
}
