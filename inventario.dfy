/**
 * The hero's bag: a list of items and a capacity that nothing here reads.
 * Only creation, removal of the first equal item, and listing.
 */
module Inventarios {
  import opened Wrappers

  /** `list.remove(x)`: the list without its first element equal to `x` (unchanged when there is none). */
  function SemPrimeiro<T(==)>(xs: seq<T>, x: T): seq<T>
    decreases |xs|
  {
    if |xs| == 0 then []
    else if xs[0] == x then xs[1..]
    else [xs[0]] + SemPrimeiro(xs[1..], x)
  }

  /** With no `x` before position `i`, removing the first `x` leaves the prefix alone. */
  lemma {:induction false} SemPrimeiroAposPrefixo<T>(xs: seq<T>, x: T, i: nat)
    requires i <= |xs| && forall j :: 0 <= j < i ==> xs[j] != x
    ensures SemPrimeiro(xs, x) == xs[..i] + SemPrimeiro(xs[i..], x)
    decreases i
  {
    if i > 0 {
      SemPrimeiroAposPrefixo(xs[1..], x, i - 1);
      assert xs[1..][i - 1..] == xs[i..];
      assert xs[..i] == [xs[0]] + xs[1..][..i - 1];
    }
  }

  /** Removing an item that is not there changes nothing. */
  lemma {:induction false} SemPrimeiroAusente<T>(xs: seq<T>, x: T)
    requires x !in xs
    ensures SemPrimeiro(xs, x) == xs
    decreases |xs|
  {
    if |xs| > 0 {
      assert xs == [xs[0]] + xs[1..];
      SemPrimeiroAusente(xs[1..], x);
    }
  }

  /** Where the first `x` in `xs` sits. */
  function PrimeiroIndice<T(==)>(xs: seq<T>, x: T): (i: nat)
    requires x in xs
    ensures i < |xs| && xs[i] == x && forall j :: 0 <= j < i ==> xs[j] != x
    decreases |xs|
  {
    if xs[0] == x then 0 else 1 + PrimeiroIndice(xs[1..], x)
  }

  /** Taking one `x` out of the middle of a sequence takes one `x` out of its multiset. */
  lemma MultisetSemUm<T>(antes: seq<T>, x: T, depois: seq<T>)
    ensures multiset(antes + depois) == multiset(antes + [x] + depois) - multiset{x}
  {
    assert multiset(antes + [x] + depois) == multiset(antes) + multiset{x} + multiset(depois);
  }

  /** Removing the first `x` when it sits at position `i`: the elements around it, in order. */
  lemma SemPrimeiroEm<T>(xs: seq<T>, x: T, i: nat)
    requires i < |xs| && xs[i] == x && forall j :: 0 <= j < i ==> xs[j] != x
    ensures SemPrimeiro(xs, x) == xs[..i] + xs[i + 1..]
    ensures xs == xs[..i] + [x] + xs[i + 1..]
  {
    SemPrimeiroAposPrefixo(xs, x, i);
    var resto := xs[i..];
    assert resto == [x] + resto[1..];
    assert resto[1..] == xs[i + 1..];
  }

  /**
   * Removing an item that is there takes out exactly its first occurrence:
   * one element fewer, every other element kept in order, one `x` fewer
   * in the multiset.
   */
  lemma SemPrimeiroPresente<T>(xs: seq<T>, x: T)
    requires x in xs
    ensures var i := PrimeiroIndice(xs, x); SemPrimeiro(xs, x) == xs[..i] + xs[i + 1..]
    ensures |SemPrimeiro(xs, x)| == |xs| - 1
    ensures multiset(SemPrimeiro(xs, x)) == multiset(xs) - multiset{x}
  {
    var i := PrimeiroIndice(xs, x);
    SemPrimeiroEm(xs, x, i);
    MultisetSemUm(xs[..i], x, xs[i + 1..]);
  }

  /** `Inventario`: the items in order and the maximum capacity. */
  class Inventario<T(==)> {
    var itens: seq<T>
    var capacidadeMaxima: int

    /** `Inventario(capacidade_maxima)`: empty, with the capacity given (20 when none is). */
    constructor (capacidade: Option<int>)
      ensures itens == [] && capacidadeMaxima == capacidade.GetOr(20)
    {
      itens := [];
      capacidadeMaxima := capacidade.GetOr(20);
    }

    /**
     * `remover_item`: answers whether the item was there, and if so removes
     * its first occurrence; the capacity is neither read nor changed.
     */
    method RemoverItem(item: T) returns (removido: bool)
      modifies this
      ensures removido <==> item in old(itens)
      ensures itens == SemPrimeiro(old(itens), item)
      ensures capacidadeMaxima == old(capacidadeMaxima)
    {
      var i := 0;
      while i < |itens| && itens[i] != item
        invariant 0 <= i <= |itens|
        invariant forall j :: 0 <= j < i ==> itens[j] != item
      {
        i := i + 1;
      }
      SemPrimeiroAposPrefixo(itens, item, i);
      if i == |itens| {
        assert itens[i..] == [];
        return false;
      }
      assert itens[i..] == [item] + itens[i + 1..];
      itens := itens[..i] + itens[i + 1..];
      removido := true;
    }

    /** `listar_itens`: the items as they are. */
    method ListarItens() returns (r: seq<T>)
      ensures r == itens
    {
      r := itens;
    }
  }
}
