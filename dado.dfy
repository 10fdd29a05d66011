/**
 * The dice.  `d6()` and `d20()` draw from a random generator; here the draws
 * are two infinite streams fixed in advance, and a `Dado` object remembers how
 * many values of each stream have been consumed so far.
 */
module Dados {

  /** The two streams of rolls: `seis(k)` is the k-th d6, `vinte(k)` the k-th d20. */
  datatype Fonte = Fonte(seis: nat -> int, vinte: nat -> int) {

    /** Every roll lies on a face of its die. */
    ghost predicate Valida() {
      && (forall k: nat :: 1 <= seis(k) <= 6)
      && (forall k: nat :: 1 <= vinte(k) <= 20)
    }
  }

  /** Sum of the `n` rolls of stream `g` starting at position `i`. */
  function Soma(g: nat -> int, i: nat, n: nat): int
    decreases n
  {
    if n == 0 then 0 else Soma(g, i, n - 1) + g(i + n - 1)
  }

  /** A sum of `n` rolls of a die with `faces` faces lies in [n, faces * n]. */
  lemma {:induction false} SomaLimites(g: nat -> int, faces: int, i: nat, n: nat)
    requires forall k: nat :: 1 <= g(k) <= faces
    ensures n <= Soma(g, i, n) <= faces * n
  {
    if n > 0 {
      SomaLimites(g, faces, i, n - 1);
      assert 1 <= g(i + n - 1) <= faces;
    }
  }

  /** Summing `n + m` rolls is summing the first `n`, then the next `m`. */
  lemma {:induction false} SomaConcatena(g: nat -> int, i: nat, n: nat, m: nat)
    ensures Soma(g, i, n + m) == Soma(g, i, n) + Soma(g, i + n, m)
  {
    if m > 0 {
      SomaConcatena(g, i, n, m - 1);
    }
  }

  class Dado {
    const fonte: Fonte
    var usados6: nat
    var usados20: nat

    constructor (fonte: Fonte)
      requires fonte.Valida()
      ensures this.fonte == fonte && usados6 == 0 && usados20 == 0
    {
      this.fonte := fonte;
      usados6, usados20 := 0, 0;
    }

    /** `d6()`: the next d6 of the stream. */
    method D6() returns (r: int)
      requires fonte.Valida()
      modifies this
      ensures r == fonte.seis(old(usados6)) && 1 <= r <= 6
      ensures usados6 == old(usados6) + 1 && usados20 == old(usados20)
    {
      r := fonte.seis(usados6);
      usados6 := usados6 + 1;
    }

    /** `d20()`: the next d20 of the stream. */
    method D20() returns (r: int)
      requires fonte.Valida()
      modifies this
      ensures r == fonte.vinte(old(usados20)) && 1 <= r <= 20
      ensures usados20 == old(usados20) + 1 && usados6 == old(usados6)
    {
      r := fonte.vinte(usados20);
      usados20 := usados20 + 1;
    }

    /** `sum(d6() for _ in range(n))`. */
    method SomaD6(n: nat) returns (s: int)
      requires fonte.Valida()
      modifies this
      ensures s == Soma(fonte.seis, old(usados6), n)
      ensures usados6 == old(usados6) + n && usados20 == old(usados20)
    {
      s := 0;
      var k := 0;
      while k < n
        invariant 0 <= k <= n
        invariant usados6 == old(usados6) + k && usados20 == old(usados20)
        invariant s == Soma(fonte.seis, old(usados6), k)
      {
        var r := D6();
        s := s + r;
        k := k + 1;
      }
    }

    /** `sum(d20() for _ in range(n))`. */
    method SomaD20(n: nat) returns (s: int)
      requires fonte.Valida()
      modifies this
      ensures s == Soma(fonte.vinte, old(usados20), n)
      ensures usados20 == old(usados20) + n && usados6 == old(usados6)
    {
      s := 0;
      var k := 0;
      while k < n
        invariant 0 <= k <= n
        invariant usados20 == old(usados20) + k && usados6 == old(usados6)
        invariant s == Soma(fonte.vinte, old(usados20), k)
      {
        var r := D20();
        s := s + r;
        k := k + 1;
      }
    }
  }
}
