/**
 * `generate_horde`: the scenario decides which kinds may appear, the
 * difficulty how many, and a random pick (here an input) which kind each one is.
 */
module Hordas {
  import opened Wrappers
  import opened Base
  import opened Inimigos

  /** The kinds each scenario draws from; any other scenario has only goblins. */
  function TiposDoCenario(cenario: string): (r: seq<Tipo>)
    ensures |r| > 0
  {
    if cenario == "Caverna" then [Ladrao, Goblin, Golem]
    else if cenario == "Floresta" then [Elfo, Goblin]
    else if cenario == "Castelo" then [Goblin, Golem, Dragao]
    else [Goblin]
  }

  /** Size of the horde by difficulty label; an unknown label gives 3. */
  function Quantidade(dificuldade: string): nat {
    var tabela := map["Fácil" := 3, "Médio" := 5, "Difícil" := 7];
    if dificuldade in tabela then tabela[dificuldade] else 3
  }

  /** The kinds of the horde: the `k`-th member is `tipos[escolhas[k]]`. */
  function TiposDaHorda(cenario: string, dificuldade: string, escolhas: seq<nat>): seq<Tipo>
    requires |escolhas| == Quantidade(dificuldade)
    requires forall k :: 0 <= k < |escolhas| ==> escolhas[k] < |TiposDoCenario(cenario)|
  {
    seq(|escolhas|, k requires 0 <= k < |escolhas| => TiposDoCenario(cenario)[escolhas[k]])
  }

  /** `generate_horde` on the objects: one fresh enemy per pick. */
  method GerarHorda(cenario: string, dificuldade: string, escolhas: seq<nat>) returns (horda: seq<Entidade>)
    requires |escolhas| == Quantidade(dificuldade)
    requires forall k :: 0 <= k < |escolhas| ==> escolhas[k] < |TiposDoCenario(cenario)|
    ensures |horda| == |escolhas|
    ensures forall k :: 0 <= k < |horda| ==> fresh(horda[k]) && horda[k].EstaVivo()
    ensures forall k :: 0 <= k < |horda| ==>
      horda[k].Retrato() == Estado(AtributosIniciais(FichaDe(TiposDaHorda(cenario, dificuldade, escolhas)[k])), None)
    ensures forall j, k :: 0 <= j < k < |horda| ==> horda[j] != horda[k]
  {
    var tipos := TiposDoCenario(cenario);
    horda := [];
    var k := 0;
    while k < |escolhas|
      invariant 0 <= k <= |escolhas| && |horda| == k
      invariant forall i :: 0 <= i < k ==> fresh(horda[i]) && horda[i].EstaVivo()
      invariant forall i :: 0 <= i < k ==>
        horda[i].Retrato() == Estado(AtributosIniciais(FichaDe(tipos[escolhas[i]])), None)
      invariant forall i, j :: 0 <= i < j < k ==> horda[i] != horda[j]
    {
      var e := Fabricar(tipos[escolhas[k]]);
      horda := horda + [e];
      k := k + 1;
    }
  }

  /** 3, 5 and 7 enemies for "Fácil", "Médio" and "Difícil"; 3 for anything else, the menu's "Média" included. */
  lemma QuantidadePorDificuldade(d: string)
    ensures Quantidade("Fácil") == 3 && Quantidade("Médio") == 5 && Quantidade("Difícil") == 7
    ensures d != "Fácil" && d != "Médio" && d != "Difícil" ==> Quantidade(d) == 3
    ensures Quantidade("Média") == 3
  {
  }

  /** Every member is of a kind its scenario allows, and the horde has the size its difficulty asks. */
  lemma HordaDoCenario(cenario: string, dificuldade: string, escolhas: seq<nat>)
    requires |escolhas| == Quantidade(dificuldade)
    requires forall k :: 0 <= k < |escolhas| ==> escolhas[k] < |TiposDoCenario(cenario)|
    ensures var h := TiposDaHorda(cenario, dificuldade, escolhas);
      && |h| == Quantidade(dificuldade)
      && forall k :: 0 <= k < |h| ==> h[k] in TiposDoCenario(cenario)
  {
  }

  /**
   * The scenario lists: the cave has thieves, goblins and golems, the forest
   * elves and goblins, the castle goblins, golems and the dragon; any other
   * scenario yields only goblins.
   */
  lemma TiposPorCenario(cenario: string, dificuldade: string, escolhas: seq<nat>)
    requires |escolhas| == Quantidade(dificuldade)
    requires forall k :: 0 <= k < |escolhas| ==> escolhas[k] < |TiposDoCenario(cenario)|
    ensures var tipos := set t | t in TiposDoCenario(cenario);
      && (cenario == "Caverna" ==> tipos == {Ladrao, Goblin, Golem})
      && (cenario == "Floresta" ==> tipos == {Elfo, Goblin})
      && (cenario == "Castelo" ==> tipos == {Goblin, Golem, Dragao})
    ensures cenario !in {"Caverna", "Floresta", "Castelo"} ==>
      forall k :: 0 <= k < |escolhas| ==> TiposDaHorda(cenario, dificuldade, escolhas)[k] == Goblin
  {
  }
}
