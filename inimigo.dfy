/**
 * Enemies: a plain entity with no effect registry, built from a fixed table
 * of stats by one factory per kind.
 */
module Inimigos {
  import opened Wrappers
  import opened Base

  /** The five kinds of enemy. */
  datatype Tipo = Ladrao | Goblin | Golem | Elfo | Dragao

  /** Name and stats a factory passes to the enemy constructor. */
  datatype Ficha = Ficha(nome: string, vida: int, ataque: int, defesa: int)

  /** The stat table of the five factories. */
  function FichaDe(t: Tipo): Ficha {
    match t
    case Ladrao => Ficha("Ladrão", 15, 10, 10)
    case Goblin => Ficha("Goblin", 20, 10, 5)
    case Golem => Ficha("Golem", 35, 20, 25)
    case Elfo => Ficha("Elfo", 15, 10, 10)
    case Dragao => Ficha("dragao", 40, 30, 35)
  }

  /** The record a new enemy starts with: `vida_max` is the initial `vida`, mana stays 0. */
  function AtributosIniciais(f: Ficha): Atributos {
    Atributos(f.vida, f.ataque, f.defesa, 0, f.vida)
  }

  /** `Inimigo.__init__`. */
  method NovoInimigo(nome: string, vida: int, ataque: int, defesa: int) returns (e: Entidade)
    ensures fresh(e) && e.nome == nome
    ensures e.Retrato() == Estado(AtributosIniciais(Ficha(nome, vida, ataque, defesa)), None)
  {
    e := new Entidade(nome, vida, ataque, defesa, 0, Some(vida));
  }

  /** The factories `ladrao`, `goblin`, `golem`, `elfo` and `dragao`. */
  method Fabricar(t: Tipo) returns (e: Entidade)
    ensures fresh(e) && e.nome == FichaDe(t).nome
    ensures e.Retrato() == Estado(AtributosIniciais(FichaDe(t)), None)
    ensures e.EstaVivo()
  {
    var f := FichaDe(t);
    e := NovoInimigo(f.nome, f.vida, f.ataque, f.defesa);
  }

  /**
   * Every kind starts alive, at full health, with no mana; its defence
   * never exceeds its `vida`.
   */
  lemma FichasValidas(t: Tipo)
    ensures var a := AtributosIniciais(FichaDe(t));
      && a.vida > 0 && a.vidaMax == a.vida && a.mana == 0
      && 0 < a.defesa <= a.vida && a.ataque > 0
  {
  }

  /** The table, entry by entry (vida / ataque / defesa). */
  lemma TabelaDeFichas()
    ensures FichaDe(Ladrao) == Ficha("Ladrão", 15, 10, 10)
    ensures FichaDe(Goblin) == Ficha("Goblin", 20, 10, 5)
    ensures FichaDe(Golem) == Ficha("Golem", 35, 20, 25)
    ensures FichaDe(Elfo) == Ficha("Elfo", 15, 10, 10)
    ensures FichaDe(Dragao) == Ficha("dragao", 40, 30, 35)
  {
  }
}
