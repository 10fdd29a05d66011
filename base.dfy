/**
 * The shared combat record and the entity that owns it: damage mitigated by
 * defence, hit points floored at zero, the life check, and the capped heal
 * that characters and the delayed-heal effect both use.
 */
module Base {
  import opened Wrappers

  function Max(a: int, b: int): int { if a >= b then a else b }
  function Min(a: int, b: int): int { if a <= b then a else b }

  /**
   * The dataclass `Atributos` once its owner has been built: the constructor
   * of `Entidade` fills in a missing `vida_max`, so here it is always a number.
   */
  datatype Atributos = Atributos(vida: int, ataque: int, defesa: int, mana: int, vidaMax: int)

  /** How a bleed hurts: a fresh d6 each turn, or the fixed `sangramento_dano`. */
  datatype TipoSangramento = SemTipo | RoladoD6

  /**
   * The effect registry of a character (the `efeitos` dictionary): every key
   * the character constructor creates, one field each.
   */
  datatype Efeitos = Efeitos(
    eletroTurnos: int,
    venenoTurnos: int, venenoDano: int,
    sangramentoTurnos: int, sangramentoTipo: TipoSangramento, sangramentoDano: int,
    marcaFatalTurnos: int,
    sementeTurnos: int,
    naoPodeAtacar: int,
    refletirDanoTurnos: int,
    invulneravelTurnos: int,
    criticoProximo: bool,
    bonusProximo: int,
    turnos: int,
    empurraoSismicoUsado: bool,
    proxFlechaD20Critico: bool)

  /** The registry a new character starts with. */
  const EfeitosIniciais: Efeitos :=
    Efeitos(0, 0, 2, 0, SemTipo, 0, 0, 0, 0, 0, 0, false, 0, 0, false, false)

  /** The value snapshot of an entity: its record and, for characters only, its effects. */
  datatype Estado = Estado(atrib: Atributos, efeitos: Option<Efeitos>)

  /** Damage that gets through: the raw amount (negative counts as 0) minus the defence (negative counts as 0). */
  function DanoAplicado(defesa: int, dano: int): (r: int)
    ensures 0 <= r <= Max(0, dano)
    ensures r == 0 <==> dano <= Max(0, defesa)
    ensures r > 0 ==> r == dano - Max(0, defesa)
  {
    Max(0, Max(0, dano) - Max(0, defesa))
  }

  /** The record after `receber_dano(dano)`. */
  function AposDano(a: Atributos, dano: int): (r: Atributos)
    ensures r == a.(vida := r.vida)
    ensures r.vida >= 0
    ensures r.vida > 0 ==> r.vida == a.vida - DanoAplicado(a.defesa, dano)
    ensures a.vida >= 0 ==> a.vida - r.vida == Min(a.vida, DanoAplicado(a.defesa, dano))
  {
    a.(vida := Max(0, a.vida - DanoAplicado(a.defesa, dano)))
  }

  /** More raw damage never lets less through. */
  lemma DanoMonotono(defesa: int, d1: int, d2: int)
    requires d1 <= d2
    ensures DanoAplicado(defesa, d1) <= DanoAplicado(defesa, d2)
  {
  }

  /** The ceiling of a heal: `vida_max or vida` (a zero `vida_max` falls back to `vida`). */
  function Teto(a: Atributos): int {
    if a.vidaMax != 0 then a.vidaMax else a.vida
  }

  /** The record after `curar(qtd)`. */
  function Curado(a: Atributos, qtd: int): (r: Atributos)
    ensures r == a.(vida := r.vida)
    ensures r.vida <= Teto(a)
    ensures a.vida <= Teto(a) ==> a.vida <= r.vida <= a.vida + Max(0, qtd)
    ensures a.vida + Max(0, qtd) <= Teto(a) ==> r.vida == a.vida + Max(0, qtd)
    ensures a.vida + Max(0, qtd) >= Teto(a) ==> r.vida == Teto(a)
  {
    a.(vida := Min(Teto(a), a.vida + Max(0, qtd)))
  }

  /** What `curar` returns: the hit points actually restored. */
  function Restaurado(a: Atributos, qtd: int): (r: int)
    ensures a.vida <= Teto(a) ==> 0 <= r <= Max(0, qtd)
    ensures a.vida > Teto(a) ==> r == Teto(a) - a.vida < 0
    ensures Curado(a, qtd).vida == a.vida + r
  {
    Curado(a, qtd).vida - a.vida
  }

  class Entidade {
    const nome: string
    var atrib: Atributos
    /** `None` for an `Inimigo`, which has no `efeitos` attribute. */
    var efeitos: Option<Efeitos>

    /** `Entidade.__init__`; a missing `vida_max` becomes the initial `vida`. */
    constructor (nome: string, vida: int, ataque: int, defesa: int, mana: int, vidaMax: Option<int>)
      ensures this.nome == nome && efeitos == None
      ensures atrib == Atributos(vida, ataque, defesa, mana, vidaMax.GetOr(vida))
      ensures vidaMax.None? ==> atrib.vidaMax == vida
      ensures vidaMax.Some? ==> atrib.vidaMax == vidaMax.value
    {
      this.nome := nome;
      atrib := Atributos(vida, ataque, defesa, mana, vidaMax.GetOr(vida));
      efeitos := None;
    }

    function Retrato(): Estado
      reads this
    {
      Estado(atrib, efeitos)
    }

    predicate EstaVivo()
      reads this
    {
      atrib.vida > 0
    }

    /** `receber_dano`: mitigate by defence, lower `vida` (never below 0), return what got through. */
    method ReceberDano(dano: int) returns (aplicado: int)
      modifies this
      ensures aplicado == DanoAplicado(old(atrib.defesa), dano)
      ensures atrib == AposDano(old(atrib), dano)
      ensures efeitos == old(efeitos)
      ensures EstaVivo() <==> old(atrib.vida) > aplicado
    {
      var bruto := Max(0, dano);
      var defesa := Max(0, atrib.defesa);
      aplicado := Max(0, bruto - defesa);
      atrib := atrib.(vida := Max(0, atrib.vida - aplicado));
    }
  }
}
