/**
 * What each class's basic attack and specials do, stated on values: the
 * caster's record and registry, the target's state (if a target was given),
 * and how far each dice stream has been consumed.  The methods of the class
 * `Personagem` are proved to change the objects exactly as these functions say.
 */
module Habilidades {
  import opened Wrappers
  import opened Base
  import opened Dados
  import opened Progressao
  import opened EfeitosTurno

  /** The four hero classes. */
  datatype Classe = Guerreiro | Mago | Arqueiro | Curandeiro

  /** Everything an attack can read or change. */
  datatype Cena = Cena(heroi: Atributos, ef: Efeitos, alvo: Option<Estado>, i6: nat, i20: nat)

  /** The scene afterwards and the value the attack returns (damage that got through). */
  datatype Saida = Saida(cena: Cena, dano: int)

  /** A refused or empty action: nothing changes and 0 is returned. */
  function Nada(c: Cena): Saida { Saida(c, 0) }

  /** The caster's mana after `gastar_mana(custo)` answered yes. */
  function Pagar(c: Cena, custo: int): Cena {
    c.(heroi := c.heroi.(mana := ManaApos(c.heroi.mana, custo)))
  }

  /** `alvo.receber_dano(dano)`: the target is hurt and what got through is returned. */
  function Golpear(c: Cena, dano: int): Saida
    requires c.alvo.Some?
  {
    var t := c.alvo.value;
    Saida(c.(alvo := Some(t.(atrib := AposDano(t.atrib, dano)))), DanoAplicado(t.atrib.defesa, dano))
  }

  /** What a special writes into its target's registry. */
  datatype Marca =
    | Sangrar(turnos: int)   // bleed of at least `turnos` turns, rolled on a d6
    | Atordoar               // one more turn without attacking
    | Marcar(turnos: int)    // fatal mark of at least `turnos` turns

  function Marcado(m: Marca, e: Efeitos): Efeitos {
    match m
    case Sangrar(t) => e.(sangramentoTurnos := Max(e.sangramentoTurnos, t), sangramentoTipo := RoladoD6)
    case Atordoar => e.(naoPodeAtacar := e.naoPodeAtacar + 1)
    case Marcar(t) => e.(marcaFatalTurnos := Max(e.marcaFatalTurnos, t))
  }

  /** Change the target's registry when it has one (an enemy has none). */
  function NoAlvo(c: Cena, m: Marca): Cena
    requires c.alvo.Some?
  {
    var t := c.alvo.value;
    if t.efeitos.Some? then c.(alvo := Some(t.(efeitos := Some(Marcado(m, t.efeitos.value))))) else c
  }

  // ------------------------------------------------------------ cost table

  /** Mana of the basic attack: only the mage pays (1). */
  function CustoBasico(k: Classe): int {
    if k == Mago then 1 else 0
  }

  /** Mana checked by `gastar_mana` in special `n` (0 for the free ones and for Distorção, which has no gate). */
  function CustoEspecial(k: Classe, n: int): int {
    match k
    case Guerreiro => if n == 1 then 7 else if n == 3 then 1 else if n == 4 then 2 else 0
    case Mago => if n == 1 then 15 else if n == 2 then 20 else if n == 4 then 8 else 0
    case Arqueiro => if n == 1 then 8 else if n == 2 then 6 else if n == 3 || n == 4 then 10 else 0
    case Curandeiro => if n == 1 then 3 else if n == 2 then 5 else if n == 3 then 15 else 0
  }

  /** Whether special `n` of class `k` is dispatched only when a target is given. */
  predicate PedeAlvo(k: Classe, n: int) {
    match k
    case Guerreiro => n == 1 || n == 3 || n == 4
    case Mago => n == 1 || n == 2 || n == 4
    case Arqueiro => n == 1 || n == 2 || n == 4
    case Curandeiro => n == 4
  }

  // --------------------------------------------------------- basic attacks

  /** `ataque_basico` of each class. */
  function AtaqueBasico(k: Classe, c: Cena, f: Fonte): Saida
    requires c.alvo.Some?
  {
    var atk := c.heroi.ataque;
    match k
    case Guerreiro => Golpear(c.(i6 := c.i6 + 1), f.seis(c.i6) + atk)
    case Mago =>
      if !PodePagar(c.heroi.mana, 1) then Nada(c)
      else Golpear(Pagar(c, 1).(i6 := c.i6 + 1), f.seis(c.i6) + atk)
    case Arqueiro =>
      if c.ef.proxFlechaD20Critico then
        Golpear(c.(ef := c.ef.(proxFlechaD20Critico := false), i20 := c.i20 + 1), 2 * f.vinte(c.i20) + atk)
      else Golpear(c.(i6 := c.i6 + 1), f.seis(c.i6) + atk)
    case Curandeiro => Golpear(c.(i6 := c.i6 + 1), Max(0, f.seis(c.i6) - 2 + atk))
  }

  /**
   * `calcular_dano_base`: 0 while stunned (no die rolled, buff kept);
   * otherwise `d6 + ataque` through the "next attack" buff, which is used up.
   * Here `dano` is the raw amount, nobody has been hit yet.
   */
  function DanoBase(c: Cena, f: Fonte): Saida {
    if c.ef.naoPodeAtacar > 0 then Nada(c)
    else Saida(c.(ef := Consumidos(c.ef), i6 := c.i6 + 1), ComBuffs(c.ef, f.seis(c.i6) + c.heroi.ataque))
  }

  // ------------------------------------------------------------- Guerreiro

  /** Execução Pública: only from the 4th turn, 7 mana, `5d6 * 2 + 3`. */
  function ExecucaoPublica(c: Cena, f: Fonte): Saida
    requires c.alvo.Some?
  {
    if c.ef.turnos < 4 || !PodePagar(c.heroi.mana, 7) then Nada(c)
    else Golpear(Pagar(c, 7).(i6 := c.i6 + 5), Soma(f.seis, c.i6, 5) * 2 + 3)
  }

  /** Perseverança: free, at least one turn of invulnerability. */
  function Perseveranca(c: Cena): Saida {
    Saida(c.(ef := c.ef.(invulneravelTurnos := Max(c.ef.invulneravelTurnos, 1))), 0)
  }

  /** Golpe Trovejante: 1 mana, `d20 + ataque`. */
  function GolpeTrovejante(c: Cena, f: Fonte): Saida
    requires c.alvo.Some?
  {
    if !PodePagar(c.heroi.mana, 1) then Nada(c)
    else Golpear(Pagar(c, 1).(i20 := c.i20 + 1), f.vinte(c.i20) + c.heroi.ataque)
  }

  /** Lâmina Ínfera: 2 mana, `3d6`, and a d6 bleed of at least 2 turns on a target with a registry. */
  function LaminaInfera(c: Cena, f: Fonte): Saida
    requires c.alvo.Some?
  {
    if !PodePagar(c.heroi.mana, 2) then Nada(c)
    else Golpear(NoAlvo(Pagar(c, 2).(i6 := c.i6 + 3), Sangrar(2)), Soma(f.seis, c.i6, 3))
  }

  // ------------------------------------------------------------------ Mago

  /** Colapso Minguante: 15 mana, `6d6`. */
  function ColapsoMinguante(c: Cena, f: Fonte): Saida
    requires c.alvo.Some?
  {
    if !PodePagar(c.heroi.mana, 15) then Nada(c)
    else Golpear(Pagar(c, 15).(i6 := c.i6 + 6), Soma(f.seis, c.i6, 6))
  }

  /** Descarnar: 20 mana, `3d20`, and a d6 bleed of at least 2 turns. */
  function Descarnar(c: Cena, f: Fonte): Saida
    requires c.alvo.Some?
  {
    if !PodePagar(c.heroi.mana, 20) then Nada(c)
    else Golpear(NoAlvo(Pagar(c, 20).(i20 := c.i20 + 3), Sangrar(2)), Soma(f.vinte, c.i20, 3))
  }

  /** Distorção no Tempo: 50 mana back, with no gate at all. */
  function DistorcaoNoTempo(c: Cena): Saida {
    Saida(c.(heroi := c.heroi.(mana := c.heroi.mana + 50)), 0)
  }

  /** Empurrão Sísmico: once per mission, 8 mana, one more stunned turn on the target, `3d6`. */
  function EmpurraoSismico(c: Cena, f: Fonte): Saida
    requires c.alvo.Some?
  {
    if c.ef.empurraoSismicoUsado || !PodePagar(c.heroi.mana, 8) then Nada(c)
    else
      var pago := NoAlvo(Pagar(c, 8), Atordoar);
      Golpear(pago.(ef := c.ef.(empurraoSismicoUsado := true), i6 := c.i6 + 3), Soma(f.seis, c.i6, 3))
  }

  // -------------------------------------------------------------- Arqueiro

  /** Curingas: 8 mana, `5d6`. */
  function Curingas(c: Cena, f: Fonte): Saida
    requires c.alvo.Some?
  {
    if !PodePagar(c.heroi.mana, 8) then Nada(c)
    else Golpear(Pagar(c, 8).(i6 := c.i6 + 5), Soma(f.seis, c.i6, 5))
  }

  /** Cortes Certeiros: 6 mana, a d6 bleed of at least 5 turns, no direct damage. */
  function CortesCerteiros(c: Cena): Saida
    requires c.alvo.Some?
  {
    if !PodePagar(c.heroi.mana, 6) then Nada(c)
    else Nada(NoAlvo(Pagar(c, 6), Sangrar(5)))
  }

  /** Estilo do Caçador: 10 mana, the next basic attack becomes `d20 * 2`. */
  function EstiloDoCacador(c: Cena): Saida {
    if !PodePagar(c.heroi.mana, 10) then Nada(c)
    else Nada(Pagar(c, 10).(ef := c.ef.(proxFlechaD20Critico := true)))
  }

  /** Marca Fatal: 10 mana, a d6 per turn for at least 7 turns. */
  function MarcaFatal(c: Cena): Saida
    requires c.alvo.Some?
  {
    if !PodePagar(c.heroi.mana, 10) then Nada(c)
    else Nada(NoAlvo(Pagar(c, 10), Marcar(7)))
  }

  // ------------------------------------------------------------ Curandeiro

  /** Capítulo Final given an empty ally list: 3 mana paid, then nobody to heal. */
  function CapituloFinalSemAliados(c: Cena): Saida {
    if !PodePagar(c.heroi.mana, 3) then Nada(c) else Nada(Pagar(c, 3))
  }

  /** Ventos Revigorantes: 15 mana, at least one turn of damage reflection. */
  function VentosRevigorantes(c: Cena): Saida {
    if !PodePagar(c.heroi.mana, 15) then Nada(c)
    else Nada(Pagar(c, 15).(ef := c.ef.(refletirDanoTurnos := Max(c.ef.refletirDanoTurnos, 1))))
  }

  /** Golpe de Misericórdia: free, `4d20` on the target, then the caster's `vida` drops to 0. */
  function GolpeDeMisericordia(c: Cena, f: Fonte): Saida
    requires c.alvo.Some?
  {
    var s := Golpear(c.(i20 := c.i20 + 4), Soma(f.vinte, c.i20, 4));
    s.(cena := s.cena.(heroi := s.cena.heroi.(vida := 0)))
  }

  // -------------------------------------------------------------- dispatch

  /**
   * `usar_especial(n, alvo)` when no single ally is named: a special that
   * needs a target is skipped without one, an unknown `n` does nothing, and
   * the healer's Capítulo Final runs only when a list (here, an empty one) is
   * passed (`comLista`).
   */
  function UsarEspecial(k: Classe, n: int, c: Cena, f: Fonte, comLista: bool): Saida {
    if PedeAlvo(k, n) && c.alvo.None? then Nada(c)
    else match k
      case Guerreiro =>
        if n == 1 then ExecucaoPublica(c, f)
        else if n == 2 then Perseveranca(c)
        else if n == 3 then GolpeTrovejante(c, f)
        else if n == 4 then LaminaInfera(c, f)
        else Nada(c)
      case Mago =>
        if n == 1 then ColapsoMinguante(c, f)
        else if n == 2 then Descarnar(c, f)
        else if n == 3 then DistorcaoNoTempo(c)
        else if n == 4 then EmpurraoSismico(c, f)
        else Nada(c)
      case Arqueiro =>
        if n == 1 then Curingas(c, f)
        else if n == 2 then CortesCerteiros(c)
        else if n == 3 then EstiloDoCacador(c)
        else if n == 4 then MarcaFatal(c)
        else Nada(c)
      case Curandeiro =>
        if n == 1 && comLista then CapituloFinalSemAliados(c)
        else if n == 3 then VentosRevigorantes(c)
        else if n == 4 then GolpeDeMisericordia(c, f)
        else Nada(c)
  }

  // ---------------------------------------------------------------- lemmas

  /**
   * The mana gate: a special whose cost the caster cannot pay changes nothing
   * and returns 0 (Distorção has no gate and is cost 0 here).
   */
  lemma RecusaSemMana(k: Classe, n: int, c: Cena, f: Fonte, comLista: bool)
    requires !PodePagar(c.heroi.mana, CustoEspecial(k, n))
    ensures UsarEspecial(k, n, c, f, comLista) == Nada(c)
  {
    match k
    case Guerreiro =>
    case Mago =>
    case Arqueiro =>
    case Curandeiro =>
  }

  /** Same gate for the basic attack. */
  lemma BasicoRecusaSemMana(k: Classe, c: Cena, f: Fonte)
    requires c.alvo.Some? && !PodePagar(c.heroi.mana, CustoBasico(k))
    ensures AtaqueBasico(k, c, f) == Nada(c)
  {
  }

  /**
   * Mana only ever moves by the special's cost: it is either untouched, or
   * the caster could pay and exactly the cost was taken.  The one exception
   * is Distorção no Tempo, which adds 50 whatever the mana.
   */
  lemma ManaPeloCusto(k: Classe, n: int, c: Cena, f: Fonte, comLista: bool)
    ensures var m := UsarEspecial(k, n, c, f, comLista).cena.heroi.mana;
      if k == Mago && n == 3 then m == c.heroi.mana + 50
      else (m == c.heroi.mana
            || (0 < CustoEspecial(k, n) <= c.heroi.mana && m == c.heroi.mana - CustoEspecial(k, n)))
  {
  }

  /**
   * Besides mana, the caster's record changes only through Golpe de
   * Misericórdia, which sets `vida` to 0.
   */
  lemma HeroiSoPerdeMana(k: Classe, n: int, c: Cena, f: Fonte, comLista: bool)
    ensures var h := UsarEspecial(k, n, c, f, comLista).cena.heroi;
      && h.ataque == c.heroi.ataque && h.defesa == c.heroi.defesa && h.vidaMax == c.heroi.vidaMax
      && (h.vida == c.heroi.vida || (k == Curandeiro && n == 4 && h.vida == 0))
  {
  }

  /** Execução Pública before the 4th turn is refused with nothing spent. */
  lemma ExecucaoAntesDoQuartoTurno(c: Cena, f: Fonte, comLista: bool)
    requires c.ef.turnos < 4
    ensures UsarEspecial(Guerreiro, 1, c, f, comLista) == Nada(c)
  {
  }

  /** Empurrão Sísmico a second time is refused with nothing spent. */
  lemma EmpurraoSoUmaVez(c: Cena, f: Fonte, comLista: bool)
    requires c.ef.empurraoSismicoUsado
    ensures UsarEspecial(Mago, 4, c, f, comLista) == Nada(c)
  {
  }

  /** After a successful Empurrão Sísmico the flag is set, so the next one is refused. */
  lemma EmpurraoMarcaUso(c: Cena, f: Fonte, comLista: bool)
    requires c.alvo.Some? && !c.ef.empurraoSismicoUsado && c.heroi.mana >= 8
    ensures var r := UsarEspecial(Mago, 4, c, f, comLista);
      && r.cena.ef.empurraoSismicoUsado
      && UsarEspecial(Mago, 4, r.cena, f, comLista) == Nada(r.cena)
  {
  }

  /**
   * Empurrão Sísmico adds one stunned turn to the count the target already
   * has (no `max`), and leaves an enemy without a registry as it was.
   */
  lemma EmpurraoSomaAtordoamento(c: Cena, f: Fonte, comLista: bool)
    requires c.alvo.Some? && !c.ef.empurraoSismicoUsado && c.heroi.mana >= 8
    ensures var t := UsarEspecial(Mago, 4, c, f, comLista).cena.alvo;
      && t.Some?
      && (c.alvo.value.efeitos.Some? ==>
            t.value.efeitos == Some(c.alvo.value.efeitos.value.(naoPodeAtacar := c.alvo.value.efeitos.value.naoPodeAtacar + 1)))
      && (c.alvo.value.efeitos.None? ==> t.value.efeitos.None?)
  {
  }

  /** Golpe de Misericórdia leaves the caster at 0 `vida`, whatever it dealt. */
  lemma GolpeZeraVida(c: Cena, f: Fonte, comLista: bool)
    requires c.alvo.Some?
    ensures var r := UsarEspecial(Curandeiro, 4, c, f, comLista);
      && r.cena.heroi.vida == 0
      && r.cena.heroi.mana == c.heroi.mana
      && r.dano == DanoAplicado(c.alvo.value.atrib.defesa, Soma(f.vinte, c.i20, 4))
  {
  }

  /** Distorção no Tempo gives 50 mana even to a caster with none, and nothing else. */
  lemma DistorcaoSemPortao(c: Cena, f: Fonte, comLista: bool)
    ensures UsarEspecial(Mago, 3, c, f, comLista) == Saida(c.(heroi := c.heroi.(mana := c.heroi.mana + 50)), 0)
  {
  }

  /**
   * Damage-over-time specials never shorten an effect: on a target with a
   * registry the duration becomes the larger of the old one and the
   * special's own (2, 2, 5, 7) and bleeding becomes rolled; a target with
   * no registry keeps none.
   */
  lemma DuracoesPeloMaximo(k: Classe, n: int, c: Cena, f: Fonte, comLista: bool)
    requires c.alvo.Some? && c.heroi.mana >= CustoEspecial(k, n)
    requires (k, n) in {(Guerreiro, 4), (Mago, 2), (Arqueiro, 2), (Arqueiro, 4)}
    ensures var t := UsarEspecial(k, n, c, f, comLista).cena.alvo;
      var d := if k == Arqueiro && n == 2 then 5 else if k == Arqueiro then 7 else 2;
      && t.Some?
      && (c.alvo.value.efeitos.None? ==> t.value.efeitos.None?)
      && (c.alvo.value.efeitos.Some? ==>
            (t.value.efeitos.Some? &&
             var e, e' := c.alvo.value.efeitos.value, t.value.efeitos.value;
             if n == 4 && k == Arqueiro then e' == e.(marcaFatalTurnos := Max(e.marcaFatalTurnos, d))
             else e' == e.(sangramentoTurnos := Max(e.sangramentoTurnos, d), sangramentoTipo := RoladoD6)))
  {
  }

  /**
   * The healer's Capítulo Final with an empty list still costs 3 mana when
   * the caster has them; with no list at all it costs nothing.
   */
  lemma CapituloPagaSemAliados(c: Cena, f: Fonte)
    requires c.heroi.mana >= 3
    ensures UsarEspecial(Curandeiro, 1, c, f, true) == Nada(c.(heroi := c.heroi.(mana := c.heroi.mana - 3)))
    ensures UsarEspecial(Curandeiro, 1, c, f, false) == Nada(c)
  {
  }

  /**
   * The value an attack returns is what the target actually lost: never
   * negative, and exactly the drop in the target's `vida` unless that
   * `vida` ran out first.  Nothing but `vida` and the registry of the target
   * changes.
   */
  lemma DanoEhOPerdido(k: Classe, n: int, c: Cena, f: Fonte, comLista: bool)
    requires c.alvo.Some? && c.alvo.value.atrib.vida >= 0
    ensures var r := UsarEspecial(k, n, c, f, comLista);
      var a, a' := c.alvo.value.atrib, r.cena.alvo.value.atrib;
      && r.cena.alvo.Some?
      && r.dano >= 0
      && a' == a.(vida := a'.vida)
      && a.vida - a'.vida == Min(a.vida, r.dano)
  {
    match k
    case Guerreiro =>
    case Mago =>
    case Arqueiro =>
    case Curandeiro =>
  }

  /**
   * `calcular_dano_base` never returns a negative amount, rolls nothing
   * while stunned, and uses the buff up: the next call gets only `d6 + ataque`.
   */
  lemma DanoBaseConsomeBuff(c: Cena, f: Fonte)
    ensures DanoBase(c, f).dano >= 0
    ensures c.ef.naoPodeAtacar > 0 ==> DanoBase(c, f) == Nada(c)
    ensures c.ef.naoPodeAtacar <= 0 ==>
      var r := DanoBase(c, f);
      && r.cena.ef.bonusProximo == 0 && !r.cena.ef.criticoProximo
      && r.cena.heroi == c.heroi
      && DanoBase(r.cena, f).dano == Max(0, f.seis(c.i6 + 1) + c.heroi.ataque)
  {
    if c.ef.naoPodeAtacar <= 0 {
      BuffUmaVez(c.ef, f.seis(c.i6 + 1) + c.heroi.ataque);
    }
  }

  /** The same for the basic attacks. */
  lemma BasicoDanoEhOPerdido(k: Classe, c: Cena, f: Fonte)
    requires c.alvo.Some? && c.alvo.value.atrib.vida >= 0
    ensures var r := AtaqueBasico(k, c, f);
      var a, a' := c.alvo.value.atrib, r.cena.alvo.value.atrib;
      && r.cena.alvo.Some?
      && r.dano >= 0
      && a' == a.(vida := a'.vida)
      && a.vida - a'.vida == Min(a.vida, r.dano)
  {
  }
}
