/**
 * The start-of-turn effect tick and the "next attack" buff, both of which work
 * on any entity and do nothing to one that has no effect registry.
 */
module EfeitosTurno {
  import opened Wrappers
  import opened Base
  import opened Dados

  /** A counter that is positive loses one; any other value is left alone. */
  function Dec(c: int): int { if c > 0 then c - 1 else c }

  /** The registry with every turn counter the tick looks at decremented by `Dec`. */
  function Decrementados(e: Efeitos): Efeitos {
    e.(eletroTurnos := Dec(e.eletroTurnos),
       venenoTurnos := Dec(e.venenoTurnos),
       sangramentoTurnos := Dec(e.sangramentoTurnos),
       marcaFatalTurnos := Dec(e.marcaFatalTurnos),
       sementeTurnos := Dec(e.sementeTurnos),
       naoPodeAtacar := Dec(e.naoPodeAtacar),
       refletirDanoTurnos := Dec(e.refletirDanoTurnos),
       invulneravelTurnos := Dec(e.invulneravelTurnos))
  }

  /** State threaded through the tick: record, registry, damage so far, dice consumed. */
  datatype Passo = Passo(atrib: Atributos, ef: Efeitos, total: int, i6: nat, i20: nat)

  /** One `total += alvo.receber_dano(dano)`. */
  function Ferir(p: Passo, dano: int): Passo {
    p.(atrib := AposDano(p.atrib, dano), total := p.total + DanoAplicado(p.atrib.defesa, dano))
  }

  /** Electrocution: `max(0, d6() - 1)` unless invulnerable. */
  function PassoEletro(p: Passo, f: Fonte, inv: bool): Passo {
    if p.ef.eletroTurnos > 0 then
      var q := if inv then p else Ferir(p, Max(0, f.seis(p.i6) - 1)).(i6 := p.i6 + 1);
      q.(ef := q.ef.(eletroTurnos := q.ef.eletroTurnos - 1))
    else p
  }

  /** Poison: the fixed `veneno_dano` (negative counts as 0). */
  function PassoVeneno(p: Passo, inv: bool): Passo {
    if p.ef.venenoTurnos > 0 then
      var q := if inv then p else Ferir(p, Max(0, p.ef.venenoDano));
      q.(ef := q.ef.(venenoTurnos := q.ef.venenoTurnos - 1))
    else p
  }

  /** Bleed: a d6 when its type is "d6", otherwise the fixed `sangramento_dano`. */
  function PassoSangramento(p: Passo, f: Fonte, inv: bool): Passo {
    if p.ef.sangramentoTurnos > 0 then
      var q :=
        if inv then p
        else if p.ef.sangramentoTipo == RoladoD6 then Ferir(p, f.seis(p.i6)).(i6 := p.i6 + 1)
        else Ferir(p, Max(0, p.ef.sangramentoDano));
      q.(ef := q.ef.(sangramentoTurnos := q.ef.sangramentoTurnos - 1))
    else p
  }

  /** Fatal mark: a d6. */
  function PassoMarca(p: Passo, f: Fonte, inv: bool): Passo {
    if p.ef.marcaFatalTurnos > 0 then
      var q := if inv then p else Ferir(p, f.seis(p.i6)).(i6 := p.i6 + 1);
      q.(ef := q.ef.(marcaFatalTurnos := q.ef.marcaFatalTurnos - 1))
    else p
  }

  /** Delayed heal: count down, and heal `max(0, d20() - 5)` when the count reaches 0. */
  function PassoSemente(p: Passo, f: Fonte): Passo {
    if p.ef.sementeTurnos > 0 then
      var q := p.(ef := p.ef.(sementeTurnos := p.ef.sementeTurnos - 1));
      if q.ef.sementeTurnos == 0 then
        q.(atrib := Curado(q.atrib, Max(0, f.vinte(q.i20) - 5)), i20 := q.i20 + 1)
      else q
    else p
  }

  /** The counters that deal no damage: stun, reflection, invulnerability. */
  function PassoContadores(p: Passo): Passo {
    var e := p.ef;
    p.(ef := e.(naoPodeAtacar := Dec(e.naoPodeAtacar),
                refletirDanoTurnos := Dec(e.refletirDanoTurnos),
                invulneravelTurnos := Dec(e.invulneravelTurnos)))
  }

  /**
   * `tick_efeitos_inicio_turno` on an entity that has a registry: the steps in
   * their fixed order, with invulnerability read once at the start.
   */
  function Tick(a: Atributos, e: Efeitos, f: Fonte, i6: nat, i20: nat): Passo {
    var p4 := Danos(Passo(a, e, 0, i6, i20), f, e.invulneravelTurnos > 0);
    PassoContadores(PassoSemente(p4, f))
  }

  /** The four damage-over-time steps, in order. */
  function Danos(p: Passo, f: Fonte, inv: bool): Passo {
    PassoMarca(PassoSangramento(PassoVeneno(PassoEletro(p, f, inv), inv), f, inv), f, inv)
  }

  /** The d6s a tick rolls: one per active rolled effect, none while invulnerable. */
  function RolagensD6(e: Efeitos): nat {
    if e.invulneravelTurnos > 0 then 0
    else
      (if e.eletroTurnos > 0 then 1 else 0)
      + (if e.sangramentoTurnos > 0 && e.sangramentoTipo == RoladoD6 then 1 else 0)
      + (if e.marcaFatalTurnos > 0 then 1 else 0)
  }

  /** Record after damage `total`, floored at 0, when no heal happens on the way. */
  function Ferido(a: Atributos, total: int): Atributos {
    a.(vida := Max(0, a.vida - total))
  }

  /**
   * Every positive turn counter loses exactly one, every other counter is
   * untouched, and no other field of the registry changes.
   */
  lemma {:induction false} TickContadores(a: Atributos, e: Efeitos, f: Fonte, i6: nat, i20: nat)
    ensures Tick(a, e, f, i6, i20).ef == Decrementados(e)
  {
    var inv := e.invulneravelTurnos > 0;
    var p1 := PassoEletro(Passo(a, e, 0, i6, i20), f, inv);
    var p2 := PassoVeneno(p1, inv);
    var p3 := PassoSangramento(p2, f, inv);
    var p4 := PassoMarca(p3, f, inv);
    var p5 := PassoSemente(p4, f);
    assert Danos(Passo(a, e, 0, i6, i20), f, inv) == p4;
    assert p1.ef == e.(eletroTurnos := Dec(e.eletroTurnos));
    assert p2.ef == p1.ef.(venenoTurnos := Dec(e.venenoTurnos));
    assert p3.ef == p2.ef.(sangramentoTurnos := Dec(e.sangramentoTurnos));
    assert p4.ef == p3.ef.(marcaFatalTurnos := Dec(e.marcaFatalTurnos));
    assert p5.ef == p4.ef.(sementeTurnos := Dec(e.sementeTurnos));
    assert Tick(a, e, f, i6, i20) == PassoContadores(p5);
  }

  /**
   * The record after a tick: the damage `total` is taken (floored at 0), then,
   * only on the tick where the seed counter goes from 1 to 0, a heal of
   * `max(0, d20 - 5)` is applied.  Exactly one d6 per rolled damage effect and
   * one d20 for the seed are consumed.
   */
  lemma TickVida(a: Atributos, e: Efeitos, f: Fonte, i6: nat, i20: nat)
    requires a.vida >= 0
    ensures var r := Tick(a, e, f, i6, i20);
      && r.total >= 0
      && r.i6 == i6 + RolagensD6(e)
      && r.i20 == i20 + (if e.sementeTurnos == 1 then 1 else 0)
      && r.atrib == if e.sementeTurnos == 1
                    then Curado(Ferido(a, r.total), Max(0, f.vinte(i20) - 5))
                    else Ferido(a, r.total)
  {
    var p4 := Danos(Passo(a, e, 0, i6, i20), f, e.invulneravelTurnos > 0);
    DanosVida(a, e, f, i6, i20);
    assert Tick(a, e, f, i6, i20).total == p4.total;
  }

  /** The damage steps hurt the record by exactly their total and consume one d6 per rolled effect. */
  lemma {:induction false} DanosVida(a: Atributos, e: Efeitos, f: Fonte, i6: nat, i20: nat)
    requires a.vida >= 0
    ensures var p := Danos(Passo(a, e, 0, i6, i20), f, e.invulneravelTurnos > 0);
      && p.total >= 0 && p.atrib == Ferido(a, p.total)
      && p.i6 == i6 + RolagensD6(e) && p.i20 == i20
      && p.ef.sementeTurnos == e.sementeTurnos
  {
    var inv := e.invulneravelTurnos > 0;
    var p0 := Passo(a, e, 0, i6, i20);
    var p1 := PassoEletro(p0, f, inv);
    EtapaDano(a, p0, p1, if e.eletroTurnos > 0 && !inv then Some(Max(0, f.seis(i6) - 1)) else None);
    var p2 := PassoVeneno(p1, inv);
    EtapaDano(a, p1, p2, if e.venenoTurnos > 0 && !inv then Some(Max(0, e.venenoDano)) else None);
    var p3 := PassoSangramento(p2, f, inv);
    EtapaDano(a, p2, p3,
      if e.sangramentoTurnos > 0 && !inv then
        Some(if e.sangramentoTipo == RoladoD6 then f.seis(p2.i6) else Max(0, e.sangramentoDano))
      else None);
    var p4 := PassoMarca(p3, f, inv);
    EtapaDano(a, p3, p4, if e.marcaFatalTurnos > 0 && !inv then Some(f.seis(p3.i6)) else None);
  }

  /** One damage step keeps "record = initial record hurt by the total so far" (or changes nothing). */
  lemma EtapaDano(a: Atributos, p: Passo, q: Passo, dano: Option<int>)
    requires a.vida >= 0 && p.total >= 0 && p.atrib == Ferido(a, p.total)
    requires dano.None? ==> q.atrib == p.atrib && q.total == p.total
    requires dano.Some? ==> q.atrib == Ferir(p, dano.value).atrib && q.total == Ferir(p, dano.value).total
    ensures q.total >= p.total && q.atrib == Ferido(a, q.total)
  {
  }

  /**
   * While invulnerable the tick deals no damage and rolls no d6, yet every
   * active counter still goes down by one; only the seed heal can change `vida`.
   */
  lemma TickInvulneravel(a: Atributos, e: Efeitos, f: Fonte, i6: nat, i20: nat)
    requires e.invulneravelTurnos > 0
    ensures var r := Tick(a, e, f, i6, i20);
      && r.total == 0
      && r.i6 == i6
      && r.ef == Decrementados(e)
      && r.atrib == if e.sementeTurnos == 1 then Curado(a, Max(0, f.vinte(i20) - 5)) else a
  {
    TickContadores(a, e, f, i6, i20);
    var p0 := Passo(a, e, 0, i6, i20);
    var p1 := PassoEletro(p0, f, true);
    var p2 := PassoVeneno(p1, true);
    var p3 := PassoSangramento(p2, f, true);
    var p4 := PassoMarca(p3, f, true);
    assert p4 == p0.(ef := p4.ef) && p4.ef.sementeTurnos == e.sementeTurnos;
    assert Danos(p0, f, true) == p4;
  }

  /** `tick_efeitos_inicio_turno`. */
  method TickEfeitosInicioTurno(alvo: Entidade, dado: Dado) returns (total: int)
    requires dado.fonte.Valida()
    modifies alvo, dado
    ensures old(alvo.efeitos).None? ==>
      total == 0 && alvo.Retrato() == old(alvo.Retrato())
      && dado.usados6 == old(dado.usados6) && dado.usados20 == old(dado.usados20)
    ensures old(alvo.efeitos).Some? ==>
      var r := Tick(old(alvo.atrib), old(alvo.efeitos).value, dado.fonte, old(dado.usados6), old(dado.usados20));
      alvo.atrib == r.atrib && alvo.efeitos == Some(r.ef) && total == r.total
      && dado.usados6 == r.i6 && dado.usados20 == r.i20
  {
    if alvo.efeitos.None? {
      return 0;
    }
    var e := alvo.efeitos.value;
    ghost var a0, i6, i20 := alvo.atrib, dado.usados6, dado.usados20;
    e, total := AplicarDanos(alvo, dado, e, e.invulneravelTurnos > 0);
    e := AplicarSemente(alvo, dado, e, total);
    // Stun, reflection and invulnerability only count down.
    e := e.(naoPodeAtacar := Dec(e.naoPodeAtacar),
            refletirDanoTurnos := Dec(e.refletirDanoTurnos),
            invulneravelTurnos := Dec(e.invulneravelTurnos));
    alvo.efeitos := Some(e);
  }

  /** The delayed heal: only a character has both `efeitos` and `curar`. */
  method AplicarSemente(alvo: Entidade, dado: Dado, e0: Efeitos, total: int) returns (e: Efeitos)
    requires dado.fonte.Valida()
    modifies alvo`atrib, dado
    ensures PassoSemente(Passo(old(alvo.atrib), e0, total, old(dado.usados6), old(dado.usados20)), dado.fonte)
         == Passo(alvo.atrib, e, total, dado.usados6, dado.usados20)
  {
    e := e0;
    if e.sementeTurnos > 0 {
      e := e.(sementeTurnos := e.sementeTurnos - 1);
      if e.sementeTurnos == 0 {
        var r := dado.D20();
        alvo.atrib := Curado(alvo.atrib, Max(0, r - 5));
      }
    }
  }

  /** The damage-over-time part of the tick, on the registry `e` read from `alvo`. */
  method AplicarDanos(alvo: Entidade, dado: Dado, e0: Efeitos, inv: bool) returns (e: Efeitos, total: int)
    requires dado.fonte.Valida()
    modifies alvo, dado
    ensures alvo.efeitos == old(alvo.efeitos)
    ensures Danos(Passo(old(alvo.atrib), e0, 0, old(dado.usados6), old(dado.usados20)), dado.fonte, inv)
         == Passo(alvo.atrib, e, total, dado.usados6, dado.usados20)
  {
    e, total := EtapaEletro(alvo, dado, e0, 0, inv);
    e, total := EtapaVeneno(alvo, dado, e, total, inv);
    e, total := EtapaSangramento(alvo, dado, e, total, inv);
    e, total := EtapaMarca(alvo, dado, e, total, inv);
  }

  /** Electrocution step. */
  method EtapaEletro(alvo: Entidade, dado: Dado, e0: Efeitos, t0: int, inv: bool) returns (e: Efeitos, total: int)
    requires dado.fonte.Valida()
    modifies alvo, dado
    ensures alvo.efeitos == old(alvo.efeitos)
    ensures PassoEletro(Passo(old(alvo.atrib), e0, t0, old(dado.usados6), old(dado.usados20)), dado.fonte, inv)
         == Passo(alvo.atrib, e, total, dado.usados6, dado.usados20)
  {
    e, total := e0, t0;
    if e.eletroTurnos > 0 {
      if !inv {
        var r := dado.D6();
        var ap := alvo.ReceberDano(Max(0, r - 1));
        total := total + ap;
      }
      e := e.(eletroTurnos := e.eletroTurnos - 1);
    }
  }

  /** Poison step. */
  method EtapaVeneno(alvo: Entidade, dado: Dado, e0: Efeitos, t0: int, inv: bool) returns (e: Efeitos, total: int)
    requires dado.fonte.Valida()
    modifies alvo, dado
    ensures alvo.efeitos == old(alvo.efeitos)
    ensures PassoVeneno(Passo(old(alvo.atrib), e0, t0, old(dado.usados6), old(dado.usados20)), inv)
         == Passo(alvo.atrib, e, total, dado.usados6, dado.usados20)
  {
    e, total := e0, t0;
    if e.venenoTurnos > 0 {
      if !inv {
        var ap := alvo.ReceberDano(Max(0, e.venenoDano));
        total := total + ap;
      }
      e := e.(venenoTurnos := e.venenoTurnos - 1);
    }
  }

  /** Bleed step. */
  method EtapaSangramento(alvo: Entidade, dado: Dado, e0: Efeitos, t0: int, inv: bool) returns (e: Efeitos, total: int)
    requires dado.fonte.Valida()
    modifies alvo, dado
    ensures alvo.efeitos == old(alvo.efeitos)
    ensures PassoSangramento(Passo(old(alvo.atrib), e0, t0, old(dado.usados6), old(dado.usados20)), dado.fonte, inv)
         == Passo(alvo.atrib, e, total, dado.usados6, dado.usados20)
  {
    e, total := e0, t0;
    if e.sangramentoTurnos > 0 {
      if !inv {
        var dano;
        if e.sangramentoTipo == RoladoD6 {
          dano := dado.D6();
        } else {
          dano := Max(0, e.sangramentoDano);
        }
        var ap := alvo.ReceberDano(dano);
        total := total + ap;
      }
      e := e.(sangramentoTurnos := e.sangramentoTurnos - 1);
    }
  }

  /** Fatal-mark step. */
  method EtapaMarca(alvo: Entidade, dado: Dado, e0: Efeitos, t0: int, inv: bool) returns (e: Efeitos, total: int)
    requires dado.fonte.Valida()
    modifies alvo, dado
    ensures alvo.efeitos == old(alvo.efeitos)
    ensures PassoMarca(Passo(old(alvo.atrib), e0, t0, old(dado.usados6), old(dado.usados20)), dado.fonte, inv)
         == Passo(alvo.atrib, e, total, dado.usados6, dado.usados20)
  {
    e, total := e0, t0;
    if e.marcaFatalTurnos > 0 {
      if !inv {
        var r := dado.D6();
        var ap := alvo.ReceberDano(r);
        total := total + ap;
      }
      e := e.(marcaFatalTurnos := e.marcaFatalTurnos - 1);
    }
  }

  /** Damage after the "next attack" buff: bonus added, then doubled on a pending critical, floored at 0. */
  function ComBuffs(e: Efeitos, base: int): (r: int)
    ensures r >= 0
    ensures !e.criticoProximo ==> r == Max(0, base + e.bonusProximo)
    ensures e.criticoProximo ==> r == Max(0, 2 * (base + e.bonusProximo))
  {
    var dano := base + e.bonusProximo;
    Max(0, if e.criticoProximo then dano * 2 else dano)
  }

  /** The registry once the buff has been used up. */
  function Consumidos(e: Efeitos): Efeitos {
    e.(bonusProximo := 0, criticoProximo := false)
  }

  /** A buff applies once: after it is consumed the next attack gets only its own base (floored at 0). */
  lemma BuffUmaVez(e: Efeitos, base: int)
    ensures ComBuffs(Consumidos(e), base) == Max(0, base)
    ensures Consumidos(Consumidos(e)) == Consumidos(e)
  {
  }

  /** `aplicar_buffs_de_ataque`. */
  method AplicarBuffsDeAtaque(user: Entidade, base: int) returns (dano: int)
    modifies user
    ensures user.atrib == old(user.atrib)
    ensures old(user.efeitos).None? ==> dano == base && user.efeitos == None
    ensures old(user.efeitos).Some? ==>
      dano == ComBuffs(old(user.efeitos).value, base)
      && user.efeitos == Some(Consumidos(old(user.efeitos).value))
  {
    if user.efeitos.None? {
      return base;
    }
    var e := user.efeitos.value;
    var d := base + e.bonusProximo;
    e := e.(bonusProximo := 0);
    if e.criticoProximo {
      d := d * 2;
      e := e.(criticoProximo := false);
    }
    user.efeitos := Some(e);
    dano := Max(0, d);
  }
}
