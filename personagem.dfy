/**
 * The playable character: an entity with an effect registry, a level and
 * experience, and the four classes' attacks.  Each method changes the objects
 * exactly as the value-level functions of `Habilidades`, `Progressao` and
 * `EfeitosTurno` say.
 */
module Personagens {
  import opened Wrappers
  import opened Base
  import opened Dados
  import opened EfeitosTurno
  import opened Progressao
  import opened Habilidades

  /** `k` heals of `q` in a row. */
  function CuradoVezes(a: Atributos, q: int, k: nat): Atributos
    decreases k
  {
    if k == 0 then a else Curado(CuradoVezes(a, q, k - 1), q)
  }

  /**
   * Healing `k >= 1` times by `q` is one heal by `k * q`: the heal never
   * changes the cap, and the minimum against the cap absorbs every step.
   */
  lemma {:induction false} CuradoVezesFechado(a: Atributos, q: int, k: nat)
    requires k >= 1
    ensures CuradoVezes(a, q, k) == a.(vida := Min(Teto(a), a.vida + k * Max(0, q)))
    decreases k
  {
    if k > 1 {
      CuradoVezesFechado(a, q, k - 1);
      var b := CuradoVezes(a, q, k - 1);
      assert Teto(b) == Teto(a);
      assert (k - 1) * Max(0, q) + Max(0, q) == k * Max(0, q);
    }
  }

  class Personagem {
    /** The entity part: record, effect registry, `receber_dano`. */
    const corpo: Entidade
    const classe: Classe
    var nivel: int
    var xp: int

    /** A character always has a registry, and its level and experience are coherent. */
    ghost predicate Valid()
      reads this, corpo
    {
      corpo.efeitos.Some? && Coerente(nivel, xp)
    }

    /** `Personagem.__init__`: level 1, no experience, the initial registry. */
    constructor (nome: string, classe: Classe, vida: int, ataque: int, defesa: int, mana: int, vidaMax: Option<int>)
      ensures Valid() && fresh(corpo) && this.classe == classe
      ensures corpo.nome == nome && corpo.atrib == Atributos(vida, ataque, defesa, mana, vidaMax.GetOr(vida))
      ensures corpo.efeitos == Some(EfeitosIniciais) && nivel == 1 && xp == 0
    {
      var e := new Entidade(nome, vida, ataque, defesa, mana, vidaMax);
      e.efeitos := Some(EfeitosIniciais);
      corpo := e;
      this.classe := classe;
      nivel, xp := 1, 0;
    }

    /** The scene an attack sees: this character, the target if any, the dice consumed. */
    ghost function Quadro(alvo: Option<Entidade>, dado: Dado): Cena
      requires corpo.efeitos.Some?
      reads this, corpo, dado, if alvo.Some? then {alvo.value} else {}
    {
      Cena(corpo.atrib, corpo.efeitos.value,
           if alvo.Some? then Some(alvo.value.Retrato()) else None,
           dado.usados6, dado.usados20)
    }

    /** `inicio_turno`: the start-of-turn tick on this character. */
    method InicioTurno(dado: Dado) returns (total: int)
      requires Valid() && dado.fonte.Valida()
      modifies corpo, dado
      ensures Valid()
      ensures var r := Tick(old(corpo.atrib), old(corpo.efeitos.value), dado.fonte, old(dado.usados6), old(dado.usados20));
        corpo.atrib == r.atrib && corpo.efeitos == Some(r.ef) && total == r.total
        && dado.usados6 == r.i6 && dado.usados20 == r.i20
    {
      total := TickEfeitosInicioTurno(corpo, dado);
    }

    /** `curar`: capped heal, returning what was restored. */
    method Curar(qtd: int) returns (restaurado: int)
      modifies corpo
      ensures corpo.atrib == Curado(old(corpo.atrib), qtd)
      ensures restaurado == Restaurado(old(corpo.atrib), qtd)
      ensures corpo.efeitos == old(corpo.efeitos)
    {
      var ant := corpo.atrib.vida;
      corpo.atrib := corpo.atrib.(vida := Min(Teto(corpo.atrib), corpo.atrib.vida + Max(0, qtd)));
      restaurado := corpo.atrib.vida - ant;
    }

    /** `gastar_mana`: pay `custo` if possible. */
    method GastarMana(custo: int) returns (ok: bool)
      modifies corpo
      ensures ok == PodePagar(old(corpo.atrib.mana), custo)
      ensures corpo.atrib == old(corpo.atrib).(mana := ManaApos(old(corpo.atrib.mana), custo))
      ensures corpo.efeitos == old(corpo.efeitos)
    {
      if custo <= 0 {
        return true;
      }
      var atual := corpo.atrib.mana;
      if atual < custo {
        return false;
      }
      corpo.atrib := corpo.atrib.(mana := atual - custo);
      return true;
    }

    /** `calcular_dano_base`. */
    method CalcularDanoBase(dado: Dado) returns (dano: int)
      requires Valid() && dado.fonte.Valida()
      modifies corpo, dado
      ensures Valid()
      ensures var s := DanoBase(old(Quadro(None, dado)), dado.fonte);
        Quadro(None, dado) == s.cena && dano == s.dano
    {
      if corpo.efeitos.value.naoPodeAtacar > 0 {
        return 0;
      }
      var r := dado.D6();
      dano := AplicarBuffsDeAtaque(corpo, r + corpo.atrib.ataque);
    }

    /**
     * `ganhar_xp`: the level-up cascade, proved to end in the state and the
     * reports `Progressao.GanharXp` describes.
     */
    method GanharXp(qtd: int) returns (avisos: seq<Aviso>)
      requires Valid()
      modifies this, corpo
      ensures Valid()
      ensures var r := Progressao.GanharXp(Progresso(old(nivel), old(xp), old(corpo.atrib)), qtd);
        nivel == r.fim.nivel && xp == r.fim.xp && corpo.atrib == r.fim.atrib && avisos == r.avisos
      ensures corpo.efeitos == old(corpo.efeitos)
    {
      GanharXpCoerente(Progresso(nivel, xp, corpo.atrib), qtd);
      avisos := [];
      var q := Max(0, qtd);
      if q == 0 || nivel >= NivelMaximo {
        return;
      }
      xp := xp + q;
      avisos := SubirNiveis();
      if nivel >= NivelMaximo {
        xp := 0;
        avisos := avisos + [NivelMaximoAtingido];
      }
    }

    /** The `while` loop of `ganhar_xp`: level up while below 10 and the threshold is met. */
    method SubirNiveis() returns (avisos: seq<Aviso>)
      modifies this, corpo
      ensures var r := Cascata(Progresso(old(nivel), old(xp), old(corpo.atrib)));
        nivel == r.fim.nivel && xp == r.fim.xp && corpo.atrib == r.fim.atrib && avisos == r.avisos
      ensures corpo.efeitos == old(corpo.efeitos)
    {
      avisos := [];
      ghost var meta := Cascata(Progresso(nivel, xp, corpo.atrib));
      while nivel < NivelMaximo && xp >= XpParaProximo(nivel)
        invariant Cascata(Progresso(nivel, xp, corpo.atrib)).fim == meta.fim
        invariant avisos + Cascata(Progresso(nivel, xp, corpo.atrib)).avisos == meta.avisos
        invariant corpo.efeitos == old(corpo.efeitos)
        decreases NivelMaximo - nivel
      {
        ghost var antes := Progresso(nivel, xp, corpo.atrib);
        xp := xp - XpParaProximo(nivel);
        nivel := nivel + 1;
        var a := corpo.atrib;
        var vidaMax := Teto(a) + 5;
        a := a.(vidaMax := vidaMax);
        a := a.(vida := Min(vidaMax, a.vida + 5));
        a := a.(ataque := a.ataque + 1, defesa := a.defesa + 1, mana := a.mana + 5);
        corpo.atrib := a;
        avisos := avisos + [SubiuNivel(nivel, LiberaHabilidade(nivel))];
        ghost var depois := Cascata(Progresso(nivel, xp, corpo.atrib));
        assert Cascata(antes) == Subida(depois.fim, [SubiuNivel(nivel, LiberaHabilidade(nivel))] + depois.avisos);
      }
    }

    // ------------------------------------------------------- basic attacks

    /** `ataque_basico` of this character's class. */
    method AtaqueBasico(alvo: Entidade, dado: Dado) returns (dano: int)
      requires Valid() && alvo != corpo && dado.fonte.Valida()
      modifies corpo, alvo, dado
      ensures Valid()
      ensures var s := Habilidades.AtaqueBasico(classe, old(Quadro(Some(alvo), dado)), dado.fonte);
        Quadro(Some(alvo), dado) == s.cena && dano == s.dano
    {
      var ok := GastarMana(CustoBasico(classe));
      if !ok {
        return 0;
      }
      match classe
      case Guerreiro =>
        var r := dado.D6();
        dano := alvo.ReceberDano(r + corpo.atrib.ataque);
      case Mago =>
        var r := dado.D6();
        dano := alvo.ReceberDano(r + corpo.atrib.ataque);
      case Arqueiro =>
        if corpo.efeitos.value.proxFlechaD20Critico {
          corpo.efeitos := Some(corpo.efeitos.value.(proxFlechaD20Critico := false));
          var r := dado.D20();
          dano := alvo.ReceberDano(r * 2 + corpo.atrib.ataque);
        } else {
          var r := dado.D6();
          dano := alvo.ReceberDano(r + corpo.atrib.ataque);
        }
      case Curandeiro =>
        var r := dado.D6();
        dano := alvo.ReceberDano(Max(0, r - 2 + corpo.atrib.ataque));
    }

    // ----------------------------------------------------------- Guerreiro

    method ExecucaoPublica(alvo: Entidade, dado: Dado) returns (dano: int)
      requires classe == Guerreiro && Valid() && alvo != corpo && dado.fonte.Valida()
      modifies corpo, alvo, dado
      ensures Valid()
      ensures var s := Habilidades.ExecucaoPublica(old(Quadro(Some(alvo), dado)), dado.fonte);
        Quadro(Some(alvo), dado) == s.cena && dano == s.dano
    {
      if corpo.efeitos.value.turnos < 4 {
        return 0;
      }
      var ok := GastarMana(7);
      if !ok {
        return 0;
      }
      var d := dado.SomaD6(5);
      d := d * 2 + 3;
      dano := alvo.ReceberDano(d);
    }

    method Perseveranca(dado: Dado) returns (dano: int)
      requires classe == Guerreiro && Valid()
      modifies corpo
      ensures Valid()
      ensures var s := Habilidades.Perseveranca(old(Quadro(None, dado)));
        Quadro(None, dado) == s.cena && dano == s.dano
    {
      var e := corpo.efeitos.value;
      corpo.efeitos := Some(e.(invulneravelTurnos := Max(e.invulneravelTurnos, 1)));
      return 0;
    }

    method GolpeTrovejante(alvo: Entidade, dado: Dado) returns (dano: int)
      requires classe == Guerreiro && Valid() && alvo != corpo && dado.fonte.Valida()
      modifies corpo, alvo, dado
      ensures Valid()
      ensures var s := Habilidades.GolpeTrovejante(old(Quadro(Some(alvo), dado)), dado.fonte);
        Quadro(Some(alvo), dado) == s.cena && dano == s.dano
    {
      var ok := GastarMana(1);
      if !ok {
        return 0;
      }
      var r := dado.D20();
      dano := alvo.ReceberDano(r + corpo.atrib.ataque);
    }

    method LaminaInfera(alvo: Entidade, dado: Dado) returns (dano: int)
      requires classe == Guerreiro && Valid() && alvo != corpo && dado.fonte.Valida()
      modifies corpo, alvo, dado
      ensures Valid()
      ensures var s := Habilidades.LaminaInfera(old(Quadro(Some(alvo), dado)), dado.fonte);
        Quadro(Some(alvo), dado) == s.cena && dano == s.dano
    {
      var ok := GastarMana(2);
      if !ok {
        return 0;
      }
      var d := dado.SomaD6(3);
      if alvo.efeitos.Some? {
        var e := alvo.efeitos.value;
        alvo.efeitos := Some(e.(sangramentoTurnos := Max(e.sangramentoTurnos, 2), sangramentoTipo := RoladoD6));
      }
      dano := alvo.ReceberDano(d);
    }

    // ---------------------------------------------------------------- Mago

    method ColapsoMinguante(alvo: Entidade, dado: Dado) returns (dano: int)
      requires classe == Mago && Valid() && alvo != corpo && dado.fonte.Valida()
      modifies corpo, alvo, dado
      ensures Valid()
      ensures var s := Habilidades.ColapsoMinguante(old(Quadro(Some(alvo), dado)), dado.fonte);
        Quadro(Some(alvo), dado) == s.cena && dano == s.dano
    {
      var ok := GastarMana(15);
      if !ok {
        return 0;
      }
      var d := dado.SomaD6(6);
      dano := alvo.ReceberDano(d);
    }

    method Descarnar(alvo: Entidade, dado: Dado) returns (dano: int)
      requires classe == Mago && Valid() && alvo != corpo && dado.fonte.Valida()
      modifies corpo, alvo, dado
      ensures Valid()
      ensures var s := Habilidades.Descarnar(old(Quadro(Some(alvo), dado)), dado.fonte);
        Quadro(Some(alvo), dado) == s.cena && dano == s.dano
    {
      var ok := GastarMana(20);
      if !ok {
        return 0;
      }
      var d := dado.SomaD20(3);
      if alvo.efeitos.Some? {
        var e := alvo.efeitos.value;
        alvo.efeitos := Some(e.(sangramentoTurnos := Max(e.sangramentoTurnos, 2), sangramentoTipo := RoladoD6));
      }
      dano := alvo.ReceberDano(d);
    }

    method DistorcaoNoTempo(dado: Dado) returns (dano: int)
      requires classe == Mago && Valid()
      modifies corpo
      ensures Valid()
      ensures var s := Habilidades.DistorcaoNoTempo(old(Quadro(None, dado)));
        Quadro(None, dado) == s.cena && dano == s.dano
    {
      corpo.atrib := corpo.atrib.(mana := corpo.atrib.mana + 50);
      return 0;
    }

    method EmpurraoSismico(alvo: Entidade, dado: Dado) returns (dano: int)
      requires classe == Mago && Valid() && alvo != corpo && dado.fonte.Valida()
      modifies corpo, alvo, dado
      ensures Valid()
      ensures var s := Habilidades.EmpurraoSismico(old(Quadro(Some(alvo), dado)), dado.fonte);
        Quadro(Some(alvo), dado) == s.cena && dano == s.dano
    {
      if corpo.efeitos.value.empurraoSismicoUsado {
        return 0;
      }
      var ok := GastarMana(8);
      if !ok {
        return 0;
      }
      if alvo.efeitos.Some? {
        var e := alvo.efeitos.value;
        alvo.efeitos := Some(e.(naoPodeAtacar := e.naoPodeAtacar + 1));
      }
      corpo.efeitos := Some(corpo.efeitos.value.(empurraoSismicoUsado := true));
      var d := dado.SomaD6(3);
      dano := alvo.ReceberDano(d);
    }

    // ------------------------------------------------------------ Arqueiro

    method Curingas(alvo: Entidade, dado: Dado) returns (dano: int)
      requires classe == Arqueiro && Valid() && alvo != corpo && dado.fonte.Valida()
      modifies corpo, alvo, dado
      ensures Valid()
      ensures var s := Habilidades.Curingas(old(Quadro(Some(alvo), dado)), dado.fonte);
        Quadro(Some(alvo), dado) == s.cena && dano == s.dano
    {
      var ok := GastarMana(8);
      if !ok {
        return 0;
      }
      var d := dado.SomaD6(5);
      dano := alvo.ReceberDano(d);
    }

    method CortesCerteiros(alvo: Entidade, dado: Dado) returns (dano: int)
      requires classe == Arqueiro && Valid() && alvo != corpo
      modifies corpo, alvo
      ensures Valid()
      ensures var s := Habilidades.CortesCerteiros(old(Quadro(Some(alvo), dado)));
        Quadro(Some(alvo), dado) == s.cena && dano == s.dano
    {
      var ok := GastarMana(6);
      if !ok {
        return 0;
      }
      if alvo.efeitos.Some? {
        var e := alvo.efeitos.value;
        alvo.efeitos := Some(e.(sangramentoTurnos := Max(e.sangramentoTurnos, 5), sangramentoTipo := RoladoD6));
      }
      return 0;
    }

    method EstiloDoCacador(dado: Dado) returns (dano: int)
      requires classe == Arqueiro && Valid()
      modifies corpo
      ensures Valid()
      ensures var s := Habilidades.EstiloDoCacador(old(Quadro(None, dado)));
        Quadro(None, dado) == s.cena && dano == s.dano
    {
      var ok := GastarMana(10);
      if !ok {
        return 0;
      }
      corpo.efeitos := Some(corpo.efeitos.value.(proxFlechaD20Critico := true));
      return 0;
    }

    method MarcaFatal(alvo: Entidade, dado: Dado) returns (dano: int)
      requires classe == Arqueiro && Valid() && alvo != corpo
      modifies corpo, alvo
      ensures Valid()
      ensures var s := Habilidades.MarcaFatal(old(Quadro(Some(alvo), dado)));
        Quadro(Some(alvo), dado) == s.cena && dano == s.dano
    {
      var ok := GastarMana(10);
      if !ok {
        return 0;
      }
      if alvo.efeitos.Some? {
        var e := alvo.efeitos.value;
        alvo.efeitos := Some(e.(marcaFatalTurnos := Max(e.marcaFatalTurnos, 7)));
      }
      return 0;
    }

    // ---------------------------------------------------------- Curandeiro

    /**
     * Capítulo Final: 3 mana, then one d6 heals every listed ally (an ally
     * listed twice is healed twice).  With no list or an empty one the mana
     * is still spent and nobody is healed.
     */
    method CapituloFinal(aliados: Option<seq<Personagem>>, dado: Dado) returns (dano: int)
      requires classe == Curandeiro && Valid() && dado.fonte.Valida()
      modifies corpo, dado, if aliados.Some? then set j | 0 <= j < |aliados.value| :: aliados.value[j].corpo else {}
      ensures Valid() && dano == 0
      ensures corpo.efeitos == old(corpo.efeitos) && dado.usados20 == old(dado.usados20)
      ensures aliados.None? || |aliados.value| == 0 || !PodePagar(old(corpo.atrib.mana), 3) ==>
        var s := CapituloFinalSemAliados(old(Quadro(None, dado)));
        Quadro(None, dado) == s.cena
      ensures aliados.Some? && |aliados.value| > 0 && PodePagar(old(corpo.atrib.mana), 3) ==>
        var xs, cura := aliados.value, dado.fonte.seis(old(dado.usados6));
        && dado.usados6 == old(dado.usados6) + 1
        && (forall j :: 0 <= j < |xs| ==> xs[j].corpo.efeitos == old(xs[j].corpo.efeitos))
        && (forall j :: 0 <= j < |xs| ==>
              xs[j].corpo.atrib == CuradoVezes(
                if xs[j].corpo == corpo then old(corpo.atrib).(mana := old(corpo.atrib.mana) - 3)
                else old(xs[j].corpo.atrib),
                cura, Ocorrencias(xs, xs[j].corpo)))
        && (Ocorrencias(xs, corpo) == 0 ==> corpo.atrib == old(corpo.atrib).(mana := old(corpo.atrib.mana) - 3))
      ensures aliados.Some? && !PodePagar(old(corpo.atrib.mana), 3) ==>
        var xs := aliados.value;
        forall j :: 0 <= j < |xs| ==>
          xs[j].corpo.atrib == old(xs[j].corpo.atrib) && xs[j].corpo.efeitos == old(xs[j].corpo.efeitos)
    {
      var ok := GastarMana(3);
      if !ok {
        return 0;
      }
      if aliados.None? || |aliados.value| == 0 {
        return 0;
      }
      var cura := dado.D6();
      CurarTodos(aliados.value, cura);
      return 0;
    }

    /**
     * Semente Engatilhada: 5 mana, then the named ally's seed counter is set
     * to 2 (it heals `d20 - 5` two ticks later).  Without an ally the mana is
     * still spent.
     */
    method SementeEngatilhada(aliado: Option<Personagem>, dado: Dado) returns (dano: int)
      requires classe == Curandeiro && Valid()
      requires aliado.Some? ==> aliado.value.corpo.efeitos.Some?
      modifies corpo, if aliado.Some? then {aliado.value.corpo} else {}
      ensures Valid() && dano == 0
      ensures corpo.atrib == old(corpo.atrib).(mana := ManaApos(old(corpo.atrib.mana), 5))
      ensures aliado.Some? && PodePagar(old(corpo.atrib.mana), 5) ==>
        aliado.value.corpo.efeitos == Some(old(aliado.value.corpo.efeitos.value).(sementeTurnos := 2))
        && (aliado.value.corpo != corpo ==> corpo.efeitos == old(corpo.efeitos))
      ensures aliado.None? || !PodePagar(old(corpo.atrib.mana), 5) ==> corpo.efeitos == old(corpo.efeitos)
      ensures aliado.Some? ==> aliado.value.corpo.atrib == old(aliado.value.corpo.atrib) || aliado.value.corpo == corpo
      ensures aliado.Some? && !PodePagar(old(corpo.atrib.mana), 5) ==>
        aliado.value.corpo.efeitos == old(aliado.value.corpo.efeitos)
    {
      var ok := GastarMana(5);
      if !ok {
        return 0;
      }
      if aliado.None? {
        return 0;
      }
      var a := aliado.value.corpo;
      a.efeitos := Some(a.efeitos.value.(sementeTurnos := 2));
      return 0;
    }

    method VentosRevigorantes(dado: Dado) returns (dano: int)
      requires classe == Curandeiro && Valid()
      modifies corpo
      ensures Valid()
      ensures var s := Habilidades.VentosRevigorantes(old(Quadro(None, dado)));
        Quadro(None, dado) == s.cena && dano == s.dano
    {
      var ok := GastarMana(15);
      if !ok {
        return 0;
      }
      var e := corpo.efeitos.value;
      corpo.efeitos := Some(e.(refletirDanoTurnos := Max(e.refletirDanoTurnos, 1)));
      return 0;
    }

    method GolpeDeMisericordia(alvo: Entidade, dado: Dado) returns (dano: int)
      requires classe == Curandeiro && Valid() && alvo != corpo && dado.fonte.Valida()
      modifies corpo, alvo, dado
      ensures Valid()
      ensures var s := Habilidades.GolpeDeMisericordia(old(Quadro(Some(alvo), dado)), dado.fonte);
        Quadro(Some(alvo), dado) == s.cena && dano == s.dano
    {
      var d := dado.SomaD20(4);
      dano := alvo.ReceberDano(d);
      corpo.atrib := corpo.atrib.(vida := 0);
    }

    // ------------------------------------------------------------ dispatch

    /** `usar_especial` of the Guerreiro: a special that needs a target is skipped without one. */
    method UsarEspecialGuerreiro(n: int, alvo: Option<Entidade>, dado: Dado) returns (dano: int)
      requires classe == Guerreiro && Valid() && dado.fonte.Valida()
      requires alvo.Some? ==> alvo.value != corpo
      modifies corpo, dado, if alvo.Some? then {alvo.value} else {}
      ensures Valid()
      ensures var s := Habilidades.UsarEspecial(classe, n, old(Quadro(alvo, dado)), dado.fonte, false);
        Quadro(alvo, dado) == s.cena && dano == s.dano
    {
      if n == 1 && alvo.Some? {
        dano := ExecucaoPublica(alvo.value, dado);
      } else if n == 2 {
        dano := Perseveranca(dado);
      } else if n == 3 && alvo.Some? {
        dano := GolpeTrovejante(alvo.value, dado);
      } else if n == 4 && alvo.Some? {
        dano := LaminaInfera(alvo.value, dado);
      } else {
        dano := 0;
      }
    }

    /** `usar_especial` of the Mago: a special that needs a target is skipped without one. */
    method UsarEspecialMago(n: int, alvo: Option<Entidade>, dado: Dado) returns (dano: int)
      requires classe == Mago && Valid() && dado.fonte.Valida()
      requires alvo.Some? ==> alvo.value != corpo
      modifies corpo, dado, if alvo.Some? then {alvo.value} else {}
      ensures Valid()
      ensures var s := Habilidades.UsarEspecial(classe, n, old(Quadro(alvo, dado)), dado.fonte, false);
        Quadro(alvo, dado) == s.cena && dano == s.dano
    {
      if n == 1 && alvo.Some? {
        dano := ColapsoMinguante(alvo.value, dado);
      } else if n == 2 && alvo.Some? {
        dano := Descarnar(alvo.value, dado);
      } else if n == 3 {
        dano := DistorcaoNoTempo(dado);
      } else if n == 4 && alvo.Some? {
        dano := EmpurraoSismico(alvo.value, dado);
      } else {
        dano := 0;
      }
    }

    /** `usar_especial` of the Arqueiro: a special that needs a target is skipped without one. */
    method UsarEspecialArqueiro(n: int, alvo: Option<Entidade>, dado: Dado) returns (dano: int)
      requires classe == Arqueiro && Valid() && dado.fonte.Valida()
      requires alvo.Some? ==> alvo.value != corpo
      modifies corpo, dado, if alvo.Some? then {alvo.value} else {}
      ensures Valid()
      ensures var s := Habilidades.UsarEspecial(classe, n, old(Quadro(alvo, dado)), dado.fonte, false);
        Quadro(alvo, dado) == s.cena && dano == s.dano
    {
      if n == 1 && alvo.Some? {
        dano := Curingas(alvo.value, dado);
      } else if n == 2 && alvo.Some? {
        dano := CortesCerteiros(alvo.value, dado);
      } else if n == 3 {
        dano := EstiloDoCacador(dado);
      } else if n == 4 && alvo.Some? {
        dano := MarcaFatal(alvo.value, dado);
      } else {
        dano := 0;
      }
    }

    /**
     * `usar_especial` of the healer: Capítulo Final runs whenever a list is
     * passed (even an empty one), Semente Engatilhada whenever an ally is
     * named, Golpe de Misericórdia whenever a target is given.
     */
    method UsarEspecialCurandeiro(n: int, alvo: Option<Entidade>, aliado: Option<Personagem>,
                                  aliados: Option<seq<Personagem>>, dado: Dado) returns (dano: int)
      requires classe == Curandeiro && Valid() && dado.fonte.Valida()
      requires alvo.Some? ==> alvo.value != corpo
      requires aliado.Some? ==> aliado.value.corpo.efeitos.Some?
      modifies corpo, dado, if alvo.Some? then {alvo.value} else {},
        if n == 2 && aliado.Some? then {aliado.value.corpo} else {},
        if n == 1 && aliados.Some? then set j | 0 <= j < |aliados.value| :: aliados.value[j].corpo else {}
      ensures Valid()
      ensures !(n == 2 && aliado.Some?) && !(n == 1 && aliados.Some? && |aliados.value| > 0) ==>
        var s := Habilidades.UsarEspecial(classe, n, old(Quadro(alvo, dado)), dado.fonte, aliados.Some?);
        Quadro(alvo, dado) == s.cena && dano == s.dano
      ensures n == 2 && aliado.Some? ==>
        var a := aliado.value.corpo;
        && dano == 0
        && dado.usados6 == old(dado.usados6) && dado.usados20 == old(dado.usados20)
        && corpo.atrib == old(corpo.atrib).(mana := ManaApos(old(corpo.atrib.mana), 5))
        && a.efeitos ==
             (if PodePagar(old(corpo.atrib.mana), 5) then Some(old(a.efeitos.value).(sementeTurnos := 2))
              else old(a.efeitos))
        && (a != corpo || !PodePagar(old(corpo.atrib.mana), 5) ==> corpo.efeitos == old(corpo.efeitos))
        && (a != corpo ==> a.atrib == old(a.atrib))
        && (alvo.Some? && alvo.value != a ==>
              alvo.value.atrib == old(alvo.value.atrib) && alvo.value.efeitos == old(alvo.value.efeitos))
      ensures n == 1 && aliados.Some? && |aliados.value| > 0 ==>
        var xs := aliados.value;
        && dano == 0
        && corpo.efeitos == old(corpo.efeitos) && dado.usados20 == old(dado.usados20)
        && (PodePagar(old(corpo.atrib.mana), 3) ==>
              && dado.usados6 == old(dado.usados6) + 1
              && (forall j :: 0 <= j < |xs| ==> xs[j].corpo.efeitos == old(xs[j].corpo.efeitos))
              && (forall j :: 0 <= j < |xs| ==>
                    xs[j].corpo.atrib == CuradoVezes(
                      if xs[j].corpo == corpo then old(corpo.atrib).(mana := old(corpo.atrib.mana) - 3)
                      else old(xs[j].corpo.atrib),
                      dado.fonte.seis(old(dado.usados6)), Ocorrencias(xs, xs[j].corpo)))
              && (Ocorrencias(xs, corpo) == 0 ==> corpo.atrib == old(corpo.atrib).(mana := old(corpo.atrib.mana) - 3)))
        && (!PodePagar(old(corpo.atrib.mana), 3) ==>
              && corpo.atrib == old(corpo.atrib) && dado.usados6 == old(dado.usados6)
              && (forall j :: 0 <= j < |xs| ==>
                    xs[j].corpo.atrib == old(xs[j].corpo.atrib) && xs[j].corpo.efeitos == old(xs[j].corpo.efeitos)))
        && (alvo.Some? && (forall j :: 0 <= j < |xs| ==> xs[j].corpo != alvo.value) ==>
              alvo.value.atrib == old(alvo.value.atrib) && alvo.value.efeitos == old(alvo.value.efeitos))
    {
      if n == 1 && aliados.Some? {
        dano := CapituloFinal(aliados, dado);
      } else if n == 2 && aliado.Some? {
        dano := SementeEngatilhada(aliado, dado);
      } else if n == 3 {
        dano := VentosRevigorantes(dado);
      } else if n == 4 && alvo.Some? {
        dano := GolpeDeMisericordia(alvo.value, dado);
      } else {
        dano := 0;
      }
    }

    /** `usar_especial`, dispatched on the class as the subclasses' overrides are. */
    method UsarEspecial(n: int, alvo: Option<Entidade>, aliado: Option<Personagem>,
                        aliados: Option<seq<Personagem>>, dado: Dado) returns (dano: int)
      requires Valid() && dado.fonte.Valida()
      requires alvo.Some? ==> alvo.value != corpo
      requires aliado.Some? ==> aliado.value.corpo.efeitos.Some?
      modifies corpo, dado, if alvo.Some? then {alvo.value} else {},
        if classe == Curandeiro && n == 2 && aliado.Some? then {aliado.value.corpo} else {},
        if classe == Curandeiro && n == 1 && aliados.Some? then set j | 0 <= j < |aliados.value| :: aliados.value[j].corpo else {}
      ensures Valid()
      ensures !(classe == Curandeiro && ((n == 2 && aliado.Some?) || (n == 1 && aliados.Some? && |aliados.value| > 0))) ==>
        var s := Habilidades.UsarEspecial(classe, n, old(Quadro(alvo, dado)), dado.fonte, aliados.Some?);
        Quadro(alvo, dado) == s.cena && dano == s.dano
      ensures classe == Curandeiro && n == 2 && aliado.Some? ==>
        var a := aliado.value.corpo;
        && dano == 0
        && dado.usados6 == old(dado.usados6) && dado.usados20 == old(dado.usados20)
        && corpo.atrib == old(corpo.atrib).(mana := ManaApos(old(corpo.atrib.mana), 5))
        && a.efeitos ==
             (if PodePagar(old(corpo.atrib.mana), 5) then Some(old(a.efeitos.value).(sementeTurnos := 2))
              else old(a.efeitos))
        && (a != corpo || !PodePagar(old(corpo.atrib.mana), 5) ==> corpo.efeitos == old(corpo.efeitos))
        && (a != corpo ==> a.atrib == old(a.atrib))
        && (alvo.Some? && alvo.value != a ==>
              alvo.value.atrib == old(alvo.value.atrib) && alvo.value.efeitos == old(alvo.value.efeitos))
      ensures classe == Curandeiro && n == 1 && aliados.Some? && |aliados.value| > 0 ==>
        var xs := aliados.value;
        && dano == 0
        && corpo.efeitos == old(corpo.efeitos) && dado.usados20 == old(dado.usados20)
        && (PodePagar(old(corpo.atrib.mana), 3) ==>
              && dado.usados6 == old(dado.usados6) + 1
              && (forall j :: 0 <= j < |xs| ==> xs[j].corpo.efeitos == old(xs[j].corpo.efeitos))
              && (forall j :: 0 <= j < |xs| ==>
                    xs[j].corpo.atrib == CuradoVezes(
                      if xs[j].corpo == corpo then old(corpo.atrib).(mana := old(corpo.atrib.mana) - 3)
                      else old(xs[j].corpo.atrib),
                      dado.fonte.seis(old(dado.usados6)), Ocorrencias(xs, xs[j].corpo)))
              && (Ocorrencias(xs, corpo) == 0 ==> corpo.atrib == old(corpo.atrib).(mana := old(corpo.atrib.mana) - 3)))
        && (!PodePagar(old(corpo.atrib.mana), 3) ==>
              && corpo.atrib == old(corpo.atrib) && dado.usados6 == old(dado.usados6)
              && (forall j :: 0 <= j < |xs| ==>
                    xs[j].corpo.atrib == old(xs[j].corpo.atrib) && xs[j].corpo.efeitos == old(xs[j].corpo.efeitos)))
        && (alvo.Some? && (forall j :: 0 <= j < |xs| ==> xs[j].corpo != alvo.value) ==>
              alvo.value.atrib == old(alvo.value.atrib) && alvo.value.efeitos == old(alvo.value.efeitos))
    {
      match classe
      case Guerreiro => dano := UsarEspecialGuerreiro(n, alvo, dado);
      case Mago => dano := UsarEspecialMago(n, alvo, dado);
      case Arqueiro => dano := UsarEspecialArqueiro(n, alvo, dado);
      case Curandeiro => dano := UsarEspecialCurandeiro(n, alvo, aliado, aliados, dado);
    }
  }

  /** `for a in aliados: a.curar(cura)`. */
  method CurarTodos(xs: seq<Personagem>, cura: int)
    modifies set j | 0 <= j < |xs| :: xs[j].corpo
    ensures forall j :: 0 <= j < |xs| ==> xs[j].corpo.efeitos == old(xs[j].corpo.efeitos)
    ensures forall j :: 0 <= j < |xs| ==>
      xs[j].corpo.atrib == CuradoVezes(old(xs[j].corpo.atrib), cura, Ocorrencias(xs, xs[j].corpo))
  {
    var i := 0;
    while i < |xs|
      invariant 0 <= i <= |xs|
      invariant forall j :: 0 <= j < |xs| ==> xs[j].corpo.efeitos == old(xs[j].corpo.efeitos)
      invariant forall j :: 0 <= j < |xs| ==>
        xs[j].corpo.atrib == CuradoVezes(old(xs[j].corpo.atrib), cura, Ocorrencias(xs[..i], xs[j].corpo))
    {
      assert xs[..i + 1][..i] == xs[..i];
      var _ := xs[i].Curar(cura);
      i := i + 1;
    }
    assert xs[..i] == xs;
  }

  /** How many listed characters have body `e`. */
  ghost function Ocorrencias(xs: seq<Personagem>, e: Entidade): nat {
    if |xs| == 0 then 0
    else Ocorrencias(xs[..|xs| - 1], e) + (if xs[|xs| - 1].corpo == e then 1 else 0)
  }
}
