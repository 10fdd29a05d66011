/**
 * `MissaoHordas.executar`: the hero faces the horde one enemy at a time; each
 * encounter is a loop of turns (hero's tick and action, enemy's tick and
 * attack) that ends in a win, a loss or flight.
 */
module Missoes {
  import opened Wrappers
  import opened Base
  import opened Dados
  import opened EfeitosTurno
  import opened Progressao
  import opened Habilidades
  import opened Personagens
  import opened Acoes
  import opened Inimigos

  /** What `executar` returns. */
  datatype ResultadoMissao = ResultadoMissao(venceu: bool, encontrosVencidos: int, detalhes: string)

  /**
   * What a mission takes besides the hero and the horde: the special list
   * and basic-attack cost its menus use, whether it plays itself, and the
   * lines typed at the prompt, in order.
   */
  datatype Regras = Regras(especs: seq<Opcao>, custoBasico: int, auto: bool, entradas: nat -> string)

  /** Values an encounter works on: hero record and registry, the enemy, dice and lines consumed. */
  datatype Mesa = Mesa(heroi: Atributos, ef: Efeitos, inimigo: Estado, i6: nat, i20: nat, lidas: nat)

  /** The scene a hero's attack sees at this table. */
  function CenaDe(m: Mesa): Cena {
    Cena(m.heroi, m.ef, Some(m.inimigo), m.i6, m.i20)
  }

  /** Back from a scene to the table. */
  function Assentar(m: Mesa, c: Cena): Mesa
    requires c.alvo.Some?
  {
    Mesa(c.heroi, c.ef, c.alvo.value, c.i6, c.i20, m.lidas)
  }

  /**
   * An attack keeps its target, and a target without a registry still has
   * none afterwards (every effect-setting special checks for one first).
   */
  lemma AlvoMantido(k: Classe, n: int, c: Cena, f: Fonte, comLista: bool)
    requires c.alvo.Some?
    ensures var s := AtaqueBasico(k, c, f);
      s.cena.alvo.Some? && (c.alvo.value.efeitos.None? ==> s.cena.alvo.value.efeitos.None?)
    ensures var s := UsarEspecial(k, n, c, f, comLista);
      s.cena.alvo.Some? && (c.alvo.value.efeitos.None? ==> s.cena.alvo.value.efeitos.None?)
  {
  }

  // ------------------------------------------------------ the hero's half

  /**
   * A special run from the mission: other classes get the enemy as target;
   * the healer's ids 1 and 7 get an empty ally list, 2, 3 and 6 no target,
   * 4 and 5 the enemy, and only what 4 and 5 return is kept as damage.
   */
  function EspecialNaMissao(k: Classe, id: int, c: Cena, f: Fonte): Saida
    requires c.alvo.Some?
  {
    if k != Curandeiro || id == 4 || id == 5 then UsarEspecial(k, id, c, f, false)
    else if 1 <= id <= 7 then
      var s := UsarEspecial(k, id, c.(alvo := None), f, id == 1 || id == 7);
      Saida(s.cena.(alvo := c.alvo), 0)
    else Nada(c)
  }

  /** The action taken, and whether it was flight. */
  datatype Desfecho = Desfecho(saida: Saida, fugiu: bool)

  /**
   * The two passes of the turn loop over the text read: first the mana
   * gate (the basic attack against its cost, an entry against its listed
   * cost, an entry past the list refused), then the execution of what was
   * not refused; "0" is flight.
   */
  function Agir(xs: seq<Opcao>, custoBasico: int, k: Classe, acao: string, c: Cena, f: Fonte): (d: Desfecho)
    requires c.alvo.Some?
    ensures d.fugiu <==> acao == "0"
    ensures d.saida.cena.alvo.Some?
    ensures c.alvo.value.efeitos.None? ==> d.saida.cena.alvo.value.efeitos.None?
  {
    AlvoMantido(k, 0, c, f, false);
    match Interpretar(acao, |xs|)
    case Basico =>
      Desfecho(if c.heroi.mana < custoBasico then Nada(c) else AtaqueBasico(k, c, f), false)
    case Especial(i) =>
      AlvoMantido(k, xs[i].id, c, f, false);
      Desfecho(if c.heroi.mana < xs[i].custo then Nada(c) else EspecialNaMissao(k, xs[i].id, c, f), false)
    case EspecialInvalida => Desfecho(Nada(c), false)
    case Fugir => Desfecho(Nada(c), true)
    case Invalida => Desfecho(Nada(c), false)
  }

  /** The hero's turn counter, one up. */
  function Contado(m: Mesa): Mesa {
    m.(ef := m.ef.(turnos := m.ef.turnos + 1))
  }

  /** `inicio_turno`: the effect tick on the hero. */
  function TickDoHeroi(m: Mesa, f: Fonte): Mesa {
    var r := Tick(m.heroi, m.ef, f, m.i6, m.i20);
    m.(heroi := r.atrib, ef := r.ef, i6 := r.i6, i20 := r.i20)
  }

  /** Start of the hero's turn: the turn counter goes up, then the effect tick runs. */
  function Preparo(m: Mesa, f: Fonte): Mesa {
    TickDoHeroi(Contado(m), f)
  }

  /** The text the hero acts on: the auto-player's choice, or the next line typed. */
  function Escolha(g: Regras, k: Classe, m: Mesa): string {
    if g.auto then Texto(AcaoAuto(k, m.heroi, g.especs)) else g.entradas(m.lidas)
  }

  /** The table after the hero's part of a turn, and whether the hero fled. */
  datatype Vez = Vez(m: Mesa, fugiu: bool)

  /** A stunned hero does nothing; otherwise it reads (or picks) an action and takes it. */
  function VezDoHeroi(g: Regras, k: Classe, m: Mesa, f: Fonte): (v: Vez)
    ensures m.inimigo.efeitos.None? ==> v.m.inimigo.efeitos.None?
  {
    if m.ef.naoPodeAtacar > 0 then Vez(m, false)
    else
      var d := Agir(g.especs, g.custoBasico, k, Escolha(g, k, m), CenaDe(m), f);
      Vez(Assentar(m.(lidas := if g.auto then m.lidas else m.lidas + 1), d.saida.cena), d.fugiu)
  }

  // ----------------------------------------------------- the enemy's half

  /** The effect tick on the enemy: nothing at all when it has no registry. */
  function TickDoInimigo(m: Mesa, f: Fonte): (r: Mesa)
    ensures m.inimigo.efeitos.None? ==> r == m
  {
    if m.inimigo.efeitos.None? then m
    else
      var t := Tick(m.inimigo.atrib, m.inimigo.efeitos.value, f, m.i6, m.i20);
      m.(inimigo := Estado(t.atrib, Some(t.ef)), i6 := t.i6, i20 := t.i20)
  }

  /**
   * The stun test of line 199 as written: it reads the enemy's registry
   * directly, which fails (`None`) for an enemy that has none.
   */
  function AtordoadoComoEscrito(e: Option<Efeitos>): (r: Option<bool>)
    ensures r.None? <==> e.None?
  {
    if e.None? then None else Some(e.value.naoPodeAtacar > 0)
  }

  /** The stun test as intended: a missing registry reads as "not stunned", as on line 104. */
  predicate Atordoado(e: Option<Efeitos>) {
    e.Some? && e.value.naoPodeAtacar > 0
  }

  /**
   * The enemy's attack unless stunned: `max(0, d6 + ataque)`, zeroed while
   * the hero is invulnerable, through the hero's defence; what got through
   * is sent back to the enemy while the hero reflects.
   */
  function AtaqueDoInimigo(m: Mesa, f: Fonte): Mesa {
    if Atordoado(m.inimigo.efeitos) then m
    else
      var bruto := Max(0, f.seis(m.i6) + m.inimigo.atrib.ataque);
      var dano := if m.ef.invulneravelTurnos > 0 then 0 else bruto;
      var aplicado := DanoAplicado(m.heroi.defesa, dano);
      var inimigo :=
        if aplicado > 0 && m.ef.refletirDanoTurnos > 0 then m.inimigo.(atrib := AposDano(m.inimigo.atrib, aplicado))
        else m.inimigo;
      m.(heroi := AposDano(m.heroi, dano), inimigo := inimigo, i6 := m.i6 + 1)
  }

  // ------------------------------------------------- turns and encounters

  /** How an encounter ended; `Esgotado` when the turn budget ran out first. */
  datatype Fim = Fuga | PelaAcao | PelosEfeitos | FimDoLaco | Esgotado

  /** The table after a turn, and how the encounter ended if it did. */
  datatype Rodada = Rodada(m: Mesa, fim: Option<Fim>)

  /**
   * One pass of the `while`: the hero's half; flight ends the mission, a dead
   * enemy ends the encounter (counted); then the enemy's tick, which may kill
   * it (counted); then its attack.
   */
  function Turno(g: Regras, k: Classe, m: Mesa, f: Fonte): Rodada {
    var v := VezDoHeroi(g, k, Preparo(m, f), f);
    if v.fugiu then Rodada(v.m, Some(Fuga))
    else if v.m.inimigo.atrib.vida <= 0 then Rodada(v.m, Some(PelaAcao))
    else
      var t := TickDoInimigo(v.m, f);
      if t.inimigo.atrib.vida <= 0 then Rodada(t, Some(PelosEfeitos))
      else Rodada(AtaqueDoInimigo(t, f), None)
  }

  /** The table when an encounter is over, and how it ended. */
  datatype Desenlace = Desenlace(m: Mesa, fim: Fim)

  /** The encounter loop: turns while both are alive, at most `fuel` of them. */
  function Encontro(g: Regras, k: Classe, m: Mesa, f: Fonte, fuel: nat): Desenlace
    decreases fuel, 2
  {
    if !(m.heroi.vida > 0 && m.inimigo.atrib.vida > 0) then Desenlace(m, FimDoLaco)
    else Avancar(g, k, m, f, fuel)
  }

  /** Both alive: stop when the turn budget is spent, otherwise play on. */
  function Avancar(g: Regras, k: Classe, m: Mesa, f: Fonte, fuel: nat): Desenlace
    decreases fuel, 1
  {
    if fuel == 0 then Desenlace(m, Esgotado) else Prosseguir(g, k, m, f, fuel)
  }

  /** One turn, then what is left of the loop. */
  function Prosseguir(g: Regras, k: Classe, m: Mesa, f: Fonte, fuel: nat): Desenlace
    requires fuel > 0
    decreases fuel, 0
  {
    var t := Turno(g, k, m, f);
    if t.fim.Some? then Desenlace(t.m, t.fim.value) else Encontro(g, k, t.m, f, fuel - 1)
  }

  // ----------------------------------------------------------- the mission

  /** Values the mission works on: hero, every enemy, dice and lines consumed. */
  datatype Campanha = Campanha(heroi: Atributos, ef: Efeitos, inimigos: seq<Estado>, i6: nat, i20: nat, lidas: nat)

  /** Final values and the result (`None` when an encounter ran out of turns). */
  datatype Relato = Relato(fim: Campanha, resultado: Option<ResultadoMissao>)

  /** Whether an encounter's ending counts as a win. */
  predicate Conta(e: Fim) {
    e == PelaAcao || e == PelosEfeitos
  }

  /**
   * The `for` over the horde from enemy `i`, `vencidos` wins so far: flight
   * returns the count so far, a dead hero after an encounter ends the mission
   * lost, and surviving every encounter wins it.
   */
  function Percorrer(g: Regras, k: Classe, p: Campanha, i: nat, vencidos: nat, f: Fonte, fuel: nat): Relato
    requires i <= |p.inimigos|
    decreases |p.inimigos| - i
  {
    if i == |p.inimigos| then Relato(p, Some(ResultadoMissao(true, vencidos, "Vitória!")))
    else
      var d := Encontro(g, k, Mesa(p.heroi, p.ef, p.inimigos[i], p.i6, p.i20, p.lidas), f, fuel);
      var q := Campanha(d.m.heroi, d.m.ef, p.inimigos[i := d.m.inimigo], d.m.i6, d.m.i20, d.m.lidas);
      var v := if Conta(d.fim) then vencidos + 1 else vencidos;
      if d.fim == Esgotado then Relato(q, None)
      else if d.fim == Fuga then Relato(q, Some(ResultadoMissao(false, vencidos, "Fugiu da missão.")))
      else if q.heroi.vida <= 0 then Relato(q, Some(ResultadoMissao(false, v, "Derrotado nas hordas.")))
      else Percorrer(g, k, q, i + 1, v, f, fuel)
  }

  // -------------------------------------------------------- on the objects

  /** The table as the objects hold it. */
  ghost function MesaDe(heroi: Personagem, inimigo: Entidade, dado: Dado, lidas: nat): Mesa
    requires heroi.corpo.efeitos.Some?
    reads heroi.corpo, inimigo, dado
  {
    Mesa(heroi.corpo.atrib, heroi.corpo.efeitos.value, inimigo.Retrato(), dado.usados6, dado.usados20, lidas)
  }

  /** `decidir_acao_auto`: the hurt-healer scan, the general scan, then the basic attack. */
  method DecidirAcaoAuto(heroi: Personagem, especs: seq<Opcao>) returns (acao: string)
    ensures acao == Texto(AcaoAuto(heroi.classe, heroi.corpo.atrib, especs))
  {
    var a := heroi.corpo.atrib;
    if heroi.classe == Curandeiro && VidaBaixa(a) {
      var i := 0;
      while i < |especs|
        invariant 0 <= i <= |especs|
        invariant forall j :: 0 <= j < i ==> !Serve(especs[j], a.mana, true)
      {
        if Defensiva(especs[i]) && a.mana >= especs[i].custo {
          return Texto(i + 2);
        }
        i := i + 1;
      }
    }
    var i := 0;
    while i < |especs|
      invariant 0 <= i <= |especs|
      invariant forall j :: 0 <= j < i ==> !Serve(especs[j], a.mana, false)
    {
      if a.mana >= especs[i].custo && especs[i].custo > 0 {
        return Texto(i + 2);
      }
      i := i + 1;
    }
    return "1";
  }

  /** The special branch of the turn loop, with the healer's per-id calls. */
  method LancarEspecial(heroi: Personagem, inimigo: Entidade, dado: Dado, id: int) returns (causado: int)
    requires heroi.Valid() && inimigo != heroi.corpo && dado.fonte.Valida()
    modifies heroi.corpo, inimigo, dado
    ensures heroi.Valid()
    ensures var s := EspecialNaMissao(heroi.classe, id, old(heroi.Quadro(Some(inimigo), dado)), dado.fonte);
      heroi.Quadro(Some(inimigo), dado) == s.cena && causado == s.dano
  {
    causado := 0;
    if heroi.classe == Curandeiro {
      if id == 1 {
        var _ := heroi.UsarEspecial(1, None, None, Some([]), dado);
      } else if id == 2 {
        var _ := heroi.UsarEspecial(2, None, None, None, dado);
      } else if id == 3 {
        var _ := heroi.UsarEspecial(3, None, None, None, dado);
      } else if id == 4 || id == 5 {
        causado := heroi.UsarEspecial(id, Some(inimigo), None, None, dado);
      } else if id == 6 {
        var _ := heroi.UsarEspecial(6, None, None, None, dado);
      } else if id == 7 {
        var _ := heroi.UsarEspecial(7, None, None, Some([]), dado);
      }
    } else {
      causado := heroi.UsarEspecial(id, Some(inimigo), None, None, dado);
    }
  }

  /** Mana gate, then execution, of the text read; returns whether it was flight. */
  method ExecutarAcao(g: Regras, heroi: Personagem, inimigo: Entidade, dado: Dado, acao: string)
    returns (fugiu: bool, causado: int)
    requires heroi.Valid() && inimigo != heroi.corpo && dado.fonte.Valida()
    modifies heroi.corpo, inimigo, dado
    ensures heroi.Valid()
    ensures var d := Agir(g.especs, g.custoBasico, heroi.classe, acao, old(heroi.Quadro(Some(inimigo), dado)), dado.fonte);
      heroi.Quadro(Some(inimigo), dado) == d.saida.cena && fugiu == d.fugiu && causado == d.saida.dano
  {
    var mana := heroi.corpo.atrib.mana;
    var a := Interpretar(acao, |g.especs|);
    var bloqueado := false;
    if a == Basico {
      bloqueado := mana < g.custoBasico;
    } else if a.Especial? {
      bloqueado := mana < g.especs[a.indice].custo;
    } else if a == EspecialInvalida {
      bloqueado := true;
    }
    fugiu, causado := false, 0;
    if a == Basico && !bloqueado {
      causado := heroi.AtaqueBasico(inimigo, dado);
    } else if a.Especial? && !bloqueado {
      causado := LancarEspecial(heroi, inimigo, dado, g.especs[a.indice].id);
    } else if a == Fugir {
      fugiu := true;
    }
  }

  /** The hero's turn counter goes up, then `inicio_turno`. */
  method PrepararTurno(heroi: Personagem, inimigo: Entidade, dado: Dado, lidas: nat)
    requires heroi.Valid() && inimigo != heroi.corpo && dado.fonte.Valida()
    modifies heroi.corpo, dado
    ensures heroi.Valid()
    ensures MesaDe(heroi, inimigo, dado, lidas) == Preparo(old(MesaDe(heroi, inimigo, dado, lidas)), dado.fonte)
  {
    var e := heroi.corpo.efeitos.value;
    heroi.corpo.efeitos := Some(e.(turnos := e.turnos + 1));
    ghost var c := MesaDe(heroi, inimigo, dado, lidas);
    assert c == Contado(old(MesaDe(heroi, inimigo, dado, lidas)));
    var _ := heroi.InicioTurno(dado);
    assert MesaDe(heroi, inimigo, dado, lidas) == TickDoHeroi(c, dado.fonte);
  }

  /** The hero's half of a turn: skipped while stunned; otherwise read an action and take it. */
  method JogarVezDoHeroi(g: Regras, heroi: Personagem, inimigo: Entidade, dado: Dado, lidas: nat)
    returns (lidas2: nat, fugiu: bool)
    requires heroi.Valid() && inimigo != heroi.corpo && dado.fonte.Valida()
    modifies heroi.corpo, inimigo, dado
    ensures heroi.Valid()
    ensures Vez(MesaDe(heroi, inimigo, dado, lidas2), fugiu)
         == VezDoHeroi(g, heroi.classe, old(MesaDe(heroi, inimigo, dado, lidas)), dado.fonte)
  {
    lidas2, fugiu := lidas, false;
    if heroi.corpo.efeitos.value.naoPodeAtacar > 0 {
      return;
    }
    var acao: string;
    if g.auto {
      acao := DecidirAcaoAuto(heroi, g.especs);
    } else {
      acao := g.entradas(lidas);
      lidas2 := lidas + 1;
    }
    var causado;
    fugiu, causado := ExecutarAcao(g, heroi, inimigo, dado, acao);
  }

  /** The enemy's attack (with the stun test as corrected), invulnerability and reflection. */
  method InimigoAtaca(heroi: Personagem, inimigo: Entidade, dado: Dado, lidas: nat)
    requires heroi.Valid() && inimigo != heroi.corpo && dado.fonte.Valida()
    modifies heroi.corpo, inimigo, dado
    ensures heroi.Valid()
    ensures MesaDe(heroi, inimigo, dado, lidas) == AtaqueDoInimigo(old(MesaDe(heroi, inimigo, dado, lidas)), dado.fonte)
  {
    if Atordoado(inimigo.efeitos) {
      return;
    }
    var d := dado.D6();
    var danoIn := Max(0, d + inimigo.atrib.ataque);
    if heroi.corpo.efeitos.value.invulneravelTurnos > 0 {
      danoIn := 0;
    }
    var aplicado := heroi.corpo.ReceberDano(danoIn);
    if aplicado > 0 && heroi.corpo.efeitos.value.refletirDanoTurnos > 0 {
      var _ := inimigo.ReceberDano(aplicado);
    }
  }

  /** One pass of the encounter's `while`. */
  method JogarTurno(g: Regras, heroi: Personagem, inimigo: Entidade, dado: Dado, lidas: nat)
    returns (lidas2: nat, fim: Option<Fim>)
    requires heroi.Valid() && inimigo != heroi.corpo && dado.fonte.Valida()
    modifies heroi.corpo, inimigo, dado
    ensures heroi.Valid()
    ensures Rodada(MesaDe(heroi, inimigo, dado, lidas2), fim)
         == Turno(g, heroi.classe, old(MesaDe(heroi, inimigo, dado, lidas)), dado.fonte)
  {
    PrepararTurno(heroi, inimigo, dado, lidas);
    var fugiu;
    lidas2, fugiu := JogarVezDoHeroi(g, heroi, inimigo, dado, lidas);
    if fugiu {
      return lidas2, Some(Fuga);
    }
    if !inimigo.EstaVivo() {
      return lidas2, Some(PelaAcao);
    }
    var _ := TickEfeitosInicioTurno(inimigo, dado);
    if !inimigo.EstaVivo() {
      return lidas2, Some(PelosEfeitos);
    }
    InimigoAtaca(heroi, inimigo, dado, lidas2);
    fim := None;
  }

  /** An encounter with both alive and turns left is one turn followed by the rest. */
  lemma UmTurno(g: Regras, k: Classe, m: Mesa, f: Fonte, fuel: nat, m2: Mesa, fim: Option<Fim>)
    requires m.heroi.vida > 0 && m.inimigo.atrib.vida > 0 && fuel > 0
    requires Turno(g, k, m, f) == Rodada(m2, fim)
    ensures fim.Some? ==> Encontro(g, k, m, f, fuel) == Desenlace(m2, fim.value)
    ensures fim.None? ==> Encontro(g, k, m, f, fuel) == Encontro(g, k, m2, f, fuel - 1)
  {
    assert Encontro(g, k, m, f, fuel) == Prosseguir(g, k, m, f, fuel);
  }

  /**
   * One pass of the encounter's `while`, with `resta` turns still allowed
   * after it: the table it leaves ends the encounter as the whole loop would
   * have, or continues it with one turn fewer.
   */
  method Rodar(g: Regras, heroi: Personagem, inimigo: Entidade, dado: Dado, lidas: nat, resta: nat,
               ghost antes: Mesa, ghost alvo: Desenlace)
    returns (lidas2: nat, fim: Option<Fim>, ghost depois: Mesa)
    requires heroi.Valid() && inimigo != heroi.corpo && dado.fonte.Valida()
    requires antes == MesaDe(heroi, inimigo, dado, lidas)
    requires antes.heroi.vida > 0 && antes.inimigo.atrib.vida > 0
    requires Encontro(g, heroi.classe, antes, dado.fonte, resta + 1) == alvo
    modifies heroi.corpo, inimigo, dado
    ensures heroi.Valid() && depois == MesaDe(heroi, inimigo, dado, lidas2)
    ensures fim.Some? ==> Desenlace(depois, fim.value) == alvo
    ensures fim.None? ==> Encontro(g, heroi.classe, depois, dado.fonte, resta) == alvo
  {
    lidas2, fim := JogarTurno(g, heroi, inimigo, dado, lidas);
    depois := MesaDe(heroi, inimigo, dado, lidas2);
    UmTurno(g, heroi.classe, antes, dado.fonte, resta + 1, depois, fim);
  }

  /**
   * The encounter's `while`: turns while hero and enemy are both alive. It
   * ends where `Encontro` says, stopping after `fuel` turns.
   */
  method Enfrentar(g: Regras, heroi: Personagem, inimigo: Entidade, dado: Dado, lidas: nat, fuel: nat)
    returns (lidas2: nat, fim: Fim)
    requires heroi.Valid() && inimigo != heroi.corpo && dado.fonte.Valida()
    modifies heroi.corpo, inimigo, dado
    ensures heroi.Valid()
    ensures Desenlace(MesaDe(heroi, inimigo, dado, lidas2), fim)
         == Encontro(g, heroi.classe, old(MesaDe(heroi, inimigo, dado, lidas)), dado.fonte, fuel)
  {
    ghost var k, f := heroi.classe, dado.fonte;
    ghost var atual := MesaDe(heroi, inimigo, dado, lidas);
    ghost var alvo := Encontro(g, k, atual, f, fuel);
    lidas2 := lidas;
    var resta := fuel;
    while heroi.corpo.EstaVivo() && inimigo.EstaVivo()
      invariant heroi.Valid() && atual == MesaDe(heroi, inimigo, dado, lidas2)
      invariant Encontro(g, k, atual, f, resta) == alvo
      decreases resta
    {
      if resta == 0 {
        return lidas2, Esgotado;
      }
      resta := resta - 1;
      var r;
      lidas2, r, atual := Rodar(g, heroi, inimigo, dado, lidas2, resta, atual, alvo);
      if r.Some? {
        return lidas2, r.value;
      }
    }
    fim := FimDoLaco;
  }

  /** The state of every enemy of the horde, in order. */
  ghost function Estados(horda: seq<Entidade>): (r: seq<Estado>)
    reads set j | 0 <= j < |horda| :: horda[j]
    ensures |r| == |horda| && forall j :: 0 <= j < |horda| ==> r[j] == horda[j].Retrato()
  {
    if |horda| == 0 then []
    else Estados(horda[..|horda| - 1]) + [horda[|horda| - 1].Retrato()]
  }

  /** The mission's values as the objects hold them. */
  ghost function CampanhaDe(heroi: Personagem, horda: seq<Entidade>, dado: Dado, lidas: nat): Campanha
    requires heroi.corpo.efeitos.Some?
    reads heroi.corpo, dado, set j | 0 <= j < |horda| :: horda[j]
  {
    Campanha(heroi.corpo.atrib, heroi.corpo.efeitos.value, Estados(horda), dado.usados6, dado.usados20, lidas)
  }

  /** One step of the walk over the horde, given how the encounter with enemy `i` ends. */
  lemma UmEncontro(g: Regras, k: Classe, p: Campanha, i: nat, vencidos: nat, f: Fonte, fuel: nat, d: Desenlace)
    requires i < |p.inimigos|
    requires d == Encontro(g, k, Mesa(p.heroi, p.ef, p.inimigos[i], p.i6, p.i20, p.lidas), f, fuel)
    ensures var q := Campanha(d.m.heroi, d.m.ef, p.inimigos[i := d.m.inimigo], d.m.i6, d.m.i20, d.m.lidas);
      var v := if Conta(d.fim) then vencidos + 1 else vencidos;
      && (d.fim == Esgotado ==> Percorrer(g, k, p, i, vencidos, f, fuel) == Relato(q, None))
      && (d.fim == Fuga ==>
            Percorrer(g, k, p, i, vencidos, f, fuel) == Relato(q, Some(ResultadoMissao(false, vencidos, "Fugiu da missão."))))
      && (d.fim != Esgotado && d.fim != Fuga && q.heroi.vida <= 0 ==>
            Percorrer(g, k, p, i, vencidos, f, fuel) == Relato(q, Some(ResultadoMissao(false, v, "Derrotado nas hordas."))))
      && (d.fim != Esgotado && d.fim != Fuga && q.heroi.vida > 0 ==>
            Percorrer(g, k, p, i, vencidos, f, fuel) == Percorrer(g, k, q, i + 1, v, f, fuel))
  {
  }

  /**
   * One pass of the `for` over the horde: the encounter with enemy `i`, then
   * the mission either stops with `resultado` or goes on to the next enemy
   * with `vencidos2` wins, as the walk `alvo` over the whole horde says.
   */
  method Combater(g: Regras, heroi: Personagem, horda: seq<Entidade>, dado: Dado, i: nat, vencidos: nat,
                  lidas: nat, fuel: nat, ghost alvo: Relato)
    returns (lidas2: nat, vencidos2: nat, parar: bool, resultado: Option<ResultadoMissao>)
    requires heroi.Valid() && dado.fonte.Valida() && i < |horda|
    requires forall j :: 0 <= j < |horda| ==> horda[j] != heroi.corpo
    requires forall j :: 0 <= j < |horda| && j != i ==> horda[j] != horda[i]
    requires Percorrer(g, heroi.classe, CampanhaDe(heroi, horda, dado, lidas), i, vencidos, dado.fonte, fuel) == alvo
    modifies heroi.corpo, dado, horda[i]
    ensures heroi.Valid()
    ensures parar ==> alvo == Relato(CampanhaDe(heroi, horda, dado, lidas2), resultado)
    ensures !parar ==> Percorrer(g, heroi.classe, CampanhaDe(heroi, horda, dado, lidas2), i + 1, vencidos2, dado.fonte, fuel) == alvo
  {
    ghost var antes := CampanhaDe(heroi, horda, dado, lidas);
    assert MesaDe(heroi, horda[i], dado, lidas) == Mesa(antes.heroi, antes.ef, antes.inimigos[i], antes.i6, antes.i20, antes.lidas);
    var fim;
    lidas2, fim := Enfrentar(g, heroi, horda[i], dado, lidas, fuel);
    assert Estados(horda) == antes.inimigos[i := horda[i].Retrato()];
    UmEncontro(g, heroi.classe, antes, i, vencidos, dado.fonte, fuel, Desenlace(MesaDe(heroi, horda[i], dado, lidas2), fim));
    vencidos2, parar, resultado := vencidos, true, None;
    if fim == Esgotado {
      return;
    }
    if fim == Fuga {
      resultado := Some(ResultadoMissao(false, vencidos, "Fugiu da missão."));
      return;
    }
    if Conta(fim) {
      vencidos2 := vencidos + 1;
    }
    if !heroi.corpo.EstaVivo() {
      resultado := Some(ResultadoMissao(false, vencidos2, "Derrotado nas hordas."));
      return;
    }
    parar := false;
  }

  /**
   * `executar`: every enemy in turn, each encounter allowed `fuel` turns;
   * `None` when one of them ran out. The horde is distinct objects, none of
   * them the hero; `lidas` is how many typed lines were consumed.
   */
  method Executar(g: Regras, heroi: Personagem, horda: seq<Entidade>, dado: Dado, fuel: nat)
    returns (resultado: Option<ResultadoMissao>, lidas: nat)
    requires heroi.Valid() && dado.fonte.Valida()
    requires forall j :: 0 <= j < |horda| ==> horda[j] != heroi.corpo
    requires forall i, j :: 0 <= i < j < |horda| ==> horda[i] != horda[j]
    modifies heroi.corpo, dado, set j | 0 <= j < |horda| :: horda[j]
    ensures heroi.Valid()
    ensures var r := Percorrer(g, heroi.classe, old(CampanhaDe(heroi, horda, dado, 0)), 0, 0, dado.fonte, fuel);
      resultado == r.resultado && CampanhaDe(heroi, horda, dado, lidas) == r.fim
  {
    ghost var alvo := Percorrer(g, heroi.classe, CampanhaDe(heroi, horda, dado, 0), 0, 0, dado.fonte, fuel);
    var vencidos := 0;
    lidas := 0;
    var i := 0;
    while i < |horda|
      invariant 0 <= i <= |horda|
      invariant heroi.Valid()
      invariant Percorrer(g, heroi.classe, CampanhaDe(heroi, horda, dado, lidas), i, vencidos, dado.fonte, fuel) == alvo
    {
      var parar;
      lidas, vencidos, parar, resultado := Combater(g, heroi, horda, dado, i, vencidos, lidas, fuel, alvo);
      if parar {
        return;
      }
      i := i + 1;
    }
    resultado := Some(ResultadoMissao(true, vencidos, "Vitória!"));
  }

  // -------------------------------------------------------------- lemmas

  /**
   * The turn counter goes up by exactly one per hero turn, before the tick,
   * which leaves it alone (and lowers the stun counter by one when set).
   * The enemy and the typed lines are untouched.
   */
  lemma PreparoConta(m: Mesa, f: Fonte)
    ensures Preparo(m, f).ef.turnos == m.ef.turnos + 1
    ensures Preparo(m, f).ef.naoPodeAtacar == Dec(m.ef.naoPodeAtacar)
    ensures Preparo(m, f).inimigo == m.inimigo && Preparo(m, f).lidas == m.lidas
  {
    var c := Contado(m);
    TickContadores(c.heroi, c.ef, f, c.i6, c.i20);
  }

  /** A hero still stunned after its tick takes no action: no line is read and nothing changes. */
  lemma AtordoadoNaoAge(g: Regras, k: Classe, m: Mesa, f: Fonte)
    requires Preparo(m, f).ef.naoPodeAtacar > 0
    ensures VezDoHeroi(g, k, Preparo(m, f), f) == Vez(Preparo(m, f), false)
  {
  }

  /**
   * The mana gate: the basic attack with too little mana, a listed special
   * costing more than the mana held, a number past the list and anything
   * unreadable all leave the scene as it was, deal nothing and do not flee.
   * An affordable basic attack or listed special is carried out.
   */
  lemma BloqueadoNaoFazNada(xs: seq<Opcao>, custoBasico: int, k: Classe, acao: string, c: Cena, f: Fonte)
    requires c.alvo.Some?
    ensures var a := Interpretar(acao, |xs|); var d := Agir(xs, custoBasico, k, acao, c, f);
      && (a == Basico && c.heroi.mana < custoBasico ==> d == Desfecho(Saida(c, 0), false))
      && (a.Especial? && c.heroi.mana < xs[a.indice].custo ==> d == Desfecho(Saida(c, 0), false))
      && (a == EspecialInvalida || a == Invalida ==> d == Desfecho(Saida(c, 0), false))
      && (a == Basico && c.heroi.mana >= custoBasico ==> d == Desfecho(AtaqueBasico(k, c, f), false))
      && (a.Especial? && c.heroi.mana >= xs[a.indice].custo ==>
            d == Desfecho(EspecialNaMissao(k, xs[a.indice].id, c, f), false))
  {
  }

  /**
   * What the healer's specials do when chosen in a mission: id 1 only pays
   * its 3 mana (there is nobody to heal), 3 pays 15 and turns reflection on,
   * 4 strikes the enemy, and 2, 5, 6 and 7 do nothing at all.
   */
  lemma CurandeiroNaMissao(id: int, c: Cena, f: Fonte)
    requires c.alvo.Some?
    ensures var s := EspecialNaMissao(Curandeiro, id, c, f);
      && (id == 1 ==> s == Saida(c.(heroi := c.heroi.(mana := ManaApos(c.heroi.mana, 3))), 0))
      && (id == 3 && c.heroi.mana >= 15 ==>
            s == Saida(c.(heroi := c.heroi.(mana := c.heroi.mana - 15),
                          ef := c.ef.(refletirDanoTurnos := Max(c.ef.refletirDanoTurnos, 1))), 0))
      && (id == 4 ==> s == GolpeDeMisericordia(c, f))
      && (id == 2 || id == 5 || id == 6 || id == 7 ==> s == Saida(c, 0))
  {
  }

  /**
   * The enemy's attack: nothing while stunned; otherwise the hero takes
   * `max(0, d6 + ataque)` through its defence, nothing at all while
   * invulnerable, and while reflecting the enemy takes back, through its own
   * defence, exactly what got through to the hero.
   */
  lemma AtaqueDoInimigoRegras(m: Mesa, f: Fonte)
    requires m.heroi.vida >= 0
    ensures Atordoado(m.inimigo.efeitos) ==> AtaqueDoInimigo(m, f) == m
    ensures var r := AtaqueDoInimigo(m, f); var bruto := Max(0, f.seis(m.i6) + m.inimigo.atrib.ataque);
      var aplicado := DanoAplicado(m.heroi.defesa, bruto);
      !Atordoado(m.inimigo.efeitos) ==>
        && r.i6 == m.i6 + 1 && r.i20 == m.i20 && r.ef == m.ef && r.lidas == m.lidas
        && (m.ef.invulneravelTurnos > 0 ==> r.heroi == m.heroi && r.inimigo == m.inimigo)
        && (m.ef.invulneravelTurnos <= 0 ==>
              && r.heroi == AposDano(m.heroi, bruto)
              && (aplicado > 0 && m.ef.refletirDanoTurnos > 0 ==>
                    r.inimigo.atrib == AposDano(m.inimigo.atrib, aplicado))
              && (aplicado == 0 || m.ef.refletirDanoTurnos <= 0 ==> r.inimigo == m.inimigo))
  {
  }

  /** A turn never ends the encounter by the loop's own test or by the turn budget. */
  lemma TurnoFim(g: Regras, k: Classe, m: Mesa, f: Fonte)
    ensures var t := Turno(g, k, m, f);
      && (t.fim == Some(PelaAcao) || t.fim == Some(PelosEfeitos) ==> t.m.inimigo.atrib.vida <= 0)
      && t.fim != Some(FimDoLaco) && t.fim != Some(Esgotado)
  {
  }

  /**
   * The way an encounter ended agrees with the table it left: a counted win
   * leaves the enemy dead, the loop's own exit leaves one of the two dead,
   * and running out of turns leaves both alive.
   */
  predicate FimCoerente(d: Desenlace) {
    && (Conta(d.fim) ==> d.m.inimigo.atrib.vida <= 0)
    && (d.fim == FimDoLaco ==> d.m.heroi.vida <= 0 || d.m.inimigo.atrib.vida <= 0)
    && (d.fim == Esgotado ==> d.m.heroi.vida > 0 && d.m.inimigo.atrib.vida > 0)
  }

  /**
   * With both alive and turns left, the encounter either ends coherently
   * after one turn or is the rest of the loop from some table, with
   * `resto` turns left.
   */
  lemma EncontroPasso(g: Regras, k: Classe, m: Mesa, f: Fonte, fuel: nat, resto: nat)
    requires m.heroi.vida > 0 && m.inimigo.atrib.vida > 0 && fuel == resto + 1
    ensures var d := Encontro(g, k, m, f, fuel);
      FimCoerente(d) || exists m2 :: d == Encontro(g, k, m2, f, resto)
  {
    TurnoFim(g, k, m, f);
    var t := Turno(g, k, m, f);
    UmTurno(g, k, m, f, fuel, t.m, t.fim);
  }

  /**
   * How an encounter can end: always coherently with the table it leaves
   * (see `FimCoerente`); and one that starts with either of the two dead
   * ends at once, unchanged.
   */
  lemma {:induction false} EncontroTermina(g: Regras, k: Classe, m: Mesa, f: Fonte, fuel: nat)
    ensures FimCoerente(Encontro(g, k, m, f, fuel))
    ensures !(m.heroi.vida > 0 && m.inimigo.atrib.vida > 0) ==> Encontro(g, k, m, f, fuel) == Desenlace(m, FimDoLaco)
    decreases fuel
  {
    if m.heroi.vida > 0 && m.inimigo.atrib.vida > 0 && fuel > 0 {
      var resto: nat := fuel - 1;
      EncontroPasso(g, k, m, f, fuel, resto);
      forall m2 | true
        ensures FimCoerente(Encontro(g, k, m2, f, resto))
      {
        EncontroTermina(g, k, m2, f, resto);
      }
    }
  }

  /**
   * An enemy killed by reflected damage is not counted: the turn ends
   * normally, the loop's test then fails and the encounter ends by the loop,
   * which `executar` does not count as a win.
   */
  lemma ReflexaoNaoConta(g: Regras, k: Classe, m: Mesa, f: Fonte, fuel: nat)
    requires m.heroi.vida > 0 && m.inimigo.atrib.vida > 0 && fuel > 0
    requires Turno(g, k, m, f).fim.None? && Turno(g, k, m, f).m.inimigo.atrib.vida <= 0
    ensures Encontro(g, k, m, f, fuel) == Desenlace(Turno(g, k, m, f).m, FimDoLaco)
    ensures !Conta(Encontro(g, k, m, f, fuel).fim)
  {
    var t := Turno(g, k, m, f);
    UmTurno(g, k, m, f, fuel, t.m, t.fim);
  }

  /**
   * What `executar` reports, from enemy `i` on with `vencidos` wins so far:
   * the horde keeps its size and the enemies already faced; it wins exactly
   * when it says "Vitória!", and then every remaining enemy is dead and the
   * hero alive (if any were left); a loss by defeat leaves the hero dead;
   * every message is one of the three; and the count grows by at most one
   * per enemy faced.
   */
  lemma {:induction false} PercorrerResultado(g: Regras, k: Classe, p: Campanha, i: nat, vencidos: nat, f: Fonte, fuel: nat)
    requires i <= |p.inimigos|
    ensures var r := Percorrer(g, k, p, i, vencidos, f, fuel);
      && |r.fim.inimigos| == |p.inimigos|
      && r.fim.inimigos[..i] == p.inimigos[..i]
      && (r.resultado.Some? ==>
            var res := r.resultado.value;
            && vencidos <= res.encontrosVencidos <= vencidos + |p.inimigos| - i
            && (res.venceu <==> res.detalhes == "Vitória!")
            && (res.detalhes == "Vitória!" || res.detalhes == "Fugiu da missão." || res.detalhes == "Derrotado nas hordas.")
            && (res.detalhes == "Derrotado nas hordas." ==> r.fim.heroi.vida <= 0)
            && (res.venceu && i < |p.inimigos| ==>
                  r.fim.heroi.vida > 0 && forall j :: i <= j < |p.inimigos| ==> r.fim.inimigos[j].atrib.vida <= 0))
    decreases |p.inimigos| - i
  {
    if i < |p.inimigos| {
      var d := Encontro(g, k, Mesa(p.heroi, p.ef, p.inimigos[i], p.i6, p.i20, p.lidas), f, fuel);
      EncontroTermina(g, k, Mesa(p.heroi, p.ef, p.inimigos[i], p.i6, p.i20, p.lidas), f, fuel);
      var q := Campanha(d.m.heroi, d.m.ef, p.inimigos[i := d.m.inimigo], d.m.i6, d.m.i20, d.m.lidas);
      var v := if Conta(d.fim) then vencidos + 1 else vencidos;
      if d.fim != Esgotado && d.fim != Fuga && q.heroi.vida > 0 {
        PercorrerResultado(g, k, q, i + 1, v, f, fuel);
        var r := Percorrer(g, k, q, i + 1, v, f, fuel);
        assert r.fim.inimigos[..i + 1] == q.inimigos[..i + 1];
        assert r.fim.inimigos[..i] == q.inimigos[..i + 1][..i];
        assert q.inimigos[..i] == p.inimigos[..i];
      }
    }
  }

  /**
   * The finding at line 199: an enemy (which has no registry) that survives
   * the hero's action and its own tick reaches a stun test that reads the
   * missing registry and fails, where the intended test says "not stunned".
   */
  lemma Linha199FalhaSemRegistro(g: Regras, k: Classe, m: Mesa, f: Fonte)
    requires m.inimigo.efeitos.None?
    ensures var v := VezDoHeroi(g, k, Preparo(m, f), f); var t := TickDoInimigo(v.m, f);
      !v.fugiu && t.inimigo.atrib.vida > 0 ==>
        AtordoadoComoEscrito(t.inimigo.efeitos) == None && !Atordoado(t.inimigo.efeitos)
  {
    PreparoConta(m, f);
  }

  /**
   * Line 199 is reached: against a freshly made Goblin, a hero stunned for
   * two turns or more skips its action, the Goblin's tick does nothing, and
   * the stun test reads the Goblin's missing registry.
   */
  lemma Linha199Alcancada(g: Regras, k: Classe, f: Fonte, a: Atributos, e: Efeitos)
    requires e.naoPodeAtacar >= 2
    ensures var m := Mesa(a, e, Estado(AtributosIniciais(FichaDe(Goblin)), None), 0, 0, 0);
      var v := VezDoHeroi(g, k, Preparo(m, f), f); var t := TickDoInimigo(v.m, f);
      !v.fugiu && t.inimigo.atrib.vida > 0 && AtordoadoComoEscrito(t.inimigo.efeitos) == None
  {
    var m := Mesa(a, e, Estado(AtributosIniciais(FichaDe(Goblin)), None), 0, 0, 0);
    PreparoConta(m, f);
    AtordoadoNaoAge(g, k, m, f);
  }

  /** The corrected stun test agrees with the one written wherever the latter is defined. */
  lemma AtordoadoCorrige(e: Option<Efeitos>)
    ensures e.Some? ==> AtordoadoComoEscrito(e) == Some(Atordoado(e))
    ensures e.None? ==> AtordoadoComoEscrito(e) == None && !Atordoado(e)
  {
  }
}
