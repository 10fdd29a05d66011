/**
 * The hero's resources and growth: the mana gate, the "can I afford it" test
 * the menus show, and the experience cascade capped at level 10.
 */
module Progressao {
  import opened Base

  // ----------------------------------------------------------------- mana

  /** `gastar_mana(custo)` answers yes: nothing to pay, or enough mana to pay it. */
  predicate PodePagar(mana: int, custo: int) {
    custo <= 0 || mana >= custo
  }

  /** Mana left after `gastar_mana(custo)`: lowered only when a positive cost is paid. */
  function ManaApos(mana: int, custo: int): (r: int)
    ensures custo <= 0 || mana < custo ==> r == mana
    ensures custo > 0 && mana >= custo ==> r == mana - custo && 0 <= r < mana
  {
    if custo > 0 && mana >= custo then mana - custo else mana
  }

  /** The menus' test: an entry is affordable when `mana >= custo`. */
  predicate Acessivel(mana: int, custo: int) {
    mana >= custo
  }

  /**
   * What the menu promises is what the gate grants: an affordable entry is
   * always paid, and for a positive cost, or any non-negative mana, the two
   * tests agree; for a cost of at least 0 the menu's preview `mana - custo`
   * of an affordable entry is exactly the mana the gate leaves.
   */
  lemma AcessivelPaga(mana: int, custo: int)
    ensures Acessivel(mana, custo) ==> PodePagar(mana, custo)
    ensures custo > 0 || mana >= 0 ==> (Acessivel(mana, custo) <==> PodePagar(mana, custo))
    ensures custo >= 0 && Acessivel(mana, custo) ==> mana - custo == ManaApos(mana, custo)
  {
  }

  /** With negative mana a free action passes the gate while the menu calls it unaffordable. */
  lemma GratisComManaNegativa(mana: int)
    requires mana < 0
    ensures PodePagar(mana, 0) && !Acessivel(mana, 0)
  {
  }

  // ------------------------------------------------------------ experience

  /** Highest level; reaching it wipes the experience counter. */
  const NivelMaximo := 10

  /** `_xp_para_proximo`: experience needed to leave level `nivel`. */
  function XpParaProximo(nivel: int): int { 100 * nivel }

  /** Level, experience and stats of a hero: the state `ganhar_xp` changes. */
  datatype Progresso = Progresso(nivel: int, xp: int, atrib: Atributos)

  /** What `ganhar_xp` reports, in order. */
  datatype Aviso =
    | SubiuNivel(nivel: int, novaHabilidade: bool)
    | NivelMaximoAtingido

  /** The levels whose arrival unlocks a new special. */
  predicate LiberaHabilidade(nivel: int) {
    nivel == 2 || nivel == 4 || nivel == 6 || nivel == 8
  }

  /**
   * One level's worth of stats: the cap (or `vida` when the cap is 0) grows by
   * 5, `vida` gains 5 without passing the new cap, and attack, defence and
   * mana grow by 1, 1 and 5.
   */
  function Crescer(a: Atributos): (r: Atributos)
    ensures r.vidaMax == Teto(a) + 5
    ensures r.vida == Min(Teto(a) + 5, a.vida + 5)
    ensures r.ataque == a.ataque + 1 && r.defesa == a.defesa + 1 && r.mana == a.mana + 5
  {
    var teto := Teto(a) + 5;
    Atributos(Min(teto, a.vida + 5), a.ataque + 1, a.defesa + 1, a.mana + 5, teto)
  }

  /** Result of running the level-up loop: final state and the reports it produced. */
  datatype Subida = Subida(fim: Progresso, avisos: seq<Aviso>)

  /** The `while` of `ganhar_xp`: level up while below 10 and the threshold is met. */
  function Cascata(p: Progresso): Subida
    decreases NivelMaximo - p.nivel
  {
    if p.nivel < NivelMaximo && p.xp >= XpParaProximo(p.nivel) then
      var n := p.nivel + 1;
      var r := Cascata(Progresso(n, p.xp - XpParaProximo(p.nivel), Crescer(p.atrib)));
      Subida(r.fim, [SubiuNivel(n, LiberaHabilidade(n))] + r.avisos)
    else Subida(p, [])
  }

  /** `ganhar_xp(qtd)`: a negative amount counts as 0; nothing happens at 0 or at the top level. */
  function GanharXp(p: Progresso, qtd: int): Subida {
    var q := Max(0, qtd);
    if q == 0 || p.nivel >= NivelMaximo then Subida(p, [])
    else
      var r := Cascata(p.(xp := p.xp + q));
      if r.fim.nivel >= NivelMaximo then Subida(r.fim.(xp := 0), r.avisos + [NivelMaximoAtingido])
      else r
  }

  /** Experience spent to climb from level `de` to level `ate`. */
  function CustoNiveis(de: int, ate: int): int
    decreases ate - de
  {
    if de >= ate then 0 else XpParaProximo(de) + CustoNiveis(de + 1, ate)
  }

  /** `k` level-ups in a row. */
  function CrescerVezes(a: Atributos, k: nat): Atributos
    decreases k
  {
    if k == 0 then a else CrescerVezes(Crescer(a), k - 1)
  }

  /**
   * The cascade climbs `k` levels, one report per level in order, stops below
   * 10 only once the threshold is out of reach, and conserves experience: what
   * was held equals what the climbed levels cost plus what remains.
   */
  lemma {:induction false} CascataSobe(p: Progresso)
    requires p.nivel <= NivelMaximo
    ensures var r := Cascata(p); var k := r.fim.nivel - p.nivel;
      && p.nivel <= r.fim.nivel <= NivelMaximo
      && (p.nivel < NivelMaximo ==> r.fim.nivel < NivelMaximo ==> r.fim.xp < XpParaProximo(r.fim.nivel))
      && (p.nivel == NivelMaximo ==> r == Subida(p, []))
      && p.xp == CustoNiveis(p.nivel, r.fim.nivel) + r.fim.xp
      && (p.xp >= 0 ==> r.fim.xp >= 0)
      && r.fim.atrib == CrescerVezes(p.atrib, k)
      && |r.avisos| == k
      && (forall j :: 0 <= j < k ==> r.avisos[j] == SubiuNivel(p.nivel + j + 1, LiberaHabilidade(p.nivel + j + 1)))
    decreases NivelMaximo - p.nivel
  {
    if p.nivel < NivelMaximo && p.xp >= XpParaProximo(p.nivel) {
      var n := p.nivel + 1;
      var q := Progresso(n, p.xp - XpParaProximo(p.nivel), Crescer(p.atrib));
      CascataSobe(q);
      var r := Cascata(q);
      var k := r.fim.nivel - q.nivel;
      assert Cascata(p) == Subida(r.fim, [SubiuNivel(n, LiberaHabilidade(n))] + r.avisos);
      assert r.fim.atrib == CrescerVezes(Crescer(p.atrib), k);
      assert CrescerVezes(p.atrib, k + 1) == CrescerVezes(Crescer(p.atrib), k);
    }
  }

  /**
   * Closed form of `k >= 1` level-ups on a hero whose cap is not negative:
   * the cap grows by `5k`, `vida` by `5k` without passing it, attack and
   * defence by `k`, mana by `5k`.
   */
  lemma {:induction false} CrescerVezesFechado(a: Atributos, k: nat)
    requires k >= 1 && Teto(a) >= 0
    decreases k
    ensures var r := CrescerVezes(a, k);
      && r.vidaMax == Teto(a) + 5 * k
      && r.vida == Min(Teto(a) + 5 * k, a.vida + 5 * k)
      && r.ataque == a.ataque + k && r.defesa == a.defesa + k && r.mana == a.mana + 5 * k
  {
    if k > 1 {
      var b := Crescer(a);
      assert Teto(b) == Teto(a) + 5;
      CrescerVezesFechado(b, k - 1);
    }
  }

  /** Invariant of a hero's progress: a level in 1..10, experience below the next threshold, 0 at the top. */
  predicate Coerente(nivel: int, xp: int) {
    1 <= nivel <= NivelMaximo && xp >= 0
    && (nivel < NivelMaximo ==> xp < XpParaProximo(nivel))
    && (nivel == NivelMaximo ==> xp == 0)
  }

  /**
   * `ganhar_xp` never lowers the level, never passes 10, keeps the progress
   * invariant (so on return either level 10 with no experience, or experience
   * below `100 * nivel`), does nothing for a non-positive amount or a hero at
   * the top, and ends its reports with the "maximum level" notice exactly
   * when it reached 10.
   */
  lemma GanharXpCoerente(p: Progresso, qtd: int)
    requires 1 <= p.nivel <= NivelMaximo && p.xp >= 0
    ensures var r := GanharXp(p, qtd);
      && p.nivel <= r.fim.nivel <= NivelMaximo
      && (qtd <= 0 || p.nivel >= NivelMaximo ==> r == Subida(p, []))
      && (qtd > 0 && p.nivel < NivelMaximo ==> Coerente(r.fim.nivel, r.fim.xp))
      && (qtd > 0 && p.nivel < NivelMaximo ==>
            (r.fim.nivel == NivelMaximo <==> |r.avisos| > 0 && r.avisos[|r.avisos| - 1] == NivelMaximoAtingido))
  {
    if qtd > 0 && p.nivel < NivelMaximo {
      var q := p.(xp := p.xp + qtd);
      CascataSobe(q);
      var c := Cascata(q);
      CustoNiveisNaoNegativo(q.nivel, c.fim.nivel);
    }
  }

  /** Climbing from a positive level costs nothing negative. */
  lemma {:induction false} CustoNiveisNaoNegativo(de: int, ate: int)
    requires de >= 1
    ensures CustoNiveis(de, ate) >= 0
    decreases ate - de
  {
    if de < ate {
      CustoNiveisNaoNegativo(de + 1, ate);
    }
  }

  /**
   * Each level gained by `ganhar_xp` adds 5 to the cap, 1 to attack and
   * defence, 5 to mana, and sets `vida` to `min(cap, vida + 5)`; with `k`
   * levels gained this adds up to `5k`, `k`, `k`, `5k`.
   */
  lemma GanharXpAtributos(p: Progresso, qtd: int)
    requires p.nivel <= NivelMaximo && Teto(p.atrib) >= 0
    ensures var r := GanharXp(p, qtd); var k := r.fim.nivel - p.nivel;
      && k >= 0
      && (k == 0 ==> r.fim.atrib == p.atrib)
      && (k >= 1 ==>
            && r.fim.atrib.vidaMax == Teto(p.atrib) + 5 * k
            && r.fim.atrib.vida == Min(Teto(p.atrib) + 5 * k, p.atrib.vida + 5 * k)
            && r.fim.atrib.ataque == p.atrib.ataque + k
            && r.fim.atrib.defesa == p.atrib.defesa + k
            && r.fim.atrib.mana == p.atrib.mana + 5 * k)
  {
    if qtd > 0 && p.nivel < NivelMaximo {
      var q := p.(xp := p.xp + qtd);
      CascataSobe(q);
      var k := Cascata(q).fim.nivel - p.nivel;
      if k >= 1 {
        CrescerVezesFechado(p.atrib, k);
      }
    }
  }

  /** Enough experience in one go climbs several levels: 300 at level 1 reaches level 3 with nothing left. */
  lemma SobeVariosNiveis(a: Atributos)
    ensures GanharXp(Progresso(1, 0, a), 300).fim.nivel == 3
    ensures GanharXp(Progresso(1, 0, a), 300).fim.xp == 0
    ensures GanharXp(Progresso(1, 0, a), 300).avisos == [SubiuNivel(2, true), SubiuNivel(3, false)]
  {
    var q := Progresso(1, 300, a);
    assert Cascata(Progresso(3, 0, Crescer(Crescer(a)))) == Subida(Progresso(3, 0, Crescer(Crescer(a))), []);
    assert Cascata(Progresso(2, 200, Crescer(a))).fim == Progresso(3, 0, Crescer(Crescer(a)));
  }
}
