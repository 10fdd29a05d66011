/**
 * The game screen's two rules that are not menus: the d20 that decides how
 * good a plain attack is, and the affordability line of each special.
 */
module Jogo {
  import opened Wrappers
  import opened Base
  import opened Dados
  import opened Progressao
  import opened Habilidades
  import opened Personagens

  /** The four grades of a plain attack. */
  datatype Qualidade = Pessima | Normal | Boa | Excelente

  /** 1–5 misses, 6–10 is normal, 11–15 good, anything else excellent. */
  function QualidadeDe(r: int): Qualidade {
    if 1 <= r <= 5 then Pessima
    else if 6 <= r <= 10 then Normal
    else if 11 <= r <= 15 then Boa
    else Excelente
  }

  /** Raw damage of each grade from the base damage. */
  function Ajustado(q: Qualidade, base: int): int {
    match q
    case Pessima => 0
    case Normal => base
    case Boa => base + 1
    case Excelente => base * 2
  }

  /**
   * `_ataque_normal_com_d20`: one d20; a miss stops there (the base damage is
   * never computed), otherwise the base damage is graded and dealt.
   */
  function AtaqueComD20(c: Cena, f: Fonte): Saida
    requires c.alvo.Some?
  {
    var r := f.vinte(c.i20);
    var c1 := c.(i20 := c.i20 + 1);
    if QualidadeDe(r) == Pessima then Nada(c1)
    else
      var b := DanoBase(c1, f);
      Golpear(b.cena, Ajustado(QualidadeDe(r), b.dano))
  }

  /** `_ataque_normal_com_d20` on the objects. */
  method AtaqueNormalComD20(heroi: Personagem, inimigo: Entidade, dado: Dado) returns (efetivo: int)
    requires heroi.Valid() && inimigo != heroi.corpo && dado.fonte.Valida()
    modifies heroi.corpo, inimigo, dado
    ensures heroi.Valid()
    ensures var s := AtaqueComD20(old(heroi.Quadro(Some(inimigo), dado)), dado.fonte);
      heroi.Quadro(Some(inimigo), dado) == s.cena && efetivo == s.dano
  {
    var r := dado.D20();
    if 1 <= r <= 5 {
      return 0;
    }
    var base := heroi.CalcularDanoBase(dado);
    var dano;
    if 6 <= r <= 10 {
      dano := base;
    } else if 11 <= r <= 15 {
      dano := base + 1;
    } else {
      dano := base * 2;
    }
    efetivo := inimigo.ReceberDano(dano);
  }

  /**
   * A miss (1–5) deals nothing and leaves the buff and the d6 stream alone;
   * 6–10 deals the base, 11–15 the base plus one, 16–20 twice the base; the
   * value returned is what got through the target's defence.
   */
  lemma AtaqueComD20Faixas(c: Cena, f: Fonte)
    requires c.alvo.Some? && f.Valida()
    ensures var r, s := f.vinte(c.i20), AtaqueComD20(c, f);
      var b := DanoBase(c.(i20 := c.i20 + 1), f).dano;
      var bruto := if r <= 5 then 0 else if r <= 10 then b else if r <= 15 then b + 1 else 2 * b;
      && (r <= 5 ==> s == Nada(c.(i20 := c.i20 + 1)))
      && (r > 5 ==> s.dano == DanoAplicado(c.alvo.value.atrib.defesa, bruto))
      && (r > 5 ==> s.cena.alvo.value.atrib == AposDano(c.alvo.value.atrib, bruto))
  {
    assert 1 <= f.vinte(c.i20) <= 20;
  }

  /**
   * The menu line of a special: its preview (`mana - custo`) when it is
   * affordable, `None` for "insufficient".
   */
  function Oferta(mana: int, custo: int): (r: Option<int>)
    ensures r.Some? <==> Acessivel(mana, custo)
    ensures r.Some? ==> r.value == mana - custo
    ensures r.Some? && custo >= 0 ==> r.value == ManaApos(mana, custo)
  {
    if mana >= custo then Some(mana - custo) else None
  }
}
