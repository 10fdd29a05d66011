/**
 * The action a hero takes in a mission turn: the text typed (or chosen by the
 * auto-player), how the turn loop reads it, and the auto-player's heuristic.
 */
module Acoes {
  import opened Wrappers
  import opened Base
  import opened Habilidades

  /** One entry of the special list a mission offers: logical id, name, cost shown. */
  datatype Opcao = Opcao(id: int, nome: string, custo: int)

  // -------------------------------------------------------- decimal text

  predicate EhAlgarismo(c: char) { '0' <= c <= '9' }

  /** `str.isdigit()` on ASCII text: not empty, digits only. */
  predicate Digitos(s: string) {
    |s| > 0 && forall i :: 0 <= i < |s| ==> EhAlgarismo(s[i])
  }

  function Algarismo(d: nat): (c: char)
    requires d < 10
    ensures EhAlgarismo(c) && c as int - '0' as int == d
  {
    ('0' as int + d) as char
  }

  /** `int(s)` for a string of digits (leading zeros allowed). */
  function ValorDecimal(s: string): (r: nat)
    requires forall i :: 0 <= i < |s| ==> EhAlgarismo(s[i])
    ensures |s| == 1 ==> r == s[0] as int - '0' as int
  {
    if |s| == 0 then 0
    else
      assert EhAlgarismo(s[|s| - 1]);
      assert |s| == 1 ==> s[..|s| - 1] == [];
      10 * ValorDecimal(s[..|s| - 1]) + (s[|s| - 1] as int - '0' as int)
  }

  /** `str(i)`: decimal digits, no leading zero. */
  function Texto(i: nat): (s: string)
    ensures Digitos(s)
    ensures |s| == 1 <==> i < 10
  {
    if i < 10 then [Algarismo(i)] else Texto(i / 10) + [Algarismo(i % 10)]
  }

  /** `int(str(i)) == i`. */
  lemma {:induction false} ValorDeTexto(i: nat)
    ensures ValorDecimal(Texto(i)) == i
  {
    var s := Texto(i);
    if i >= 10 {
      ValorDeTexto(i / 10);
      assert s[..|s| - 1] == Texto(i / 10);
    } else {
      assert s[..|s| - 1] == [];
    }
  }

  // ------------------------------------------------------------- reading

  /** What the turn loop makes of the text it got. */
  datatype Acao =
    | Basico                   // "1"
    | Especial(indice: nat)    // "2", "3", ...: entry `indice` of the list
    | EspecialInvalida         // a number past the end of the list
    | Fugir                    // "0"
    | Invalida                 // anything else

  /**
   * The branches of the turn loop: "1" is the basic attack, a number `>= 2`
   * the entry `number - 2` of the list when there is one, "0" flight, and
   * anything else an invalid action.
   */
  function Interpretar(s: string, n: nat): (a: Acao)
    ensures a.Especial? ==> a.indice < n && Digitos(s) && ValorDecimal(s) == a.indice + 2
    ensures a == Fugir <==> s == "0"
    ensures a == Basico <==> s == "1"
  {
    if s == "1" then Basico
    else if Digitos(s) && ValorDecimal(s) >= 2 then
      (if ValorDecimal(s) - 2 < n then Especial(ValorDecimal(s) - 2) else EspecialInvalida)
    else if s == "0" then Fugir
    else Invalida
  }

  /**
   * Menu numbers read back as what they label: 0 flees, 1 is the basic
   * attack, `i >= 2` is entry `i - 2` when the list has it.
   */
  lemma InterpretarTexto(i: nat, n: nat)
    ensures Interpretar(Texto(i), n) ==
      if i == 0 then Fugir
      else if i == 1 then Basico
      else if i - 2 < n then Especial(i - 2)
      else EspecialInvalida
  {
    ValorDeTexto(i);
    var s := Texto(i);
    if i >= 10 {
      assert |s| >= 2;
      assert s != "1" && s != "0";
    } else {
      assert s == [Algarismo(i)];
    }
  }

  // ---------------------------------------------------------- auto-play

  /** The names the healer reaches for when hurt. */
  predicate Defensiva(o: Opcao) {
    o.nome in {"Capítulo Final", "Semente Engatilhada", "Ventos Revigorantes"}
  }

  /** The test each scan applies: defensive and affordable, or affordable with a positive cost. */
  predicate Serve(o: Opcao, mana: int, defensiva: bool) {
    if defensiva then Defensiva(o) && mana >= o.custo
    else mana >= o.custo && o.custo > 0
  }

  /** Position of the first entry that passes the scan's test. */
  function Primeira(xs: seq<Opcao>, mana: int, defensiva: bool): (r: Option<nat>)
    ensures r.Some? ==> r.value < |xs| && Serve(xs[r.value], mana, defensiva)
    ensures r.Some? ==> forall j :: 0 <= j < r.value ==> !Serve(xs[j], mana, defensiva)
    ensures r.None? ==> forall j :: 0 <= j < |xs| ==> !Serve(xs[j], mana, defensiva)
  {
    if |xs| == 0 then None
    else if Serve(xs[0], mana, defensiva) then Some(0)
    else
      var r := Primeira(xs[1..], mana, defensiva);
      if r.Some? then Some(r.value + 1) else None
  }

  /**
   * `hp_frac < 0.35` in integers: `vida / (vida_max or vida)` compared with
   * 7/20, and a zero denominator counting as full health.
   */
  predicate VidaBaixa(a: Atributos) {
    var m := Teto(a);
    if m > 0 then 20 * a.vida < 7 * m
    else if m < 0 then 20 * a.vida > 7 * m
    else false
  }

  /**
   * The menu number the auto-player picks (1 for the basic attack, `i + 2`
   * for entry `i`): never flight, never an entry it cannot pay; outside the
   * hurt-healer case, the first entry with `0 < custo <= mana`, or the basic
   * attack exactly when there is none.
   */
  function AcaoAuto(k: Classe, a: Atributos, xs: seq<Opcao>): (i: nat)
    ensures i == 1 || 2 <= i < |xs| + 2
    ensures i >= 2 ==> a.mana >= xs[i - 2].custo
    ensures !(k == Curandeiro && VidaBaixa(a)) ==>
      && (i >= 2 ==> 0 < xs[i - 2].custo && forall j :: 0 <= j < i - 2 ==> !(0 < xs[j].custo <= a.mana))
      && (i == 1 <==> forall j :: 0 <= j < |xs| ==> !(0 < xs[j].custo <= a.mana))
  {
    var d := if k == Curandeiro && VidaBaixa(a) then Primeira(xs, a.mana, true) else None;
    if d.Some? then d.value + 2
    else
      var g := Primeira(xs, a.mana, false);
      if g.Some? then g.value + 2 else 1
  }

  /**
   * A healer below 35% health takes the first affordable defensive entry
   * when the list has one; otherwise it decides as any other class does.
   */
  lemma CurandeiroFeridoDefende(a: Atributos, xs: seq<Opcao>)
    requires VidaBaixa(a)
    ensures (exists j :: 0 <= j < |xs| && Defensiva(xs[j]) && a.mana >= xs[j].custo) ==>
      var i := AcaoAuto(Curandeiro, a, xs);
      && i >= 2 && Defensiva(xs[i - 2])
      && forall j :: 0 <= j < i - 2 ==> !(Defensiva(xs[j]) && a.mana >= xs[j].custo)
    ensures (forall j :: 0 <= j < |xs| ==> !(Defensiva(xs[j]) && a.mana >= xs[j].custo)) ==>
      AcaoAuto(Curandeiro, a, xs) == AcaoAuto(Guerreiro, a, xs)
  {
    var d := Primeira(xs, a.mana, true);
    if exists j :: 0 <= j < |xs| && Defensiva(xs[j]) && a.mana >= xs[j].custo {
      var j :| 0 <= j < |xs| && Defensiva(xs[j]) && a.mana >= xs[j].custo;
      assert Serve(xs[j], a.mana, true);
    }
  }

  /**
   * The text the auto-player returns reads back, in the turn loop, as the
   * basic attack or as the entry it picked: never flight, never an invalid
   * or out-of-range action, and never blocked for lack of mana when it is
   * an entry.
   */
  lemma AutoNuncaFoge(k: Classe, a: Atributos, xs: seq<Opcao>)
    ensures var i := AcaoAuto(k, a, xs); var acao := Interpretar(Texto(i), |xs|);
      && Texto(i) != "0"
      && (i == 1 ==> acao == Basico)
      && (i >= 2 ==> acao == Especial(i - 2) && a.mana >= xs[i - 2].custo)
  {
    InterpretarTexto(AcaoAuto(k, a, xs), |xs|);
  }
}
