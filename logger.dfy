/**
 * The game's logger, reduced to its level filter: four ordered levels, a
 * current level, and the test that decides whether a message is written.
 */
module Registro {
  import opened Wrappers

  /** The level table every logger starts with. */
  const Niveis: map<string, int> := map["DEBUG" := 0, "INFO" := 1, "WARNING" := 2, "ERROR" := 3]

  /** `Logger`: the level table and the current minimum level. */
  class Logger {
    var niveis: map<string, int>
    var nivelAtual: string

    /** The current level is always one the table knows. */
    ghost predicate Valid()
      reads this
    {
      nivelAtual in niveis
    }

    /** `Logger()`: the standard table, starting at "INFO". */
    constructor ()
      ensures Valid() && niveis == Niveis && nivelAtual == "INFO"
    {
      niveis := Niveis;
      nivelAtual := "INFO";
    }

    /**
     * `_deve_logar(nivel)`: a message of a known level is written when its
     * level is at least the current one; an unknown level is a lookup
     * failure (`None`).
     */
    function DeveLogar(nivel: string): (r: Option<bool>)
      requires Valid()
      reads this
      ensures r.None? <==> nivel !in niveis
      ensures r == Some(true) <==> nivel in niveis && niveis[nivel] >= niveis[nivelAtual]
    {
      if nivel in niveis then Some(niveis[nivel] >= niveis[nivelAtual]) else None
    }

    /** `set_level(nivel)`: a known level becomes the current one; an unknown one is ignored. */
    method SetLevel(nivel: string)
      requires Valid()
      modifies this
      ensures Valid() && niveis == old(niveis)
      ensures nivelAtual == if nivel in niveis then nivel else old(nivelAtual)
    {
      if nivel in niveis {
        nivelAtual := nivel;
      }
    }
  }

  /**
   * With the standard table: errors always pass, debug messages pass only at
   * "DEBUG", and a level that passes lets every higher level pass too.
   */
  lemma FiltroOrdenado(l: Logger, a: string, b: string)
    requires l.Valid() && l.niveis == Niveis
    ensures l.DeveLogar("ERROR") == Some(true)
    ensures l.DeveLogar("DEBUG") == Some(l.nivelAtual == "DEBUG")
    ensures a in Niveis && b in Niveis && Niveis[a] <= Niveis[b] && l.DeveLogar(a) == Some(true)
            ==> l.DeveLogar(b) == Some(true)
  {
  }

  /** After `set_level` with a known name, exactly the levels from it upwards pass. */
  lemma NivelDefinido(l: Logger, n: string, nivel: string)
    requires l.Valid() && l.niveis == Niveis && l.nivelAtual == n && n in Niveis
    ensures l.DeveLogar(nivel) == Some(true) <==> nivel in Niveis && Niveis[nivel] >= Niveis[n]
  {
  }
}
