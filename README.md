# Combat and progression rules of a turn-based RPG

This project models the rules engine of a small Python text RPG and proves properties of the model in Dafny.

In the game a hero picks one of four classes: Guerreiro, Mago, Arqueiro or Curandeiro. The hero then faces hordes of enemies in missions. Each enemy fight is an encounter, and each encounter is a loop of turns:

1. The hero's turn counter goes up.
2. The hero's start-of-turn effects tick.
3. The hero acts, unless stunned. The action is a basic attack, one of the class's specials, or flight. It is typed, or chosen by an auto-player.
4. The enemy's effects tick.
5. The enemy attacks, unless stunned. The hero's invulnerability cancels the attack, and the hero's reflection sends the damage back.

Experience raises the hero's level, up to level 10.

What is modelled, file by file:

- `base.dfy` (module `Base`):
  - the combat record `Atributos`;
  - the class `Entidade`, whose `receber_dano` mitigates damage by defence and floors hit points at 0;
  - the capped heal.
- `dado.dfy` (module `Dados`): the dice. `d6()` and `d20()` draw from two fixed streams, and a `Dado` object counts how many draws of each it has used.
- `efeitos.dfy` (module `EfeitosTurno`):
  - `tick_efeitos_inicio_turno`, specified by the function `Tick` and carried out step by step on the objects;
  - the "next attack" buff.
- `progressao.dfy` (module `Progressao`):
  - the mana gate `gastar_mana`;
  - the menu's affordability test;
  - the experience cascade of `ganhar_xp`.
- `habilidades.dfy` (module `Habilidades`): every basic attack, every special and `usar_especial` of the four classes, stated as functions on values.
- `personagem.dfy` (module `Personagens`): the class `Personagem`. Its methods change the objects exactly as the `Habilidades`, `Progressao` and `EfeitosTurno` functions say.
- `acao.dfy` (module `Acoes`):
  - how the turn loop reads the typed action;
  - the auto-player `decidir_acao_auto`.
- `missao.dfy` (module `Missoes`): `MissaoHordas.executar`.
  - Its value-level specification is `Turno`, then `Encontro` (the encounter loop), then `Percorrer` (the walk over the horde).
  - The methods that play it on the objects are `JogarTurno`, `Enfrentar` and `Executar`.
- `inimigo.dfy` (module `Inimigos`): the enemy constructor and the five factories.
- `horda.dfy` (module `Hordas`): `generate_horde`.
- `jogo.py` rules, in `jogo.dfy` (module `Jogo`):
  - the d20 quality table of the plain attack;
  - the affordability and preview line of the HUD.
- `inventario.dfy` (module `Inventarios`): the bag `Inventario`, with creation, removal of the first equal item, and listing.
- `logger.dfy` (module `Registro`): the logger's level filter.

An enemy has no effect registry. So `efeitos` is an `Option<Efeitos>` on `Entidade`, and `None` means an enemy. Every `hasattr(alvo, "efeitos")` test in the source becomes a test on that option.

## Model

| member | source | states |
|---|---|---|
| Base.DanoAplicado | models/base.py:22-24 | Damage that gets through is never negative and never more than the raw amount. It is 0 exactly when the raw amount does not exceed the defence (negative defence counts as 0). Otherwise it is the raw amount minus the defence. |
| Base.AposDano | models/base.py:25 | Only `vida` changes and it is never negative. While positive, it is the old `vida` minus the damage that got through. It drops by `min(vida, applied)`. |
| Base.DanoMonotono | models/base.py:22-24 | More raw damage never lets less damage through. |
| Base.Curado | models/personagem.py:117-121 | A heal changes only `vida`. It never lifts `vida` above `vida_max or vida`. It adds `max(0, qtd)` up to that cap and stops at the cap. |
| Base.Restaurado | models/personagem.py:117-121 | `curar` returns what it restored, and the new `vida` is the old one plus it. When `vida` is at most the cap, that is between 0 and `max(0, qtd)`. A record whose kept `vida_max` is below its `vida` is lowered to the cap, and the value returned is that negative drop. |
| Base.Entidade.constructor | models/base.py:13-18 | A missing `vida_max` becomes the initial `vida`. A given `vida_max` is kept. Nothing else is changed. |
| Base.Entidade.ReceberDano | models/base.py:20-29 | Returns the damage that got through. The record becomes `AposDano`, so only `vida` changes. The entity is alive afterwards iff its old `vida` exceeded what got through. |
| Base.Entidade.EstaVivo | models/base.py:28-29 | `esta_vivo`: alive iff `vida > 0`. `ReceberDano` states when an entity survives a hit, and `Missoes.EncontroTermina` and `Missoes.PercorrerResultado` state what the loops' alive tests decide. |
| Dados.SomaLimites | dado.py:11-15 | A sum of `n` rolls of a die with `faces` faces lies between `n` and `faces * n`. |
| Dados.Dado.D6 | dado.py:11-12 | `d6()` returns the next roll of the d6 stream, between 1 and 6. It uses one d6 and no d20. |
| Dados.Dado.D20 | dado.py:14-15 | `d20()` returns the next roll of the d20 stream, between 1 and 20. It uses one d20 and no d6. |
| Dados.Dado.SomaD6 | models/personagem.py:191 | `sum(d6() for _ in range(n))` is the sum of the next `n` d6 rolls, and uses exactly `n` of them. |
| Dados.Dado.SomaD20 | models/personagem.py:249 | The same for `n` d20 rolls. |
| Acoes.ValorDeTexto | models/missao.py:81-87 | `int(str(i)) == i`: the text the auto-player returns reads back as the number it chose. |
| Acoes.Interpretar | models/missao.py:133-180 | "0" is flight and only "0" is. "1" is the basic attack and only "1" is. An entry is chosen only by a digit string whose value minus 2 is an index into the list. |
| Acoes.InterpretarTexto | models/missao.py:137-156 | The menu number `i` reads back as what it labels. 0 flees, 1 is the basic attack, and `i >= 2` is entry `i - 2` when the list has it, otherwise an invalid special. |
| Acoes.Primeira | models/missao.py:79-85 | The scan returns the first entry that passes its test, and none passes before it. When it returns nothing, no entry passes. |
| Acoes.AcaoAuto | models/missao.py:60-87 | The choice is 1 or an index into the list. An entry is always affordable. Outside the hurt-healer case it is the first entry with `0 < custo <= mana`, and 1 exactly when there is none. |
| Acoes.CurandeiroFeridoDefende | models/missao.py:76-81 | A healer below 35% takes the first affordable defensive entry when there is one. Otherwise it decides as any other class. |
| Acoes.AutoNuncaFoge | models/missao.py:83-87 | The auto-player never returns "0". Its answer reads back as the basic attack or as the entry it picked, and that entry is not refused for mana. |
| EfeitosTurno.TickContadores | models/personagem.py:24-66 | After a tick, every positive turn counter is one lower. Counters at 0 or below are untouched. No other registry field changes. |
| EfeitosTurno.TickVida | models/personagem.py:20-58 | The tick's total is never negative. It uses one d6 per active rolled effect, and one d20 only when the seed goes from 1 to 0. The record is hurt by the total, then healed by `max(0, d20 - 5)` only on that tick. |
| EfeitosTurno.DanosVida | models/personagem.py:20-51 | The four damage steps hurt the record by exactly their total and use one d6 per rolled effect. |
| EfeitosTurno.EtapaDano | models/personagem.py:27-50 | Each damage step keeps "record = start record hurt by the total so far". |
| EfeitosTurno.TickInvulneravel | models/personagem.py:21-66 | While invulnerable, the tick returns 0, rolls no d6 and still lowers every active counter. Only the seed heal can change `vida`. |
| EfeitosTurno.Tick | models/personagem.py:10-68 | Computes the tick on an entity that has a registry. The four damage steps run in order, with invulnerability read once at the start, then the seed, then the counters. `TickContadores`, `TickVida`, `DanosVida` and `TickInvulneravel` state its rules. |
| EfeitosTurno.TickEfeitosInicioTurno | models/personagem.py:10-68 | An entity without a registry gets 0 and nothing changes. Otherwise the record, the registry, the total and the dice used are exactly those of `Tick`. |
| EfeitosTurno.AplicarSemente | models/personagem.py:53-58 | The seed step on the objects is `PassoSemente`: count down, and heal `max(0, d20 - 5)` when the count reaches 0. |
| EfeitosTurno.AplicarDanos | models/personagem.py:23-51 | The four damage steps on the objects are `Danos`. |
| EfeitosTurno.EtapaEletro | models/personagem.py:23-28 | Electrocution on the objects: `max(0, d6 - 1)` unless invulnerable, and the counter goes down. |
| EfeitosTurno.EtapaVeneno | models/personagem.py:30-35 | Poison on the objects: `max(0, veneno_dano)` unless invulnerable, and the counter goes down. |
| EfeitosTurno.EtapaSangramento | models/personagem.py:37-45 | Bleed on the objects: a d6 when its type is "d6", otherwise `max(0, sangramento_dano)`. |
| EfeitosTurno.EtapaMarca | models/personagem.py:47-51 | Fatal mark on the objects: a d6 unless invulnerable, and the counter goes down. |
| EfeitosTurno.ComBuffs | models/personagem.py:75-80 | The buffed damage is `max(0, (base + bonus) * (2 if critical else 1))` and is never negative. |
| EfeitosTurno.BuffUmaVez | models/personagem.py:75-79 | Once the buff is used up, the next attack gets only `max(0, base)`. Using it up twice is using it up once. |
| EfeitosTurno.AplicarBuffsDeAtaque | models/personagem.py:71-80 | Without a registry the base is returned unchanged. Otherwise it returns `ComBuffs` and leaves the bonus at 0 and the critical cleared. The record never changes. |
| Progressao.ManaApos | models/personagem.py:123-131 | A cost of 0 or less, or one above the mana held, leaves the mana alone. Otherwise the cost is taken and the mana stays at least 0. |
| Progressao.AcessivelPaga | jogo.py:45-50 | An entry the menu shows as affordable is always paid by the gate. For a positive cost, or mana of at least 0, the two tests agree. For a cost of at least 0, the preview `mana - custo` of an affordable entry is the mana the gate leaves. |
| Progressao.GratisComManaNegativa | jogo.py:46 | For every negative mana, a free entry passes the gate but the menu calls it insufficient. |
| Progressao.Crescer | models/personagem.py:155-160 | One level: the cap becomes `(vida_max or vida) + 5` and `vida` becomes `min(cap, vida + 5)`. Attack, defence and mana grow by 1, 1 and 5. |
| Progressao.XpParaProximo | models/personagem.py:140-141 | Computes `100 * nivel`, the experience needed to leave a level. `CustoNiveisNaoNegativo` sums it over a climb. |
| Progressao.Cascata | models/personagem.py:150-165 | Computes the `while` of `ganhar_xp`: one level at a time while below 10 and the threshold is met, with one report per level. `CascataSobe` and `CrescerVezesFechado` state its rules. |
| Progressao.GanharXp | models/personagem.py:143-170 | Computes `ganhar_xp`: a negative amount counts as 0, nothing happens at 0 or at level 10, otherwise the cascade, then xp 0 and the maximum-level report once level 10 is reached. `GanharXpCoerente` and `GanharXpAtributos` state its rules. |
| Progressao.CascataSobe | models/personagem.py:150-165 | The loop climbs `k` levels and never passes 10. It gives one report per level, in order, marking levels 2, 4, 6 and 8 as unlocking a special. Below 10 it stops only when the next threshold is out of reach. Experience is conserved: what was held is what the climbed levels cost plus what remains. |
| Progressao.CrescerVezesFechado | models/personagem.py:150-160 | `k` level-ups add `5k` to the cap, `5k` to `vida` (never past the cap), `k` to attack and defence, and `5k` to mana. |
| Progressao.GanharXpCoerente | models/personagem.py:143-170 | `ganhar_xp` changes nothing for an amount of 0 or less, or at level 10. The level never goes down and never passes 10. Afterwards the level is 10 with xp 0, or xp is below `100 * nivel`. The "maximum level" notice comes last exactly when 10 was reached. |
| Progressao.CustoNiveisNaoNegativo | models/personagem.py:150-152 | Climbing levels from level 1 or more costs a non-negative amount of experience. |
| Progressao.GanharXpAtributos | models/personagem.py:150-160 | Gaining `k` levels adds `5k`, `k`, `k` and `5k` to the cap, attack, defence and mana, with `vida = min(cap, vida + 5k)`. No level gained means no stat changes. |
| Progressao.SobeVariosNiveis | models/personagem.py:143-170 | 300 xp at level 1 climbs to level 3 with 0 left, and reports level 2 (unlocking) then level 3. |
| Habilidades.AtaqueBasico | models/personagem.py:177-346 | Computes each class's basic attack: `d6 + ataque` for the Guerreiro; the same for 1 mana for the Mago; `2 * d20 + ataque` once for the Arqueiro after Estilo do Caçador, otherwise `d6 + ataque`; `max(0, d6 - 2 + ataque)` for the Curandeiro. `BasicoRecusaSemMana` and `BasicoDanoEhOPerdido` state its rules. |
| Habilidades.DanoBase | models/personagem.py:133-137 | Computes `calcular_dano_base`: 0 with no roll while stunned, otherwise `d6 + ataque` through the buff. `DanoBaseConsomeBuff` states its rules. |
| Habilidades.ExecucaoPublica | models/personagem.py:184-193 | Computes Execução Pública: refused before turn 4 or without 7 mana, otherwise `5d6 * 2 + 3` on the target. |
| Habilidades.Perseveranca | models/personagem.py:196-202 | Computes Perseverança: the invulnerability counter becomes at least 1. |
| Habilidades.GolpeTrovejante | models/personagem.py:205-209 | Computes Golpe Trovejante: 1 mana, `d20 + ataque` on the target. |
| Habilidades.LaminaInfera | models/personagem.py:212-220 | Computes Lâmina Ínfera: 2 mana, `3d6`, and a rolled bleed of at least 2 turns. |
| Habilidades.ColapsoMinguante | models/personagem.py:239-243 | Computes Colapso Minguante: 15 mana, `6d6`. |
| Habilidades.Descarnar | models/personagem.py:245-253 | Computes Descarnar: 20 mana, `3d20`, and a rolled bleed of at least 2 turns. |
| Habilidades.DistorcaoNoTempo | models/personagem.py:255-259 | Computes Distorção no Tempo: +50 mana, with no gate. |
| Habilidades.EmpurraoSismico | models/personagem.py:261-271 | Computes Empurrão Sísmico: once, 8 mana, +1 stun and `3d6`. |
| Habilidades.Curingas | models/personagem.py:293-297 | Computes Curingas: 8 mana, `5d6`. |
| Habilidades.CortesCerteiros | models/personagem.py:299-307 | Computes Cortes Certeiros: 6 mana, a rolled bleed of at least 5 turns. |
| Habilidades.EstiloDoCacador | models/personagem.py:309-315 | Computes Estilo do Caçador: 10 mana, and the next arrow is a d20 critical. |
| Habilidades.MarcaFatal | models/personagem.py:317-324 | Computes Marca Fatal: 10 mana, a mark of at least 7 turns. |
| Habilidades.CapituloFinalSemAliados | models/personagem.py:348-354 | Computes Capítulo Final with an empty list: 3 mana, nobody healed. |
| Habilidades.VentosRevigorantes | models/personagem.py:373-379 | Computes Ventos Revigorantes: 15 mana, reflection of at least 1 turn. |
| Habilidades.GolpeDeMisericordia | models/personagem.py:381-389 | Computes Golpe de Misericórdia: free, `4d20` on the target, then the caster's `vida` is 0. |
| Habilidades.UsarEspecial | models/personagem.py:222-398 | Computes `usar_especial` of each class: a special that needs a target is skipped without one, an unknown number does nothing, and the healer's Capítulo Final runs only when a list is passed. The lemmas below state its rules. |
| Habilidades.RecusaSemMana | models/personagem.py:175-398 | Every special whose cost the caster cannot pay changes nothing and returns 0. |
| Habilidades.BasicoRecusaSemMana | models/personagem.py:233-237 | The same gate for the basic attack. Only the mage's basic attack has a cost (1 mana). |
| Habilidades.ManaPeloCusto | models/personagem.py:175-398 | A special leaves the mana alone or takes exactly its cost, which the caster could pay. Distorção no Tempo is the exception: it adds 50. |
| Habilidades.HeroiSoPerdeMana | models/personagem.py:381-389 | Specials never change the caster's attack, defence or cap. `vida` changes only through Golpe de Misericórdia, which sets it to 0. |
| Habilidades.ExecucaoAntesDoQuartoTurno | models/personagem.py:184-190 | Execução Pública before turn 4 is refused, with nothing spent and 0 returned. |
| Habilidades.EmpurraoSoUmaVez | models/personagem.py:261-267 | Once Empurrão Sísmico's used flag is set, it is refused with nothing spent. |
| Habilidades.EmpurraoMarcaUso | models/personagem.py:261-271 | A paid Empurrão Sísmico sets the used flag, so the next one is refused. |
| Habilidades.EmpurraoSomaAtordoamento | models/personagem.py:268-269 | Empurrão Sísmico adds 1 to the target's stun count (no `max`). A target without a registry still has none. |
| Habilidades.GolpeZeraVida | models/personagem.py:381-389 | Golpe de Misericórdia leaves the caster at 0 `vida`, whatever it dealt. |
| Habilidades.DistorcaoSemPortao | models/personagem.py:255-259 | Distorção no Tempo adds 50 mana even with no mana at all. It changes nothing else and returns 0. |
| Habilidades.DuracoesPeloMaximo | models/personagem.py:212-324 | The damage-over-time specials set the duration to the larger of the old one and their own (2, 2, 5, 7). Bleeds become rolled. A target without a registry keeps none. |
| Habilidades.CapituloPagaSemAliados | models/personagem.py:348-354 | Capítulo Final with an empty list still takes 3 mana. Called without a list, it is not dispatched at all. |
| Habilidades.DanoEhOPerdido | models/personagem.py:175-398 | The value a special returns is never negative and is what the target lost: exactly the drop in `vida`, unless that `vida` ran out first. Only the target's `vida` and registry change. |
| Habilidades.DanoBaseConsomeBuff | models/personagem.py:133-137 | `calcular_dano_base` is never negative. It is 0 with no roll while stunned. Otherwise it uses the buff up, so the next call gets only `max(0, d6 + ataque)`. |
| Habilidades.BasicoDanoEhOPerdido | models/personagem.py:175-342 | The same for the four basic attacks. |
| Personagens.CuradoVezesFechado | models/personagem.py:356-357 | Healing `k` times by `q` is one heal by `k * q`, capped. |
| Personagens.Personagem.constructor | models/personagem.py:88-111 | A new character has level 1, 0 xp, the initial registry, and the record its entity constructor builds. |
| Personagens.Personagem.InicioTurno | models/personagem.py:114-115 | `inicio_turno` on this character is `Tick`. The invariant (registry present, level and xp coherent) is kept. |
| Personagens.Personagem.Curar | models/personagem.py:117-121 | The record becomes `Curado` and the value returned is `Restaurado`. The registry is untouched. |
| Personagens.Personagem.GastarMana | models/personagem.py:123-131 | Answers `PodePagar(mana, custo)`. The mana becomes `ManaApos` and nothing else changes. |
| Personagens.Personagem.CalcularDanoBase | models/personagem.py:133-137 | The objects change exactly as `DanoBase` says. |
| Personagens.Personagem.GanharXp | models/personagem.py:143-170 | The level, xp, stats and reports are exactly those of `Progressao.GanharXp`. The invariant is kept. |
| Personagens.Personagem.SubirNiveis | models/personagem.py:150-165 | The `while` loop ends in the state and reports of `Cascata`. |
| Personagens.Personagem.AtaqueBasico | models/personagem.py:175-342 | The objects change exactly as `Habilidades.AtaqueBasico` of the class says. |
| Personagens.Personagem.ExecucaoPublica | models/personagem.py:184-193 | As `Habilidades.ExecucaoPublica`: from turn 4, 7 mana, `5d6 * 2 + 3`. |
| Personagens.Personagem.Perseveranca | models/personagem.py:196-202 | As `Habilidades.Perseveranca`: at least one turn of invulnerability. |
| Personagens.Personagem.GolpeTrovejante | models/personagem.py:205-209 | As `Habilidades.GolpeTrovejante`: 1 mana, `d20 + ataque`. |
| Personagens.Personagem.LaminaInfera | models/personagem.py:212-220 | As `Habilidades.LaminaInfera`: 2 mana, `3d6`, and a bleed of at least 2 turns. |
| Personagens.Personagem.ColapsoMinguante | models/personagem.py:239-243 | As `Habilidades.ColapsoMinguante`: 15 mana, `6d6`. |
| Personagens.Personagem.Descarnar | models/personagem.py:245-253 | As `Habilidades.Descarnar`: 20 mana, `3d20`, and a bleed of at least 2 turns. |
| Personagens.Personagem.DistorcaoNoTempo | models/personagem.py:255-259 | As `Habilidades.DistorcaoNoTempo`: +50 mana. |
| Personagens.Personagem.EmpurraoSismico | models/personagem.py:261-271 | As `Habilidades.EmpurraoSismico`: once, 8 mana, +1 stun, `3d6`. |
| Personagens.Personagem.Curingas | models/personagem.py:293-297 | As `Habilidades.Curingas`: 8 mana, `5d6`. |
| Personagens.Personagem.CortesCerteiros | models/personagem.py:299-307 | As `Habilidades.CortesCerteiros`: 6 mana, and a bleed of at least 5 turns. |
| Personagens.Personagem.EstiloDoCacador | models/personagem.py:309-315 | As `Habilidades.EstiloDoCacador`: 10 mana, and the next arrow becomes a d20 critical. |
| Personagens.Personagem.MarcaFatal | models/personagem.py:317-324 | As `Habilidades.MarcaFatal`: 10 mana, and a mark of at least 7 turns. |
| Personagens.Personagem.CapituloFinal | models/personagem.py:348-359 | 3 mana first. With no allies nothing else happens. When the 3 mana cannot be paid, every listed ally's stats and registry stay as they were. Otherwise one d6 heals every listed ally (twice if listed twice) and no registry changes. |
| Personagens.Personagem.SementeEngatilhada | models/personagem.py:361-371 | 5 mana first. Then the named ally's seed counter is set to 2. With no ally, the mana is still spent. |
| Personagens.Personagem.VentosRevigorantes | models/personagem.py:373-379 | As `Habilidades.VentosRevigorantes`: 15 mana, and at least one turn of reflection. |
| Personagens.Personagem.GolpeDeMisericordia | models/personagem.py:381-389 | As `Habilidades.GolpeDeMisericordia`: `4d20` on the target, then the caster's `vida` is 0. |
| Personagens.Personagem.UsarEspecialGuerreiro | models/personagem.py:222-227 | The dispatch is as `Habilidades.UsarEspecial`: a special that needs a target is skipped without one, and an unknown `n` returns 0. |
| Personagens.Personagem.UsarEspecialMago | models/personagem.py:273-278 | The same for the Mago. |
| Personagens.Personagem.UsarEspecialArqueiro | models/personagem.py:326-331 | The same for the Arqueiro. |
| Personagens.Personagem.UsarEspecialCurandeiro | models/personagem.py:391-398 | The same for the Curandeiro. Capítulo Final runs whenever a list is passed. Semente runs whenever an ally is named. When they reach allies, it states the caster's stats and registry, both dice cursors, every listed ally's stats and registry (paid or refused), and that a target outside the allies is untouched. |
| Personagens.Personagem.UsarEspecial | models/personagem.py:222-398 | Dispatch on the class, as the subclass overrides do. The result is `Habilidades.UsarEspecial` whenever no ally is touched. For a Curandeiro whose special reaches allies, it carries the same state clauses as `UsarEspecialCurandeiro`. |
| Personagens.CurarTodos | models/personagem.py:356-357 | Each listed character is healed once per time it is listed, and no registry changes. |
| Inimigos.NovoInimigo | models/inimigo.py:11-12 | A new enemy is fresh and has no registry. Its `vida_max` is its `vida` and its mana is 0. |
| Inimigos.FichaDe | models/inimigo.py:14-27 | Computes the factories' stat table: Ladrão 15/10/10, Goblin 20/10/5, Golem 35/20/25, Elfo 15/10/10, "dragao" 40/30/35. `FichasValidas` states what every row guarantees. |
| Inimigos.Fabricar | models/inimigo.py:14-27 | Each factory builds a fresh, alive enemy from its row of the table. |
| Inimigos.FichasValidas | models/inimigo.py:11-27 | Every kind starts alive at full health, with mana 0 and defence at most its `vida`. |
| Inimigos.TabelaDeFichas | models/inimigo.py:14-27 | Reads `FichaDe` back entry by entry. It is the same table, not a second definition. |
| Hordas.TiposDoCenario | models/horda.py:12-20 | Every scenario has at least one kind to draw from. |
| Hordas.Quantidade | models/horda.py:23 | Computes the horde size by difficulty label. `QuantidadePorDificuldade` states it. |
| Hordas.TiposDaHorda | models/horda.py:12-25 | Computes the kinds of the horde: member `k` is the kind picked by the `k`-th choice. `HordaDoCenario` and `TiposPorCenario` state its rules. |
| Hordas.GerarHorda | models/horda.py:11-26 | One fresh, alive, distinct enemy per pick. Member `k` is built by the factory of the `k`-th picked kind. |
| Hordas.QuantidadePorDificuldade | models/horda.py:23 | "Fácil", "Médio" and "Difícil" give 3, 5 and 7. Any other label gives 3, "Média" included. |
| Hordas.HordaDoCenario | models/horda.py:11-26 | The horde has the size its difficulty asks for, and every member is of a kind its scenario allows. |
| Hordas.TiposPorCenario | models/horda.py:12-20 | Caverna gives {Ladrão, Goblin, Golem}, Floresta {Elfo, Goblin}, Castelo {Goblin, Golem, Dragão}. Any other scenario gives only Goblins. |
| Jogo.AtaqueNormalComD20 | jogo.py:57-80 | The objects change exactly as `AtaqueComD20` says. |
| Jogo.AtaqueComD20 | jogo.py:57-80 | Computes `_ataque_normal_com_d20`: one d20, a miss for 1–5 with no base damage computed, otherwise the graded base damage dealt. `AtaqueComD20Faixas` states its rules. |
| Jogo.AtaqueComD20Faixas | jogo.py:57-80 | A roll of 1–5 deals nothing and leaves the buff and the d6 stream alone. 6–10 deals the base, 11–15 the base plus 1, and 16–20 twice the base. The value returned is what got through the defence. |
| Jogo.Oferta | jogo.py:45-50 | An entry is offered iff `mana >= custo`, and every offered entry previews `mana - custo`. For a cost of at least 0 that preview is the mana the gate leaves. |
| Missoes.AlvoMantido | models/personagem.py:212-324 | An attack keeps its target. A target without a registry still has none afterwards. |
| Missoes.EspecialNaMissao | models/missao.py:153-173 | Computes a special cast from the mission. Other classes aim at the enemy. The healer's ids 1 and 7 get an empty list, 2, 3 and 6 no target, and 4 and 5 the enemy, and only what 4 and 5 return counts. `CurandeiroNaMissao` states its rules. |
| Missoes.Agir | models/missao.py:129-180 | The hero flees iff the text is "0". The enemy stays the target and never gains a registry. |
| Missoes.VezDoHeroi | models/missao.py:120-183 | The hero's half never gives the enemy a registry. |
| Missoes.TickDoInimigo | models/missao.py:190-197 | The tick on an enemy without a registry changes nothing. |
| Missoes.AtordoadoComoEscrito | models/missao.py:199 | The stun test as written fails exactly when the enemy has no registry. |
| Missoes.AtaqueDoInimigo | models/missao.py:199-217 | Computes the enemy's attack: nothing while stunned, otherwise `max(0, d6 + ataque)`, zero while invulnerable, through the hero's defence, with what got through sent back while reflecting. `AtaqueDoInimigoRegras` states its rules (corrected line 199, see Findings). |
| Missoes.Turno | models/missao.py:109-219 | Computes one pass of the `while`: the hero's half, flight, the enemy's death by the action, its tick and death by effects, then its attack. `TurnoFim` states its rules. |
| Missoes.Encontro | models/missao.py:109-219 | Computes the encounter loop: turns while both are alive, at most `fuel` of them. `EncontroTermina` and `ReflexaoNaoConta` state its rules. |
| Missoes.Percorrer | models/missao.py:102-226 | Computes the `for` over the horde: flight, defeat and victory, with the count of encounters won. `PercorrerResultado` states its rules. |
| Missoes.DecidirAcaoAuto | models/missao.py:60-87 | Returns the decimal text of `AcaoAuto`. |
| Missoes.LancarEspecial | models/missao.py:153-173 | The special branch on the objects is `EspecialNaMissao`, with the healer's per-id calls. |
| Missoes.ExecutarAcao | models/missao.py:125-180 | The mana gate and then the execution, on the objects, are `Agir`. |
| Missoes.PrepararTurno | models/missao.py:112-116 | The turn counter goes up, then the tick runs: `Preparo`. |
| Missoes.JogarVezDoHeroi | models/missao.py:120-183 | The hero's half on the objects is `VezDoHeroi`, including the line read. |
| Missoes.InimigoAtaca | models/missao.py:199-217 | The enemy's attack on the objects is `AtaqueDoInimigo`. (corrected line 199, see Findings) |
| Missoes.JogarTurno | models/missao.py:109-219 | One pass of the `while` on the objects is `Turno`. (corrected line 199, see Findings) |
| Missoes.UmTurno | models/missao.py:109-219 | With both alive and turns left, the encounter is one turn followed by the rest of the loop. |
| Missoes.Rodar | models/missao.py:109-219 | One pass ends the encounter as the whole loop would, or leaves the rest of the loop with one turn fewer. |
| Missoes.Enfrentar | models/missao.py:109-219 | The encounter on the objects ends as `Encontro` says. |
| Missoes.UmEncontro | models/missao.py:102-223 | One step of the walk over the horde: flight, defeat or running out of turns stops it. Otherwise it goes on to the next enemy with the count raised when the encounter counts. |
| Missoes.Combater | models/missao.py:102-223 | One pass of the `for` on the objects stops with the result, or continues, as `Percorrer` says. |
| Missoes.Executar | models/missao.py:90-226 | `executar` on the objects ends with the result and the state `Percorrer` gives. (corrected line 199, see Findings) |
| Missoes.PreparoConta | models/missao.py:113-116 | Each hero turn raises `turnos` by exactly 1, before the tick. The stun count drops by one when set. The enemy and the input are untouched. |
| Missoes.AtordoadoNaoAge | models/missao.py:120-121 | A hero still stunned after its tick takes no action, and no line is read. |
| Missoes.BloqueadoNaoFazNada | models/missao.py:132-181 | These change nothing and deal nothing: a basic attack or listed special the mana does not cover, a number past the list, and unreadable text. Affordable actions are carried out. |
| Missoes.CurandeiroNaMissao | models/missao.py:159-171 | In a mission the healer's id 1 only pays 3 mana, id 3 pays 15 and turns reflection on, and id 4 strikes. Ids 2, 5, 6 and 7 do nothing. |
| Missoes.AtaqueDoInimigoRegras | models/missao.py:199-217 | A stunned enemy does nothing. Otherwise raw damage is `max(0, d6 + ataque)`, cancelled by invulnerability. While reflecting, exactly what got through goes back through the enemy's `receber_dano`. (corrected line 199, see Findings) |
| Missoes.TurnoFim | models/missao.py:185-197 | A turn ends the encounter only by killing the enemy (by the action or by its tick) or by flight. |
| Missoes.EncontroPasso | models/missao.py:109-219 | One turn either ends the encounter coherently or leaves the rest of the loop. |
| Missoes.EncontroTermina | models/missao.py:109-197 | Every encounter ends coherently. A counted win leaves the enemy dead, the loop's exit leaves one of the two dead, and running out of turns leaves both alive. With either already dead, it ends at once. |
| Missoes.ReflexaoNaoConta | models/missao.py:214-219 | An enemy killed by reflected damage ends its encounter uncounted. |
| Missoes.PercorrerResultado | models/missao.py:175-226 | `venceu` iff "Vitória!", and then the hero is alive and every remaining enemy dead. A defeat leaves the hero dead. Only the three messages occur. The count rises by at most 1 per enemy, so it never exceeds the horde. |
| Missoes.Linha199FalhaSemRegistro | models/missao.py:199 | An enemy that survives the hero's action and its own tick reaches a stun test that fails on its missing registry. |
| Missoes.Linha199Alcancada | models/missao.py:199 | A fresh Goblin against a hero stunned for 2 turns reaches that failing test. |
| Missoes.AtordoadoCorrige | models/missao.py:199 | The corrected test agrees with the written one wherever that one is defined, and reads "not stunned" for an enemy without a registry. |
| Inventarios.SemPrimeiro | models/inventario.py:62-66 | Computes `list.remove(x)` on a value: the list without its first element equal to `x`, unchanged when there is none. `SemPrimeiroAusente` and `SemPrimeiroPresente` state its rules. |
| Inventarios.SemPrimeiroAusente | models/inventario.py:62-66 | Removing an absent item leaves the list unchanged. |
| Inventarios.SemPrimeiroPresente | models/inventario.py:62-65 | Removing a present item takes out exactly its first occurrence and keeps the others in order. There is one element fewer and one copy fewer in the multiset. |
| Inventarios.Inventario.constructor | models/inventario.py:58-60 | A new bag is empty, and its capacity is the one given (20 by default). |
| Inventarios.Inventario.RemoverItem | models/inventario.py:62-66 | Answers whether the item was there. The list loses its first equal item and the capacity is untouched. |
| Inventarios.Inventario.ListarItens | models/inventario.py:68-69 | Returns the current list, as a value. |
| Registro.Logger.constructor | utils/logger.py:7-14 | The standard four-level table, and the level "INFO". |
| Registro.Logger.DeveLogar | utils/logger.py:21-23 | A known level passes iff it is at least the current one. An unknown level is a lookup failure. |
| Registro.Logger.SetLevel | utils/logger.py:41-44 | A known name becomes the current level. An unknown one changes nothing. |
| Registro.FiltroOrdenado | utils/logger.py:8-23 | ERROR always passes. DEBUG passes only at DEBUG. A level that passes lets every higher level pass. |
| Registro.NivelDefinido | utils/logger.py:21-44 | After `set_level(n)` exactly the levels from `n` up pass. |

## Left out

- Dice: `random.randint` (dado.py:11-15) is replaced by two fixed streams of rolls, each valid for its die. `jogo.py` imports `rolar_d20`, which `dado.py` does not define. The model reads it as `d20()`.
- utils/repositorio.py is not part of this model. It only prints.
- The mission's providers are parameters of `Regras`: the special list, the basic-attack cost and the horde. The names imported at models/missao.py:8-9 and 12 are defined neither in models/personagem.py nor in models/inimigo.py.
- The `TypeError` fallback around `generate_horde` (models/missao.py:95-100) is not modelled. The horde is given.
- `input("> ").strip()` is modelled as a stream of lines that are already stripped.
- `isdigit()` is modelled for ASCII digits only.
- `hp_frac < 0.35` is the integer test `20 * vida < 7 * (vida_max or vida)`, with a zero denominator counting as full health and the comparison flipped for a negative one. The float comparison could differ at the exact boundary.
- Missoes.Executar: each encounter is allowed at most `fuel` turns, and one that runs out ends the mission with no result (`None`). The source loop has no bound.
- Missoes.Executar: the horde must be distinct objects, none of them the hero. The same holds for a special's target (never the caster's own body). Aliasing among them is not modelled.
- The `Missao` subclass's mission dictionaries, `_mostrar_hud` and every `print` are presentation.
- `barra_hp` uses float rounding and is presentation.
- The `is_boss` lookup and the encounter titles are presentation.
- `Drop_rate` and `Loot` (models/inventario.py) use float probabilities and a call to a method that does not exist.
- The logger's timestamp formatting and printing are I/O.
- The menus of jogo.py and the simulated save and load are input loops. They use names that jogo.py and dado.py do not define.
- Personagens.Personagem.UsarEspecialCurandeiro: when Capítulo Final or Semente Engatilhada reaches allies, the contract states the allies' new state separately, not through `Habilidades.UsarEspecial`.
- Inventarios.Inventario.ListarItens: returns the items as a value. The source returns the live list, so a caller that appends to it changes the bag; that aliasing is not modelled.
- Habilidades.UsarEspecial: only an empty ally list is passed at the value level. The mission only ever passes an empty list.

## Findings

| source | as written | input that shows it | evidently intended | confidence | as-written member | corrected member |
|---|---|---|---|---|---|---|
| models/missao.py:199 | The enemy's stun test reads `inimigo.efeitos`, but an `Inimigo` has no `efeitos` attribute. So the test fails (`AttributeError`) whenever an enemy survives the hero's action and its own tick. | A fresh Goblin against a hero stunned for 2 turns. The hero skips, the Goblin's tick does nothing, and line 199 reads the missing registry. | Read a missing registry as "not stunned", as line 104 does with `getattr(inimigo, "efeitos", {})`. | high, not executed | Missoes.Linha199Alcancada | Missoes.AtordoadoCorrige |
