# Coin collector: the game-state engine

This project models the rules of a browser coin-collecting game. It covers
everything that changes `gameState`, `player`, `coins`, `collectedCoins` and
`bombEffect`, except what "## Left out" lists:

- the shop, with three levelled upgrade tracks (speed, magnet, more coins) and
  one-time unlocks (the bomb, and the rainbow and dark-matter body colours);
- the level formula with its milestone rewards;
- the coin store, with creation, the more-coins top-up and the two collection
  passes;
- the bomb lifecycle: activation, detonation, the animation of its ring and
  particles, and the cooldown;
- the customisation handlers (colour, accessories, emotion);
- the player's eased movement and the state kept by the 60 Hz effect tick.

Modules:

- `Seqs`: sequence helpers (`Filter`, `IndexOf`, `NoDups`).
- `Ledger`: prices, purchases, unlocks, levelling and the magnet-radius rule, as
  pure functions with lemmas.
- `Avatar`: the movement step and the colour and accessory rules.
- `Coins`: coin creation, the two collection tests, and the pass summaries
  (marking, credit, animation records, decay).
- `Bomb`: the cooldown, the particles and the ring.
- `Game`: the class `Game`, which holds the whole mutable state. It has one
  method per handler or timer callback. Each method is specified against the
  functions above. Each handler method keeps the class invariant `Valid()`.
  The helpers `CreateCoins`, `CheckLevelUp`, `CollectTouching`, `TouchCoin` and
  `CollectInRadius` run inside a handler and do not state it themselves.

Random draws (`Math.random`) are method parameters that carry their bounds
(`CoinDraw`, `Spark`). The canvas width and height are constructor parameters,
taken to be at least 60 × 80. Positions, speeds, the cooldown and animation
lives are `real`. The blast test compares the squared distance with 300²; for a
non-negative square this is the same as comparing the square root with 300.

Where the description of the game and the code disagree, the model follows the
code, with one exception: `Game.Game.EffectTick` sets the magnet radius from the
level of the magnet upgrade track. The code reads a separate magnet level that
nothing writes (see "## Findings").

The player is not clamped to the canvas: the edge tests look at the current
position, so a step can overshoot. The invariant kept is therefore the
canvas widened by one eased step on each side (`Avatar.Near`), and
`Avatar.NotClampedToCanvas` shows the overshoot.

## Model

| member | source | states |
|---|---|---|
| Ledger.Escalate | script.js:1150-1175 | The next price is never below a non-negative price, and it is strictly higher from a price of 2 on. |
| Ledger.CostAt | script.js:1150-1175 | The price a track asks at any reachable level is at least its first price (10, 120 or 50). |
| Ledger.Buy | script.js:1143-1175 | The balance changes only when the guard (enough coins, level below the maximum) holds, and never rises. It stays ≥ 0 whenever it started ≥ 0. The level rises by at most one, never past the maximum. A rejected purchase changes nothing. |
| Ledger.PurchaseRule | script.js:1143-1175 | A speed, magnet or more-coins purchase with a short balance or a maxed track changes nothing. Otherwise it charges exactly the old price, raises the level by one (never past 5, 2 or 10) and sets the escalated price floor(c·1.8), c·2 or floor(c·1.5). The balance stays ≥ 0 and the track stays well-formed. |
| Ledger.SpeedCostLadder | script.js:22-22 | From the initial price of 10, the speed purchases cost 10, 18, 32 and 57, and 102 is shown once the track is maxed. The later prices come from the floor(cost·1.8) at line 1150. |
| Ledger.MagnetCostLadder | script.js:1160-1162 | The magnet purchases cost 120, then 240. |
| Ledger.CostsEscalate | script.js:1150-1175 | Every price on every track is positive and strictly larger than the one before. |
| Ledger.SpeedMultiplier | script.js:1149-1149 | The speed multiplier is 1.0 at the first speed level and never below 1.0 from there on. |
| Ledger.CoinCountFor | script.js:1174-1174 | The coin target is 10 at the first more-coins level, and from there on it is at least 10 and a multiple of 5. |
| Ledger.DerivedValues | script.js:1149-1174 | The speed multiplier 1 + (level−1)·0.5 runs from 1.0 to 3.0 and grows by 0.5 per purchase. The coin target 10 + (level−1)·5 runs from 10 to 55 and grows by 5. |
| Ledger.Unlock | script.js:1197-1204 | A one-time unlock is owned afterwards exactly when it was owned or affordable. An owned unlock is never charged. The first affordable purchase is charged exactly the price, and a charge happens only then. An unaffordable, unowned unlock changes nothing. |
| Ledger.UnlockIsOneTime | script.js:1198-1200 | Once owned, an unlock stays owned and is never charged again, over any number of attempts. |
| Ledger.UpgradeDisabled | script.js:1232-1239 | A levelled-track button is disabled exactly when the purchase guard fails. |
| Ledger.BombDisabled | script.js:1241-1241 | The bomb button is enabled exactly when the bomb is unowned and 400 is affordable, and pressing it then unlocks the bomb. |
| Ledger.DisabledIffRejected | script.js:1232-1241 | Each shop button is disabled exactly when pressing it would be rejected without effect. |
| Ledger.LevelFor | script.js:383-383 | The level is floor(balance/10)+1: the balance lies in [10·(level−1), 10·level). A non-negative balance gives a level of at least 1. |
| Ledger.Reward | script.js:387-404 | The milestone bonus is 20, 40, 60 or 100 at levels 25, 50, 75 and 100. At any larger multiple of 25 it is floor(level/25)·20. At every other level it is 0. |
| Ledger.LevelUp | script.js:381-405 | The level becomes floor(balance/10)+1, computed from the balance before any bonus. The balance never falls. A bonus is paid exactly when the level went up to a multiple of 25 from 25 on, and it equals the reward for the new level. |
| Ledger.FirstMilestone | script.js:383-389 | The coin that takes the balance to 240 reaches level 25 and pays 20. The next coin pays nothing and skips to level 27. |
| Ledger.LevelCanFall | script.js:383-383 | The level is recomputed from the current balance, so after a spend it can go down, and a milestone reached again pays again. |
| Ledger.MagnetRadius | script.js:466-470 | The radius becomes 80 at level 1 and 150 at level 2, and is otherwise left unchanged. |
| Ledger.MagnetEngages | script.js:466-470 | When the level is read from the magnet track, a bought magnet has a positive radius and an unbought one keeps its radius. |
| Ledger.MagnetTickAsWritten | script.js:466-470 | As written, the tick reads a level that no purchase writes, so the level never changes. |
| Ledger.MagnetInertAsWritten | script.js:1156-1166 | As written, a magnet purchase is accepted and charged, yet the magnet state stays at level 0 with radius 0. |
| Avatar.AxisStep | script.js:606-620 | For a positive speed, a step moves back exactly when the back key is held, the position is above 0 and forward is not also moving. It moves forward exactly when the forward key is held, the position is below the edge and back is not also moving. With no key held it does not move. |
| Avatar.StepStaysNear | script.js:606-620 | A movement step never leaves the canvas widened by one eased step, even after the speed has grown. |
| Avatar.NotClampedToCanvas | script.js:612-615 | A step from just inside an edge ends outside the canvas. |
| Avatar.StepSize | script.js:606-620 | A step moves by exactly 30% of the current speed, or not at all. |
| Avatar.PickColour | script.js:179-209 | An ordinary colour, or a special colour already unlocked, only sets the body colour. A locked special colour that can be paid for is charged its price (200 or 300), unlocked and selected, and nothing else changes. One that cannot be paid for changes nothing. Unlocks are never lost. The balance changes only by a first-time unlock of exactly its price (200 or 300), and never goes negative. |
| Avatar.Toggle | script.js:218-233 | "none" empties the list. A worn accessory is removed, with the length falling by one and every other accessory kept. An absent one is appended only while fewer than 3 are worn. At most 3, no repeats and no "none" are preserved. |
| Seqs.IndexOf | script.js:223-223 | `indexOf` gives −1 exactly when the accessory is absent. Otherwise it gives an index holding it with no earlier occurrence. |
| Avatar.TakeOffKeepsOrder | script.js:223-225 | Taking off a worn accessory splices out its first occurrence, so the others keep their order. |
| Avatar.RemovedAt | script.js:225-225 | Splicing out one accessory shortens the list by one and keeps the others in their order. Without repeats, it removes exactly that accessory. |
| Coins.NewCoin | script.js:293-302 | A fresh coin is uncollected, with x in [0, W−20) and y in [0, H−20). |
| Coins.FreshCoins | script.js:290-305 | createCoins builds one fresh, uncollected, in-bounds coin per draw, in order. |
| Coins.FreshBatchIsLive | script.js:290-305 | A non-empty fresh set has a coin left to collect. |
| Coins.Touches | script.js:642-646 | The player-box test holds exactly when the centres are closer than 25 horizontally and 30 vertically. A coin inside the blast lies within 300 of its centre on each axis, and a coin centred on the blast is always inside it (lines 345-349). |
| Coins.MarkAll | script.js:340-378 | A pass moves no coin. A coin is collected afterwards exactly when it was collected before or passed the test, so coins flip only from uncollected to collected. |
| Coins.TakenZero | script.js:640-670 | A pass takes no coin exactly when no coin is both uncollected and passing the test. |
| Coins.NoTakeNoChange | script.js:640-670 | A pass that takes no coin leaves the coins as they were. |
| Coins.MarkAllCounts | script.js:640-670 | A pass raises the number of collected coins by exactly the number it takes. |
| Coins.FxOf | script.js:652-659 | A pass pushes exactly one animation record per coin taken, each with life 1 and scale 1. The blast pass pushes the same record at lines 355-362. |
| Coins.FxAtTakenCoins | script.js:652-659 | Each pushed record sits at the position of a coin the pass took. The same holds for the blast pass's push at lines 355-362. |
| Coins.FadedAll | script.js:482-483 | Each record keeps its place and loses 0.03 of life and of scale. |
| Coins.Fade | script.js:481-485 | After decay and pruning, a record is present exactly when it is a live decay (life and scale −0.03) of a previous record. Multiplicity and order are stated by FadeExactly. |
| Coins.FadeExactly | script.js:481-485 | The fading keeps each live decayed record exactly as often as it occurs in the decayed list, and drops the rest. Fading a concatenation fades each part, so the records keep their order. |
| Seqs.Filter | script.js:481-485 | `filter` (here and at line 576) keeps an element exactly when it was present and passes the test, and never lengthens the list. Multiplicity and order are stated by FilterCounts and FilterConcat. |
| Seqs.FilterConcat | script.js:576-576 | Filtering a concatenation is the concatenation of the filtered parts, so a filter keeps its elements in order. |
| Seqs.FilterCounts | script.js:576-576 | A filter keeps every kept element as often as it occurs and drops every other element. |
| Coins.FadeKeepsLive | script.js:481-485 | Decay keeps every record's life in (0, 1]. |
| Coins.Credit | script.js:649-662 | The balance after a pass, with bonuses, is never below the balance before it. |
| Coins.CreditAtLeast | script.js:649-662 | A pass adds at least one to the balance per coin taken, before bonuses. A pass that takes nothing changes neither balance nor level. |
| Coins.CreditLevel | script.js:383-383 | After a pass that took a coin, the level is at least 1 when the balance started non-negative. |
| Coins.SweepSummary | script.js:640-670 | Walking the coins one at a time yields the whole-pass marking, credit and records. The regeneration condition is "something was taken and no coin is left". |
| Bomb.NextCooldown | script.js:436-438 | A positive cooldown drops by 0.1 and is clamped at 0. A cooldown that is not positive is left alone. |
| Bomb.Countdown | script.js:434-438 | From 45 the cooldown after n ticks is 45 − n·0.1 up to 450 ticks, and exactly 0 from then on. |
| Bomb.CooldownStaysInRange | script.js:434-438 | The cooldown stays in [0, 45]. |
| Bomb.Spawn | script.js:318-326 | A particle starts at the explosion centre with life 1, a velocity in [−7.5, 7.5) per axis, a hue in [0, 360) and a size in [2, 6). |
| Bomb.Burst | script.js:316-327 | An activation creates exactly one particle per spark, in order. |
| Bomb.Advance | script.js:569-574 | A particle moves by its velocity and loses 0.02 life, then gravity adds 0.1 to vy. |
| Bomb.Survivors | script.js:576-576 | A particle survives pruning exactly when it was present and has life left, and there are never more survivors than particles. Multiplicity and order are stated by SurvivorsExactly. |
| Bomb.AdvanceAll | script.js:569-574 | Every particle is advanced by one step in place: same length, the i-th result is the i-th particle advanced. |
| Bomb.SurvivorsExactly | script.js:576-576 | Pruning keeps each particle with life left exactly as often as it occurs, and no other. Pruning a concatenation prunes each part, so the survivors keep their order. |
| Bomb.ParticlesStayLive | script.js:564-577 | A fresh burst is live. One animation step keeps the set live and never larger. |
| Bomb.GrowRing | script.js:565-567 | The ring grows by 20 only while it is below 300. |
| Bomb.RingBounded | script.js:564-567 | Ring radii stay multiples of 20 in [0, 300]. From 0 the radius is 20·n for n < 15 steps and 300 after that. |
| Game.Game.constructor | script.js:1-76 | The initial gameState, player and bombEffect, followed by createCoins, satisfy the invariant. |
| Game.Game.CreateCoins | script.js:290-305 | The coins become FreshCoins of the draws. |
| Game.Game.BuySpeedUpgrade | script.js:1143-1154 | The track and balance follow Buy. An accepted purchase sets the speed multiplier for the new level. The invariant is kept. |
| Game.Game.BuyMagnetUpgrade | script.js:1156-1166 | The track and balance follow Buy, and the invariant is kept. |
| Game.Game.BuyMoreCoinsUpgrade | script.js:1168-1195 | The track and balance follow Buy. An accepted purchase sets the coin target and appends exactly five fresh coins, leaving the existing ones unchanged. A rejected one leaves the coins alone. |
| Game.Game.BuyBombUpgrade | script.js:1197-1204 | Ownership and balance follow Unlock at price 400. |
| Game.Game.CheckLevelUp | script.js:381-405 | The balance and level follow LevelUp. |
| Game.Game.CheckCoinCollisions | script.js:640-670 | The AABB pass: balance and level follow Credit and the records follow FxOf. The coins are the marked set, or the fresh set when a take left none uncollected. The invariant is kept. |
| Game.Game.CollectTouching | script.js:641-669 | The forEach walks the array it started with, including after a regeneration. |
| Game.Game.TouchCoin | script.js:642-667 | One callback: only a coin that is uncollected and overlaps is marked and credited, with one record and a checkLevelUp. The set is regenerated when none is left. |
| Game.Game.CollectCoinsInRadius | script.js:340-378 | The blast pass: balance and level follow Credit and the records follow FxOf. The coins are the marked set, or a fresh set if all are collected afterwards. The invariant is kept. |
| Game.Game.CollectInRadius | script.js:343-367 | The forEach marks exactly the uncollected coins whose centre lies within 300 of the blast centre. |
| Game.Game.ActivateBomb | script.js:308-328 | Nothing changes unless the bomb is owned and the cooldown is ≤ 0. Otherwise the cooldown becomes 45, the ring restarts at radius 0 at the player's centre, with one particle per spark. |
| Game.Game.Detonate | script.js:332-335 | The radius collection runs, then the explosion ends. |
| Game.Game.AnimateBombEffect | script.js:564-577 | The ring follows GrowRing, and the particles are the survivors of one advance step. |
| Game.Game.TickCooldown | script.js:434-438 | The cooldown follows NextCooldown. |
| Game.Game.EffectTick | script.js:456-485 | The hue advances by 3 mod 360 only while the rainbow body is worn and unlocked. The magnet radius follows the magnet track. The records fade. |
| Game.Game.MovePlayer | script.js:606-620 | Each axis follows AxisStep at 4 × the speed multiplier, and the player stays within one eased step of the canvas. |
| Game.Game.SelectColour | script.js:179-209 | The balance, unlock flags and body colour follow PickColour. |
| Game.Game.ToggleAccessory | script.js:218-233 | The accessory list follows Toggle, and the invariant is kept. |
| Game.Game.SetEmotion | script.js:239-241 | The emotion is set to the clicked one. |

## Findings

| source | as written | input that shows it | evidently intended | confidence | as-written member | corrected member |
|---|---|---|---|---|---|---|
| script.js:466-470 | buyMagnetUpgrade raises `gameState.upgrades.magnet.level`. The effect tick and the pull gate read `gameState.magnet.level`, which no code writes. | Buy the magnet with 120 coins: it is charged, but the magnet level and radius stay 0, so the pull never runs. | The radius follows the level of the magnet track: 80 after the first purchase, 150 after the second. | not executed | Ledger.MagnetInertAsWritten | Game.Game.EffectTick |

`Ledger.MagnetTickAsWritten` is the tick as written and `Ledger.MagnetInertAsWritten` exhibits the input. `Ledger.MagnetRadius` with `Ledger.MagnetEngages` states the intended rule, and `Game.Game.EffectTick` uses it.

## Left out

- Rendering: every `draw*` routine and the canvas context.
- DOM and UI: `updateDisplay` text, progress bars, reward-message nodes, `classList` toggles, tab switching and listener registration. The shop-button predicates are kept as pure functions.
- Audio: `initSounds` and `playSound` are I/O with no effect on the state.
- Scheduling: frame pacing and `setInterval`/`setTimeout`. Each callback body is a method that the environment calls, and the 800 ms detonation delay is not modelled.
- The composition of one animation frame (`gameLoop`) is not modelled as a method. It calls the magnet pull, which is left out.
- The magnet pull (`applyMagnetEffect`) needs a square root and a strength ratio. It is left out, so the model does not move coins.
- Coin `rotation`, `scale` and `floatOffset`, and `darkMatterPhase`: these use trigonometry and only affect drawing.
- Particle colours are kept as a hue. Coin and record colours and the record target (50, 50) are constants used only for drawing.
- `gameState.bomb.active` is never written, so it is not a field. The explosion's own `active` flag is modelled.
- The keydown and keyup handlers set key flags, which `Game.Game.MovePlayer` takes as a parameter. A Q keydown also calls `activateBomb` under the same guard, and `Game.Game.ActivateBomb` models that call.
- Floating point: decrements of 0.1, 0.02 and 0.03 are exact reals, so IEEE rounding is not modelled.
- The canvas size comes from the page markup, which is not part of this model. It is a constructor parameter, required to be at least 60 × 80.
- Game.Game.MovePlayer: does not claim the player stays on the canvas, because the code does not clamp it. The invariant is the canvas widened by one eased step.
- Game.Game.EffectTick: the magnet radius follows the magnet track's level, not the never-written `gameState.magnet.level` that the code reads. The as-written behaviour is stated by `Ledger.MagnetTickAsWritten`.
