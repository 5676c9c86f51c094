/** The economy of the game: the coin balance, the three levelled upgrade tracks
    (speed, magnet, more coins), the one-time unlocks (bomb, rainbow and dark-matter
    colours), the level formula with its milestone rewards, and the magnet radius rule. */
module Ledger {

  // ---------------------------------------------------------------------------
  // Levelled upgrade tracks
  // ---------------------------------------------------------------------------

  /** One entry of `gameState.upgrades` for a levelled track. */
  datatype Upgrade = Upgrade(level: int, maxLevel: int, cost: int)

  datatype Track = Speed | Magnet | MoreCoins

  /** The level each track starts at. */
  function BaseLevel(t: Track): int {
    match t
    case Speed => 1
    case Magnet => 0
    case MoreCoins => 1
  }

  /** The price of the first purchase on each track. */
  function BaseCost(t: Track): int {
    match t
    case Speed => 10
    case Magnet => 120
    case MoreCoins => 50
  }

  function MaxLevel(t: Track): int {
    match t
    case Speed => 5
    case Magnet => 2
    case MoreCoins => 10
  }

  /** The starting entry of a track. */
  function Initial(t: Track): Upgrade {
    Upgrade(BaseLevel(t), MaxLevel(t), BaseCost(t))
  }

  /** The price after a purchase: floor(cost * 1.8), floor(cost * 2) and
      floor(cost * 1.5) in integer arithmetic. */
  function Escalate(t: Track, cost: int): (r: int)
    ensures 0 <= cost ==> cost <= r
    ensures 2 <= cost ==> cost < r
  {
    match t
    case Speed => cost * 18 / 10
    case Magnet => cost * 2
    case MoreCoins => cost * 3 / 2
  }

  /** The price a track asks at a given level: the base cost escalated once per
      purchase, flooring at every step. */
  function CostAt(t: Track, level: int): (r: int)
    requires BaseLevel(t) <= level
    ensures BaseCost(t) <= r
    decreases level - BaseLevel(t)
  {
    if level == BaseLevel(t) then BaseCost(t) else Escalate(t, CostAt(t, level - 1))
  }

  /** The shape every track entry keeps: its own maximum, a level in range, and the
      price that level implies. */
  predicate TrackValid(t: Track, u: Upgrade) {
    u.maxLevel == MaxLevel(t) && BaseLevel(t) <= u.level <= MaxLevel(t) && u.cost == CostAt(t, u.level)
  }

  /** The guard of buySpeedUpgrade, buyMagnetUpgrade and buyMoreCoinsUpgrade. */
  predicate CanBuy(u: Upgrade, balance: int) {
    balance >= u.cost && u.level < u.maxLevel
  }

  /** A track entry together with the balance. */
  datatype Deal = Deal(upgrade: Upgrade, balance: int)

  /** A guarded purchase on a levelled track; a rejected purchase changes nothing.
      The balance changes exactly when the guard holds, never rises, and never
      goes negative; the level moves by at most one and never past the maximum
      the guard checks. */
  function Buy(t: Track, u: Upgrade, balance: int): (r: Deal)
    ensures r.balance != balance <==> CanBuy(u, balance) && u.cost != 0
    ensures 0 <= u.cost ==> r.balance <= balance
    ensures 0 <= balance || CanBuy(u, balance) ==> 0 <= r.balance
    ensures r.upgrade.maxLevel == u.maxLevel
    ensures r.upgrade.level == u.level || (r.upgrade.level == u.level + 1 <= u.maxLevel)
    ensures !CanBuy(u, balance) ==> r == Deal(u, balance)
  {
    if CanBuy(u, balance) then
      Deal(Upgrade(u.level + 1, u.maxLevel, Escalate(t, u.cost)), balance - u.cost)
    else
      Deal(u, balance)
  }

  /** What a purchase on a well-formed track does: it is rejected without effect
      when the balance is short or the track is maxed out; otherwise it charges
      exactly the old price, raises the level by one without passing the maximum,
      asks the escalated price next, and leaves the track well-formed. */
  lemma PurchaseRule(t: Track, u: Upgrade, balance: int)
    requires TrackValid(t, u) && 0 <= balance
    ensures var r := Buy(t, u, balance);
      && (!CanBuy(u, balance) ==> r == Deal(u, balance))
      && (CanBuy(u, balance) ==>
            && r.balance == balance - u.cost
            && r.upgrade.level == u.level + 1
            && r.upgrade.cost == Escalate(t, u.cost))
      && 0 <= r.balance
      && r.upgrade.level <= MaxLevel(t)
      && TrackValid(t, r.upgrade)
  {
  }

  /** The speed track's prices: 10, 18, 32, 57 for the four possible purchases,
      and 102 displayed once the track is maxed out. */
  lemma SpeedCostLadder()
    ensures CostAt(Speed, 1) == 10 && CostAt(Speed, 2) == 18 && CostAt(Speed, 3) == 32
    ensures CostAt(Speed, 4) == 57 && CostAt(Speed, 5) == 102
  {
  }

  /** The magnet track's prices: 120, then 240. */
  lemma MagnetCostLadder()
    ensures CostAt(Magnet, 0) == 120 && CostAt(Magnet, 1) == 240 && CostAt(Magnet, 2) == 480
  {
  }

  /** Every price on every track is positive and strictly larger than the one before. */
  lemma {:induction false} CostsEscalate(t: Track, level: int)
    requires BaseLevel(t) <= level
    ensures CostAt(t, level) >= BaseCost(t) > 0
    ensures level > BaseLevel(t) ==> CostAt(t, level) > CostAt(t, level - 1)
    decreases level - BaseLevel(t)
  {
    if level > BaseLevel(t) {
      CostsEscalate(t, level - 1);
    }
  }

  /** gameState.speed after a speed purchase: 1 + (level - 1) * 0.5. */
  function SpeedMultiplier(level: int): (r: real)
    ensures level == BaseLevel(Speed) ==> r == 1.0
    ensures BaseLevel(Speed) <= level ==> 1.0 <= r
  {
    1.0 + (level - 1) as real * 0.5
  }

  /** gameState.coinCount after a more-coins purchase: 10 + (level - 1) * 5. */
  function CoinCountFor(level: int): (r: int)
    ensures level == BaseLevel(MoreCoins) ==> r == 10
    ensures BaseLevel(MoreCoins) <= level ==> 10 <= r && r % 5 == 0
  {
    10 + (level - 1) * 5
  }

  /** The derived values over the whole range of their tracks: the multiplier runs
      from 1.0 to 3.0 and the coin target from 10 to 55; each purchase adds 0.5 to
      the multiplier and 5 coins to the target. */
  lemma DerivedValues(speedLevel: int, moreCoinsLevel: int)
    requires BaseLevel(Speed) <= speedLevel <= MaxLevel(Speed)
    requires BaseLevel(MoreCoins) <= moreCoinsLevel <= MaxLevel(MoreCoins)
    ensures 1.0 <= SpeedMultiplier(speedLevel) <= 3.0
    ensures SpeedMultiplier(speedLevel + 1) == SpeedMultiplier(speedLevel) + 0.5
    ensures 10 <= CoinCountFor(moreCoinsLevel) <= 55
    ensures CoinCountFor(moreCoinsLevel + 1) == CoinCountFor(moreCoinsLevel) + 5
  {
  }

  // ---------------------------------------------------------------------------
  // One-time unlocks
  // ---------------------------------------------------------------------------

  const BOMB_COST := 400
  const RAINBOW_COST := 200
  const DARK_MATTER_COST := 300

  /** An ownership flag together with the balance. */
  datatype Purchase = Purchase(owned: bool, balance: int)

  /** A one-time unlock: bought only when affordable and not yet owned. */
  function Unlock(owned: bool, balance: int, price: int): (r: Purchase)
    ensures r.owned <==> owned || balance >= price
    ensures owned ==> r.balance == balance
    ensures r.balance != balance ==> !owned && r.owned && r.balance == balance - price
    ensures 0 <= price <= balance ==> 0 <= r.balance
    ensures 0 <= balance && balance < price ==> r.balance == balance
    ensures !owned && balance >= price ==> r == Purchase(true, balance - price)
  {
    if balance >= price && !owned then Purchase(true, balance - price) else Purchase(owned, balance)
  }

  /** Once owned, an unlock stays owned and is never charged again, however often
      it is attempted. */
  lemma {:induction false} UnlockIsOneTime(balance: int, price: int, attempts: nat)
    ensures UnlockRepeated(true, balance, price, attempts) == Purchase(true, balance)
  {
    if attempts > 0 {
      UnlockIsOneTime(balance, price, attempts - 1);
    }
  }

  /** `attempts` successive attempts at the same unlock. */
  function UnlockRepeated(owned: bool, balance: int, price: int, attempts: nat): Purchase
    decreases attempts
  {
    if attempts == 0 then Purchase(owned, balance)
    else
      var p := UnlockRepeated(owned, balance, price, attempts - 1);
      Unlock(p.owned, p.balance, price)
  }

  // ---------------------------------------------------------------------------
  // Shop buttons
  // ---------------------------------------------------------------------------

  /** `disabled` of the speed, magnet and more-coins buttons: exactly when the
      purchase guard fails. */
  function UpgradeDisabled(u: Upgrade, balance: int): (r: bool)
    ensures r <==> !CanBuy(u, balance)
  {
    balance < u.cost || u.level >= u.maxLevel
  }

  /** `disabled` of the bomb button: enabled exactly while the bomb is not owned
      and affordable, in which case pressing it unlocks it. */
  function BombDisabled(owned: bool, balance: int): (r: bool)
    ensures !r <==> !owned && BOMB_COST <= balance
    ensures !r ==> Unlock(owned, balance, BOMB_COST).owned
  {
    balance < BOMB_COST || owned
  }

  /** A button is disabled exactly when pressing it would be rejected. */
  lemma DisabledIffRejected(t: Track, u: Upgrade, owned: bool, balance: int)
    ensures UpgradeDisabled(u, balance) <==> Buy(t, u, balance) == Deal(u, balance)
    ensures BombDisabled(owned, balance) <==> Unlock(owned, balance, BOMB_COST) == Purchase(owned, balance)
  {
  }

  // ---------------------------------------------------------------------------
  // Levelling
  // ---------------------------------------------------------------------------

  /** The level a balance implies: floor(balance / 10) + 1. */
  function LevelFor(balance: int): (r: int)
    ensures (r - 1) * 10 <= balance < r * 10
    ensures 0 <= balance ==> 1 <= r
  {
    balance / 10 + 1
  }

  /** The bonus for reaching a level. */
  function Reward(level: int): (r: int)
    ensures r == if 25 <= level && level % 25 == 0 then (if level == 100 then 100 else level / 25 * 20) else 0
  {
    if level == 25 then 20
    else if level == 50 then 40
    else if level == 75 then 60
    else if level == 100 then 100
    else if level > 100 && level % 25 == 0 then level / 25 * 20
    else 0
  }

  /** The balance together with the level. */
  datatype Tally = Tally(balance: int, level: int)

  /** checkLevelUp: the level is recomputed from the balance before any bonus, and
      the bonus for the new level is paid only when the level went up. */
  function LevelUp(balance: int, level: int): (r: Tally)
    ensures r.level == LevelFor(balance)
    ensures r.balance >= balance
    ensures r.balance > balance <==> r.level > level && 25 <= r.level && r.level % 25 == 0
    ensures r.balance - balance == if r.level > level then Reward(r.level) else 0
  {
    var newLevel := LevelFor(balance);
    if newLevel > level then Tally(balance + Reward(newLevel), newLevel) else Tally(balance, newLevel)
  }

  /** The first milestone: the coin that takes the balance to 240 reaches level 25
      and pays 20; the next coin pays nothing. */
  lemma FirstMilestone()
    ensures LevelUp(239, 24) == Tally(239, 24)
    ensures LevelUp(240, 24) == Tally(260, 25)
    ensures LevelUp(261, 25) == Tally(261, 27)
  {
  }

  /** The level is not monotone: recomputed after a spend it goes down, and a
      milestone reached again pays again. */
  lemma LevelCanFall()
    ensures LevelUp(5, 3).level == 1
    ensures LevelUp(240, 1) == Tally(260, 25)
  {
  }

  // ---------------------------------------------------------------------------
  // Magnet radius
  // ---------------------------------------------------------------------------

  /** The radius rule of the effect tick: 80 at level 1, 150 at level 2, otherwise
      the radius is left as it is. */
  function MagnetRadius(level: int, radius: int): (r: int)
    ensures level == 1 ==> r == 80
    ensures level == 2 ==> r == 150
    ensures level != 1 && level != 2 ==> r == radius
  {
    if level == 1 then 80 else if level == 2 then 150 else radius
  }

  /** With the level read from the magnet track, a bought magnet has a positive
      radius from the next effect tick on, and an unbought one keeps radius 0. */
  lemma MagnetEngages(u: Upgrade, radius: int)
    requires TrackValid(Magnet, u)
    ensures u.level >= 1 ==> MagnetRadius(u.level, radius) > 0
    ensures u.level == 0 ==> MagnetRadius(u.level, radius) == radius
  {
  }

  /** `gameState.magnet` as the source keeps it: a level and a radius. */
  datatype MagnetState = MagnetState(level: int, radius: int)

  /** The effect tick as written: it reads `gameState.magnet.level`, which no code
      writes, and ignores the level of the magnet track `u`. */
  function MagnetTickAsWritten(m: MagnetState, u: Upgrade): (r: MagnetState)
    ensures r.level == m.level
  {
    MagnetState(m.level, MagnetRadius(m.level, m.radius))
  }

  /** As written, buying the magnet is accepted and charged, yet the magnet state
      stays at level 0 with radius 0 through the effect tick, so the pull (enabled
      only when `gameState.magnet.level > 0`) never runs. */
  lemma MagnetInertAsWritten()
    ensures var bought := Buy(Magnet, Initial(Magnet), 120);
      && bought == Deal(Upgrade(1, 2, 240), 0)
      && MagnetTickAsWritten(MagnetState(0, 0), bought.upgrade) == MagnetState(0, 0)
  {
  }
}
