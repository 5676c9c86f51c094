/** The game-state engine: one object holding `gameState`, `player`, `coins`,
    `collectedCoins` and `bombEffect`, with one method per handler or tick body
    that changes them. Random draws and the canvas size are parameters. */
module Game {
  import opened Seqs
  import opened Ledger
  import opened Avatar
  import opened Coins
  import opened Bomb

  const DEFAULT_EMOTION := "happy"

  class Game {
    const canvasWidth: real
    const canvasHeight: real

    // gameState
    /** `gameState.coins`, the spendable balance. */
    var balance: int
    var level: int
    /** `gameState.speed`, the multiplier on the player's base speed. */
    var speed: real
    /** `gameState.magnet.radius`. */
    var magnetRadius: int
    var coinCount: int
    var rainbowColor: bool
    var darkMatterColor: bool
    var bombOwned: bool
    var bombCooldown: real
    var speedUp: Upgrade
    var magnetUp: Upgrade
    var moreCoinsUp: Upgrade

    // player
    var px: real
    var py: real
    var bodyColor: string
    var accessories: seq<string>
    var emotion: string
    var rainbowHue: int

    var coins: seq<Coin>
    var collectedCoins: seq<CoinFX>

    // bombEffect
    var blastActive: bool
    var blastRadius: int
    var blastX: real
    var blastY: real
    var particles: seq<Particle>

    /** What every handler and tick keeps: the ledger in shape (balance never
        negative, each track's price the one its level implies, the derived speed
        and coin target matching their levels), exactly `coinCount` coins with at
        least one still to collect, live animations, the cooldown in [0, 45], the
        ring within 300, at most 80 particles, at most three distinct accessories,
        the hue in [0, 360), and the player within one eased step of the canvas. */
    ghost predicate Valid()
      reads this
    {
      canvasWidth >= 60.0 && canvasHeight >= 80.0 && LedgerValid() && CoinsValid() && BombValid() && PlayerValid()
    }

    /** The balance is never negative, each track's price is the one its level
        implies, and the derived speed and coin target match their levels. */
    ghost predicate LedgerValid()
      reads this`balance, this`speedUp, this`speed, this`magnetUp, this`moreCoinsUp, this`coinCount
    {
      && balance >= 0
      && TrackValid(Speed, speedUp) && speed == SpeedMultiplier(speedUp.level)
      && TrackValid(Magnet, magnetUp)
      && TrackValid(MoreCoins, moreCoinsUp) && coinCount == CoinCountFor(moreCoinsUp.level)
    }

    /** Exactly `coinCount` coins, at least one still to collect, and every
        collection animation live. */
    ghost predicate CoinsValid()
      reads this`coins, this`coinCount, this`collectedCoins
    {
      |coins| == coinCount && HasLiveCoin(coins) && FxLive(collectedCoins)
    }

    /** The cooldown in [0, 45], the ring within 300, at most 80 live particles. */
    ghost predicate BombValid()
      reads this`bombCooldown, this`blastRadius, this`particles
    {
      && 0.0 <= bombCooldown <= COOLDOWN
      && RingValid(blastRadius)
      && |particles| <= PARTICLE_COUNT && ParticlesLive(particles)
    }

    /** At most three distinct accessories, the hue in [0, 360), and the player
        within one eased step of the canvas. */
    ghost predicate PlayerValid()
      reads this`accessories, this`rainbowHue, this`px, this`py, this`speed
    {
      && Wardrobe(accessories)
      && 0 <= rainbowHue < 360
      && Near(px, canvasWidth - PLAYER_WIDTH, BASE_SPEED * speed)
      && Near(py, canvasHeight - PLAYER_HEIGHT, BASE_SPEED * speed)
    }

    /** The initial `gameState`, `player` and `bombEffect`, followed by init's
        createCoins. */
    constructor (width: real, height: real, draws: seq<CoinDraw>)
      requires width >= 60.0 && height >= 80.0
      requires |draws| == CoinCountFor(BaseLevel(MoreCoins)) && UnitDraws(draws)
      ensures Valid()
      ensures canvasWidth == width && canvasHeight == height
      ensures balance == 0 && level == 1 && speed == 1.0 && magnetRadius == 0 && coinCount == 10
      ensures !rainbowColor && !darkMatterColor && !bombOwned && bombCooldown == 0.0
      ensures speedUp == Initial(Speed) && magnetUp == Initial(Magnet) && moreCoinsUp == Initial(MoreCoins)
      ensures px == width / 2.0 && py == height / 2.0
      ensures bodyColor == DEFAULT_COLOR && accessories == [] && emotion == DEFAULT_EMOTION && rainbowHue == 0
      ensures coins == FreshCoins(draws, width, height) && collectedCoins == []
      ensures !blastActive && blastRadius == 0 && blastX == 0.0 && blastY == 0.0 && particles == []
    {
      canvasWidth, canvasHeight := width, height;
      balance, level, speed, magnetRadius, coinCount := 0, 1, 1.0, 0, 10;
      rainbowColor, darkMatterColor := false, false;
      bombOwned, bombCooldown := false, 0.0;
      speedUp, magnetUp, moreCoinsUp := Upgrade(1, 5, 10), Upgrade(0, 2, 120), Upgrade(1, 10, 50);
      px, py := width / 2.0, height / 2.0;
      bodyColor, accessories, emotion, rainbowHue := DEFAULT_COLOR, [], DEFAULT_EMOTION, 0;
      coins, collectedCoins := [], [];
      blastActive, blastRadius, blastX, blastY, particles := false, 0, 0.0, 0.0, [];
      new;
      CreateCoins(draws);
      FreshBatchIsLive(draws, width, height);
    }

    // -------------------------------------------------------------------------
    // Coin store
    // -------------------------------------------------------------------------

    /** createCoins: replaces the coins by `coinCount` fresh ones, one per draw. */
    method CreateCoins(draws: seq<CoinDraw>)
      requires canvasWidth > COIN_SIZE && canvasHeight > COIN_SIZE
      requires |draws| == coinCount && UnitDraws(draws)
      modifies this`coins
      ensures coins == FreshCoins(draws, canvasWidth, canvasHeight)
    {
      coins := [];
      var i := 0;
      while i < coinCount
        invariant 0 <= i <= coinCount
        invariant coins == FreshCoins(draws[..i], canvasWidth, canvasHeight)
      {
        coins := coins + [NewCoin(draws[i], canvasWidth, canvasHeight)];
        i := i + 1;
      }
      assert draws[..i] == draws;
    }

    // -------------------------------------------------------------------------
    // Shop
    // -------------------------------------------------------------------------

    /** buySpeedUpgrade: a guarded purchase that also sets the speed multiplier. */
    method BuySpeedUpgrade()
      requires Valid()
      modifies this`balance, this`speedUp, this`speed
      ensures Valid()
      ensures Deal(speedUp, balance) == Buy(Speed, old(speedUp), old(balance))
      ensures speed == if CanBuy(old(speedUp), old(balance)) then SpeedMultiplier(speedUp.level) else old(speed)
    {
      PurchaseRule(Speed, speedUp, balance);
      if balance >= speedUp.cost && speedUp.level < speedUp.maxLevel {
        balance := balance - speedUp.cost;
        speedUp := speedUp.(level := speedUp.level + 1);
        speed := 1.0 + (speedUp.level - 1) as real * 0.5;
        speedUp := speedUp.(cost := speedUp.cost * 18 / 10);
      }
    }

    /** buyMagnetUpgrade: a guarded purchase on the magnet track. */
    method BuyMagnetUpgrade()
      requires Valid()
      modifies this`balance, this`magnetUp
      ensures Valid()
      ensures Deal(magnetUp, balance) == Buy(Magnet, old(magnetUp), old(balance))
    {
      PurchaseRule(Magnet, magnetUp, balance);
      if balance >= magnetUp.cost && magnetUp.level < magnetUp.maxLevel {
        balance := balance - magnetUp.cost;
        magnetUp := magnetUp.(level := magnetUp.level + 1);
        magnetUp := magnetUp.(cost := magnetUp.cost * 2);
      }
    }

    /** buyMoreCoinsUpgrade: a guarded purchase that raises the coin target and
        appends one fresh coin per missing coin, leaving the existing ones alone.
        `draws` holds one draw for each of the (at most five) coins added. */
    method BuyMoreCoinsUpgrade(draws: seq<CoinDraw>)
      requires Valid()
      requires |draws| >= CoinCountFor(moreCoinsUp.level + 1) - coinCount && UnitDraws(draws)
      modifies this`balance, this`moreCoinsUp, this`coinCount, this`coins
      ensures Valid()
      ensures Deal(moreCoinsUp, balance) == Buy(MoreCoins, old(moreCoinsUp), old(balance))
      ensures CanBuy(old(moreCoinsUp), old(balance)) ==>
        && coinCount == CoinCountFor(moreCoinsUp.level)
        && coinCount - |old(coins)| == 5
        && coins == old(coins) + FreshCoins(draws[..coinCount - |old(coins)|], canvasWidth, canvasHeight)
      ensures !CanBuy(old(moreCoinsUp), old(balance)) ==> coinCount == old(coinCount) && coins == old(coins)
    {
      PurchaseRule(MoreCoins, moreCoinsUp, balance);
      if balance >= moreCoinsUp.cost && moreCoinsUp.level < moreCoinsUp.maxLevel {
        balance := balance - moreCoinsUp.cost;
        moreCoinsUp := moreCoinsUp.(level := moreCoinsUp.level + 1);
        coinCount := 10 + (moreCoinsUp.level - 1) * 5;
        moreCoinsUp := moreCoinsUp.(cost := moreCoinsUp.cost * 3 / 2);

        var coinsToAdd := coinCount - |coins|;
        var added := [];
        var i := 0;
        while i < coinsToAdd
          invariant 0 <= i <= coinsToAdd
          invariant added == FreshCoins(draws[..i], canvasWidth, canvasHeight)
        {
          added := added + [NewCoin(draws[i], canvasWidth, canvasHeight)];
          i := i + 1;
        }
        ghost var live :| 0 <= live < |coins| && !coins[live].collected;
        assert (coins + added)[live] == coins[live];
        coins := coins + added;
      }
    }

    /** buyBombUpgrade: the one-time bomb unlock for 400 coins. */
    method BuyBombUpgrade()
      requires Valid()
      modifies this`balance, this`bombOwned
      ensures Valid()
      ensures Purchase(bombOwned, balance) == Unlock(old(bombOwned), old(balance), BOMB_COST)
    {
      if balance >= BOMB_COST && !bombOwned {
        balance := balance - BOMB_COST;
        bombOwned := true;
      }
    }

    // -------------------------------------------------------------------------
    // Levelling
    // -------------------------------------------------------------------------

    /** checkLevelUp. */
    method CheckLevelUp()
      modifies this`balance, this`level
      ensures Tally(balance, level) == LevelUp(old(balance), old(level))
    {
      var oldLevel := level;
      level := balance / 10 + 1;
      if level > oldLevel {
        if level == 25 {
          balance := balance + 20;
        } else if level == 50 {
          balance := balance + 40;
        } else if level == 75 {
          balance := balance + 60;
        } else if level == 100 {
          balance := balance + 100;
        } else if level > 100 && level % 25 == 0 {
          var reward := level / 25 * 20;
          balance := balance + reward;
        }
      }
    }

    // -------------------------------------------------------------------------
    // Collection passes
    // -------------------------------------------------------------------------

    /** checkCoinCollisions: every uncollected coin overlapping the player is
        collected, credited and animated, in array order; the moment the last coin
        is taken the set is regenerated from `draws`. */
    method CheckCoinCollisions(draws: seq<CoinDraw>)
      requires Valid()
      requires |draws| == coinCount && UnitDraws(draws)
      modifies this`coins, this`balance, this`level, this`collectedCoins
      ensures Valid()
      ensures Tally(balance, level) == Credit(Box(px, py), old(coins), Tally(old(balance), old(level)))
      ensures collectedCoins == old(collectedCoins) + FxOf(Box(px, py), old(coins))
      ensures var marked := MarkAll(Box(px, py), old(coins));
        coins == if Taken(Box(px, py), old(coins)) > 0 && AllCollected(marked)
                 then FreshCoins(draws, canvasWidth, canvasHeight) else marked
    {
      ghost var c0, fx0, start := coins, collectedCoins, Tally(balance, level);
      CollectTouching(draws);
      ghost var t := Box(px, py);
      PassKeepsValid(t, c0, start, fx0, Taken(t, c0) > 0 && AllCollected(MarkAll(t, c0)));
    }

    /** The forEach of checkCoinCollisions, which walks the array it started with
        even after a regeneration replaces `coins`. */
    method CollectTouching(draws: seq<CoinDraw>)
      requires canvasWidth > COIN_SIZE && canvasHeight > COIN_SIZE
      requires |draws| == coinCount && UnitDraws(draws)
      modifies this`coins, this`balance, this`level, this`collectedCoins
      ensures Tally(balance, level) == Credit(Box(px, py), old(coins), Tally(old(balance), old(level)))
      ensures collectedCoins == old(collectedCoins) + FxOf(Box(px, py), old(coins))
      ensures var marked := MarkAll(Box(px, py), old(coins));
        coins == if Taken(Box(px, py), old(coins)) > 0 && AllCollected(marked)
                 then FreshCoins(draws, canvasWidth, canvasHeight) else marked
    {
      var t := Box(px, py);
      ghost var c0, fx0, start := coins, collectedCoins, Tally(balance, level);
      var arr := coins;
      ghost var regenerated := false;
      var i := 0;
      while i < |arr|
        invariant 0 <= i <= |arr| == |c0|
        invariant SweepTo(t, c0, i, start, fx0) == Sweep(arr, Tally(balance, level), collectedCoins, regenerated)
        invariant coins == if regenerated then FreshCoins(draws, canvasWidth, canvasHeight) else arr
      {
        ghost var taken := Takes(t, arr[i]);
        arr := TouchCoin(arr, i, draws);
        if taken {
          regenerated := AllCollected(arr);
        }
        i := i + 1;
      }
      SweepSummary(t, c0, i, start, fx0);
      assert c0[..i] == c0 && c0[i..] == [];
      assert MarkAll(t, c0) + [] == MarkAll(t, c0);
    }

    /** The callback checkCoinCollisions runs on coin `i` of the array it walks: an
        uncollected coin overlapping the player is marked collected, the balance
        gains one, an animation is pushed and checkLevelUp runs; when that leaves
        every coin collected, the set is regenerated. `coins` is the walked array
        until then. */
    method TouchCoin(arr: seq<Coin>, i: int, draws: seq<CoinDraw>) returns (next: seq<Coin>)
      requires 0 <= i < |arr|
      requires canvasWidth > COIN_SIZE && canvasHeight > COIN_SIZE
      requires |draws| == coinCount && UnitDraws(draws)
      requires Takes(Box(px, py), arr[i]) ==> coins == arr
      modifies this`coins, this`balance, this`level, this`collectedCoins
      ensures next == arr[i := Mark(Box(px, py), arr[i])]
      ensures Takes(Box(px, py), arr[i]) ==>
        && Tally(balance, level) == LevelUp(old(balance) + 1, old(level))
        && collectedCoins == old(collectedCoins) + [SpawnFx(arr[i])]
        && coins == if AllCollected(next) then FreshCoins(draws, canvasWidth, canvasHeight) else next
      ensures !Takes(Box(px, py), arr[i]) ==>
        balance == old(balance) && level == old(level) && collectedCoins == old(collectedCoins) && coins == old(coins)
    {
      next := arr;
      var coin := arr[i];
      if !coin.collected &&
         px < coin.x + COIN_SIZE && px + PLAYER_WIDTH > coin.x &&
         py < coin.y + COIN_SIZE && py + PLAYER_HEIGHT > coin.y
      {
        next := next[i := coin.(collected := true)];
        coins := next;
        balance := balance + 1;
        collectedCoins := collectedCoins + [CoinFX(coin.x, coin.y, 1.0, 1.0)];
        CheckLevelUp();
        if AllCollected(coins) {
          CreateCoins(draws);
        }
      }
    }

    /** collectCoinsInRadius: every uncollected coin whose centre lies within 300
        of the bomb centre is collected, credited and animated, in array order;
        afterwards the set is regenerated from `draws` if every coin is collected. */
    method CollectCoinsInRadius(draws: seq<CoinDraw>)
      requires Valid()
      requires |draws| == coinCount && UnitDraws(draws)
      modifies this`coins, this`balance, this`level, this`collectedCoins
      ensures Valid()
      ensures Tally(balance, level) == Credit(Blast(blastX, blastY), old(coins), Tally(old(balance), old(level)))
      ensures collectedCoins == old(collectedCoins) + FxOf(Blast(blastX, blastY), old(coins))
      ensures var marked := MarkAll(Blast(blastX, blastY), old(coins));
        coins == if AllCollected(marked) then FreshCoins(draws, canvasWidth, canvasHeight) else marked
    {
      ghost var c0, fx0, start := coins, collectedCoins, Tally(balance, level);
      CollectInRadius();
      ghost var marked := coins;
      if AllCollected(coins) {
        CreateCoins(draws);
      }
      PassKeepsValid(Blast(blastX, blastY), c0, start, fx0, AllCollected(marked));
    }

    /** The forEach of collectCoinsInRadius. */
    method CollectInRadius()
      modifies this`coins, this`balance, this`level, this`collectedCoins
      ensures coins == MarkAll(Blast(blastX, blastY), old(coins))
      ensures Tally(balance, level) == Credit(Blast(blastX, blastY), old(coins), Tally(old(balance), old(level)))
      ensures collectedCoins == old(collectedCoins) + FxOf(Blast(blastX, blastY), old(coins))
    {
      var t := Blast(blastX, blastY);
      ghost var c0, fx0, start := coins, collectedCoins, Tally(balance, level);
      ghost var exhausted := false;
      var i := 0;
      while i < |coins|
        invariant 0 <= i <= |coins| == |c0|
        invariant SweepTo(t, c0, i, start, fx0) == Sweep(coins, Tally(balance, level), collectedCoins, exhausted)
      {
        var coin := coins[i];
        if !coin.collected {
          var dx := blastX - (coin.x + COIN_SIZE / 2.0);
          var dy := blastY - (coin.y + COIN_SIZE / 2.0);
          if dx * dx + dy * dy < BLAST_RADIUS * BLAST_RADIUS {
            coins := coins[i := coin.(collected := true)];
            balance := balance + 1;
            collectedCoins := collectedCoins + [CoinFX(coin.x, coin.y, 1.0, 1.0)];
            CheckLevelUp();
            exhausted := AllCollected(coins);
          }
        }
        i := i + 1;
      }
      SweepSummary(t, c0, i, start, fx0);
      assert c0[..i] == c0 && c0[i..] == [];
      assert MarkAll(t, c0) + [] == MarkAll(t, c0);
    }

    /** The facts a finished pass needs to re-establish `Valid()`. */
    lemma PassKeepsValid(t: Test, c0: seq<Coin>, start: Tally, fx0: seq<CoinFX>, regenerated: bool)
      requires 0 <= start.balance && HasLiveCoin(c0) && FxLive(fx0)
      requires Tally(balance, level) == Credit(t, c0, start)
      requires collectedCoins == fx0 + FxOf(t, c0)
      requires canvasWidth > COIN_SIZE && canvasHeight > COIN_SIZE && |c0| > 0
      requires regenerated ==> exists ds :: |ds| == |c0| && UnitDraws(ds) && coins == FreshCoins(ds, canvasWidth, canvasHeight)
      requires !regenerated ==> coins == MarkAll(t, c0) && (Taken(t, c0) > 0 ==> !AllCollected(coins))
      ensures balance >= 0 && |coins| == |c0| && HasLiveCoin(coins) && FxLive(collectedCoins)
    {
      CreditAtLeast(t, c0, start);
      if regenerated {
        var ds :| |ds| == |c0| && UnitDraws(ds) && coins == FreshCoins(ds, canvasWidth, canvasHeight);
        FreshBatchIsLive(ds, canvasWidth, canvasHeight);
      } else if Taken(t, c0) == 0 {
        NoTakeNoChange(t, c0);
      }
    }

    // -------------------------------------------------------------------------
    // Bomb
    // -------------------------------------------------------------------------

    /** activateBomb: only when the bomb is owned and the cooldown has run out; it
        restarts the cooldown at 45 and starts the explosion at the player's centre
        with a ring of radius 0 and one particle per spark. */
    method ActivateBomb(sparks: seq<Spark>)
      requires Valid()
      requires |sparks| == PARTICLE_COUNT && UnitSparks(sparks)
      modifies this`bombCooldown, this`blastActive, this`blastRadius, this`blastX, this`blastY, this`particles
      ensures Valid()
      ensures old(bombOwned && bombCooldown <= 0.0) ==>
        && bombCooldown == COOLDOWN && blastActive && blastRadius == 0
        && blastX == px + PLAYER_WIDTH / 2.0 && blastY == py + PLAYER_HEIGHT / 2.0
        && particles == Burst(blastX, blastY, sparks)
      ensures !old(bombOwned && bombCooldown <= 0.0) ==>
        && bombCooldown == old(bombCooldown) && blastActive == old(blastActive) && blastRadius == old(blastRadius)
        && blastX == old(blastX) && blastY == old(blastY) && particles == old(particles)
    {
      if bombOwned && bombCooldown <= 0.0 {
        bombCooldown := COOLDOWN;
        blastActive := true;
        blastRadius := 0;
        blastX := px + PLAYER_WIDTH / 2.0;
        blastY := py + PLAYER_HEIGHT / 2.0;
        var burst := [];
        for i := 0 to PARTICLE_COUNT
          invariant burst == Burst(blastX, blastY, sparks[..i])
        {
          burst := burst + [Spawn(blastX, blastY, sparks[i])];
        }
        assert sparks[..PARTICLE_COUNT] == sparks;
        particles := burst;
        ParticlesStayLive([], blastX, blastY, sparks);
      }
    }

    /** The body of the timeout activateBomb schedules: the radius collection, then
        the explosion ends. */
    method Detonate(draws: seq<CoinDraw>)
      requires Valid()
      requires |draws| == coinCount && UnitDraws(draws)
      modifies this`coins, this`balance, this`level, this`collectedCoins, this`blastActive
      ensures Valid() && !blastActive
      ensures Tally(balance, level) == Credit(Blast(blastX, blastY), old(coins), Tally(old(balance), old(level)))
      ensures collectedCoins == old(collectedCoins) + FxOf(Blast(blastX, blastY), old(coins))
      ensures var marked := MarkAll(Blast(blastX, blastY), old(coins));
        coins == if AllCollected(marked) then FreshCoins(draws, canvasWidth, canvasHeight) else marked
    {
      CollectCoinsInRadius(draws);
      blastActive := false;
    }

    /** animateBombEffect: the ring grows by 20 while below 300, every particle
        advances one step, and the spent ones are dropped. */
    method AnimateBombEffect()
      requires Valid()
      modifies this`blastRadius, this`particles
      ensures Valid()
      ensures blastRadius == GrowRing(old(blastRadius))
      ensures particles == Survivors(AdvanceAll(old(particles)))
    {
      if blastRadius < MAX_RING {
        blastRadius := blastRadius + RING_STEP;
      }
      ghost var p0 := particles;
      var i := 0;
      while i < |particles|
        invariant 0 <= i <= |particles| == |p0|
        invariant blastRadius == GrowRing(old(blastRadius))
        invariant forall k :: 0 <= k < i ==> particles[k] == Advance(p0[k])
        invariant forall k :: i <= k < |particles| ==> particles[k] == p0[k]
      {
        var p := particles[i];
        particles := particles[i := p.(x := p.x + p.vx, y := p.y + p.vy, life := p.life - 0.02, vy := p.vy + 0.1)];
        i := i + 1;
      }
      assert particles == AdvanceAll(p0);
      particles := Survivors(particles);
      RingBounded(old(blastRadius), 0);
      ParticlesStayLive(p0, blastX, blastY, []);
    }

    /** The 10 Hz cooldown tick. */
    method TickCooldown()
      requires Valid()
      modifies this`bombCooldown
      ensures Valid()
      ensures bombCooldown == NextCooldown(old(bombCooldown))
    {
      if bombCooldown > 0.0 {
        bombCooldown := bombCooldown - COOLDOWN_STEP;
        if bombCooldown < 0.0 {
          bombCooldown := 0.0;
        }
      }
    }

    // -------------------------------------------------------------------------
    // Effect tick and movement
    // -------------------------------------------------------------------------

    /** The 60 Hz effect tick: the rainbow hue advances by 3 degrees while the
        rainbow body is worn, the magnet radius follows the magnet track's level,
        and the collection animations decay. */
    method EffectTick()
      requires Valid()
      modifies this`rainbowHue, this`magnetRadius, this`collectedCoins
      ensures Valid()
      ensures rainbowHue == if rainbowColor && bodyColor == RAINBOW then (old(rainbowHue) + 3) % 360 else old(rainbowHue)
      ensures magnetRadius == MagnetRadius(magnetUp.level, old(magnetRadius))
      ensures collectedCoins == Fade(old(collectedCoins))
    {
      if rainbowColor && bodyColor == RAINBOW {
        rainbowHue := (rainbowHue + 3) % 360;
      }
      if magnetUp.level == 1 {
        magnetRadius := 80;
      } else if magnetUp.level == 2 {
        magnetRadius := 150;
      }
      FadeKeepsLive(collectedCoins);
      collectedCoins := Fade(collectedCoins);
    }

    /** movePlayer: each held key moves the target by the current speed when the
        player is not yet at that edge, and the player eases 30% of the way there. */
    method MovePlayer(keys: Keys)
      requires Valid()
      modifies this`px, this`py
      ensures Valid()
      ensures px == AxisStep(old(px), canvasWidth - PLAYER_WIDTH, keys.a, keys.d, BASE_SPEED * speed)
      ensures py == AxisStep(old(py), canvasHeight - PLAYER_HEIGHT, keys.w, keys.s, BASE_SPEED * speed)
    {
      var currentSpeed := BASE_SPEED * speed;
      var targetX, targetY := px, py;
      if keys.w && py > 0.0 {
        targetY := targetY - currentSpeed;
      }
      if keys.s && py < canvasHeight - PLAYER_HEIGHT {
        targetY := targetY + currentSpeed;
      }
      if keys.a && px > 0.0 {
        targetX := targetX - currentSpeed;
      }
      if keys.d && px < canvasWidth - PLAYER_WIDTH {
        targetX := targetX + currentSpeed;
      }
      StepStaysNear(px, canvasWidth - PLAYER_WIDTH, keys.a, keys.d, currentSpeed, currentSpeed);
      StepStaysNear(py, canvasHeight - PLAYER_HEIGHT, keys.w, keys.s, currentSpeed, currentSpeed);
      px := px + (targetX - px) * EASING;
      py := py + (targetY - py) * EASING;
    }

    // -------------------------------------------------------------------------
    // Customisation
    // -------------------------------------------------------------------------

    /** The colour click handler. */
    method SelectColour(color: string)
      requires Valid()
      modifies this`balance, this`rainbowColor, this`darkMatterColor, this`bodyColor
      ensures Valid()
      ensures Look(balance, rainbowColor, darkMatterColor, bodyColor) ==
              PickColour(old(Look(balance, rainbowColor, darkMatterColor, bodyColor)), color)
    {
      if color == RAINBOW {
        if balance >= RAINBOW_COST && !rainbowColor {
          balance := balance - RAINBOW_COST;
          rainbowColor := true;
        } else if !rainbowColor {
          return;
        }
      }
      if color == DARK_MATTER {
        if balance >= DARK_MATTER_COST && !darkMatterColor {
          balance := balance - DARK_MATTER_COST;
          darkMatterColor := true;
        } else if !darkMatterColor {
          return;
        }
      }
      if (color != RAINBOW && color != DARK_MATTER) ||
         (color == RAINBOW && rainbowColor) ||
         (color == DARK_MATTER && darkMatterColor)
      {
        bodyColor := color;
      }
    }

    /** The accessory click handler. */
    method ToggleAccessory(accessory: string)
      requires Valid()
      modifies this`accessories
      ensures Valid()
      ensures accessories == Toggle(old(accessories), accessory)
    {
      if accessory == NO_ACCESSORY {
        accessories := [];
      } else {
        var index := IndexOf(accessories, accessory);
        if index > -1 {
          assert Toggle(accessories, accessory) == RemovedAt(accessories, index);
          accessories := accessories[..index] + accessories[index + 1..];
        } else if |accessories| < MAX_ACCESSORIES {
          assert Toggle(accessories, accessory) == accessories + [accessory];
          accessories := accessories + [accessory];
        } else {
          assert Toggle(accessories, accessory) == accessories;
        }
      }
    }

    /** The emotion click handler. */
    method SetEmotion(e: string)
      requires Valid()
      modifies this`emotion
      ensures Valid()
      ensures emotion == e
    {
      emotion := e;
    }
  }
}
