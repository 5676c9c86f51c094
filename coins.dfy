/** The coin store: coin records, fresh batches drawn from random samples, the two
    collection tests, and the effect of one collection pass on the coins, on the
    balance and level, and on the list of collection animations. */
module Coins {
  import opened Seqs
  import opened Ledger
  import opened Avatar

  const COIN_SIZE: real := 20.0
  /** The bomb's `maxRadius`. */
  const BLAST_RADIUS: real := 300.0

  /** A coin: its top-left corner and whether it has been collected. */
  datatype Coin = Coin(x: real, y: real, collected: bool)

  /** Two `Math.random()` results placing a new coin. */
  datatype CoinDraw = CoinDraw(u: real, v: real)

  predicate UnitDraw(d: CoinDraw) {
    0.0 <= d.u < 1.0 && 0.0 <= d.v < 1.0
  }

  predicate UnitDraws(ds: seq<CoinDraw>) {
    forall i :: 0 <= i < |ds| ==> UnitDraw(ds[i])
  }

  /** A coin placed at (u * (W - 20), v * (H - 20)), not collected. */
  function NewCoin(d: CoinDraw, width: real, height: real): (c: Coin)
    requires width > COIN_SIZE && height > COIN_SIZE && UnitDraw(d)
    ensures !c.collected && 0.0 <= c.x < width - COIN_SIZE && 0.0 <= c.y < height - COIN_SIZE
  {
    Coin(Scale(d.u, width - COIN_SIZE), Scale(d.v, height - COIN_SIZE), false)
  }

  /** `Math.random() * w`. */
  function Scale(u: real, w: real): (r: real)
    requires 0.0 <= u < 1.0 && 0.0 < w
    ensures 0.0 <= r < w
  {
    assert u * w < 1.0 * w;
    u * w
  }

  /** One fresh coin per draw: uncollected, inside [0, W - 20) x [0, H - 20). */
  function FreshCoins(ds: seq<CoinDraw>, width: real, height: real): (cs: seq<Coin>)
    requires width > COIN_SIZE && height > COIN_SIZE && UnitDraws(ds)
    ensures |cs| == |ds|
    ensures forall i :: 0 <= i < |cs| ==>
      && !cs[i].collected
      && 0.0 <= cs[i].x < width - COIN_SIZE && 0.0 <= cs[i].y < height - COIN_SIZE
      && cs[i] == NewCoin(ds[i], width, height)
  {
    seq(|ds|, i requires 0 <= i < |ds| => NewCoin(ds[i], width, height))
  }

  /** Some coin is still to be collected. */
  predicate HasLiveCoin(cs: seq<Coin>) {
    exists i :: 0 <= i < |cs| && !cs[i].collected
  }

  predicate AllCollected(cs: seq<Coin>) {
    forall i :: 0 <= i < |cs| ==> cs[i].collected
  }

  /** A batch of at least one fresh coin has a live coin. */
  lemma FreshBatchIsLive(ds: seq<CoinDraw>, width: real, height: real)
    requires width > COIN_SIZE && height > COIN_SIZE && UnitDraws(ds) && |ds| > 0
    ensures HasLiveCoin(FreshCoins(ds, width, height))
    ensures !AllCollected(FreshCoins(ds, width, height))
  {
    assert !FreshCoins(ds, width, height)[0].collected;
  }

  // ---------------------------------------------------------------------------
  // Collection tests
  // ---------------------------------------------------------------------------

  /** The two collection passes: overlap with the player's box at (px, py), or a
      centre within the blast radius of (cx, cy). */
  datatype Test = Box(px: real, py: real) | Blast(cx: real, cy: real)

  /** The test applied to a coin, collected or not. The blast test compares the
      squared distance with 300 squared, which for a non-negative square is the
      same as comparing the square root with 300. */
  function Touches(t: Test, c: Coin): (r: bool)
    ensures t.Box? ==> (r <==>
      && -(COIN_SIZE + PLAYER_WIDTH) / 2.0 < (c.x + COIN_SIZE / 2.0) - (t.px + PLAYER_WIDTH / 2.0) < (COIN_SIZE + PLAYER_WIDTH) / 2.0
      && -(COIN_SIZE + PLAYER_HEIGHT) / 2.0 < (c.y + COIN_SIZE / 2.0) - (t.py + PLAYER_HEIGHT / 2.0) < (COIN_SIZE + PLAYER_HEIGHT) / 2.0)
    ensures t.Blast? && r ==>
      && -BLAST_RADIUS < c.x + COIN_SIZE / 2.0 - t.cx < BLAST_RADIUS
      && -BLAST_RADIUS < c.y + COIN_SIZE / 2.0 - t.cy < BLAST_RADIUS
    ensures t.Blast? && c.x + COIN_SIZE / 2.0 == t.cx && c.y + COIN_SIZE / 2.0 == t.cy ==> r
  {
    match t
    case Box(px, py) =>
      px < c.x + COIN_SIZE && px + PLAYER_WIDTH > c.x && py < c.y + COIN_SIZE && py + PLAYER_HEIGHT > c.y
    case Blast(cx, cy) =>
      var dx := cx - (c.x + COIN_SIZE / 2.0);
      var dy := cy - (c.y + COIN_SIZE / 2.0);
      dx * dx + dy * dy < BLAST_RADIUS * BLAST_RADIUS
  }

  /** A pass takes a coin when it is not yet collected and passes the test. */
  predicate Takes(t: Test, c: Coin) {
    !c.collected && Touches(t, c)
  }

  /** The coin as a pass leaves it. */
  function Mark(t: Test, c: Coin): Coin {
    if Takes(t, c) then c.(collected := true) else c
  }

  /** The coins after a pass: positions untouched; a coin is collected afterwards
      exactly when it was collected before or passed the test. */
  function MarkAll(t: Test, cs: seq<Coin>): (r: seq<Coin>)
    ensures |r| == |cs|
    ensures forall i :: 0 <= i < |cs| ==>
      && r[i].x == cs[i].x && r[i].y == cs[i].y
      && (r[i].collected <==> cs[i].collected || Touches(t, cs[i]))
  {
    seq(|cs|, i requires 0 <= i < |cs| => Mark(t, cs[i]))
  }

  /** The number of coins a pass takes. */
  function Taken(t: Test, cs: seq<Coin>): nat
    decreases |cs|
  {
    if cs == [] then 0
    else Taken(t, cs[..|cs| - 1]) + (if Takes(t, cs[|cs| - 1]) then 1 else 0)
  }

  /** The number of collected coins. */
  function CollectedCount(cs: seq<Coin>): nat
    decreases |cs|
  {
    if cs == [] then 0
    else CollectedCount(cs[..|cs| - 1]) + (if cs[|cs| - 1].collected then 1 else 0)
  }

  /** A pass takes nothing exactly when no coin is both uncollected and touched. */
  lemma {:induction false} TakenZero(t: Test, cs: seq<Coin>)
    ensures Taken(t, cs) == 0 <==> forall i :: 0 <= i < |cs| ==> !Takes(t, cs[i])
    decreases |cs|
  {
    if cs != [] {
      var init := cs[..|cs| - 1];
      TakenZero(t, init);
      assert forall i :: 0 <= i < |init| ==> init[i] == cs[i];
    }
  }

  /** A pass that takes nothing leaves the coins as they were. */
  lemma NoTakeNoChange(t: Test, cs: seq<Coin>)
    requires Taken(t, cs) == 0
    ensures MarkAll(t, cs) == cs
  {
    TakenZero(t, cs);
  }

  /** A pass raises the number of collected coins by exactly the number it takes:
      it flips only uncollected coins, and never flips one back. */
  lemma {:induction false} MarkAllCounts(t: Test, cs: seq<Coin>)
    ensures CollectedCount(MarkAll(t, cs)) == CollectedCount(cs) + Taken(t, cs)
    decreases |cs|
  {
    if cs != [] {
      var init := cs[..|cs| - 1];
      MarkAllCounts(t, init);
      assert MarkAll(t, cs)[..|cs| - 1] == MarkAll(t, init);
    }
  }

  // ---------------------------------------------------------------------------
  // Collection animations
  // ---------------------------------------------------------------------------

  /** A collection animation: where the coin was, its life and its scale. Its
      target, the coin counter at (50, 50), is the same for every record. */
  datatype CoinFX = CoinFX(x: real, y: real, life: real, scale: real)

  /** The record pushed when a coin is collected. */
  function SpawnFx(c: Coin): CoinFX {
    CoinFX(c.x, c.y, 1.0, 1.0)
  }

  /** The records a pass pushes, in the order of the coins. */
  function FxOf(t: Test, cs: seq<Coin>): (r: seq<CoinFX>)
    ensures |r| == Taken(t, cs)
    ensures forall k :: 0 <= k < |r| ==> r[k].life == 1.0 && r[k].scale == 1.0
    decreases |cs|
  {
    if cs == [] then []
    else
      var last := cs[|cs| - 1];
      FxOf(t, cs[..|cs| - 1]) + (if Takes(t, last) then [SpawnFx(last)] else [])
  }

  /** Every record a pass pushes sits at the place of a coin the pass took. */
  lemma {:induction false} FxAtTakenCoins(t: Test, cs: seq<Coin>, k: int)
    requires 0 <= k < |FxOf(t, cs)|
    ensures exists i :: 0 <= i < |cs| && Takes(t, cs[i]) && FxOf(t, cs)[k] == SpawnFx(cs[i])
    decreases |cs|
  {
    var init := cs[..|cs| - 1];
    if k < |FxOf(t, init)| {
      FxAtTakenCoins(t, init, k);
      var i :| 0 <= i < |init| && Takes(t, init[i]) && FxOf(t, init)[k] == SpawnFx(init[i]);
      assert cs[i] == init[i];
    } else {
      assert Takes(t, cs[|cs| - 1]) && FxOf(t, cs)[k] == SpawnFx(cs[|cs| - 1]);
    }
  }

  /** One tick of decay. */
  function Faded(f: CoinFX): CoinFX {
    f.(life := f.life - 0.03, scale := f.scale - 0.03)
  }

  /** `g` is the decay of some record of `fx` and still has life left. */
  predicate SurvivesFade(g: CoinFX, fx: seq<CoinFX>) {
    g.life > 0.0 && exists i :: 0 <= i < |fx| && g == Faded(fx[i])
  }

  /** Every record decayed by one tick, in place. */
  function FadedAll(fx: seq<CoinFX>): (r: seq<CoinFX>)
    ensures |r| == |fx|
    ensures forall i :: 0 <= i < |fx| ==> r[i] == Faded(fx[i])
  {
    seq(|fx|, i requires 0 <= i < |fx| => Faded(fx[i]))
  }

  /** The effect tick on the animation list: each record decays by 0.03 and the
      ones whose life is no longer positive are dropped. */
  function Fade(fx: seq<CoinFX>): (r: seq<CoinFX>)
    ensures |r| <= |fx|
    ensures forall g :: g in r <==> SurvivesFade(g, fx)
  {
    var decayed := FadedAll(fx);
    assert forall g :: g in decayed <==> exists i :: 0 <= i < |fx| && g == Faded(fx[i]) by {
      forall g | g in decayed ensures exists i :: 0 <= i < |fx| && g == Faded(fx[i]) {
        var i :| 0 <= i < |decayed| && decayed[i] == g;
        assert g == Faded(fx[i]);
      }
      forall i | 0 <= i < |fx| ensures Faded(fx[i]) in decayed {
        assert decayed[i] == Faded(fx[i]);
      }
    }
    Filter(decayed, (g: CoinFX) => g.life > 0.0)
  }

  /** Every surviving decay is kept as often as it occurs and every spent one is
      dropped, in order: fading a concatenation fades each part. */
  lemma FadeExactly(fx: seq<CoinFX>, gx: seq<CoinFX>)
    ensures forall g :: multiset(Fade(fx))[g] == if g.life > 0.0 then multiset(FadedAll(fx))[g] else 0
    ensures Fade(fx + gx) == Fade(fx) + Fade(gx)
  {
    FilterCounts(FadedAll(fx), (g: CoinFX) => g.life > 0.0);
    assert FadedAll(fx + gx) == FadedAll(fx) + FadedAll(gx);
    FilterConcat(FadedAll(fx), FadedAll(gx), (g: CoinFX) => g.life > 0.0);
  }

  /** Every live record has a life in (0, 1]. */
  predicate FxLive(fx: seq<CoinFX>) {
    forall i :: 0 <= i < |fx| ==> 0.0 < fx[i].life <= 1.0
  }

  /** Decay keeps every record's life in (0, 1]. */
  lemma FadeKeepsLive(fx: seq<CoinFX>)
    requires FxLive(fx)
    ensures FxLive(Fade(fx))
  {
    var r := Fade(fx);
    forall k | 0 <= k < |r| ensures 0.0 < r[k].life <= 1.0 {
      assert r[k] in r;
    }
  }

  // ---------------------------------------------------------------------------
  // Balance and level over a pass
  // ---------------------------------------------------------------------------

  /** The balance and level after a pass: every coin taken adds one to the balance
      and then runs checkLevelUp, in the order of the coins. */
  function Credit(t: Test, cs: seq<Coin>, start: Tally): (r: Tally)
    ensures start.balance <= r.balance
    decreases |cs|
  {
    if cs == [] then start
    else
      var before := Credit(t, cs[..|cs| - 1], start);
      if Takes(t, cs[|cs| - 1]) then LevelUp(before.balance + 1, before.level) else before
  }

  /** A pass adds at least one to the balance per coin it takes (more when a
      milestone bonus is paid), and a pass that takes nothing changes neither the
      balance nor the level. */
  lemma {:induction false} CreditAtLeast(t: Test, cs: seq<Coin>, start: Tally)
    ensures Credit(t, cs, start).balance >= start.balance + Taken(t, cs)
    ensures Taken(t, cs) == 0 ==> Credit(t, cs, start) == start
    decreases |cs|
  {
    if cs != [] {
      CreditAtLeast(t, cs[..|cs| - 1], start);
    }
  }

  /** When a pass takes at least one coin from a non-negative balance, the level
      afterwards is at least 1. */
  lemma {:induction false} CreditLevel(t: Test, cs: seq<Coin>, start: Tally)
    requires 0 <= start.balance
    ensures Taken(t, cs) > 0 ==> Credit(t, cs, start).level >= 1
    decreases |cs|
  {
    if cs != [] {
      var init := cs[..|cs| - 1];
      CreditLevel(t, init, start);
      CreditAtLeast(t, init, start);
    }
  }

  /** How every summary of a pass over the first k + 1 coins extends the one over
      the first k: the state the collection loop carries from one coin to the next. */
  lemma PassExtends(t: Test, cs: seq<Coin>, k: int, start: Tally)
    requires 0 <= k < |cs|
    ensures MarkAll(t, cs[..k + 1]) == MarkAll(t, cs[..k]) + [Mark(t, cs[k])]
    ensures Taken(t, cs[..k + 1]) == Taken(t, cs[..k]) + (if Takes(t, cs[k]) then 1 else 0)
    ensures FxOf(t, cs[..k + 1]) == FxOf(t, cs[..k]) + (if Takes(t, cs[k]) then [SpawnFx(cs[k])] else [])
    ensures Credit(t, cs[..k + 1], start) ==
      var before := Credit(t, cs[..k], start);
      if Takes(t, cs[k]) then LevelUp(before.balance + 1, before.level) else before
  {
    assert cs[..k + 1][..k] == cs[..k];
  }

  /** Marking coin k in place turns the array a pass has walked up to k into the
      one it has walked up to k + 1. */
  lemma MarkInPlace(t: Test, cs: seq<Coin>, k: int, arr: seq<Coin>)
    requires 0 <= k < |cs|
    requires arr == MarkAll(t, cs[..k]) + cs[k..]
    ensures arr[k] == cs[k]
    ensures arr[k := Mark(t, cs[k])] == MarkAll(t, cs[..k + 1]) + cs[k + 1..]
    ensures !Takes(t, cs[k]) ==> arr[k := Mark(t, cs[k])] == arr
    ensures AllCollected(arr) ==> !Takes(t, cs[k])
  {
    PassExtends(t, cs, k, Tally(0, 0));
    var next := arr[k := Mark(t, cs[k])];
    assert |next| == |MarkAll(t, cs[..k + 1]) + cs[k + 1..]|;
    forall j | 0 <= j < |next| ensures next[j] == (MarkAll(t, cs[..k + 1]) + cs[k + 1..])[j] {
      if j < k {
        assert next[j] == MarkAll(t, cs[..k])[j];
      }
    }
  }

  // ---------------------------------------------------------------------------
  // A pass one coin at a time
  // ---------------------------------------------------------------------------

  /** What a pass has produced so far: the walked array, the balance and level,
      the animation list, and whether a take has left every coin collected. */
  datatype Sweep = Sweep(coins: seq<Coin>, tally: Tally, fx: seq<CoinFX>, exhausted: bool)

  /** The pass visiting coin k: a coin it takes is marked collected, credited
      through checkLevelUp and animated, and the pass notes whether that left
      every coin collected. */
  function SweepStep(t: Test, s: Sweep, k: int): (r: Sweep)
    requires 0 <= k < |s.coins|
    ensures |r.coins| == |s.coins|
    ensures (s.exhausted ==> AllCollected(s.coins)) ==> (r.exhausted ==> AllCollected(r.coins))
  {
    var c := s.coins[k];
    if Takes(t, c) then
      var next := s.coins[k := c.(collected := true)];
      Sweep(next, LevelUp(s.tally.balance + 1, s.tally.level), s.fx + [SpawnFx(c)], AllCollected(next))
    else s
  }

  /** The pass after visiting the first k coins of `cs`, in order. */
  function SweepTo(t: Test, cs: seq<Coin>, k: int, start: Tally, fx0: seq<CoinFX>): (r: Sweep)
    requires 0 <= k <= |cs|
    ensures |r.coins| == |cs|
    ensures r.exhausted ==> AllCollected(r.coins)
    decreases k
  {
    if k == 0 then Sweep(cs, start, fx0, false)
    else SweepStep(t, SweepTo(t, cs, k - 1, start, fx0), k - 1)
  }

  /** The whole-pass summaries over the first k coins: those coins marked, the
      credit and animations of the coins taken among them, and whether something
      was taken and no coin is left. */
  function PassSummary(t: Test, cs: seq<Coin>, k: int, start: Tally, fx0: seq<CoinFX>): (r: Sweep)
    requires 0 <= k <= |cs|
    ensures |r.coins| == |cs|
  {
    var arr := MarkAll(t, cs[..k]) + cs[k..];
    Sweep(arr, Credit(t, cs[..k], start), fx0 + FxOf(t, cs[..k]), Taken(t, cs[..k]) > 0 && AllCollected(arr))
  }

  /** Visiting coin k moves the summaries over k coins to those over k + 1. */
  lemma SummaryStep(t: Test, cs: seq<Coin>, k: int, start: Tally, fx0: seq<CoinFX>)
    requires 0 <= k < |cs|
    ensures SweepStep(t, PassSummary(t, cs, k, start, fx0), k) == PassSummary(t, cs, k + 1, start, fx0)
  {
    var s := PassSummary(t, cs, k, start, fx0);
    var arr := s.coins;
    PassExtends(t, cs, k, start);
    MarkInPlace(t, cs, k, arr);
    var r := SweepStep(t, s, k);
    var goal := PassSummary(t, cs, k + 1, start, fx0);
    if Takes(t, cs[k]) {
      assert r.coins == goal.coins by {
        assert arr[k := cs[k].(collected := true)] == arr[k := Mark(t, cs[k])];
      }
      assert r.fx == goal.fx by {
        assert fx0 + FxOf(t, cs[..k]) + [SpawnFx(cs[k])] == fx0 + (FxOf(t, cs[..k]) + [SpawnFx(cs[k])]);
      }
    } else {
      assert r.coins == goal.coins;
      assert r.fx == goal.fx by {
        assert FxOf(t, cs[..k]) + [] == FxOf(t, cs[..k]);
      }
    }
  }

  /** Visiting coins one at a time yields the whole-pass summaries. */
  lemma {:induction false} SweepSummary(t: Test, cs: seq<Coin>, k: int, start: Tally, fx0: seq<CoinFX>)
    requires 0 <= k <= |cs|
    ensures SweepTo(t, cs, k, start, fx0) == PassSummary(t, cs, k, start, fx0)
    decreases k
  {
    if k == 0 {
      assert cs[..0] == [] && cs[0..] == cs;
      assert MarkAll(t, []) == [];
    } else {
      SweepSummary(t, cs, k - 1, start, fx0);
      SummaryStep(t, cs, k - 1, start, fx0);
    }
  }
}
