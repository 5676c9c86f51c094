/** The player's avatar: its fixed size, the eased movement step, and the
    customisation rules for body colour, accessories and emotion. */
module Avatar {
  import opened Seqs
  import opened Ledger

  const PLAYER_WIDTH: real := 30.0
  const PLAYER_HEIGHT: real := 40.0
  /** `player.speed`, multiplied by `gameState.speed`. */
  const BASE_SPEED: real := 4.0
  /** The fraction of the way to the target covered in one step. */
  const EASING: real := 0.3

  // ---------------------------------------------------------------------------
  // Movement
  // ---------------------------------------------------------------------------

  /** The held movement keys (W up, A left, S down, D right). */
  datatype Keys = Keys(w: bool, a: bool, s: bool, d: bool)

  /** One axis of movePlayer: `back` moves towards 0 when the current position is
      above 0, `fwd` moves towards `hi` when the current position is below `hi`,
      and the position then eases 30% of the way to the target. */
  function AxisStep(p: real, hi: real, back: bool, fwd: bool, speed: real): (r: real)
    ensures 0.0 < speed ==> (r < p <==> back && p > 0.0 && !(fwd && p < hi))
    ensures 0.0 < speed ==> (r > p <==> fwd && p < hi && !(back && p > 0.0))
    ensures !back && !fwd ==> r == p
  {
    var target := p - (if back && p > 0.0 then speed else 0.0) + (if fwd && p < hi then speed else 0.0);
    p + (target - p) * EASING
  }

  /** The band the player stays in: the canvas widened on each side by one eased
      step. */
  predicate Near(p: real, hi: real, speed: real) {
    -EASING * speed <= p <= hi + EASING * speed
  }

  /** A step never leaves the band, also when the speed has grown since the
      position was last inside it. */
  lemma StepStaysNear(p: real, hi: real, back: bool, fwd: bool, speed: real, speed': real)
    requires 0.0 <= hi && 0.0 <= speed <= speed'
    requires Near(p, hi, speed)
    ensures Near(AxisStep(p, hi, back, fwd, speed'), hi, speed')
  {
  }

  /** The edge test looks at the current position, not the target, so a step
      from just inside the canvas ends outside it. */
  lemma NotClampedToCanvas()
    ensures AxisStep(1.0, 770.0, true, false, BASE_SPEED) < 0.0
    ensures AxisStep(769.0, 770.0, false, true, BASE_SPEED) > 770.0
  {
  }

  /** A step moves by exactly 30% of the speed, or not at all, and never by more. */
  lemma StepSize(p: real, hi: real, back: bool, fwd: bool, speed: real)
    requires 0.0 <= speed
    ensures var q := AxisStep(p, hi, back, fwd, speed);
      q == p || q == p - EASING * speed || q == p + EASING * speed
  {
  }

  // ---------------------------------------------------------------------------
  // Body colour
  // ---------------------------------------------------------------------------

  const RAINBOW := "rainbow"
  const DARK_MATTER := "darkmatter"
  const DEFAULT_COLOR := "#4CAF50"

  /** The part of the state a colour click touches. */
  datatype Look = Look(balance: int, rainbow: bool, darkMatter: bool, bodyColor: string)

  /** A click on a colour: the two special colours are unlocked on first pick when
      affordable (and then selected); a locked special colour that cannot be
      afforded is ignored; any other colour is simply selected. */
  function PickColour(l: Look, color: string): (r: Look)
    ensures color != RAINBOW && color != DARK_MATTER ==> r == l.(bodyColor := color)
    ensures color == RAINBOW && l.rainbow ==> r == l.(bodyColor := color)
    ensures color == DARK_MATTER && l.darkMatter ==> r == l.(bodyColor := color)
    ensures color == RAINBOW && !l.rainbow && l.balance < RAINBOW_COST ==> r == l
    ensures color == DARK_MATTER && !l.darkMatter && l.balance < DARK_MATTER_COST ==> r == l
    ensures color == RAINBOW && !l.rainbow && l.balance >= RAINBOW_COST ==>
      r == Look(l.balance - RAINBOW_COST, true, l.darkMatter, RAINBOW)
    ensures color == DARK_MATTER && !l.darkMatter && l.balance >= DARK_MATTER_COST ==>
      r == Look(l.balance - DARK_MATTER_COST, l.rainbow, true, DARK_MATTER)
    ensures l.rainbow ==> r.rainbow
    ensures l.darkMatter ==> r.darkMatter
    ensures r.balance != l.balance ==>
      || (color == RAINBOW && !l.rainbow && r.rainbow && r.balance == l.balance - RAINBOW_COST)
      || (color == DARK_MATTER && !l.darkMatter && r.darkMatter && r.balance == l.balance - DARK_MATTER_COST)
    ensures 0 <= l.balance ==> 0 <= r.balance
    ensures r.bodyColor == l.bodyColor || r.bodyColor == color
  {
    if color == RAINBOW then
      var u := Unlock(l.rainbow, l.balance, RAINBOW_COST);
      if u.owned then Look(u.balance, true, l.darkMatter, color) else l
    else if color == DARK_MATTER then
      var u := Unlock(l.darkMatter, l.balance, DARK_MATTER_COST);
      if u.owned then Look(u.balance, l.rainbow, true, color) else l
    else
      l.(bodyColor := color)
  }

  // ---------------------------------------------------------------------------
  // Accessories
  // ---------------------------------------------------------------------------

  const NO_ACCESSORY := "none"
  const MAX_ACCESSORIES := 3

  /** The shape of the accessory list: at most three, no repeats, no "none". */
  predicate Wardrobe(list: seq<string>) {
    |list| <= MAX_ACCESSORIES && NoDups(list) && NO_ACCESSORY !in list
  }

  /** A click on an accessory: "none" clears the list, a worn accessory is taken
      off, and another one is put on only while fewer than three are worn. */
  function Toggle(list: seq<string>, a: string): (r: seq<string>)
    ensures a == NO_ACCESSORY ==> r == []
    ensures a != NO_ACCESSORY && a in list && NoDups(list) ==>
      |r| == |list| - 1 && forall b :: b in r <==> b in list && b != a
    ensures a != NO_ACCESSORY && a !in list ==>
      r == if |list| < MAX_ACCESSORIES then list + [a] else list
    ensures Wardrobe(list) ==> Wardrobe(r)
  {
    if a == NO_ACCESSORY then []
    else
      var index := IndexOf(list, a);
      if index > -1 then
        RemovedAt(list, index)
      else if |list| < MAX_ACCESSORIES then list + [a]
      else list
  }

  /** Taking off a worn accessory splices out its first occurrence, so the
      others keep their order. */
  lemma TakeOffKeepsOrder(list: seq<string>, a: string)
    requires a != NO_ACCESSORY && a in list
    ensures exists j ::
      && 0 <= j < |list| && list[j] == a && a !in list[..j]
      && Toggle(list, a) == list[..j] + list[j + 1..]
  {
    var j := IndexOf(list, a);
    assert Toggle(list, a) == RemovedAt(list, j);
  }

  /** `list` with the element at `index` spliced out. */
  function RemovedAt(list: seq<string>, index: int): (r: seq<string>)
    requires 0 <= index < |list|
    ensures |r| == |list| - 1
    ensures NoDups(list) ==> NoDups(r) && forall b :: b in r <==> b in list && b != list[index]
    ensures forall b :: b in r ==> b in list
    ensures forall k :: 0 <= k < |r| ==> r[k] == list[if k < index then k else k + 1]
  {
    var r := list[..index] + list[index + 1..];
    assert forall k :: 0 <= k < |r| ==> r[k] == list[if k < index then k else k + 1];
    r
  }
}
