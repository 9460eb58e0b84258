/**
 * Coins: how a level's coins are laid out from random draws, the box-overlap test against
 * the player, the collection pass run once per playing frame, and the counts the session
 * keeps track of.
 */
module Coins {
  import opened Physics

  datatype Coin = Coin(x: real, y: real, width: real, height: real, collected: bool, isPowerUp: bool)

  /** The two random numbers drawn for one coin, in the order they are drawn: height first, then x. */
  datatype CoinDraw = CoinDraw(ry: real, rx: real)

  /** The random numbers one layout consumes: the power-up pick, then one draw per coin. */
  datatype Draws = Draws(pick: real, coins: seq<CoinDraw>)

  const COIN_WIDTH: real := 16.0
  const COIN_HEIGHT: real := 16.0
  /** Coin heights are measured upward from this line. */
  const SPAWN_LINE: real := CANVAS_HEIGHT - 100.0
  /** Height of a jump from rest, v0 * v0 / (2 g). */
  const MAX_JUMP_HEIGHT: real := (JUMP_FORCE * JUMP_FORCE) / (2.0 * GRAVITY)
  const SINGLE_JUMP_HEIGHT: real := MAX_JUMP_HEIGHT * 0.7
  /** Gap kept above the spawn line by the layout made on every reset: none. */
  const RESET_CLEARANCE: real := 0.0
  /** Gap kept above the spawn line by the layout made when the page loads. */
  const LOAD_CLEARANCE: real := 50.0

  /** A value the random source can produce: in [0, 1). */
  predicate Unit(r: real)
  {
    0.0 <= r < 1.0
  }

  /** The draws for a layout of n coins, every one in range. */
  predicate Fits(d: Draws, n: int)
  {
    Unit(d.pick) && |d.coins| == n &&
    forall k :: 0 <= k < |d.coins| ==> Unit(d.coins[k].ry) && Unit(d.coins[k].rx)
  }

  /** The power-up coin's position, floor(pick * n). */
  function PowerUpIndex(pick: real, n: int): (k: int)
    ensures Unit(pick) && n > 0 ==> 0 <= k < n
  {
    var k := (pick * n as real).Floor;
    assert Unit(pick) && n > 0 ==> pick * n as real < n as real;
    k
  }

  /** How far above SPAWN_LINE a coin may be placed. */
  function Reach(isPowerUp: bool): real
  {
    if isPowerUp then SINGLE_JUMP_HEIGHT else MAX_JUMP_HEIGHT
  }

  /** A new coin: double size when it is the power-up, placed from its draw, not yet collected. */
  function SpawnCoin(isPowerUp: bool, d: CoinDraw, clearance: real): (c: Coin)
    ensures !c.collected && c.isPowerUp == isPowerUp
    ensures c.width == (if isPowerUp then 2.0 * COIN_WIDTH else COIN_WIDTH)
    ensures c.height == (if isPowerUp then 2.0 * COIN_HEIGHT else COIN_HEIGHT)
    ensures Unit(d.rx) ==> 0.0 <= c.x < CANVAS_WIDTH - COIN_WIDTH
    ensures Unit(d.ry) && 0.0 <= clearance < SINGLE_JUMP_HEIGHT ==>
      SPAWN_LINE - Reach(isPowerUp) < c.y <= SPAWN_LINE - clearance
  {
    var size := if isPowerUp then 2.0 else 1.0;
    assert MAX_JUMP_HEIGHT == 120.0 && SINGLE_JUMP_HEIGHT == 84.0;
    Coin(Scale(d.rx, CANVAS_WIDTH - COIN_WIDTH),
         SPAWN_LINE - clearance - Scale(d.ry, Reach(isPowerUp) - clearance),
         size * COIN_WIDTH, size * COIN_HEIGHT, false, isPowerUp)
  }

  /** A draw scaled to a span, as in Math.random() * span: a positive span keeps it inside. */
  function Scale(r: real, span: real): (v: real)
    ensures Unit(r) && span > 0.0 ==> 0.0 <= v < span
  {
    var v := r * span;
    assert Unit(r) && span > 0.0 ==> (1.0 - r) * span > 0.0;
    v
  }

  /** The coins of a level, in push order: coin k is the power-up exactly when k == idx. */
  function Layout(idx: int, ds: seq<CoinDraw>, clearance: real): (r: seq<Coin>)
    ensures |r| == |ds|
  {
    if ds == [] then []
    else Layout(idx, ds[..|ds| - 1], clearance) + [SpawnCoin(|ds| - 1 == idx, ds[|ds| - 1], clearance)]
  }

  /** Strict overlap of the player's box, with its top-left corner at (px, py), and the coin's box. */
  predicate Overlaps(px: real, py: real, c: Coin)
  {
    px < c.x + c.width && px + PLAYER_WIDTH > c.x &&
    py < c.y + c.height && py + PLAYER_HEIGHT > c.y
  }

  /** Whether the collection pass picks this coin up. */
  predicate Grabs(px: real, py: real, c: Coin)
  {
    !c.collected && Overlaps(px, py, c)
  }

  /** One coin after the collection pass. */
  function Grab(px: real, py: real, c: Coin): (r: Coin)
    ensures r == c.(collected := r.collected)
    ensures r.collected <==> c.collected || Overlaps(px, py, c)
  {
    if Grabs(px, py, c) then c.(collected := true) else c
  }

  /** The collection pass over all coins, for a player that does not move during the pass. */
  function Sweep(px: real, py: real, cs: seq<Coin>): (r: seq<Coin>)
    ensures |r| == |cs|
  {
    if cs == [] then []
    else Sweep(px, py, cs[..|cs| - 1]) + [Grab(px, py, cs[|cs| - 1])]
  }

  function CollectedCount(cs: seq<Coin>): (n: nat)
    ensures n <= |cs|
  {
    if cs == [] then 0
    else CollectedCount(cs[..|cs| - 1]) + (if cs[|cs| - 1].collected then 1 else 0)
  }

  function PowerUpCount(cs: seq<Coin>): (n: nat)
    ensures n <= |cs|
  {
    if cs == [] then 0
    else PowerUpCount(cs[..|cs| - 1]) + (if cs[|cs| - 1].isPowerUp then 1 else 0)
  }

  /** How many coins the pass picks up. */
  function Hits(px: real, py: real, cs: seq<Coin>): (n: nat)
    ensures n <= |cs|
  {
    if cs == [] then 0
    else Hits(px, py, cs[..|cs| - 1]) + (if Grabs(px, py, cs[|cs| - 1]) then 1 else 0)
  }

  predicate AllCollected(cs: seq<Coin>)
  {
    forall k :: 0 <= k < |cs| ==> cs[k].collected
  }

  predicate PowerUpCollected(cs: seq<Coin>)
  {
    exists k :: 0 <= k < |cs| && cs[k].isPowerUp && cs[k].collected
  }

  /** Whether the pass picks up a power-up coin. */
  predicate GrabsPowerUp(px: real, py: real, cs: seq<Coin>)
  {
    exists k :: 0 <= k < |cs| && cs[k].isPowerUp && Grabs(px, py, cs[k])
  }

  // ----- layout -----

  lemma {:induction false} LayoutAt(idx: int, ds: seq<CoinDraw>, clearance: real, k: int)
    requires 0 <= k < |ds|
    ensures Layout(idx, ds, clearance)[k] == SpawnCoin(k == idx, ds[k], clearance)
  {
    if k < |ds| - 1 {
      LayoutAt(idx, ds[..|ds| - 1], clearance, k);
    }
  }

  /** A layout holds exactly one power-up when idx is in range, and nothing is collected. */
  lemma {:induction false} LayoutCounts(idx: int, ds: seq<CoinDraw>, clearance: real)
    ensures PowerUpCount(Layout(idx, ds, clearance)) == (if 0 <= idx < |ds| then 1 else 0)
    ensures CollectedCount(Layout(idx, ds, clearance)) == 0
  {
    if ds != [] {
      var r := Layout(idx, ds, clearance);
      LayoutCounts(idx, ds[..|ds| - 1], clearance);
      assert r[..|r| - 1] == Layout(idx, ds[..|ds| - 1], clearance);
    }
  }

  /** Every coin of a layout drawn from in-range draws: the shape a reset promises. */
  lemma LayoutShape(d: Draws, n: int, clearance: real)
    requires n > 0 && Fits(d, n) && 0.0 <= clearance < SINGLE_JUMP_HEIGHT
    ensures var idx := PowerUpIndex(d.pick, n);
      var r := Layout(idx, d.coins, clearance);
      0 <= idx < n && |r| == n &&
      PowerUpCount(r) == 1 && CollectedCount(r) == 0 && !AllCollected(r) &&
      forall k :: 0 <= k < n ==>
        (r[k].isPowerUp <==> k == idx) && !r[k].collected &&
        r[k].width == r[k].height == (if k == idx then 32.0 else 16.0) &&
        0.0 <= r[k].x < CANVAS_WIDTH - COIN_WIDTH &&
        SPAWN_LINE - Reach(k == idx) < r[k].y <= SPAWN_LINE - clearance
  {
    var idx := PowerUpIndex(d.pick, n);
    var r := Layout(idx, d.coins, clearance);
    LayoutCounts(idx, d.coins, clearance);
    forall k | 0 <= k < n
      ensures (r[k].isPowerUp <==> k == idx) && !r[k].collected &&
        r[k].width == r[k].height == (if k == idx then 32.0 else 16.0) &&
        0.0 <= r[k].x < CANVAS_WIDTH - COIN_WIDTH &&
        SPAWN_LINE - Reach(k == idx) < r[k].y <= SPAWN_LINE - clearance
    {
      LayoutAt(idx, d.coins, clearance, k);
    }
    assert !r[0].collected;
  }

  /** With no coins picked up, every coin has been collected exactly when the count says so. */
  lemma {:induction false} AllCollectedCount(cs: seq<Coin>)
    ensures AllCollected(cs) <==> CollectedCount(cs) == |cs|
  {
    if cs != [] {
      var init := cs[..|cs| - 1];
      AllCollectedCount(init);
      if AllCollected(cs) {
        assert AllCollected(init) by {
          forall k | 0 <= k < |init| ensures init[k].collected { assert init[k] == cs[k]; }
        }
      } else if CollectedCount(cs) == |cs| {
        assert cs[|cs| - 1].collected && CollectedCount(init) == |init|;
        forall k | 0 <= k < |cs| ensures cs[k].collected {
          if k < |init| { assert cs[k] == init[k]; }
        }
        assert false;
      }
    }
  }

  /** A power-up count of one means some coin, and any coin, that is a power-up is the only one. */
  lemma {:induction false} PowerUpCountOne(cs: seq<Coin>, i: int, j: int)
    requires PowerUpCount(cs) == 1
    requires 0 <= i < |cs| && 0 <= j < |cs| && cs[i].isPowerUp && cs[j].isPowerUp
    ensures i == j
  {
    var init := cs[..|cs| - 1];
    if i < |cs| - 1 && j < |cs| - 1 {
      assert init[i] == cs[i] && init[j] == cs[j];
      PowerUpPositive(init, i);
      PowerUpCountOne(init, i, j);
    } else if i != j {
      var other := if i < |cs| - 1 then i else j;
      assert init[other] == cs[other];
      PowerUpPositive(init, other);
    }
  }

  lemma {:induction false} PowerUpPositive(cs: seq<Coin>, i: int)
    requires 0 <= i < |cs| && cs[i].isPowerUp
    ensures PowerUpCount(cs) >= 1
  {
    var init := cs[..|cs| - 1];
    if i < |cs| - 1 {
      assert init[i] == cs[i];
      PowerUpPositive(init, i);
    }
  }

  // ----- the collection pass -----

  lemma {:induction false} SweepAt(px: real, py: real, cs: seq<Coin>, k: int)
    requires 0 <= k < |cs|
    ensures Sweep(px, py, cs)[k] == Grab(px, py, cs[k])
  {
    if k < |cs| - 1 {
      SweepAt(px, py, cs[..|cs| - 1], k);
    }
  }

  /** The pass collects exactly Hits more coins and never changes which coins are power-ups. */
  lemma {:induction false} SweepCounts(px: real, py: real, cs: seq<Coin>)
    ensures CollectedCount(Sweep(px, py, cs)) == CollectedCount(cs) + Hits(px, py, cs)
    ensures PowerUpCount(Sweep(px, py, cs)) == PowerUpCount(cs)
  {
    if cs != [] {
      var r := Sweep(px, py, cs);
      SweepCounts(px, py, cs[..|cs| - 1]);
      assert r[..|r| - 1] == Sweep(px, py, cs[..|cs| - 1]);
    }
  }

  /** Coins only go from uncollected to collected, and only an overlapping one does. */
  lemma SweepMonotone(px: real, py: real, cs: seq<Coin>)
    ensures var r := Sweep(px, py, cs);
      forall k :: 0 <= k < |cs| ==>
        r[k] == cs[k].(collected := r[k].collected) &&
        (cs[k].collected ==> r[k].collected) &&
        (r[k].collected && !cs[k].collected ==> Overlaps(px, py, cs[k]))
  {
    forall k | 0 <= k < |cs| ensures Sweep(px, py, cs)[k] == Grab(px, py, cs[k]) {
      SweepAt(px, py, cs, k);
    }
  }

  /** Running the pass again from the same place changes nothing: a collected coin is never counted twice. */
  lemma SweepIdempotent(px: real, py: real, cs: seq<Coin>)
    ensures Sweep(px, py, Sweep(px, py, cs)) == Sweep(px, py, cs)
    ensures Hits(px, py, Sweep(px, py, cs)) == 0
  {
    var r := Sweep(px, py, cs);
    forall k | 0 <= k < |r| ensures Sweep(px, py, r)[k] == r[k] {
      SweepAt(px, py, cs, k);
      SweepAt(px, py, r, k);
    }
    SweepCounts(px, py, r);
    SweepCounts(px, py, cs);
  }

  /** After the pass, the power-up is collected exactly when it was before or the pass picked it up. */
  lemma SweepPowerUp(px: real, py: real, cs: seq<Coin>)
    ensures PowerUpCollected(Sweep(px, py, cs)) <==> PowerUpCollected(cs) || GrabsPowerUp(px, py, cs)
  {
    var r := Sweep(px, py, cs);
    forall k | 0 <= k < |cs| ensures r[k] == Grab(px, py, cs[k]) {
      SweepAt(px, py, cs, k);
    }
  }

  /** How the pass over the first i + 1 coins extends the pass over the first i. */
  lemma SweepStep(px: real, py: real, cs: seq<Coin>, i: int)
    requires 0 <= i < |cs|
    ensures Hits(px, py, cs[..i + 1]) == Hits(px, py, cs[..i]) + (if Grabs(px, py, cs[i]) then 1 else 0)
    ensures GrabsPowerUp(px, py, cs[..i + 1]) <==>
      GrabsPowerUp(px, py, cs[..i]) || (cs[i].isPowerUp && Grabs(px, py, cs[i]))
  {
    assert cs[..i + 1][..i] == cs[..i];
    if GrabsPowerUp(px, py, cs[..i + 1]) && !(cs[i].isPowerUp && Grabs(px, py, cs[i])) {
      var k :| 0 <= k < i + 1 && cs[..i + 1][k].isPowerUp && Grabs(px, py, cs[..i + 1][k]);
      assert cs[..i][k] == cs[k];
    }
    if GrabsPowerUp(px, py, cs[..i]) {
      var k :| 0 <= k < i && cs[..i][k].isPowerUp && Grabs(px, py, cs[..i][k]);
      assert cs[..i + 1][k] == cs[k];
    }
  }

  /** The pass is the coin-by-coin Grab. */
  lemma SweepPointwise(px: real, py: real, cs: seq<Coin>, r: seq<Coin>)
    requires |r| == |cs|
    requires forall k :: 0 <= k < |cs| ==> r[k] == Grab(px, py, cs[k])
    ensures r == Sweep(px, py, cs)
  {
    forall k | 0 <= k < |cs| ensures Sweep(px, py, cs)[k] == r[k] {
      SweepAt(px, py, cs, k);
    }
  }

  /** A pass that picks nothing up leaves the coins as they were. */
  lemma {:induction false} NoHitsNoChange(px: real, py: real, cs: seq<Coin>)
    requires Hits(px, py, cs) == 0
    ensures Sweep(px, py, cs) == cs
  {
    if cs != [] {
      NoHitsNoChange(px, py, cs[..|cs| - 1]);
      assert cs == cs[..|cs| - 1] + [cs[|cs| - 1]];
    }
  }

  // ----- the overlap test -----

  predicate Inside(u: real, v: real, left: real, top: real, width: real, height: real)
  {
    left < u < left + width && top < v < top + height
  }

  function Max(a: real, b: real): real { if a < b then b else a }
  function Min(a: real, b: real): real { if a < b then a else b }

  /** The overlap test holds exactly when the two open boxes share a point. */
  lemma OverlapsIffSharedPoint(px: real, py: real, c: Coin)
    requires c.width > 0.0 && c.height > 0.0
    ensures Overlaps(px, py, c) <==>
      exists u: real, v: real ::
        Inside(u, v, px, py, PLAYER_WIDTH, PLAYER_HEIGHT) && Inside(u, v, c.x, c.y, c.width, c.height)
  {
    if Overlaps(px, py, c) {
      var u := (Max(px, c.x) + Min(px + PLAYER_WIDTH, c.x + c.width)) / 2.0;
      var v := (Max(py, c.y) + Min(py + PLAYER_HEIGHT, c.y + c.height)) / 2.0;
      assert Inside(u, v, px, py, PLAYER_WIDTH, PLAYER_HEIGHT) && Inside(u, v, c.x, c.y, c.width, c.height);
    }
  }
  // ----- what one jump reaches -----

  /**
   * Some frame of a jump, from frame n up to the top at frame 20, puts the player's top edge
   * strictly inside (top, bottom), given that the arc starts at or below bottom, has risen
   * above it by frame 20, and the window is wider than one frame's rise.
   */
  lemma {:induction false} FirstFrameInside(n: nat, top: real, bottom: real) returns (m: nat)
    requires n <= 20 && JumpTop(n) >= bottom && JumpTop(20) < bottom && bottom - top > 12.0
    ensures n < m <= 20 && top < JumpTop(m) < bottom
    decreases 20 - n
  {
    assert JumpTop(n + 1) == JumpTop(n) + JUMP_FORCE + GRAVITY * (n + 1) as real;
    if JumpTop(n + 1) < bottom {
      m := n + 1;
    } else {
      m := FirstFrameInside(n + 1, top, bottom);
    }
  }

  /**
   * The power-up of any layout is within one jump: a player at rest on the ground below it
   * (the boxes overlapping horizontally) who jumps once and holds no key overlaps it at some
   * frame on the way up.
   */
  lemma PowerUpInReach(p: Player, d: CoinDraw, clearance: real)
    requires p.y == GROUND && p.velocityY == 0.0 && p.jumpsRemaining > 0
    requires Unit(d.ry) && 0.0 <= clearance < SINGLE_JUMP_HEIGHT
    requires var c := SpawnCoin(true, d, clearance); p.x < c.x + c.width && p.x + PLAYER_WIDTH > c.x
    ensures exists n: nat ::
              0 < n <= 20 && Overlaps(Rest(Jump(p), n).x, Rest(Jump(p), n).y, SpawnCoin(true, d, clearance))
  {
    var c := SpawnCoin(true, d, clearance);
    ArcPeak(0);
    var n := FirstFrameInside(0, c.y - PLAYER_HEIGHT, c.y + c.height);
    JumpArc(p, n);
    assert Overlaps(Rest(Jump(p), n).x, Rest(Jump(p), n).y, c);
  }

  /**
   * A coin lying wholly above y = 236 is out of reach of one jump from the ground: no frame of
   * the jump, until the player lands again, overlaps it. A regular coin laid out at reset
   * with a height draw of 2/3 or more is such a coin.
   */
  lemma AboveOneJump(p: Player, n: nat, c: Coin)
    requires p.y == GROUND && p.velocityY == 0.0 && p.jumpsRemaining > 0 && n <= 39
    requires c.y + c.height <= GROUND - 114.0
    ensures var q := Rest(Jump(p), n); !Overlaps(q.x, q.y, c)
  {
    JumpArc(p, n);
    ArcPeak(n);
  }

  /**
   * The bound of AboveOneJump is for jumps from the ground. Every reset leaves the player
   * 50 px above it, at START, and a jump from there before landing rises to y = 186: at frame
   * 20 it overlaps a regular coin drawn near the top of its band, above y = 236.
   */
  lemma StartJumpReachesHigher()
    ensures Rest(Jump(START), 20).y == GROUND - 164.0
    ensures var c := SpawnCoin(false, CoinDraw(0.99, 50.0 / 784.0), RESET_CLEARANCE);
      c.y + c.height <= GROUND - 114.0 && Overlaps(Rest(Jump(START), 20).x, Rest(Jump(START), 20).y, c)
  {
    JumpArc(START, 20);
  }

  /** Regular coins do get laid out above one jump's reach: the top third of their band is. */
  lemma RegularAboveOneJump(d: CoinDraw)
    requires 2.0 / 3.0 <= d.ry < 1.0
    ensures var c := SpawnCoin(false, d, RESET_CLEARANCE); c.y + c.height <= GROUND - 114.0
  {
    assert MAX_JUMP_HEIGHT == 120.0;
  }
}
