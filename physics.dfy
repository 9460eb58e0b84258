/** The player's body on the playfield: horizontal walking, gravity with the ground clamp, and jumping. */
module Physics {

  const CANVAS_WIDTH: real := 800.0
  const CANVAS_HEIGHT: real := 400.0
  const PLAYER_WIDTH: real := 50.0
  const PLAYER_HEIGHT: real := 50.0
  const JUMP_FORCE: real := -12.0
  const GRAVITY: real := 0.6
  /** The largest y the player's top edge may have: the player stands on the canvas floor. */
  const GROUND: real := CANVAS_HEIGHT - PLAYER_HEIGHT
  /** Walking right is allowed only while x is below this. */
  const RIGHT_EDGE: real := CANVAS_WIDTH - PLAYER_WIDTH
  const START_X: real := 50.0
  const START_Y: real := CANVAS_HEIGHT - 100.0

  /** The mutable fields of the player record (width, height, jump force and gravity are the constants above). */
  datatype Player = Player(
    x: real,
    y: real,
    velocityY: real,
    isJumping: bool,
    jumpsRemaining: int,
    hasDoubleJump: bool,
    score: int)

  /** The player as every reset leaves it. */
  const START: Player := Player(START_X, START_Y, 0.0, false, 1, false, 0)

  /** What every reachable player satisfies for a character of the given speed. */
  predicate Sound(p: Player, speed: real)
  {
    0 <= p.jumpsRemaining <= 2 &&
    (!p.hasDoubleJump ==> p.jumpsRemaining <= 1) &&
    p.y <= GROUND &&
    -speed < p.x < RIGHT_EDGE + speed
  }

  /** One frame of walking: first left (only while x > 0), then right (only while x < RIGHT_EDGE). */
  function Walk(x: real, left: bool, right: bool, speed: real): (nx: real)
    ensures speed > 0.0 ==> (nx == x - speed || nx == x || nx == x + speed)
    ensures speed > 0.0 && nx == x - speed ==> left && x > 0.0
    ensures speed > 0.0 && nx == x + speed ==> right && x < RIGHT_EDGE
    ensures !left && !right ==> nx == x
    ensures left && !right && x > 0.0 ==> nx == x - speed
    ensures right && !left && x < RIGHT_EDGE ==> nx == x + speed
    ensures speed > 0.0 && -speed < x < RIGHT_EDGE + speed ==> -speed < nx < RIGHT_EDGE + speed
  {
    var afterLeft := if left && x > 0.0 then x - speed else x;
    if right && afterLeft < RIGHT_EDGE then afterLeft + speed else afterLeft
  }

  /** Whether this frame's gravity step would carry the player below the ground line. */
  predicate Lands(p: Player)
  {
    p.y + p.velocityY + GRAVITY > GROUND
  }

  /** One frame of gravity followed by the ground clamp. */
  function Fall(p: Player): (q: Player)
    ensures q.y <= GROUND
    ensures q.x == p.x && q.hasDoubleJump == p.hasDoubleJump && q.score == p.score
    ensures Lands(p) ==>
      q.y == GROUND && q.velocityY == 0.0 && !q.isJumping &&
      q.jumpsRemaining == (if p.hasDoubleJump then 2 else 1)
    ensures !Lands(p) ==>
      q.velocityY == p.velocityY + GRAVITY && q.y == p.y + q.velocityY &&
      q.isJumping == p.isJumping && q.jumpsRemaining == p.jumpsRemaining
  {
    var v := p.velocityY + GRAVITY;
    var y := p.y + v;
    if y > GROUND then
      p.(y := GROUND, velocityY := 0.0, isJumping := false,
         jumpsRemaining := if p.hasDoubleJump then 2 else 1)
    else
      p.(velocityY := v, y := y)
  }

  /** The physics of one playing frame: walk, then fall. */
  function Move(p: Player, left: bool, right: bool, speed: real): (q: Player)
    ensures q.hasDoubleJump == p.hasDoubleJump && q.score == p.score
    ensures speed > 0.0 && Sound(p, speed) ==> Sound(q, speed)
  {
    Fall(p.(x := Walk(p.x, left, right, speed)))
  }

  /** A jump request: honoured exactly when a jump is left, and then it uses up one. */
  function Jump(p: Player): (q: Player)
    ensures q != p <==> p.jumpsRemaining > 0
    ensures p.jumpsRemaining > 0 ==>
      q == p.(velocityY := JUMP_FORCE, isJumping := true, jumpsRemaining := p.jumpsRemaining - 1)
    ensures p.jumpsRemaining >= 0 ==> q.jumpsRemaining >= 0
  {
    if p.jumpsRemaining > 0 then
      p.(velocityY := JUMP_FORCE, isJumping := true, jumpsRemaining := p.jumpsRemaining - 1)
    else
      p
  }

  /** Jumping keeps a sound player sound whatever the character's speed. */
  lemma JumpSound(p: Player, speed: real)
    requires Sound(p, speed)
    ensures Sound(Jump(p), speed)
  {
  }

  /**
   * A player left alone on the ground stays there: once landed with no velocity, every
   * later frame without a jump lands again with the same jump allowance.
   */
  lemma {:induction false} RestsOnGround(p: Player, frames: nat)
    requires p.y == GROUND && p.velocityY == 0.0
    ensures Rest(p, frames) == p.(isJumping := if frames == 0 then p.isJumping else false,
                                   jumpsRemaining := if frames == 0 then p.jumpsRemaining
                                                     else if p.hasDoubleJump then 2 else 1)
  {
    if frames > 0 {
      RestsOnGround(p, frames - 1);
    }
  }

  /** Repeated falling with no key held. */
  function Rest(p: Player, frames: nat): (q: Player)
    ensures q.x == p.x && q.score == p.score && q.hasDoubleJump == p.hasDoubleJump
  {
    if frames == 0 then p else Fall(Rest(p, frames - 1))
  }
  // ----- the arc of one jump -----

  /** The player's top edge n frames into a jump from rest on the ground: 350 - 12n + 0.3 n (n + 1). */
  function JumpTop(n: nat): real
  {
    GROUND + JUMP_FORCE * n as real + GRAVITY * (n * (n + 1)) as real / 2.0
  }

  /** For the first 39 frames of a jump the player stays at or above the ground line. */
  lemma ArcAboveGround(n: nat)
    requires n <= 39
    ensures JumpTop(n) <= GROUND
  {
    assert n * (n + 1) <= n * 40 by {
      assert n * (n + 1) == n * 40 - n * (39 - n);
      assert n * (39 - n) >= 0;
    }
  }

  /** The top of a jump: the player's top edge never rises above y = 236 and reaches it at frame 20. */
  lemma ArcPeak(n: nat)
    requires n <= 39
    ensures JumpTop(n) >= GROUND - 114.0
    ensures JumpTop(20) == GROUND - 114.0
  {
    assert n * (n + 1) - 40 * n + 380 == (n - 19) * (n - 20);
    if n <= 19 {
      assert (19 - n) * (20 - n) >= 0;
    } else {
      assert (n - 19) * (n - 20) >= 0;
    }
  }

  /**
   * From rest at height y (on the ground or above it), a jump followed by n frames with no
   * key held follows the arc, shifted up by the player's height above the ground: the top
   * edge is JumpTop(n) - (GROUND - y) and the velocity -12 + 0.6 n, for as long as the
   * player has not landed again.
   */
  lemma {:induction false} JumpArc(p: Player, n: nat)
    requires p.y <= GROUND && p.velocityY == 0.0 && p.jumpsRemaining > 0 && n <= 39
    ensures Rest(Jump(p), n).y == JumpTop(n) - (GROUND - p.y)
    ensures Rest(Jump(p), n).velocityY == JUMP_FORCE + GRAVITY * n as real
  {
    if n > 0 {
      JumpArc(p, n - 1);
      ArcAboveGround(n);
      var q := Rest(Jump(p), n - 1);
      assert q.y + q.velocityY + GRAVITY == JumpTop(n) - (GROUND - p.y);
    }
  }
}
