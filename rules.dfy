/**
 * The game session as a value: the whole state the page keeps, and the effect on it of a
 * reset, of one frame, and of a key going down or up. The class in module Game performs
 * these steps in place; the lemmas here say what the steps preserve and which state
 * changes they allow.
 */
module Rules {
  import opened Levels
  import opened Physics
  import opened Coins

  datatype Phase = Playing | Win | GameOver

  /** The held-key flags. */
  datatype Keys = Keys(left: bool, right: bool, space: bool)

  /** The key codes the handlers tell apart; every other code is Other. */
  datatype Key = ArrowLeft | ArrowRight | Space | Other

  datatype Snapshot = Snapshot(
    player: Player,
    keys: Keys,
    state: Phase,
    gameTimer: real,
    winTimer: real,
    level: int,
    totalCoins: int,
    character: Character,
    coins: seq<Coin>)

  /** Length of a round, in milliseconds. */
  const GAME_DURATION: real := 30000.0
  /** How long the end-of-round screen is shown before a restart is accepted, in milliseconds. */
  const WIN_SCREEN_DURATION: real := 5000.0

  /** What holds of every state the session can reach. */
  predicate Inv(s: Snapshot)
  {
    s.level >= 1 &&
    s.totalCoins == CoinsForLevel(s.level) &&
    s.character == CharacterFor(s.level) &&
    |s.coins| == s.totalCoins &&
    PowerUpCount(s.coins) == 1 &&
    s.player.score == CollectedCount(s.coins) &&
    s.player.hasDoubleJump == PowerUpCollected(s.coins) &&
    Sound(s.player, s.character.speed) &&
    0.0 <= s.gameTimer <= GAME_DURATION &&
    s.winTimer >= 0.0 &&
    (s.state == Playing ==> s.gameTimer > 0.0 && !AllCollected(s.coins)) &&
    (s.state == Win ==> s.gameTimer > 0.0 && AllCollected(s.coins)) &&
    (s.state == GameOver ==> s.gameTimer == 0.0)
  }

  /** The number of coins the next reset lays out, for a session on its end-of-round screen. */
  function RestartCoins(s: Snapshot): int
  {
    if s.state == Win then CoinsForLevel(s.level + 1) else FIRST_LEVEL_COINS
  }

  /** The coins a reset lays out. */
  function ResetCount(s: Snapshot, nextLevel: bool): int
  {
    if nextLevel then CoinsForLevel(s.level) else FIRST_LEVEL_COINS
  }

  /** The state when the page has loaded: level one, the horse, coins kept 50 px above the spawn line. */
  function Initial(d: Draws): (s: Snapshot)
    ensures s.level == 1 && s.totalCoins == FIRST_LEVEL_COINS && s.character == ROSTER[0]
    ensures s.state == Playing && s.gameTimer == GAME_DURATION && s.winTimer == 0.0
    ensures s.player == START && s.keys == Keys(false, false, false)
  {
    var n := FIRST_LEVEL_COINS;
    Snapshot(START, Keys(false, false, false), Playing, GAME_DURATION, 0.0,
             1, n, ROSTER[0], Layout(PowerUpIndex(d.pick, n), d.coins, LOAD_CLEARANCE))
  }

  /** The page starts in a state that satisfies the invariant. */
  lemma InitialInv(d: Draws)
    requires Fits(d, FIRST_LEVEL_COINS)
    ensures Inv(Initial(d))
  {
    LayoutShape(d, FIRST_LEVEL_COINS, LOAD_CLEARANCE);
  }

  /**
   * A reset. With nextLevel the (already advanced) level is kept and its coin count and
   * character are taken; without it the game starts over at level one. The player starts
   * afresh and the coins are laid out anew; the keys and the end-of-round timer are kept.
   */
  function ResetState(s: Snapshot, nextLevel: bool, d: Draws): (r: Snapshot)
    ensures r.state == Playing && r.gameTimer == GAME_DURATION && r.player == START
    ensures r.keys == s.keys && r.winTimer == s.winTimer
  {
    var level := if nextLevel then s.level else 1;
    var n := if nextLevel then CoinsForLevel(s.level) else FIRST_LEVEL_COINS;
    var character := if nextLevel then CharacterFor(s.level) else ROSTER[0];
    s.(level := level, totalCoins := n, character := character, gameTimer := GAME_DURATION,
       player := START, coins := Layout(PowerUpIndex(d.pick, n), d.coins, RESET_CLEARANCE),
       state := Playing)
  }

  /**
   * After any reset: the level's coin count (ten, plus five per level after the first) and
   * character (the roster in turn); as many coins as that count, exactly one of them the
   * power-up, at the drawn index, double size, the others single size, none collected; and
   * the invariant.
   */
  lemma ResetInv(s: Snapshot, nextLevel: bool, d: Draws)
    requires nextLevel ==> s.level >= 1
    requires Fits(d, ResetCount(s, nextLevel)) && s.winTimer >= 0.0
    ensures var r := ResetState(s, nextLevel, d);
      var idx := PowerUpIndex(d.pick, r.totalCoins);
      (nextLevel ==> r.level == s.level && r.totalCoins == 10 + (s.level - 1) * 5 &&
                     r.character == ROSTER[(s.level - 1) % 3]) &&
      (!nextLevel ==> r.level == 1 && r.totalCoins == 10 && r.character == ROSTER[0]) &&
      Inv(r) && 0 <= idx < |r.coins| && r.player.score == 0 &&
      forall k :: 0 <= k < |r.coins| ==>
        (r.coins[k].isPowerUp <==> k == idx) && !r.coins[k].collected &&
        r.coins[k].width == r.coins[k].height == (if k == idx then 32.0 else 16.0)
  {
    LayoutShape(d, ResetCount(s, nextLevel), RESET_CLEARANCE);
  }

  /** Whether a frame on the end-of-round screen restarts the game. */
  predicate Restarts(s: Snapshot, delta: real)
  {
    s.winTimer + delta >= WIN_SCREEN_DURATION && s.keys.space
  }

  /**
   * The collection pass of a playing frame, for the player where the physics left it: every
   * overlapping uncollected coin is collected and scored, and the round is won if that took
   * the last coin.
   */
  function Collected(s: Snapshot): (r: Snapshot)
    ensures r.keys == s.keys && r.gameTimer == s.gameTimer && r.level == s.level
    ensures r.totalCoins == s.totalCoins && r.character == s.character
    ensures r.player == s.player.(hasDoubleJump := r.player.hasDoubleJump, score := r.player.score)
    ensures r.state == Win || r.state == s.state
    ensures s.state == Playing && r.state == Win ==> AllCollected(r.coins) && r.winTimer == 0.0
  {
    var p := s.player;
    var hits := Hits(p.x, p.y, s.coins);
    var coins := Sweep(p.x, p.y, s.coins);
    var won := hits > 0 && AllCollected(coins);
    s.(player := p.(hasDoubleJump := p.hasDoubleJump || GrabsPowerUp(p.x, p.y, s.coins),
                    score := p.score + hits),
       coins := coins,
       state := if won then Win else s.state,
       winTimer := if won then 0.0 else s.winTimer)
  }

  /** Movement, gravity and the collection pass of a playing frame whose timer has not run out. */
  function Play(s: Snapshot): (r: Snapshot)
    ensures r.keys == s.keys && r.gameTimer == s.gameTimer && r.level == s.level
    ensures r.totalCoins == s.totalCoins && r.character == s.character
    ensures r.state == Win || r.state == s.state
    ensures s.state == Playing && r.state == Win ==> AllCollected(r.coins) && r.winTimer == 0.0
  {
    Collected(s.(player := Move(s.player, s.keys.left, s.keys.right, s.character.speed)))
  }

  /** One frame of the game, delta milliseconds after the previous one. */
  function Frame(s: Snapshot, delta: real, d: Draws): (r: Snapshot)
    ensures r.keys == s.keys
  {
    if s.state == Playing then
      var t := s.gameTimer - delta;
      if t <= 0.0 then s.(gameTimer := 0.0, state := GameOver, winTimer := 0.0)
      else Play(s.(gameTimer := t))
    else
      var w := s.winTimer + delta;
      if w >= WIN_SCREEN_DURATION && s.keys.space then
        if s.state == Win then ResetState(s.(winTimer := w, level := s.level + 1), true, d)
        else ResetState(s.(winTimer := w, level := 1), false, d)
      else
        s.(winTimer := w)
  }

  /**
   * What one frame does: while playing, the timer falls by delta and running out ends the
   * round with nothing else changed; on the end screens only the end-of-round timer moves,
   * until a restart once 5000 ms have passed with Space held.
   */
  lemma FrameEffects(s: Snapshot, delta: real, d: Draws)
    ensures var r := Frame(s, delta, d);
      (s.state == Playing ==>
        r.gameTimer == (if s.gameTimer - delta <= 0.0 then 0.0 else s.gameTimer - delta)) &&
      (s.state == Playing && s.gameTimer - delta <= 0.0 ==>
        r == s.(gameTimer := 0.0, state := GameOver, winTimer := 0.0)) &&
      (s.state == Playing && s.gameTimer - delta > 0.0 ==>
        r == Play(s.(gameTimer := s.gameTimer - delta))) &&
      (s.state == Playing ==> (r.state == GameOver <==> s.gameTimer - delta <= 0.0)) &&
      (s.state == Playing && r.state == Win ==> AllCollected(r.coins) && r.winTimer == 0.0) &&
      (s.state != Playing ==> (r.state == Playing <==> Restarts(s, delta))) &&
      (s.state != Playing && !Restarts(s, delta) ==> r == s.(winTimer := s.winTimer + delta)) &&
      (s.state == Win && Restarts(s, delta) ==>
        r.level == s.level + 1 && r == ResetState(s.(winTimer := s.winTimer + delta, level := s.level + 1), true, d)) &&
      (s.state == GameOver && Restarts(s, delta) ==>
        r.level == 1 && r == ResetState(s.(winTimer := s.winTimer + delta, level := 1), false, d))
  {
  }

  /**
   * The keydown handler: it sets the key's flag, and Space also asks for a jump in any state.
   * Nothing but the held-key flags and, on Space, the player changes.
   */
  function Press(s: Snapshot, k: Key): (r: Snapshot)
    ensures r == s.(keys := r.keys, player := r.player)
    ensures r.keys.left == (s.keys.left || k == ArrowLeft)
    ensures r.keys.right == (s.keys.right || k == ArrowRight)
    ensures r.keys.space == (s.keys.space || k == Space)
    ensures k == Space ==> r.player == Jump(s.player)
    ensures k == Space ==> (r.player != s.player <==> s.player.jumpsRemaining > 0)
    ensures k == Space && s.player.jumpsRemaining > 0 ==>
      r.player.velocityY == JUMP_FORCE && r.player.isJumping &&
      r.player.jumpsRemaining == s.player.jumpsRemaining - 1
    ensures k != Space ==> r.player == s.player
    ensures k == Other ==> r == s
  {
    match k
    case ArrowLeft => s.(keys := s.keys.(left := true))
    case ArrowRight => s.(keys := s.keys.(right := true))
    case Space => s.(keys := s.keys.(space := true), player := Jump(s.player))
    case Other => s
  }

  /** The keyup handler: it only clears the key's flag; the other two flags and the rest of the state stay. */
  function Release(s: Snapshot, k: Key): (r: Snapshot)
    ensures r == s.(keys := r.keys)
    ensures r.keys.left == (s.keys.left && k != ArrowLeft)
    ensures r.keys.right == (s.keys.right && k != ArrowRight)
    ensures r.keys.space == (s.keys.space && k != Space)
    ensures k == Other ==> r == s
  {
    match k
    case ArrowLeft => s.(keys := s.keys.(left := false))
    case ArrowRight => s.(keys := s.keys.(right := false))
    case Space => s.(keys := s.keys.(space := false))
    case Other => s
  }

  // ----- what the steps preserve -----

  /** The collection pass keeps the score equal to the number of collected coins and the power-up flag in step. */
  lemma PlayInv(s: Snapshot)
    requires Inv(s) && s.state == Playing
    ensures Inv(Play(s))
  {
    var moved := Move(s.player, s.keys.left, s.keys.right, s.character.speed);
    var r := Play(s);
    SweepCounts(moved.x, moved.y, s.coins);
    SweepPowerUp(moved.x, moved.y, s.coins);
    if r.state == Playing && AllCollected(r.coins) {
      NoHitsNoChange(moved.x, moved.y, s.coins);
    }
  }

  lemma FrameInv(s: Snapshot, delta: real, d: Draws)
    requires Inv(s) && delta >= 0.0
    requires s.state != Playing ==> Fits(d, RestartCoins(s))
    ensures Inv(Frame(s, delta, d))
  {
    var w := s.winTimer + delta;
    if s.state == Playing && s.gameTimer - delta > 0.0 {
      PlayInv(s.(gameTimer := s.gameTimer - delta));
    } else if s.state == Win && Restarts(s, delta) {
      ResetInv(s.(winTimer := w, level := s.level + 1), true, d);
    } else if s.state == GameOver && Restarts(s, delta) {
      ResetInv(s.(winTimer := w, level := 1), false, d);
    }
  }

  lemma PressInv(s: Snapshot, k: Key)
    requires Inv(s)
    ensures Inv(Press(s, k))
  {
    if k == Space {
      JumpSound(s.player, s.character.speed);
    }
  }

  lemma ReleaseInv(s: Snapshot, k: Key)
    requires Inv(s)
    ensures Inv(Release(s, k))
  {
  }

  /** Releasing an arrow key undoes pressing it: the state is as if only the release had happened. */
  lemma ReleaseUndoesPress(s: Snapshot, k: Key)
    requires k != Space
    ensures Release(Press(s, k), k) == Release(s, k)
  {
  }

  // ----- properties of rounds -----

  /** A playing frame that does not run out of time is won exactly when every coin is then collected. */
  lemma WinExactlyWhenAllCollected(s: Snapshot, delta: real, d: Draws)
    requires Inv(s) && s.state == Playing && s.gameTimer - delta > 0.0
    ensures var r := Frame(s, delta, d);
      (r.state == Win <==> AllCollected(r.coins)) && (r.state == Win || r.state == Playing)
  {
    var t := s.(gameTimer := s.gameTimer - delta);
    var moved := Move(t.player, t.keys.left, t.keys.right, t.character.speed);
    if AllCollected(Sweep(moved.x, moved.y, t.coins)) && Hits(moved.x, moved.y, t.coins) == 0 {
      NoHitsNoChange(moved.x, moved.y, t.coins);
    }
  }

  /** A won round has every coin counted in the score. */
  lemma WonScore(s: Snapshot)
    requires Inv(s) && s.state == Win
    ensures s.player.score == s.totalCoins
  {
    AllCollectedCount(s.coins);
  }

  /** While playing, a collected coin stays collected and only its flag can change. */
  lemma PlayingKeepsCollected(s: Snapshot, delta: real, d: Draws)
    requires s.state == Playing
    ensures var r := Frame(s, delta, d);
      |r.coins| == |s.coins| &&
      forall k :: 0 <= k < |s.coins| ==>
        r.coins[k] == s.coins[k].(collected := r.coins[k].collected) &&
        (s.coins[k].collected ==> r.coins[k].collected)
  {
    var moved := Move(s.player, s.keys.left, s.keys.right, s.character.speed);
    SweepMonotone(moved.x, moved.y, s.coins);
  }

  /** Every change of phase a frame can make: Playing moves on only by timeout or by winning, and the end screens only to Playing. */
  lemma Transitions(s: Snapshot, delta: real, d: Draws)
    requires Inv(s)
    ensures var r := Frame(s, delta, d);
      (s.state == Playing && r.state == GameOver ==> r.gameTimer == 0.0) &&
      (s.state == Playing && r.state == Win ==> AllCollected(r.coins) && r.gameTimer > 0.0) &&
      (s.state == Win ==> r.state == Win || r.state == Playing) &&
      (s.state == GameOver ==> r.state == GameOver || r.state == Playing) &&
      (s.state != Playing && r.state == Playing ==> s.winTimer + delta >= WIN_SCREEN_DURATION && s.keys.space)
  {
    if s.state == Playing && s.gameTimer - delta > 0.0 {
      WinExactlyWhenAllCollected(s, delta, d);
    }
  }
}
