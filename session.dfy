/**
 * The running game: the page's module-level variables, the player record and the held-key
 * record, kept as the fields of one Session object and changed in place by the reset, the
 * per-frame update and the two key handlers. Each method is proved to have the effect the
 * matching step of module Rules describes, and the public ones to keep Rules.Inv.
 */
module Game {
  import opened Levels
  import opened Physics
  import opened Coins
  import opened Rules

  class Session {
    /** The player record; the source updates it one field at a time. */
    var player: Player
    /** The held-key flags. */
    var keys: Keys
    var state: Phase
    var gameTimer: real
    var winTimer: real
    var currentLevel: int
    var totalCoins: int
    var currentCharacter: Character
    var coins: seq<Coin>

    /** The whole state of the session as a value. */
    function Snap(): Snapshot
      reads this
    {
      Snapshot(player, keys, state, gameTimer, winTimer, currentLevel, totalCoins,
               currentCharacter, coins)
    }

    predicate Valid()
      reads this
    {
      Inv(Snap())
    }

    /** The state once the page has loaded, with the coins laid out 50 px clear of the spawn line. */
    constructor (d: Draws)
      requires Fits(d, FIRST_LEVEL_COINS)
      ensures Snap() == Initial(d) && Valid()
    {
      InitialInv(d);
      var laid := LayCoins(FIRST_LEVEL_COINS, d, LOAD_CLEARANCE);
      player := START;
      keys := Keys(false, false, false);
      state, gameTimer, winTimer := Playing, GAME_DURATION, 0.0;
      currentLevel, totalCoins, currentCharacter := 1, FIRST_LEVEL_COINS, ROSTER[0];
      coins := laid;
    }

    /**
     * The reset. With nextLevel the level must already have been advanced; without it the
     * game goes back to level one. The coins are rebuilt one push at a time.
     */
    method Reset(nextLevel: bool, d: Draws)
      requires Fits(d, ResetCount(Snap(), nextLevel))
      modifies this
      ensures Snap() == ResetState(old(Snap()), nextLevel, d)
    {
      if nextLevel {
        totalCoins := CoinsForLevel(currentLevel);
        currentCharacter := CharacterFor(currentLevel);
      } else {
        currentLevel := 1;
        totalCoins := FIRST_LEVEL_COINS;
        currentCharacter := ROSTER[0];
      }
      gameTimer := GAME_DURATION;
      player := player.(x := START_X, y := START_Y, velocityY := 0.0, isJumping := false,
                        jumpsRemaining := 1, hasDoubleJump := false, score := 0);
      coins := LayCoins(totalCoins, d, RESET_CLEARANCE);
      state := Playing;
    }

    /** Lays out n coins, one push at a time, from the draws of d. */
    static method LayCoins(n: int, d: Draws, clearance: real) returns (laid: seq<Coin>)
      requires |d.coins| == n
      ensures laid == Layout(PowerUpIndex(d.pick, n), d.coins, clearance)
    {
      var powerUpIndex := PowerUpIndex(d.pick, n);
      laid := [];
      var i := 0;
      while i < n
        invariant 0 <= i <= n
        invariant laid == Layout(powerUpIndex, d.coins[..i], clearance)
      {
        assert d.coins[..i + 1][..i] == d.coins[..i];
        laid := laid + [SpawnCoin(i == powerUpIndex, d.coins[i], clearance)];
        i := i + 1;
      }
      assert d.coins[..i] == d.coins;
    }

    /**
     * One frame, delta milliseconds after the previous one. On the end-of-round screens d
     * supplies the random numbers a restart would consume.
     */
    method Update(delta: real, d: Draws)
      requires Valid() && delta >= 0.0
      requires state != Playing ==> Fits(d, RestartCoins(Snap()))
      modifies this
      ensures Snap() == Frame(old(Snap()), delta, d)
      ensures Valid()
    {
      ghost var s0 := Snap();
      FrameInv(s0, delta, d);
      FrameEffects(s0, delta, d);

      if state == Playing {
        gameTimer := gameTimer - delta;
        if gameTimer <= 0.0 {
          gameTimer := 0.0;
          state := GameOver;
          winTimer := 0.0;
          return;
        }
      }

      if state == Win || state == GameOver {
        EndScreen(delta, d);
        return;
      }

      PlayFrame();
    }

    /**
     * A frame on an end-of-round screen: the screen's timer runs on, and once 5000 ms have
     * passed with Space held the game restarts, on the next level after a win and on level
     * one after a timeout.
     */
    method EndScreen(delta: real, d: Draws)
      requires state != Playing
      requires Fits(d, RestartCoins(Snap()))
      modifies this
      ensures Snap() == Frame(old(Snap()), delta, d)
    {
      FrameEffects(Snap(), delta, d);
      winTimer := winTimer + delta;
      if winTimer >= WIN_SCREEN_DURATION && keys.space {
        if state == Win {
          currentLevel := currentLevel + 1;
          Reset(true, d);
        } else {
          currentLevel := 1;
          Reset(false, d);
        }
      }
    }

    /** The rest of a playing frame: walking, gravity and the collection pass. */
    method PlayFrame()
      requires state == Playing
      modifies this
      ensures Snap() == Play(old(Snap()))
    {
      Walk();
      Fall();
      CollectCoins();
    }

    /** The horizontal move of a playing frame. */
    method Walk()
      modifies this`player
      ensures player == old(player).(x := Physics.Walk(old(player.x), keys.left, keys.right,
                                                        currentCharacter.speed))
    {
      if keys.left && player.x > 0.0 {
        player := player.(x := player.x - currentCharacter.speed);
      }
      if keys.right && player.x < RIGHT_EDGE {
        player := player.(x := player.x + currentCharacter.speed);
      }
    }

    /** Gravity and the ground clamp of a playing frame. */
    method Fall()
      modifies this`player
      ensures player == Physics.Fall(old(player))
    {
      player := player.(velocityY := player.velocityY + GRAVITY);
      player := player.(y := player.y + player.velocityY);
      if player.y > GROUND {
        player := player.(y := GROUND, velocityY := 0.0, isJumping := false,
                          jumpsRemaining := if player.hasDoubleJump then 2 else 1);
      }
    }

    /**
     * The collection pass of a playing frame: every coin in turn goes through Visit, and the
     * player does not move meanwhile. A win can only come from the pass's last grab.
     */
    method CollectCoins()
      modifies this`coins, this`player, this`state, this`winTimer
      ensures var p, c0 := old(player), old(coins);
        var hits := Hits(p.x, p.y, c0);
        var won := hits > 0 && AllCollected(coins);
        coins == Sweep(p.x, p.y, c0) &&
        player == p.(score := p.score + hits,
                     hasDoubleJump := p.hasDoubleJump || GrabsPowerUp(p.x, p.y, c0)) &&
        state == (if won then Win else old(state)) && winTimer == (if won then 0.0 else old(winTimer))
    {
      ghost var state0, winTimer0 := state, winTimer;
      ghost var c0 := coins;
      ghost var p0 := player;
      var i := 0;
      while i < |coins|
        invariant 0 <= i <= |coins| == |c0|
        invariant forall k :: 0 <= k < |c0| ==>
          coins[k] == if k < i then Grab(p0.x, p0.y, c0[k]) else c0[k]
        invariant player == p0.(score := p0.score + Hits(p0.x, p0.y, c0[..i]),
                                hasDoubleJump := p0.hasDoubleJump || GrabsPowerUp(p0.x, p0.y, c0[..i]))
        invariant var won := Hits(p0.x, p0.y, c0[..i]) > 0 && AllCollected(coins);
          state == (if won then Win else state0) && winTimer == (if won then 0.0 else winTimer0)
      {
        SweepStep(p0.x, p0.y, c0, i);
        ghost var before := coins;
        Visit(i);
        assert Grabs(p0.x, p0.y, before[i]) ==> !AllCollected(before);
        i := i + 1;
      }
      assert c0[..i] == c0;
      SweepPointwise(p0.x, p0.y, c0, coins);
    }

    /**
     * The pass's work on coin i: an uncollected coin overlapping the player is collected,
     * grants the double jump if it is the power-up, scores one, and wins the round if it was
     * the last.
     */
    method Visit(i: int)
      requires 0 <= i < |coins|
      modifies this`coins, this`player, this`state, this`winTimer
      ensures var c := old(coins[i]);
        var grabbed := Grabs(player.x, player.y, c);
        coins == old(coins)[i := Grab(player.x, player.y, c)] &&
        player == old(player).(score := old(player.score) + (if grabbed then 1 else 0),
                               hasDoubleJump := old(player.hasDoubleJump) || (grabbed && c.isPowerUp)) &&
        state == (if grabbed && AllCollected(coins) then Win else old(state)) &&
        winTimer == (if grabbed && AllCollected(coins) then 0.0 else old(winTimer))
    {
      var coin := coins[i];
      if Grabs(player.x, player.y, coin) {
        coins := coins[i := coin.(collected := true)];
        if coin.isPowerUp {
          player := player.(hasDoubleJump := true);
        }
        player := player.(score := player.score + 1);
        if AllCollected(coins) {
          state := Win;
          winTimer := 0.0;
        }
      }
    }

    /** The keydown handler; a Space press jumps whenever a jump is left, whatever the state. */
    method KeyDown(k: Key)
      requires Valid()
      modifies this
      ensures Snap() == Press(old(Snap()), k)
      ensures Valid()
    {
      PressInv(Snap(), k);
      match k
      case ArrowLeft =>
        keys := keys.(left := true);
      case ArrowRight =>
        keys := keys.(right := true);
      case Space =>
        keys := keys.(space := true);
        if player.jumpsRemaining > 0 {
          player := player.(velocityY := JUMP_FORCE, isJumping := true,
                            jumpsRemaining := player.jumpsRemaining - 1);
        }
      case Other =>
    }

    /** The keyup handler. */
    method KeyUp(k: Key)
      requires Valid()
      modifies this
      ensures Snap() == Release(old(Snap()), k)
      ensures Valid()
    {
      ReleaseInv(Snap(), k);
      match k
      case ArrowLeft =>
        keys := keys.(left := false);
      case ArrowRight =>
        keys := keys.(right := false);
      case Space =>
        keys := keys.(space := false);
      case Other =>
    }
  }
}
