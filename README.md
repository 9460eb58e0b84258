# Horse coin game: the session core

A model, in Dafny, of the game-session simulation of the browser game in `app.js`. The
player is a character (horse, turtle or cat) that walks left and right and jumps on an
800 × 400 playfield, collecting the level's coins before a 30-second timer runs out. One coin
per level is a power-up that grants a second jump. Collecting every coin wins the round. The
win or game-over screen then stays up until at least 5 seconds have passed with Space held;
after that the next level starts (five more coins, the next character), or level one after a
timeout.

The model follows the source's imperative shape. Class `Game.Session` holds the page's
module-level variables (`gameState`, `gameTimer`, `winTimer`, `currentLevel`, `totalCoins`,
`currentCharacter`, `coins`), the `player` record and the `keys` record as fields. Its
members, each the counterpart of a block of the source:

- `Reset` is `resetGame`, and it rebuilds the coins with a push loop (`LayCoins`).
- `Update` is `update`: the timer block, the end-screen block (`EndScreen`), and then walking,
  gravity and the `forEach` collision pass (`PlayFrame`, `Walk`, `Fall`, `CollectCoins`,
  `Visit`).
- `KeyDown` and `KeyUp` are the two handler bodies.
- The constructor is the page's load-time state, including the one-off coin generation.

Every method is proved to have the effect of a function on a value of the whole state,
`Rules.Snapshot`. Module `Rules` defines these functions, `ResetState`, `Frame`, `Press`
and `Release`, and proves the properties of the game about them: the invariant `Rules.Inv`
holds in every reachable state, and which state changes a frame allows.

The modules:

- `Levels`: the character roster and the coin count per level.
- `Physics`: the player record, walking, gravity with the ground clamp, and jumping.
- `Coins`: the coin record, the layout drawn from random numbers, the overlap test and the
  collection pass.
- `Rules`: the session as a value and its steps.
- `Game`: the `Session` class.

Positions, velocities and timers are exact `real`s. The source's constants are kept:

- jump force −12 and gravity 0.6
- ground line y = 350 and right walking edge x = 750
- coins are 16 × 16, and the power-up is 32 × 32
- maximum jump height 120 = 12²/(2·0.6); the power-up is placed within 84, 70 % of that
- 30000 ms per round and 5000 ms on the end screen
- 10 coins on level one, 5 more per level
- speeds 5, 4 and 6

The frame-by-frame physics is discrete, so a single jump from the ground rises 114 px: the
top edge reaches y = 236 at frame 20 (`Physics.JumpArc`, `Physics.ArcPeak`). That is short of
the 120 px the continuous formula gives. The 70 % margin for the power-up still holds: a
power-up placed within 84 px above the spawn line is always reached by one jump from below
(`Coins.PowerUpInReach`). A regular coin laid out at reset with a height draw of 2/3 or more
lies wholly above y = 236 (`Coins.RegularAboveOneJump`), and no single jump from the ground
touches it (`Coins.AboveOneJump`). A jump made from the start position before the player has
landed is different: every reset puts the player at y = 300, 50 px above the ground, and a
jump from there reaches y = 186, high enough for such a coin (`Coins.StartJumpReachesHigher`).

Behaviour of the code worth noting:

- `resetGame` leaves `winTimer` as it was (`Rules.ResetState` keeps it).
- The player's x is never clamped. A step is taken only while x > 0 (left) or x < 750
  (right), so the proved bound is −speed < x < 750 + speed (`Physics.Sound`).
- After a win, the new level's coin count is 10 + (level − 1) · 5.
- A restart happens on any frame where Space is held once the end screen has been up for
  5000 ms; the key does not have to be pressed anew.
- A negative frame delta is not clamped by the code. The model's `Update` takes the delta as a
  parameter and requires it to be non-negative, as the browser's monotonic clock guarantees.

## Model

| member | source | states |
|---|---|---|
| Levels.CoinsForLevel | app.js:25 | for level ≥ 1 the count is at least 10, and (count − 10)/5 is exactly level − 1 with no remainder: five more coins per level after the first |
| Levels.CharacterIndex | app.js:27 | the roster index is always valid, and levels 1, 2, 3 get characters 0, 1, 2 in order |
| Levels.CharacterFor | app.js:98-102 | the character of any level is one of the roster and walks at a positive speed |
| Levels.NextLevel | app.js:25-27 | going up one level adds exactly five coins and moves one place along the roster, wrapping after the cat |
| Levels.CharacterCycle | app.js:27 | the level's character repeats every three levels, for any number of rounds |
| Physics.Walk | app.js:211-216 | x moves by at most one speed step: left only if Left is held and x > 0, right only if Right is held and x < 750, unchanged with no key; the band −speed < x < 750 + speed is preserved |
| Physics.Fall | app.js:219-228 | after gravity and the clamp the player is never below the ground line; when the step would cross it the player lands (y = 350, velocity 0, not jumping, 2 jumps with the power-up or else 1); otherwise velocity grows by 0.6 and y by the new velocity; x, power-up flag and score are untouched |
| Physics.Sound | app.js:205-228 | the player invariant: 0 to 2 jumps left and at most 1 without the power-up, the top edge at or above the ground line, x within one step of the walking band |
| Physics.Lands | app.js:219-223 | the landing test: this frame's gravity step would carry the top edge below y = 350 |
| Physics.Move | app.js:211-228 | a playing frame's movement keeps the jump counter in 0..2 (at most 1 without the power-up), the player at or above the ground and within the walking band; it never changes power-up flag or score |
| Physics.Jump | app.js:146-150 | a jump request changes the player exactly when a jump is left; it then sets velocity −12, marks the player jumping and uses up exactly one jump, so the counter never goes negative |
| Physics.JumpSound | app.js:146-150 | a jump keeps every bound of a sound player |
| Physics.Rest | app.js:219-228 | repeated frames of gravity never move the player sideways nor change score or power-up flag |
| Physics.RestsOnGround | app.js:219-228 | a player standing still on the ground stays on the ground with no velocity for any number of frames, with its jumps refilled |
| Physics.ArcAboveGround | app.js:219-228 | for its first 39 frames a jump from the ground keeps the player at or above the ground line |
| Physics.ArcPeak | app.js:106 | a jump from the ground never lifts the player's top edge above y = 236, and reaches it at frame 20: the jump rises 114 px, less than the 120 of the formula for the maximum jump height |
| Physics.JumpArc | app.js:219-228 | n frames after a jump from rest at height y on or above the ground, with no key held and before landing, the top edge is y − 12n + 0.3·n(n + 1) and the velocity −12 + 0.6n |
| Coins.PowerUpInReach | app.js:107 | the power-up of any layout is within one jump: from rest on the ground below it, a single jump overlaps it at some frame on the way up |
| Coins.AboveOneJump | app.js:106 | a coin lying wholly above y = 236 cannot be overlapped at any frame of a single jump from the ground |
| Coins.RegularAboveOneJump | app.js:54-55 | a regular coin laid out at reset with a height draw of 2/3 or more lies wholly above y = 236, beyond one jump from the ground |
| Coins.StartJumpReachesHigher | app.js:38-43 | a jump from the start position, 50 px above the ground, rises to y = 186 and overlaps a regular coin laid out above y = 236 |
| Coins.PowerUpIndex | app.js:50 | floor(pick · n) lies in 0..n − 1 for a pick in [0, 1) and n > 0 |
| Coins.Reach | app.js:53-55 | how far above the spawn line a coin may be placed: 84 for the power-up, 120 for a regular coin |
| Coins.Scale | app.js:54-58 | a random draw in [0, 1) times a positive span lies in [0, span) |
| Coins.SpawnCoin | app.js:51-64 | a new coin is uncollected, 32 × 32 when it is the power-up and 16 × 16 otherwise, with x in [0, 784) and its top within the coin's reach (84 for the power-up, 120 otherwise) above the spawn line, minus the clearance |
| Coins.Layout | app.js:49-65 | a layout has one coin per draw |
| Coins.Overlaps | app.js:233-236 | the four strict comparisons of the player's box against the coin's box |
| Coins.Grabs | app.js:232-236 | the collision guard: the coin is not yet collected and overlaps the player |
| Coins.Grab | app.js:232-237 | a coin going through the collision test changes only its collected flag, which ends set exactly when it was set or the coin overlaps the player |
| Coins.Sweep | app.js:231-250 | the collision pass keeps the number of coins |
| Coins.CollectedCount | app.js:237 | the number of collected coins never exceeds the number of coins |
| Coins.PowerUpCount | app.js:238 | the number of power-ups never exceeds the number of coins |
| Coins.Hits | app.js:232-241 | the pass picks up at most every coin once |
| Coins.LayoutAt | app.js:49-65 | coin k of a layout is spawned from draw k and is the power-up exactly when k is the drawn index |
| Coins.LayoutCounts | app.js:49-65 | a layout holds one power-up when the drawn index is in range (none otherwise) and no collected coin |
| Coins.LayoutShape | app.js:49-65 | with in-range draws: the index is in range, exactly one coin (the one at the index) is the power-up and 32 × 32, all others 16 × 16, none collected, and every coin within its x and y band |
| Coins.AllCollected | app.js:244 | the win check `coins.every(c => c.collected)`: every coin is collected |
| Coins.AllCollectedCount | app.js:244 | every coin is collected exactly when the collected count equals the number of coins |
| Coins.PowerUpCountOne | app.js:50-52 | when the power-up count is one, two power-up coins are the same coin |
| Coins.SweepCounts | app.js:237-241 | the pass collects exactly Hits more coins (one per score point) and never changes which coins are power-ups |
| Coins.SweepMonotone | app.js:232-237 | after the pass each coin differs at most in its collected flag, a collected coin stays collected, and a newly collected coin overlaps the player |
| Coins.SweepIdempotent | app.js:232 | a second pass from the same position changes nothing and picks up nothing: no coin is counted twice |
| Coins.SweepPowerUp | app.js:238-240 | after the pass the power-up is collected exactly when it was before or the pass picked it up |
| Coins.SweepStep | app.js:231-241 | the pass over one more coin adds one hit exactly when that coin is grabbed, and finds the power-up exactly when the shorter pass did or that coin is the grabbed power-up |
| Coins.SweepPointwise | app.js:231-237 | a sequence that is Grab applied to each coin is the pass |
| Coins.NoHitsNoChange | app.js:232-236 | a pass that picks nothing up leaves every coin as it was |
| Coins.OverlapsIffSharedPoint | app.js:232-236 | the four strict comparisons hold exactly when the player's and the coin's open boxes share a point |
| Rules.Inv | app.js:10-251 | the invariant of every reachable state: level at least 1, the level's coin count and character, one power-up, the score equal to the collected count, the double-jump flag equal to the power-up's collected flag, the player within Physics.Sound, the clock in [0, 30000], the end-screen timer at 0 or more, the clock running and a coin left while playing, the clock running and every coin collected on the win screen, and the clock at 0 on the game-over screen |
| Rules.Initial | app.js:10-103 | the page starts playing on level one with the horse, 10 coins, 30000 ms on the clock, the end-screen timer at 0, no key held and the player at (50, 300) with one jump and no score |
| Rules.InitialInv | app.js:109-125 | the loaded page satisfies the invariant |
| Rules.ResetState | app.js:21-68 | after a reset: playing, 30000 ms on the clock, the player at the start with one jump, no power-up and score 0; keys and end-screen timer kept |
| Rules.ResetInv | app.js:21-68 | a next-level reset takes 10 + (level − 1)·5 coins and character (level − 1) mod 3, a full reset level one, 10 coins and the horse; the coins number exactly that many, exactly one of them, at the drawn index, is the 32 × 32 power-up, the rest 16 × 16, none collected, score 0, and the invariant holds |
| Rules.Collected | app.js:231-250 | the pass keeps keys, clock, level, coin count and character, changes the player only in score and power-up flag, and leaves the state as it was or Win; a win from playing means every coin is collected and the end-screen timer is 0 |
| Rules.Play | app.js:210-250 | a playing frame's movement and pass keep keys, clock, level, coin count and character, and can move only to Win, with every coin collected |
| Rules.Frame | app.js:170-251 | a frame never changes the held keys |
| Rules.Restarts | app.js:191 | the restart guard: the end-screen timer, after this frame's delta, has reached 5000 ms with Space held |
| Rules.FrameEffects | app.js:174-201 | while playing the clock falls by exactly delta; running out sets it to 0, ends the round and zeroes the end-screen timer with nothing else changed; otherwise movement and the pass follow; on an end screen only the end-screen timer moves, by delta, until a restart, which happens exactly when the timer reaches 5000 with Space held, and goes to the next level after a win and to level one after a timeout |
| Rules.Press | app.js:136-153 | a key press sets its own flag and leaves the other two as they were; Space also applies the jump, which happens exactly when one is left, in any state; apart from the flags and, on Space, the player, the state is unchanged, and an unknown key changes nothing |
| Rules.Release | app.js:155-167 | a key release clears its own flag, leaves the other two flags as they were, and changes nothing else |
| Rules.ReleaseUndoesPress | app.js:136-167 | releasing an arrow key after pressing it leaves the state as the release alone would |
| Rules.PlayInv | app.js:210-250 | a playing frame keeps the invariant: the score stays the number of collected coins, the power-up flag stays whether the power-up is collected, one power-up, the jump counter in 0..2 |
| Rules.FrameInv | app.js:170-251 | every frame, with a non-negative delta, keeps the invariant |
| Rules.PressInv | app.js:136-153 | every key press keeps the invariant |
| Rules.ReleaseInv | app.js:155-167 | every key release keeps the invariant |
| Rules.WinExactlyWhenAllCollected | app.js:243-248 | a playing frame that does not time out is won exactly when every coin is then collected, and otherwise stays playing |
| Rules.WonScore | app.js:241-248 | on the win screen the score equals the level's coin count |
| Rules.PlayingKeepsCollected | app.js:232-237 | a playing frame keeps the number of coins and changes each only in its collected flag, which only goes from false to true |
| Rules.Transitions | app.js:174-248 | playing leaves only by timeout (clock 0) or by a win (every coin collected, time left); the win and game-over screens lead only to playing, and only once 5000 ms have passed with Space held |
| Game.Session.constructor | app.js:10-126 | the page loads into the initial state, with the coins pushed one by one, and satisfies the invariant |
| Game.Session.Reset | app.js:21-68 | resetGame changes the session exactly as the reset step does |
| Game.Session.LayCoins | app.js:48-65 | the push loop builds the layout of the draws |
| Game.Session.Update | app.js:170-251 | update changes the session exactly as one frame does, and keeps the invariant |
| Game.Session.EndScreen | app.js:186-201 | the end-screen block changes the session exactly as a frame on an end screen does |
| Game.Session.PlayFrame | app.js:210-250 | the movement and collision blocks change the session exactly as the playing step does |
| Game.Session.Walk | app.js:211-216 | the walking block moves x as the walking step does |
| Game.Session.Fall | app.js:219-228 | the gravity and ground blocks change the player as the falling step does |
| Game.Session.CollectCoins | app.js:231-250 | the forEach pass leaves the coins as the pass does, adds Hits to the score, sets the power-up flag when the power-up is picked up, and wins exactly when something was picked up and every coin is then collected |
| Game.Session.Visit | app.js:232-248 | the callback on coin i collects it, scores one and grants the double jump for the power-up exactly when the coin is uncollected and overlaps the player, and wins when that took the last coin |
| Game.Session.KeyDown | app.js:136-153 | the keydown handler changes the session exactly as a press does, and keeps the invariant |
| Game.Session.KeyUp | app.js:155-167 | the keyup handler changes the session exactly as a release does, and keeps the invariant |

## Left out

- Drawing (`draw`), the canvas, images, fonts and the blinking prompt are output only.
- The browser plumbing is not modelled: element lookup, listener registration, `requestAnimationFrame` and `gameLoop`, and the frame counter `gameTime`. Only the handler bodies are modelled.
- `performance.now()` and `lastTimestamp` are not modelled. The frame's delta is a parameter of `Update`, and the resampling of `lastTimestamp` on reset and on a win has no other effect.
- `Math.random()` is not modelled. Its results are a `Coins.Draws` parameter: the power-up pick, then per coin the y draw and the x draw, in the source's order, each required to be in [0, 1).
- IEEE double rounding is not modelled: all arithmetic is exact over the reals.
- The second restart check after the unconditional `return` in `update` is unreachable and not modelled.
- The image handles of the character records are not modelled; only name and speed are kept.
- Key codes other than ArrowLeft, ArrowRight and Space are one value, `Other`, that both handlers ignore.
