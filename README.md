# Brick breaker game rules in Dafny

This project models the rules of "Ultimate Brick Breaker" (`brick_breaker.py`),
a single-file pygame game. The player steers a paddle with the pointer or the
arrow keys to keep one or more balls in play. The balls break bricks that need
one to six hits. Broken bricks score points and sometimes drop power-up
capsules. Capsules widen or narrow the paddle, raise a shield, add a ball or a
life, or turn a ball into a fire, steel or lightning ball. On levels 3 and 6 a
boss brick patrols the screen and fires projectiles at the paddle. The game
has seven levels.

The model has these modules:

- **Common** (`common.dfy`): the screen, integer rectangles with pygame's
  overlap test, and the kinds of balls and power-ups. It also holds `Env`,
  the oracle that stands in for float arithmetic and for the random module.
- **Paddles**, **Balls**, **Bricks** and **Missiles** (`paddle.dfy`,
  `ball.dfy`, `bricks.dfy`, `missiles.dfy`): the game's entity classes
  `Paddle`, `Ball`, `Brick`, `BossBrick`, `Projectile` and `PowerUp`.
  - Each one is a Dafny `class` with the source's mutable fields.
  - Each has a `View()` that returns a value of a state datatype.
  - Every method is proved to turn `old(View())` into a pure function of it
    (`Moved`, `Struck`, `BossStepped`, …).
  - The properties the game relies on are proved about those functions:
    lifetimes, fire charges, break thresholds, boss patrol, fall time and
    width modifiers.
- **Levels** (`levels.dfy`): `is_boss_level` and the brick layout of every
  level, written as a grid with a mask and a hit formula. There are lemmas
  for the shape of each level.
- **Arenas** (`arena.dfy`): what one ball does in one frame. It moves, then
  bounces off the walls and the paddle, strikes the boss, and strikes at
  most one brick. It may then drop out of the screen. This module also holds
  the ball loop as a fold over the balls.
- **Worlds** (`world.dfy`): the whole game state as a value, and `Update` as
  the source's seven phases in the source's order. It also holds
  `apply_powerup`, `reset_level`, and the key handling of `run`.
- **Engine** (`game.dfy`): the `Game` class itself, with the source's fields.
  - Its methods are imperative: loops over snapshots of the lists, calls of
    the entity methods, and fresh objects.
  - Each method is proved to leave `View()` equal to the matching `Worlds`
    function of the old view.
  - `Valid()` (no object twice in one list) is kept, so that removing by
    identity removes exactly that object.
- **WorldFacts** (`world_facts.dfy`): properties of frames, key presses and
  whole runs of both.
  - The game stays coherent: never more than four balls, a paddle on the
    screen, and consistent bricks and boss.
  - The score never drops.
  - Ball loss, level advance and the restart guard behave as stated below.

Floats and randomness are handled through `Env`:

- Speeds the source computes with floats come from `Env` functions of
  integers. These are the paddle deflection, the lightning boost, the
  per-level speed-up, the projectile aim and the pointer easing.
- Each `random.random()` or `random.choice` call reads the next entry of a
  random stream given as `Env.chance`/`Env.pick`.
- The `draws` counter, which is part of the state, says how many entries
  have been used.

## Model

| member | source | states |
|---|---|---|
| Paddles.NewPaddle | brick_breaker.py:197-204 | a new paddle is 100 wide at the given place, with no modifier or shield running |
| Paddles.Paddle.Move | brick_breaker.py:206-210 | the paddle takes an 8-pixel step only while that edge is inside the screen; nothing else changes |
| Paddles.Moved | brick_breaker.py:206-210 | a step left happens only when the left edge is past 0, a step right only when the right edge is short of 875; the paddle invariant is kept |
| Paddles.Paddle.ApplyPowerUp | brick_breaker.py:212-224 | the paddle becomes `Applied` of its old state |
| Paddles.Applied | brick_breaker.py:212-224 | a shield only sets the shield countdown to 600. Other kinds set a 300-frame modifier, width 150 (wide) or 70 (narrow), and keep the centre and the shield |
| Paddles.Paddle.Update | brick_breaker.py:226-236 | the paddle becomes `Ticked` of its old state |
| Paddles.Ticked | brick_breaker.py:226-236 | both countdowns drop by one down to zero; the modifier's expiry restores width 100 about the same centre |
| Paddles.CountdownsAfter | brick_breaker.py:226-236 | after n frames each countdown is max(0, t - n); the width is back to normal exactly when n reaches the modifier's countdown; the centre never moves |
| Paddles.ModifierLasts300Frames | brick_breaker.py:212-236 | a wide or narrow paddle keeps its width for exactly 300 frames |
| Paddles.ShieldIsIndependent | brick_breaker.py:212-236 | a shield leaves a running modifier untouched and protects for exactly 600 frames |
| Paddles.Steered | brick_breaker.py:668-686 | within the 2-pixel dead zone the pointer only clamps (an on-screen paddle stays put); outside it the paddle eases toward the pointer's target and is then clamped. No key leaves the paddle alone, left alone is one `Moved` step left, right alone one step right, both keys a step left then a step right; only x changes |
| Paddles.Clamped | brick_breaker.py:677-680 | a paddle past the left edge goes to 0, one past the right edge is pulled back to 875 minus its width, and one already on screen stays |
| Engine.Game.HandleInput | brick_breaker.py:660-690 | the paddle becomes `Steered` by the frame's command |
| Balls.NewBall | brick_breaker.py:265-290 | a new ball has an empty trail and 1800 frames of life. Fire has 3 charges, steel damage 2, lightning the boosted base speed in both axes; the others have the base speed (5, -5) |
| Balls.Ball.constructor | brick_breaker.py:265-290 | the object's view is `NewBall` |
| Balls.Moved | brick_breaker.py:292-306 | a special ball spends a frame of life and is reported gone when its life runs out; otherwise the centre joins a trail kept to its bound and the ball advances by its velocity; no field other than life, trail and position changes |
| Balls.Ball.Move | brick_breaker.py:292-306 | the ball and the result are `Moved` of the old ball |
| Balls.Lifetime | brick_breaker.py:292-296 | a normal ball never expires; a special ball with l frames of life survives exactly l - 1 moves |
| Balls.Ball.BounceX | brick_breaker.py:308-309 | only the horizontal speed changes sign |
| Balls.Ball.BounceY | brick_breaker.py:311-312 | only the vertical speed changes sign |
| Balls.Ball.SpeedUp | brick_breaker.py:314-316 | both speeds are scaled by the per-level speed-up |
| Balls.Pierced | brick_breaker.py:318-323 | the ball pierces exactly when it is a fire ball with a charge left, and then it spends one charge; otherwise nothing changes |
| Balls.Ball.CanPierce | brick_breaker.py:318-323 | the ball and the result are `Pierced` of the old ball |
| Balls.ChargesSpent | brick_breaker.py:318-323 | a fire ball with k charges pierces its next min(n, k) contacts; other balls never pierce; charges never go negative |
| Balls.Converted | brick_breaker.py:827-853 | the ball takes the kind and a life of 1800, 1200 or 900. Fire restores 3 charges and a trail of 8, steel sets damage 2, lightning boosts the speed and keeps the charges, damage and trail bound; position, trail and the other fields are kept |
| Balls.Ball.Convert | brick_breaker.py:827-853 | the ball becomes `Converted` of its old state |
| Bricks.NewBrick | brick_breaker.py:354-360 | a new brick is standing with no hits taken |
| Bricks.Struck | brick_breaker.py:362-374 | the damage is added to the hits taken; the result is true and the brick destroyed exactly when the total reaches the requirement |
| Bricks.Brick.Hit | brick_breaker.py:362-374 | the brick and the result are `Struck` of the old brick |
| Bricks.BreaksAtThreshold | brick_breaker.py:362-374 | a fresh brick hit n times with damage d has taken n·d hits and is destroyed exactly when n·d reaches its requirement |
| Bricks.NewBoss | brick_breaker.py:391-399 | a new boss stands at (325, 100) with 50 health, heading right, with its shot counter at 0 |
| Bricks.BossStepped | brick_breaker.py:401-409 | the boss moves one pixel, turns round when it touches an edge, and counts a frame; the result is true once the counter reaches 120; it stays on the screen |
| Bricks.BossBrick.Update | brick_breaker.py:401-409 | the boss and the result are `BossStepped` of the old boss |
| Bricks.BossBrick.ResetShootTimer | brick_breaker.py:411-412 | only the shot counter changes, to 0 |
| Bricks.BossStruck | brick_breaker.py:414-423 | health drops by the damage; the result is true and the boss destroyed exactly when health is at or below 0 |
| Bricks.BossBrick.Hit | brick_breaker.py:414-423 | the boss and the result are `BossStruck` of the old boss |
| Bricks.Patrol | brick_breaker.py:401-412 | a boss driven frame after frame stays on the screen, and its shot counter runs modulo 120, so it fires every 120th frame |
| Missiles.NewProjectile | brick_breaker.py:449-461 | an 8×8 projectile flies towards the target, or straight down at speed 4 when it starts on the target |
| Missiles.Projectile.constructor | brick_breaker.py:449-461 | the object's view is `NewProjectile` |
| Missiles.Flown | brick_breaker.py:463-466 | the projectile moves by its velocity; the result is true exactly when the new position is on the screen, edges included |
| Missiles.Projectile.Update | brick_breaker.py:463-466 | the projectile and the result are `Flown` of the old one |
| Missiles.Trajectory | brick_breaker.py:463-466 | after n steps a projectile has moved n times its fixed velocity |
| Missiles.NewPowerUp | brick_breaker.py:473-477 | a new capsule is active, 20×20, of the given kind |
| Missiles.Fallen | brick_breaker.py:501-504 | the capsule falls 3 pixels and is active exactly while it was active and its top edge is still on the screen |
| Missiles.PowerUp.Move | brick_breaker.py:501-504 | the capsule becomes `Fallen` of its old state |
| Missiles.FallTime | brick_breaker.py:501-504 | a capsule released at height y is at y + 3n after n moves, and active exactly when y + 3n ≤ 600 |
| Missiles.StaysInactive | brick_breaker.py:501-504 | an inactive capsule never becomes active again |
| Levels.IsBossLevel | brick_breaker.py:565-566 | among levels 1..7, exactly 3 and 6 are boss levels |
| Levels.BossOf | brick_breaker.py:568-584 | a boss level gets a fresh boss with 50 health; any other level gets none |
| Levels.LayoutCells | brick_breaker.py:581-647 | a level's layout holds the brick of every masked cell of its grid, and nothing else |
| Levels.LayoutBricksFresh | brick_breaker.py:581-647 | every brick of every layout is standing, untouched and needs at least one hit |
| Levels.FirstLevel | brick_breaker.py:600-606 | level 1 has 50 bricks |
| Levels.FirstLevelBrick | brick_breaker.py:600-606 | every brick of level 1 breaks at the first hit |
| Levels.SecondLevel | brick_breaker.py:608-615 | level 2 has two rows of two-hit bricks over rows of one-hit bricks |
| Levels.BossLevelBricks | brick_breaker.py:586-595 | the boss level's bricks sit in columns 0, 1, 6 and 7 at 85-pixel steps from 50; the top row needs 3 hits, the second 2 |
| Levels.BossLevelCount | brick_breaker.py:586-595 | a boss level has exactly 8 supporting bricks |
| Levels.FourthLevel | brick_breaker.py:617-626 | every brick of level 4 sits in a cell whose row + column is not a multiple of 3, and needs min(4, row + 1) hits |
| Levels.FourthLevelFull | brick_breaker.py:617-626 | every such cell of level 4 does hold its brick |
| Levels.FifthLevel | brick_breaker.py:628-638 | every brick of level 5 lies in the diamond of radius 4 about row 3, column 5; it needs 5 hits near the centre and 3 elsewhere |
| Levels.FullGridLength | brick_breaker.py:640-647 | a full grid (levels 1, 2, 7) holds 10 bricks per row |
| Engine.Game.FillRow | brick_breaker.py:641-647 | the row loop appends exactly the row's masked cells, in column order |
| Engine.Game.LayGrid | brick_breaker.py:641-647 | the nested loops append exactly the level's layout |
| Engine.Game.CreateBricks | brick_breaker.py:597-647 | the bricks list grows by the level's layout and nothing else changes |
| Engine.Game.CreateBossLevel | brick_breaker.py:581-595 | the boss is set and the bricks list grows by the boss layout |
| Worlds.ResetLevel | brick_breaker.py:568-579 | a new paddle at (387, 550), one normal ball at the centre, the level's bricks and boss, no capsules or projectiles; level, score and lives are kept |
| Worlds.ResetLevelCoherent | brick_breaker.py:568-579 | a reset level is coherent |
| Engine.Game.ResetLevel | brick_breaker.py:568-579 | the game becomes `Worlds.ResetLevel` of the old game, with fresh balls |
| Worlds.InitialWorld | brick_breaker.py:518-553 | the game opens on the start screen at level 1 with 3 lives and no score, with a new paddle at (437, 570) and no balls, bricks, boss, projectiles or capsules |
| Engine.Game.constructor | brick_breaker.py:518-553 | the new game's view is `InitialWorld` |
| Worlds.Restarted | brick_breaker.py:555-563 | a restart plays level 1 with no score and 3 lives, on level 1's layout with one ball, and is coherent |
| Engine.Game.StartGame | brick_breaker.py:555-563 | the game becomes `Restarted` |
| Engine.Game.ResetGame | brick_breaker.py:1296-1303 | the game becomes `Restarted` |
| Arenas.WallBounce | brick_breaker.py:734-738 | the horizontal speed turns at either side wall and the vertical speed at the ceiling; nothing else changes |
| Arenas.PaddleBounce | brick_breaker.py:740-746 | a ball coming down onto the paddle goes up with the deflected horizontal speed; any other ball is unchanged |
| Arenas.AfterContact | brick_breaker.py:759-760 | after a strike a fire ball with a charge pierces and spends it; any other ball bounces vertically |
| Arenas.BossContact | brick_breaker.py:748-760 | a live boss the ball overlaps becomes `BossStruck` by the ball's damage and the ball bounces unless it pierces; otherwise neither arena nor ball changes; 500 points are scored exactly when the hit kills the boss; the arena stays consistent |
| Arenas.FirstHit | brick_breaker.py:763-764 | the result is the first standing brick the ball overlaps, and no earlier brick qualifies |
| Engine.Game.FindBrick | brick_breaker.py:763-764 | the search loop returns `FirstHit` of the bricks |
| Arenas.DropKinds | brick_breaker.py:651-655 | boss levels drop the five boss kinds; other levels drop all eight |
| Arenas.SpawnRoll | brick_breaker.py:649-658 | one draw below 0.2 drops a capsule of the kind a second draw picks from the level's list; otherwise nothing drops and one draw is used |
| Engine.Game.SpawnPowerUp | brick_breaker.py:649-658 | the game's arena becomes `SpawnRoll` of the old one |
| Arenas.StrikeAt | brick_breaker.py:765-768 | only the struck brick changes, as `Struck` says |
| Arenas.BrickContact | brick_breaker.py:762-776 | with no brick to strike nothing changes; otherwise the ball pierces or bounces |
| Arenas.BrickContactFacts | brick_breaker.py:762-776 | at most one brick is struck, with the ball's damage; 10 points per level are scored exactly when it breaks; the boss, level and paddle are untouched; at most one capsule is added |
| Arenas.EarliestBrickStruck | brick_breaker.py:762-776 | the brick struck is the first standing brick, in laying order, that the ball overlaps, and the ball then bounces unless it pierces; with no such brick neither arena nor ball changes |
| Engine.Game.HitBricks | brick_breaker.py:762-776 | the game's arena and the ball become `BrickContact` of the old ones |
| Engine.Game.StrikeBrick | brick_breaker.py:765-768 | the game's arena becomes `StrikeAt` of the old one |
| Engine.Game.HitBoss | brick_breaker.py:748-760 | the game's arena and the ball become `BossContact` of the old ones |
| Arenas.BallStep | brick_breaker.py:725-780 | an expired special ball leaves at once and touches nothing; any other ball stays exactly when its bottom edge ends above the bottom of the screen |
| Arenas.BallStepFacts | brick_breaker.py:725-780 | one ball's turn strikes at most one brick and revives none. It changes only the bricks, boss, score, capsules and draws. It scores 500 for a fallen boss plus 10 per level for a broken brick |
| Engine.Game.ResolveBall | brick_breaker.py:725-780 | one ball's turn in the game is `BallStep` |
| Arenas.BallsFoldFacts | brick_breaker.py:725-780 | the ball loop keeps the arena consistent, keeps only consistent balls, never lowers the score and never revives a brick |
| Engine.Game.FoldAll | brick_breaker.py:725-780 | the loop over a snapshot of the balls leaves the arena and the kept balls equal to `BallsFold`; the kept balls are distinct and come from the list |
| Engine.Game.UpdateBalls | brick_breaker.py:724-780 | the game becomes `BallPhase` of the old game; every ball left was in play before |
| Worlds.BossPhase | brick_breaker.py:699-710 | a live boss steps; when it fires, exactly one projectile, from its bottom centre and aimed at the paddle's centre, is appended; nothing else changes |
| Engine.Game.UpdateBoss | brick_breaker.py:699-710 | the game becomes `BossPhase` of the old game |
| Worlds.ProjectilesFold | brick_breaker.py:712-722 | each life lost is paid for by a projectile that left; none is lost under the shield; every projectile kept is on screen and clear of the paddle |
| Worlds.ProjectilesFoldIs | brick_breaker.py:713-722 | the loop keeps exactly the projectiles that fly on, on screen and clear of the paddle, moved and in their order, and takes one life per projectile that reaches the paddle, none under the shield |
| Engine.Game.FlyAll | brick_breaker.py:713-722 | the loop over a snapshot of the projectiles leaves exactly `ProjectilesFold` of them and the lives |
| Engine.Game.UpdateProjectiles | brick_breaker.py:712-722 | the game becomes `ProjectilePhase` of the old game |
| Worlds.BallLoss | brick_breaker.py:782-788 | with no ball left a life is lost, and one normal ball is served exactly when lives remain; otherwise nothing changes |
| Engine.Game.CheckBallLoss | brick_breaker.py:782-788 | the game becomes `BallLoss` of the old game |
| Worlds.MultiBallCopy | brick_breaker.py:819-824 | the copy has the first ball's kind and position, the mirrored horizontal speed and a fresh trail and life |
| Worlds.ApplyPowerUp | brick_breaker.py:814-853 | only the paddle, balls, lives and draws change; there are never more than four balls; exactly extra life adds a life; coherence is kept |
| Engine.Game.ApplyPowerUp | brick_breaker.py:814-853 | the game becomes `Worlds.ApplyPowerUp` of the old game |
| Engine.Game.AddBallCopy | brick_breaker.py:817-824 | the mirrored copy of the first ball is appended |
| Engine.Game.ConvertBall | brick_breaker.py:827-853 | the ball at the drawn index is converted and one draw is used |
| Worlds.PowerUpsFold | brick_breaker.py:790-799 | every capsule kept is active; only the paddle, balls, lives and draws change; coherence is kept |
| Worlds.PowerUpStep | brick_breaker.py:792-797 | a capsule that falls out of play is dropped; one caught by the paddle is dropped and its kind applied; any other is kept, moved, and the game is untouched |
| Worlds.UncaughtCapsulesFall | brick_breaker.py:791-797 | with no capsule caught, the loop leaves the game alone and keeps every capsule still active, moved and in its order |
| Engine.Game.CatchAll | brick_breaker.py:791-799 | the loop over a snapshot of the capsules leaves the game and the kept capsules equal to `PowerUpsFold` |
| Engine.Game.UpdatePowerUps | brick_breaker.py:790-799 | the game becomes `PowerUpPhase` of the old game |
| Worlds.SpeedUps | brick_breaker.py:810-812 | every ball is sped up, and the list keeps its length |
| Engine.Game.SpeedUpEach | brick_breaker.py:810-812 | the loop leaves every ball's view equal to `SpeedUps` of the old views |
| Worlds.LevelUpIs | brick_breaker.py:805-812 | up to level 7 the move on enters the new level; past it only the counter moves |
| Worlds.EnterLevelCoherent | brick_breaker.py:808-812 | entering a level keeps the game coherent |
| Engine.Game.LevelIsCleared | brick_breaker.py:801-803 | the result is true exactly when every brick is destroyed and no boss stands |
| Engine.Game.CheckLevel | brick_breaker.py:801-812 | the game becomes `LevelPhase` of the old game |
| Engine.Game.AdvanceLevel | brick_breaker.py:806-812 | the game becomes `LevelUp` of the old game |
| Engine.Game.Update | brick_breaker.py:692-812 | the game becomes `Worlds.Update` of the old game, and no list holds an object twice |
| Engine.Game.RunFrame | brick_breaker.py:1331-1334 | the game becomes `Worlds.RunFrame` of the old game |
| Engine.Game.HandleKey | brick_breaker.py:1308-1329 | the game becomes `Pressed` of the old game |
| WorldFacts.LevelAdvance | brick_breaker.py:801-812 | the level moves on by one exactly when it is cleared; a standing boss holds the level; score and lives are untouched |
| WorldFacts.NextLevel | brick_breaker.py:805-812 | a new level up to 7 starts afresh with its layout and boss and one ball sped up once; past 7 only the counter moves |
| WorldFacts.LevelPhaseKeepsCoherent | brick_breaker.py:801-812 | the level check keeps the game coherent |
| WorldFacts.LevelUpCoherent | brick_breaker.py:805-812 | moving to the next level keeps the game coherent |
| WorldFacts.UpdateKeepsCoherent | brick_breaker.py:692-812 | `update` keeps the game coherent, with at most four balls |
| WorldFacts.FrameKeepsCoherent | brick_breaker.py:1331-1334 | a frame of the game loop keeps the game coherent |
| WorldFacts.PlayKeepsCoherent | brick_breaker.py:1305-1334 | any run of frames and key presses keeps a coherent game coherent |
| WorldFacts.NeverMoreThanFourBalls | brick_breaker.py:817 | from the start of the program, whatever happens, never more than four balls are in play |
| WorldFacts.MultiBallAddsOne | brick_breaker.py:817-824 | multi-ball adds exactly the mirrored copy of the first ball when 1 to 3 balls are in play, and does nothing otherwise |
| WorldFacts.Conversion | brick_breaker.py:827-853 | a conversion turns exactly the drawn ball and leaves the others; with no ball it does nothing |
| WorldFacts.ExtraLifeAddsOne | brick_breaker.py:825-826 | extra life adds one life and nothing else |
| WorldFacts.FrameLevel | brick_breaker.py:805-806 | a frame moves the level on by at most one |
| WorldFacts.UpdateKeepsScore | brick_breaker.py:692-812 | `update` never lowers the score |
| WorldFacts.ScoreNeverDrops | brick_breaker.py:1331-1334 | a frame never lowers the score |
| WorldFacts.EmptyFieldMeansGameOver | brick_breaker.py:782-788 | after the ball-loss check an empty field means no lives are left |
| WorldFacts.BallLossAccounting | brick_breaker.py:782-788 | losing the last ball costs exactly one life; one ball is served exactly when lives remain |
| WorldFacts.ShieldBlocks | brick_breaker.py:716-718 | while the shield is up no projectile costs a life |
| WorldFacts.FrozenUnlessRunning | brick_breaker.py:1331-1334 | outside play, or once the game is lost or won, a frame changes nothing |
| WorldFacts.PauseResume | brick_breaker.py:1316-1327 | Escape pauses a game in play, and pressed again resumes it unchanged |
| WorldFacts.EscapeToggles | brick_breaker.py:1316-1327 | Escape toggles between play and pause and changes nothing else |
| WorldFacts.RestartGuard | brick_breaker.py:1316-1329 | R restarts a paused game always, and a game in play only once it is lost, won or cleared, and otherwise changes nothing; a restart is coherent at level 1 with 3 lives and no score |
| WorldFacts.StartScreenWaits | brick_breaker.py:1312-1314 | the start screen starts the game on Space and ignores every other key |

## Left out

- Particles, sound, drawing, colours, fonts and the start, pause and game-over screens are not modelled. They never affect the game state.
- The QUIT event, the TAB toggle between pointer and keyboard, and the 60 fps clock are not modelled. The frame's paddle command is a parameter that already says which control is in use.
- Float physics is not modelled. Ball and projectile speeds are integers. The results of float arithmetic come from `Env` functions: paddle deflection, the ×1.5 lightning boost, the ×1.1 speed-up, the projectile aim and the ×0.3 pointer easing. pygame's truncation of a float position is therefore folded into those functions, and a fractional speed is not carried from frame to frame.
- `random.random()` and `random.choice` are not modelled as a generator. They are entries of a random stream given as parameters (`Env.chance`, `Env.pick`), indexed by a draw counter.
- `list.remove(x)` is not modelled as a call. Removing by identity during a loop over a copy of the list is modelled by building the list of the objects kept, in order. `Valid()` (no object twice in a list) makes the two agree.
- The `game_over` state is never entered by the source, so it is not a phase of the model. A lost or won game stays in `Playing` with its frames frozen.
- Engine.Game.UpdateBoss: the boss's shot counter is reset before the projectile is built, not after. This is equivalent because the projectile only reads the boss's position.
- Engine.Game.ApplyPowerUp: the source tests the kinds in the order paddle, multi-ball, extra life, then the conversions. The model tests extra life before multi-ball and the conversions. This is equivalent because the kinds are disjoint and a multi-ball with four balls does nothing in both.
- Engine.Game.CreateBricks requires an ordinary level, and Engine.Game.CreateBossLevel requires a boss level. These are the only levels `reset_level` calls them on. Both are written as one grid loop with a per-level mask and hit formula, not as the five separate nested loops.
- Engine.Game.StartGame: the source builds a paddle in `start_game` and `reset_level` immediately replaces it with an identical one. The model does the same; only the second paddle is visible.
- Level speed-up: after `reset_level` the loop at the end of `update` speeds up the new level's ball. The model follows the code, so each new level's ball starts at the sped-up speed.
