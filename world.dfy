/** The rules of a whole frame and of the keys, on values: the state the
    Game object holds (brick_breaker.py:517-553), the phases of Game.update
    in the order the source runs them (brick_breaker.py:692-812),
    Game.apply_powerup (brick_breaker.py:814-853), the level director's
    reset_level (brick_breaker.py:568-579), and the key handling of Game.run
    with reset_game (brick_breaker.py:1296-1334). */
module Worlds {
  import opened Common
  import P = Paddles
  import B = Balls
  import opened Bricks
  import opened Levels
  import M = Missiles
  import opened Arenas

  /** The screen the game shows. The source names a "game_over" state but
      never enters it: a lost or won game stays in Playing. */
  datatype Phase = StartScreen | Playing | Paused

  /** The keys Game.run reacts to; any other key does nothing. */
  datatype Key = Space | Escape | KeyR | OtherKey

  datatype World = World(
    phase: Phase, level: int, score: int, lives: int, draws: nat,
    paddle: P.PaddleState, balls: seq<B.BallState>, bricks: seq<BrickState>,
    boss: Option<BossState>, projectiles: seq<M.ProjectileState>, powerups: seq<M.PowerUpState>)

  const CentreX := 437        // SCREEN_WIDTH // 2
  const CentreY := 300        // SCREEN_HEIGHT // 2
  const PaddleStartX := 387   // SCREEN_WIDTH // 2 - PADDLE_WIDTH // 2
  const PaddleStartY := 550   // SCREEN_HEIGHT - 50
  const InitialLives := 3
  const MaxBalls := 4

  /** Game.__init__: the start screen, level 1, three lives, a paddle at
      (437, 570) and nothing else on the field. */
  function InitialWorld(): (w: World)
    ensures w.phase == StartScreen && w.level == 1 && w.lives == InitialLives && w.score == 0
    ensures w.balls == [] && w.bricks == [] && w.boss == None && w.projectiles == [] && w.powerups == []
    ensures w.paddle == P.NewPaddle(CentreX, ScreenHeight - 30)
    ensures Coherent(w)
  {
    World(StartScreen, 1, 0, InitialLives, 0, P.NewPaddle(CentreX, ScreenHeight - 30), [], [], None, [], [])
  }

  /** What holds of the game between frames: a consistent paddle, at most
      four consistent balls, consistent bricks and boss, a level from 1 on
      and a score that is not negative. */
  predicate Coherent(w: World) {
    && P.PaddleOk(w.paddle)
    && (forall i :: 0 <= i < |w.balls| ==> B.BallOk(w.balls[i]))
    && |w.balls| <= MaxBalls
    && (forall i :: 0 <= i < |w.bricks| ==> BrickOk(w.bricks[i]))
    && (w.boss.Some? ==> BossOk(w.boss.value))
    && w.level >= 1
    && w.score >= 0
  }

  /** The level completion test: every brick destroyed and no boss standing. */
  predicate LevelCleared(bricks: seq<BrickState>, boss: Option<BossState>) {
    (forall i :: 0 <= i < |bricks| ==> bricks[i].destroyed) && !BossLive(boss)
  }

  /** The ball reset_level and the ball-loss check put in play. */
  function ServeBall(env: Env): (b: B.BallState)
    ensures B.BallOk(b) && b.kind == Normal && b.x == CentreX && b.y == CentreY
  {
    B.NewBall(CentreX, CentreY, Normal, env)
  }

  /** reset_level: a paddle at (387, 550), one normal ball at the centre, the
      level's layout and boss, and no capsules or projectiles; the level,
      score and lives are kept. */
  function ResetLevel(w: World, env: Env): (r: World)
    ensures r == w.(paddle := r.paddle, balls := r.balls, bricks := r.bricks, boss := r.boss,
                    projectiles := r.projectiles, powerups := r.powerups)
    ensures r.bricks == Layout(w.level) && r.boss == BossOf(w.level)
    ensures r.balls == [ServeBall(env)] && r.projectiles == [] && r.powerups == []
    ensures r.paddle == P.NewPaddle(PaddleStartX, PaddleStartY)
  {
    w.(paddle := P.NewPaddle(PaddleStartX, PaddleStartY), balls := [ServeBall(env)], powerups := [],
       bricks := Layout(w.level), boss := BossOf(w.level), projectiles := [])
  }

  /** A reset level is coherent when its level and score are. */
  lemma ResetLevelCoherent(w: World, env: Env)
    requires w.level >= 1 && w.score >= 0
    ensures Coherent(ResetLevel(w, env))
  {
    var r := ResetLevel(w, env);
    LayoutBricksFresh(w.level);
    forall i | 0 <= i < |r.bricks|
      ensures BrickOk(r.bricks[i])
    {
      assert r.bricks[i] in Layout(w.level);
    }
    assert r.boss.Some? ==> BossOk(r.boss.value);
  }

  /** start_game and reset_game: playing from level 1 with no score and
      three lives, on a freshly reset level. */
  function Restarted(w: World, env: Env): (r: World)
    ensures r.phase == Playing && r.level == 1 && r.score == 0 && r.lives == InitialLives
    ensures r.bricks == Layout(r.level) && r.boss == None && |r.balls| == 1
    ensures r.draws == w.draws
    ensures Coherent(r)
  {
    var w1 := w.(phase := Playing, level := 1, score := 0, lives := InitialLives);
    ResetLevelCoherent(w1, env);
    ResetLevel(w1, env)
  }

  /** The boss phase: a live boss steps, and when its counter reaches 120 it
      fires a projectile from its bottom centre at the paddle's centre and
      restarts the counter. */
  function BossPhase(w: World, env: Env): (r: World)
    ensures r == w.(boss := r.boss, projectiles := r.projectiles)
    ensures !BossLive(w.boss) ==> r == w
    ensures BossLive(w.boss) ==> r.boss == Some(BossFrame(w.boss.value).1)
    ensures |r.projectiles| == |w.projectiles| + (if BossLive(w.boss) && BossFrame(w.boss.value).0 then 1 else 0)
    ensures r.projectiles[..|w.projectiles|] == w.projectiles
    ensures BossLive(w.boss) && BossFrame(w.boss.value).0 ==>
      var s1 := BossFrame(w.boss.value).1;
      r.projectiles == w.projectiles + [M.NewProjectile(s1.Box().CenterX(), s1.Box().Bottom(),
                                                        w.paddle.CenterX(), w.paddle.Box().CenterY(), env)]
    ensures w.boss.Some? && BossOk(w.boss.value) ==> r.boss.Some? && BossOk(r.boss.value)
  {
    if BossLive(w.boss) then
      var (fire, s1) := BossStepped(w.boss.value);
      if fire then
        var shot := M.NewProjectile(s1.Box().CenterX(), s1.Box().Bottom(),
                                    w.paddle.CenterX(), w.paddle.Box().CenterY(), env);
        w.(boss := Some(s1.(shootTimer := 0)), projectiles := w.projectiles + [shot])
      else w.(boss := Some(s1))
    else w
  }

  /** One projectile in the projectile loop: it moves; off the screen it
      goes; on the paddle it goes and costs a life unless the shield is up;
      otherwise it stays, moved. */
  function ProjectileHit(paddle: P.PaddleState, lives: int, p: M.ProjectileState): (Option<M.ProjectileState>, int) {
    var (onScreen, q) := M.Flown(p);
    if !onScreen then (None, lives)
    else if Overlaps(q.Box(), paddle.Box()) then (None, if paddle.shieldTimer <= 0 then lives - 1 else lives)
    else (Some(q), lives)
  }

  /** The projectile loop: the projectiles still flying and the lives left.
      Each life lost is paid for by a projectile that left the list, none is
      lost while the shield is up, and every projectile kept is on the
      screen and clear of the paddle. */
  function ProjectilesFold(paddle: P.PaddleState, lives: int, ps: seq<M.ProjectileState>): (r: (seq<M.ProjectileState>, int))
    ensures r.1 <= lives
    ensures |r.0| + (lives - r.1) <= |ps|
    ensures paddle.shieldTimer > 0 ==> r.1 == lives
    ensures forall i :: 0 <= i < |r.0| ==> M.OnScreen(r.0[i].x, r.0[i].y) && !Overlaps(r.0[i].Box(), paddle.Box())
    decreases |ps|
  {
    if ps == [] then ([], lives)
    else
      var (kept, l1) := ProjectilesFold(paddle, lives, ps[..|ps| - 1]);
      var (o, l2) := ProjectileHit(paddle, l1, ps[|ps| - 1]);
      (if o.Some? then kept + [o.value] else kept, l2)
  }

  /** A projectile that, after its step, is still on the screen and clear of the paddle. */
  predicate FliesOn(paddle: P.PaddleState, p: M.ProjectileState) {
    var q := M.Flown(p).1;
    M.OnScreen(q.x, q.y) && !Overlaps(q.Box(), paddle.Box())
  }

  /** A projectile that, after its step, is on the screen and on the paddle. */
  predicate HitsPaddle(paddle: P.PaddleState, p: M.ProjectileState) {
    var q := M.Flown(p).1;
    M.OnScreen(q.x, q.y) && Overlaps(q.Box(), paddle.Box())
  }

  /** The projectiles that fly on, each moved one step, in their order. */
  function Survivors(paddle: P.PaddleState, ps: seq<M.ProjectileState>): seq<M.ProjectileState>
    decreases |ps|
  {
    if ps == [] then []
    else (if FliesOn(paddle, ps[0]) then [M.Flown(ps[0]).1] else []) + Survivors(paddle, ps[1..])
  }

  /** How many projectiles reach the paddle. */
  function PaddleHits(paddle: P.PaddleState, ps: seq<M.ProjectileState>): nat
    decreases |ps|
  {
    if ps == [] then 0
    else (if HitsPaddle(paddle, ps[0]) then 1 else 0) + PaddleHits(paddle, ps[1..])
  }

  lemma {:induction false} SurvivorsAppend(paddle: P.PaddleState, ps: seq<M.ProjectileState>, p: M.ProjectileState)
    ensures Survivors(paddle, ps + [p]) == Survivors(paddle, ps) + (if FliesOn(paddle, p) then [M.Flown(p).1] else [])
    ensures PaddleHits(paddle, ps + [p]) == PaddleHits(paddle, ps) + (if HitsPaddle(paddle, p) then 1 else 0)
    decreases |ps|
  {
    if ps != [] {
      assert (ps + [p])[1..] == ps[1..] + [p];
      SurvivorsAppend(paddle, ps[1..], p);
    } else {
      assert [] + [p] == [p];
    }
  }

  /** The projectile loop keeps exactly the projectiles that fly on, moved
      and in order, and costs one life per projectile that reaches the
      paddle, none while the shield is up. */
  lemma {:induction false} ProjectilesFoldIs(paddle: P.PaddleState, lives: int, ps: seq<M.ProjectileState>)
    ensures ProjectilesFold(paddle, lives, ps)
         == (Survivors(paddle, ps), lives - (if paddle.shieldTimer > 0 then 0 else PaddleHits(paddle, ps)))
    decreases |ps|
  {
    if ps != [] {
      var init := ps[..|ps| - 1];
      var last := ps[|ps| - 1];
      ProjectilesFoldIs(paddle, lives, init);
      assert ps == init + [last];
      SurvivorsAppend(paddle, init, last);
      var l1 := ProjectilesFold(paddle, lives, init).1;
      var (o, l2) := ProjectileHit(paddle, l1, last);
      assert ProjectilesFold(paddle, lives, ps).1 == l2;
      if FliesOn(paddle, last) {
        assert o == Some(M.Flown(last).1) && l2 == l1;
        assert ProjectilesFold(paddle, lives, ps).0 == Survivors(paddle, init) + [M.Flown(last).1];
      } else {
        assert o == None;
        assert ProjectilesFold(paddle, lives, ps).0 == Survivors(paddle, init) == Survivors(paddle, ps);
        if HitsPaddle(paddle, last) {
          assert PaddleHits(paddle, ps) == PaddleHits(paddle, init) + 1;
          assert l2 == if paddle.shieldTimer <= 0 then l1 - 1 else l1;
        } else {
          assert PaddleHits(paddle, ps) == PaddleHits(paddle, init);
          assert l2 == l1;
        }
      }
    }
  }

  function ProjectilePhase(w: World): (r: World)
    ensures r == w.(projectiles := r.projectiles, lives := r.lives)
  {
    var (kept, l) := ProjectilesFold(w.paddle, w.lives, w.projectiles);
    w.(projectiles := kept, lives := l)
  }

  function ArenaOf(w: World): Arena {
    Arena(w.level, w.paddle, w.bricks, w.boss, w.score, w.powerups, w.draws)
  }

  /** The ball phase: every ball takes its turn against the shared arena;
      the balls still in play remain. */
  function BallPhase(w: World, env: Env): (r: World)
    ensures r == w.(balls := r.balls, bricks := r.bricks, boss := r.boss, score := r.score,
                    powerups := r.powerups, draws := r.draws)
  {
    var (a, kept) := BallsFold(ArenaOf(w), w.balls, env);
    w.(balls := kept, bricks := a.bricks, boss := a.boss, score := a.score, powerups := a.powerups, draws := a.draws)
  }

  /** The ball-loss check: with no ball left a life is lost, and one normal
      ball is served exactly when lives remain. */
  function BallLoss(w: World, env: Env): (r: World)
    ensures r == w.(lives := r.lives, balls := r.balls)
    ensures |w.balls| > 0 ==> r == w
    ensures |w.balls| == 0 ==> r.lives == w.lives - 1 && r.balls == (if r.lives > 0 then [ServeBall(env)] else [])
  {
    if |w.balls| == 0 then
      var l := w.lives - 1;
      w.(lives := l, balls := if l > 0 then [ServeBall(env)] else [])
    else w
  }

  /** The ball a multi-ball capsule adds: a fresh ball of the first ball's
      kind at its position, mirrored horizontally. */
  function MultiBallCopy(b: B.BallState, env: Env): (c: B.BallState)
    ensures c.kind == b.kind && c.x == b.x && c.y == b.y
    ensures c.speedX == -b.speedX && c.speedY == b.speedY
    ensures c.trail == [] && c.life == B.SpawnLife
    ensures B.BallOk(c)
  {
    B.NewBall(b.x, b.y, b.kind, env).(speedX := -b.speedX, speedY := b.speedY)
  }

  /** The ball kind a conversion capsule gives. */
  function ConversionKind(kind: PowerUpKind): BallKind
    requires kind == FireBall || kind == SteelBall || kind == LightningBall
  {
    match kind
    case FireBall => Fire
    case SteelBall => Steel
    case LightningBall => Lightning
  }

  predicate IsConversion(kind: PowerUpKind) {
    kind == FireBall || kind == SteelBall || kind == LightningBall
  }

  /** Game.apply_powerup. Wide, narrow and shield go to the paddle;
      multi-ball adds the copy of the first ball while fewer than four are in
      play; extra life adds a life; the conversions turn the ball one draw
      picks, when there is a ball at all. */
  function ApplyPowerUp(w: World, kind: PowerUpKind, env: Env): (r: World)
    ensures r == w.(paddle := r.paddle, balls := r.balls, lives := r.lives, draws := r.draws)
    ensures |w.balls| <= MaxBalls ==> |r.balls| <= MaxBalls
    ensures r.lives == w.lives + (if kind == ExtraLife then 1 else 0)
    ensures Coherent(w) ==> Coherent(r)
  {
    if kind == WidePaddle || kind == NarrowPaddle || kind == Shield then
      w.(paddle := P.Applied(w.paddle, kind))
    else if kind == MultiBall && |w.balls| < MaxBalls then
      if |w.balls| == 0 then w else w.(balls := w.balls + [MultiBallCopy(w.balls[0], env)])
    else if kind == ExtraLife then
      w.(lives := w.lives + 1)
    else if IsConversion(kind) then
      if |w.balls| == 0 then w
      else
        var i := env.pick(w.draws) % |w.balls|;
        w.(balls := w.balls[i := B.Converted(w.balls[i], ConversionKind(kind), env)], draws := w.draws + 1)
    else w
  }

  /** One capsule in the power-up loop: it falls; once inactive it goes; on
      the paddle it is applied and goes; otherwise it stays, moved. */
  function PowerUpStep(w: World, u: M.PowerUpState, env: Env): (r: (Option<M.PowerUpState>, World))
    ensures !M.Fallen(u).active ==> r == (None, w)
    ensures Caught(w.paddle, u) ==> r == (None, ApplyPowerUp(w, u.kind, env))
    ensures M.Fallen(u).active && !Caught(w.paddle, u) ==> r == (Some(M.Fallen(u)), w)
  {
    var u1 := M.Fallen(u);
    if !u1.active then (None, w)
    else if Overlaps(u1.Box(), w.paddle.Box()) then (None, ApplyPowerUp(w, u1.kind, env))
    else (Some(u1), w)
  }

  /** The power-up loop: the world after every capsule caught and the
      capsules still falling, all of them active. */
  function PowerUpsFold(w: World, us: seq<M.PowerUpState>, env: Env): (r: (World, seq<M.PowerUpState>))
    ensures |r.1| <= |us|
    ensures forall i :: 0 <= i < |r.1| ==> r.1[i].active
    ensures r.0 == w.(paddle := r.0.paddle, balls := r.0.balls, lives := r.0.lives, draws := r.0.draws)
    ensures Coherent(w) ==> Coherent(r.0)
    decreases |us|
  {
    if us == [] then (w, [])
    else
      var (w1, kept) := PowerUpsFold(w, us[..|us| - 1], env);
      var (o, w2) := PowerUpStep(w1, us[|us| - 1], env);
      (w2, if o.Some? then kept + [o.value] else kept)
  }

  /** A capsule that, after it falls, is still active and on the paddle. */
  predicate Caught(paddle: P.PaddleState, u: M.PowerUpState) {
    var v := M.Fallen(u);
    v.active && Overlaps(v.Box(), paddle.Box())
  }

  /** The capsules still active after they fall, moved, in their order. */
  function Falling(us: seq<M.PowerUpState>): seq<M.PowerUpState>
    decreases |us|
  {
    if us == [] then []
    else (if M.Fallen(us[0]).active then [M.Fallen(us[0])] else []) + Falling(us[1..])
  }

  lemma {:induction false} FallingAppend(us: seq<M.PowerUpState>, u: M.PowerUpState)
    ensures Falling(us + [u]) == Falling(us) + (if M.Fallen(u).active then [M.Fallen(u)] else [])
    decreases |us|
  {
    if us != [] {
      assert (us + [u])[1..] == us[1..] + [u];
      FallingAppend(us[1..], u);
    } else {
      assert [] + [u] == [u];
    }
  }

  /** With no capsule caught by the paddle, the capsule loop leaves the game
      alone and keeps every capsule still active, moved and in order. */
  lemma {:induction false} UncaughtCapsulesFall(w: World, us: seq<M.PowerUpState>, env: Env)
    requires forall i :: 0 <= i < |us| ==> !Caught(w.paddle, us[i])
    ensures PowerUpsFold(w, us, env) == (w, Falling(us))
    decreases |us|
  {
    if us != [] {
      var init := us[..|us| - 1];
      var last := us[|us| - 1];
      assert !Caught(w.paddle, us[|us| - 1]);
      UncaughtCapsulesFall(w, init, env);
      assert us == init + [last];
      FallingAppend(init, last);
      if M.Fallen(last).active {
        assert PowerUpsFold(w, us, env).1 == Falling(init) + [M.Fallen(last)] == Falling(us);
      } else {
        assert PowerUpsFold(w, us, env).1 == Falling(init) == Falling(us);
      }
    }
  }

  function PowerUpPhase(w: World, env: Env): (r: World)
    ensures r == w.(paddle := r.paddle, balls := r.balls, lives := r.lives, draws := r.draws, powerups := r.powerups)
  {
    var (w1, kept) := PowerUpsFold(w, w.powerups, env);
    w1.(powerups := kept)
  }

  /** Every ball sped up for the new level. */
  function SpeedUps(bs: seq<B.BallState>, env: Env): (r: seq<B.BallState>)
    ensures |r| == |bs|
    ensures forall i :: 0 <= i < |bs| ==> r[i] == B.SpedUp(bs[i], env)
  {
    seq(|bs|, i requires 0 <= i < |bs| => B.SpedUp(bs[i], env))
  }

  /** The level check: a cleared level moves on to the next one and, while
      that is not past level 7, resets the field for it and speeds up its
      ball. */
  function LevelPhase(w: World, env: Env): World {
    if LevelCleared(w.bricks, w.boss) then LevelUp(w, env) else w
  }

  /** The move to the next level; past level 7 only the counter moves. */
  function LevelUp(w: World, env: Env): World {
    var w1 := w.(level := w.level + 1);
    if w1.level <= MaxLevel then EnterLevel(w1, env) else w1
  }

  /** The two outcomes of the move to the next level. */
  lemma LevelUpIs(w: World, env: Env)
    ensures w.level + 1 <= MaxLevel ==> LevelUp(w, env) == EnterLevel(w.(level := w.level + 1), env)
    ensures w.level + 1 > MaxLevel ==> LevelUp(w, env) == w.(level := w.level + 1)
  {
  }

  /** The field reset for the level and its ball sped up. */
  function EnterLevel(w: World, env: Env): World {
    var w2 := ResetLevel(w, env);
    w2.(balls := SpeedUps(w2.balls, env))
  }

  /** Entering a level keeps the game coherent. */
  lemma EnterLevelCoherent(w: World, env: Env)
    requires w.level >= 1 && w.score >= 0
    ensures Coherent(EnterLevel(w, env))
  {
    ResetLevelCoherent(w, env);
    var w2 := ResetLevel(w, env);
    var sped := SpeedUps(w2.balls, env);
    assert |sped| == 1 && B.BallOk(sped[0]);
  }

  /** Game.update: the paddle's countdowns, then the boss, the projectiles,
      the balls, the ball-loss check, the capsules and the level check. */
  function Update(w: World, env: Env): World {
    var w0 := w.(paddle := P.Ticked(w.paddle));
    var w1 := BossPhase(w0, env);
    var w2 := ProjectilePhase(w1);
    var w3 := BallPhase(w2, env);
    var w4 := BallLoss(w3, env);
    var w5 := PowerUpPhase(w4, env);
    LevelPhase(w5, env)
  }

  /** Whether the game loop runs a frame: only while playing, with lives
      left and a level not past the last. */
  predicate Running(w: World) {
    w.phase == Playing && w.lives > 0 && w.level <= MaxLevel
  }

  /** One pass of the game loop after the events: input, then update, only
      while the game is running. */
  function RunFrame(w: World, cmd: P.PaddleCommand, env: Env): World {
    if Running(w) then Update(w.(paddle := P.Steered(w.paddle, cmd, env)), env) else w
  }

  /** Whether R restarts a game in play: the game is lost, won, or its level
      is cleared. */
  predicate RestartAllowed(w: World) {
    w.lives <= 0 || w.level > MaxLevel || LevelCleared(w.bricks, w.boss)
  }

  /** A key press in Game.run. */
  function Pressed(w: World, key: Key, env: Env): World {
    match w.phase
    case StartScreen => if key == Space then Restarted(w, env) else w
    case Playing =>
      if key == Escape then w.(phase := Paused)
      else if key == KeyR && RestartAllowed(w) then Restarted(w, env)
      else w
    case Paused =>
      if key == Escape then w.(phase := Playing)
      else if key == KeyR then Restarted(w, env)
      else w
  }
}
