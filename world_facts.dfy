/** Properties of the game rules across whole frames, key presses and runs
    of both. */
module WorldFacts {
  import opened Common
  import P = Paddles
  import B = Balls
  import opened Bricks
  import opened Levels
  import M = Missiles
  import opened Arenas
  import opened Worlds

  /** What happens between two screens: a frame of the game loop with the
      paddle command read in it, or a key press. */
  datatype Event = Frame(cmd: P.PaddleCommand) | Press(key: Key)

  function Step(w: World, e: Event, env: Env): World {
    match e
    case Frame(cmd) => RunFrame(w, cmd, env)
    case Press(key) => Pressed(w, key, env)
  }

  /** The world after a run of events. */
  function Play(w: World, es: seq<Event>, env: Env): World
    decreases |es|
  {
    if es == [] then w else Play(Step(w, es[0], env), es[1..], env)
  }

  /** The level check keeps the game coherent. */
  lemma LevelPhaseKeepsCoherent(w: World, env: Env)
    requires Coherent(w)
    ensures Coherent(LevelPhase(w, env))
  {
    if LevelCleared(w.bricks, w.boss) {
      assert LevelPhase(w, env) == LevelUp(w, env);
      LevelUpCoherent(w, env);
    }
  }

  /** Moving to the next level keeps the game coherent. */
  lemma LevelUpCoherent(w: World, env: Env)
    requires Coherent(w)
    ensures Coherent(LevelUp(w, env))
  {
    var w1 := w.(level := w.level + 1);
    LevelUpIs(w, env);
    if w1.level <= MaxLevel {
      EnterLevelCoherent(w1, env);
    }
  }

  /** Every phase of Game.update keeps the game coherent: in particular
      there are never more than four balls. */
  lemma UpdateKeepsCoherent(w: World, env: Env)
    requires Coherent(w)
    ensures Coherent(Update(w, env))
  {
    var w0 := w.(paddle := P.Ticked(w.paddle));
    var w1 := BossPhase(w0, env);
    var w2 := ProjectilePhase(w1);
    assert Coherent(w2);
    BallsFoldFacts(ArenaOf(w2), w2.balls, env);
    var w3 := BallPhase(w2, env);
    assert Coherent(w3);
    var w4 := BallLoss(w3, env);
    var w5 := PowerUpPhase(w4, env);
    assert Coherent(w5);
    LevelPhaseKeepsCoherent(w5, env);
  }

  /** A frame of the game loop keeps the game coherent. */
  lemma FrameKeepsCoherent(w: World, cmd: P.PaddleCommand, env: Env)
    requires Coherent(w)
    ensures Coherent(RunFrame(w, cmd, env))
  {
    if Running(w) {
      UpdateKeepsCoherent(w.(paddle := P.Steered(w.paddle, cmd, env)), env);
    }
  }

  /** From the start screen, whatever frames and keys follow, the game stays
      coherent: at most four balls, a paddle on the screen with its
      countdowns in range, consistent bricks and boss. */
  lemma {:induction false} PlayKeepsCoherent(w: World, es: seq<Event>, env: Env)
    requires Coherent(w)
    ensures Coherent(Play(w, es, env))
    decreases |es|
  {
    if es != [] {
      if es[0].Frame? {
        FrameKeepsCoherent(w, es[0].cmd, env);
      }
      PlayKeepsCoherent(Step(w, es[0], env), es[1..], env);
    }
  }

  /** The ball cap: never more than four balls in play, from the start of
      the program on. */
  lemma NeverMoreThanFourBalls(es: seq<Event>, env: Env)
    ensures |Play(InitialWorld(), es, env).balls| <= MaxBalls
  {
    PlayKeepsCoherent(InitialWorld(), es, env);
  }

  /** The multi-ball capsule adds exactly one ball, the mirrored copy of the
      first, when one to three balls are in play, and does nothing otherwise. */
  lemma MultiBallAddsOne(w: World, env: Env)
    ensures var r := ApplyPowerUp(w, MultiBall, env);
      && (1 <= |w.balls| < MaxBalls ==>
            r == w.(balls := w.balls + [MultiBallCopy(w.balls[0], env)]))
      && (!(1 <= |w.balls| < MaxBalls) ==> r == w)
  {
  }

  /** A conversion capsule turns exactly the ball at the drawn index into
      its kind, spending one draw, and leaves every other ball alone; with
      no ball in play it does nothing and draws nothing. */
  lemma Conversion(w: World, kind: PowerUpKind, env: Env)
    requires IsConversion(kind)
    ensures var r := ApplyPowerUp(w, kind, env);
      && (|w.balls| == 0 ==> r == w)
      && (|w.balls| > 0 ==>
            var i := env.pick(w.draws) % |w.balls|;
            && |r.balls| == |w.balls| && r.draws == w.draws + 1
            && r.balls[i].kind == ConversionKind(kind)
            && r.balls[i] == B.Converted(w.balls[i], ConversionKind(kind), env)
            && (forall j :: 0 <= j < |w.balls| && j != i ==> r.balls[j] == w.balls[j])
            && r == w.(balls := r.balls, draws := r.draws))
  {
  }

  /** The extra-life capsule adds one life and nothing else. */
  lemma ExtraLifeAddsOne(w: World, env: Env)
    ensures ApplyPowerUp(w, ExtraLife, env) == w.(lives := w.lives + 1)
  {
  }

  /** The level check advances the level by one exactly when the level is
      cleared; in particular a standing boss holds the level even when no
      brick is left. */
  lemma LevelAdvance(w: World, env: Env)
    ensures LevelPhase(w, env).level == (if LevelCleared(w.bricks, w.boss) then w.level + 1 else w.level)
    ensures BossLive(w.boss) ==> LevelPhase(w, env) == w
    ensures LevelPhase(w, env).score == w.score && LevelPhase(w, env).lives == w.lives
  {
  }

  /** Advancing to a level up to 7 sets up that level afresh: its layout
      and boss, no capsules or projectiles, and one normal ball at the
      centre, sped up once. Past level 7 nothing else changes. */
  lemma NextLevel(w: World, env: Env)
    requires LevelCleared(w.bricks, w.boss)
    ensures var r := LevelPhase(w, env);
      && (r.level <= MaxLevel ==>
            && r.bricks == Layout(r.level) && r.boss == BossOf(r.level)
            && r.balls == [B.SpedUp(ServeBall(env), env)]
            && r.projectiles == [] && r.powerups == []
            && r.paddle == P.NewPaddle(PaddleStartX, PaddleStartY))
      && (r.level > MaxLevel ==> r == w.(level := w.level + 1))
  {
  }

  /** A frame moves the level on by at most one. */
  lemma FrameLevel(w: World, cmd: P.PaddleCommand, env: Env)
    ensures RunFrame(w, cmd, env).level == w.level || RunFrame(w, cmd, env).level == w.level + 1
  {
  }

  /** The score never drops during play: bricks and the boss only add to it. */
  lemma ScoreNeverDrops(w: World, cmd: P.PaddleCommand, env: Env)
    requires Coherent(w)
    ensures RunFrame(w, cmd, env).score >= w.score
  {
    if Running(w) {
      UpdateKeepsScore(w.(paddle := P.Steered(w.paddle, cmd, env)), env);
    }
  }

  /** Game.update never lowers the score. */
  lemma UpdateKeepsScore(w: World, env: Env)
    requires Coherent(w)
    ensures Update(w, env).score >= w.score
  {
    var w0 := w.(paddle := P.Ticked(w.paddle));
    var w1 := BossPhase(w0, env);
    var w2 := ProjectilePhase(w1);
    assert Coherent(w2);
    BallsFoldFacts(ArenaOf(w2), w2.balls, env);
    var w3 := BallPhase(w2, env);
    assert w3.score >= w.score;
    var w5 := PowerUpPhase(BallLoss(w3, env), env);
    assert w5.score == w3.score;
    LevelUpIs(w5, env);
  }

  /** After the ball-loss check an empty field means the game is lost. */
  lemma EmptyFieldMeansGameOver(w: World, env: Env)
    ensures var r := BallLoss(BallPhase(w, env), env);
      |r.balls| == 0 ==> r.lives <= 0
  {
  }

  /** Losing the last ball costs exactly one life and serves one new ball
      exactly when lives remain. */
  lemma BallLossAccounting(w: World, env: Env)
    requires |BallPhase(w, env).balls| == 0
    ensures var r := BallLoss(BallPhase(w, env), env);
      && r.lives == w.lives - 1
      && (|r.balls| == 1 <==> r.lives > 0)
      && (|r.balls| == 0 <==> r.lives <= 0)
  {
  }

  /** While the shield is up, no projectile costs a life. */
  lemma ShieldBlocks(w: World)
    requires w.paddle.shieldTimer > 0
    ensures ProjectilePhase(w).lives == w.lives
  {
  }

  /** Outside play, or once the game is lost or won, frames change nothing. */
  lemma FrozenUnlessRunning(w: World, cmd: P.PaddleCommand, env: Env)
    requires !Running(w)
    ensures RunFrame(w, cmd, env) == w
  {
  }

  /** Escape pauses a game in play and resumes it where it was. */
  lemma PauseResume(w: World, env: Env)
    requires w.phase == Playing
    ensures Pressed(w, Escape, env).phase == Paused
    ensures Pressed(Pressed(w, Escape, env), Escape, env) == w
  {
  }

  /** R restarts a game in play only once it is lost, won or cleared, and
      a paused game always; a restart plays level 1 with no score and three
      lives on a coherent field. */
  lemma RestartGuard(w: World, env: Env)
    requires w.phase == Playing || w.phase == Paused
    ensures w.phase == Paused || RestartAllowed(w) ==>
      var r := Pressed(w, KeyR, env);
      r.phase == Playing && r.level == 1 && r.score == 0 && r.lives == InitialLives && Coherent(r)
    ensures !(w.phase == Paused || RestartAllowed(w)) ==> Pressed(w, KeyR, env) == w
  {
    if w.phase == Paused || RestartAllowed(w) {
      assert Pressed(w, KeyR, env) == Restarted(w, env);
    }
  }

  /** Escape toggles between play and pause and changes nothing else: pressed
      twice it gives back the same game. */
  lemma EscapeToggles(w: World, env: Env)
    requires w.phase == Playing || w.phase == Paused
    ensures Pressed(w, Escape, env).phase != w.phase
    ensures Pressed(w, Escape, env) == w.(phase := Pressed(w, Escape, env).phase)
    ensures Pressed(Pressed(w, Escape, env), Escape, env) == w
  {
  }

  /** The start screen waits for space. */
  lemma StartScreenWaits(w: World, key: Key, env: Env)
    requires w.phase == StartScreen
    ensures key == Space ==> Pressed(w, key, env) == Restarted(w, env)
    ensures key != Space ==> Pressed(w, key, env) == w
  {
  }
}
