/** The Game object (brick_breaker.py:517-853, 1296-1334): the state a
    running game holds, updated in place frame by frame. Each method is
    proved to do to the game's abstract value exactly what the matching
    rule on values does. */
module Engine {
  import opened Common
  import P = Paddles
  import B = Balls
  import opened Bricks
  import opened Levels
  import M = Missiles
  import opened Arenas
  import opened Worlds

  predicate Distinct<T(==)>(s: seq<T>) {
    forall i, j :: 0 <= i < j < |s| ==> s[i] != s[j]
  }

  /** The elements of kept are distinct elements of snap, taken in order
      from below index i at the indexes listed in from. */
  ghost predicate Picked<T>(snap: seq<T>, i: nat, kept: seq<T>, from: seq<nat>) {
    && i <= |snap|
    && |from| == |kept|
    && (forall j :: 0 <= j < |kept| ==> from[j] < i && kept[j] == snap[from[j]])
    && Distinct(kept)
  }

  /** Element i of a list of distinct elements is not among those picked
      below i, and may be picked next or passed over. */
  lemma PickNext<T>(snap: seq<T>, i: nat, kept: seq<T>, from: seq<nat>)
    requires i < |snap| && Distinct(snap) && Picked(snap, i, kept, from)
    ensures forall j :: 0 <= j < |kept| ==> kept[j] != snap[i]
    ensures Picked(snap, i + 1, kept, from)
    ensures Picked(snap, i + 1, kept + [snap[i]], from + [i])
  {
  }

  /** Every element of xs is an element of ys. */
  predicate Within<T(==)>(xs: seq<T>, ys: seq<T>) {
    forall j :: 0 <= j < |xs| ==> xs[j] in ys
  }

  function BallViews(bs: seq<B.Ball>): (r: seq<B.BallState>)
    reads bs
    ensures |r| == |bs| && forall i :: 0 <= i < |bs| ==> r[i] == bs[i].View()
  {
    seq(|bs|, i reads bs requires 0 <= i < |bs| => bs[i].View())
  }

  function BrickViews(ks: seq<Brick>): (r: seq<BrickState>)
    reads ks
    ensures |r| == |ks| && forall i :: 0 <= i < |ks| ==> r[i] == ks[i].View()
  {
    seq(|ks|, i reads ks requires 0 <= i < |ks| => ks[i].View())
  }

  function ProjectileViews(ps: seq<M.Projectile>): (r: seq<M.ProjectileState>)
    reads ps
    ensures |r| == |ps| && forall i :: 0 <= i < |ps| ==> r[i] == ps[i].View()
  {
    seq(|ps|, i reads ps requires 0 <= i < |ps| => ps[i].View())
  }

  function PowerUpViews(us: seq<M.PowerUp>): (r: seq<M.PowerUpState>)
    reads us
    ensures |r| == |us| && forall i :: 0 <= i < |us| ==> r[i] == us[i].View()
  {
    seq(|us|, i reads us requires 0 <= i < |us| => us[i].View())
  }

  function BossView(boss: BossBrick?): (r: Option<BossState>)
    reads boss
    ensures r.Some? <==> boss != null
    ensures boss != null ==> r.value == boss.View()
  {
    if boss == null then None else Some(boss.View())
  }

  class Game {
    const env: Env
    var phase: Phase
    var level: int
    var score: int
    var lives: int
    var draws: nat
    var paddle: P.Paddle
    var balls: seq<B.Ball>
    var bricks: seq<Brick>
    var boss: BossBrick?
    var projectiles: seq<M.Projectile>
    var powerups: seq<M.PowerUp>

    /** No object appears twice in one of the game's lists, so removing one
        by identity removes exactly that one. */
    predicate Valid()
      reads this
    {
      Distinct(balls) && Distinct(bricks) && Distinct(projectiles) && Distinct(powerups)
    }

    function View(): World
      reads this, paddle, balls, bricks, boss, projectiles, powerups
    {
      World(phase, level, score, lives, draws, paddle.View(), BallViews(balls), BrickViews(bricks),
            BossView(boss), ProjectileViews(projectiles), PowerUpViews(powerups))
    }

    /** The part of the game one ball acts on. */
    function ArenaView(): Arena
      reads this, paddle, bricks, boss, powerups
    {
      Arena(level, paddle.View(), BrickViews(bricks), BossView(boss), score, PowerUpViews(powerups), draws)
    }

    constructor (env0: Env)
      ensures env == env0
      ensures Valid() && View() == InitialWorld()
    {
      env := env0;
      phase, level, score, lives, draws := StartScreen, 1, 0, InitialLives, 0;
      paddle := new P.Paddle(CentreX, ScreenHeight - 30);
      balls, bricks, boss, projectiles, powerups := [], [], null, [], [];
    }

    /** handle_input: the pointer or the arrow keys steer the paddle. */
    method HandleInput(cmd: P.PaddleCommand)
      modifies paddle
      ensures paddle.View() == P.Steered(old(paddle.View()), cmd, env)
    {
      match cmd
      case Keys(left, right) =>
        if left {
          paddle.Move(P.Left);
        }
        if right {
          paddle.Move(P.Right);
        }
      case Pointer(mouseX) =>
        var diff := (mouseX - paddle.width / 2) - paddle.x;
        if diff > 2 || diff < -2 {
          paddle.x := env.ease(paddle.x, diff);
        }
        if paddle.x < 0 {
          paddle.x := 0;
        } else if paddle.x + paddle.width > ScreenWidth {
          paddle.x := ScreenWidth - paddle.width;
        }
    }

    /** The boss part of update: step a live boss and let it fire. */
    method UpdateBoss()
      requires Valid()
      modifies boss, this`projectiles
      ensures Valid()
      ensures View() == BossPhase(old(View()), env)
      ensures ProjectilesGrown()
    {
      if boss != null && !boss.destroyed {
        var fire := StepBoss();
        if fire {
          FireShot();
        }
      }
    }

    /** The boss moves and counts; on a shot its counter restarts. */
    method StepBoss() returns (fire: bool)
      requires boss != null
      modifies boss
      ensures (fire, boss.View()) == BossFrame(old(boss.View()))
      ensures View() == old(View()).(boss := Some(boss.View()))
    {
      ghost var w := View();
      fire := boss.Update();
      if fire {
        boss.ResetShootTimer();
      }
      assert View() == w.(boss := Some(boss.View()));
    }

    /** A projectile from the boss's bottom centre towards the paddle's centre. */
    method FireShot()
      requires Valid() && boss != null
      modifies this`projectiles
      ensures Valid()
      ensures View() == old(View()).(projectiles := old(View()).projectiles +
                [M.NewProjectile(old(boss.View()).Box().CenterX(), old(boss.View()).Box().Bottom(),
                                 old(paddle.View()).CenterX(), old(paddle.View()).Box().CenterY(), env)])
      ensures ProjectilesGrown()
    {
      var shot := new M.Projectile(boss.x + BossWidth / 2, boss.y + BossHeight,
                                   paddle.x + paddle.width / 2, paddle.y + P.PaddleHeight / 2, env);
      AddProjectile(shot);
    }

    /** The list of capsules has only grown, by new capsules at its end. */
    twostate predicate PowerUpsGrown()
      reads this
    {
      && |old(powerups)| <= |powerups|
      && (forall j :: 0 <= j < |old(powerups)| ==> powerups[j] == old(powerups)[j])
      && (forall j :: |old(powerups)| <= j < |powerups| ==> fresh(powerups[j]))
    }

    /** Every ball now in the list was there before or is new. */
    twostate predicate BallsGrown()
      reads this
    {
      forall j :: 0 <= j < |balls| ==> balls[j] in old(balls) || fresh(balls[j])
    }

    /** Every projectile now in the list was there before or is new. */
    twostate predicate ProjectilesGrown()
      reads this
    {
      forall j :: 0 <= j < |projectiles| ==> projectiles[j] in old(projectiles) || fresh(projectiles[j])
    }

    /** Appends a projectile that is not yet in the list. */
    method AddProjectile(shot: M.Projectile)
      requires Valid() && shot !in projectiles
      modifies this`projectiles
      ensures Valid()
      ensures projectiles == old(projectiles) + [shot]
      ensures View() == old(View()).(projectiles := old(View()).projectiles + [shot.View()])
    {
      projectiles := projectiles + [shot];
    }

    /** One projectile of the projectile loop: it moves, and the result says
        whether it stays; on the paddle it costs a life unless the shield
        is up. */
    method FlyProjectile(p: M.Projectile) returns (keep: bool)
      modifies p, this`lives
      ensures (if keep then Some(p.View()) else None, lives) == ProjectileHit(paddle.View(), old(lives), old(p.View()))
    {
      var onScreen := p.Update();
      if !onScreen {
        keep := false;
      } else if Overlaps(p.View().Box(), paddle.View().Box()) {
        if paddle.shieldTimer <= 0 {
          lives := lives - 1;
        }
        keep := false;
      } else {
        keep := true;
      }
    }

    /** What holds after the first i turns of the projectile loop over a
        snapshot whose projectiles had the views `views`: the kept
        projectiles and the lives are those of the fold over the first i
        views, the projectiles yet to fly are untouched, and the kept ones
        are distinct projectiles of the snapshot that have flown. */
    ghost predicate ProjectileLoop(snap: seq<M.Projectile>, i: nat, kept: seq<M.Projectile>, from: seq<nat>,
                                   pd: P.PaddleState, lives0: int, views: seq<M.ProjectileState>)
      reads this, paddle, snap, kept
    {
      && i <= |snap| == |views|
      && Distinct(snap)
      && paddle.View() == pd
      && (ProjectileViews(kept), lives) == ProjectilesFold(pd, lives0, views[..i])
      && (forall j :: i <= j < |snap| ==> snap[j].View() == views[j])
      && Picked(snap, i, kept, from)
    }

    /** One turn of the projectile loop: projectile i flies and is kept
        when it stays. */
    method ProjectileTurn(snap: seq<M.Projectile>, i: nat, kept: seq<M.Projectile>, ghost from: seq<nat>,
                          ghost pd: P.PaddleState, ghost lives0: int, ghost views: seq<M.ProjectileState>)
      returns (kept1: seq<M.Projectile>, ghost from1: seq<nat>)
      requires i < |snap| && ProjectileLoop(snap, i, kept, from, pd, lives0, views)
      modifies snap[i], this`lives
      ensures ProjectileLoop(snap, i + 1, kept1, from1, pd, lives0, views)
    {
      var p := snap[i];
      PickNext(snap, i, kept, from);
      var keep := FlyProjectile(p);
      ProjectilesFoldStep(pd, lives0, views, i);
      kept1, from1 := kept, from;
      if keep {
        kept1 := kept + [p];
        from1 := from + [i];
        assert ProjectileViews(kept1) == ProjectileViews(kept) + [p.View()];
      }
    }

    /** The projectile loop of update, over a snapshot of the list: the
        projectiles that stay, in order. */
    method FlyAll(snap: seq<M.Projectile>) returns (kept: seq<M.Projectile>)
      requires Distinct(snap)
      modifies this`lives, snap
      ensures Distinct(kept)
      ensures (ProjectileViews(kept), lives) == ProjectilesFold(paddle.View(), old(lives), old(ProjectileViews(snap)))
    {
      ghost var views := ProjectileViews(snap);
      ghost var pd := paddle.View();
      ghost var lives0 := lives;
      kept := [];
      ghost var from: seq<nat> := [];
      var i := 0;
      while i < |snap|
        invariant ProjectileLoop(snap, i, kept, from, pd, lives0, views)
      {
        kept, from := ProjectileTurn(snap, i, kept, from, pd, lives0, views);
        i := i + 1;
      }
      assert views[..|snap|] == views;
    }

    /** Replaces the list of projectiles. */
    method SetProjectiles(kept: seq<M.Projectile>)
      modifies this`projectiles
      ensures projectiles == kept
      ensures View() == old(View()).(projectiles := old(ProjectileViews(kept)))
    {
      projectiles := kept;
    }

    /** The projectile part of update. */
    method UpdateProjectiles()
      requires Valid()
      modifies this`projectiles, this`lives, projectiles
      ensures Valid()
      ensures View() == ProjectilePhase(old(View()))
    {
      ghost var w := View();
      var kept := FlyAll(projectiles);
      ghost var (ks, l) := ProjectilesFold(w.paddle, w.lives, w.projectiles);
      assert View().(projectiles := ks) == w.(projectiles := ks, lives := l);
      SetProjectiles(kept);
    }

    /** spawn_powerup: a capsule drops at (x, y) with chance 0.2, its kind
        drawn from the level's list. */
    method SpawnPowerUp(x: int, y: int)
      requires Valid()
      modifies this`powerups, this`draws
      ensures Valid()
      ensures ArenaView() == SpawnRoll(old(ArenaView()), x, y, env)
      ensures PowerUpsGrown()
    {
      ghost var a := ArenaView();
      if env.chance(draws) < DropChance {
        var kinds := DropKinds(level);
        var kind := kinds[env.pick(draws + 1) % |kinds|];
        var u := new M.PowerUp(x, y, kind);
        PowerUpViewsAppend(powerups, u);
        powerups := powerups + [u];
        draws := draws + 2;
        assert ArenaView() == a.(powerups := a.powerups + [M.NewPowerUp(x, y, kind)], draws := a.draws + 2);
      } else {
        draws := draws + 1;
      }
    }

    /** The brick loop's search: the first standing brick the box overlaps. */
    method FindBrick(box: Rect) returns (r: Option<nat>)
      ensures r == FirstHit(BrickViews(bricks), box)
    {
      ghost var views := BrickViews(bricks);
      var i := 0;
      while i < |bricks|
        invariant 0 <= i <= |bricks|
        invariant FirstHitFrom(views, box, 0) == FirstHitFrom(views, box, i)
      {
        if !bricks[i].destroyed && Overlaps(box, bricks[i].View().Box()) {
          return Some(i);
        }
        i := i + 1;
      }
      return None;
    }

    /** The ball against the boss: damage, 500 points for the kill, and the
        ball pierces or bounces. */
    method HitBoss(b: B.Ball)
      modifies boss, b, this`score
      ensures (ArenaView(), b.View()) == BossContact(old(ArenaView()), old(b.View()))
    {
      if boss != null && !boss.destroyed && Overlaps(b.View().Box(), boss.View().Box()) {
        var killed := boss.Hit(b.damage);
        if killed {
          score := score + BossScore;
        }
        Rebound(b);
      }
    }

    /** After a strike: a fire ball with a charge left spends it, any other
        ball bounces vertically. */
    method Rebound(b: B.Ball)
      modifies b
      ensures b.View() == AfterContact(old(b.View()))
    {
      var p := b.CanPierce();
      if !p {
        b.BounceY();
      }
    }

    /** The brick at index i takes the damage; a broken one scores and may
        drop a capsule. */
    method StrikeBrick(i: nat, damage: int)
      requires Valid() && i < |bricks|
      modifies bricks[i], this`score, this`powerups, this`draws
      ensures Valid()
      ensures ArenaView() == StrikeAt(old(ArenaView()), i, damage, env)
      ensures PowerUpsGrown()
    {
      ghost var a := ArenaView();
      var k := bricks[i];
      var broken := k.Hit(damage);
      assert BrickViews(bricks) == a.bricks[i := k.View()];
      ghost var a1 := ArenaView();
      assert a1 == a.(bricks := a.bricks[i := k.View()]);
      if broken {
        Reward(k.View().Box().CenterX(), k.View().Box().CenterY());
      }
    }

    /** A broken brick scores 10 points per level and rolls for a capsule
        at its centre. */
    method Reward(x: int, y: int)
      requires Valid()
      modifies this`score, this`powerups, this`draws
      ensures Valid()
      ensures ArenaView() == SpawnRoll(old(ArenaView()).(score := old(score) + BrickScore(level)), x, y, env)
      ensures PowerUpsGrown()
    {
      score := score + BrickScore(level);
      SpawnPowerUp(x, y);
    }

    /** The ball against the bricks: the first brick it can strike takes
        the damage, and the ball pierces or bounces. */
    method HitBricks(b: B.Ball)
      requires Valid()
      modifies bricks, b, this`score, this`powerups, this`draws
      ensures Valid()
      ensures (ArenaView(), b.View()) == BrickContact(old(ArenaView()), old(b.View()), env)
      ensures PowerUpsGrown()
    {
      ghost var a := ArenaView();
      ghost var bv := b.View();
      var hit := FindBrick(b.View().Box());
      if hit.Some? {
        StrikeBrick(hit.value, b.damage);
        assert ArenaView() == StrikeAt(a, hit.value, bv.damage, env);
        Rebound(b);
        assert b.View() == AfterContact(bv);
      }
    }

    /** One ball's turn in the ball loop; the result says whether it stays. */
    method ResolveBall(b: B.Ball) returns (keep: bool)
      requires Valid()
      modifies b, boss, bricks, this`score, this`powerups, this`draws
      ensures Valid()
      ensures (keep, ArenaView(), b.View()) == BallStep(old(ArenaView()), old(b.View()), env)
      ensures PowerUpsGrown()
    {
      var alive := b.Move();
      if !alive {
        return false;
      }
      Collide(b);
      keep := b.y + B.BallSize < ScreenHeight;
    }

    /** A moving ball against the walls, the paddle, the boss and the bricks. */
    method Collide(b: B.Ball)
      requires Valid()
      modifies b, boss, bricks, this`score, this`powerups, this`draws
      ensures Valid()
      ensures var (a3, b3) := BossContact(old(ArenaView()), PaddleBounce(WallBounce(old(b.View())), old(paddle.View()), env));
              (ArenaView(), b.View()) == BrickContact(a3, b3, env)
      ensures PowerUpsGrown()
    {
      ghost var a := ArenaView();
      BounceOffWallsAndPaddle(b);
      assert ArenaView() == a;
      ghost var b2 := b.View();
      HitBoss(b);
      ghost var (a3, b3) := BossContact(a, b2);
      assert ArenaView() == a3 && b.View() == b3;
      HitBricks(b);
    }

    /** The walls and the paddle turn the ball. */
    method BounceOffWallsAndPaddle(b: B.Ball)
      modifies b
      ensures b.View() == PaddleBounce(WallBounce(old(b.View())), paddle.View(), env)
    {
      if b.x <= 0 || b.x + B.BallSize >= ScreenWidth {
        b.BounceX();
      }
      if b.y <= 0 {
        b.BounceY();
      }
      if Overlaps(b.View().Box(), paddle.View().Box()) && b.speedY > 0 {
        b.BounceY();
        b.speedX := env.deflect(b.View().Box().CenterX(), paddle.View().CenterX(), paddle.width);
      }
    }

    /** What holds after the first i turns of the ball loop over a snapshot
        whose balls had the views `views` and whose arena was `a0`: the
        arena and the kept balls are those of the fold over the first i
        views, the balls yet to play are untouched, and the kept balls are
        distinct balls of the snapshot that have played. */
    ghost predicate BallLoop(snap: seq<B.Ball>, i: nat, kept: seq<B.Ball>, from: seq<nat>, a0: Arena, views: seq<B.BallState>)
      reads this, paddle, bricks, boss, powerups, snap, kept
    {
      && i <= |snap| == |views|
      && Valid() && Distinct(snap)
      && (ArenaView(), BallViews(kept)) == BallsFold(a0, views[..i], env)
      && (forall j :: i <= j < |snap| ==> snap[j].View() == views[j])
      && Picked(snap, i, kept, from)
    }

    /** Ball i of the snapshot plays its turn; the balls kept so far and
        those yet to play are not touched. */
    method PlayBall(snap: seq<B.Ball>, i: nat, kept: seq<B.Ball>) returns (keep: bool)
      requires i < |snap| && Valid() && Distinct(snap)
      requires forall j :: 0 <= j < |kept| ==> kept[j] != snap[i]
      modifies snap[i], boss, bricks, this`score, this`powerups, this`draws
      ensures Valid()
      ensures (keep, ArenaView(), snap[i].View()) == BallStep(old(ArenaView()), old(snap[i].View()), env)
      ensures BallViews(kept) == old(BallViews(kept))
      ensures forall j :: i < j < |snap| ==> snap[j].View() == old(snap[j].View())
      ensures PowerUpsGrown()
    {
      keep := ResolveBall(snap[i]);
    }

    /** One turn of the ball loop: ball i plays and joins the kept balls
        when it stays in play. */
    method BallTurn(snap: seq<B.Ball>, i: nat, kept: seq<B.Ball>, ghost from: seq<nat>, ghost a0: Arena, ghost views: seq<B.BallState>)
      returns (kept1: seq<B.Ball>, ghost from1: seq<nat>)
      requires i < |snap| && BallLoop(snap, i, kept, from, a0, views)
      modifies snap, boss, bricks, this`score, this`powerups, this`draws
      ensures BallLoop(snap, i + 1, kept1, from1, a0, views)
      ensures PowerUpsGrown()
    {
      PickNext(snap, i, kept, from);
      ghost var (a1, before) := BallsFold(a0, views[..i], env);
      var keep := PlayBall(snap, i, kept);
      ghost var a2 := ArenaView();
      ghost var b2 := snap[i].View();
      assert (keep, a2, b2) == BallStep(a1, views[i], env);
      assert BallViews(kept) == before;
      BallsFoldStep(a0, views, i, env);
      kept1, from1 := kept, from;
      if keep {
        kept1 := kept + [snap[i]];
        from1 := from + [i];
        BallViewsAppend(kept, snap[i]);
      }
      assert (a2, BallViews(kept1)) == BallsFold(a0, views[..i + 1], env);
    }

    /** The ball loop of update, over a snapshot of the list: the balls
        still in play, in order. */
    method ResolveAll(snap: seq<B.Ball>, ghost a0: Arena, ghost views: seq<B.BallState>)
      returns (kept: seq<B.Ball>, ghost from: seq<nat>)
      requires BallLoop(snap, 0, [], [], a0, views)
      modifies snap, boss, bricks, this`score, this`powerups, this`draws
      ensures BallLoop(snap, |snap|, kept, from, a0, views)
      ensures PowerUpsGrown()
    {
      kept, from := [], [];
      ghost var pu0 := powerups;
      for i := 0 to |snap|
        invariant BallLoop(snap, i, kept, from, a0, views)
        invariant |pu0| <= |powerups| && forall j :: 0 <= j < |pu0| ==> powerups[j] == pu0[j]
        invariant forall j :: |pu0| <= j < |powerups| ==> fresh(powerups[j])
      {
        kept, from := BallTurn(snap, i, kept, from, a0, views);
      }
    }

    /** Before the first ball, nothing is kept and the arena is untouched. */
    lemma BallLoopStarts(snap: seq<B.Ball>, a0: Arena, views: seq<B.BallState>)
      requires Valid() && Distinct(snap)
      requires a0 == ArenaView() && views == BallViews(snap)
      ensures BallLoop(snap, 0, [], [], a0, views)
    {
      assert views[..0] == [];
    }

    /** After the last ball, the loop has folded every ball. */
    lemma BallLoopEnds(snap: seq<B.Ball>, kept: seq<B.Ball>, from: seq<nat>, a0: Arena, views: seq<B.BallState>)
      requires BallLoop(snap, |snap|, kept, from, a0, views)
      ensures Valid() && Distinct(kept)
      ensures (ArenaView(), BallViews(kept)) == BallsFold(a0, views, env)
      ensures Within(kept, snap)
    {
      assert views[..|snap|] == views;
    }

    /** Replaces the list of balls. */
    method SetBalls(kept: seq<B.Ball>)
      modifies this`balls
      ensures balls == kept
      ensures View() == old(View()).(balls := old(BallViews(kept)))
      ensures Field() == old(Field()).(balls := old(BallViews(kept)))
    {
      balls := kept;
    }

    /** The ball part of update. */
    method UpdateBalls()
      requires Valid()
      modifies this`balls, balls, boss, bricks, this`score, this`powerups, this`draws
      ensures Valid()
      ensures View() == BallPhase(old(View()), env)
      ensures PowerUpsGrown()
      ensures Within(balls, old(balls))
    {
      var kept := PlayAll();
      SetBalls(kept);
    }

    /** Every ball of the list plays its turn; the game apart from the
        list of balls is then the ball phase's, with the kept balls. */
    method PlayAll() returns (kept: seq<B.Ball>)
      requires Valid()
      modifies balls, boss, bricks, this`score, this`powerups, this`draws
      ensures Valid() && Distinct(kept)
      ensures View().(balls := BallViews(kept)) == BallPhase(old(View()), env)
      ensures PowerUpsGrown()
      ensures Within(kept, old(balls))
    {
      ghost var w := View();
      assert ArenaOf(w) == ArenaView();
      kept := FoldAll();
      ghost var (a, ks) := BallsFold(ArenaOf(w), w.balls, env);
      assert ArenaView() == a && BallViews(kept) == ks;
      assert View().(balls := ks) == w.(balls := ks, bricks := a.bricks, boss := a.boss, score := a.score,
                                        powerups := a.powerups, draws := a.draws);
    }

    /** The ball loop from its first ball to its last. */
    method FoldAll() returns (kept: seq<B.Ball>)
      requires Valid()
      modifies balls, boss, bricks, this`score, this`powerups, this`draws
      ensures Valid() && Distinct(kept)
      ensures (ArenaView(), BallViews(kept)) == BallsFold(old(ArenaView()), old(BallViews(balls)), env)
      ensures PowerUpsGrown()
      ensures Within(kept, balls)
    {
      ghost var a0 := ArenaView();
      ghost var views := BallViews(balls);
      BallLoopStarts(balls, a0, views);
      ghost var from;
      kept, from := ResolveAll(balls, a0, views);
      BallLoopEnds(balls, kept, from, a0, views);
    }

    /** The game without its capsules: what the capsule loop threads from
        one capsule to the next while the capsules themselves fall. */
    function Field(): World
      reads this, paddle, balls, bricks, boss, projectiles
    {
      World(phase, level, score, lives, draws, paddle.View(), BallViews(balls), BrickViews(bricks),
            BossView(boss), ProjectileViews(projectiles), [])
    }

    /** The ball-loss check of update. */
    method CheckBallLoss()
      requires Valid()
      modifies this`lives, this`balls
      ensures Valid()
      ensures View() == BallLoss(old(View()), env)
      ensures BallsGrown()
    {
      if |balls| == 0 {
        lives := lives - 1;
        if lives > 0 {
          var b := new B.Ball(CentreX, CentreY, Normal, env);
          balls := [b];
        }
      }
    }

    /** apply_powerup for the paddle's capsules. */
    method ApplyToPaddle(kind: PowerUpKind)
      modifies paddle
      ensures Field() == old(Field()).(paddle := P.Applied(old(paddle.View()), kind))
    {
      paddle.ApplyPowerUp(kind);
    }

    /** apply_powerup for the multi-ball capsule: the mirrored copy of the
        first ball joins the balls. */
    method AddBallCopy()
      requires Valid() && |balls| > 0
      modifies this`balls
      ensures Valid()
      ensures Field() == old(Field()).(balls := old(Field()).balls + [MultiBallCopy(old(balls[0].View()), env)])
      ensures BallsGrown()
    {
      var copy := MirrorOf(balls[0]);
      assert BallViews(balls + [copy]) == old(Field()).balls + [copy.View()];
      SetBalls(balls + [copy]);
    }

    /** A new ball of the same kind at the same place, moving horizontally
        the other way. */
    method MirrorOf(first: B.Ball) returns (copy: B.Ball)
      ensures fresh(copy) && copy.View() == MultiBallCopy(first.View(), env)
    {
      copy := new B.Ball(first.x, first.y, first.kind, env);
      copy.speedX := -first.speedX;
      copy.speedY := first.speedY;
    }

    /** apply_powerup for the conversion capsules: the ball one draw picks
        takes the new kind. */
    method ConvertBall(kind: PowerUpKind)
      requires Valid() && |balls| > 0 && IsConversion(kind)
      modifies balls, this`draws
      ensures Valid()
      ensures var i := env.pick(old(draws)) % |balls|;
        Field() == old(Field()).(balls := old(Field()).balls[i := B.Converted(old(balls[i].View()), ConversionKind(kind), env)],
                                 draws := old(draws) + 1)
    {
      var i := env.pick(draws) % |balls|;
      ConvertAt(i, ConversionKind(kind));
      draws := draws + 1;
    }

    /** Ball i takes the kind. */
    method ConvertAt(i: nat, to: BallKind)
      requires Valid() && i < |balls| && to != Normal
      modifies balls[i]
      ensures Field() == old(Field()).(balls := old(Field()).balls[i := B.Converted(old(balls[i].View()), to, env)])
    {
      ghost var views := BallViews(balls);
      balls[i].Convert(to, env);
      assert BallViews(balls) == views[i := balls[i].View()];
    }

    /** apply_powerup. */
    method ApplyPowerUp(kind: PowerUpKind)
      requires Valid()
      modifies paddle, balls, this`balls, this`lives, this`draws
      ensures Valid()
      ensures Field() == Worlds.ApplyPowerUp(old(Field()), kind, env)
      ensures BallsGrown()
    {
      if kind == WidePaddle || kind == NarrowPaddle || kind == Shield {
        ApplyToPaddle(kind);
      } else if kind == ExtraLife {
        lives := lives + 1;
      } else {
        ApplyToBalls(kind);
      }
    }

    /** apply_powerup for the capsules that act on the balls: a copy of the
        first ball while fewer than four are in play, or the conversion of
        a ball one draw picks. */
    method ApplyToBalls(kind: PowerUpKind)
      requires Valid() && kind != WidePaddle && kind != NarrowPaddle && kind != Shield && kind != ExtraLife
      modifies balls, this`balls, this`draws
      ensures Valid()
      ensures Field() == Worlds.ApplyPowerUp(old(Field()), kind, env)
      ensures BallsGrown()
    {
      if kind == MultiBall && |balls| < MaxBalls {
        if |balls| > 0 {
          AddBallCopy();
        }
      } else if IsConversion(kind) {
        if |balls| > 0 {
          ConvertBall(kind);
        }
      }
    }

    /** What holds after the first i turns of the capsule loop over a
        snapshot whose capsules had the views `views`, starting from the
        game `w0`: the game without its capsules and the kept capsules are
        those of the fold over the first i views, the capsules yet to fall
        are untouched, and the kept ones are distinct capsules of the
        snapshot that have fallen. */
    ghost predicate PowerUpLoop(snap: seq<M.PowerUp>, i: nat, kept: seq<M.PowerUp>, from: seq<nat>, w0: World, views: seq<M.PowerUpState>)
      reads this, paddle, balls, bricks, boss, projectiles, snap, kept
    {
      && i <= |snap| == |views|
      && Valid() && Distinct(snap)
      && (Field(), PowerUpViews(kept)) == (PowerUpsFold(w0, views[..i], env).0.(powerups := []), PowerUpsFold(w0, views[..i], env).1)
      && (forall j :: i <= j < |snap| ==> snap[j].View() == views[j])
      && Picked(snap, i, kept, from)
    }

    /** Capsule i of the snapshot falls and, on the paddle, is applied; the
        result says whether it stays. */
    method CatchPowerUp(u: M.PowerUp) returns (keep: bool)
      requires Valid()
      modifies u, paddle, balls, this`balls, this`lives, this`draws
      ensures Valid()
      ensures (if keep then Some(u.View()) else None, Field()) ==
              var (o, w1) := PowerUpStep(old(Field()), old(u.View()), env); (o, w1)
      ensures BallsGrown()
    {
      ghost var w := Field();
      u.Move();
      assert Field() == w;
      if !u.active {
        keep := false;
      } else if Overlaps(u.View().Box(), paddle.View().Box()) {
        ApplyPowerUp(u.kind);
        keep := false;
      } else {
        keep := true;
      }
    }

    /** One turn of the capsule loop. */
    method PowerUpTurn(snap: seq<M.PowerUp>, i: nat, kept: seq<M.PowerUp>, ghost from: seq<nat>, ghost w0: World, ghost views: seq<M.PowerUpState>)
      returns (kept1: seq<M.PowerUp>, ghost from1: seq<nat>)
      requires i < |snap| && PowerUpLoop(snap, i, kept, from, w0, views)
      modifies snap[i], paddle, balls, this`balls, this`lives, this`draws
      ensures PowerUpLoop(snap, i + 1, kept1, from1, w0, views)
      ensures BallsGrown()
    {
      var u := snap[i];
      PickNext(snap, i, kept, from);
      ghost var (w1, before) := PowerUpsFold(w0, views[..i], env);
      ghost var kv := PowerUpViews(kept);
      var keep := CatchPowerUp(u);
      assert PowerUpViews(kept) == kv;
      ghost var (o, w2) := PowerUpStep(w1, views[i], env);
      ApplyIgnoresCapsules(w1, views[i], env);
      assert Field() == w2.(powerups := []);
      PowerUpsFoldStep(w0, views, i, env);
      kept1, from1 := kept, from;
      if keep {
        kept1 := kept + [u];
        from1 := from + [i];
        PowerUpViewsAppend(kept, u);
      }
    }

    /** The capsule loop of update, over a snapshot of the list. */
    method CatchAll(snap: seq<M.PowerUp>) returns (kept: seq<M.PowerUp>)
      requires Valid() && Distinct(snap)
      modifies snap, paddle, balls, this`balls, this`lives, this`draws
      ensures Valid() && Distinct(kept)
      ensures (Field(), PowerUpViews(kept)) ==
              var (w1, ks) := PowerUpsFold(old(Field()).(powerups := old(PowerUpViews(snap))), old(PowerUpViews(snap)), env);
              (w1.(powerups := []), ks)
    {
      ghost var views := PowerUpViews(snap);
      ghost var w0 := Field().(powerups := views);
      kept := [];
      ghost var from: seq<nat> := [];
      var i := 0;
      assert views[..0] == [];
      while i < |snap|
        invariant PowerUpLoop(snap, i, kept, from, w0, views)
        invariant BallsGrown()
      {
        kept, from := PowerUpTurn(snap, i, kept, from, w0, views);
        i := i + 1;
      }
      assert views[..|snap|] == views;
    }

    /** Replaces the list of capsules. */
    method SetPowerUps(kept: seq<M.PowerUp>)
      modifies this`powerups
      ensures powerups == kept
      ensures View() == old(Field()).(powerups := old(PowerUpViews(kept)))
    {
      powerups := kept;
    }

    /** The capsule part of update. */
    method UpdatePowerUps()
      requires Valid()
      modifies powerups, this`powerups, paddle, balls, this`balls, this`lives, this`draws
      ensures Valid()
      ensures View() == PowerUpPhase(old(View()), env)
    {
      ghost var w := View();
      assert w == Field().(powerups := PowerUpViews(powerups));
      var kept := CatchAll(powerups);
      SetPowerUps(kept);
    }

    /** The level completion test: every brick destroyed and no boss
        standing. */
    method LevelIsCleared() returns (r: bool)
      ensures r == LevelCleared(BrickViews(bricks), BossView(boss))
    {
      var i := 0;
      while i < |bricks|
        invariant i <= |bricks|
        invariant forall j :: 0 <= j < i ==> bricks[j].destroyed
      {
        if !bricks[i].destroyed {
          return false;
        }
        i := i + 1;
      }
      r := boss == null || boss.destroyed;
    }

    /** Appends the bricks of one row of the level's grid, column by column. */
    method FillRow(row: nat)
      requires Valid()
      modifies this`bricks
      ensures Valid()
      ensures BrickViews(bricks) == old(BrickViews(bricks)) + RowCells(level, row, Cols(level))
    {
      ghost var before := BrickViews(bricks);
      var col := 0;
      while col < Cols(level)
        invariant col <= Cols(level) && Valid()
        invariant BrickViews(bricks) == before + RowCells(level, row, col)
      {
        if InMask(level, row, col) {
          var k := new Brick(CellX(level, col), CellY(level, row), HitsAt(level, row, col));
          bricks := bricks + [k];
        }
        col := col + 1;
      }
    }

    /** Appends the bricks of the level's grid, row by row. */
    method FillGrid()
      requires Valid()
      modifies this`bricks
      ensures Valid()
      ensures View() == old(View()).(bricks := old(View()).bricks + Layout(level))
    {
      ghost var w := View();
      LayGrid();
      ghost var ks := BrickViews(bricks);
      assert View() == w.(bricks := ks);
    }

    /** The loops of the grid: rows, and within a row, columns. */
    method LayGrid()
      requires Valid()
      modifies this`bricks
      ensures Valid()
      ensures BrickViews(bricks) == old(BrickViews(bricks)) + Layout(level)
    {
      ghost var before := BrickViews(bricks);
      var row := 0;
      while row < Rows(level)
        invariant row <= Rows(level) && Valid()
        invariant BrickViews(bricks) == before + GridCells(level, row)
      {
        GridTurn(row, before);
        row := row + 1;
      }
    }

    /** One row of the grid. */
    method GridTurn(row: nat, ghost before: seq<BrickState>)
      requires Valid()
      requires BrickViews(bricks) == before + GridCells(level, row)
      modifies this`bricks
      ensures Valid()
      ensures BrickViews(bricks) == before + GridCells(level, row + 1)
    {
      ghost var laid := GridCells(level, row);
      ghost var cells := RowCells(level, row, Cols(level));
      FillRow(row);
      AppendAssoc(before, laid, cells);
    }

    /** create_bricks: the grid of an ordinary level. */
    method CreateBricks()
      requires Valid() && !IsBossLevel(level)
      modifies this`bricks
      ensures Valid()
      ensures View() == old(View()).(bricks := old(View()).bricks + Layout(level))
    {
      FillGrid();
    }

    /** create_boss_level: a new boss and its supporting bricks. */
    method CreateBossLevel()
      requires Valid() && IsBossLevel(level)
      modifies this`bricks, this`boss
      ensures Valid()
      ensures View() == old(View()).(bricks := old(View()).bricks + Layout(level), boss := BossOf(level))
    {
      ghost var w := View();
      boss := new BossBrick();
      ghost var w1 := View();
      assert w1 == w.(boss := Some(NewBoss()));
      FillGrid();
    }

    /** reset_level: a new paddle, one new ball, the level's bricks and
        boss, and no capsules or projectiles. */
    method ResetLevel()
      modifies this`paddle, this`balls, this`bricks, this`boss, this`projectiles, this`powerups
      ensures Valid()
      ensures View() == Worlds.ResetLevel(old(View()), env)
      ensures forall j :: 0 <= j < |balls| ==> fresh(balls[j])
    {
      ghost var w := View();
      ClearField();
      if IsBossLevel(level) {
        CreateBossLevel();
      } else {
        CreateBricks();
      }
      ghost var r := Worlds.ResetLevel(w, env);
      assert View() == r;
    }

    /** The first half of reset_level: a new paddle and one new ball, and
        nothing else on the field. */
    method ClearField()
      modifies this`paddle, this`balls, this`bricks, this`boss, this`projectiles, this`powerups
      ensures Valid()
      ensures View() == old(View()).(paddle := P.NewPaddle(PaddleStartX, PaddleStartY), balls := [ServeBall(env)],
                                     bricks := [], boss := None, projectiles := [], powerups := [])
      ensures forall j :: 0 <= j < |balls| ==> fresh(balls[j])
    {
      ServeAfresh();
      ghost var w := View();
      powerups := [];
      bricks := [];
      boss := null;
      projectiles := [];
      assert View() == w.(bricks := [], boss := None, projectiles := [], powerups := []);
    }

    /** A new paddle at its starting place and one new ball at the centre. */
    method ServeAfresh()
      modifies this`paddle, this`balls
      ensures View() == old(View()).(paddle := P.NewPaddle(PaddleStartX, PaddleStartY), balls := [ServeBall(env)])
      ensures |balls| == 1 && fresh(balls[0])
    {
      PlacePaddle();
      var b := new B.Ball(CentreX, CentreY, Normal, env);
      ghost var w := View();
      balls := [b];
      assert BallViews(balls) == [ServeBall(env)];
      assert View() == w.(balls := [ServeBall(env)]);
    }

    /** A new paddle at its starting place. */
    method PlacePaddle()
      modifies this`paddle
      ensures View() == old(View()).(paddle := P.NewPaddle(PaddleStartX, PaddleStartY))
    {
      ghost var w := View();
      paddle := new P.Paddle(PaddleStartX, PaddleStartY);
      assert View() == w.(paddle := P.NewPaddle(PaddleStartX, PaddleStartY));
    }

    /** The level check of update: a cleared level moves on to the next
        one and, up to the last level, resets the field for it and speeds
        up the new ball. */
    method CheckLevel()
      requires Valid()
      modifies this`level, this`paddle, this`balls, this`bricks, this`boss, this`projectiles, this`powerups
      ensures Valid()
      ensures View() == LevelPhase(old(View()), env)
    {
      var cleared := LevelIsCleared();
      if cleared {
        AdvanceLevel();
      }
    }

    /** The move to the next level: the counter moves on and, up to the
        last level, the field is reset for it and the new ball sped up. */
    method AdvanceLevel()
      requires Valid()
      modifies this`level, this`paddle, this`balls, this`bricks, this`boss, this`projectiles, this`powerups
      ensures Valid()
      ensures View() == Worlds.LevelUp(old(View()), env)
    {
      ghost var w := View();
      IncrementLevel();
      ghost var w1 := View();
      assert w1 == w.(level := w.level + 1);
      LevelUpIs(w, env);
      if level <= MaxLevel {
        EnterNextLevel();
      }
    }

    /** The field reset for the level just entered, its ball sped up. */
    method EnterNextLevel()
      requires Valid()
      modifies this`paddle, this`balls, this`bricks, this`boss, this`projectiles, this`powerups
      ensures Valid()
      ensures View() == EnterLevel(old(View()), env)
    {
      ghost var w := View();
      ResetLevel();
      ghost var w2 := View();
      assert w2 == Worlds.ResetLevel(w, env);
      SpeedUpAll();
      assert View() == w2.(balls := SpeedUps(w2.balls, env));
    }

    /** The level counter moves on. */
    method IncrementLevel()
      modifies this`level
      ensures View() == old(View()).(level := old(level) + 1)
    {
      level := level + 1;
    }

    /** The paddle's countdowns at the start of update. */
    method TickPaddle()
      modifies paddle
      ensures View() == old(View()).(paddle := P.Ticked(old(paddle.View())))
    {
      paddle.Update();
    }

    /** update: the paddle's countdowns, the boss, the projectiles, the
        balls, the ball-loss check, the capsules and the level check, in
        that order. */
    method Update()
      requires Valid()
      modifies this, paddle, balls, bricks, boss, projectiles, powerups
      ensures Valid()
      ensures View() == Worlds.Update(old(View()), env)
    {
      UpdateHazards();
      UpdateField();
      CheckLevel();
    }

    /** The balls, the ball-loss check, then the capsules. */
    method UpdateField()
      requires Valid()
      modifies balls, this`balls, boss, bricks, this`score, powerups, this`powerups, paddle, this`draws, this`lives
      ensures Valid()
      ensures View() == PowerUpPhase(BallLoss(BallPhase(old(View()), env), env), env)
    {
      UpdateBallsAndLives();
      UpdatePowerUps();
    }

    /** The middle part of update: the balls, then the ball-loss check. */
    method UpdateBallsAndLives()
      requires Valid()
      modifies this`balls, balls, boss, bricks, this`score, this`powerups, this`draws, this`lives
      ensures Valid()
      ensures View() == BallLoss(BallPhase(old(View()), env), env)
      ensures PowerUpsGrown()
      ensures BallsGrown()
    {
      UpdateBalls();
      CheckBallLoss();
    }

    /** The first part of update: the paddle's countdowns, the boss and
        the projectiles. */
    method UpdateHazards()
      requires Valid()
      modifies paddle, boss, projectiles, this`projectiles, this`lives
      ensures Valid()
      ensures View() == ProjectilePhase(BossPhase(old(View()).(paddle := P.Ticked(old(paddle.View()))), env))
    {
      TickPaddle();
      UpdateBoss();
      UpdateProjectiles();
    }

    /** handle_input, seen from the whole game. */
    method Steer(cmd: P.PaddleCommand)
      modifies paddle
      ensures View() == old(View()).(paddle := P.Steered(old(paddle.View()), cmd, env))
    {
      HandleInput(cmd);
    }

    /** One pass of the game loop after the events: input and update, only
        while playing with lives left and a level not past the last. */
    method RunFrame(cmd: P.PaddleCommand)
      requires Valid()
      modifies this, paddle, balls, bricks, boss, projectiles, powerups
      ensures Valid()
      ensures View() == Worlds.RunFrame(old(View()), cmd, env)
    {
      if phase == Playing && lives > 0 && level <= MaxLevel {
        Steer(cmd);
        Update();
      }
    }

    /** start_game: playing from level 1 with no score, three lives and a
        new paddle, on a freshly reset level. */
    method StartGame()
      modifies this
      ensures Valid()
      ensures View() == Restarted(old(View()), env)
    {
      SetPlaying();
      paddle := new P.Paddle(PaddleStartX, PaddleStartY);
      ResetLevel();
    }

    /** reset_game: as start_game, except that only reset_level makes the
        new paddle. */
    method ResetGame()
      modifies this
      ensures Valid()
      ensures View() == Restarted(old(View()), env)
    {
      SetPlaying();
      ResetLevel();
    }

    /** The first lines of start_game and reset_game: playing from level 1
        with no score and three lives. */
    method SetPlaying()
      modifies this`phase, this`level, this`score, this`lives
      ensures View() == old(View()).(phase := Playing, level := 1, score := 0, lives := InitialLives)
    {
      phase, level, score, lives := Playing, 1, 0, InitialLives;
    }

    /** A key press in the game loop. */
    method HandleKey(key: Key)
      requires Valid()
      modifies this
      ensures Valid()
      ensures View() == Pressed(old(View()), key, env)
    {
      ghost var w := View();
      match phase
      case StartScreen =>
        if key == Space {
          StartGame();
        }
      case Playing =>
        if key == Escape {
          SetPhase(Paused);
        } else if key == KeyR {
          var allowed := lives <= 0 || level > MaxLevel;
          if !allowed {
            allowed := LevelIsCleared();
          }
          assert allowed == RestartAllowed(w);
          if allowed {
            ResetGame();
          }
        }
      case Paused =>
        if key == Escape {
          SetPhase(Playing);
        } else if key == KeyR {
          ResetGame();
        }
    }

    method SetPhase(p: Phase)
      modifies this`phase
      ensures View() == old(View()).(phase := p)
    {
      phase := p;
    }

    /** Speeds up every ball for the new level. */
    method SpeedUpAll()
      requires Valid()
      modifies balls
      ensures View() == old(View()).(balls := SpeedUps(old(View()).balls, env))
    {
      ghost var w := View();
      SpeedUpEach();
      assert View() == w.(balls := SpeedUps(w.balls, env));
    }

    /** The loop over the balls of speed_up. */
    method SpeedUpEach()
      requires Distinct(balls)
      modifies balls
      ensures BallViews(balls) == SpeedUps(old(BallViews(balls)), env)
    {
      ghost var views := BallViews(balls);
      var i := 0;
      while i < |balls|
        invariant i <= |balls|
        invariant forall j :: 0 <= j < |balls| ==> balls[j].View() == if j < i then B.SpedUp(views[j], env) else views[j]
      {
        balls[i].SpeedUp(env);
        i := i + 1;
      }
      assert BallViews(balls) == SpeedUps(views, env);
    }
  }

  /** One more projectile of the loop. */
  lemma ProjectilesFoldStep(pd: P.PaddleState, lives: int, vs: seq<M.ProjectileState>, i: nat)
    requires i < |vs|
    ensures var (kept, l1) := ProjectilesFold(pd, lives, vs[..i]);
      var (o, l2) := ProjectileHit(pd, l1, vs[i]);
      ProjectilesFold(pd, lives, vs[..i + 1]) == (if o.Some? then kept + [o.value] else kept, l2)
  {
    assert vs[..i + 1][..i] == vs[..i];
  }

  /** One more ball of the loop. */
  lemma BallViewsAppend(bs: seq<B.Ball>, b: B.Ball)
    ensures BallViews(bs + [b]) == BallViews(bs) + [b.View()]
  {
  }

  lemma PowerUpViewsAppend(us: seq<M.PowerUp>, u: M.PowerUp)
    ensures PowerUpViews(us + [u]) == PowerUpViews(us) + [u.View()]
  {
  }

  lemma BallsFoldStep(a: Arena, vs: seq<B.BallState>, i: nat, env: Env)
    requires i < |vs|
    ensures var (a1, kept) := BallsFold(a, vs[..i], env);
      var (keep, a2, b2) := BallStep(a1, vs[i], env);
      BallsFold(a, vs[..i + 1], env) == (a2, if keep then kept + [b2] else kept)
  {
    assert vs[..i + 1][..i] == vs[..i];
  }

  /** One more capsule of the loop. */
  lemma PowerUpsFoldStep(w: World, vs: seq<M.PowerUpState>, i: nat, env: Env)
    requires i < |vs|
    ensures var (w1, kept) := PowerUpsFold(w, vs[..i], env);
      var (o, w2) := PowerUpStep(w1, vs[i], env);
      PowerUpsFold(w, vs[..i + 1], env) == (w2, if o.Some? then kept + [o.value] else kept)
  {
    assert vs[..i + 1][..i] == vs[..i];
  }

  /** A capsule's turn does not look at the other capsules. */
  lemma ApplyIgnoresCapsules(w: World, u: M.PowerUpState, env: Env)
    ensures var (o, w1) := PowerUpStep(w, u, env);
      PowerUpStep(w.(powerups := []), u, env) == (o, w1.(powerups := []))
  {
  }

  /** Concatenation regrouped, proved apart from the heap of the methods
      that need it so that their solver context stays small. */
  lemma AppendAssoc<T>(a: seq<T>, b: seq<T>, c: seq<T>)
    ensures (a + b) + c == a + (b + c)
  {
  }
}
