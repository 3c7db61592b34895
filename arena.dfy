/** What one ball does in one frame of Game.update (brick_breaker.py:732-780):
    it moves, bounces off the walls and the paddle, strikes the boss, strikes
    at most one brick, and may drop out of the bottom of the screen. The
    shared state a ball acts on is an arena: the level, the paddle, the
    bricks, the boss, the score, the falling power-ups and the position in
    the random stream. */
module Arenas {
  import opened Common
  import P = Paddles
  import B = Balls
  import opened Bricks
  import L = Levels
  import M = Missiles

  datatype Arena = Arena(
    level: int, paddle: P.PaddleState, bricks: seq<BrickState>, boss: Option<BossState>,
    score: int, powerups: seq<M.PowerUpState>, draws: nat)

  /** The score a broken brick awards on a level, and the score for the boss. */
  function BrickScore(level: int): int { 10 * level }
  const BossScore := 500

  /** The chance, out of one, that a broken brick drops a power-up. */
  const DropChance: real := 0.2

  /** Bounce off the side walls and the ceiling: the horizontal speed turns
      when the ball touches either side, the vertical speed when it touches
      the top. */
  function WallBounce(b: B.BallState): (r: B.BallState)
    ensures r == b.(speedX := r.speedX, speedY := r.speedY)
    ensures r.speedX == (if b.x <= 0 || b.x + B.BallSize >= ScreenWidth then -b.speedX else b.speedX)
    ensures r.speedY == (if b.y <= 0 then -b.speedY else b.speedY)
  {
    var b1 := if b.x <= 0 || b.Box().Right() >= ScreenWidth then B.BouncedX(b) else b;
    if b1.y <= 0 then B.BouncedY(b1) else b1
  }

  /** A ball coming down onto the paddle goes back up, with the horizontal
      speed the environment derives from where on the paddle it landed; a
      ball already going up passes through. */
  function PaddleBounce(b: B.BallState, paddle: P.PaddleState, env: Env): (r: B.BallState)
    ensures r == b.(speedX := r.speedX, speedY := r.speedY)
    ensures Overlaps(b.Box(), paddle.Box()) && b.speedY > 0 ==>
      r.speedY == -b.speedY && r.speedY < 0 && r.speedX == env.deflect(b.Box().CenterX(), paddle.CenterX(), paddle.width)
    ensures !(Overlaps(b.Box(), paddle.Box()) && b.speedY > 0) ==> r == b
  {
    if Overlaps(b.Box(), paddle.Box()) && b.speedY > 0 then
      var b1 := B.BouncedY(b);
      b1.(speedX := env.deflect(b1.Box().CenterX(), paddle.CenterX(), paddle.width))
    else b
  }

  /** After striking something, a fire ball with a charge left spends it and
      flies on; any other ball bounces vertically. */
  function AfterContact(b: B.BallState): (r: B.BallState)
    ensures r == b.(pierce := r.pierce, speedY := r.speedY)
    ensures b.kind == Fire && b.pierce > 0 ==> r.pierce == b.pierce - 1 && r.speedY == b.speedY
    ensures !(b.kind == Fire && b.pierce > 0) ==> r.pierce == b.pierce && r.speedY == -b.speedY
  {
    var (p, b1) := B.Pierced(b);
    if p then b1 else B.BouncedY(b1)
  }

  predicate BossLive(boss: Option<BossState>) {
    boss.Some? && !boss.value.destroyed
  }

  /** The ball against the boss: a live boss it overlaps takes the ball's
      damage, 500 points are scored when that kills it, and the ball
      pierces or bounces. */
  function BossContact(a: Arena, b: B.BallState): (r: (Arena, B.BallState))
    ensures r.0 == a.(boss := r.0.boss, score := r.0.score)
    ensures r.0.score == a.score + (if BossFell(a.boss, r.0.boss) then BossScore else 0)
    ensures r.0.boss.Some? <==> a.boss.Some?
    ensures r.0.boss != a.boss ==> BossLive(a.boss) && r.0.boss.value.health == a.boss.value.health - b.damage
    ensures ArenaOk(a) && B.BallOk(b) ==> ArenaOk(r.0) && B.BallOk(r.1)
    ensures BossLive(a.boss) && Overlaps(b.Box(), a.boss.value.Box()) ==>
      r.0.boss == Some(BossStruck(a.boss.value, b.damage).1) && r.1 == AfterContact(b)
    ensures !(BossLive(a.boss) && Overlaps(b.Box(), a.boss.value.Box())) ==> r == (a, b)
  {
    if BossLive(a.boss) && Overlaps(b.Box(), a.boss.value.Box()) then
      var (killed, s1) := BossStruck(a.boss.value, b.damage);
      (a.(boss := Some(s1), score := if killed then a.score + BossScore else a.score), AfterContact(b))
    else (a, b)
  }

  /** A brick the ball can strike: still standing and overlapping it. */
  predicate Hittable(k: BrickState, box: Rect) {
    !k.destroyed && Overlaps(box, k.Box())
  }

  /** The first brick from index i on that the ball can strike. */
  function FirstHitFrom(bricks: seq<BrickState>, box: Rect, i: nat): (r: Option<nat>)
    requires i <= |bricks|
    ensures r.Some? ==> i <= r.value < |bricks| && Hittable(bricks[r.value], box)
    ensures forall j :: i <= j < |bricks| && (r.None? || j < r.value) ==> !Hittable(bricks[j], box)
    decreases |bricks| - i
  {
    if i == |bricks| then None
    else if Hittable(bricks[i], box) then Some(i)
    else FirstHitFrom(bricks, box, i + 1)
  }

  /** The brick the loop over self.bricks stops at, if any. */
  function FirstHit(bricks: seq<BrickState>, box: Rect): (r: Option<nat>)
    ensures r.Some? ==> r.value < |bricks| && Hittable(bricks[r.value], box)
    ensures forall j :: 0 <= j < |bricks| && (r.None? || j < r.value) ==> !Hittable(bricks[j], box)
  {
    FirstHitFrom(bricks, box, 0)
  }

  /** The kinds of power-up a level drops. */
  function DropKinds(level: int): (r: seq<PowerUpKind>)
    ensures |r| > 0
    ensures L.IsBossLevel(level) ==> r == BossKinds
    ensures !L.IsBossLevel(level) ==> r == AllKinds
  {
    if L.IsBossLevel(level) then BossKinds else AllKinds
  }

  /** spawn_powerup: one draw decides, with chance 0.2, whether a capsule
      drops at (x, y); if it does, a second draw picks its kind from the
      level's list. */
  function SpawnRoll(a: Arena, x: int, y: int, env: Env): (r: Arena)
    ensures r == a.(powerups := r.powerups, draws := r.draws)
    ensures env.chance(a.draws) < DropChance ==>
      && r.draws == a.draws + 2
      && r.powerups == a.powerups + [M.NewPowerUp(x, y, DropKinds(a.level)[env.pick(a.draws + 1) % |DropKinds(a.level)|])]
    ensures env.chance(a.draws) >= DropChance ==> r.draws == a.draws + 1 && r.powerups == a.powerups
  {
    if env.chance(a.draws) < DropChance then
      var kinds := DropKinds(a.level);
      var kind := kinds[env.pick(a.draws + 1) % |kinds|];
      a.(powerups := a.powerups + [M.NewPowerUp(x, y, kind)], draws := a.draws + 2)
    else a.(draws := a.draws + 1)
  }

  /** The ball against the bricks: the first brick it can strike takes the
      ball's damage; breaking it scores 10 points per level and rolls for a
      power-up at the brick's centre; the ball pierces or bounces. No other
      brick is touched. */
  function BrickContact(a: Arena, b: B.BallState, env: Env): (r: (Arena, B.BallState))
    ensures FirstHit(a.bricks, b.Box()).None? ==> r == (a, b)
    ensures FirstHit(a.bricks, b.Box()).Some? ==> r.1 == AfterContact(b)
  {
    match FirstHit(a.bricks, b.Box())
    case None => (a, b)
    case Some(i) => (StrikeAt(a, i, b.damage, env), AfterContact(b))
  }

  /** The brick at index i takes the damage; breaking it scores 10 points
      per level and rolls for a power-up at the brick's centre. */
  function StrikeAt(a: Arena, i: nat, damage: int, env: Env): (r: Arena)
    requires i < |a.bricks|
    ensures r == a.(bricks := r.bricks, score := r.score, powerups := r.powerups, draws := r.draws)
    ensures r.bricks == a.bricks[i := Struck(a.bricks[i], damage).1]
  {
    var (broken, k1) := Struck(a.bricks[i], damage);
    var a1 := a.(bricks := a.bricks[i := k1]);
    if broken then SpawnRoll(a1.(score := a1.score + BrickScore(a1.level)), k1.Box().CenterX(), k1.Box().CenterY(), env)
    else a1
  }

  /** One ball's turn in the ball loop: whether it stays in play, the arena
      after it and the ball after it. An expired special ball leaves at
      once; any other ball moves, bounces off the walls and the paddle,
      strikes the boss and the bricks, and leaves if its bottom edge has
      reached the bottom of the screen. */
  function BallStep(a: Arena, b: B.BallState, env: Env): (r: (bool, Arena, B.BallState))
    ensures b.kind != Normal && b.life <= 1 ==> r == (false, a, b.(life := b.life - 1))
    ensures r.0 ==> r.2.y + B.BallSize < ScreenHeight
    ensures !(b.kind != Normal && b.life <= 1) ==> (r.0 <==> r.2.Box().Bottom() < ScreenHeight)
  {
    var (alive, b1) := B.Moved(b);
    if !alive then (false, a, b1)
    else
      var b2 := PaddleBounce(WallBounce(b1), a.paddle, env);
      var (a3, b3) := BossContact(a, b2);
      var (a4, b4) := BrickContact(a3, b3, env);
      (b4.Box().Bottom() < ScreenHeight, a4, b4)
  }

  /** The ball loop over a list of balls: the arena after all of them and the
      balls still in play, in their original order. */
  function BallsFold(a: Arena, bs: seq<B.BallState>, env: Env): (r: (Arena, seq<B.BallState>))
    ensures |r.1| <= |bs|
    decreases |bs|
  {
    if bs == [] then (a, [])
    else
      var (a1, kept) := BallsFold(a, bs[..|bs| - 1], env);
      var (keep, a2, b2) := BallStep(a1, bs[|bs| - 1], env);
      (a2, if keep then kept + [b2] else kept)
  }

  /** What holds of the arena between balls: every brick is consistent, the
      boss is consistent, and the score is not negative. */
  predicate ArenaOk(a: Arena) {
    && (forall i :: 0 <= i < |a.bricks| ==> BrickOk(a.bricks[i]))
    && (a.boss.Some? ==> BossOk(a.boss.value))
    && a.level >= 1
    && a.score >= 0
  }

  /** Two brick lists that differ in at most one place, where a standing
      brick took the given damage. */
  predicate OneStrike(before: seq<BrickState>, after: seq<BrickState>, damage: int) {
    && |after| == |before|
    && (forall i, j :: 0 <= i < j < |before| ==> before[i] == after[i] || before[j] == after[j])
    && (forall i :: 0 <= i < |before| && after[i] != before[i] ==>
          !before[i].destroyed && after[i] == Struck(before[i], damage).1)
  }

  /** Whether a brick that stood before has fallen after. */
  predicate SomeBrickFell(before: seq<BrickState>, after: seq<BrickState>)
    requires |after| == |before|
  {
    exists i :: 0 <= i < |before| && !before[i].destroyed && after[i].destroyed
  }

  predicate BossFell(before: Option<BossState>, after: Option<BossState>) {
    BossLive(before) && after.Some? && after.value.destroyed
  }

  /** The brick contact strikes at most one brick, with the ball's damage,
      and awards 10 points per level exactly when it breaks it. */
  lemma BrickContactFacts(a: Arena, b: B.BallState, env: Env)
    requires ArenaOk(a) && B.BallOk(b)
    ensures var (a1, b1) := BrickContact(a, b, env);
      && OneStrike(a.bricks, a1.bricks, b.damage)
      && a1.score == a.score + (if SomeBrickFell(a.bricks, a1.bricks) then BrickScore(a.level) else 0)
      && a1.boss == a.boss && a1.level == a.level && a1.paddle == a.paddle
      && ArenaOk(a1) && B.BallOk(b1)
      && |a.powerups| <= |a1.powerups| <= |a.powerups| + 1
      && a1.powerups[..|a.powerups|] == a.powerups
  {
    var (a1, b1) := BrickContact(a, b, env);
    match FirstHit(a.bricks, b.Box())
    case None =>
      Untouched(a.bricks, b.damage);
    case Some(i) =>
      var (broken, k1) := Struck(a.bricks[i], b.damage);
      assert a1.bricks == a.bricks[i := k1];
      if broken {
        assert !a.bricks[i].destroyed && a1.bricks[i].destroyed;
      } else {
        forall j | 0 <= j < |a.bricks| ensures !(!a.bricks[j].destroyed && a1.bricks[j].destroyed) {
        }
      }
  }

  /** The brick struck is the earliest standing brick, in the order the
      bricks were laid, that the ball overlaps; with no such brick neither
      the arena nor the ball changes. */
  lemma EarliestBrickStruck(a: Arena, b: B.BallState, env: Env)
    ensures var (a1, b1) := BrickContact(a, b, env);
      && (forall i ::
            (0 <= i < |a.bricks| && Hittable(a.bricks[i], b.Box())
             && (forall j :: 0 <= j < i ==> !Hittable(a.bricks[j], b.Box()))) ==>
            a1.bricks == a.bricks[i := Struck(a.bricks[i], b.damage).1] && b1 == AfterContact(b))
      && ((forall i :: 0 <= i < |a.bricks| ==> !Hittable(a.bricks[i], b.Box())) ==> a1 == a && b1 == b)
  {
    var (a1, b1) := BrickContact(a, b, env);
    var hit := FirstHit(a.bricks, b.Box());
    forall i | 0 <= i < |a.bricks| && Hittable(a.bricks[i], b.Box()) &&
               (forall j :: 0 <= j < i ==> !Hittable(a.bricks[j], b.Box()))
      ensures a1.bricks == a.bricks[i := Struck(a.bricks[i], b.damage).1] && b1 == AfterContact(b)
    {
      assert hit.Some? && hit.value == i;
    }
  }

  /** A brick list left alone took no strike and lost no brick. */
  lemma Untouched(bricks: seq<BrickState>, damage: int)
    ensures OneStrike(bricks, bricks, damage) && !SomeBrickFell(bricks, bricks)
  {
  }

  /** One ball's turn strikes at most one brick, never revives one, changes
      only the bricks, the boss, the score, the capsules and the draws, and
      scores 500 for a fallen boss plus 10 per level for a broken brick. */
  lemma BallStepFacts(a: Arena, b: B.BallState, env: Env)
    requires ArenaOk(a) && B.BallOk(b)
    ensures var (keep, a1, b1) := BallStep(a, b, env);
      && ArenaOk(a1) && B.BallOk(b1)
      && OneStrike(a.bricks, a1.bricks, b.damage)
      && a1.level == a.level && a1.paddle == a.paddle
      && a1.score == a.score
           + (if BossFell(a.boss, a1.boss) then BossScore else 0)
           + (if SomeBrickFell(a.bricks, a1.bricks) then BrickScore(a.level) else 0)
      && (keep ==> b1.y + B.BallSize < ScreenHeight)
      && |a.powerups| <= |a1.powerups| <= |a.powerups| + 1
      && a1.powerups[..|a.powerups|] == a.powerups
  {
    var (alive, b1) := B.Moved(b);
    if alive {
      var b2 := PaddleBounce(WallBounce(b1), a.paddle, env);
      var (a3, b3) := BossContact(a, b2);
      BrickContactFacts(a3, b3, env);
    } else {
      Untouched(a.bricks, b.damage);
    }
  }

  /** The ball loop keeps the arena consistent, keeps only consistent balls,
      never lowers the score and never revives a brick. */
  lemma {:induction false} BallsFoldFacts(a: Arena, bs: seq<B.BallState>, env: Env)
    requires ArenaOk(a) && forall i :: 0 <= i < |bs| ==> B.BallOk(bs[i])
    ensures var (a1, kept) := BallsFold(a, bs, env);
      && ArenaOk(a1)
      && (forall i :: 0 <= i < |kept| ==> B.BallOk(kept[i]))
      && a1.score >= a.score
      && a1.level == a.level && a1.paddle == a.paddle
      && |a1.bricks| == |a.bricks|
      && (forall i :: 0 <= i < |a.bricks| && a.bricks[i].destroyed ==> a1.bricks[i].destroyed)
    decreases |bs|
  {
    if bs != [] {
      var (a1, kept) := BallsFold(a, bs[..|bs| - 1], env);
      BallsFoldFacts(a, bs[..|bs| - 1], env);
      BallStepFacts(a1, bs[|bs| - 1], env);
      var (keep, a2, b2) := BallStep(a1, bs[|bs| - 1], env);
      forall i | 0 <= i < |a.bricks| && a.bricks[i].destroyed
        ensures a2.bricks[i].destroyed
      {
        assert a1.bricks[i].destroyed;
      }
    }
  }
}
