/** Shared vocabulary of the brick breaker engine: the screen, integer
    rectangles with pygame's overlap test, the kinds of balls and power-ups,
    and the oracle that stands in for floating-point physics and for the
    random module. */
module Common {

  datatype Option<T> = None | Some(value: T)

  /** A trail position: the centre of a ball on an earlier frame. */
  type Point = (int, int)

  const ScreenWidth := 875
  const ScreenHeight := 600

  /** An axis-aligned rectangle in screen pixels, as a pygame Rect. */
  datatype Rect = Rect(x: int, y: int, w: int, h: int) {
    function Right(): int { x + w }
    function Bottom(): int { y + h }
    /** pygame's centerx/centery: the left or top edge plus half the size, rounded down. */
    function CenterX(): int { x + w / 2 }
    function CenterY(): int { y + h / 2 }
  }

  /** pygame's colliderect for rectangles of positive size: the interiors meet. */
  predicate Overlaps(a: Rect, b: Rect) {
    a.x < b.Right() && b.x < a.Right() && a.y < b.Bottom() && b.y < a.Bottom()
  }

  datatype BallKind = Normal | Fire | Steel | Lightning

  datatype PowerUpKind =
    | WidePaddle | NarrowPaddle | MultiBall | ExtraLife
    | FireBall | SteelBall | LightningBall | Shield

  /** The eight kinds a brick can drop on an ordinary level, in the order of
      the game's list (brick_breaker.py:651-652). */
  const AllKinds: seq<PowerUpKind> :=
    [WidePaddle, NarrowPaddle, MultiBall, ExtraLife, FireBall, SteelBall, LightningBall, Shield]

  /** The five kinds a brick can drop on a boss level (brick_breaker.py:655). */
  const BossKinds: seq<PowerUpKind> := [FireBall, SteelBall, LightningBall, Shield, ExtraLife]

  /** Everything the engine computes with floats or draws at random, given
      as functions of their integer inputs:
      - deflect(ballCentreX, paddleCentreX, paddleWidth): the horizontal speed
        after a paddle contact (BALL_SPEED_X * hit_pos * 0.5);
      - boost(v): a lightning ball's speed (v * 1.5);
      - speedUp(v): a ball's speed at the start of a new level (v * 1.1);
      - aim(x, y, targetX, targetY): a boss projectile's velocity (a unit
        vector towards the target scaled to 4);
      - ease(x, diff): the paddle's left edge after easing 30% of the way
        towards the pointer;
      - chance(n), pick(n): the n-th draw of the random stream, read as
        random.random() or as the index random.choice takes. */
  datatype Env = Env(
    deflect: (int, int, int) -> int,
    boost: int -> int,
    speedUp: int -> int,
    aim: (int, int, int, int) -> (int, int),
    ease: (int, int) -> int,
    chance: nat -> real,
    pick: nat -> nat)
}
