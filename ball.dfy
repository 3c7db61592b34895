/** A ball: position, velocity, kind, the kind's charges and lifetime, and the
    bounded trail of earlier centres (brick_breaker.py:264-323), with the
    conversions the power-ups apply to it (brick_breaker.py:827-853). */
module Balls {
  import opened Common

  const BallSize := 10
  const BallSpeedX := 5
  const BallSpeedY := -5
  const NormalTrail := 5
  const FireTrail := 8
  const FireCharges := 3
  const SpawnLife := 1800
  const FireLife := 1800
  const SteelLife := 1200
  const LightningLife := 900

  datatype BallState = BallState(
    x: int, y: int, speedX: int, speedY: int,
    trail: seq<Point>, maxTrail: nat,
    kind: BallKind, pierce: int, life: int, damage: int)
  {
    function Box(): Rect { Rect(x, y, BallSize, BallSize) }
    function Centre(): Point { (Box().CenterX(), Box().CenterY()) }
  }

  /** What holds of every ball in play: the trail never outgrows its bound,
      fire charges are 0..3 and the damage is 1 or 2. */
  predicate BallOk(b: BallState) {
    && (b.maxTrail == NormalTrail || b.maxTrail == FireTrail)
    && |b.trail| <= b.maxTrail
    && 0 <= b.pierce <= FireCharges
    && (b.damage == 1 || b.damage == 2)
  }

  /** Ball(x, y, ball_type): a fresh ball of the given kind. Fire balls get
      three charges and a longer trail, steel balls double damage, lightning
      balls boosted speed; every ball starts with 1800 frames of life. */
  function NewBall(x: int, y: int, kind: BallKind, env: Env): (b: BallState)
    ensures BallOk(b) && b.trail == [] && b.kind == kind && b.life == SpawnLife
    ensures b.Box() == Rect(x, y, BallSize, BallSize)
    ensures b.pierce == (if kind == Fire then FireCharges else 0)
    ensures b.damage == (if kind == Steel then 2 else 1)
    ensures kind != Lightning ==> b.speedX == BallSpeedX && b.speedY == BallSpeedY
    ensures kind == Lightning ==> b.speedX == env.boost(BallSpeedX) && b.speedY == env.boost(BallSpeedY)
  {
    var sx := if kind == Lightning then env.boost(BallSpeedX) else BallSpeedX;
    var sy := if kind == Lightning then env.boost(BallSpeedY) else BallSpeedY;
    BallState(x, y, sx, sy, [], if kind == Fire then FireTrail else NormalTrail,
              kind, if kind == Fire then FireCharges else 0, SpawnLife,
              if kind == Steel then 2 else 1)
  }

  /** The last n entries of s (all of s when it is no longer). */
  function Recent<T>(s: seq<T>, n: nat): (r: seq<T>)
    ensures |r| <= n && |r| <= |s|
    ensures |s| <= n ==> r == s
    ensures forall i :: 0 <= i < |r| ==> r[i] == s[|s| - |r| + i]
  {
    if |s| <= n then s else s[|s| - n..]
  }

  /** Ball.move. A special ball first spends a frame of life and, once its
      life is spent, reports false without moving. Otherwise the current centre
      joins the trail, the oldest entry goes when the trail is over length, and
      the ball advances by its velocity. */
  function Moved(b: BallState): (r: (bool, BallState))
    ensures b.kind == Normal ==> r.0 && r.1.life == b.life
    ensures b.kind != Normal ==> r.1.life == b.life - 1 && (r.0 <==> b.life > 1)
    ensures !r.0 ==> r.1 == b.(life := b.life - 1)
    ensures r.0 ==> r.1.x == b.x + b.speedX && r.1.y == b.y + b.speedY
    ensures r.0 && |b.trail| <= b.maxTrail ==> r.1.trail == Recent(b.trail + [b.Centre()], b.maxTrail)
    ensures r.1 == b.(life := r.1.life, trail := r.1.trail, x := r.1.x, y := r.1.y)
    ensures BallOk(b) ==> BallOk(r.1)
  {
    var b1 := if b.kind != Normal then b.(life := b.life - 1) else b;
    if b.kind != Normal && b1.life <= 0 then (false, b1)
    else
      var t := b1.trail + [b1.Centre()];
      var t1 := if |t| > b1.maxTrail then t[1..] else t;
      (true, b1.(trail := t1, x := b1.x + b1.speedX, y := b1.y + b1.speedY))
  }

  function BouncedX(b: BallState): BallState {
    b.(speedX := -b.speedX)
  }

  function BouncedY(b: BallState): BallState {
    b.(speedY := -b.speedY)
  }

  /** Ball.can_pierce: only a fire ball with a charge left pierces, and
      piercing spends exactly one charge; any other ball is left as it was. */
  function Pierced(b: BallState): (r: (bool, BallState))
    ensures r.0 <==> b.kind == Fire && b.pierce > 0
    ensures r.1 == (if r.0 then b.(pierce := b.pierce - 1) else b)
    ensures b.pierce >= 0 ==> r.1.pierce >= 0
  {
    if b.kind == Fire && b.pierce > 0 then (true, b.(pierce := b.pierce - 1)) else (false, b)
  }

  /** Ball.speed_up, with the scaling by 1.1 given by the environment. */
  function SpedUp(b: BallState, env: Env): BallState {
    b.(speedX := env.speedUp(b.speedX), speedY := env.speedUp(b.speedY))
  }

  /** The fire, steel and lightning power-ups turn a ball into that kind and
      restart its life at 1800, 1200 or 900 frames. Fire also restores three
      charges and lengthens the trail; steel doubles damage; lightning boosts
      the speed. Nothing else changes: a steel ball turned to fire keeps its
      double damage. */
  function Converted(b: BallState, to: BallKind, env: Env): (r: BallState)
    requires to != Normal
    ensures r.kind == to
    ensures r.life == (if to == Fire then FireLife else if to == Steel then SteelLife else LightningLife)
    ensures r.x == b.x && r.y == b.y && r.trail == b.trail
    ensures to == Fire ==> r.pierce == FireCharges && r.maxTrail == FireTrail && r.damage == b.damage
    ensures to == Steel ==> r.damage == 2 && r.pierce == b.pierce && r.maxTrail == b.maxTrail
    ensures to == Lightning ==> r.speedX == env.boost(b.speedX) && r.speedY == env.boost(b.speedY)
    ensures to == Lightning ==> r.pierce == b.pierce && r.damage == b.damage && r.maxTrail == b.maxTrail
    ensures to != Lightning ==> r.speedX == b.speedX && r.speedY == b.speedY
    ensures BallOk(b) ==> BallOk(r)
  {
    match to
    case Fire => b.(kind := Fire, pierce := FireCharges, maxTrail := FireTrail, life := FireLife)
    case Steel => b.(kind := Steel, damage := 2, life := SteelLife)
    case Lightning =>
      b.(kind := Lightning, speedX := env.boost(b.speedX), speedY := env.boost(b.speedY),
         life := LightningLife)
  }

  /** n calls of move, stopping at the first that reports the ball expired. */
  function MovedTimes(b: BallState, n: nat): (bool, BallState)
    decreases n
  {
    if n == 0 then (true, b)
    else
      var (alive, b1) := Moved(b);
      if alive then MovedTimes(b1, n - 1) else (false, b1)
  }

  /** A normal ball never expires by time; a special ball with l frames of
      life survives exactly l - 1 calls of move and is reported expired by the
      l-th. */
  lemma {:induction false} Lifetime(b: BallState, n: nat)
    requires b.kind != Normal ==> b.life >= 1
    ensures MovedTimes(b, n).0 <==> (b.kind == Normal || n < b.life)
    decreases n
  {
    if n > 0 {
      var (alive, b1) := Moved(b);
      if alive {
        Lifetime(b1, n - 1);
      }
    }
  }

  /** n contacts that each ask can_pierce: how many pierced, and the ball after. */
  function PiercedTimes(b: BallState, n: nat): (nat, BallState)
    decreases n
  {
    if n == 0 then (0, b)
    else
      var (p, b1) := Pierced(b);
      var (count, b2) := PiercedTimes(b1, n - 1);
      (if p then count + 1 else count, b2)
  }

  function Min(a: int, b: int): int { if a < b then a else b }

  /** A fire ball with k charges pierces its next k contacts and bounces off
      every later one; its charge count ends at k minus the pierces, never
      below zero. Any other ball never pierces. */
  lemma {:induction false} ChargesSpent(b: BallState, n: nat)
    requires b.pierce >= 0
    ensures var (count, b2) := PiercedTimes(b, n);
      && count == (if b.kind == Fire then Min(n, b.pierce) else 0)
      && b2.pierce == b.pierce - count
      && b2.pierce >= 0
      && b2 == b.(pierce := b2.pierce)
    decreases n
  {
    if n > 0 {
      var (p, b1) := Pierced(b);
      ChargesSpent(b1, n - 1);
    }
  }

  /** Ball: the object the game owns; its fields are those of BallState. */
  class Ball {
    var x: int
    var y: int
    var speedX: int
    var speedY: int
    var trail: seq<Point>
    var maxTrail: nat
    var kind: BallKind
    var pierce: int
    var life: int
    var damage: int

    function View(): BallState
      reads this
    {
      BallState(x, y, speedX, speedY, trail, maxTrail, kind, pierce, life, damage)
    }

    constructor (x0: int, y0: int, kind0: BallKind, env: Env)
      ensures View() == NewBall(x0, y0, kind0, env)
    {
      x, y := x0, y0;
      speedX, speedY := BallSpeedX, BallSpeedY;
      trail := [];
      maxTrail := NormalTrail;
      kind := kind0;
      pierce := 0;
      life := SpawnLife;
      damage := 1;
      if kind0 == Fire {
        pierce := FireCharges;
        maxTrail := FireTrail;
      } else if kind0 == Steel {
        damage := 2;
      } else if kind0 == Lightning {
        speedX := env.boost(BallSpeedX);
        speedY := env.boost(BallSpeedY);
      }
    }

    method Move() returns (alive: bool)
      modifies this
      ensures (alive, View()) == Moved(old(View()))
    {
      if kind != Normal {
        life := life - 1;
        if life <= 0 {
          return false;
        }
      }
      trail := trail + [(x + BallSize / 2, y + BallSize / 2)];
      if |trail| > maxTrail {
        trail := trail[1..];
      }
      x := x + speedX;
      y := y + speedY;
      return true;
    }

    method BounceX()
      modifies this
      ensures View() == BouncedX(old(View()))
    {
      speedX := -speedX;
    }

    method BounceY()
      modifies this
      ensures View() == BouncedY(old(View()))
    {
      speedY := -speedY;
    }

    method CanPierce() returns (p: bool)
      modifies this
      ensures (p, View()) == Pierced(old(View()))
    {
      if kind == Fire && pierce > 0 {
        pierce := pierce - 1;
        return true;
      }
      return false;
    }

    method SpeedUp(env: Env)
      modifies this
      ensures View() == SpedUp(old(View()), env)
    {
      speedX := env.speedUp(speedX);
      speedY := env.speedUp(speedY);
    }

    method Convert(to: BallKind, env: Env)
      requires to != Normal
      modifies this
      ensures View() == Converted(old(View()), to, env)
    {
      kind := to;
      if to == Fire {
        pierce := FireCharges;
        maxTrail := FireTrail;
        life := FireLife;
      } else if to == Steel {
        damage := 2;
        life := SteelLife;
      } else {
        speedX := env.boost(speedX);
        speedY := env.boost(speedY);
        life := LightningLife;
      }
    }
  }
}
