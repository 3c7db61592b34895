/** The two things that fly across the screen on their own: the boss's
    projectiles (brick_breaker.py:447-466) and the falling power-ups
    (brick_breaker.py:472-504). */
module Missiles {
  import opened Common

  const ProjectileSize := 8
  const ProjectileDrop := 4
  const PowerUpSize := 20
  const PowerUpSpeed := 3

  datatype ProjectileState = ProjectileState(x: int, y: int, speedX: int, speedY: int) {
    function Box(): Rect { Rect(x, y, ProjectileSize, ProjectileSize) }
  }

  /** Projectile(x, y, tx, ty): an 8 by 8 square at (x, y) flying towards
      the target, or straight down at speed 4 when it already sits on the
      target; the direction scaled to speed 4 comes from the environment. */
  function NewProjectile(x: int, y: int, tx: int, ty: int, env: Env): (p: ProjectileState)
    ensures p.Box() == Rect(x, y, ProjectileSize, ProjectileSize)
    ensures (p.speedX, p.speedY) == (if tx == x && ty == y then (0, ProjectileDrop) else env.aim(x, y, tx, ty))
  {
    var v := if tx - x == 0 && ty - y == 0 then (0, ProjectileDrop) else env.aim(x, y, tx, ty);
    ProjectileState(x, y, v.0, v.1)
  }

  /** Whether a position is on the screen, edges included. */
  predicate OnScreen(x: int, y: int) {
    0 <= x <= ScreenWidth && 0 <= y <= ScreenHeight
  }

  /** Projectile.update: one step by the velocity; true while the new
      position is on the screen. */
  function Flown(p: ProjectileState): (r: (bool, ProjectileState))
    ensures r.1 == p.(x := p.x + p.speedX, y := p.y + p.speedY)
    ensures r.0 <==> OnScreen(r.1.x, r.1.y)
  {
    var q := p.(x := p.x + p.speedX, y := p.y + p.speedY);
    (0 <= q.x <= ScreenWidth && 0 <= q.y <= ScreenHeight, q)
  }

  /** n steps of a projectile that is never removed. */
  function FlownTimes(p: ProjectileState, n: nat): ProjectileState
    decreases n
  {
    if n == 0 then p else FlownTimes(Flown(p).1, n - 1)
  }

  /** After n steps a projectile has moved n times its velocity, which never changes. */
  lemma {:induction false} Trajectory(p: ProjectileState, n: nat)
    ensures FlownTimes(p, n) == p.(x := p.x + n * p.speedX, y := p.y + n * p.speedY)
    decreases n
  {
    if n > 0 {
      Trajectory(Flown(p).1, n - 1);
      assert (n - 1) * p.speedX + p.speedX == n * p.speedX;
      assert (n - 1) * p.speedY + p.speedY == n * p.speedY;
    }
  }

  /** Projectile: the object the game owns. Its velocity is fixed at creation. */
  class Projectile {
    var x: int
    var y: int
    const speedX: int
    const speedY: int

    function View(): ProjectileState
      reads this
    {
      ProjectileState(x, y, speedX, speedY)
    }

    constructor (x0: int, y0: int, tx: int, ty: int, env: Env)
      ensures View() == NewProjectile(x0, y0, tx, ty, env)
    {
      x, y := x0, y0;
      var dx := tx - x0;
      var dy := ty - y0;
      if dx != 0 || dy != 0 {
        var v := env.aim(x0, y0, tx, ty);
        speedX, speedY := v.0, v.1;
      } else {
        speedX, speedY := 0, ProjectileDrop;
      }
    }

    method Update() returns (onScreen: bool)
      modifies this
      ensures (onScreen, View()) == Flown(old(View()))
    {
      x := x + speedX;
      y := y + speedY;
      return 0 <= x <= ScreenWidth && 0 <= y <= ScreenHeight;
    }
  }

  datatype PowerUpState = PowerUpState(x: int, y: int, kind: PowerUpKind, active: bool) {
    function Box(): Rect { Rect(x, y, PowerUpSize, PowerUpSize) }
  }

  /** PowerUp(x, y, kind): an active 20 by 20 capsule with its top left corner at (x, y). */
  function NewPowerUp(x: int, y: int, kind: PowerUpKind): (u: PowerUpState)
    ensures u.active && u.kind == kind && u.Box() == Rect(x, y, PowerUpSize, PowerUpSize)
  {
    PowerUpState(x, y, kind, true)
  }

  /** PowerUp.move: three pixels down; once its top edge is below the
      screen the capsule is inactive, and it is never made active again. */
  function Fallen(u: PowerUpState): (r: PowerUpState)
    ensures r == u.(y := r.y, active := r.active)
    ensures r.y == u.y + PowerUpSpeed
    ensures r.active <==> u.active && r.y <= ScreenHeight
  {
    var v := u.(y := u.y + PowerUpSpeed);
    if v.y > ScreenHeight then v.(active := false) else v
  }

  function FallenTimes(u: PowerUpState, n: nat): PowerUpState
    decreases n
  {
    if n == 0 then u else FallenTimes(Fallen(u), n - 1)
  }

  /** A capsule released at height y stays active for exactly as many moves
      as keep its top edge on the screen: after n moves it is at y + 3n and
      active exactly when y + 3n <= 600. */
  lemma {:induction false} FallTime(u: PowerUpState, n: nat)
    requires u.active && u.y <= ScreenHeight
    ensures FallenTimes(u, n).y == u.y + PowerUpSpeed * n
    ensures FallenTimes(u, n).active <==> u.y + PowerUpSpeed * n <= ScreenHeight
    ensures FallenTimes(u, n).x == u.x && FallenTimes(u, n).kind == u.kind
    decreases n
  {
    if n > 0 {
      if Fallen(u).active {
        FallTime(Fallen(u), n - 1);
      } else {
        StaysInactive(Fallen(u), n - 1);
      }
    }
  }

  /** An inactive capsule only keeps falling. */
  lemma {:induction false} StaysInactive(u: PowerUpState, n: nat)
    requires !u.active
    ensures !FallenTimes(u, n).active
    ensures FallenTimes(u, n).y == u.y + PowerUpSpeed * n
    ensures FallenTimes(u, n).x == u.x && FallenTimes(u, n).kind == u.kind
    decreases n
  {
    if n > 0 {
      StaysInactive(Fallen(u), n - 1);
    }
  }

  /** PowerUp: the object the game owns. */
  class PowerUp {
    const x: int
    var y: int
    const kind: PowerUpKind
    var active: bool

    function View(): PowerUpState
      reads this
    {
      PowerUpState(x, y, kind, active)
    }

    constructor (x0: int, y0: int, kind0: PowerUpKind)
      ensures View() == NewPowerUp(x0, y0, kind0)
    {
      x, y, kind, active := x0, y0, kind0, true;
    }

    method Move()
      modifies this
      ensures View() == Fallen(old(View()))
    {
      y := y + PowerUpSpeed;
      if y > ScreenHeight {
        active := false;
      }
    }
  }
}
