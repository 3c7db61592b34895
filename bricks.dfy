/** The targets: ordinary bricks that break after a number of hits
    (brick_breaker.py:353-374) and the boss brick that patrols the screen,
    counts towards its next shot and drains health (brick_breaker.py:389-423). */
module Bricks {
  import opened Common

  const BrickWidth := 75
  const BrickHeight := 30

  datatype BrickState = BrickState(x: int, y: int, required: int, taken: int, destroyed: bool) {
    function Box(): Rect { Rect(x, y, BrickWidth, BrickHeight) }
  }

  /** A brick is consistent when it needs at least one hit and is destroyed
      exactly when the hits taken reach the hits required. */
  predicate BrickOk(k: BrickState) {
    k.required >= 1 && k.taken >= 0 && (k.destroyed <==> k.taken >= k.required)
  }

  function NewBrick(x: int, y: int, required: int): (k: BrickState)
    requires required >= 1
    ensures BrickOk(k) && !k.destroyed && k.taken == 0 && k.Box() == Rect(x, y, BrickWidth, BrickHeight)
  {
    BrickState(x, y, required, 0, false)
  }

  /** Brick.hit: the damage is added to the hits taken; the brick reports true
      and is marked destroyed exactly when the total reaches the hits
      required, overshoot included, and otherwise keeps its mark. */
  function Struck(k: BrickState, damage: int): (r: (bool, BrickState))
    ensures r.1.taken == k.taken + damage
    ensures r.0 <==> r.1.taken >= k.required
    ensures r.1.destroyed == (r.0 || k.destroyed)
    ensures r.1 == k.(taken := r.1.taken, destroyed := r.1.destroyed)
    ensures BrickOk(k) && damage >= 0 ==> BrickOk(r.1)
  {
    var t := k.taken + damage;
    if t >= k.required then (true, k.(taken := t, destroyed := true)) else (false, k.(taken := t))
  }

  function StruckTimes(k: BrickState, damage: int, n: nat): BrickState
    decreases n
  {
    if n == 0 then k else StruckTimes(Struck(k, damage).1, damage, n - 1)
  }

  /** A fresh brick hit n times with the same damage d has taken n * d hits
      and is destroyed exactly when n * d reaches its requirement. */
  lemma {:induction false} BreaksAtThreshold(k: BrickState, d: nat, n: nat)
    requires BrickOk(k) && k.taken == 0
    ensures StruckTimes(k, d, n).taken == n * d
    ensures StruckTimes(k, d, n).destroyed <==> n * d >= k.required
    ensures BrickOk(StruckTimes(k, d, n))
    ensures StruckTimes(k, d, n) == k.(taken := n * d, destroyed := n * d >= k.required)
    decreases n
  {
    if n > 0 {
      StruckTimesShift(k, d, n);
      BreaksAtThreshold(k, d, n - 1);
      assert n * d == StruckTimes(k, d, n - 1).taken + d;
    }
  }

  /** Taking the last of n hits separately. */
  lemma {:induction false} StruckTimesShift(k: BrickState, d: int, n: nat)
    requires n > 0
    ensures StruckTimes(k, d, n) == Struck(StruckTimes(k, d, n - 1), d).1
    decreases n
  {
    if n > 1 {
      StruckTimesShift(Struck(k, d).1, d, n - 1);
    }
  }

  /** Brick: the object the game owns; only its hit count and mark change. */
  class Brick {
    const x: int
    const y: int
    const required: int
    var taken: int
    var destroyed: bool

    function View(): BrickState
      reads this
    {
      BrickState(x, y, required, taken, destroyed)
    }

    constructor (x0: int, y0: int, required0: int)
      requires required0 >= 1
      ensures View() == NewBrick(x0, y0, required0)
    {
      x, y, required := x0, y0, required0;
      taken, destroyed := 0, false;
    }

    method Hit(damage: int) returns (broken: bool)
      modifies this
      ensures (broken, View()) == Struck(old(View()), damage)
    {
      taken := taken + damage;
      if taken >= required {
        destroyed := true;
        return true;
      }
      return false;
    }
  }

  const BossWidth := 225      // BRICK_WIDTH * 3
  const BossHeight := 60      // BRICK_HEIGHT * 2
  const BossMaxHealth := 50
  const BossSpeed := 1
  const ShotInterval := 120
  const BossStartX := 325     // SCREEN_WIDTH // 2 - (BRICK_WIDTH * 3) // 2
  const BossStartY := 100

  datatype BossState = BossState(x: int, y: int, health: int, direction: int, shootTimer: int, destroyed: bool) {
    function Box(): Rect { Rect(x, y, BossWidth, BossHeight) }
  }

  /** The boss is on the screen, heads away from an edge it touches, and
      moves one pixel a frame left or right. */
  predicate Roaming(s: BossState) {
    && 0 <= s.x && s.x + BossWidth <= ScreenWidth
    && (s.direction == 1 || s.direction == -1)
    && (s.x == 0 ==> s.direction == 1)
    && (s.x + BossWidth == ScreenWidth ==> s.direction == -1)
  }

  /** What holds of the boss between frames. */
  predicate BossOk(s: BossState) {
    && Roaming(s)
    && s.health <= BossMaxHealth
    && 0 <= s.shootTimer < ShotInterval
    && (s.destroyed <==> s.health <= 0)
  }

  function NewBoss(): (s: BossState)
    ensures BossOk(s) && !s.destroyed && s.health == BossMaxHealth && s.shootTimer == 0
    ensures s.x == BossStartX && s.y == BossStartY && s.direction == 1
  {
    BossState(BossStartX, BossStartY, BossMaxHealth, 1, 0, false)
  }

  /** BossBrick.update: a one-pixel step that turns round when it reaches an
      edge, and one more frame on the shot counter; true once the counter
      reaches 120. */
  function BossStepped(s: BossState): (r: (bool, BossState))
    ensures r.1.x == s.x + s.direction
    ensures r.1.direction == (if r.1.x <= 0 || r.1.Box().Right() >= ScreenWidth then -s.direction else s.direction)
    ensures r.1.shootTimer == s.shootTimer + 1
    ensures r.0 <==> r.1.shootTimer >= ShotInterval
    ensures r.1 == s.(x := r.1.x, direction := r.1.direction, shootTimer := r.1.shootTimer)
    ensures Roaming(s) ==> Roaming(r.1)
  {
    var x1 := s.x + BossSpeed * s.direction;
    var d1 := if x1 <= 0 || x1 + BossWidth >= ScreenWidth then -s.direction else s.direction;
    var t1 := s.shootTimer + 1;
    (t1 >= ShotInterval, s.(x := x1, direction := d1, shootTimer := t1))
  }

  /** BossBrick.hit: health drops by the damage; true and destroyed exactly
      when health is at or below zero, overshoot included. */
  function BossStruck(s: BossState, damage: int): (r: (bool, BossState))
    ensures r.1.health == s.health - damage
    ensures r.0 <==> r.1.health <= 0
    ensures r.1.destroyed == (r.0 || s.destroyed)
    ensures r.1 == s.(health := r.1.health, destroyed := r.1.destroyed)
    ensures BossOk(s) && damage >= 0 ==> BossOk(r.1)
  {
    var h := s.health - damage;
    if h <= 0 then (true, s.(health := h, destroyed := true)) else (false, s.(health := h))
  }

  /** One frame of the live boss as the game drives it: step, and when the
      step reports a shot, reset the counter (brick_breaker.py:700-709). */
  function BossFrame(s: BossState): (bool, BossState) {
    var (fire, s1) := BossStepped(s);
    (fire, if fire then s1.(shootTimer := 0) else s1)
  }

  function BossFrames(s: BossState, n: nat): BossState
    decreases n
  {
    if n == 0 then s else BossFrames(BossFrame(s).1, n - 1)
  }

  /** Driven frame after frame, the boss stays on the screen and its shot
      counter runs modulo 120: it fires on every 120th frame. */
  lemma {:induction false} Patrol(s: BossState, n: nat)
    requires Roaming(s) && 0 <= s.shootTimer < ShotInterval
    ensures Roaming(BossFrames(s, n))
    ensures BossFrames(s, n).shootTimer == (s.shootTimer + n) % ShotInterval
    ensures BossFrames(s, n).health == s.health
    decreases n
  {
    if n > 0 {
      var s1 := BossFrame(s).1;
      Patrol(s1, n - 1);
      assert s1.shootTimer == (s.shootTimer + 1) % ShotInterval;
    }
  }

  /** BossBrick: the object the game owns. */
  class BossBrick {
    var x: int
    const y: int
    var health: int
    var direction: int
    var shootTimer: int
    var destroyed: bool

    function View(): BossState
      reads this
    {
      BossState(x, y, health, direction, shootTimer, destroyed)
    }

    constructor ()
      ensures View() == NewBoss()
    {
      x, y := BossStartX, BossStartY;
      health, direction, shootTimer, destroyed := BossMaxHealth, 1, 0, false;
    }

    method Update() returns (fire: bool)
      modifies this
      ensures (fire, View()) == BossStepped(old(View()))
    {
      x := x + BossSpeed * direction;
      if x <= 0 || x + BossWidth >= ScreenWidth {
        direction := -direction;
      }
      shootTimer := shootTimer + 1;
      return shootTimer >= ShotInterval;
    }

    method ResetShootTimer()
      modifies this
      ensures View() == old(View()).(shootTimer := 0)
    {
      shootTimer := 0;
    }

    method Hit(damage: int) returns (killed: bool)
      modifies this
      ensures (killed, View()) == BossStruck(old(View()), damage)
    {
      health := health - damage;
      if health <= 0 {
        destroyed := true;
        return true;
      }
      return false;
    }
  }
}
