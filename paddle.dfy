/** The paddle: its rectangle, the width modifier with its countdown and the
    independent shield countdown (brick_breaker.py:196-236), and the
    commands that move it (brick_breaker.py:206-210, 660-686). */
module Paddles {
  import opened Common

  const NormalWidth := 100
  const WideWidth := 150     // PADDLE_WIDTH * 1.5
  const NarrowWidth := 70    // PADDLE_WIDTH * 0.7
  const PaddleHeight := 10
  const PaddleSpeed := 8
  const ModifierFrames := 300
  const ShieldFrames := 600

  datatype PaddleState = PaddleState(
    x: int, y: int, width: int,
    powerupTimer: int, current: Option<PowerUpKind>, shieldTimer: int)
  {
    function Box(): Rect { Rect(x, y, width, PaddleHeight) }
    function CenterX(): int { Box().CenterX() }
  }

  datatype Direction = Left | Right

  /** One frame of input: the keyboard's two arrow keys, or the pointer's x. */
  datatype PaddleCommand = Keys(left: bool, right: bool) | Pointer(mouseX: int)

  /** What holds of every paddle the game builds and updates. */
  predicate PaddleOk(p: PaddleState) {
    && (p.width == NormalWidth || p.width == WideWidth || p.width == NarrowWidth)
    && 0 <= p.powerupTimer <= ModifierFrames
    && 0 <= p.shieldTimer <= ShieldFrames
    && (p.powerupTimer == 0 <==> p.current == None)
    && (p.powerupTimer == 0 ==> p.width == NormalWidth)
    && 0 <= p.CenterX() <= ScreenWidth
  }

  function NewPaddle(x: int, y: int): (p: PaddleState)
    requires 0 <= x + NormalWidth / 2 <= ScreenWidth
    ensures PaddleOk(p) && p.Box() == Rect(x, y, NormalWidth, PaddleHeight)
    ensures p.powerupTimer == 0 && p.shieldTimer == 0
  {
    PaddleState(x, y, NormalWidth, 0, None, 0)
  }

  /** Paddle.move: a step of 8 pixels, taken only while that edge is still
      inside the screen. */
  function Moved(p: PaddleState, dir: Direction): (r: PaddleState)
    ensures r == p.(x := r.x)
    ensures dir == Left ==> r.x == (if p.x > 0 then p.x - PaddleSpeed else p.x)
    ensures dir == Right ==> r.x == (if p.Box().Right() < ScreenWidth then p.x + PaddleSpeed else p.x)
    ensures PaddleOk(p) ==> PaddleOk(r)
  {
    match dir
    case Left => if p.x > 0 then p.(x := p.x - PaddleSpeed) else p
    case Right => if p.x + p.width < ScreenWidth then p.(x := p.x + PaddleSpeed) else p
  }

  /** Keep the paddle on the screen after pointer control. */
  function Clamped(x: int, width: int): (r: int)
    ensures x < 0 ==> r == 0
    ensures 0 <= x && x + width <= ScreenWidth ==> r == x
    ensures 0 <= x && x + width > ScreenWidth ==> r == ScreenWidth - width
    ensures 0 <= width <= ScreenWidth ==> 0 <= r && r + width <= ScreenWidth
  {
    if x < 0 then 0 else if x + width > ScreenWidth then ScreenWidth - width else x
  }

  /** handle_input: pointer control eases the left edge towards the pointer
      outside a 2-pixel dead zone and then clamps; keyboard control moves left
      and then right for each key held. */
  function Steered(p: PaddleState, cmd: PaddleCommand, env: Env): (r: PaddleState)
    ensures r == p.(x := r.x)
    ensures PaddleOk(p) ==> PaddleOk(r)
    ensures cmd.Pointer? && PaddleOk(p) ==> 0 <= r.x && r.Box().Right() <= ScreenWidth
    ensures cmd.Pointer? && -2 <= (cmd.mouseX - p.width / 2) - p.x <= 2 ==> r.x == Clamped(p.x, p.width)
    ensures cmd.Pointer? && -2 <= (cmd.mouseX - p.width / 2) - p.x <= 2 && 0 <= p.x && p.Box().Right() <= ScreenWidth ==> r == p
    ensures cmd.Pointer? && !(-2 <= (cmd.mouseX - p.width / 2) - p.x <= 2) ==>
      r.x == Clamped(env.ease(p.x, (cmd.mouseX - p.width / 2) - p.x), p.width)
    ensures cmd == Keys(false, false) ==> r == p
    ensures cmd == Keys(true, false) ==> r == Moved(p, Left)
    ensures cmd == Keys(false, true) ==> r == Moved(p, Right)
    ensures cmd == Keys(true, true) ==> r == Moved(Moved(p, Left), Right)
  {
    match cmd
    case Keys(left, right) =>
      var p1 := if left then Moved(p, Left) else p;
      if right then Moved(p1, Right) else p1
    case Pointer(mouseX) =>
      var diff := (mouseX - p.width / 2) - p.x;
      var x1 := if diff > 2 || diff < -2 then env.ease(p.x, diff) else p.x;
      p.(x := Clamped(x1, p.width))
  }

  /** Paddle.apply_powerup: a shield only restarts the shield countdown; any
      other kind becomes the width modifier, restarts its countdown and sets
      the width for wide or narrow, keeping the centre where it was. */
  function Applied(p: PaddleState, kind: PowerUpKind): (r: PaddleState)
    ensures kind == Shield ==> r == p.(shieldTimer := ShieldFrames)
    ensures kind != Shield ==>
      && r.shieldTimer == p.shieldTimer
      && r.powerupTimer == ModifierFrames && r.current == Some(kind)
      && r.width == (if kind == WidePaddle then WideWidth
                     else if kind == NarrowPaddle then NarrowWidth else p.width)
      && r.y == p.y
    ensures r.CenterX() == p.CenterX()
    ensures PaddleOk(p) ==> PaddleOk(r)
  {
    if kind == Shield then p.(shieldTimer := ShieldFrames)
    else
      var centre := p.CenterX();
      var w := if kind == WidePaddle then WideWidth
               else if kind == NarrowPaddle then NarrowWidth else p.width;
      p.(current := Some(kind), powerupTimer := ModifierFrames, width := w, x := centre - w / 2)
  }

  /** Paddle.update: each running countdown loses one frame; when the width
      modifier runs out the paddle returns to normal width about its centre. */
  function Ticked(p: PaddleState): (r: PaddleState)
    ensures r.powerupTimer == (if p.powerupTimer > 0 then p.powerupTimer - 1 else p.powerupTimer)
    ensures r.shieldTimer == (if p.shieldTimer > 0 then p.shieldTimer - 1 else p.shieldTimer)
    ensures p.powerupTimer == 1 ==> r.width == NormalWidth && r.current == None
    ensures p.powerupTimer != 1 ==> r.width == p.width && r.current == p.current && r.x == p.x
    ensures r.CenterX() == p.CenterX() && r.y == p.y
    ensures PaddleOk(p) ==> PaddleOk(r)
  {
    var p1 :=
      if p.powerupTimer > 0 then
        if p.powerupTimer - 1 == 0 then
          var centre := p.CenterX();
          p.(powerupTimer := 0, width := NormalWidth, x := centre - NormalWidth / 2, current := None)
        else p.(powerupTimer := p.powerupTimer - 1)
      else p;
    if p1.shieldTimer > 0 then p1.(shieldTimer := p1.shieldTimer - 1) else p1
  }

  function TickedTimes(p: PaddleState, n: nat): PaddleState
    decreases n
  {
    if n == 0 then p else TickedTimes(Ticked(p), n - 1)
  }

  function Max0(n: int): int { if n < 0 then 0 else n }

  /** After n frames both countdowns have dropped by n, stopping at zero;
      the width modifier is gone exactly once its countdown is spent, and the
      centre never moved. */
  lemma {:induction false} CountdownsAfter(p: PaddleState, n: nat)
    requires PaddleOk(p)
    ensures var q := TickedTimes(p, n);
      && PaddleOk(q)
      && q.powerupTimer == Max0(p.powerupTimer - n)
      && q.shieldTimer == Max0(p.shieldTimer - n)
      && q.CenterX() == p.CenterX()
      && (n >= p.powerupTimer ==> q.width == NormalWidth && q.current == None)
      && (n < p.powerupTimer ==> q.width == p.width && q.current == p.current)
    decreases n
  {
    if n > 0 {
      CountdownsAfter(Ticked(p), n - 1);
    }
  }

  /** A wide or narrow paddle keeps its width for exactly 300 frames. */
  lemma ModifierLasts300Frames(p: PaddleState, kind: PowerUpKind, n: nat)
    requires PaddleOk(p) && (kind == WidePaddle || kind == NarrowPaddle)
    ensures var q := TickedTimes(Applied(p, kind), n);
      q.width == (if n < ModifierFrames then Applied(p, kind).width else NormalWidth)
  {
    CountdownsAfter(Applied(p, kind), n);
  }

  /** A shield picked up while a width modifier runs leaves that modifier's
      countdown and width alone, and protects for exactly 600 frames. */
  lemma ShieldIsIndependent(p: PaddleState, n: nat)
    requires PaddleOk(p)
    ensures var q := TickedTimes(Applied(p, Shield), n);
      && q.powerupTimer == TickedTimes(p, n).powerupTimer
      && q.width == TickedTimes(p, n).width
      && (q.shieldTimer > 0 <==> n < ShieldFrames)
  {
    CountdownsAfter(Applied(p, Shield), n);
    CountdownsAfter(p, n);
  }

  /** Paddle: the object the game owns; its fields are those of PaddleState. */
  class Paddle {
    var x: int
    const y: int
    var width: int
    var powerupTimer: int
    var current: Option<PowerUpKind>
    var shieldTimer: int

    function View(): PaddleState
      reads this
    {
      PaddleState(x, y, width, powerupTimer, current, shieldTimer)
    }

    constructor (x0: int, y0: int)
      requires 0 <= x0 + NormalWidth / 2 <= ScreenWidth
      ensures View() == NewPaddle(x0, y0)
    {
      x, y, width := x0, y0, NormalWidth;
      powerupTimer, current, shieldTimer := 0, None, 0;
    }

    method Move(dir: Direction)
      modifies this
      ensures View() == Moved(old(View()), dir)
    {
      if dir == Left && x > 0 {
        x := x - PaddleSpeed;
      } else if dir == Right && x + width < ScreenWidth {
        x := x + PaddleSpeed;
      }
    }

    method ApplyPowerUp(kind: PowerUpKind)
      modifies this
      ensures View() == Applied(old(View()), kind)
    {
      if kind == Shield {
        shieldTimer := ShieldFrames;
      } else {
        current := Some(kind);
        powerupTimer := ModifierFrames;
        var centre := x + width / 2;
        if kind == WidePaddle {
          width := WideWidth;
        } else if kind == NarrowPaddle {
          width := NarrowWidth;
        }
        x := centre - width / 2;
      }
    }

    method Update()
      modifies this
      ensures View() == Ticked(old(View()))
    {
      if powerupTimer > 0 {
        powerupTimer := powerupTimer - 1;
        if powerupTimer == 0 {
          var centre := x + width / 2;
          width := NormalWidth;
          x := centre - width / 2;
          current := None;
        }
      }
      if shieldTimer > 0 {
        shieldTimer := shieldTimer - 1;
      }
    }
  }
}
