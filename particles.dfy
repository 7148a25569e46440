/**
 * The two particle systems of js/main.js: the loader's `Particle`
 * objects, which live for a bounded number of frames, fade in and out
 * and respawn, and the page background particles, which drift inside
 * their section's band and cycle through the palette. Every
 * `Math.random()` value and every trigonometric offset is a parameter.
 */
module Particles {
  import opened Wrappers
  import opened Colors

  const Shapes: seq<string> := ["circle", "square", "triangle", "star", "diamond", "hexagon", "cross"]

  /** How far beyond the canvas edge a particle may drift before it reappears on the other side. */
  const Margin: real := 20.0

  /** A `Math.random()` value. */
  predicate IsDraw(r: real)
  {
    0.0 <= r < 1.0
  }

  /** The random values one `reset` consumes, in the order it reads them. */
  datatype ResetDraws = ResetDraws(
    x: real, y: real, size: real, speedX: real, speedY: real,
    color: real, shape: real, rotation: real, spin: real, maxLife: real)

  predicate ValidDraws(d: ResetDraws)
  {
    IsDraw(d.x) && IsDraw(d.y) && IsDraw(d.size) && IsDraw(d.speedX) && IsDraw(d.speedY)
    && IsDraw(d.color) && IsDraw(d.shape) && IsDraw(d.rotation) && IsDraw(d.spin) && IsDraw(d.maxLife)
  }

  /** `list[Math.floor(r * list.length)]`: a draw picks an entry. */
  function Pick(list: seq<string>, r: real): (s: string)
    requires |list| > 0 && IsDraw(r)
    ensures s in list
  {
    var k := (r * |list| as real).Floor;
    UnitScale(r, |list| as real);
    list[k]
  }

  /** `COLORS[Math.floor(Math.random() * COLORS.length)]`. */
  function PickColor(r: real): string
    requires IsDraw(r)
  {
    Pick(Palette, r)
  }

  /** `SHAPES[Math.floor(Math.random() * SHAPES.length)]`. */
  function PickShape(r: real): string
    requires IsDraw(r)
  {
    Pick(Shapes, r)
  }

  /** A draw scales a non-negative length into [0, length]. */
  lemma UnitScale(r: real, n: real)
    requires IsDraw(r) && n >= 0.0
    ensures 0.0 <= r * n <= n
    ensures n > 0.0 ==> r * n < n
  {
    assert n - r * n == (1.0 - r) * n;
  }

  /** `Math.random() * n`: a point of [0, n]. */
  function Scaled(r: real, n: real): (p: real)
    requires IsDraw(r) && n >= 0.0
    ensures 0.0 <= p <= n
  {
    UnitScale(r, n);
    r * n
  }

  /**
   * The edge wrap: a value below `lo` jumps to `hi`, then a value above
   * `hi` jumps to `lo`. The result always lies in [lo, hi], and a value
   * already there is kept.
   */
  function Wrap(v: real, lo: real, hi: real): (r: real)
    ensures lo <= hi ==> lo <= r <= hi
    ensures lo <= v <= hi ==> r == v
    ensures v < lo && lo <= hi ==> r == hi
    ensures v > hi && lo <= hi ==> r == lo
  {
    var v1 := if v < lo then hi else v;
    if v1 > hi then lo else v1
  }

  /** The life-cycle opacity: ramps up over the first 20 frames and down over the last 20. */
  function FadedOpacity(life: real, maxLife: real, opacity: real): (o: real)
    ensures life < 20.0 ==> o == life / 20.0 * 0.4
    ensures 20.0 <= life <= maxLife - 20.0 ==> o == opacity
    ensures 20.0 <= life && maxLife - 20.0 < life ==> o * 50.0 == maxLife - life
    ensures 0.0 <= life && life < maxLife && 0.0 <= opacity <= 0.4 ==> 0.0 <= o <= 0.4
  {
    if life < 20.0 then life / 20.0 * 0.4
    else if life > maxLife - 20.0 then (maxLife - life) / 20.0 * 0.4
    else opacity
  }

  /** A loader particle. */
  class Particle {
    var x: real
    var y: real
    var size: real
    var speedX: real
    var speedY: real
    var color: string
    var shape: string
    var rotation: real
    var spinSpeed: real
    var life: real
    var maxLife: real
    var opacity: real

    /** The life counter is below its limit, the limit is in [100, 150), and the opacity in [0, 0.4]. */
    ghost predicate Valid()
      reads this
    {
      0.0 <= life < maxLife && 100.0 <= maxLife < 150.0 && 0.0 <= opacity <= 0.4
    }

    /** A new particle is reset and then given a random start in its life. */
    constructor (w: real, h: real, d: ResetDraws, lifeDraw: real)
      requires ValidDraws(d) && IsDraw(lifeDraw) && w >= 0.0 && h >= 0.0
      ensures Valid()
      ensures life == Scaled(lifeDraw, 100.0) && maxLife == 100.0 + d.maxLife * 50.0 && opacity == 0.0
      ensures x == Scaled(d.x, w) && y == Scaled(d.y, h)
      ensures size == d.size * 10.0 + 4.0
      ensures speedX == (d.speedX - 0.5) * 1.5 && speedY == (d.speedY - 0.5) * 1.5
      ensures color == PickColor(d.color) && shape == PickShape(d.shape)
      ensures rotation == d.rotation * 360.0 && spinSpeed == d.spin * 4.0 - 2.0
    {
      new;
      Reset(w, h, d);
      life := Scaled(lifeDraw, 100.0);
    }

    /** `reset`: every field drawn afresh, life back to 0 and a limit in [100, 150). */
    method Reset(w: real, h: real, d: ResetDraws)
      requires ValidDraws(d) && w >= 0.0 && h >= 0.0
      modifies this
      ensures Valid() && life == 0.0 && opacity == 0.0
      ensures maxLife == 100.0 + d.maxLife * 50.0
      ensures x == Scaled(d.x, w) && y == Scaled(d.y, h)
      ensures size == d.size * 10.0 + 4.0
      ensures speedX == (d.speedX - 0.5) * 1.5 && speedY == (d.speedY - 0.5) * 1.5
      ensures color == PickColor(d.color) && shape == PickShape(d.shape)
      ensures rotation == d.rotation * 360.0 && spinSpeed == d.spin * 4.0 - 2.0
    {
      x := Scaled(d.x, w);
      y := Scaled(d.y, h);
      size := d.size * 10.0 + 4.0;
      speedX := (d.speedX - 0.5) * 1.5;
      speedY := (d.speedY - 0.5) * 1.5;
      color := PickColor(d.color);
      shape := PickShape(d.shape);
      rotation := d.rotation * 360.0;
      spinSpeed := d.spin * 4.0 - 2.0;
      life := 0.0;
      maxLife := 100.0 + d.maxLife * 50.0;
      opacity := 0.0;
    }

    /**
     * `update`: move, spin, count one more frame, fade, respawn when the
     * limit is reached, then wrap at the edges of the `w` by `h` canvas.
     */
    method Update(w: real, h: real, d: ResetDraws)
      requires Valid() && ValidDraws(d) && w >= 0.0 && h >= 0.0
      modifies this
      ensures Valid()
      ensures old(life) + 1.0 < old(maxLife) ==>
        && life == old(life) + 1.0 && maxLife == old(maxLife)
        && opacity == FadedOpacity(life, maxLife, old(opacity))
        && x == Wrap(old(x) + old(speedX), -Margin, w + Margin)
        && y == Wrap(old(y) + old(speedY), -Margin, h + Margin)
        && rotation == old(rotation) + old(spinSpeed)
        && size == old(size) && speedX == old(speedX) && speedY == old(speedY)
        && color == old(color) && shape == old(shape) && spinSpeed == old(spinSpeed)
      ensures old(life) + 1.0 >= old(maxLife) ==>
        && life == 0.0 && opacity == 0.0 && maxLife == 100.0 + d.maxLife * 50.0
        && x == Scaled(d.x, w) && y == Scaled(d.y, h)
        && size == d.size * 10.0 + 4.0
        && speedX == (d.speedX - 0.5) * 1.5 && speedY == (d.speedY - 0.5) * 1.5
        && color == PickColor(d.color) && shape == PickShape(d.shape)
        && rotation == d.rotation * 360.0 && spinSpeed == d.spin * 4.0 - 2.0
      ensures -Margin <= x <= w + Margin && -Margin <= y <= h + Margin
    {
      x := x + speedX;
      y := y + speedY;
      rotation := rotation + spinSpeed;
      life := life + 1.0;

      if life < 20.0 {
        opacity := life / 20.0 * 0.4;
      } else if life > maxLife - 20.0 {
        opacity := (maxLife - life) / 20.0 * 0.4;
      }

      if life >= maxLife {
        Reset(w, h, d);
      }

      x := Wrap(x, -Margin, w + Margin);
      y := Wrap(y, -Margin, h + Margin);
    }
  }

  /** The random values one page particle is built from. */
  datatype PageDraws = PageDraws(x: real, y: real, colorIdx: real, colorSpeed: real, angle: real, angleSpeed: real)

  predicate ValidPageDraws(d: PageDraws)
  {
    IsDraw(d.x) && IsDraw(d.y) && IsDraw(d.colorIdx) && IsDraw(d.colorSpeed)
    && IsDraw(d.angle) && IsDraw(d.angleSpeed)
  }

  /** A background particle bound to the vertical band of one page section. */
  class PageParticle {
    var x: real
    var y: real
    const zoneTop: real
    const zoneHeight: real
    var angle: real
    const angleSpeed: real
    var colorIdx: real
    const colorSpeed: real

    /** The particle is inside its band and its palette position is in [0, 10). */
    ghost predicate Valid()
      reads this
    {
      && zoneHeight >= 0.0
      && zoneTop - Margin <= y <= zoneTop + zoneHeight + Margin
      && 0.0 <= colorIdx < 10.0
      && colorSpeed > 0.0
    }

    /** The particle `rebuildParticles` pushes for a section at `top` of height `height`. */
    constructor (width: real, top: real, height: real, d: PageDraws)
      requires ValidPageDraws(d) && height >= 0.0
      ensures Valid()
      ensures x == d.x * width && y == top + Scaled(d.y, height)
      ensures zoneTop == top && zoneHeight == height
      ensures colorIdx == d.colorIdx * 10.0 && colorSpeed == 0.012 + d.colorSpeed * 0.015
      ensures angle == d.angle * 6.283185307179586 && angleSpeed == (d.angleSpeed - 0.5) * 0.002
    {
      x := d.x * width;
      y := top + Scaled(d.y, height);
      zoneTop := top;
      zoneHeight := height;
      angle := d.angle * 6.283185307179586;
      angleSpeed := (d.angleSpeed - 0.5) * 0.002;
      colorIdx := d.colorIdx * 10.0;
      colorSpeed := 0.012 + d.colorSpeed * 0.015;
    }

    /**
     * One frame of `drawPage` for this particle: drift by (`dx`, `dy`),
     * wrap horizontally at the canvas and vertically at the band, and,
     * only when it lies in the visible window, advance the colour cycle
     * and report the colour it is drawn in.
     */
    method Step(dx: real, dy: real, width: real, viewTop: real, viewBot: real) returns (drawn: Option<Rgb>)
      requires Valid() && width >= 0.0
      modifies this
      ensures Valid()
      ensures x == Wrap(old(x) + dx, -Margin, width + Margin)
      ensures y == Wrap(old(y) + dy, zoneTop - Margin, zoneTop + zoneHeight + Margin)
      ensures angle == old(angle) + angleSpeed
      ensures drawn.Some? <==> viewTop <= y <= viewBot
      ensures drawn.Some? ==>
        && colorIdx == NextColorIndex(old(colorIdx), colorSpeed)
        && drawn.value == InterpolateColor(colorIdx)
      ensures drawn.None? ==> colorIdx == old(colorIdx)
    {
      x := x + dx;
      y := y + dy;
      angle := angle + angleSpeed;

      x := Wrap(x, -Margin, width + Margin);
      y := Wrap(y, zoneTop - Margin, zoneTop + zoneHeight + Margin);

      if y < viewTop || y > viewBot {
        return None;
      }

      colorIdx := NextColorIndex(colorIdx, colorSpeed);
      drawn := Some(InterpolateColor(colorIdx));
    }
  }

  /**
   * `drawPage`'s pass over all background particles; `dxs[k]` and
   * `dys[k]` are particle `k`'s trigonometric offsets for this frame.
   */
  method DrawPage(ps: seq<PageParticle>, dxs: seq<real>, dys: seq<real>, width: real, viewTop: real, viewBot: real)
    requires |dxs| == |ps| && |dys| == |ps| && width >= 0.0
    requires forall k :: 0 <= k < |ps| ==> ps[k].Valid()
    modifies set p | p in ps
    ensures forall k :: 0 <= k < |ps| ==> ps[k].Valid()
    ensures forall k :: 0 <= k < |ps| ==> -Margin <= ps[k].x <= width + Margin
  {
    var i := 0;
    while i < |ps|
      invariant 0 <= i <= |ps|
      invariant forall k :: 0 <= k < |ps| ==> ps[k].Valid()
      invariant forall k :: 0 <= k < i ==> -Margin <= ps[k].x <= width + Margin
    {
      var _ := ps[i].Step(dxs[i], dys[i], width, viewTop, viewBot);
      i := i + 1;
    }
  }
}
