/**
 * The snowfall: a fixed pool of flakes created once, moved every animation frame, and
 * recycled at the top when they fall out of the bottom of the viewport. Only the
 * numeric state of a flake is modelled; its element, size, opacity and transform
 * string are not. Math.random() draws and Math.sin are supplied by the caller.
 */
module Snow {

  datatype Snowflake = Snowflake(
    x: real,
    y: real,
    speed: real,
    drift: real,
    swayAmount: real,
    swaySpeed: real,
    rotation: real,
    rotationSpeed: real)

  /** The size of the pool. */
  const SnowflakeCount: nat := 80

  /** How far beyond the left and right edges a flake may go before it wraps. */
  const SideMargin: real := 100.0

  /** How far below the bottom edge a flake may fall before it respawns. */
  const BottomMargin: real := 10.0

  /** A value of Math.random(). */
  predicate IsDraw(r: real) {
    0.0 <= r < 1.0
  }

  /**
   * The draws createSnowflakes makes for one flake's motion, in the order it makes
   * them (the size and opacity draws between them only style the element).
   */
  datatype SpawnDraws = SpawnDraws(
    x: real, y: real, speed: real, drift: real, swayAmount: real, swaySpeed: real, rotationSpeed: real)

  predicate IsSpawnDraws(d: SpawnDraws) {
    && IsDraw(d.x) && IsDraw(d.y) && IsDraw(d.speed) && IsDraw(d.drift)
    && IsDraw(d.swayAmount) && IsDraw(d.swaySpeed) && IsDraw(d.rotationSpeed)
  }

  /** The two draws a flake takes when it respawns: its height first, then its column. */
  datatype RespawnDraws = RespawnDraws(y: real, x: real)

  predicate IsRespawnDraws(d: RespawnDraws) {
    IsDraw(d.y) && IsDraw(d.x)
  }

  /** A draw scaled to a positive span lies in [0, span). */
  lemma ScaledDraw(r: real, span: real)
    requires IsDraw(r) && span > 0.0
    ensures 0.0 <= r * span < span
  {
    assert r * span < 1.0 * span;
  }

  /** A column drawn across the viewport and its two side margins. */
  function SpawnX(r: real, width: real): (x: real)
    requires IsDraw(r) && width >= 0.0
    ensures -SideMargin <= x < width + SideMargin
  {
    var span := width + 2.0 * SideMargin;
    ScaledDraw(r, span);
    r * span - SideMargin
  }

  /** A height drawn in the band just above the viewport. */
  function SpawnY(r: real): (y: real)
    requires IsDraw(r)
    ensures -110.0 < y <= -10.0
  {
    r * -100.0 - 10.0
  }

  /** The motion parameters of a flake lie in the ranges createSnowflakes draws them from. */
  predicate ParametersInRange(f: Snowflake) {
    && 0.5 <= f.speed < 2.0
    && -1.0 <= f.drift < 1.0
    && 1.0 <= f.swayAmount < 3.0
    && 0.01 <= f.swaySpeed < 0.03
    && -1.0 <= f.rotationSpeed < 1.0
  }

  /** A new flake, somewhere in the band above the viewport, not yet rotated. */
  function Spawn(d: SpawnDraws, width: real): (f: Snowflake)
    requires IsSpawnDraws(d) && width >= 0.0
    ensures -SideMargin <= f.x < width + SideMargin
    ensures -110.0 < f.y <= -10.0
    ensures f.rotation == 0.0
    ensures ParametersInRange(f)
  {
    Snowflake(
      SpawnX(d.x, width),
      SpawnY(d.y),
      d.speed * 1.5 + 0.5,
      (d.drift - 0.5) * 2.0,
      d.swayAmount * 2.0 + 1.0,
      d.swaySpeed * 0.02 + 0.01,
      0.0,
      (d.rotationSpeed - 0.5) * 2.0)
  }

  /** Where the drift and the sway of frame `frame` take a flake's column. */
  function Drifted(f: Snowflake, frame: nat, sine: real -> real): real
  {
    var sway := sine(frame as real * f.swaySpeed) * f.swayAmount;
    f.x + f.drift * 0.2 + sway * 0.1
  }

  /**
   * One frame for one flake: it falls by its speed, drifts and sways sideways and turns
   * by its rotation speed. Below the viewport it respawns above it at a new column;
   * past a side margin it reappears at the opposite one.
   */
  function StepFlake(f: Snowflake, frame: nat, width: real, height: real, sine: real -> real, d: RespawnDraws)
    : (g: Snowflake)
    requires IsRespawnDraws(d) && width >= 0.0
    ensures g == f.(x := g.x, y := g.y, rotation := g.rotation)
    ensures g.rotation == f.rotation + f.rotationSpeed
    ensures -SideMargin <= g.x <= width + SideMargin
    ensures f.y + f.speed > height + BottomMargin ==> -110.0 < g.y <= -10.0 && g.x == SpawnX(d.x, width)
    ensures f.y + f.speed <= height + BottomMargin ==>
      && g.y == f.y + f.speed
      && (-SideMargin <= Drifted(f, frame, sine) <= width + SideMargin ==> g.x == Drifted(f, frame, sine))
      && (Drifted(f, frame, sine) > width + SideMargin ==> g.x == -SideMargin)
      && (Drifted(f, frame, sine) < -SideMargin ==> g.x == width + SideMargin)
  {
    var y := f.y + f.speed;
    var x := Drifted(f, frame, sine);
    var respawn := y > height + BottomMargin;
    var y' := if respawn then SpawnY(d.y) else y;
    var x' := if respawn then SpawnX(d.x, width) else x;
    var x'' := if x' > width + SideMargin then -SideMargin else if x' < -SideMargin then width + SideMargin else x';
    f.(x := x'', y := y', rotation := f.rotation + f.rotationSpeed)
  }

  /** A flake that does not respawn moves down by at least half a pixel. */
  lemma FallsEveryFrame(f: Snowflake, frame: nat, width: real, height: real, sine: real -> real, d: RespawnDraws)
    requires IsRespawnDraws(d) && width >= 0.0 && ParametersInRange(f)
    ensures var g := StepFlake(f, frame, width, height, sine, d);
            ParametersInRange(g) && (f.y + f.speed <= height + BottomMargin ==> g.y >= f.y + 0.5)
  {
  }

  predicate AllRespawnDraws(draws: seq<RespawnDraws>) {
    forall i :: 0 <= i < |draws| ==> IsRespawnDraws(draws[i])
  }

  /** One frame for the whole pool, each flake with its own respawn draws. */
  function Stepped(flakes: seq<Snowflake>, frame: nat, width: real, height: real, sine: real -> real,
                   draws: seq<RespawnDraws>): (r: seq<Snowflake>)
    requires |draws| == |flakes| && AllRespawnDraws(draws) && width >= 0.0
    ensures |r| == |flakes|
    ensures forall i :: 0 <= i < |r| ==> -SideMargin <= r[i].x <= width + SideMargin
    ensures forall i :: 0 <= i < |r| ==> ParametersInRange(flakes[i]) ==> ParametersInRange(r[i])
  {
    seq(|flakes|, i requires 0 <= i < |flakes| => StepFlake(flakes[i], frame, width, height, sine, draws[i]))
  }

  /** The particle field: the pool, the frame counter and its render-loop lifecycle. */
  class SnowField {
    const flakes: array<Snowflake>
    var frame: nat
    /** An animation frame is requested and has not run or been cancelled. */
    var scheduled: bool
    /** The container element is in the document. */
    var attached: bool

    ghost predicate Valid()
      reads this, flakes
    {
      && flakes.Length == SnowflakeCount
      && forall i :: 0 <= i < flakes.Length ==> ParametersInRange(flakes[i])
    }

    /**
     * createSnowflakes: the pool is filled with fresh flakes and the first frame is run
     * at once, which requests the next one.
     */
    constructor (width: real, height: real, spawn: seq<SpawnDraws>, sine: real -> real, first: seq<RespawnDraws>)
      requires width >= 0.0
      requires |spawn| == SnowflakeCount && forall i :: 0 <= i < |spawn| ==> IsSpawnDraws(spawn[i])
      requires |first| == SnowflakeCount && AllRespawnDraws(first)
      ensures Valid() && fresh(flakes)
      ensures frame == 1 && scheduled && attached
      ensures flakes[..] == Stepped(seq(SnowflakeCount, i requires 0 <= i < SnowflakeCount => Spawn(spawn[i], width)),
                                    1, width, height, sine, first)
    {
      var pool := new Snowflake[SnowflakeCount](i requires 0 <= i < SnowflakeCount => Spawn(spawn[i], width));
      flakes := pool;
      frame := 0;
      scheduled := false;
      attached := true;
      new;
      AnimateSnow(width, height, sine, first);
    }

    /** animateSnow: one frame for every flake, in place; the next frame is requested while the container is attached. */
    method AnimateSnow(width: real, height: real, sine: real -> real, draws: seq<RespawnDraws>)
      requires Valid() && width >= 0.0
      requires |draws| == flakes.Length && AllRespawnDraws(draws)
      modifies this, flakes
      ensures Valid()
      ensures frame == old(frame) + 1 && scheduled == attached && attached == old(attached)
      ensures flakes[..] == Stepped(old(flakes[..]), frame, width, height, sine, draws)
    {
      frame := frame + 1;
      for i := 0 to flakes.Length
        modifies flakes
        invariant forall k :: 0 <= k < i ==> flakes[k] == StepFlake(old(flakes[k]), frame, width, height, sine, draws[k])
        invariant forall k :: i <= k < flakes.Length ==> flakes[k] == old(flakes[k])
      {
        flakes[i] := StepFlake(flakes[i], frame, width, height, sine, draws[i]);
      }
      scheduled := attached;
    }

    /** The browser runs the requested animation frame, if there is one. */
    method Tick(width: real, height: real, sine: real -> real, draws: seq<RespawnDraws>)
      requires Valid() && width >= 0.0
      requires |draws| == flakes.Length && AllRespawnDraws(draws)
      modifies this, flakes
      ensures Valid() && attached == old(attached)
      ensures old(scheduled) ==> frame == old(frame) + 1 && scheduled == attached
                                 && flakes[..] == Stepped(old(flakes[..]), frame, width, height, sine, draws)
      ensures !old(scheduled) ==> frame == old(frame) && !scheduled && flakes[..] == old(flakes[..])
    {
      if scheduled {
        scheduled := false;
        AnimateSnow(width, height, sine, draws);
      }
    }

    /** The cleanup function: the pending frame is cancelled and the container removed. Calling it again is harmless. */
    method Stop()
      modifies this
      ensures !scheduled && !attached && frame == old(frame)
    {
      scheduled := false;
      attached := false;
    }

    /** After Stop, later frames change nothing: the pool is frozen. */
    method StopFreezes(width: real, height: real, sine: real -> real, draws: seq<RespawnDraws>)
      requires Valid() && width >= 0.0
      requires |draws| == flakes.Length && AllRespawnDraws(draws)
      modifies this, flakes
      ensures Valid() && !scheduled && !attached
      ensures frame == old(frame) && flakes[..] == old(flakes[..])
    {
      Stop();
      Tick(width, height, sine, draws);
      Tick(width, height, sine, draws);
    }
  }
}
