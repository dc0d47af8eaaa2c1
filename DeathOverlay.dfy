/**
 * The numbers of `displayImage`: the scale that makes the death image cover
 * the window, and the timed action sequences of its two animation profiles.
 * Actions are kept as their kind, duration and target value; the tweening
 * itself belongs to the rendering engine.
 */
module DeathOverlay {
  import opened Wrappers
  import opened Paths
  import opened Geometry

  /** A timed action: a pause, a scale or fade tween over `d` seconds. */
  datatype Action =
    | Delay(d: real)
    | ScaleTo(d: real, scale: real)
    | FadeIn(d: real)
    | FadeOut(d: real)
    | FadeTo(d: real, opacity: int)
  {
    function Length(): real {
      match this
      case Delay(d) => d
      case ScaleTo(d, _) => d
      case FadeIn(d) => d
      case FadeOut(d) => d
      case FadeTo(d, _) => d
    }
  }

  /** The running time of a sequence of actions played one after another. */
  function Total(actions: seq<Action>): real
    decreases |actions|
  {
    if actions == [] then 0.0 else actions[0].Length() + Total(actions[1..])
  }

  lemma {:induction false} TotalAppend(a: seq<Action>, b: seq<Action>)
    ensures Total(a + b) == Total(a) + Total(b)
    decreases |a|
  {
    if a != [] {
      assert (a + b)[0] == a[0];
      assert (a + b)[1..] == a[1..] + b;
      TotalAppend(a[1..], b);
    } else {
      assert a + b == b;
    }
  }

  /** The running time of a literal pair and a literal quadruple of actions. */
  lemma TotalOfPair(a: Action, b: Action)
    ensures Total([a, b]) == a.Length() + b.Length()
  {
    assert [a, b][1..] == [b];
    assert [b][1..] == [];
    assert Total([b]) == b.Length() + Total([]);
  }

  lemma TotalOfFour(a: Action, b: Action, c: Action, d: Action)
    ensures Total([a, b, c, d]) == a.Length() + b.Length() + c.Length() + d.Length()
  {
    assert [a, b, c, d][1..] == [b, c, d];
    assert [b, c, d][1..] == [c, d];
    TotalOfPair(c, d);
  }

  const StutterDelay: real := 0.05
  const NumStutters: nat := 3

  /** `n` stutters of the backdrop: a fade to opaque and a fade to clear, each `StutterDelay` long. */
  function Stutter(n: nat): seq<Action> {
    if n == 0 then [] else Stutter(n - 1) + [FadeTo(StutterDelay, 255), FadeTo(StutterDelay, 0)]
  }

  /** The stutter loop of `displayImage`: two fades appended per iteration. */
  method BuildStutter(n: nat) returns (steps: seq<Action>)
    ensures steps == Stutter(n)
    ensures |steps| == 2 * n
    ensures forall i :: 0 <= i < |steps| ==>
      steps[i] == if i % 2 == 0 then FadeTo(StutterDelay, 255) else FadeTo(StutterDelay, 0)
    ensures Total(steps) == 2.0 * (n as real) * StutterDelay
  {
    steps := [];
    var i := 0;
    while i < n
      invariant 0 <= i <= n
      invariant steps == Stutter(i)
    {
      steps := steps + [FadeTo(StutterDelay, 255), FadeTo(StutterDelay, 0)];
      i := i + 1;
    }
    StutterShape(n);
  }

  /** A stutter of `n` alternates opaque and clear fades and lasts `2 * n * StutterDelay`. */
  lemma {:induction false} StutterShape(n: nat)
    ensures |Stutter(n)| == 2 * n
    ensures forall i :: 0 <= i < |Stutter(n)| ==>
      Stutter(n)[i] == if i % 2 == 0 then FadeTo(StutterDelay, 255) else FadeTo(StutterDelay, 0)
    ensures Total(Stutter(n)) == 2.0 * (n as real) * StutterDelay
  {
    if n > 0 {
      StutterShape(n - 1);
      var pair := [FadeTo(StutterDelay, 255), FadeTo(StutterDelay, 0)];
      TotalAppend(Stutter(n - 1), pair);
      TotalOfPair(pair[0], pair[1]);
    }
  }

  /**
   * The scale at which a sprite of size `sprite` covers the window,
   * `max(winW / w, winH / h)`: the scaled sprite is at least as large as the
   * window on both axes and exactly as large on one.
   */
  function CoverScale(win: Size, sprite: Size): (r: real)
    requires IsPositive(sprite)
    ensures r * sprite.width >= win.width && r * sprite.height >= win.height
    ensures r * sprite.width == win.width || r * sprite.height == win.height
  {
    var sx := win.width / sprite.width;
    var sy := win.height / sprite.height;
    assert sx * sprite.width == win.width;
    assert sy * sprite.height == win.height;
    Max(sx, sy)
  }

  /** The cover scale is the smallest scale that fills the window on both axes. */
  lemma CoverScaleCovers(win: Size, sprite: Size, other: real)
    requires IsPositive(sprite)
    ensures other * sprite.width >= win.width && other * sprite.height >= win.height ==>
      other >= CoverScale(win, sprite)
  {
  }

  /** The default profile's hold before fading out: the duration less 0.35 s of tweens and the stutter time. */
  function DefaultHoldDelay(duration: real): (r: real)
    ensures r == duration - 0.65
    ensures r < 0.0 <==> duration < 0.65
  {
    duration - 0.35 - (StutterDelay * (NumStutters as real) * 2.0)
  }

  /** For the default two-second display the image holds for 1.35 s. */
  lemma DefaultHoldDelayValue()
    ensures DefaultHoldDelay(2.0) == 1.35
  {
  }

  /** The two animation profiles of the death overlay. */
  datatype Profile =
    | DefaultDeath(backdrop: seq<Action>, imageSpawn: seq<Action> /* run together */, imageSequence: seq<Action>, jumpscare: Option<Path>)
    | CustomAsset(imageSequence: seq<Action>)

  /** The overlay as scheduled: the image's scale and centre, its first scale and opacity, and its profile. */
  datatype Overlay = Overlay(scale: real, position: Point, initialScale: real, initialOpacity: int, profile: Profile)

  function JumpscareSound(resources: string): Path { Path(resources, "jumpsc.mp3") }

  /**
   * `displayImage` once the image is decoded: the sprite is scaled to cover the
   * window and centred; the bundled `death.png` gets the default profile
   * (backdrop stutter, pop-in, hold, fade, and the jump-scare sound if it
   * exists), every other image the custom profile (full opacity, hold, fade).
   */
  method DisplayImage(image: Path, resources: string, duration: real, win: Size, sprite: Size, existing: set<Path>)
    returns (o: Overlay)
    requires IsPositive(sprite)
    ensures o.scale == CoverScale(win, sprite)
    ensures o.position == Point(win.width / 2.0, win.height / 2.0)
    ensures o.profile.DefaultDeath? <==> image == Path(resources, "death.png")
    ensures o.profile.DefaultDeath? ==>
      && o.initialScale == o.scale * 0.1 && o.initialOpacity == 0
      && o.profile.backdrop == [Delay(0.15)] + Stutter(NumStutters) + [FadeOut(0.1)]
      && o.profile.imageSpawn == [ScaleTo(0.1, o.scale * 1.2), FadeIn(0.1)]
      && o.profile.imageSequence == [Delay(0.1), ScaleTo(0.05, o.scale), Delay(DefaultHoldDelay(duration)), FadeOut(0.2)]
      && Total(o.profile.backdrop) == 0.55
      && Total(o.profile.imageSequence) == duration - 0.3
      && o.profile.jumpscare == (if JumpscareSound(resources) in existing then Some(JumpscareSound(resources)) else None)
    ensures o.profile.CustomAsset? ==>
      && o.initialScale == o.scale && o.initialOpacity == 255
      && o.profile.imageSequence == [Delay(duration - 0.2), FadeOut(0.2)]
      && Total(o.profile.imageSequence) == duration
  {
    var scale := CoverScale(win, sprite);
    var centre := Point(win.width / 2.0, win.height / 2.0);
    if image == Path(resources, "death.png") {
      var stutter := BuildStutter(NumStutters);
      var backdrop := [Delay(0.15)] + stutter + [FadeOut(0.1)];
      TotalAppend([Delay(0.15)], stutter);
      TotalAppend([Delay(0.15)] + stutter, [FadeOut(0.1)]);
      var spawn := [ScaleTo(0.1, scale * 1.2), FadeIn(0.1)];
      var hold := DefaultHoldDelay(duration);
      var sequence := [Delay(0.1), ScaleTo(0.05, scale), Delay(hold), FadeOut(0.2)];
      assert sequence[2] == Delay(duration - 0.65);
      TotalOfFour(sequence[0], sequence[1], sequence[2], sequence[3]);
      var jumpscare := if JumpscareSound(resources) in existing then Some(JumpscareSound(resources)) else None;
      o := Overlay(scale, centre, scale * 0.1, 0, DefaultDeath(backdrop, spawn, sequence, jumpscare));
    } else {
      TotalOfPair(Delay(duration - 0.2), FadeOut(0.2));
      o := Overlay(scale, centre, scale, 255, CustomAsset([Delay(duration - 0.2), FadeOut(0.2)]));
    }
  }
}
