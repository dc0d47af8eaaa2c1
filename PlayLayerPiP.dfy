/**
 * The PiP image in a running level (`PlayLayer` in the mod): `setupPiP`
 * places the image in a corner of the window, and the touch handlers let the
 * player drag it, writing the dragged position back to the settings as a
 * fraction of the window.
 */
module PlayLayerPiP {
  import opened Wrappers
  import opened Paths
  import opened Geometry
  import opened PiPConfig

  /** The image `setupPiP` falls back to in the resources folder. */
  const FallbackImage := "livereact.png"

  /** The offsets move the image right by `pip-offset-x`, and away from its edge (down at the top, up at the bottom) by `pip-offset-y`. */
  function CornerOffset(c: Corner, offsetX: real, offsetY: real): Point {
    match c
    case TopRight => Point(offsetX, -offsetY)
    case TopLeft => Point(offsetX, -offsetY)
    case BottomRight => Point(offsetX, offsetY)
    case BottomLeft => Point(offsetX, offsetY)
  }

  /** The position before clamping: the corner of `pip-position` plus the offsets, or the origin for an unknown corner number. */
  function BasePosition(cfg: PiPSettings, half: Size, win: Size): (r: Point)
    ensures CornerOf(cfg.pipPosition).None? ==> r == Point(0.0, 0.0)
    ensures CornerOf(cfg.pipPosition).Some? ==>
      var c := CornerOf(cfg.pipPosition).value;
      var k := CornerPosition(c, half, cfg.padding as real, win);
      && r.x == k.x + cfg.offsetX as real
      && (c.TopRight? || c.TopLeft? ==> r.y == k.y - cfg.offsetY as real)
      && (c.BottomRight? || c.BottomLeft? ==> r.y == k.y + cfg.offsetY as real)
  {
    match CornerOf(cfg.pipPosition)
    case Some(c) =>
      CornerPosition(c, half, cfg.padding as real, win).Add(CornerOffset(c, cfg.offsetX as real, cfg.offsetY as real))
    case None => Point(0.0, 0.0)
  }

  /** Where `setupPiP` puts the image: the base position clamped into the window. It never reads the saved position. */
  function SetupPosition(cfg: PiPSettings, half: Size, win: Size): (r: Point)
    ensures r.x >= Low(half.width, cfg.padding as real) && r.y >= Low(half.height, cfg.padding as real)
    ensures FitsInBox(half, cfg.padding as real, win) ==> InsideBox(r, half, cfg.padding as real, win)
    ensures InsideBox(BasePosition(cfg, half, win), half, cfg.padding as real, win) ==> r == BasePosition(cfg, half, win)
  {
    ClampIntoBoxBounds(BasePosition(cfg, half, win), half, cfg.padding as real, win);
    ClampIntoBox(BasePosition(cfg, half, win), half, cfg.padding as real, win)
  }

  /** Without offsets, a named corner that fits is placed exactly at the corner's position. */
  lemma SetupPositionInside(cfg: PiPSettings, half: Size, win: Size)
    ensures FitsInBox(half, cfg.padding as real, win) && cfg.offsetX == 0 && cfg.offsetY == 0 && CornerOf(cfg.pipPosition).Some? ==>
      SetupPosition(cfg, half, win) == CornerPosition(CornerOf(cfg.pipPosition).value, half, cfg.padding as real, win)
  {
    var p := SetupPosition(cfg, half, win);
    ClampIntoBoxBounds(BasePosition(cfg, half, win), half, cfg.padding as real, win);
    if FitsInBox(half, cfg.padding as real, win) && cfg.offsetX == 0 && cfg.offsetY == 0 && CornerOf(cfg.pipPosition).Some? {
      var c := CornerOf(cfg.pipPosition).value;
      CornerPositionInside(c, half, cfg.padding as real, win);
      assert BasePosition(cfg, half, win) == CornerPosition(c, half, cfg.padding as real, win);
    }
  }

  /** An unknown corner number leaves the base position at the origin, which the clamp moves to the lower-left bound. */
  lemma UnknownCornerIsLowerLeft(cfg: PiPSettings, half: Size, win: Size)
    requires CornerOf(cfg.pipPosition).None?
    requires Low(half.width, cfg.padding as real) >= 0.0 && Low(half.height, cfg.padding as real) >= 0.0
    ensures SetupPosition(cfg, half, win) == Point(Low(half.width, cfg.padding as real), Low(half.height, cfg.padding as real))
  {
  }

  class PlayLayerPiP {
    /** `m_fields->miniImage`: the PiP sprite, absent until `setupPiP` creates one. */
    var miniImage: Option<Sprite>
    var isDragging: bool
    var dragOffset: Point
    /** The settings the drag handlers write. */
    var saved: SavedPosition

    ghost predicate Valid()
      reads this
    {
      && (isDragging ==> miniImage.Some?)
      && (miniImage.Some? ==> IsPositive(miniImage.value.content))
    }

    /** A fresh level: no PiP image, not dragging, and the settings as stored. */
    constructor(stored: SavedPosition)
      ensures Valid()
      ensures miniImage == None && !isDragging && dragOffset == Point(0.0, 0.0) && saved == stored
    {
      miniImage := None;
      isDragging := false;
      dragOffset := Point(0.0, 0.0);
      saved := stored;
    }

    /**
     * `setupPiP`: when the mod and PiP mode are on and the chosen image
     * decodes, a new sprite of its texture is scaled and placed by
     * `SetupPosition`. The drag state and the saved position are left alone:
     * the placement does not read the saved position.
     */
    method SetupPiP(cfg: PiPSettings, resources: string, textures: map<Path, Size>, win: Size)
      requires Valid()
      requires TexturesPositive(textures)
      modifies this
      ensures Valid()
      ensures isDragging == old(isDragging) && dragOffset == old(dragOffset) && saved == old(saved)
      ensures var path := PiPImage(cfg, resources, FallbackImage);
        && (!(cfg.enabled && cfg.pipMode && path in textures) ==> miniImage == old(miniImage))
        && (cfg.enabled && cfg.pipMode && path in textures ==>
          && miniImage.Some?
          && miniImage.value.content == textures[path]
          && miniImage.value.scale == PiPScale(win.width, cfg, textures[path])
          && miniImage.value.position == SetupPosition(cfg, miniImage.value.Half(), win))
    {
      if !cfg.enabled || !cfg.pipMode {
        return;
      }
      var path := PiPImage(cfg, resources, FallbackImage);
      if path !in textures {
        return;
      }
      var content := textures[path];
      var scale := PiPScale(win.width, cfg, content);
      var half := Sprite(content, scale, Point(0.0, 0.0)).Half();
      var sprite := Sprite(content, scale, SetupPosition(cfg, half, win));
      assert sprite.Half() == half;
      miniImage := Some(sprite);
    }

    /**
     * `ccTouchBegan`: a touch within the sprite's box grown by `GrabMargin`
     * starts a drag and records the offset from the touch to the sprite's
     * centre; any other touch is not claimed and changes nothing.
     */
    method TouchBegan(touch: Point) returns (claimed: bool)
      requires Valid()
      modifies this
      ensures Valid()
      ensures claimed <==> (old(miniImage).Some? &&
        InGrownBox(old(miniImage).value.position, old(miniImage).value.Half(), GrabMargin, touch))
      ensures claimed ==> isDragging && dragOffset == miniImage.value.position.Sub(touch)
      ensures !claimed ==> isDragging == old(isDragging) && dragOffset == old(dragOffset)
      ensures miniImage == old(miniImage) && saved == old(saved)
    {
      if miniImage.None? {
        return false;
      }
      var sprite := miniImage.value;
      if InGrownBox(sprite.position, sprite.Half(), GrabMargin, touch) {
        isDragging := true;
        dragOffset := sprite.position.Sub(touch);
        return true;
      }
      return false;
    }

    /**
     * `ccTouchMoved`: while dragging, the sprite follows the touch (plus the
     * grab offset), clamped into the window `pip-padding` away from its edges,
     * and the position is saved as a fraction of the window. Otherwise nothing
     * changes.
     */
    method TouchMoved(touch: Point, win: Size, padding: int)
      requires Valid()
      requires IsPositive(win)
      modifies this
      ensures Valid()
      ensures isDragging == old(isDragging) && dragOffset == old(dragOffset)
      ensures !old(isDragging) ==> miniImage == old(miniImage) && saved == old(saved)
      ensures old(isDragging) ==>
        var sprite := old(miniImage).value;
        var p := ClampIntoBox(touch.Add(dragOffset), sprite.Half(), padding as real, win);
        && miniImage == Some(sprite.(position := p))
        && p.x >= Low(sprite.Half().width, padding as real) && p.y >= Low(sprite.Half().height, padding as real)
        && (FitsInBox(sprite.Half(), padding as real, win) ==> InsideBox(p, sprite.Half(), padding as real, win))
        && saved == SavedPosition(p.x / win.width, p.y / win.height, true)
        && Denormalize(Point(saved.x, saved.y), win) == p
    {
      if !isDragging || miniImage.None? {
        return;
      }
      var sprite := miniImage.value;
      var p := ClampIntoBox(touch.Add(dragOffset), sprite.Half(), padding as real, win);
      ClampIntoBoxBounds(touch.Add(dragOffset), sprite.Half(), padding as real, win);
      miniImage := Some(sprite.(position := p));
      var n := Normalize(p, win);
      saved := SavedPosition(n.x, n.y, true);
    }

    /** `ccTouchEnded`: the drag ends; nothing else changes. */
    method TouchEnded()
      requires Valid()
      modifies this
      ensures Valid()
      ensures !isDragging
      ensures miniImage == old(miniImage) && dragOffset == old(dragOffset) && saved == old(saved)
    {
      isDragging := false;
    }

    /** `ccTouchCancelled`: the same as the touch ending. */
    method TouchCancelled()
      requires Valid()
      modifies this
      ensures Valid()
      ensures !isDragging
      ensures miniImage == old(miniImage) && dragOffset == old(dragOffset) && saved == old(saved)
    {
      isDragging := false;
    }
  }
}
