/**
 * The `pip-position-selector` settings widget: a 300 x 200 preview of the
 * screen holding a scaled copy of the PiP image, which the player drags to
 * choose where the image sits. Every drag writes the position back to the
 * settings as a fraction of the preview.
 */
module PositionSelector {
  import opened Wrappers
  import opened Paths
  import opened Geometry
  import opened PiPConfig

  /** The preview area. */
  const Canvas := Size(300.0, 200.0)

  /** The image the selector falls back to in the resources folder. */
  const FallbackImage := "death.png"

  /** `pip-position` as the selector reads it: an unknown number means the top-right corner. */
  function SelectorCorner(setting: int): Corner {
    match CornerOf(setting)
    case Some(corner) => corner
    case None => TopRight
  }

  /**
   * Where the preview first shows the image: the saved fraction of the canvas
   * when a custom position was saved, otherwise the chosen corner, with no
   * offsets and no clamping.
   */
  function InitialPosition(cfg: PiPSettings, saved: SavedPosition, half: Size): (r: Point)
    ensures saved.hasCustomPosition ==> Normalize(r, Canvas) == Point(saved.x, saved.y)
    ensures !saved.hasCustomPosition && FitsInBox(half, cfg.padding as real, Canvas) ==>
      InsideBox(r, half, cfg.padding as real, Canvas)
  {
    if saved.hasCustomPosition then Denormalize(Point(saved.x, saved.y), Canvas)
    else CornerPosition(SelectorCorner(cfg.pipPosition), half, cfg.padding as real, Canvas)
  }

  /** A saved position is shown exactly where it was dragged to, whatever the image's size. */
  lemma InitialPositionShowsSaved(cfg: PiPSettings, p: Point, half: Size)
    ensures InitialPosition(cfg, SavedPosition(Normalize(p, Canvas).x, Normalize(p, Canvas).y, true), half) == p
  {
    NormalizeRoundTrip(p, Canvas);
  }

  /**
   * Without a saved position the image sits in the corner `pip-position`
   * names, top-right for an unknown number.
   */
  lemma InitialCornerPosition(cfg: PiPSettings, saved: SavedPosition, half: Size)
    requires !saved.hasCustomPosition
    ensures CornerOf(cfg.pipPosition).Some? ==>
      InitialPosition(cfg, saved, half) == CornerPosition(CornerOf(cfg.pipPosition).value, half, cfg.padding as real, Canvas)
    ensures CornerOf(cfg.pipPosition).None? ==>
      InitialPosition(cfg, saved, half) == CornerPosition(TopRight, half, cfg.padding as real, Canvas)
  {
  }

  /** A saved fraction of (0.8, 0.9) is shown at (240, 180) in the preview. */
  lemma InitialPositionExample(cfg: PiPSettings, half: Size)
    ensures InitialPosition(cfg, SavedPosition(0.8, 0.9, true), half) == Point(240.0, 180.0)
  {
  }

  class PositionSelector {
    /** `m_pipImage`: the preview sprite, absent when the image could not be loaded. */
    var pipImage: Option<Sprite>
    var isDragging: bool
    var dragOffset: Point
    /** `m_scale`: the scale given to the preview sprite. */
    var scale: real
    /** The settings the drag handlers write. */
    var saved: SavedPosition

    ghost predicate Valid()
      reads this
    {
      && (isDragging ==> pipImage.Some?)
      && (pipImage.Some? ==> IsPositive(pipImage.value.content) && pipImage.value.scale == scale)
    }

    /** The preview shows the saved position: once a custom position is saved, the sprite sits exactly there. */
    predicate ShowsSaved()
      reads this
    {
      pipImage.Some? && saved.hasCustomPosition ==>
        pipImage.value.position == Denormalize(Point(saved.x, saved.y), Canvas)
    }

    /**
     * `init`: loads the chosen image; when it decodes, the sprite is scaled
     * to `pip-size` percent of the canvas width and placed at
     * `InitialPosition`. Without an image `m_scale` keeps its default 1.
     */
    constructor(cfg: PiPSettings, stored: SavedPosition, resources: string, textures: map<Path, Size>)
      requires TexturesPositive(textures)
      ensures Valid() && ShowsSaved()
      ensures !isDragging && dragOffset == Point(0.0, 0.0) && saved == stored
      ensures var path := PiPImage(cfg, resources, FallbackImage);
        && (path !in textures ==> pipImage == None && scale == 1.0)
        && (path in textures ==>
          && pipImage.Some?
          && pipImage.value.content == textures[path]
          && scale == PiPScale(Canvas.width, cfg, textures[path])
          && pipImage.value.position == InitialPosition(cfg, stored, pipImage.value.Half()))
    {
      isDragging := false;
      dragOffset := Point(0.0, 0.0);
      saved := stored;
      var path := PiPImage(cfg, resources, FallbackImage);
      if path in textures {
        var content := textures[path];
        var s := PiPScale(Canvas.width, cfg, content);
        var half := Sprite(content, s, Point(0.0, 0.0)).Half();
        var sprite := Sprite(content, s, InitialPosition(cfg, stored, half));
        assert sprite.Half() == half;
        scale := s;
        pipImage := Some(sprite);
      } else {
        scale := 1.0;
        pipImage := None;
      }
    }

    /**
     * `ccTouchBegan`: a touch within the preview sprite's box grown by
     * `GrabMargin` starts a drag and records the offset from the touch to the
     * sprite's centre; any other touch is not claimed and changes nothing.
     */
    method TouchBegan(touch: Point) returns (claimed: bool)
      requires Valid() && ShowsSaved()
      modifies this
      ensures Valid() && ShowsSaved()
      ensures claimed <==> (old(pipImage).Some? &&
        InGrownBox(old(pipImage).value.position, old(pipImage).value.Half(), GrabMargin, touch))
      ensures claimed ==> isDragging && dragOffset == pipImage.value.position.Sub(touch)
      ensures !claimed ==> isDragging == old(isDragging) && dragOffset == old(dragOffset)
      ensures pipImage == old(pipImage) && scale == old(scale) && saved == old(saved)
    {
      if pipImage.None? {
        return false;
      }
      var sprite := pipImage.value;
      if InGrownBox(sprite.position, sprite.Half(), GrabMargin, touch) {
        isDragging := true;
        dragOffset := sprite.position.Sub(touch);
        return true;
      }
      return false;
    }

    /**
     * `ccTouchMoved`: while dragging, the sprite follows the touch (plus the
     * grab offset), clamped into the canvas `pip-padding` away from its edges,
     * and the position is saved as a fraction of the canvas, so the preview
     * keeps showing the saved position. Otherwise nothing changes.
     */
    method TouchMoved(touch: Point, padding: int)
      requires Valid() && ShowsSaved()
      modifies this
      ensures Valid() && ShowsSaved()
      ensures isDragging == old(isDragging) && dragOffset == old(dragOffset) && scale == old(scale)
      ensures !old(isDragging) ==> pipImage == old(pipImage) && saved == old(saved)
      ensures old(isDragging) ==>
        var sprite := old(pipImage).value;
        var p := ClampIntoBox(touch.Add(dragOffset), sprite.Half(), padding as real, Canvas);
        && pipImage == Some(sprite.(position := p))
        && (FitsInBox(sprite.Half(), padding as real, Canvas) ==> InsideBox(p, sprite.Half(), padding as real, Canvas))
        && saved == SavedPosition(p.x / Canvas.width, p.y / Canvas.height, true)
    {
      if !isDragging || pipImage.None? {
        return;
      }
      var sprite := pipImage.value;
      var half := Size(sprite.content.width * scale / 2.0, sprite.content.height * scale / 2.0);
      assert half == sprite.Half();
      var p := ClampIntoBox(touch.Add(dragOffset), half, padding as real, Canvas);
      ClampIntoBoxBounds(touch.Add(dragOffset), half, padding as real, Canvas);
      pipImage := Some(sprite.(position := p));
      var n := Normalize(p, Canvas);
      NormalizeRoundTrip(p, Canvas);
      saved := SavedPosition(n.x, n.y, true);
      assert Denormalize(Point(saved.x, saved.y), Canvas) == p;
    }

    /** `ccTouchEnded`: the drag ends; nothing else changes. */
    method TouchEnded()
      requires Valid() && ShowsSaved()
      modifies this
      ensures Valid() && ShowsSaved()
      ensures !isDragging
      ensures pipImage == old(pipImage) && dragOffset == old(dragOffset) && scale == old(scale) && saved == old(saved)
    {
      isDragging := false;
    }

    /** `ccTouchCancelled`: the same as the touch ending. */
    method TouchCancelled()
      requires Valid() && ShowsSaved()
      modifies this
      ensures Valid() && ShowsSaved()
      ensures !isDragging
      ensures pipImage == old(pipImage) && dragOffset == old(dragOffset) && scale == old(scale) && saved == old(saved)
    {
      isDragging := false;
    }
  }
}
