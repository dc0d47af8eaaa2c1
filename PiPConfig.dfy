/**
 * The picture-in-picture settings shared by the in-game PiP image and the
 * position selector: which image to show, how large to draw it, and the
 * dragged position the two write back.
 */
module PiPConfig {
  import opened Paths
  import opened Geometry

  /** The PiP settings: `enabled`, `pip-mode`, `pip-use-custom-image`, `pip-image-path`, `pip-size`, `pip-size-multiplier`, `pip-padding`, `pip-offset-x`, `pip-offset-y` and `pip-position`. */
  datatype PiPSettings = PiPSettings(
    enabled: bool,
    pipMode: bool,
    useCustomImage: bool,
    imagePath: Path,
    pipSize: int,
    sizeMultiplier: real,
    padding: int,
    offsetX: int,
    offsetY: int,
    pipPosition: int)

  /** The three settings the drag handlers write: `pip-position-x`, `pip-position-y` and `has-custom-position`. */
  datatype SavedPosition = SavedPosition(x: real, y: real, hasCustomPosition: bool)

  /**
   * The image file to show: the custom image when that is switched on and its
   * path is not empty, otherwise `fallback` in the resources folder.
   */
  function PiPImage(cfg: PiPSettings, resources: string, fallback: string): (r: Path)
    ensures r == cfg.imagePath || r == Path(resources, fallback)
    ensures cfg.useCustomImage && !cfg.imagePath.IsEmpty() ==> r == cfg.imagePath
    ensures !(cfg.useCustomImage && !cfg.imagePath.IsEmpty()) ==> r == Path(resources, fallback)
    ensures fallback != "" ==> !r.IsEmpty()
  {
    var chosen := if cfg.useCustomImage then cfg.imagePath else EmptyPath;
    if chosen.IsEmpty() then Path(resources, fallback) else chosen
  }

  /** The scale of the PiP image in a frame `width` wide: `pip-size` percent of the width, times the multiplier, over the texture width. */
  function PiPScale(width: real, cfg: PiPSettings, content: Size): (r: real)
    requires content.width > 0.0
    ensures content.width * r == width * ((cfg.pipSize as real) / 100.0) * cfg.sizeMultiplier
  {
    width * ((cfg.pipSize as real) / 100.0) * cfg.sizeMultiplier / content.width
  }

  /** The textures that decode, by file; each has a positive size. */
  predicate TexturesPositive(textures: map<Path, Size>) {
    forall p :: p in textures ==> IsPositive(textures[p])
  }
}
