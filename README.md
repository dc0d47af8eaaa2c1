# Death-image mod: a verified model of its decision and placement logic

The mod replaces a player's death in the game with an image-and-sound overlay. It can also show a
picture-in-picture (PiP) image during play, which the player drags into place. This project models
the deterministic logic beneath the engine glue:

- **Asset resolution.** Scanning a folder for `.png` images. Finding the `.ogg`/`.mp3` that shares an
  image's stem. Pairing images with sounds by stem ("meme" assets). Picking one element at random.
- **The death trigger.** `PlayerObject::playerDestroyed` as a pure function from settings, game state
  and the visible files to a plan. The plan is the sounds `playerDestroyed` plays itself, in order, and the
  image it hands to `displayImage`, if any. `displayImage` adds `jumpsc.mp3` for the bundled `death.png`.
- **The overlay.** The scale that makes the image cover the window. The timed action sequences of the
  two animation profiles, and their delay arithmetic.
- **PiP placement and dragging.** Two drag widgets, each a Dafny class whose methods update the
  sprite, the drag state and the three persisted settings:
  - the in-game `PlayLayer` image (`setupPiP` and the touch handlers);
  - the 300 × 200 `PiPPositionSelector` settings widget (`init` and the touch handlers).

Directory listings, the set of existing files, decoded texture sizes, the window size and the random
draw are passed in as plain values. Coordinates and durations are `real`.

Files:
- `Wrappers.dfy`: `Option`.
- `Paths.dfy`: paths and the `stem()`/`extension()` split.
- `Geometry.dfy`: clamps, corners and normalisation.
- `Assets.dfy`: scans, pairing and pickers.
- `DeathTrigger.dfy`: the death decision.
- `DeathOverlay.dfy`: the overlay's numbers.
- `PiPConfig.dfy`: the PiP settings.
- `PlayLayerPiP.dfy` and `PositionSelector.dfy`: the two widget classes.

Some behaviour differs from what a player might expect. The model follows the code:
- `setupPiP` never reads the saved `pip-position-x/y`. The in-game image is always placed at its
  corner, with offsets, and then clamped. Only the settings widget shows the saved position.
  The model states this as it is (`PlayLayerPiP.SetupPiP`).
- A dragged position is inside `[half + padding, size - half - padding]` only when that interval is
  non-empty. When it is empty, the lower bound wins. The lower bound always holds.
- The restored saved position is scaled by the widget's 300 × 200 canvas, not by the screen size.
  So the widget shows `(0.8, 0.9)` at `(240, 180)`.
- The default profile's image sequence runs for `duration - 0.3` s, not `duration`.

## Model

| member | source | states |
|---|---|---|
| Paths.LastDotIsRightmost | src/main.cpp:77 | the index found is a '.', no '.' follows it, and none is found only when the name has no '.' |
| Paths.ExtensionStart | src/main.cpp:77 | an extension never starts at the first character and always lies inside the name (C++17 `extension()`: ".profile", "." and ".." have none) |
| Paths.StemExtensionSplit | src/main.cpp:77-78 | `stem + extension` is the whole file name |
| Paths.StemOfJoined | src/main.cpp:49-56 | the file name `stem + ".ogg"` (or any extension) has exactly that stem and that extension |
| Paths.NonEmptyStem | src/main.cpp:48-49 | only the empty name has an empty stem; a non-empty extension starts with '.' and follows a non-empty stem |
| Geometry.Clamp | src/main.cpp:563-566 | `max(lo, min(x, hi))` is at least `lo`, at most `hi` when `lo <= hi`, keeps an `x` already in range, and is one of `lo`, `x`, `hi` |
| Geometry.ClampIdempotent | src/main.cpp:563-566 | clamping twice equals clamping once |
| Geometry.ClampIntoBox | src/main.cpp:558-566 | the clamped centre always respects the lower bounds `half + padding` on both axes |
| Geometry.ClampIntoBoxBounds | src/main.cpp:563-566 | the clamped centre is inside the box whenever the box is non-empty, and a centre already inside is unchanged |
| Geometry.Normalize | src/main.cpp:576-577 | the saved fraction times the container size is the position |
| Geometry.NormalizeRoundTrip | src/PiPPositionSelector.cpp:179-180 | normalising and scaling back by the same container gives the position back exactly |
| Geometry.CornerOf | src/main.cpp:649-670 | `pip-position` names a corner exactly when it is 0..3 |
| Geometry.CornerPosition | src/PiPPositionSelector.cpp:95-111 | each corner is inset by half the scaled size plus the padding from its two edges |
| Geometry.CornerPositionInside | src/PiPPositionSelector.cpp:95-111 | every corner position lies inside the clamp box when the box is non-empty |
| Assets.GetImagesFromFolder | src/main.cpp:16-35 | the loop returns the PNG regular files of the listing in listing order, and nothing for a missing folder |
| Assets.PngImages | src/main.cpp:16-35 | a missing folder yields no images, and there are never more images than listing entries |
| Assets.PngPathsSound | src/main.cpp:25-29 | every kept path was kept for one of the entries scanned so far |
| Assets.PngPathsComplete | src/main.cpp:25-29 | the path of every PNG regular file scanned so far is kept |
| Assets.PngPathsMembers | src/main.cpp:25-29 | a path is kept iff some entry is a regular file with extension `.png` and that name; never more paths than entries |
| Assets.PngImagesExactly | src/main.cpp:16-35 | a result iff a PNG regular file of the folder; every result lies in the folder and ends in `.png`; a missing folder yields none |
| Assets.RandomImage | src/main.cpp:37-45 | an empty list gives the empty path, otherwise the result is an element of the list |
| Assets.RandomMeme | src/main.cpp:105-113 | an empty list gives the empty asset, otherwise the result is an element of the list |
| Assets.FindMatchingSoundFile | src/main.cpp:47-62 | a non-empty result is a file that exists |
| Assets.FindMatchingSoundFileSpec | src/main.cpp:47-62 | `folder/stem.ogg` if it exists, else `folder/stem.mp3` if it exists, else empty; any result shares the image's folder and stem |
| Assets.MemeAssets | src/main.cpp:64-103 | a missing folder yields no assets, and there are never more assets than listing entries |
| Assets.GetMemeAssets | src/main.cpp:64-103 | the two loops with the stem map return exactly the pairs of the specification `MemeAssets` |
| Assets.ScanImages | src/main.cpp:74-83 | the first loop leaves, for exactly the stems of the PNG regular files, the last such file as image and no sound |
| Assets.ScanSounds | src/main.cpp:85-97 | the second loop pushes exactly the assets of `MemesFrom`, in listing order |
| Assets.ScanSound | src/main.cpp:86-95 | one pass of the second loop pushes the entry's pair exactly when it is an `.mp3`/`.ogg` regular file whose stem has an image, and keeps every stem's image |
| Assets.PngIndexWellFormed | src/main.cpp:74-83 | the first scan maps a stem to a `.png` in the folder with that stem |
| Assets.PngIndexKeys | src/main.cpp:74-83 | a stem is in the map iff some PNG regular file has that stem |
| Assets.PngIndexKeysSound | src/main.cpp:80-82 | every stem in the map comes from a PNG regular file |
| Assets.PngIndexKeysComplete | src/main.cpp:80-82 | every PNG regular file's stem is in the map |
| Assets.PngIndexValues | src/main.cpp:80-82 | the image stored for a stem is the path of one of the PNG entries |
| Assets.MemesFromSound | src/main.cpp:85-97 | every pushed asset was pushed for one of the entries scanned so far |
| Assets.SoundOfMember | src/main.cpp:91-94 | an entry pushes only an audio regular file's path as sound, with the map's image for its stem |
| Assets.MemesFromComplete | src/main.cpp:85-97 | every audio entry whose stem is in the map pushes its asset |
| Assets.MemesFromCount | src/main.cpp:85-97 | the second loop pushes exactly one asset per audio regular file scanned whose stem has an image |
| Assets.MemeAssetsCount | src/main.cpp:64-103 | the number of assets is the number of `.mp3`/`.ogg` regular files that share a stem with a PNG regular file of the listing |
| Assets.MemeAssetsSound | src/main.cpp:64-103 | every asset: folder exists, `.png` image and `.mp3`/`.ogg` sound in the folder, same stem, both from the listing |
| Assets.MemeAssetsComplete | src/main.cpp:64-103 | an audio file and a PNG with the same stem always yield an asset with that sound |
| Assets.MemeAssetsOfFive | src/main.cpp:64-103 | one asset per audio file: a stem with two sounds appears twice, a stem lacking a sound or an image not at all |
| Assets.MemeAssetsExample | src/main.cpp:64-103 | `a.png a.mp3 a.ogg b.png c.mp3` yields exactly `(a.png, a.mp3), (a.png, a.ogg)` |
| DeathTrigger.PlayerDestroyed | src/main.cpp:122-242 | nothing happens unless the trigger guards pass; outside meme mode the plan starts with the custom sound when it is on, and below the minimum percentage it is only that sound; `playerDestroyed` itself plays at most one sound, since the custom sound, a matched sound and `death.ogg` exclude each other |
| DeathTrigger.GuardsDoNothing | src/main.cpp:127-147 | nothing happens when disabled, for another player in dual or Globed play, or in practice mode unless allowed |
| DeathTrigger.MemeModeSkipsPercentage | src/main.cpp:149-170 | meme mode ignores the percentage and the custom sound; with no asset nothing happens; otherwise it plays one asset's own sound and shows that asset's image, a `.png` and a same-stem `.mp3`/`.ogg` of the memes folder |
| DeathTrigger.CustomSoundPlaysAlone | src/main.cpp:172-177 | with the custom sound on, it is the only sound `playerDestroyed` plays outside meme mode, and it plays even when the image is then withheld |
| DeathTrigger.PercentageGate | src/main.cpp:179-186 | when the settings make an image available, it is shown exactly when no positive minimum is missed |
| DeathTrigger.DefaultImageAndSound | src/main.cpp:231-239 | without a custom image `death.png` is shown; `playerDestroyed` itself plays `death.ogg` as its only sound unless the custom sound is on |
| DeathTrigger.ImageSpecificSoundRule | src/main.cpp:207-229 | a sound besides the custom one plays only with image-specific sounds on and the custom sound off; then, once an image is shown, its `.ogg` sibling plays if it exists, else its `.mp3` sibling if that exists, else none |
| DeathTrigger.CustomImageChoice | src/main.cpp:190-221 | a set `custom-image-path` is the image shown once the gate passes; an unset path, an unset folder or a folder without PNGs shows nothing and plays only the custom sound |
| DeathTrigger.FolderImageIsPng | src/main.cpp:190-213 | a folder image is one of the folder's PNG regular files, and its matched sound shares its folder and stem |
| DeathTrigger.DefaultDeathSounds | src/main.cpp:354-357 | with `death.png` shown, a death plays `death.ogg` (or the custom sound) and then `jumpsc.mp3` when it exists; with any other image only the plan's sounds; never more than two |
| DeathTrigger.MinimumPercentageExample | src/main.cpp:179-186 | with a minimum of 50, a death at 30% shows nothing and one at 70% shows `death.png` |
| DeathOverlay.BuildStutter | src/main.cpp:329-333 | the loop yields the stutter specification `Stutter(n)`: 2n fades alternating to 255 and to 0, lasting 2n × 0.05 s |
| DeathOverlay.StutterShape | src/main.cpp:329-333 | the stutter specification alternates opaque and clear fades and lasts 2n × 0.05 s |
| DeathOverlay.CoverScale | src/main.cpp:290-292 | the scale makes the image at least as wide and as high as the window, and matches the window exactly on one axis |
| DeathOverlay.CoverScaleCovers | src/main.cpp:290-292 | no smaller scale makes the image cover the window on both axes |
| DeathOverlay.DefaultHoldDelayValue | src/main.cpp:335 | a two-second display holds the image for 1.35 s |
| DeathOverlay.DefaultHoldDelay | src/main.cpp:335 | the hold is the duration less 0.65 s, negative exactly when the duration is below 0.65 s |
| DeathOverlay.DisplayImage | src/main.cpp:287-368 | the scale is `CoverScale`, centred; default profile iff `death.png`: backdrop delay 0.15, the stutter, fade 0.1; spawn scale to 1.2× with fade-in in 0.1 s; then delay 0.1, scale back in 0.05, hold `duration - 0.65`, fade 0.2, so the backdrop lasts 0.55 s and the image sequence `duration - 0.3`; jump-scare sound iff it exists; otherwise full opacity, hold and fade totalling `duration` |
| PiPConfig.PiPImage | src/main.cpp:597-603 | the custom image when enabled and non-empty, otherwise the resources fallback; never empty |
| PiPConfig.PiPScale | src/main.cpp:631-634 | the scale brings the texture's width to the container width × `pip-size`/100 × the multiplier |
| PlayLayerPiP.BasePosition | src/main.cpp:644-667 | the named corner's position moved by `+offsetX` and, for top corners `-offsetY`, for bottom corners `+offsetY`; an unknown corner leaves `(0,0)` |
| PlayLayerPiP.SetupPosition | src/main.cpp:644-671 | the placement respects the lower bounds, is inside the window when the image fits, and is the offset corner itself when that is already inside |
| PlayLayerPiP.SetupPositionInside | src/main.cpp:644-674 | without offsets, a named corner that fits is placed exactly at the corner's position |
| PlayLayerPiP.UnknownCornerIsLowerLeft | src/main.cpp:649-671 | an unknown `pip-position` leaves `(0,0)`, which clamps to the lower-left bound |
| PlayLayerPiP.PlayLayerPiP.constructor | src/main.cpp:431-437 | a level starts with no PiP image and not dragging |
| PlayLayerPiP.PlayLayerPiP.SetupPiP | src/main.cpp:593-675 | when enabled with PiP on and a decodable image: the sprite is scaled by `PiPScale` and placed at the clamped corner; the saved position is neither read nor changed |
| PlayLayerPiP.PlayLayerPiP.TouchBegan | src/main.cpp:528-545 | claims the touch iff an image exists and the touch is in its box grown by 10; then drags with offset `position - touch`, otherwise nothing changes |
| PlayLayerPiP.PlayLayerPiP.TouchMoved | src/main.cpp:548-583 | no-op unless dragging; otherwise the sprite moves to the clamped `touch + offset`, and `pos / win` and `has-custom-position` are saved, scaling back to the position |
| PlayLayerPiP.PlayLayerPiP.TouchEnded | src/main.cpp:585-587 | the drag ends and nothing else changes |
| PlayLayerPiP.PlayLayerPiP.TouchCancelled | src/main.cpp:589-591 | the drag ends and nothing else changes |
| PositionSelector.InitialPosition | src/PiPPositionSelector.cpp:86-116 | a saved position normalises back to the saved fractions; otherwise the corner position lies inside the canvas whenever the image fits |
| PositionSelector.InitialPositionShowsSaved | src/PiPPositionSelector.cpp:90-93 | a saved fraction is shown exactly at the position that was saved, without clamping |
| PositionSelector.InitialCornerPosition | src/PiPPositionSelector.cpp:95-115 | without a saved position: the named corner, top-right for an unknown number |
| PositionSelector.InitialPositionExample | src/PiPPositionSelector.cpp:90-93 | the saved `(0.8, 0.9)` is shown at `(240, 180)` |
| PositionSelector.PositionSelector.constructor | src/PiPPositionSelector.cpp:27-131 | with a decodable image: scale `PiPScale(300, …)`, position `InitialPosition`; without one the scale stays 1; the preview shows the saved position |
| PositionSelector.PositionSelector.TouchBegan | src/PiPPositionSelector.cpp:134-152 | claims the touch iff an image exists and the touch is in its box grown by 10; then drags with offset `position - touch`, otherwise nothing changes |
| PositionSelector.PositionSelector.TouchMoved | src/PiPPositionSelector.cpp:155-186 | no-op unless dragging; otherwise clamps `touch + offset` into the canvas and saves `x/300`, `y/200`, keeping the preview at the saved position |
| PositionSelector.PositionSelector.TouchEnded | src/PiPPositionSelector.cpp:188-190 | the drag ends; position and settings are unchanged |
| PositionSelector.PositionSelector.TouchCancelled | src/PiPPositionSelector.cpp:192-194 | the drag ends; position and settings are unchanged |

## Left out

- File reading, PNG decoding and texture creation: a path either has a decoded texture size (`textures`) or it does not. The model cannot fail at a later stage.
- `displayImage` failing to read its file: the model takes the sprite's size as an input.
- FMOD playback, the volume setting and `stopSound`: the plan keeps the ordered list of sound paths.
- The engine's tweening, blend functions, z-orders and node ids: actions are kept only as kind, duration and target. `CCSpawn` runs its actions together, so no total is claimed for it.
- A negative `CCDelayTime` is kept as the negative number the code computes. What the engine then does with it is not modelled.
- The `std::filesystem` existence checks and directory iteration: replaced by an `exists` flag, a listing and a set of existing paths.
- The exceptions that can end a scan early: not modelled.
- Path separator syntax: a path is a folder and a file name, so `folder / name` is a pair.
- `mt19937` with `uniform_int_distribution`: the caller supplies the index. `RandomImage` and `RandomMeme` require it to be in range. `PlayerDestroyed` takes a `pick` function with `pick(n) < n`.
- The Globed lookup (`getLoadedMod`): a boolean input.
- The positioning-preview mode (render to texture, pause/resume, labels, keyboard toggle): rendering and host plumbing.
- The PiP background rectangle: rendering only. `setupPiP` adds it without a tag (src/main.cpp:638-639), and nothing else sets tag 999, so the in-game drag's `getChildByTag(999)` (src/main.cpp:570) finds no node and the rectangle stays where `setupPiP` put it. The model has no background, so that lookup is a no-op in it too.
- The custom-setting registration hook: host wiring.
- `update`/`soundStopTime`, `cleanupDeath`/`currentDeathImage` and `currentSoundPath`: state that the decision never reads.
- `convertToNodeSpace` in the settings widget: touches arrive already in the widget's coordinates.
- IEEE `float` rounding and the `int`-to-`float` casts: coordinates and durations are `real`.
- Round trips such as `NormalizeRoundTrip` are exact in `real` and only approximate in `float`.
- Division by a zero texture width: decoded textures are assumed to have positive sizes (`TexturesPositive`).
- PlayLayerPiP.PlayLayerPiP.SetupPiP: a second call replaces the modelled sprite. In the engine the old sprite would stay in the scene beside the new one.
