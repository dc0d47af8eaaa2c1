/**
 * The decision made in `PlayerObject::playerDestroyed`: given the mod's
 * settings and the state of the level, which sounds it plays itself (in
 * order) and which image, if any, it hands to the display routine. The
 * display routine adds the jump-scare sound for the bundled `death.png`;
 * `DeathSounds` gives the sounds of one death with it.
 *
 * The folders the decision scans are given as listings, the existence checks
 * as a set of existing paths, and the random generator as `pick`, which maps a
 * number of candidates to the index drawn.
 */
module DeathTrigger {
  import opened Wrappers
  import opened Paths
  import opened Assets
  import opened DeathOverlay

  /** The settings `playerDestroyed` reads. */
  datatype Settings = Settings(
    enabled: bool,
    memeMode: bool,
    showInPractice: bool,
    useCustomSound: bool,
    customSoundPath: Path,
    useCustomImage: bool,
    useFolder: bool,
    customFolderPath: string,
    customImagePath: Path,
    useImageSpecificSounds: bool,
    minPercentage: int)

  /**
   * The state of the game at the moment of death: whether a level is being
   * played at all, whether the dying player is player 1, whether a second
   * player exists (dual mode), whether the Globed multiplayer mod is loaded,
   * practice mode, and the level's current percentage.
   */
  datatype GameState = GameState(
    inLevel: bool,
    isPlayer1: bool,
    player2Exists: bool,
    globedLoaded: bool,
    practiceMode: bool,
    percent: int)

  /** What the decision reads from disk: the mod's resources folder, the two folders it may scan, and which files exist. */
  datatype Env = Env(
    resources: string,
    memesDir: Directory,
    customFolder: Directory,
    existing: set<Path>)

  /** The sounds `playerDestroyed` plays itself, in order, and the image it hands to `displayImage`, if any. */
  datatype Plan = Plan(sounds: seq<Path>, image: Option<Path>)

  /** Nothing played and nothing displayed. */
  const Idle := Plan([], None)

  /** The random generator: for `n` candidates it draws an index below `n`. */
  ghost predicate PickInRange(pick: nat -> nat) {
    forall n: nat :: 0 < n ==> pick(n) < n
  }

  function MemesFolder(resources: string): string { resources + "/memes" }
  function DefaultImage(resources: string): Path { Path(resources, "death.png") }
  function DefaultSound(resources: string): Path { Path(resources, "death.ogg") }

  /** The guards before any effect: the mod is enabled, a level is running, the dying player is the local one, and practice mode is allowed. */
  predicate Triggers(s: Settings, g: GameState) {
    && s.enabled
    && g.inLevel
    && !(!g.isPlayer1 && (g.player2Exists || g.globedLoaded))
    && !(!s.showInPractice && g.practiceMode)
  }

  /** The percentage gate: the image is withheld only when a positive minimum is set and not reached. */
  predicate BelowMinimum(minPercentage: int, percent: int) {
    minPercentage > 0 && percent < minPercentage
  }

  /** The global custom sound, played before the percentage gate when enabled and set. */
  function CustomSound(s: Settings): seq<Path> {
    if s.useCustomSound && !s.customSoundPath.IsEmpty() then [s.customSoundPath] else []
  }

  /** The sound matched to a custom image, looked up only when image-specific sounds are on and the custom sound is off. */
  function ImageSpecificSound(s: Settings, image: Path, existing: set<Path>): seq<Path> {
    if s.useImageSpecificSounds && !s.useCustomSound then
      var sound := FindMatchingSoundFile(image, existing);
      if sound.IsEmpty() then [] else [sound]
    else []
  }

  /** Meme mode: a random matched pair from the resources' `memes` folder, or nothing when there is none. */
  function MemePlan(env: Env, pick: nat -> nat): Plan
    requires PickInRange(pick)
  {
    var memes := MemeAssets(MemesFolder(env.resources), env.memesDir);
    if memes == [] then Idle
    else
      var meme := RandomMeme(memes, pick(|memes|));
      if meme.imagePath.IsEmpty() then Idle
      else Plan(if meme.soundPath.IsEmpty() then [] else [meme.soundPath], Some(meme.imagePath))
  }

  /** The image choice after the percentage gate; `played` are the sounds already played. */
  function ImagePlan(s: Settings, env: Env, pick: nat -> nat, played: seq<Path>): Plan
    requires PickInRange(pick)
  {
    if s.useCustomImage then
      if s.useFolder then
        if s.customFolderPath == "" then Plan(played, None)
        else
          var images := PngImages(s.customFolderPath, env.customFolder);
          if images == [] then Plan(played, None)
          else
            var image := RandomImage(images, pick(|images|));
            Plan(played + ImageSpecificSound(s, image, env.existing), Some(image))
      else if s.customImagePath.IsEmpty() then Plan(played, None)
      else Plan(played + ImageSpecificSound(s, s.customImagePath, env.existing), Some(s.customImagePath))
    else
      Plan(played + (if s.useCustomSound then [] else [DefaultSound(env.resources)]), Some(DefaultImage(env.resources)))
  }

  /** `playerDestroyed`: the guards, then meme mode, else custom sound, percentage gate and image choice. */
  function PlayerDestroyed(s: Settings, g: GameState, env: Env, pick: nat -> nat): (r: Plan)
    requires PickInRange(pick)
    ensures !Triggers(s, g) ==> r == Idle
    ensures Triggers(s, g) && !s.memeMode ==> CustomSound(s) <= r.sounds
    ensures Triggers(s, g) && !s.memeMode && BelowMinimum(s.minPercentage, g.percent) ==> r == Plan(CustomSound(s), None)
    ensures |r.sounds| <= 1
  {
    if !Triggers(s, g) then Idle
    else if s.memeMode then MemePlan(env, pick)
    else
      var custom := CustomSound(s);
      if BelowMinimum(s.minPercentage, g.percent) then Plan(custom, None)
      else ImagePlan(s, env, pick, custom)
  }

  /** Nothing happens when the mod is disabled, when another player dies in dual or Globed play, or in practice mode unless allowed. */
  lemma GuardsDoNothing(s: Settings, g: GameState, env: Env, pick: nat -> nat)
    requires PickInRange(pick)
    ensures !s.enabled ==> PlayerDestroyed(s, g, env, pick) == Idle
    ensures !g.isPlayer1 && (g.player2Exists || g.globedLoaded) ==> PlayerDestroyed(s, g, env, pick) == Idle
    ensures g.practiceMode && !s.showInPractice ==> PlayerDestroyed(s, g, env, pick) == Idle
  {
  }

  /**
   * Meme mode skips the custom sound and the percentage gate: the outcome
   * depends on neither. It shows nothing when the memes folder has no asset;
   * otherwise it plays the sound and shows the image of one asset, a `.png`
   * and an `.mp3` or `.ogg` with the same stem in the memes folder.
   */
  lemma MemeModeSkipsPercentage(s: Settings, g: GameState, env: Env, pick: nat -> nat, percent: int)
    requires PickInRange(pick)
    requires s.memeMode
    ensures PlayerDestroyed(s, g, env, pick) == PlayerDestroyed(s, g.(percent := percent), env, pick)
    ensures PlayerDestroyed(s, g, env, pick) == PlayerDestroyed(s.(useCustomSound := false), g, env, pick)
    ensures Triggers(s, g) && MemeAssets(MemesFolder(env.resources), env.memesDir) == [] ==>
      PlayerDestroyed(s, g, env, pick) == Idle
    ensures Triggers(s, g) && MemeAssets(MemesFolder(env.resources), env.memesDir) != [] ==>
      exists a :: a in MemeAssets(MemesFolder(env.resources), env.memesDir) &&
        PlayerDestroyed(s, g, env, pick) == Plan([a.soundPath], Some(a.imagePath))
    ensures var plan := PlayerDestroyed(s, g, env, pick);
      plan.image.Some? ==>
        && Extension(plan.image.value.name) == Png
        && plan.image.value.parent == MemesFolder(env.resources)
        && |plan.sounds| == 1
        && plan.sounds[0].parent == MemesFolder(env.resources)
        && Stem(plan.sounds[0].name) == Stem(plan.image.value.name)
        && (Extension(plan.sounds[0].name) == Mp3 || Extension(plan.sounds[0].name) == Ogg)
  {
    var memes := MemeAssets(MemesFolder(env.resources), env.memesDir);
    if Triggers(s, g) && memes != [] {
      var meme := RandomMeme(memes, pick(|memes|));
      MemeAssetsSound(MemesFolder(env.resources), env.memesDir, meme);
      NonEmptyStem(meme.imagePath.name);
      NonEmptyStem(meme.soundPath.name);
      assert PlayerDestroyed(s, g, env, pick) == Plan([meme.soundPath], Some(meme.imagePath));
    }
  }

  /**
   * With the custom sound on, it is the only sound `playerDestroyed` plays outside meme mode,
   * and it is played even when the percentage gate then withholds the image;
   * neither the default `death.ogg` nor an image-specific sound is played.
   */
  lemma CustomSoundPlaysAlone(s: Settings, g: GameState, env: Env, pick: nat -> nat)
    requires PickInRange(pick)
    requires Triggers(s, g) && !s.memeMode && s.useCustomSound
    ensures PlayerDestroyed(s, g, env, pick).sounds == CustomSound(s)
    ensures !s.customSoundPath.IsEmpty() ==> PlayerDestroyed(s, g, env, pick).sounds == [s.customSoundPath]
  {
  }

  /**
   * The percentage gate outside meme mode: when an image is available from
   * the settings, it is shown exactly when a positive minimum is not missed.
   */
  lemma PercentageGate(s: Settings, g: GameState, env: Env, pick: nat -> nat)
    requires PickInRange(pick)
    requires Triggers(s, g) && !s.memeMode
    ensures ImageAvailable(s, env) ==>
      (PlayerDestroyed(s, g, env, pick).image.Some? <==> !BelowMinimum(s.minPercentage, g.percent))
  {
  }

  /** True when the settings lead to an image: the default one, a set custom path, or a set folder with at least one PNG. */
  predicate ImageAvailable(s: Settings, env: Env) {
    || !s.useCustomImage
    || (s.useFolder && s.customFolderPath != "" && PngImages(s.customFolderPath, env.customFolder) != [])
    || (!s.useFolder && !s.customImagePath.IsEmpty())
  }

  /** Without a custom image the default `death.png` is shown; `playerDestroyed` itself plays `death.ogg` as its only sound when the custom sound is off. */
  lemma DefaultImageAndSound(s: Settings, g: GameState, env: Env, pick: nat -> nat)
    requires PickInRange(pick)
    requires Triggers(s, g) && !s.memeMode && !s.useCustomImage
    requires !BelowMinimum(s.minPercentage, g.percent)
    ensures PlayerDestroyed(s, g, env, pick).image == Some(DefaultImage(env.resources))
    ensures PlayerDestroyed(s, g, env, pick).sounds ==
      if s.useCustomSound then CustomSound(s) else [DefaultSound(env.resources)]
  {
  }

  /**
   * With a custom image, a sound besides the custom sound is played only when
   * image-specific sounds are on and the custom sound is off; that sound exists
   * and is the `.ogg` or `.mp3` sibling of the displayed image. Once the image
   * is shown, its `.ogg` sibling is played if it exists, else its `.mp3`
   * sibling if that exists, else nothing.
   */
  lemma ImageSpecificSoundRule(s: Settings, g: GameState, env: Env, pick: nat -> nat)
    requires PickInRange(pick)
    requires Triggers(s, g) && !s.memeMode && s.useCustomImage
    ensures var plan := PlayerDestroyed(s, g, env, pick);
      && (!s.useImageSpecificSounds || s.useCustomSound ==> plan.sounds == CustomSound(s))
      && (s.useImageSpecificSounds && !s.useCustomSound ==>
            |plan.sounds| <= 1 &&
            forall x :: x in plan.sounds ==>
              plan.image.Some? && x in env.existing &&
              (x == Sibling(plan.image.value, Ogg) || x == Sibling(plan.image.value, Mp3)))
    ensures var plan := PlayerDestroyed(s, g, env, pick);
      s.useImageSpecificSounds && !s.useCustomSound && plan.image.Some? ==>
        var ogg := Sibling(plan.image.value, Ogg);
        var mp3 := Sibling(plan.image.value, Mp3);
        plan.sounds == if ogg in env.existing then [ogg] else if mp3 in env.existing then [mp3] else []
  {
  }

  /**
   * The custom image outside meme mode: a set `custom-image-path` is the image
   * shown once the percentage gate passes; an unset path, an unset folder or a
   * folder without PNG images shows nothing and plays only the custom sound.
   */
  lemma CustomImageChoice(s: Settings, g: GameState, env: Env, pick: nat -> nat)
    requires PickInRange(pick)
    requires Triggers(s, g) && !s.memeMode && s.useCustomImage
    ensures !s.useFolder && !s.customImagePath.IsEmpty() && !BelowMinimum(s.minPercentage, g.percent) ==>
      PlayerDestroyed(s, g, env, pick).image == Some(s.customImagePath)
    ensures !s.useFolder && s.customImagePath.IsEmpty() ==>
      PlayerDestroyed(s, g, env, pick) == Plan(CustomSound(s), None)
    ensures s.useFolder && (s.customFolderPath == "" || PngImages(s.customFolderPath, env.customFolder) == []) ==>
      PlayerDestroyed(s, g, env, pick) == Plan(CustomSound(s), None)
  {
  }

  /** An image taken from the custom folder is one of its `.png` regular files, and its matched sound shares its stem. */
  lemma FolderImageIsPng(s: Settings, g: GameState, env: Env, pick: nat -> nat)
    requires PickInRange(pick)
    requires Triggers(s, g) && !s.memeMode && s.useCustomImage && s.useFolder
    ensures var plan := PlayerDestroyed(s, g, env, pick);
      plan.image.Some? ==>
        && plan.image.value in PngImages(s.customFolderPath, env.customFolder)
        && plan.image.value.parent == s.customFolderPath
        && Extension(plan.image.value.name) == Png
        && forall x :: x in plan.sounds && x !in CustomSound(s) ==>
             x.parent == s.customFolderPath && Stem(x.name) == Stem(plan.image.value.name)
  {
    var plan := PlayerDestroyed(s, g, env, pick);
    if plan.image.Some? {
      var image := plan.image.value;
      PngImagesExactly(s.customFolderPath, env.customFolder, image);
      NonEmptyStem(image.name);
      FindMatchingSoundFileSpec(image, env.existing);
    }
  }

  /** The worked example: with a minimum of 50%, a death at 30% shows no image and a death at 70% shows the default one. */
  lemma MinimumPercentageExample(s: Settings, g: GameState, env: Env, pick: nat -> nat)
    requires PickInRange(pick)
    requires Triggers(s, g) && !s.memeMode && !s.useCustomImage && s.minPercentage == 50
    ensures PlayerDestroyed(s, g.(percent := 30), env, pick).image == None
    ensures PlayerDestroyed(s, g.(percent := 70), env, pick).image == Some(DefaultImage(env.resources))
  {
  }

  /**
   * Every sound one death plays: the plan's own sounds, then the jump-scare
   * sound that `displayImage` plays when the image is the bundled `death.png`
   * and `jumpsc.mp3` exists.
   */
  function DeathSounds(plan: Plan, resources: string, existing: set<Path>): seq<Path> {
    plan.sounds +
      if plan.image == Some(DefaultImage(resources)) && JumpscareSound(resources) in existing
      then [JumpscareSound(resources)] else []
  }

  /**
   * Without a custom image and with the gate passed, a death plays `death.ogg`
   * (or the custom sound instead) and then `jumpsc.mp3` when that file exists;
   * a death showing any other image plays only the plan's sounds.
   */
  lemma DefaultDeathSounds(s: Settings, g: GameState, env: Env, pick: nat -> nat)
    requires PickInRange(pick)
    requires Triggers(s, g) && !s.memeMode
    ensures !s.useCustomImage && !BelowMinimum(s.minPercentage, g.percent) ==>
      DeathSounds(PlayerDestroyed(s, g, env, pick), env.resources, env.existing) ==
        (if s.useCustomSound then CustomSound(s) else [DefaultSound(env.resources)]) +
        (if JumpscareSound(env.resources) in env.existing then [JumpscareSound(env.resources)] else [])
    ensures PlayerDestroyed(s, g, env, pick).image != Some(DefaultImage(env.resources)) ==>
      DeathSounds(PlayerDestroyed(s, g, env, pick), env.resources, env.existing) == PlayerDestroyed(s, g, env, pick).sounds
    ensures |DeathSounds(PlayerDestroyed(s, g, env, pick), env.resources, env.existing)| <= 2
  {
  }
}
