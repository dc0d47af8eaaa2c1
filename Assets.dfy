/**
 * Asset resolution: scanning a folder for PNG images, finding the sound
 * that goes with an image, pairing images with sounds in the "meme" folder,
 * and picking one candidate at random.
 *
 * A folder is given as its listing (`Directory`), the random generator as an
 * index chosen by the caller, and `std::filesystem::exists` as the set of
 * paths that exist.
 */
module Assets {
  import opened Wrappers
  import opened Paths

  /** One `directory_iterator` entry: its file name and whether it is a regular file. */
  datatype Entry = Entry(name: string, isRegularFile: bool)

  /** A folder as the mod sees it: whether it exists, and its entries in iteration order. */
  datatype Directory = Directory(present: bool, entries: seq<Entry>)

  /** An image and its sound (`MemeAsset`); a default-constructed one has two empty paths. */
  datatype MemeAsset = MemeAsset(imagePath: Path, soundPath: Path)

  const EmptyMeme := MemeAsset(EmptyPath, EmptyPath)

  const Png := ".png"
  const Mp3 := ".mp3"
  const Ogg := ".ogg"

  predicate IsPng(e: Entry) {
    e.isRegularFile && Extension(e.name) == Png
  }

  predicate IsAudio(e: Entry) {
    e.isRegularFile && (Extension(e.name) == Mp3 || Extension(e.name) == Ogg)
  }

  // ---------------------------------------------------------------------
  // getImagesFromFolder

  /** The path `getImagesFromFolder` keeps for one entry: its own when it is a PNG regular file. */
  function PngOf(folder: string, e: Entry): seq<Path> {
    if IsPng(e) then [Path(folder, e.name)] else []
  }

  /** The paths of the PNG regular files among the first `n` entries, in listing order. */
  function PngPaths(folder: string, entries: seq<Entry>, n: nat): seq<Path>
    requires n <= |entries|
  {
    if n == 0 then [] else PngPaths(folder, entries, n - 1) + PngOf(folder, entries[n - 1])
  }

  /** What `getImagesFromFolder` returns: nothing for a missing folder, else its PNG files. */
  function PngImages(folder: string, dir: Directory): (r: seq<Path>)
    ensures !dir.present ==> r == []
    ensures |r| <= |dir.entries|
  {
    if dir.present then PngPathsLength(folder, dir.entries, |dir.entries|); PngPaths(folder, dir.entries, |dir.entries|) else []
  }

  /** `getImagesFromFolder`: one pass over the listing, keeping the PNG regular files. */
  method GetImagesFromFolder(folder: string, dir: Directory) returns (images: seq<Path>)
    ensures images == PngImages(folder, dir)
  {
    images := [];
    if !dir.present {
      return;
    }
    var i := 0;
    while i < |dir.entries|
      invariant 0 <= i <= |dir.entries|
      invariant images == PngPaths(folder, dir.entries, i)
    {
      var e := dir.entries[i];
      if e.isRegularFile && Extension(e.name) == Png {
        images := images + [Path(folder, e.name)];
      }
      i := i + 1;
    }
  }

  /** Every path of `PngPaths` is kept for one of the first `n` entries. */
  lemma {:induction false} PngPathsSound(folder: string, entries: seq<Entry>, n: nat, p: Path)
    requires n <= |entries| && p in PngPaths(folder, entries, n)
    ensures exists i :: 0 <= i < n && p in PngOf(folder, entries[i])
  {
    if p in PngPaths(folder, entries, n - 1) {
      PngPathsSound(folder, entries, n - 1, p);
    } else {
      assert p in PngOf(folder, entries[n - 1]);
    }
  }

  /** A path kept for one of the first `m` entries is still there after `n >= m` entries. */
  lemma {:induction false} PngPathsGrows(folder: string, entries: seq<Entry>, m: nat, n: nat, p: Path)
    requires m <= n <= |entries| && p in PngPaths(folder, entries, m)
    ensures p in PngPaths(folder, entries, n)
    decreases n - m
  {
    if m < n {
      assert PngPaths(folder, entries, m + 1) == PngPaths(folder, entries, m) + PngOf(folder, entries[m]);
      PngPathsGrows(folder, entries, m + 1, n, p);
    }
  }

  /** `PngPaths` keeps at most one path per entry. */
  lemma {:induction false} PngPathsLength(folder: string, entries: seq<Entry>, n: nat)
    requires n <= |entries|
    ensures |PngPaths(folder, entries, n)| <= n
  {
    if n > 0 {
      PngPathsLength(folder, entries, n - 1);
    }
  }

  /** The path of every PNG entry among the first `n` is in `PngPaths`. */
  lemma PngPathsComplete(folder: string, entries: seq<Entry>, n: nat, i: nat)
    requires i < n <= |entries| && IsPng(entries[i])
    ensures Path(folder, entries[i].name) in PngPaths(folder, entries, n)
  {
    assert PngOf(folder, entries[i]) == [Path(folder, entries[i].name)];
    assert PngPaths(folder, entries, i + 1) == PngPaths(folder, entries, i) + PngOf(folder, entries[i]);
    PngPathsGrows(folder, entries, i + 1, n, Path(folder, entries[i].name));
  }

  /** A path is listed by `PngPaths` exactly when some PNG entry has that name in `folder`. */
  lemma PngPathsMembers(folder: string, entries: seq<Entry>, n: nat, p: Path)
    requires n <= |entries|
    ensures p in PngPaths(folder, entries, n) <==>
      exists i :: 0 <= i < n && IsPng(entries[i]) && p == Path(folder, entries[i].name)
    ensures |PngPaths(folder, entries, n)| <= n
  {
    PngPathsLength(folder, entries, n);
    if p in PngPaths(folder, entries, n) {
      PngPathsSound(folder, entries, n, p);
      var i :| 0 <= i < n && p in PngOf(folder, entries[i]);
      assert IsPng(entries[i]) && p == Path(folder, entries[i].name);
    } else {
      forall i | 0 <= i < n && IsPng(entries[i])
        ensures p != Path(folder, entries[i].name)
      {
        PngPathsComplete(folder, entries, n, i);
      }
    }
  }

  /**
   * The images of a folder are exactly its regular `.png` files, each a child
   * of the folder; a missing folder yields none.
   */
  lemma PngImagesExactly(folder: string, dir: Directory, p: Path)
    ensures p in PngImages(folder, dir) <==>
      dir.present && exists i :: 0 <= i < |dir.entries| && IsPng(dir.entries[i]) && p == Path(folder, dir.entries[i].name)
    ensures p in PngImages(folder, dir) ==> p.parent == folder && Extension(p.name) == Png
    ensures !dir.present ==> PngImages(folder, dir) == []
  {
    PngPathsMembers(folder, dir.entries, |dir.entries|, p);
  }

  // ---------------------------------------------------------------------
  // getRandomImage and getRandomMeme

  /** True when `choice` is an index the uniform distribution over `n` candidates can yield. */
  predicate ChoiceFits(n: nat, choice: nat) {
    n == 0 || choice < n
  }

  /** `getRandomImage`: the empty path for no images, else the image the random index selects. */
  function RandomImage(images: seq<Path>, choice: nat): (r: Path)
    requires ChoiceFits(|images|, choice)
    ensures images == [] ==> r.IsEmpty()
    ensures images != [] ==> r in images
  {
    if images == [] then EmptyPath else images[choice]
  }

  /** `getRandomMeme`: a default-constructed asset for no memes, else the one the random index selects. */
  function RandomMeme(memes: seq<MemeAsset>, choice: nat): (r: MemeAsset)
    requires ChoiceFits(|memes|, choice)
    ensures memes == [] ==> r.imagePath.IsEmpty() && r.soundPath.IsEmpty()
    ensures memes != [] ==> r in memes
  {
    if memes == [] then EmptyMeme else memes[choice]
  }

  // ---------------------------------------------------------------------
  // findMatchingSoundFile

  /** `image.parent_path() / (image.stem() + ext)`: the sibling of `image` with the same stem and extension `ext`. */
  function Sibling(image: Path, ext: string): Path {
    Path(image.parent, Stem(image.name) + ext)
  }

  /** `findMatchingSoundFile`: the `.ogg` sibling if it exists, else the `.mp3` sibling if it exists, else the empty path. */
  function FindMatchingSoundFile(image: Path, existing: set<Path>): (r: Path)
    ensures !r.IsEmpty() ==> r in existing
  {
    var ogg := Sibling(image, Ogg);
    var mp3 := Sibling(image, Mp3);
    if ogg in existing then ogg
    else if mp3 in existing then mp3
    else EmptyPath
  }

  /**
   * The matched sound is found next to the image, shares its stem and is an
   * `.ogg` or `.mp3` file; `.ogg` wins when both exist, and no sound is found
   * exactly when neither exists.
   */
  lemma FindMatchingSoundFileSpec(image: Path, existing: set<Path>)
    requires image.name != ""
    ensures var r := FindMatchingSoundFile(image, existing);
      && (!r.IsEmpty() ==>
            r.parent == image.parent && Stem(r.name) == Stem(image.name) &&
            (Extension(r.name) == Ogg || Extension(r.name) == Mp3))
      && (Sibling(image, Ogg) in existing ==> Extension(r.name) == Ogg)
      && (Sibling(image, Ogg) !in existing && Sibling(image, Mp3) in existing ==> Extension(r.name) == Mp3)
      && (r.IsEmpty() <==> Sibling(image, Ogg) !in existing && Sibling(image, Mp3) !in existing)
  {
    var stem := Stem(image.name);
    NonEmptyStem(image.name);
    StemOfJoined(stem, Ogg);
    StemOfJoined(stem, Mp3);
  }

  // ---------------------------------------------------------------------
  // getMemeAssets

  /** After the first scan of `n` entries: each stem of a PNG regular file maps to the last such file with that stem. */
  function PngIndex(folder: string, entries: seq<Entry>, n: nat): map<string, Path>
    requires n <= |entries|
  {
    if n == 0 then map[]
    else
      var e := entries[n - 1];
      var idx := PngIndex(folder, entries, n - 1);
      if IsPng(e) then idx[Stem(e.name) := Path(folder, e.name)] else idx
  }

  /** The asset the second scan pushes for one entry: one when it is an audio regular file whose stem has a PNG. */
  function SoundOf(idx: map<string, Path>, folder: string, e: Entry): seq<MemeAsset> {
    if IsAudio(e) && Stem(e.name) in idx then [MemeAsset(idx[Stem(e.name)], Path(folder, e.name))] else []
  }

  /** The assets the second scan pushes for the first `n` entries, in listing order. */
  function MemesFrom(idx: map<string, Path>, folder: string, entries: seq<Entry>, n: nat): seq<MemeAsset>
    requires n <= |entries|
  {
    if n == 0 then [] else MemesFrom(idx, folder, entries, n - 1) + SoundOf(idx, folder, entries[n - 1])
  }

  /** What `getMemeAssets` returns: nothing for a missing folder, else the matched pairs. */
  function MemeAssets(folder: string, dir: Directory): (r: seq<MemeAsset>)
    ensures !dir.present ==> r == []
    ensures |r| <= |dir.entries|
  {
    if dir.present then
      var n := |dir.entries|;
      MemesFromLength(PngIndex(folder, dir.entries, n), folder, dir.entries, n);
      MemesFrom(PngIndex(folder, dir.entries, n), folder, dir.entries, n)
    else []
  }

  /**
   * `getMemeAssets`: the first scan records, per stem, the PNG image; the
   * second scan, for each audio file whose stem has an image, sets that
   * stem's sound and pushes a copy of the pair.
   */
  method GetMemeAssets(folder: string, dir: Directory) returns (memes: seq<MemeAsset>)
    ensures memes == MemeAssets(folder, dir)
  {
    memes := [];
    if !dir.present {
      return;
    }
    var memeMap := ScanImages(folder, dir.entries);
    ImagesOfFirstScan(memeMap, PngIndex(folder, dir.entries, |dir.entries|));
    memes := ScanSounds(folder, dir.entries, memeMap);
  }

  /** The map of the first scan holds, for every stem of `idx` and no other, `idx`'s image and no sound. */
  ghost predicate ImagesOnly(memeMap: map<string, MemeAsset>, idx: map<string, Path>) {
    memeMap.Keys == idx.Keys && forall s :: s in memeMap ==> memeMap[s] == MemeAsset(idx[s], EmptyPath)
  }

  /** Recording an image under its stem in both maps keeps them in step. */
  lemma ImagesOnlySetImage(memeMap: map<string, MemeAsset>, idx: map<string, Path>, stem: string, image: Path)
    requires ImagesOnly(memeMap, idx)
    ensures var prev := if stem in memeMap then memeMap[stem] else EmptyMeme;
      ImagesOnly(memeMap[stem := prev.(imagePath := image)], idx[stem := image])
  {
  }

  /** One step of the first scan: a PNG regular file records its image under its stem; any other entry changes nothing. */
  lemma PngIndexStep(folder: string, entries: seq<Entry>, i: nat)
    requires i < |entries|
    ensures var e := entries[i];
      PngIndex(folder, entries, i + 1) ==
        if e.isRegularFile && Extension(e.name) == Png then PngIndex(folder, entries, i)[Stem(e.name) := Path(folder, e.name)]
        else PngIndex(folder, entries, i)
  {
  }

  /** The first scan of `getMemeAssets`: each PNG regular file sets the image of its stem's entry in the map. */
  method ScanImages(folder: string, entries: seq<Entry>) returns (memeMap: map<string, MemeAsset>)
    ensures ImagesOnly(memeMap, PngIndex(folder, entries, |entries|))
  {
    memeMap := map[];
    var i := 0;
    while i < |entries|
      invariant 0 <= i <= |entries|
      invariant ImagesOnly(memeMap, PngIndex(folder, entries, i))
    {
      var e := entries[i];
      PngIndexStep(folder, entries, i);
      if e.isRegularFile {
        var ext := Extension(e.name);
        var stem := Stem(e.name);
        if ext == Png {
          ImagesOnlySetImage(memeMap, PngIndex(folder, entries, i), stem, Path(folder, e.name));
          var prev := if stem in memeMap then memeMap[stem] else EmptyMeme;
          memeMap := memeMap[stem := prev.(imagePath := Path(folder, e.name))];
        }
      }
      i := i + 1;
    }
  }

  /** The map of the second scan holds, for every stem of `idx` and no other, an asset whose image is `idx`'s. */
  ghost predicate ImagesAgree(memeMap: map<string, MemeAsset>, idx: map<string, Path>) {
    memeMap.Keys == idx.Keys && forall s :: s in memeMap ==> memeMap[s].imagePath == idx[s]
  }

  /** The map the first scan leaves is the one the second scan starts from. */
  lemma ImagesOfFirstScan(memeMap: map<string, MemeAsset>, idx: map<string, Path>)
    requires ImagesOnly(memeMap, idx)
    ensures ImagesAgree(memeMap, idx)
  {
  }

  /** Setting the sound of one stem keeps the images. */
  lemma ImagesAgreeSetSound(memeMap: map<string, MemeAsset>, idx: map<string, Path>, stem: string, sound: Path)
    requires ImagesAgree(memeMap, idx) && stem in memeMap
    ensures ImagesAgree(memeMap[stem := memeMap[stem].(soundPath := sound)], idx)
    ensures memeMap[stem].(soundPath := sound) == MemeAsset(idx[stem], sound)
  {
  }

  /** An audio entry whose stem has a PNG yields its pair; any other entry yields nothing. */
  lemma SoundOfPair(idx: map<string, Path>, folder: string, e: Entry)
    requires IsAudio(e) && Stem(e.name) in idx
    ensures SoundOf(idx, folder, e) == [MemeAsset(idx[Stem(e.name)], Path(folder, e.name))]
  {
  }

  lemma SoundOfNothing(idx: map<string, Path>, folder: string, e: Entry)
    requires !IsAudio(e) || Stem(e.name) !in idx
    ensures SoundOf(idx, folder, e) == []
  {
  }

  /** Every image recorded in `idx` is a real path. */
  ghost predicate ImagesNonEmpty(idx: map<string, Path>) {
    forall s :: s in idx ==> !idx[s].IsEmpty()
  }

  lemma PngIndexImagesNonEmpty(folder: string, entries: seq<Entry>)
    ensures ImagesNonEmpty(PngIndex(folder, entries, |entries|))
  {
    forall s | s in PngIndex(folder, entries, |entries|) {
      PngIndexNonEmpty(folder, entries, |entries|, s);
    }
  }

  /**
   * The second scan of `getMemeAssets`: each audio regular file whose stem
   * has an image sets that stem's sound and pushes a copy of the pair.
   */
  method ScanSounds(folder: string, entries: seq<Entry>, memeMap0: map<string, MemeAsset>) returns (memes: seq<MemeAsset>)
    requires ImagesAgree(memeMap0, PngIndex(folder, entries, |entries|))
    ensures memes == MemesFrom(PngIndex(folder, entries, |entries|), folder, entries, |entries|)
  {
    ghost var idx := PngIndex(folder, entries, |entries|);
    PngIndexImagesNonEmpty(folder, entries);
    var memeMap := memeMap0;
    memes := [];
    var i := 0;
    while i < |entries|
      invariant 0 <= i <= |entries|
      invariant ImagesAgree(memeMap, idx)
      invariant memes == MemesFrom(idx, folder, entries, i)
    {
      var pushed;
      memeMap, pushed := ScanSound(folder, entries[i], memeMap, idx);
      memes := memes + pushed;
      i := i + 1;
    }
  }

  /**
   * The body of the second scan for one entry: when it is an audio regular
   * file whose stem has a non-empty image, the stem's sound is set and the
   * pair is pushed; otherwise nothing happens.
   */
  method ScanSound(folder: string, e: Entry, memeMap0: map<string, MemeAsset>, ghost idx: map<string, Path>)
    returns (memeMap: map<string, MemeAsset>, pushed: seq<MemeAsset>)
    requires ImagesAgree(memeMap0, idx) && ImagesNonEmpty(idx)
    ensures ImagesAgree(memeMap, idx)
    ensures pushed == SoundOf(idx, folder, e)
  {
    memeMap, pushed := memeMap0, [];
    if e.isRegularFile {
      var ext := Extension(e.name);
      if ext == Mp3 || ext == Ogg {
        var stem := Stem(e.name);
        if stem in memeMap && !memeMap[stem].imagePath.IsEmpty() {
          SoundOfPair(idx, folder, e);
          ImagesAgreeSetSound(memeMap, idx, stem, Path(folder, e.name));
          memeMap := memeMap[stem := memeMap[stem].(soundPath := Path(folder, e.name))];
          pushed := [memeMap[stem]];
          return;
        }
      }
    }
    SoundOfNothing(idx, folder, e);
  }

  /** The image a stem has after `n` entries comes from entry `n - 1` when that is a PNG with the stem, else from the first `n - 1`. */
  lemma PngIndexLookup(folder: string, entries: seq<Entry>, n: nat, s: string)
    requires 0 < n <= |entries| && s in PngIndex(folder, entries, n)
    ensures var e := entries[n - 1];
      if IsPng(e) && Stem(e.name) == s then PngIndex(folder, entries, n)[s] == Path(folder, e.name)
      else s in PngIndex(folder, entries, n - 1) && PngIndex(folder, entries, n)[s] == PngIndex(folder, entries, n - 1)[s]
  {
  }

  /** Every image `PngIndex` records is a `.png` file of the folder, filed under its own stem. */
  lemma {:induction false} PngIndexWellFormed(folder: string, entries: seq<Entry>, n: nat, s: string)
    requires n <= |entries| && s in PngIndex(folder, entries, n)
    ensures var p := PngIndex(folder, entries, n)[s];
      p.parent == folder && Extension(p.name) == Png && Stem(p.name) == s
  {
    PngIndexLookup(folder, entries, n, s);
    var e := entries[n - 1];
    if !(IsPng(e) && Stem(e.name) == s) {
      PngIndexWellFormed(folder, entries, n - 1, s);
    }
  }

  /** An image `PngIndex` records is never the empty path. */
  lemma PngIndexNonEmpty(folder: string, entries: seq<Entry>, n: nat, s: string)
    requires n <= |entries| && s in PngIndex(folder, entries, n)
    ensures !PngIndex(folder, entries, n)[s].IsEmpty()
  {
    PngIndexWellFormed(folder, entries, n, s);
  }

  /** True when some PNG regular file among the first `n` entries has stem `s`. */
  predicate HasPngStem(entries: seq<Entry>, n: nat, s: string)
    requires n <= |entries|
  {
    exists j :: 0 <= j < n && IsPng(entries[j]) && Stem(entries[j].name) == s
  }

  /** A stem has a PNG in `PngIndex` exactly when some PNG regular file in the listing has that stem. */
  lemma PngIndexKeys(folder: string, entries: seq<Entry>, n: nat, s: string)
    requires n <= |entries|
    ensures s in PngIndex(folder, entries, n) <==> HasPngStem(entries, n, s)
  {
    if s in PngIndex(folder, entries, n) {
      PngIndexKeysSound(folder, entries, n, s);
    }
    if HasPngStem(entries, n, s) {
      var j :| 0 <= j < n && IsPng(entries[j]) && Stem(entries[j].name) == s;
      PngIndexKeysComplete(folder, entries, n, j);
    }
  }

  lemma {:induction false} PngIndexKeysSound(folder: string, entries: seq<Entry>, n: nat, s: string)
    requires n <= |entries| && s in PngIndex(folder, entries, n)
    ensures HasPngStem(entries, n, s)
  {
    var e := entries[n - 1];
    if IsPng(e) && Stem(e.name) == s {
      assert IsPng(entries[n - 1]) && Stem(entries[n - 1].name) == s;
    } else {
      PngIndexKeysSound(folder, entries, n - 1, s);
      var j :| 0 <= j < n - 1 && IsPng(entries[j]) && Stem(entries[j].name) == s;
    }
  }

  lemma {:induction false} PngIndexKeysComplete(folder: string, entries: seq<Entry>, n: nat, j: nat)
    requires j < n <= |entries| && IsPng(entries[j])
    ensures Stem(entries[j].name) in PngIndex(folder, entries, n)
  {
    if j < n - 1 {
      PngIndexKeysComplete(folder, entries, n - 1, j);
    }
  }

  /** The image `PngIndex` records for a stem is a PNG regular file of the listing. */
  lemma {:induction false} PngIndexValues(folder: string, entries: seq<Entry>, n: nat, s: string)
    requires n <= |entries| && s in PngIndex(folder, entries, n)
    ensures exists j :: 0 <= j < n && IsPng(entries[j]) && PngIndex(folder, entries, n)[s] == Path(folder, entries[j].name)
  {
    var e := entries[n - 1];
    if IsPng(e) && Stem(e.name) == s {
      assert IsPng(entries[n - 1]) && PngIndex(folder, entries, n)[s] == Path(folder, entries[n - 1].name);
    } else {
      PngIndexValues(folder, entries, n - 1, s);
      var k :| 0 <= k < n - 1 && IsPng(entries[k]) && PngIndex(folder, entries, n - 1)[s] == Path(folder, entries[k].name);
    }
  }

  /** An asset `SoundOf` yields pairs the indexed PNG of an audio entry's stem with that entry. */
  lemma SoundOfMember(idx: map<string, Path>, folder: string, e: Entry, a: MemeAsset)
    requires a in SoundOf(idx, folder, e)
    ensures IsAudio(e) && Stem(e.name) in idx && a == MemeAsset(idx[Stem(e.name)], Path(folder, e.name))
  {
  }

  /** Every asset of `MemesFrom` is pushed for one of the first `n` entries. */
  lemma {:induction false} MemesFromSound(idx: map<string, Path>, folder: string, entries: seq<Entry>, n: nat, a: MemeAsset)
    requires n <= |entries| && a in MemesFrom(idx, folder, entries, n)
    ensures exists i :: 0 <= i < n && a in SoundOf(idx, folder, entries[i])
  {
    if a in MemesFrom(idx, folder, entries, n - 1) {
      MemesFromSound(idx, folder, entries, n - 1, a);
    } else {
      assert a in SoundOf(idx, folder, entries[n - 1]);
    }
  }

  /** Every asset pushed for the first `m` entries is still there after `n >= m` entries. */
  lemma {:induction false} MemesFromGrows(idx: map<string, Path>, folder: string, entries: seq<Entry>, m: nat, n: nat, a: MemeAsset)
    requires m <= n <= |entries| && a in MemesFrom(idx, folder, entries, m)
    ensures a in MemesFrom(idx, folder, entries, n)
    decreases n - m
  {
    if m < n {
      var next := MemesFrom(idx, folder, entries, m + 1);
      assert next == MemesFrom(idx, folder, entries, m) + SoundOf(idx, folder, entries[m]);
      MemesFromGrows(idx, folder, entries, m + 1, n, a);
    }
  }

  /** Every audio entry whose stem has a PNG contributes its pair to `MemesFrom`. */
  lemma MemesFromComplete(idx: map<string, Path>, folder: string, entries: seq<Entry>, n: nat, i: nat)
    requires i < n <= |entries| && IsAudio(entries[i]) && Stem(entries[i].name) in idx
    ensures MemeAsset(idx[Stem(entries[i].name)], Path(folder, entries[i].name)) in MemesFrom(idx, folder, entries, n)
  {
    var a := MemeAsset(idx[Stem(entries[i].name)], Path(folder, entries[i].name));
    assert SoundOf(idx, folder, entries[i]) == [a];
    assert MemesFrom(idx, folder, entries, i + 1) == MemesFrom(idx, folder, entries, i) + [a];
    MemesFromGrows(idx, folder, entries, i + 1, n, a);
  }

  /** `MemesFrom` pushes at most one asset per entry. */
  lemma {:induction false} MemesFromLength(idx: map<string, Path>, folder: string, entries: seq<Entry>, n: nat)
    requires n <= |entries|
    ensures |MemesFrom(idx, folder, entries, n)| <= n
  {
    if n > 0 {
      MemesFromLength(idx, folder, entries, n - 1);
    }
  }

  /** The indices, among the first `n` entries, of the audio regular files whose stem has a PNG in `idx`. */
  function MatchedAudio(idx: map<string, Path>, entries: seq<Entry>, n: nat): set<int>
    requires n <= |entries|
  {
    set i | 0 <= i < n && IsAudio(entries[i]) && Stem(entries[i].name) in idx
  }

  /** Scanning one more entry adds its index exactly when it is a matched audio file. */
  lemma MatchedAudioStep(idx: map<string, Path>, entries: seq<Entry>, n: nat)
    requires 0 < n <= |entries|
    ensures var e := entries[n - 1];
      MatchedAudio(idx, entries, n) ==
        MatchedAudio(idx, entries, n - 1) + (if IsAudio(e) && Stem(e.name) in idx then {n - 1} else {})
    ensures n - 1 !in MatchedAudio(idx, entries, n - 1)
  {
  }

  /** Scanning one more entry counts one more matched audio file exactly when it is one. */
  lemma MatchedAudioCountStep(idx: map<string, Path>, entries: seq<Entry>, n: nat)
    requires 0 < n <= |entries|
    ensures var e := entries[n - 1];
      |MatchedAudio(idx, entries, n)| ==
        |MatchedAudio(idx, entries, n - 1)| + (if IsAudio(e) && Stem(e.name) in idx then 1 else 0)
  {
    MatchedAudioStep(idx, entries, n);
  }

  /** Scanning one more entry pushes one more asset exactly when it is a matched audio file. */
  lemma MemesFromLengthStep(idx: map<string, Path>, folder: string, entries: seq<Entry>, n: nat)
    requires 0 < n <= |entries|
    ensures var e := entries[n - 1];
      |MemesFrom(idx, folder, entries, n)| ==
        |MemesFrom(idx, folder, entries, n - 1)| + (if IsAudio(e) && Stem(e.name) in idx then 1 else 0)
  {
    var e := entries[n - 1];
    if IsAudio(e) && Stem(e.name) in idx {
      SoundOfPair(idx, folder, e);
    } else {
      SoundOfNothing(idx, folder, e);
    }
  }

  /** `MemesFrom` pushes exactly one asset per audio entry whose stem has a PNG. */
  lemma {:induction false} MemesFromCount(idx: map<string, Path>, folder: string, entries: seq<Entry>, n: nat)
    requires n <= |entries|
    ensures |MemesFrom(idx, folder, entries, n)| == |MatchedAudio(idx, entries, n)|
  {
    if n == 0 {
      assert MatchedAudio(idx, entries, 0) == {};
    } else {
      MemesFromCount(idx, folder, entries, n - 1);
      MatchedAudioCountStep(idx, entries, n);
      MemesFromLengthStep(idx, folder, entries, n);
    }
  }

  /**
   * Multiplicity of the meme scan: an existing folder yields exactly one
   * asset per audio regular file whose stem is also the stem of a PNG
   * regular file.
   */
  lemma MemeAssetsCount(folder: string, dir: Directory)
    requires dir.present
    ensures |MemeAssets(folder, dir)| ==
      |set i | 0 <= i < |dir.entries| && IsAudio(dir.entries[i]) && HasPngStem(dir.entries, |dir.entries|, Stem(dir.entries[i].name))|
  {
    var es := dir.entries;
    var n := |es|;
    var idx := PngIndex(folder, es, n);
    MemesFromCount(idx, folder, es, n);
    forall i | 0 <= i < n
      ensures Stem(es[i].name) in idx <==> HasPngStem(es, n, Stem(es[i].name))
    {
      PngIndexKeys(folder, es, n, Stem(es[i].name));
    }
    assert (set i | 0 <= i < n && IsAudio(es[i]) && HasPngStem(es, n, Stem(es[i].name))) == MatchedAudio(idx, es, n);
  }

  /**
   * Soundness of the meme scan: every asset pairs a `.png` image with an
   * `.mp3` or `.ogg` sound of the same folder and the same stem, both of them
   * regular files of the listing.
   */
  lemma MemeAssetsSound(folder: string, dir: Directory, a: MemeAsset)
    requires a in MemeAssets(folder, dir)
    ensures dir.present
    ensures a.imagePath.parent == folder && a.soundPath.parent == folder
    ensures Extension(a.imagePath.name) == Png
    ensures Extension(a.soundPath.name) == Mp3 || Extension(a.soundPath.name) == Ogg
    ensures Stem(a.imagePath.name) == Stem(a.soundPath.name)
    ensures exists i :: 0 <= i < |dir.entries| && IsAudio(dir.entries[i]) && a.soundPath == Path(folder, dir.entries[i].name)
    ensures exists j :: 0 <= j < |dir.entries| && IsPng(dir.entries[j]) && a.imagePath == Path(folder, dir.entries[j].name)
  {
    var n := |dir.entries|;
    var idx := PngIndex(folder, dir.entries, n);
    MemesFromSound(idx, folder, dir.entries, n, a);
    var i :| 0 <= i < n && a in SoundOf(idx, folder, dir.entries[i]);
    SoundOfMember(idx, folder, dir.entries[i], a);
    PngIndexWellFormed(folder, dir.entries, n, Stem(dir.entries[i].name));
    PngIndexValues(folder, dir.entries, n, Stem(dir.entries[i].name));
  }

  /**
   * Completeness of the meme scan: every audio regular file whose stem is also
   * the stem of a PNG regular file yields an asset with that sound. Together
   * with `MemeAssetsSound`, a stem lacking either an image or a sound yields
   * nothing.
   */
  lemma MemeAssetsComplete(folder: string, dir: Directory, i: nat, j: nat)
    requires dir.present
    requires i < |dir.entries| && IsAudio(dir.entries[i])
    requires j < |dir.entries| && IsPng(dir.entries[j]) && Stem(dir.entries[j].name) == Stem(dir.entries[i].name)
    ensures exists a :: (a in MemeAssets(folder, dir) && a.soundPath == Path(folder, dir.entries[i].name) &&
      Stem(a.imagePath.name) == Stem(dir.entries[i].name))
  {
    var n := |dir.entries|;
    var idx := PngIndex(folder, dir.entries, n);
    var s := Stem(dir.entries[i].name);
    PngIndexKeys(folder, dir.entries, n, s);
    assert HasPngStem(dir.entries, n, s) by {
      assert IsPng(dir.entries[j]) && Stem(dir.entries[j].name) == s;
    }
    MemesFromComplete(idx, folder, dir.entries, n, i);
    var a := MemeAsset(idx[s], Path(folder, dir.entries[i].name));
    PngIndexWellFormed(folder, dir.entries, n, s);
    assert a in MemeAssets(folder, dir);
  }

  /** A regular file named `stem + ".png"` is an image with that stem and not a sound. */
  lemma PngEntry(stem: string)
    requires stem != ""
    ensures Stem(stem + Png) == stem
    ensures IsPng(Entry(stem + Png, true)) && !IsAudio(Entry(stem + Png, true))
  {
    StemOfJoined(stem, Png);
    assert Png != Mp3 && Png != Ogg by {
      assert Png[1] != Mp3[1] && Png[1] != Ogg[1];
    }
  }

  /** A regular file named `stem + ".mp3"` or `stem + ".ogg"` is a sound with that stem and not an image. */
  lemma AudioEntry(stem: string, ext: string)
    requires stem != "" && (ext == Mp3 || ext == Ogg)
    ensures Stem(stem + ext) == stem
    ensures IsAudio(Entry(stem + ext, true)) && !IsPng(Entry(stem + ext, true))
  {
    StemOfJoined(stem, ext);
    assert ext != Png by {
      assert ext[1] != Png[1];
    }
  }

  /** The first scan over the five-entry listing of `MemeAssetsOfFive`: the first stem maps to the first entry, the third stem to nothing. */
  lemma PngIndexOfFive(folder: string, e0: Entry, e1: Entry, e2: Entry, e3: Entry, e4: Entry)
    requires IsPng(e0) && !IsPng(e1) && !IsPng(e2) && IsPng(e3) && !IsPng(e4)
    requires Stem(e3.name) != Stem(e0.name) && Stem(e4.name) != Stem(e0.name) && Stem(e4.name) != Stem(e3.name)
    ensures var idx := PngIndex(folder, [e0, e1, e2, e3, e4], 5);
      Stem(e0.name) in idx && idx[Stem(e0.name)] == Path(folder, e0.name) && Stem(e4.name) !in idx
  {
    var es := [e0, e1, e2, e3, e4];
    var i1 := map[Stem(e0.name) := Path(folder, e0.name)];
    assert PngIndex(folder, es, 0) == map[];
    assert PngIndex(folder, es, 1) == i1;
    assert PngIndex(folder, es, 2) == i1;
    assert PngIndex(folder, es, 3) == i1;
    var i4 := i1[Stem(e3.name) := Path(folder, e3.name)];
    assert PngIndex(folder, es, 4) == i4;
    assert PngIndex(folder, es, 5) == i4;
  }

  /** The second scan over five entries of which only the second and third push an asset. */
  lemma MemesFromOfFive(idx: map<string, Path>, folder: string, e0: Entry, e1: Entry, e2: Entry, e3: Entry, e4: Entry, m1: MemeAsset, m2: MemeAsset)
    requires SoundOf(idx, folder, e0) == [] && SoundOf(idx, folder, e1) == [m1] && SoundOf(idx, folder, e2) == [m2]
    requires SoundOf(idx, folder, e3) == [] && SoundOf(idx, folder, e4) == []
    ensures MemesFrom(idx, folder, [e0, e1, e2, e3, e4], 5) == [m1, m2]
  {
    var es := [e0, e1, e2, e3, e4];
    assert MemesFrom(idx, folder, es, 1) == [];
    assert MemesFrom(idx, folder, es, 2) == [m1];
    assert MemesFrom(idx, folder, es, 3) == [m1, m2];
    assert MemesFrom(idx, folder, es, 4) == [m1, m2];
  }

  /**
   * Pairing over a five-entry listing: an image and two sounds of one stem,
   * an image of a second stem with no sound, and a sound of a third stem
   * with no image give exactly two assets, one per sound of the first stem.
   */
  lemma MemeAssetsOfFive(folder: string, e0: Entry, e1: Entry, e2: Entry, e3: Entry, e4: Entry)
    requires IsPng(e0) && IsAudio(e1) && IsAudio(e2) && IsPng(e3) && IsAudio(e4)
    requires !IsPng(e1) && !IsPng(e2) && !IsPng(e4) && !IsAudio(e0) && !IsAudio(e3)
    requires Stem(e0.name) == Stem(e1.name) == Stem(e2.name)
    requires Stem(e3.name) != Stem(e0.name) && Stem(e4.name) != Stem(e0.name) && Stem(e4.name) != Stem(e3.name)
    ensures MemeAssets(folder, Directory(true, [e0, e1, e2, e3, e4])) ==
      [MemeAsset(Path(folder, e0.name), Path(folder, e1.name)), MemeAsset(Path(folder, e0.name), Path(folder, e2.name))]
  {
    PngIndexOfFive(folder, e0, e1, e2, e3, e4);
    var idx := PngIndex(folder, [e0, e1, e2, e3, e4], 5);
    var img := Path(folder, e0.name);
    var m1, m2 := MemeAsset(img, Path(folder, e1.name)), MemeAsset(img, Path(folder, e2.name));
    SoundOfNothing(idx, folder, e0);
    SoundOfPair(idx, folder, e1);
    SoundOfPair(idx, folder, e2);
    SoundOfNothing(idx, folder, e3);
    SoundOfNothing(idx, folder, e4);
    MemesFromOfFive(idx, folder, e0, e1, e2, e3, e4, m1, m2);
  }

  /**
   * A folder holding `a.png`, `a.mp3`, `a.ogg`, `b.png` and `c.mp3`, for any
   * three different non-empty stems, yields two assets, both with image
   * `a.png`, one per sound and in listing order; `b` has no sound and `c` no
   * image, so neither contributes.
   */
  lemma MemeAssetsExample(folder: string, a: string, b: string, c: string)
    requires a != "" && b != "" && c != ""
    requires a != b && a != c && b != c
    ensures MemeAssets(folder, Directory(true, [Entry(a + Png, true), Entry(a + Mp3, true), Entry(a + Ogg, true),
                                                Entry(b + Png, true), Entry(c + Mp3, true)])) ==
      [MemeAsset(Path(folder, a + Png), Path(folder, a + Mp3)), MemeAsset(Path(folder, a + Png), Path(folder, a + Ogg))]
  {
    PngEntry(a);
    AudioEntry(a, Mp3);
    AudioEntry(a, Ogg);
    PngEntry(b);
    AudioEntry(c, Mp3);
    MemeAssetsOfFive(folder, Entry(a + Png, true), Entry(a + Mp3, true), Entry(a + Ogg, true), Entry(b + Png, true), Entry(c + Mp3, true));
  }
}
