/**
 * File-system paths as the mod uses them: a parent folder and a file name,
 * with the `stem()` / `extension()` split of C++17 `std::filesystem::path`.
 *
 * A path is kept already split into its parent and its file name, so
 * `folder / name` is the constructor `Path(folder, name)` and
 * `parent_path()` / `filename()` are its two fields.
 */
module Paths {
  import opened Wrappers

  datatype Path = Path(parent: string, name: string) {
    /** `path.empty()`: no parent and no file name. */
    predicate IsEmpty() {
      parent == "" && name == ""
    }
  }

  /** The default-constructed (empty) path, returned by the mod as "no file". */
  const EmptyPath := Path("", "")

  /** The index of the rightmost '.' among the first `n` characters of `name`, if any. */
  function LastDotBefore(name: string, n: nat): (r: Option<nat>)
    requires n <= |name|
    ensures r.Some? ==> r.value < n
  {
    if n == 0 then None
    else if name[n - 1] == '.' then Some(n - 1)
    else LastDotBefore(name, n - 1)
  }

  /** The index of the rightmost '.' in `name`, if any. */
  function LastDot(name: string): (r: Option<nat>)
    ensures r.Some? ==> r.value < |name|
  {
    LastDotBefore(name, |name|)
  }

  /** `LastDotBefore` finds a period with no period after it, and finds none only when there is none. */
  lemma {:induction false} LastDotBeforeIsRightmost(name: string, n: nat)
    requires n <= |name|
    ensures var r := LastDotBefore(name, n);
      && (r.Some? ==> name[r.value] == '.')
      && (r.Some? ==> forall j :: r.value < j < n ==> name[j] != '.')
      && (r.None? ==> forall j :: 0 <= j < n ==> name[j] != '.')
  {
    if n > 0 && name[n - 1] != '.' {
      LastDotBeforeIsRightmost(name, n - 1);
    }
  }

  /** `LastDot` finds a period with no period after it, and finds none only when there is none. */
  lemma LastDotIsRightmost(name: string)
    ensures var r := LastDot(name);
      && (r.Some? ==> r.value < |name| && name[r.value] == '.')
      && (r.Some? ==> forall j :: r.value < j < |name| ==> name[j] != '.')
      && (r.None? ==> forall j :: 0 <= j < |name| ==> name[j] != '.')
  {
    LastDotBeforeIsRightmost(name, |name|);
  }

  /** The special file names "." and "..". */
  predicate IsDotOrDotDot(name: string) {
    (|name| == 1 && name[0] == '.') || (|name| == 2 && name[0] == '.' && name[1] == '.')
  }

  /**
   * Where the extension of a file name starts: at the rightmost period, except
   * that the file names "." and ".." have none and a period in first position
   * does not start an extension (".profile" has no extension).
   */
  function ExtensionStart(name: string): (r: Option<nat>)
    ensures r.Some? ==> 0 < r.value < |name|
  {
    if IsDotOrDotDot(name) then None
    else match LastDot(name)
      case Some(k) => if k > 0 then Some(k) else None
      case None => None
  }

  /** `path.extension()`, period included; "" when there is none. */
  function Extension(name: string): string {
    match ExtensionStart(name)
    case Some(k) => name[k..]
    case None => ""
  }

  /** `path.stem()`: the file name without its extension. */
  function Stem(name: string): string {
    match ExtensionStart(name)
    case Some(k) => name[..k]
    case None => name
  }

  /** An extension as the mod writes them: a period followed by at least one character, none of them a period. */
  predicate IsExtension(ext: string) {
    2 <= |ext| && ext[0] == '.' && forall j :: 1 <= j < |ext| ==> ext[j] != '.'
  }

  /** Splitting a file name loses nothing: stem followed by extension is the name. */
  lemma StemExtensionSplit(name: string)
    ensures Stem(name) + Extension(name) == name
  {
    LastDotIsRightmost(name);
  }

  /**
   * Gluing a non-empty stem to an extension, as `stem + ".ogg"` does, gives a
   * file name whose stem and extension are exactly those two parts.
   */
  lemma {:induction false} StemOfJoined(stem: string, ext: string)
    requires stem != ""
    requires IsExtension(ext)
    ensures Stem(stem + ext) == stem
    ensures Extension(stem + ext) == ext
  {
    var name := stem + ext;
    assert name[|stem|] == '.';
    assert |name| >= 3;
    assert !IsDotOrDotDot(name);
    var r := LastDot(name);
    LastDotIsRightmost(name);
    assert forall j :: |stem| < j < |name| ==> name[j] == ext[j - |stem|];
    var k := r.value;
    assert k == |stem|;
    assert ExtensionStart(name) == Some(|stem|);
    assert name[..|stem|] == stem;
    assert name[|stem|..] == ext;
  }

  /** Only the empty file name has an empty stem; a non-empty extension always follows a non-empty stem. */
  lemma NonEmptyStem(name: string)
    ensures Stem(name) == "" <==> name == ""
    ensures Extension(name) != "" ==> Stem(name) != "" && Extension(name)[0] == '.'
  {
    LastDotIsRightmost(name);
  }
}
