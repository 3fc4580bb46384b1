/**
 * The two path helpers from Go's `path/filepath` that profile.go relies on,
 * for Unix separators, and the location of a profile file.
 * Only the trailing-separator part of `filepath.Clean` is modelled.
 */
module Paths {

  const Separator: char := '/'

  /** The suffix profile files carry. */
  const ProfileExtension: string := ".yml"

  /** `filepath.Join(dir, file)` for a `file` that is a non-empty name without separators. */
  function Join(dir: string, file: string): string
  {
    if dir == "" then file
    else if dir[|dir| - 1] == Separator then dir + file
    else dir + [Separator] + file
  }

  /** The path with its last element removed, keeping the final separator (empty if there is none). */
  function StripLastElement(p: string): (r: string)
    ensures |r| <= |p| && r == p[..|r|]
    ensures r == "" || r[|r| - 1] == Separator
  {
    if p == "" || p[|p| - 1] == Separator then p
    else StripLastElement(p[..|p| - 1])
  }

  /** Removes trailing separators, but never reduces a path of separators below one. */
  function TrimTrailingSeparators(d: string): (r: string)
    ensures |r| <= |d| && r == d[..|r|]
    ensures d != "" ==> r != ""
  {
    if |d| > 1 && d[|d| - 1] == Separator then TrimTrailingSeparators(d[..|d| - 1])
    else d
  }

  /** `filepath.Dir(p)`: everything before the last separator, "." when there is none. */
  function Dir(p: string): (r: string)
    ensures r != ""
  {
    var d := StripLastElement(p);
    if d == "" then "." else TrimTrailingSeparators(d)
  }

  /** Whether `dir` is non-empty and has no trailing separator. */
  predicate IsPlainDir(dir: string)
  {
    dir != "" && dir[|dir| - 1] != Separator
  }

  /**
   * GetProfilePath: the file that holds the profile `name` inside the
   * configuration directory. For a name without separators the file lies
   * directly in that directory and keeps the name with the `.yml` suffix.
   */
  function ProfilePath(configDir: string, name: string): (r: string)
    ensures Separator !in name && IsPlainDir(configDir) ==>
      Dir(r) == configDir && r == configDir + [Separator] + name + ProfileExtension
    ensures |r| >= |ProfileExtension| && r[|r| - |ProfileExtension|..] == ProfileExtension
  {
    var r := Join(configDir, name + ProfileExtension);
    if Separator !in name && IsPlainDir(configDir) then
      DirOfJoin(configDir, name + ProfileExtension);
      r
    else
      r
  }

  /** Stripping the last element of `a + b` gives back `a` when `a` ends in a separator and `b` has none. */
  lemma {:induction false} StripAppended(a: string, b: string)
    requires a != "" && a[|a| - 1] == Separator
    requires Separator !in b
    ensures StripLastElement(a + b) == a
  {
    if b == [] {
      assert a + b == a;
    } else {
      var b' := b[..|b| - 1];
      assert (a + b)[..|a + b| - 1] == a + b';
      assert b[|b| - 1] in b;
      StripAppended(a, b');
    }
  }

  /** Joining a plain directory with a plain name and taking `Dir` gives back the directory. */
  lemma DirOfJoin(dir: string, file: string)
    requires IsPlainDir(dir)
    requires file != "" && Separator !in file
    ensures Dir(Join(dir, file)) == dir
  {
    var d := dir + [Separator];
    assert Join(dir, file) == d + file;
    StripAppended(d, file);
    assert d[..|d| - 1] == dir;
    assert TrimTrailingSeparators(d) == TrimTrailingSeparators(dir) == dir;
  }
}
