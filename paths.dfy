/** Path handling: `std::string::find_last_of` and `basename`. */
module Paths {

  /** `std::string::npos`, the largest value of a 64-bit `size_t`. */
  const NPOS: nat := 0xFFFF_FFFF_FFFF_FFFF

  /** Arithmetic on `size_t` is taken modulo this. */
  const SIZE_T_MODULUS: nat := 0x1_0000_0000_0000_0000

  /** A `std::string`: its length is always below `npos`. */
  type StdString = s: string | |s| < NPOS

  /** `s.find_last_of(c)`: the index of the last `c` in `s`, or `npos` when there is none. */
  function FindLastOf(s: StdString, c: char): (pos: nat)
    ensures pos == NPOS <==> c !in s
    ensures pos != NPOS ==> pos < |s| && s[pos] == c && c !in s[pos + 1..]
    decreases |s|
  {
    if |s| == 0 then NPOS
    else if s[|s| - 1] == c then |s| - 1
    else
      var pos := FindLastOf(s[..|s| - 1], c);
      assert s == s[..|s| - 1] + [s[|s| - 1]];
      assert pos != NPOS ==> s[pos + 1..] == s[..|s| - 1][pos + 1..] + [s[|s| - 1]];
      pos
  }

  /**
   * `path.substr(path.find_last_of('/') + 1)`. When there is no slash the
   * index is `npos`, and `npos + 1` wraps around to 0 in `size_t`.
   * The result is the part of `path` after its last slash.
   */
  function Basename(path: StdString): (name: StdString)
    ensures '/' !in name
    ensures |name| <= |path| && name == path[|path| - |name|..]
    ensures |name| < |path| ==> path[|path| - |name| - 1] == '/'
  {
    var pos := FindLastOf(path, '/');
    path[(pos + 1) % SIZE_T_MODULUS..]
  }

  /** A path without a slash is its own base name. */
  lemma BasenameWithoutSlash(path: StdString)
    requires '/' !in path
    ensures Basename(path) == path
  {
  }

  /** A path that ends in a slash names a directory: its base name is empty. */
  lemma BasenameOfDirectory(path: StdString)
    requires |path| > 0 && path[|path| - 1] == '/'
    ensures Basename(path) == ""
  {
  }

  /** A character absent from the path is absent from its base name. */
  lemma BasenameKeepsOut(path: StdString, c: char)
    requires c !in path
    ensures c !in Basename(path)
  {
    var name := Basename(path);
    forall t | 0 <= t < |name|
      ensures name[t] != c
    {
      assert name[t] == path[|path| - |name| + t];
    }
  }

  /** Taking the base name twice changes nothing. */
  lemma BasenameIdempotent(path: StdString)
    ensures Basename(Basename(path)) == Basename(path)
  {
    BasenameWithoutSlash(Basename(path));
  }
}
