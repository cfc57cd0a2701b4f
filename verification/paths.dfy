/** The parts of a file name that `pathlib.Path` exposes as `.suffix` and `.stem`
    (the rule of Python 3.8 to 3.13). A file is identified by its name, `path.name`. */
module Paths {

  /** `s.rfind(c)`: the last position holding `c`, or -1. */
  function RFind(s: string, c: char): (i: int)
    ensures -1 <= i < |s|
    ensures i >= 0 ==> s[i] == c
    ensures forall k :: i < k < |s| ==> s[k] != c
  {
    if s == [] then -1
    else if s[|s| - 1] == c then |s| - 1
    else RFind(s[..|s| - 1], c)
  }

  /** Whether the name has an extension: its last dot is neither its first nor its last character. */
  predicate HasSuffix(name: string) {
    var i := RFind(name, '.');
    0 < i < |name| - 1
  }

  /** `path.suffix`: from the last dot on, or empty. */
  function Suffix(name: string): (r: string)
    ensures r == [] <==> !HasSuffix(name)
    ensures r != [] ==> |r| >= 2 && r[0] == '.' && '.' !in r[1..]
    ensures r != [] ==> |r| < |name| && r == name[|name| - |r|..]
  {
    var i := RFind(name, '.');
    if 0 < i < |name| - 1 then
      assert forall k :: 1 <= k < |name[i..]| ==> name[i..][k] == name[i + k];
      name[i..]
    else ""
  }

  /** `path.stem`: the name without its suffix. */
  function Stem(name: string): string {
    var i := RFind(name, '.');
    if 0 < i < |name| - 1 then name[..i] else name
  }

  /** The stem is the name without its suffix: followed by the suffix it is the whole name,
      and a name without a suffix is its own stem. */
  lemma StemThenSuffix(name: string)
    ensures Stem(name) + Suffix(name) == name
    ensures Suffix(name) == "" ==> Stem(name) == name
  {
  }
}
