/** The display path of the shell, as a value.

    The shell keeps the directory the user has navigated to as a string such
    as "/" or "/FOLDER1/FOLDER2/". This module says, on plain sequences of
    characters, what `update_path` does to that string; the module `Shell`
    carries out the same steps in place on the fixed 256-byte buffer and is
    proved to agree with `Updated` below.
 */
module PathSpec {

  /** Size of the path buffer, terminator included (`MAX_PATH_LEN`). */
  const MaxPathLen: nat := 256

  /** The C string terminator. */
  const Nul: char := '\0'

  /** A path the buffer can hold: non-empty, rooted at '/', and short enough
      that the characters plus the terminator fit in `MaxPathLen` bytes. */
  predicate IsPath(p: seq<char>)
  {
    0 < |p| < MaxPathLen && p[0] == '/'
  }

  predicate EndsWithSlash(p: seq<char>)
  {
    0 < |p| && p[|p| - 1] == '/'
  }

  /** Index of the last '/' in `q`. */
  function LastSlash(q: seq<char>): (k: nat)
    requires 0 < |q| && q[0] == '/'
    ensures k < |q| && q[k] == '/'
    ensures forall j :: k < j < |q| ==> q[j] != '/'
    decreases |q|
  {
    if q[|q| - 1] == '/' then |q| - 1 else LastSlash(q[..|q| - 1])
  }

  /** The path after entering "..": the last component is dropped; the root
      is its own parent. */
  function Parent(p: seq<char>): (r: seq<char>)
    requires IsPath(p)
    ensures IsPath(r) && EndsWithSlash(r)
    ensures |r| <= |p| && r == p[..|r|]
    ensures |p| == 1 ==> r == p
    ensures |p| > 1 ==> |r| < |p|
    ensures forall j :: |r| <= j < |p| - 1 ==> p[j] != '/'
  {
    if |p| <= 1 then p
    else
      var q := if p[|p| - 1] == '/' then p[..|p| - 1] else p;
      q[..LastSlash(q) + 1]
  }

  /** The length guard of the append branch: old length, name length, a
      possible separator and the trailing '/' stay below `MaxPathLen`. */
  predicate Fits(p: seq<char>, name: seq<char>)
  {
    |p| + |name| + 2 < MaxPathLen
  }

  /** The '/' to insert before a new component, if the path lacks one. */
  function Separator(p: seq<char>): seq<char>
    requires 0 < |p|
  {
    if p[|p| - 1] != '/' then "/" else ""
  }

  /** The path after entering the directory `name`: `name/` is appended,
      after a separator if needed, when it fits; otherwise nothing changes. */
  function Enter(p: seq<char>, name: seq<char>): (r: seq<char>)
    requires IsPath(p)
    ensures IsPath(r) && |p| <= |r| && r[..|p|] == p
    ensures Fits(p, name) <==> |r| > |p|
    ensures Fits(p, name) ==> r == p + Separator(p) + name + "/" && EndsWithSlash(r)
    ensures !Fits(p, name) ==> r == p
  {
    if Fits(p, name) then p + Separator(p) + name + "/" else p
  }

  /** `update_path(name, entering)` on the path `p`. */
  function Updated(p: seq<char>, name: seq<char>, entering: bool): (r: seq<char>)
    requires IsPath(p)
    ensures IsPath(r)
    ensures EndsWithSlash(p) ==> EndsWithSlash(r)
    ensures !entering || name == "." ==> r == p
    ensures entering && name == ".." ==> r == Parent(p)
    ensures entering && name != "." && name != ".." ==> r == Enter(p, name)
  {
    if !entering then p
    else if name == ".." then Parent(p)
    else if name == "." then p
    else Enter(p, name)
  }

  /** `Parent` is fixed by its contract: any proper prefix of `p` that ends in
      '/' and leaves no other '/' behind, apart from a trailing one, is it. */
  lemma ParentUnique(p: seq<char>, k: nat)
    requires IsPath(p) && k < |p| - 1 && p[k] == '/'
    requires forall j :: k < j < |p| - 1 ==> p[j] != '/'
    ensures Parent(p) == p[..k + 1]
  {
  }

  /** ".." is a no-op exactly at the root. */
  lemma ParentFixedOnlyAtRoot(p: seq<char>)
    requires IsPath(p)
    ensures Parent(p) == p <==> p == "/"
  {
  }

  /** Entering a directory whose name holds no '/' and then entering ".."
      gives back the path one started from. */
  lemma EnterThenLeave(p: seq<char>, name: seq<char>)
    requires IsPath(p) && EndsWithSlash(p)
    requires name != "." && name != ".." && '/' !in name
    requires Fits(p, name)
    ensures Updated(Updated(p, name, true), "..", true) == p
  {
  }
}
