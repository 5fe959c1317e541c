/** The shell's current-path buffer (`current_path` in src/shell.c).

    The path lives in a fixed buffer of `MaxPathLen` characters holding a
    NUL-terminated string. `init_path` and `update_path` rewrite it in place;
    each method here does the same writes and is proved to leave the string
    that `PathSpec.Updated` describes.
 */
module Shell {
  import opened PathSpec

  class CurrentPath {
    /** The character buffer. */
    const buf: array<char>
    /** Length of the C string in `buf` (what `strlen` would return). */
    ghost var len: nat

    /** `buf` holds a NUL-terminated path that starts with '/'. */
    ghost predicate Valid()
      reads this, buf
    {
      buf.Length == MaxPathLen &&
      0 < len < MaxPathLen &&
      buf[len] == Nul &&
      (forall i :: 0 <= i < len ==> buf[i] != Nul) &&
      buf[0] == '/'
    }

    /** The string stored in the buffer, terminator excluded. */
    ghost function Path(): (p: seq<char>)
      reads this, buf
      requires Valid()
      ensures IsPath(p) && Nul !in p
    {
      buf[..len]
    }

    /** The global's initializer: a zeroed buffer holding "/". */
    constructor ()
      ensures Valid() && fresh(buf)
      ensures Path() == "/"
      ensures forall i :: 1 <= i < MaxPathLen ==> buf[i] == Nul
    {
      var b := new char[MaxPathLen](_ => Nul);
      b[0] := '/';
      buf := b;
      len := 1;
    }

    /** `init_path`: copies "/" and its terminator to the front of the buffer;
        the bytes after them are left as they were. */
    method InitPath()
      requires buf.Length == MaxPathLen
      modifies this, buf
      ensures Valid() && Path() == "/"
      ensures buf[2..] == old(buf[2..])
    {
      buf[0] := '/';
      buf[1] := Nul;
      len := 1;
    }

    /** `strlen(current_path)`: the index of the first NUL. */
    method Length() returns (n: nat)
      requires Valid()
      ensures n == |Path()|
    {
      n := 0;
      while buf[n] != Nul
        invariant n <= len
        decreases len - n
      {
        n := n + 1;
      }
    }

    /** `strcat(current_path, s)`: `s` is copied over the terminator and a new
        terminator written after it. */
    method Append(s: seq<char>)
      requires Valid() && Nul !in s
      requires |Path()| + |s| < MaxPathLen
      modifies this, buf
      ensures Valid()
      ensures Path() == old(Path()) + s
    {
      var n := Length();
      ghost var before := buf[..n];
      var i := 0;
      while i < |s|
        invariant 0 <= i <= |s|
        invariant buf[..n] == before
        invariant forall j :: 0 <= j < i ==> buf[n + j] == s[j]
      {
        buf[n + i] := s[i];
        i := i + 1;
      }
      buf[n + |s|] := Nul;
      len := n + |s|;
      assert buf[..len] == before + s;
    }

    /** `update_path(dirname, is_entering)`. */
    method UpdatePath(dirname: seq<char>, isEntering: bool)
      requires Valid() && Nul !in dirname
      modifies this, buf
      ensures Valid()
      ensures Path() == Updated(old(Path()), dirname, isEntering)
    {
      if isEntering {
        if dirname == ".." {
          GoUp();
        } else if dirname != "." {
          GoDown(dirname);
        }
      }
    }

    /** The ".." branch of `update_path`: strip one trailing '/', scan back for
        the previous '/', and end the string just after it. */
    method GoUp()
      requires Valid()
      modifies this, buf
      ensures Valid()
      ensures Path() == Parent(old(Path()))
    {
      ghost var p := Path();
      var n := Length();
      if n > 1 {
        if buf[n - 1] == '/' {
          buf[n - 1] := Nul;
          n := n - 1;
          len := n;
        }
        assert buf[..n] == p[..n];
        var lastSlash := n - 1;
        while lastSlash > 0 && buf[lastSlash] != '/'
          invariant 0 <= lastSlash < n
          invariant forall j :: lastSlash < j < n ==> buf[j] != '/'
        {
          lastSlash := lastSlash - 1;
        }
        assert p[lastSlash] == '/';
        buf[lastSlash + 1] := Nul;
        len := lastSlash + 1;
        ParentUnique(p, lastSlash);
        assert buf[..len] == p[..len];
      }
    }

    /** The branch of `update_path` for any other name: append `dirname/`,
        after a '/' if the path lacks one, only when the result fits. */
    method GoDown(dirname: seq<char>)
      requires Valid() && Nul !in dirname
      modifies this, buf
      ensures Valid()
      ensures Path() == Enter(old(Path()), dirname)
    {
      var n := Length();
      if n + |dirname| + 2 < MaxPathLen {
        if buf[n - 1] != '/' {
          Append("/");
        }
        Append(dirname);
        Append("/");
      }
    }
  }
}
