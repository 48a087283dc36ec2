/**
 * The part of Python's `pathlib` the helpers touch, over POSIX path strings:
 * `str(Path(s))`, `Path(d) / name`, `.name` and `.parent`.
 *
 * `Normalize` covers the empty path and trailing separators only; pathlib also
 * collapses repeated separators and drops "." components, which this module
 * does not do.
 */
module Paths {
  import opened Python

  /** Removes trailing '/' characters, but never the only character. */
  function StripTrailingSeparators(s: string): (r: string)
    ensures r <= s
    ensures forall k :: |r| <= k < |s| ==> s[k] == '/'
    ensures |s| > 0 ==> |r| > 0
    ensures |r| > 1 ==> r[|r| - 1] != '/'
    decreases |s|
  {
    if |s| > 1 && s[|s| - 1] == '/' then StripTrailingSeparators(s[..|s| - 1]) else s
  }

  /** `str(Path(s))`: never empty, and ends in '/' only when it is the root. */
  function Normalize(s: string): (r: string)
    ensures r != ""
    ensures r[|r| - 1] == '/' ==> r == "/"
    ensures s == "" ==> r == "."
    ensures s != "" ==> r <= s && forall k :: |r| <= k < |s| ==> s[k] == '/'
  {
    if s == "" then "." else StripTrailingSeparators(s)
  }

  /** `str(Path(dir) / name)`: an absolute `name` replaces the directory. */
  function Join(dir: string, name: string): string
  {
    var d := Normalize(dir);
    if name != "" && name[0] == '/' then Normalize(name)
    else if d == "." then name else if d == "/" then "/" + name else d + "/" + name
  }

  /** `Path(p).name` of a normalized path: the text after the last separator. */
  function Name(p: string): string
  {
    LastField(p, '/')
  }

  /** `str(Path(p).parent)`. */
  function Parent(p: string): string
  {
    var n := Normalize(p);
    var name := LastField(n, '/');
    if name == n then "."
    else if |n| - |name| == 1 then "/"
    else n[..|n| - |name| - 1]
  }

  /** Joining a single non-empty component makes a child of the normalized directory. */
  lemma JoinIsChild(dir: string, name: string)
    requires name != "" && '/' !in name
    ensures Normalize(Join(dir, name)) == Join(dir, name)
    ensures Parent(Join(dir, name)) == Normalize(dir)
    ensures Name(Join(dir, name)) == name
  {
    var d := Normalize(dir);
    assert name[0] in name;
    if d == "." {
      assert Join(dir, name) == name;
      ComponentShape(name);
    } else {
      var prefix := if d == "/" then "" else d;
      assert Join(dir, name) == prefix + "/" + name;
      ChildShape(prefix, name);
    }
  }

  /** A single component is normalized, is its own name and has "." as parent. */
  lemma ComponentShape(name: string)
    requires name != "" && '/' !in name
    ensures Normalize(name) == name && Name(name) == name && Parent(name) == "."
  {
    assert name[|name| - 1] in name;
    NormalizeKeeps(name);
    SplitWithoutSeparator(name, '/');
  }

  /** A component after a separator is the last component, and what precedes it the parent. */
  lemma ChildShape(prefix: string, name: string)
    requires name != "" && '/' !in name
    ensures var j := prefix + "/" + name;
      Normalize(j) == j && Name(j) == name && Parent(j) == if prefix == "" then "/" else prefix
  {
    var j := prefix + "/" + name;
    assert name[|name| - 1] in name;
    assert j[|j| - 1] == name[|name| - 1];
    NormalizeKeeps(j);
    assert j == prefix + ['/'] + name;
    SplitAround(prefix, name, '/');
    SplitWithoutSeparator(name, '/');
    assert LastField(j, '/') == name;
    assert j[..|j| - |name| - 1] == prefix;
  }

  /** A path that does not end in a separator is already normalized. */
  lemma NormalizeKeeps(s: string)
    requires s != "" && s[|s| - 1] != '/'
    ensures Normalize(s) == s
  {
  }

  /** Normalising twice is normalising once. */
  lemma NormalizeIdempotent(s: string)
    ensures Normalize(Normalize(s)) == Normalize(s)
  {
    var r := Normalize(s);
    assert r == StripTrailingSeparators(r);
  }

  /** An absolute name replaces the directory it is joined onto. */
  lemma JoinAbsolute(dir: string, name: string)
    requires name != "" && name[0] == '/'
    ensures Join(dir, name) == Normalize(name)
  {
  }

  /** Joining onto a path or onto its normalised form gives the same path. */
  lemma JoinOfNormalized(dir: string, name: string)
    ensures Join(Normalize(dir), name) == Join(dir, name)
  {
    NormalizeIdempotent(dir);
  }

  /** Appending one component to a path with no trailing separator makes a child of that path. */
  lemma ParentOfChild(d: string, name: string)
    requires d != "" && d[|d| - 1] != '/' && d != "."
    requires name != "" && '/' !in name
    ensures Parent(d + "/" + name) == d
  {
    assert Normalize(d) == d;
    JoinIsChild(d, name);
  }

  /** A single component is a relative path whose parent is the current directory. */
  lemma ParentOfComponent(n: string)
    requires n != "" && '/' !in n
    ensures Parent(n) == "." && Parent(n + "/") == "."
  {
    assert n[|n| - 1] in n;
    NormalizeDropsOneSeparator(n);
    SplitWithoutSeparator(n, '/');
  }

  /** One trailing separator after a path that does not end in one is dropped again. */
  lemma NormalizeDropsOneSeparator(p: string)
    requires p != "" && p[|p| - 1] != '/'
    ensures Normalize(p + "/") == p
    ensures Parent(p + "/") == Parent(p)
  {
    assert (p + "/")[..|p|] == p;
    assert StripTrailingSeparators(p) == p;
  }
}
