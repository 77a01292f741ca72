/** POSIX paths as `pathlib.Path` sees them: an absolute flag and the list of
    components. `Path("")` and `Path(".")` are the relative path with no
    components; `Path("/")` is the absolute one. */
module Paths {

  datatype Path = Path(absolute: bool, parts: seq<string>) {

    /** `self / name`. */
    function Join(name: string): (r: Path)
      ensures r.absolute == absolute && r.parts == parts + [name]
    {
      Path(absolute, parts + [name])
    }

    /** `self.parent`: the root and `.` are their own parent. */
    function Parent(): (r: Path)
      ensures r.absolute == absolute
      ensures parts == [] ==> r == this
      ensures parts != [] ==> r.parts == parts[..|parts| - 1]
    {
      if parts == [] then this else Path(absolute, parts[..|parts| - 1])
    }

    /** The `i`-th entry of `[self, *self.parents]`. */
    function Ancestor(i: nat): (r: Path)
      requires i <= |parts|
      ensures r.absolute == absolute && |r.parts| == |parts| - i
      ensures r.parts == parts[..|parts| - i]
    {
      Path(absolute, parts[..|parts| - i])
    }
  }

  /** A component as `pathlib` keeps it: not empty, not `.`, without a slash. */
  predicate IsComponent(name: string) {
    name != "" && name != "." && '/' !in name
  }

  predicate WellFormed(p: Path) {
    forall i :: 0 <= i < |p.parts| ==> IsComponent(p.parts[i])
  }

  /** Index of the first `/` in `s`, or `|s|` when there is none. */
  function SlashIndex(s: string): (n: nat)
    ensures n <= |s|
    ensures '/' !in s[..n]
    ensures n < |s| ==> s[n] == '/'
  {
    if s == [] then 0
    else if s[0] == '/' then 0
    else 1 + SlashIndex(s[1..])
  }

  /** The components of `s`: split at `/`, dropping empty and `.` pieces. */
  function Components(s: string): (r: seq<string>)
    ensures forall i :: 0 <= i < |r| ==> IsComponent(r[i])
    decreases |s|
  {
    if s == [] then []
    else
      var n := SlashIndex(s);
      var head := s[..n];
      var tail := if n < |s| then Components(s[n + 1..]) else [];
      if head == "" || head == "." then tail else [head] + tail
  }

  /** `Path(s)`. */
  function ParsePath(s: string): (p: Path)
    ensures WellFormed(p)
    ensures p.absolute <==> |s| > 0 && s[0] == '/'
  {
    Path(|s| > 0 && s[0] == '/', Components(s))
  }

  /** Components joined by `/`. */
  function JoinComponents(parts: seq<string>): string {
    if parts == [] then ""
    else if |parts| == 1 then parts[0]
    else parts[0] + "/" + JoinComponents(parts[1..])
  }

  /** `str(path)`: an absolute path prints with a leading `/`. */
  function Render(p: Path): (r: string)
    ensures p.absolute ==> |r| > 0 && r[0] == '/'
  {
    if p.absolute then "/" + JoinComponents(p.parts)
    else if p.parts == [] then "."
    else JoinComponents(p.parts)
  }

  lemma {:induction false} SlashIndexAfter(a: string, rest: string)
    requires '/' !in a
    ensures SlashIndex(a + "/" + rest) == |a|
  {
    if a != [] {
      assert (a + "/" + rest)[1..] == a[1..] + "/" + rest;
      SlashIndexAfter(a[1..], rest);
    }
  }

  lemma ComponentsCons(a: string, rest: string)
    requires IsComponent(a)
    ensures Components(a + "/" + rest) == [a] + Components(rest)
  {
    var s := a + "/" + rest;
    SlashIndexAfter(a, rest);
    assert s[..|a|] == a;
    assert s[|a| + 1..] == rest;
  }

  lemma {:induction false} ComponentsOfJoin(parts: seq<string>)
    requires forall i :: 0 <= i < |parts| ==> IsComponent(parts[i])
    ensures Components(JoinComponents(parts)) == parts
  {
    if |parts| == 1 {
      var a := parts[0];
      assert SlashIndex(a) == |a|;
      assert a[..|a|] == a;
    } else if |parts| > 1 {
      ComponentsOfJoin(parts[1..]);
      ComponentsCons(parts[0], JoinComponents(parts[1..]));
    }
  }

  /** Parsing what `str` prints gives the same path back. */
  lemma ParseRender(p: Path)
    requires WellFormed(p)
    ensures ParsePath(Render(p)) == p
  {
    ComponentsOfJoin(p.parts);
    if p.absolute {
      var s := Render(p);
      assert SlashIndex(s) == 0;
      assert s[1..] == JoinComponents(p.parts);
      assert s[..0] == "";
    } else if p.parts == [] {
      assert SlashIndex(".") == 1;
    } else {
      assert Render(p)[0] != '/' by {
        assert JoinComponents(p.parts)[..|p.parts[0]|] == p.parts[0];
        assert p.parts[0][0] != '/';
      }
    }
  }

  /** `fnmatch(name, "*.txt")`, case-sensitive as on POSIX. */
  predicate IsTxt(name: string) {
    |name| >= 4 && name[|name| - 4..] == ".txt"
  }
}
