/** POSIX path handling as the modelled code uses it: `pathlib.PurePosixPath`
    (parsing, `str()`, `.name`, `.parent`, `.stem`, `.suffix`, `.with_stem`)
    and `os.path` (`dirname`, `basename`, `splitext`, `join`). */
module Paths {
  import opened Wrappers
  import opened Text

  /** The index of the last occurrence of `c` in `s`. */
  function LastIndexOf(s: string, c: char): (r: Option<nat>)
    ensures r.Some? ==> r.value < |s| && s[r.value] == c && forall k :: r.value < k < |s| ==> s[k] != c
    ensures r.None? ==> forall k :: 0 <= k < |s| ==> s[k] != c
  {
    if s == [] then None
    else if s[|s| - 1] == c then Some(|s| - 1)
    else LastIndexOf(s[..|s| - 1], c)
  }

  predicate NoSlash(s: string) { forall k :: 0 <= k < |s| ==> s[k] != '/' }

  /** A path component as pathlib keeps it: not empty, not ".", without '/'. */
  lemma NoSlashAppend(a: string, b: string)
    requires NoSlash(a) && NoSlash(b)
    ensures NoSlash(a + b)
  {
    assert forall k :: |a| <= k < |a + b| ==> (a + b)[k] == b[k - |a|];
  }

  predicate IsPart(s: string) { s != "" && s != "." && NoSlash(s) }

  /** A parsed pure path: whether it is rooted, and its components. */
  datatype PurePath = PurePath(absolute: bool, parts: seq<string>)
  {
    predicate Valid() { forall k :: 0 <= k < |parts| ==> IsPart(parts[k]) }
  }

  /** The pieces of a path that pathlib keeps: empty pieces (from repeated or
      trailing slashes) and "." pieces are dropped. */
  function KeptParts(pieces: seq<string>): (r: seq<string>)
    ensures forall k :: 0 <= k < |r| ==> r[k] in pieces && r[k] != "" && r[k] != "."
    ensures |r| <= |pieces|
  {
    if pieces == [] then []
    else (if pieces[0] == "" || pieces[0] == "." then [] else [pieces[0]]) + KeptParts(pieces[1..])
  }

  /** `PurePosixPath(s)`. */
  function ParsePath(s: string): (p: PurePath)
    ensures p.Valid()
    ensures p.absolute <==> s != [] && s[0] == '/'
  {
    var pieces := SplitOn(s, '/');
    var parts := KeptParts(pieces);
    assert forall k :: 0 <= k < |parts| ==> NoSlash(parts[k]);
    PurePath(s != [] && s[0] == '/', parts)
  }

  /** `str(path)`. */
  function PathString(p: PurePath): string
  {
    if !p.absolute && p.parts == [] then "." else (if p.absolute then "/" else "") + Join(p.parts, "/")
  }

  /** `path.name`: the last component, or "" for a path that has none. */
  function Name(p: PurePath): string
  {
    if p.parts == [] then "" else p.parts[|p.parts| - 1]
  }

  /** `path.parent`: the path without its last component (a path with no
      components is its own parent). */
  function Parent(p: PurePath): PurePath
  {
    if p.parts == [] then p else PurePath(p.absolute, p.parts[..|p.parts| - 1])
  }

  /** Finding the first separator of a joined string finds the end of its first piece. */
  lemma FindSeparatorAfterPiece(a: string, b: string, c: char)
    requires forall k :: 0 <= k < |a| ==> a[k] != c
    ensures Find(a + [c] + b, [c]) == Some(|a|)
  {
    var s := a + [c] + b;
    assert OccursAt(s, [c], |a|);
    forall j | 0 <= j < |a| ensures !OccursAt(s, [c], j) {
      assert s[j..j + 1] == [a[j]];
    }
  }

  lemma FindSeparatorAbsent(a: string, c: char)
    requires forall k :: 0 <= k < |a| ==> a[k] != c
    ensures Find(a, [c]) == None
  {
    forall j | 0 <= j <= |a| ensures !OccursAt(a, [c], j) {
      if j + 1 <= |a| {
        assert a[j..j + 1] == [a[j]];
      }
    }
  }

  /** Joining non-empty lists of pieces without the separator and splitting again
      gives the pieces back (the inverse of `Text.JoinSplit`). */
  lemma {:induction false} SplitJoin(pieces: seq<string>, c: char)
    requires |pieces| >= 1
    requires forall k :: 0 <= k < |pieces| ==> forall i :: 0 <= i < |pieces[k]| ==> pieces[k][i] != c
    ensures SplitOn(Join(pieces, [c]), c) == pieces
  {
    if |pieces| == 1 {
      FindSeparatorAbsent(pieces[0], c);
    } else {
      var rest := Join(pieces[1..], [c]);
      assert Join(pieces, [c]) == pieces[0] + [c] + rest;
      FindSeparatorAfterPiece(pieces[0], rest, c);
      assert (pieces[0] + [c] + rest)[..|pieces[0]|] == pieces[0];
      assert (pieces[0] + [c] + rest)[|pieces[0]| + 1..] == rest;
      SplitJoin(pieces[1..], c);
    }
  }

  lemma {:induction false} KeptPartsOfParts(parts: seq<string>)
    requires forall k :: 0 <= k < |parts| ==> IsPart(parts[k])
    ensures KeptParts(parts) == parts
  {
    if parts != [] {
      KeptPartsOfParts(parts[1..]);
    }
  }

  /** Rendering a parsed path and parsing it again gives the same path: `str()`
      is an exact inverse of parsing on the normalised paths pathlib produces. */
  lemma ParseOfPathString(p: PurePath)
    requires p.Valid()
    ensures ParsePath(PathString(p)) == p
  {
    if p.parts == [] {
      ParseOfEmptyPath(p.absolute);
    } else if p.absolute {
      ParseOfAbsolutePath(p.parts);
    } else {
      ParseOfRelativePath(p.parts);
    }
  }

  lemma ParseOfEmptyPath(absolute: bool)
    ensures ParsePath(PathString(PurePath(absolute, []))) == PurePath(absolute, [])
  {
    if absolute {
      var s := PathString(PurePath(absolute, []));
      assert s == [] + ['/'] + [];
      FindSeparatorAfterPiece([], [], '/');
      FindSeparatorAbsent([], '/');
      assert s[..0] == "" && s[1..] == "";
      assert SplitOn(s, '/') == ["", ""];
      assert KeptParts(["", ""]) == [];
    } else {
      FindSeparatorAbsent(".", '/');
      assert SplitOn(".", '/') == ["."];
    }
  }

  lemma ParseOfRelativePath(parts: seq<string>)
    requires parts != [] && PurePath(false, parts).Valid()
    ensures ParsePath(PathString(PurePath(false, parts))) == PurePath(false, parts)
  {
    var j := Join(parts, "/");
    assert PathString(PurePath(false, parts)) == j;
    assert forall k :: 0 <= k < |parts| ==> NoSlash(parts[k]);
    SplitJoin(parts, '/');
    KeptPartsOfParts(parts);
    assert j[0] == parts[0][0] by { JoinStartsWithFirst(parts, "/"); }
  }

  lemma ParseOfAbsolutePath(parts: seq<string>)
    requires parts != [] && PurePath(true, parts).Valid()
    ensures ParsePath(PathString(PurePath(true, parts))) == PurePath(true, parts)
  {
    var j := Join(parts, "/");
    var s := PathString(PurePath(true, parts));
    assert s == [] + ['/'] + j;
    assert forall k :: 0 <= k < |parts| ==> NoSlash(parts[k]);
    SplitJoin(parts, '/');
    KeptPartsOfParts(parts);
    FindSeparatorAfterPiece([], j, '/');
    assert s[1..] == j;
    assert SplitOn(s, '/') == [""] + parts;
    assert KeptParts([""] + parts) == KeptParts(parts) by {
      assert ([""] + parts)[1..] == parts;
    }
  }

  lemma JoinStartsWithFirst(pieces: seq<string>, sep: string)
    requires pieces != [] && pieces[0] != ""
    ensures Join(pieces, sep) != [] && Join(pieces, sep)[0] == pieces[0][0]
  {
  }

  /** Parsing normalises: parsing the rendering of a parsed string changes nothing. */
  lemma ParseIdempotent(s: string)
    ensures ParsePath(PathString(ParsePath(s))) == ParsePath(s)
  {
    ParseOfPathString(ParsePath(s));
  }

  /** `Path(p).suffix`: from the last '.' of the name, when that dot is neither
      the first nor the last character of the name. */
  function Suffix(name: string): (r: string)
    ensures r == "" || (r[0] == '.' && |r| >= 2 && |r| < |name| && EndsWith(name, r))
  {
    match LastIndexOf(name, '.')
    case Some(i) => if 0 < i < |name| - 1 then name[i..] else ""
    case None => ""
  }

  /** `Path(p).stem`: the name without its suffix. */
  function Stem(name: string): (r: string)
    ensures r + Suffix(name) == name
  {
    var x := Suffix(name);
    name[..|name| - |x|]
  }

  /** `path.with_stem(stem)`; pathlib raises `ValueError` for a path without a
      name or for a new name that is empty, "." or holds a '/'. */
  function WithStem(p: PurePath, stem: string): (r: Result<PurePath, string>)
    ensures r.Success? <==> Name(p) != "" && IsPart(stem + Suffix(Name(p)))
    ensures r.Success? ==> Parent(r.value) == Parent(p) && Name(r.value) == stem + Suffix(Name(p))
  {
    var newName := stem + Suffix(Name(p));
    if Name(p) == "" then Failure("has an empty name")
    else if !IsPart(newName) then Failure("Invalid name")
    else Success(PurePath(p.absolute, p.parts[..|p.parts| - 1] + [newName]))
  }

  /** `os.path.basename(p)`: everything after the last '/'. */
  function Basename(p: string): (r: string)
    ensures NoSlash(r) && EndsWith(p, r)
  {
    match LastIndexOf(p, '/')
    case Some(i) => p[i + 1..]
    case None => p
  }

  /** `os.path.dirname(p)`: everything before the last '/', with trailing
      slashes removed unless the head is made only of slashes. */
  function Dirname(p: string): string
  {
    match LastIndexOf(p, '/')
    case None => ""
    case Some(i) =>
      var head := p[..i + 1];
      if forall k :: 0 <= k < |head| ==> head[k] == '/' then head else TrimRight(head, '/')
  }

  /** `os.path.splitext(name)` on a name without '/': the extension runs from
      the last '.', unless only dots precede it. */
  function SplitExt(name: string): (r: (string, string))
    ensures r.0 + r.1 == name
    ensures r.1 == "" || r.1[0] == '.'
  {
    match LastIndexOf(name, '.')
    case None => (name, "")
    case Some(i) => if exists k :: 0 <= k < i && name[k] != '.' then (name[..i], name[i..]) else (name, "")
  }

  /** `os.path.join(a, b)` for a relative `b`. */
  function JoinPath(a: string, b: string): string
  {
    if a == "" || EndsWith(a, "/") then a + b else a + "/" + b
  }

  /** `dirname` and `basename` of `d/b` give back `d` and `b`. */
  lemma DirnameBasenameOfJoin(d: string, b: string)
    requires NoSlash(b) && d != "" && !EndsWith(d, "/")
    ensures Basename(JoinPath(d, b)) == b && Dirname(JoinPath(d, b)) == d
  {
    var p := d + "/" + b;
    assert JoinPath(d, b) == p;
    assert p[|d|] == '/';
    assert forall k :: |d| < k < |p| ==> p[k] == b[k - |d| - 1];
    var i := LastIndexOf(p, '/');
    assert i == Some(|d|);
    assert p[|d| + 1..] == b;
    var head := p[..|d| + 1];
    assert head == d + "/";
    assert d[|d| - 1] != '/';
    assert head[|d| - 1] != '/';
    assert TrimRight(head, '/') == d by {
      assert head[..|head| - 1] == d;
    }
  }
}
