/** POSIX `pathlib` paths as far as the capture directory needs them: `Path(text)`
    splits its text into a root and components, dropping empty and "." components,
    and `str` renders them back joined by "/" (or "." when there is nothing). */
module Paths {

  /** A parsed path: its root ("", "/" or "//") and its components. */
  datatype PurePath = PurePath(root: string, parts: seq<string>)

  /** A component `Path` keeps: not empty, not ".", and free of separators. */
  predicate IsPart(s: string)
  {
    |s| > 0 && s != "." && '/' !in s
  }

  /** The form every parsed path has. */
  predicate IsNormal(p: PurePath)
  {
    && (p.root == "" || p.root == "/" || p.root == "//")
    && forall i :: 0 <= i < |p.parts| ==> IsPart(p.parts[i])
  }

  /** The root POSIX `pathlib` reads off the front of a text: two leading slashes
      are kept as they are, one or three and more become a single "/". */
  function RootOf(s: string): (r: string)
    ensures r <= s
    ensures r == "" <==> (|s| == 0 || s[0] != '/')
  {
    if |s| == 0 || s[0] != '/' then ""
    else if |s| == 1 || s[1] != '/' || (|s| > 2 && s[2] == '/') then "/"
    else "//"
  }

  /** The index of the first "/" in `s`, or `|s|` when there is none. */
  function FirstSlash(s: string): (i: nat)
    ensures i <= |s| && '/' !in s[..i]
    ensures i < |s| ==> s[i] == '/'
  {
    if |s| == 0 || s[0] == '/' then 0
    else
      var j := FirstSlash(s[1..]);
      assert s[1..][..j] == s[1..j + 1];
      assert s[..j + 1] == [s[0]] + s[1..j + 1];
      j + 1
  }

  /** A position that satisfies FirstSlash's contract is the one it returns. */
  lemma FirstSlashAt(s: string, i: nat)
    requires i <= |s| && '/' !in s[..i]
    requires i < |s| ==> s[i] == '/'
    ensures FirstSlash(s) == i
  {
    var f := FirstSlash(s);
    assert forall k :: 0 <= k < f ==> s[..f][k] == s[k];
    assert forall k :: 0 <= k < i ==> s[..i][k] == s[k];
  }

  /** The components between separators, without empty and "." ones. */
  function Components(s: string): (r: seq<string>)
    ensures forall i :: 0 <= i < |r| ==> IsPart(r[i])
    decreases |s|
  {
    if |s| == 0 then []
    else
      var i := FirstSlash(s);
      var head := s[..i];
      var tail := if i < |s| then Components(s[i + 1..]) else [];
      if head == "" || head == "." then tail else [head] + tail
  }

  /** `Path(text)`. */
  function ParsePath(s: string): (p: PurePath)
    ensures IsNormal(p)
  {
    var root := RootOf(s);
    PurePath(root, Components(s[|root|..]))
  }

  /** Components joined by single separators. */
  function JoinParts(parts: seq<string>): string
  {
    if |parts| == 0 then ""
    else if |parts| == 1 then parts[0]
    else parts[0] + "/" + JoinParts(parts[1..])
  }

  /** Joining one more component appends a separator and that component. */
  lemma {:induction false} JoinPartsSnoc(parts: seq<string>, last: string)
    requires |parts| > 0
    ensures JoinParts(parts + [last]) == JoinParts(parts) + "/" + last
  {
    if |parts| > 1 {
      assert (parts + [last])[1..] == parts[1..] + [last];
      JoinPartsSnoc(parts[1..], last);
    }
  }

  /** `str(path)`: never empty for a parsed path, since the empty path
      renders as ".". */
  function Render(p: PurePath): (r: string)
    ensures IsNormal(p) ==> |r| > 0
  {
    if p.root == "" && |p.parts| == 0 then "." else p.root + JoinParts(p.parts)
  }

  /** `path / name`: the name's components follow the path's, under the same
      root, and joining to a parsed path gives a parsed path. */
  function Join(p: PurePath, name: string): (q: PurePath)
    requires |name| > 0 && name[0] != '/'
    ensures q.root == p.root && p.parts <= q.parts
    ensures IsNormal(p) ==> IsNormal(q)
  {
    PurePath(p.root, p.parts + Components(name))
  }

  /** Joined components start with the first one. */
  lemma JoinPartsStart(parts: seq<string>)
    requires |parts| > 0
    ensures parts[0] <= JoinParts(parts)
  {
  }

  /** Splitting joined components gives the components back. */
  lemma {:induction false} ComponentsOfJoin(parts: seq<string>)
    requires forall i :: 0 <= i < |parts| ==> IsPart(parts[i])
    ensures Components(JoinParts(parts)) == parts
  {
    if |parts| == 1 {
      var s := parts[0];
      assert s[..|s|] == s;
      FirstSlashAt(s, |s|);
    } else if |parts| > 1 {
      var s := JoinParts(parts);
      var p0 := parts[0];
      assert s == p0 + ("/" + JoinParts(parts[1..]));
      assert s[..|p0|] == p0;
      FirstSlashAt(s, |p0|);
      assert s[|p0| + 1..] == JoinParts(parts[1..]);
      ComponentsOfJoin(parts[1..]);
      assert [p0] + parts[1..] == parts;
    }
  }

  /** Rendering a parsed path and parsing it again gives the same path: `str`
      loses nothing of a `Path`. */
  lemma ParseRender(p: PurePath)
    requires IsNormal(p)
    ensures ParsePath(Render(p)) == p
  {
    var s := Render(p);
    if p.root == "" && |p.parts| == 0 {
      assert s == ".";
      assert FirstSlash(s) == 1;
    } else {
      var rest := JoinParts(p.parts);
      assert s == p.root + rest;
      if |p.parts| > 0 {
        JoinPartsStart(p.parts);
        assert rest[0] == p.parts[0][0] && rest[0] != '/';
        assert s[|p.root|] == rest[0];
      }
      assert RootOf(s) == p.root;
      assert s[|p.root|..] == rest;
      ComponentsOfJoin(p.parts);
    }
  }

  /** Parsing is idempotent: a text and its rendering name the same path. */
  lemma ParseIdempotent(s: string)
    ensures ParsePath(Render(ParsePath(s))) == ParsePath(s)
  {
    ParseRender(ParsePath(s));
  }

  /** One step of Components: the text up to the first separator at `i`, then
      the rest. */
  lemma ComponentsAt(s: string, i: nat)
    requires i <= |s| && '/' !in s[..i]
    requires i < |s| ==> s[i] == '/'
    requires |s| > 0
    ensures var tail := if i < |s| then Components(s[i + 1..]) else [];
      Components(s) == if s[..i] == "" || s[..i] == "." then tail else [s[..i]] + tail
  {
    FirstSlashAt(s, i);
  }

  /** The empty text is the current directory, with no components. */
  lemma ParseEmpty()
    ensures ParsePath("") == PurePath("", []) && Render(ParsePath("")) == "."
  {
  }

  /** A leading "./" disappears. */
  lemma ParseDotPrefix()
    ensures ParsePath("./caps") == PurePath("", ["caps"])
  {
    var s, c := "./caps", "caps";
    assert Components(c) == [c] by {
      assert c[..4] == c;
      ComponentsAt(c, 4);
    }
    assert Components(s) == [c] by {
      assert s[..1] == "." && s[2..] == c;
      ComponentsAt(s, 1);
    }
    assert RootOf(s) == "" && s[0..] == s;
  }

  /** Doubled and trailing separators disappear. */
  lemma ParseDoubledSeparator()
    ensures ParsePath("a//b/") == PurePath("", ["a", "b"])
  {
    var s, t, u := "a//b/", "/b/", "b/";
    assert Components(u) == ["b"] by {
      assert u[..1] == "b" && u[2..] == "";
      ComponentsAt(u, 1);
    }
    assert Components(t) == ["b"] by {
      assert t[..0] == "" && t[1..] == u;
      ComponentsAt(t, 0);
    }
    assert Components(s) == ["a", "b"] by {
      assert s[..1] == "a" && s[2..] == t;
      ComponentsAt(s, 1);
    }
    assert RootOf(s) == "" && s[0..] == s;
  }

  /** Leading separators in front of a component are ignored by Components. */
  lemma ComponentsAfterSlash(rest: string)
    ensures Components("/" + rest) == Components(rest)
  {
    var s := "/" + rest;
    assert s[..0] == "" && s[1..] == rest;
    ComponentsAt(s, 0);
  }

  /** One leading separator is the root "/", exactly two are kept as "//", and
      three are read as "/"; the components are the same in each case. */
  lemma {:induction false} ParseRoots(rest: string)
    requires |rest| > 0 && rest[0] != '/'
    ensures ParsePath("/" + rest) == PurePath("/", ParsePath(rest).parts)
    ensures ParsePath("//" + rest) == PurePath("//", ParsePath(rest).parts)
    ensures ParsePath("///" + rest) == PurePath("/", ParsePath(rest).parts)
  {
    assert rest[0..] == rest;
    assert ("/" + rest)[1..] == rest;
    assert ("//" + rest)[2..] == rest;
    assert ("///" + rest)[1..] == "/" + ("/" + rest);
    ComponentsAfterSlash(rest);
    ComponentsAfterSlash("/" + rest);
  }
}
