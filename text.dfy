/**
 * The few pieces of java.lang.String and java.io.File behaviour the installer
 * relies on: prefix and substring tests, ASCII lower-casing, trim, joining
 * lines, and the last path segment of a file name.
 */
module Text {

  datatype Option<+T> = None | Some(value: T)

  /** String.startsWith */
  predicate StartsWith(s: string, prefix: string) {
    |prefix| <= |s| && s[..|prefix|] == prefix
  }

  /** `p` occurs in `s` starting at index `i`. */
  predicate OccursAt(s: string, p: string, i: nat) {
    i + |p| <= |s| && s[i..i + |p|] == p
  }

  /** String.contains, scanning from the left. */
  predicate Contains(s: string, p: string)
    decreases |s|
  {
    StartsWith(s, p) || (|s| > 0 && Contains(s[1..], p))
  }

  /** Contains agrees with the positional definition of a substring. */
  lemma {:induction false} ContainsIffOccurs(s: string, p: string)
    ensures Contains(s, p) <==> exists i: nat :: OccursAt(s, p, i)
    decreases |s|
  {
    if Contains(s, p) {
      if StartsWith(s, p) {
        assert OccursAt(s, p, 0);
      } else {
        ContainsIffOccurs(s[1..], p);
        var i: nat :| OccursAt(s[1..], p, i);
        assert s[1..][i..i + |p|] == s[i + 1..i + 1 + |p|];
        assert OccursAt(s, p, i + 1);
      }
    } else {
      forall i: nat | OccursAt(s, p, i) ensures false {
        if i > 0 {
          assert s[1..][i - 1..i - 1 + |p|] == s[i..i + |p|];
          assert OccursAt(s[1..], p, i - 1);
          ContainsIffOccurs(s[1..], p);
        }
      }
    }
  }

  /** Concatenation is associative. */
  lemma AppendAssoc<T>(a: seq<T>, b: seq<T>, c: seq<T>)
    ensures (a + b) + c == a + (b + c)
  {
  }

  /** Character.toLowerCase restricted to ASCII letters. */
  function LowerChar(c: char): (r: char)
    ensures 'A' <= c <= 'Z' ==> r as int == c as int + 32
    ensures !('A' <= c <= 'Z') ==> r == c
  {
    if 'A' <= c <= 'Z' then (c as int + 32) as char else c
  }

  /** String.toLowerCase(Locale.US) on ASCII text. */
  function LowerAscii(s: string): (r: string)
    ensures |r| == |s|
    ensures forall i :: 0 <= i < |s| ==> r[i] == LowerChar(s[i])
  {
    if s == [] then [] else [LowerChar(s[0])] + LowerAscii(s[1..])
  }

  const SEGFAULT_MARKER := "segmentation fault"

  /**
   * The known-issue heuristic: the text shown in a dialog mentions a
   * segmentation fault, in any letter case.
   */
  predicate HasSegfaultMarker(text: string) {
    Contains(LowerAscii(text), SEGFAULT_MARKER)
  }

  /** The marker is found exactly when some window of the lower-cased text spells it. */
  lemma SegfaultMarkerAt(text: string)
    ensures HasSegfaultMarker(text) <==> exists i: nat :: OccursAt(LowerAscii(text), SEGFAULT_MARKER, i)
  {
    assert HasSegfaultMarker(text) == Contains(LowerAscii(text), SEGFAULT_MARKER);
    ContainsIffOccurs(LowerAscii(text), SEGFAULT_MARKER);
  }

  /** Lower-casing is idempotent, so the heuristic ignores letter case entirely. */
  lemma {:induction false} SegfaultMarkerIgnoresCase(text: string)
    ensures LowerAscii(LowerAscii(text)) == LowerAscii(text)
    ensures HasSegfaultMarker(LowerAscii(text)) == HasSegfaultMarker(text)
  {
    var l := LowerAscii(text);
    assert LowerAscii(l) == l by {
      forall i | 0 <= i < |l| ensures LowerAscii(l)[i] == l[i] {
      }
    }
  }

  /** Java's notion of whitespace for String.trim: any char up to U+0020. */
  predicate IsTrimmable(c: char) {
    c <= ' '
  }

  /** Drops leading chars up to U+0020. */
  function TrimStart(s: string): string {
    if |s| > 0 && IsTrimmable(s[0]) then TrimStart(s[1..]) else s
  }

  /** Drops trailing chars up to U+0020. */
  function TrimEnd(s: string): string {
    if |s| > 0 && IsTrimmable(s[|s| - 1]) then TrimEnd(s[..|s| - 1]) else s
  }

  /** String.trim */
  function Trim(s: string): string {
    TrimEnd(TrimStart(s))
  }

  /** TrimStart removes exactly the longest all-whitespace prefix. */
  lemma {:induction false} TrimStartRemovesPrefix(s: string)
    ensures var r := TrimStart(s);
      && |r| <= |s| && r == s[|s| - |r|..]
      && (forall i :: 0 <= i < |s| - |r| ==> IsTrimmable(s[i]))
      && (r == [] || !IsTrimmable(r[0]))
    decreases |s|
  {
    if |s| > 0 && IsTrimmable(s[0]) {
      TrimStartRemovesPrefix(s[1..]);
    }
  }

  /** TrimEnd removes exactly the longest all-whitespace suffix. */
  lemma {:induction false} TrimEndRemovesSuffix(s: string)
    ensures var r := TrimEnd(s);
      && |r| <= |s| && r == s[..|r|]
      && (forall i :: |r| <= i < |s| ==> IsTrimmable(s[i]))
      && (r == [] || !IsTrimmable(r[|r| - 1]))
    decreases |s|
  {
    if |s| > 0 && IsTrimmable(s[|s| - 1]) {
      TrimEndRemovesSuffix(s[..|s| - 1]);
    }
  }

  /**
   * String.trim leaves a substring of its input with neither end a
   * whitespace char, and everything cut away is whitespace.
   */
  lemma TrimIsCore(s: string)
    ensures var r, k := Trim(s), |s| - |TrimStart(s)|;
      && 0 <= k <= |s| - |r| && r == s[k..k + |r|]
      && (forall i :: 0 <= i < k ==> IsTrimmable(s[i]))
      && (forall i :: k + |r| <= i < |s| ==> IsTrimmable(s[i]))
      && (r == [] || (!IsTrimmable(r[0]) && !IsTrimmable(r[|r| - 1])))
  {
    var t := TrimStart(s);
    TrimStartRemovesPrefix(s);
    TrimEndRemovesSuffix(t);
    var r := TrimEnd(t);
    assert r == Trim(s);
    var k := |s| - |t|;
    assert t == s[k..];
    assert r == t[..|r|];
    assert r == s[k..k + |r|];
    forall i | k + |r| <= i < |s| ensures IsTrimmable(s[i]) {
      assert s[i] == t[i - k];
    }
  }

  /** TextUtils.join("\n", lines) */
  function JoinLines(lines: seq<string>): string {
    if |lines| == 0 then ""
    else if |lines| == 1 then lines[0]
    else lines[0] + "\n" + JoinLines(lines[1..])
  }

  /** A path without the '/' characters that end it (java.io.File drops them when it normalises). */
  function DropTrailingSlashes(path: string): string {
    if |path| > 0 && path[|path| - 1] == '/' then DropTrailingSlashes(path[..|path| - 1]) else path
  }

  /** The part of a path after its last '/'. */
  function LastSegment(path: string): string {
    if |path| == 0 then ""
    else if path[|path| - 1] == '/' then ""
    else LastSegment(path[..|path| - 1]) + [path[|path| - 1]]
  }

  /** File.getName: the last segment of the path once its trailing '/' are dropped. */
  function BaseName(path: string): string {
    LastSegment(DropTrailingSlashes(path))
  }

  /** Dropping the trailing '/' keeps a prefix and removes only '/', and no '/' ends what is left. */
  lemma {:induction false} DropTrailingSlashesIsPrefix(path: string)
    ensures var t := DropTrailingSlashes(path);
      && |t| <= |path| && t == path[..|t|]
      && (forall i :: |t| <= i < |path| ==> path[i] == '/')
      && (|t| == 0 || t[|t| - 1] != '/')
    decreases |path|
  {
    if |path| > 0 && path[|path| - 1] == '/' {
      var init := path[..|path| - 1];
      DropTrailingSlashesIsPrefix(init);
      var t := DropTrailingSlashes(init);
      assert t == path[..|t|];
    }
  }

  /** The last segment is a suffix without '/', preceded by '/' unless it is the whole path. */
  lemma {:induction false} LastSegmentIsSuffix(path: string)
    ensures var name := LastSegment(path);
      && |name| <= |path| && name == path[|path| - |name|..]
      && '/' !in name
      && (|name| < |path| ==> path[|path| - |name| - 1] == '/')
    decreases |path|
  {
    if |path| > 0 && path[|path| - 1] != '/' {
      var init := path[..|path| - 1];
      LastSegmentIsSuffix(init);
      var name := LastSegment(init);
      assert LastSegment(path) == name + [path[|path| - 1]];
      assert init[|init| - |name|..] + [path[|path| - 1]] == path[|path| - |name| - 1..];
    }
  }

  /**
   * File.getName is the longest '/'-free suffix of the path once the
   * trailing '/' are dropped: it is preceded by '/' unless it is all that
   * is left, and it is empty only when the path is empty or all '/'.
   */
  lemma BaseNameIsLastSegment(path: string)
    ensures var t, name := DropTrailingSlashes(path), BaseName(path);
      && |t| <= |path| && t == path[..|t|] && (forall i :: |t| <= i < |path| ==> path[i] == '/')
      && |name| <= |t| && name == t[|t| - |name|..]
      && '/' !in name
      && (|name| < |t| ==> t[|t| - |name| - 1] == '/')
      && (name == [] <==> forall i :: 0 <= i < |path| ==> path[i] == '/')
  {
    var t := DropTrailingSlashes(path);
    DropTrailingSlashesIsPrefix(path);
    LastSegmentIsSuffix(t);
    if |t| > 0 {
      assert LastSegment(t) == LastSegment(t[..|t| - 1]) + [t[|t| - 1]];
      assert path[|t| - 1] == t[|t| - 1];
    }
  }

  /** A trailing '/' does not change the name. */
  lemma BaseNameIgnoresTrailingSlash(path: string)
    ensures BaseName(path + "/") == BaseName(path)
  {
    assert (path + "/")[..|path|] == path;
  }

  /** The segment after the last '/' of dir + "/" + name is name. */
  lemma {:induction false} LastSegmentOfJoin(dir: string, name: string)
    requires '/' !in name
    ensures LastSegment(dir + "/" + name) == name
    decreases |name|
  {
    var path := dir + "/" + name;
    if name != [] {
      var init := name[..|name| - 1];
      assert path[..|path| - 1] == dir + "/" + init;
      assert path[|path| - 1] == name[|name| - 1];
      LastSegmentOfJoin(dir, init);
      assert init + [name[|name| - 1]] == name;
    }
  }

  /**
   * The name of dir + "/" + name is name when name is a non-empty '/'-free
   * segment; with an empty name it is the name of dir.
   */
  lemma BaseNameOfJoin(dir: string, name: string)
    requires '/' !in name
    ensures name != [] ==> BaseName(dir + "/" + name) == name
    ensures name == [] ==> BaseName(dir + "/" + name) == BaseName(dir)
  {
    var path := dir + "/" + name;
    if name != [] {
      assert path[|path| - 1] == name[|name| - 1];
      assert DropTrailingSlashes(path) == path;
      LastSegmentOfJoin(dir, name);
    } else {
      assert path == dir + "/";
      BaseNameIgnoresTrailingSlash(dir);
    }
  }
}
