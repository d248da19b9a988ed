/**
 * POSIX path handling as the builders use it: `path.resolve` and `path.join`
 * reduced to segment joins. Canonicalisation (".", "..", repeated or trailing
 * separators) is not modelled, and the working directory that `path.resolve`
 * falls back on is replaced by the root "/".
 */
module Paths {

  predicate StartsWith(s: string, prefix: string) {
    |prefix| <= |s| && s[..|prefix|] == prefix
  }

  predicate EndsWith(s: string, suffix: string) {
    |suffix| <= |s| && s[|s| - |suffix|..] == suffix
  }

  /** `part` occurs somewhere in `s`. */
  predicate Contains(s: string, part: string)
    decreases |s|
  {
    StartsWith(s, part) || (s != [] && Contains(s[1..], part))
  }

  /** A string never contains anything longer than itself. */
  lemma {:induction false} ContainsIsShorter(s: string, part: string)
    requires Contains(s, part)
    ensures |part| <= |s|
    decreases |s|
  {
    if !StartsWith(s, part) {
      ContainsIsShorter(s[1..], part);
    }
  }

  /** An occurrence at any offset is an occurrence. */
  lemma {:induction false} ContainsAt(s: string, part: string, i: nat)
    requires i <= |s| && StartsWith(s[i..], part)
    ensures Contains(s, part)
    decreases i
  {
    if i > 0 {
      assert s[1..][i - 1..] == s[i..];
      ContainsAt(s[1..], part, i - 1);
    } else {
      assert s[0..] == s;
    }
  }

  /** Whatever is put in front of a string, an occurrence in it stays an occurrence. */
  lemma {:induction false} ContainsInSuffix(prefix: string, s: string, part: string)
    requires Contains(s, part)
    ensures Contains(prefix + s, part)
    decreases |prefix|
  {
    if prefix == [] {
      assert prefix + s == s;
    } else {
      assert (prefix + s)[1..] == prefix[1..] + s;
      ContainsInSuffix(prefix[1..], s, part);
    }
  }

  /** An occurrence stays one when something is appended to the string. */
  lemma {:induction false} ContainsExtended(s: string, more: string, part: string)
    requires Contains(s, part)
    ensures Contains(s + more, part)
    decreases |s|
  {
    if StartsWith(s, part) {
      assert (s + more)[..|part|] == s[..|part|];
    } else {
      assert (s + more)[1..] == s[1..] + more;
      ContainsExtended(s[1..], more, part);
    }
  }

  /** What occurs in `a + "/" + b` occurs in `a` or in `b`, unless it holds the separator and straddles it. */
  lemma {:induction false} ContainsAcrossSlash(a: string, b: string, part: string)
    requires Contains(a + "/" + b, part)
    ensures Contains(a, part) || Contains(b, part) || '/' in part
    decreases |a|
  {
    var s := a + "/" + b;
    if StartsWith(s, part) {
      if |part| <= |a| {
        assert s[..|part|] == a[..|part|];
      } else {
        assert part[|a|] == s[|a|] == '/';
      }
    } else if a == [] {
      assert s[1..] == b;
    } else {
      assert s[1..] == a[1..] + "/" + b;
      ContainsAcrossSlash(a[1..], b, part);
    }
  }

  /** An occurrence in a string's ending is an occurrence in the string. */
  lemma ContainsInEnding(s: string, ending: string, part: string)
    requires EndsWith(s, ending) && Contains(ending, part)
    ensures Contains(s, part)
  {
    var prefix := s[..|s| - |ending|];
    assert s == prefix + ending;
    ContainsInSuffix(prefix, ending, part);
  }

  predicate IsAbsolute(p: string) {
    StartsWith(p, "/")
  }

  /** Appends a relative segment to a directory with exactly one separator between them. */
  function Append(dir: string, name: string): (r: string)
    ensures StartsWith(dir, "/") ==> StartsWith(r, "/")
    ensures EndsWith(r, name)
  {
    if EndsWith(dir, "/") then dir + name else dir + "/" + name
  }

  /**
   * `path.resolve(...segments)`: scanning from the right, an absolute segment
   * ends the scan, empty segments are skipped and relative ones are appended.
   * The result is always absolute.
   */
  function Resolve(segments: seq<string>): (r: string)
    ensures IsAbsolute(r)
    decreases |segments|
  {
    if segments == [] then "/"
    else
      var last := segments[|segments| - 1];
      if IsAbsolute(last) then last
      else if last == "" then Resolve(segments[..|segments| - 1])
      else Append(Resolve(segments[..|segments| - 1]), last)
  }

  /** `path.join(...segments)` without normalisation: non-empty segments joined by "/", "." when none is left. */
  function Join(segments: seq<string>): (r: string)
    ensures r != ""
  {
    var joined := JoinParts(segments);
    if joined == "" then "." else joined
  }

  function JoinParts(segments: seq<string>): string
    decreases |segments|
  {
    if segments == [] then ""
    else
      var init := JoinParts(segments[..|segments| - 1]);
      var last := segments[|segments| - 1];
      if last == "" then init
      else if init == "" then last
      else Append(init, last)
  }

  /** An absolute target resolves to itself, whatever it is resolved against. */
  lemma ResolveAbsolute(root: string, target: string)
    requires IsAbsolute(target)
    ensures Resolve([target]) == target
    ensures Resolve([root, target]) == target
  {
  }

  /** A non-empty relative target is appended to an absolute root. */
  lemma ResolveRelative(root: string, target: string)
    requires IsAbsolute(root) && target != "" && !IsAbsolute(target)
    ensures Resolve([root, target]) == Append(root, target)
  {
    assert [root, target][..1] == [root];
  }

  /** `path.resolve(root, a, name)` with a plain last name appends it to `path.resolve(root, a)`. */
  lemma ResolveUnder(root: string, a: string, name: string)
    requires name != "" && !IsAbsolute(name)
    ensures Resolve([root, a, name]) == Append(Resolve([root, a]), name)
  {
    assert [root, a, name][..2] == [root, a];
  }

  /** `path.join(dir, sub)` of two non-empty segments appends `sub` to `dir`. */
  lemma JoinPair(dir: string, sub: string)
    requires dir != "" && sub != ""
    ensures Join([dir, sub]) == Append(dir, sub)
  {
    assert [dir, sub][..1] == [dir];
    assert [dir][..0] == [];
    assert JoinParts([dir]) == dir;
  }

  /** `path.join(dir, sub, name)` is `sub` appended to `dir`, then "/" and `name`. */
  lemma JoinUnder(dir: string, sub: string, name: string)
    requires dir != "" && sub != "" && !EndsWith(sub, "/") && name != ""
    ensures Join([dir, sub, name]) == Append(dir, sub) + "/" + name
  {
    assert [dir, sub, name][..2] == [dir, sub];
    assert [dir, sub][..1] == [dir];
    assert [dir][..0] == [];
    assert JoinParts([dir]) == dir;
    var ds := Append(dir, sub);
    assert JoinParts([dir, sub]) == ds;
    assert ds[|ds| - 1..] == sub[|sub| - 1..];
    assert !EndsWith(ds, "/");
  }
}
