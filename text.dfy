/** The string operations the client relies on: lower-casing (bytes.ToLower),
    substring search (bytes.Contains) and the last path element
    (filepath.Base with '/' as separator). */
module Text {

  predicate IsUpper(c: char) { 'A' <= c <= 'Z' }

  function LowerChar(c: char): (r: char)
    ensures !IsUpper(r)
    ensures IsUpper(c) ==> r as int == c as int + 32
    ensures !IsUpper(c) ==> r == c
  {
    if IsUpper(c) then (c as int + 32) as char else c
  }

  /** Lower-cases the ASCII letters of `s` and keeps every other character. */
  function ToLower(s: string): (r: string)
    ensures |r| == |s|
    ensures forall i :: 0 <= i < |s| ==> r[i] == LowerChar(s[i])
  {
    if s == [] then [] else [LowerChar(s[0])] + ToLower(s[1..])
  }

  predicate NoUpper(s: string) { forall i :: 0 <= i < |s| ==> !IsUpper(s[i]) }

  lemma ToLowerIsLower(s: string)
    ensures NoUpper(ToLower(s))
  {
  }

  /** A string without upper-case letters is its own lower-case form. */
  lemma ToLowerOfLower(s: string)
    requires NoUpper(s)
    ensures ToLower(s) == s
  {
    assert forall i :: 0 <= i < |s| ==> ToLower(s)[i] == s[i];
  }

  lemma ToLowerIdempotent(s: string)
    ensures ToLower(ToLower(s)) == ToLower(s)
  {
    ToLowerIsLower(s);
    ToLowerOfLower(ToLower(s));
  }

  lemma {:induction false} ToLowerAppend(a: string, b: string)
    ensures ToLower(a + b) == ToLower(a) + ToLower(b)
  {
    if a == [] {
      assert a + b == b;
    } else {
      assert (a + b)[1..] == a[1..] + b;
      ToLowerAppend(a[1..], b);
      calc {
        ToLower(a + b);
        [LowerChar(a[0])] + ToLower(a[1..] + b);
        [LowerChar(a[0])] + (ToLower(a[1..]) + ToLower(b));
        ([LowerChar(a[0])] + ToLower(a[1..])) + ToLower(b);
        ToLower(a) + ToLower(b);
      }
    }
  }

  /** `k` occurs in `s` starting at index `i`. */
  predicate OccursAt(s: string, k: string, i: nat) {
    i + |k| <= |s| && s[i..i + |k|] == k
  }

  /** bytes.Contains: `k` occurs in `s` at some position. The empty string
      occurs in every string, and nothing longer than `s` occurs in it. */
  predicate Contains(s: string, k: string)
    ensures k == [] ==> Contains(s, k)
    ensures Contains(s, k) ==> |k| <= |s|
  {
    assert k == [] ==> OccursAt(s, k, 0);
    exists i: nat :: i <= |s| - |k| && OccursAt(s, k, i)
  }

  lemma ContainsMiddle(pre: string, k: string, post: string)
    ensures Contains(pre + k + post, k)
  {
    var s := pre + k + post;
    assert s[|pre|..|pre| + |k|] == k;
    assert OccursAt(s, k, |pre|);
  }

  /** The path with every trailing '/' removed. */
  function TrimTrailingSlashes(path: string): (r: string)
    ensures |r| <= |path| && r == path[..|r|]
    ensures r == [] || r[|r| - 1] != '/'
    ensures forall i :: |r| <= i < |path| ==> path[i] == '/'
  {
    if path != [] && path[|path| - 1] == '/' then TrimTrailingSlashes(path[..|path| - 1]) else path
  }

  /** The part of `path` after its last '/', or all of it when it has none. */
  function LastElement(path: string): (r: string)
    ensures |r| <= |path| && r == path[|path| - |r|..]
    ensures '/' !in r
    ensures |r| < |path| ==> path[|path| - |r| - 1] == '/'
  {
    if path == [] then []
    else if path[|path| - 1] == '/' then []
    else LastElement(path[..|path| - 1]) + [path[|path| - 1]]
  }

  /** filepath.Base on a system whose separator is '/' and has no volume names:
      "." for the empty path, "/" for a path of slashes only, otherwise the
      last element after trailing slashes are removed. */
  function Base(path: string): (r: string)
    ensures r != []
    ensures r == "/" || '/' !in r
  {
    if path == [] then "."
    else
      var trimmed := TrimTrailingSlashes(path);
      var last := LastElement(trimmed);
      if last == [] then "/" else last
  }

  lemma {:induction false} LastElementOfJoin(dir: string, name: string)
    requires '/' !in name
    ensures LastElement(dir + "/" + name) == name
  {
    if name == [] {
      assert (dir + "/" + name)[|dir + "/" + name| - 1] == '/';
    } else {
      var n' := name[..|name| - 1];
      assert (dir + "/" + name)[..|dir + "/" + name| - 1] == dir + "/" + n';
      LastElementOfJoin(dir, n');
      assert n' + [name[|name| - 1]] == name;
    }
  }

  /** The file name sent with an upload of "dir/name" is "name". */
  lemma BaseOfJoin(dir: string, name: string)
    requires name != [] && '/' !in name
    ensures Base(dir + "/" + name) == name
  {
    var p := dir + "/" + name;
    assert p[|p| - 1] == name[|name| - 1] != '/';
    assert TrimTrailingSlashes(p) == p;
    LastElementOfJoin(dir, name);
  }

  /** A bare file name is its own base name. */
  lemma {:induction false} BaseOfName(name: string)
    requires name != [] && '/' !in name
    ensures Base(name) == name
  {
    assert TrimTrailingSlashes(name) == name;
    LastElementOfName(name);
  }

  lemma {:induction false} LastElementOfName(name: string)
    requires '/' !in name
    ensures LastElement(name) == name
  {
    if name != [] {
      var n' := name[..|name| - 1];
      assert name == n' + [name[|name| - 1]];
      LastElementOfName(n');
    }
  }
}
