/**
 * Go's standard `path.Base` and `path.Dir` (with `path.Split` and
 * `path.Clean`), which the interceptor uses to split a full gRPC method
 * name. Written after the standard library's algorithm: `Clean` walks the
 * path once, copying segments, dropping empty and "." segments and undoing
 * the previous segment at each "..".
 */
module GoPath {

  /** `strings.LastIndex(s, "/")`: the position of the last '/', or -1. */
  function LastIndexSlash(s: string): (r: int)
    ensures -1 <= r < |s|
    ensures r >= 0 ==> s[r] == '/'
    ensures forall j :: r < j < |s| ==> s[j] != '/'
    decreases |s|
  {
    if s == [] then -1
    else if s[|s| - 1] == '/' then |s| - 1
    else LastIndexSlash(s[..|s| - 1])
  }

  /** `path.Split`: everything up to and including the last '/', and the rest. */
  function Split(path: string): (string, string)
  {
    var i := LastIndexSlash(path);
    (path[..i + 1], path[i + 1..])
  }

  /** The end of the segment starting at `r`: the next '/' at or after `r`, or the end. */
  function SegmentEnd(path: string, r: nat): (e: nat)
    requires r <= |path|
    ensures r <= e <= |path|
    decreases |path| - r
  {
    if r == |path| || path[r] == '/' then r else SegmentEnd(path, r + 1)
  }

  /**
   * Backs the output up over its last segment for "..": from `w` down,
   * stop at `dotdot` or at a '/', and keep what precedes.
   */
  function BackUp(out: string, w: nat, dotdot: nat): (r: string)
    requires dotdot <= w < |out|
    ensures dotdot <= |r| <= w
    decreases w
  {
    if w > dotdot && out[w] != '/' then BackUp(out, w - 1, dotdot) else out[..w]
  }

  /** The main loop of `path.Clean`, from read position `r` with output `out` so far. */
  function CleanFrom(path: string, r: nat, out: string, dotdot: nat, rooted: bool): string
    requires r <= |path|
    requires dotdot <= |out|
    decreases |path| - r
  {
    if r == |path| then out
    else if path[r] == '/' then
      CleanFrom(path, r + 1, out, dotdot, rooted)
    else if path[r] == '.' && (r + 1 == |path| || path[r + 1] == '/') then
      CleanFrom(path, r + 1, out, dotdot, rooted)
    else if path[r] == '.' && path[r + 1] == '.' && (r + 2 == |path| || path[r + 2] == '/') then
      if |out| > dotdot then
        CleanFrom(path, r + 2, BackUp(out, |out| - 1, dotdot), dotdot, rooted)
      else if !rooted then
        var out' := (if |out| > 0 then out + "/" else out) + "..";
        CleanFrom(path, r + 2, out', |out'|, rooted)
      else
        CleanFrom(path, r + 2, out, dotdot, rooted)
    else
      var out' := if (rooted && |out| != 1) || (!rooted && |out| != 0) then out + "/" else out;
      var e := SegmentEnd(path, r);
      CleanFrom(path, e, out' + path[r..e], dotdot, rooted)
  }

  /** `path.Clean`: the shortest path name equivalent to `path`; "." for an empty result. */
  function Clean(path: string): (r: string)
    ensures r != ""
  {
    if path == "" then "."
    else
      var rooted := path[0] == '/';
      var res := if rooted then CleanFrom(path, 1, "/", 1, true) else CleanFrom(path, 0, "", 0, false);
      if res == "" then "." else res
  }

  /** `path.Dir`: everything but the last element, cleaned. */
  function Dir(path: string): (r: string)
    ensures r != ""
  {
    Clean(Split(path).0)
  }

  /** Drops trailing '/' characters. */
  function TrimTrailingSlashes(path: string): (r: string)
    ensures |r| <= |path| && r == path[..|r|]
    ensures r == [] || r[|r| - 1] != '/'
    decreases |path|
  {
    if path != [] && path[|path| - 1] == '/' then TrimTrailingSlashes(path[..|path| - 1]) else path
  }

  /** `path.Base`: the last element, after trailing slashes are removed; "." for "" and "/" for all slashes. */
  function Base(path: string): (r: string)
    ensures r != ""
  {
    if path == "" then "."
    else
      var t := TrimTrailingSlashes(path);
      var i := LastIndexSlash(t);
      var b := t[i + 1..];
      if b == "" then "/" else b
  }

  /** The segment starting at `r` ends at the first '/' from `r` on. */
  lemma {:induction false} SegmentEndAt(path: string, r: nat, e: nat)
    requires r <= e <= |path|
    requires forall j :: r <= j < e ==> path[j] != '/'
    requires e == |path| || path[e] == '/'
    ensures SegmentEnd(path, r) == e
    decreases e - r
  {
    if r < e {
      SegmentEndAt(path, r + 1, e);
    }
  }

  /** The last '/' of a string is the one at `i` when none follows it. */
  lemma {:induction false} LastIndexSlashAt(s: string, i: nat)
    requires i < |s| && s[i] == '/'
    requires forall j :: i < j < |s| ==> s[j] != '/'
    ensures LastIndexSlash(s) == i
    decreases |s|
  {
    if s[|s| - 1] != '/' {
      LastIndexSlashAt(s[..|s| - 1], i);
    }
  }

  /** A single segment between slashes is an element: `Clean("/" + s + "/")` is `"/" + s`. */
  lemma CleanRootedSegment(s: string)
    requires s != "" && s != "." && s != ".."
    requires forall j :: 0 <= j < |s| ==> s[j] != '/'
    ensures Clean("/" + s + "/") == "/" + s
  {
    var p := "/" + s + "/";
    assert p[1..|s| + 1] == s;
    SegmentEndAt(p, 1, |s| + 1);
    assert p[1] == s[0];
    assert |s| >= 2 ==> p[2] == s[1];
    assert |s| >= 3 ==> p[3] == s[2];
    assert |s| == 1 ==> p[2] == '/';
    assert |s| == 2 ==> p[3] == '/';
    assert CleanFrom(p, 1, "/", 1, true) == CleanFrom(p, |s| + 1, "/" + s, 1, true);
    assert p[|s| + 1] == '/';
    assert CleanFrom(p, |s| + 1, "/" + s, 1, true) == CleanFrom(p, |s| + 2, "/" + s, 1, true);
    assert CleanFrom(p, |s| + 2, "/" + s, 1, true) == "/" + s;
  }

  /** For a path "/S/M" with single segments S and M (S not "." or ".."), Dir is "/S" and Base is M. */
  lemma DirBaseOfTwoSegments(s: string, m: string)
    requires s != "" && s != "." && s != ".."
    requires m != ""
    requires forall j :: 0 <= j < |s| ==> s[j] != '/'
    requires forall j :: 0 <= j < |m| ==> m[j] != '/'
    ensures Dir("/" + s + "/" + m) == "/" + s
    ensures Base("/" + s + "/" + m) == m
  {
    var full := "/" + s + "/" + m;
    LastIndexSlashAt(full, |s| + 1);
    assert full[..|s| + 2] == "/" + s + "/";
    assert full[|s| + 2..] == m;
    CleanRootedSegment(s);
    assert TrimTrailingSlashes(full) == full;
  }
}
