/**
 * The two Python string methods the client applies to URLs and regions:
 * `s.strip('/')` and `s.lower()`.
 */
module Text {

  predicate AllSlashes(s: string) {
    forall k :: 0 <= k < |s| ==> s[k] == '/'
  }

  /** Neither end of `s` is a slash. */
  predicate NoEdgeSlash(s: string) {
    |s| == 0 || (s[0] != '/' && s[|s| - 1] != '/')
  }

  /** `r` is `s` with its leading and trailing slashes cut off, and nothing else. */
  predicate IsSlashTrim(s: string, r: string) {
    exists i, j :: 0 <= i <= j <= |s| && r == s[i..j] && AllSlashes(s[..i]) && AllSlashes(s[j..]) && NoEdgeSlash(r)
  }

  /** `s.lstrip('/')`. */
  function StripLeading(s: string): (r: string)
    ensures |r| <= |s| && r == s[|s| - |r|..]
    ensures AllSlashes(s[..|s| - |r|])
    ensures |r| == 0 || r[0] != '/'
    decreases |s|
  {
    if |s| > 0 && s[0] == '/' then
      var t := s[1..];
      var r := StripLeading(t);
      assert s[|s| - |r|..] == t[|t| - |r|..];
      assert s[..|s| - |r|] == ['/'] + t[..|t| - |r|];
      r
    else s
  }

  /** `s.rstrip('/')`. */
  function StripTrailing(s: string): (r: string)
    ensures |r| <= |s| && r == s[..|r|]
    ensures AllSlashes(s[|r|..])
    ensures |r| == 0 || r[|r| - 1] != '/'
    decreases |s|
  {
    if |s| > 0 && s[|s| - 1] == '/' then
      var t := s[..|s| - 1];
      var r := StripTrailing(t);
      assert s[..|r|] == t[..|r|];
      assert s[|r|..] == t[|r|..] + ['/'];
      r
    else s
  }

  /** Cutting leading slashes and then trailing ones is a slash trim. */
  lemma {:induction false} StripsMakeTrim(s: string, left: string, r: string)
    requires |left| <= |s| && left == s[|s| - |left|..] && AllSlashes(s[..|s| - |left|])
    requires |left| == 0 || left[0] != '/'
    requires |r| <= |left| && r == left[..|r|] && AllSlashes(left[|r|..])
    requires |r| == 0 || r[|r| - 1] != '/'
    ensures IsSlashTrim(s, r)
  {
    var i := |s| - |left|;
    var j := i + |r|;
    assert r == s[i..j];
    assert s[j..] == left[|r|..];
    assert |r| > 0 ==> r[0] == left[0];
    assert AllSlashes(s[..i]) && AllSlashes(s[j..]) && NoEdgeSlash(r);
  }

  /** `s.strip('/')`: every leading and every trailing slash removed; a
      string with no slash at either end is left as it is. */
  function StripSlashes(s: string): (r: string)
    ensures IsSlashTrim(s, r)
    ensures NoEdgeSlash(r)
    ensures NoEdgeSlash(s) ==> r == s
  {
    var left := StripLeading(s);
    var r := StripTrailing(left);
    StripsMakeTrim(s, left, r);
    r
  }

  /** Stripping twice gives the same result as stripping once. */
  lemma {:induction false} StripIdempotent(s: string)
    ensures StripSlashes(StripSlashes(s)) == StripSlashes(s)
  {
  }

  function LowerChar(c: char): (r: char)
    ensures !('A' <= r <= 'Z')
    ensures !('A' <= c <= 'Z') ==> r == c
  {
    if 'A' <= c <= 'Z' then (c as int - 'A' as int + 'a' as int) as char else c
  }

  /** `s.lower()` on ASCII letters. */
  function Lower(s: string): (r: string)
    ensures |r| == |s|
    ensures forall i :: 0 <= i < |s| ==> r[i] == LowerChar(s[i])
  {
    seq(|s|, i requires 0 <= i < |s| => LowerChar(s[i]))
  }
}
