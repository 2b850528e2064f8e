/**
 The few operations of the Arduino `String` class that the file manager relies
 on, stated over `string` (a sequence of characters): `startsWith`,
 `lastIndexOf` and the out-of-range behaviour of `operator[]`.
 */
module ArduinoString {

  /** `pat` occurs in `s` starting at position `k`. */
  predicate OccursAt(s: string, pat: string, k: int)
  {
    0 <= k && k + |pat| <= |s| && s[k..k + |pat|] == pat
  }

  /** `pat` occurs somewhere in `s`. */
  predicate Contains(s: string, pat: string)
  {
    exists k | 0 <= k <= |s| :: OccursAt(s, pat, k)
  }

  /** A pattern holding a character the string lacks does not occur in it. */
  lemma MissingCharNotContained(s: string, pat: string, c: char)
    requires c in pat && c !in s
    ensures !Contains(s, pat)
  {
  }

  /** `String::startsWith`: a prefix longer than the string never matches. */
  function StartsWith(s: string, prefix: string): (r: bool)
    ensures r <==> exists rest :: s == prefix + rest
  {
    var r := |prefix| <= |s| && s[..|prefix|] == prefix;
    if r then assert s == prefix + s[|prefix|..]; r else r
  }

  /** `s[|s| - 1]` as `String::operator[]` reads it: an index outside the string yields NUL. */
  function LastChar(s: string): char
  {
    if |s| == 0 then '\0' else s[|s| - 1]
  }

  lemma OccursInPrefix(s: string, pat: string, k: int)
    requires |s| > 0 && k + |pat| <= |s| - 1
    ensures OccursAt(s[..|s| - 1], pat, k) <==> OccursAt(s, pat, k)
  {
    if 0 <= k {
      assert s[..|s| - 1][k..k + |pat|] == s[k..k + |pat|];
    }
  }

  /**
   `String::lastIndexOf`: the position of the last occurrence of `pat` in `s`,
   or -1 when there is none. An empty pattern is never found.
   */
  function LastIndexOf(s: string, pat: string): (r: int)
    ensures -1 <= r
    ensures r == -1 <==> |pat| == 0 || forall k :: !OccursAt(s, pat, k)
    ensures r >= 0 ==> |pat| > 0 && OccursAt(s, pat, r)
    ensures |pat| > 0 ==> forall k :: r < k ==> !OccursAt(s, pat, k)
    decreases |s|
  {
    if |pat| == 0 || |s| < |pat| then -1
    else if OccursAt(s, pat, |s| - |pat|) then |s| - |pat|
    else
      var r := LastIndexOf(s[..|s| - 1], pat);
      assert forall k :: OccursAt(s[..|s| - 1], pat, k) <==> OccursAt(s, pat, k) by {
        forall k ensures OccursAt(s[..|s| - 1], pat, k) <==> OccursAt(s, pat, k) {
          if k + |pat| <= |s| - 1 {
            OccursInPrefix(s, pat, k);
          }
        }
      }
      assert r >= 0 ==> OccursAt(s, pat, r);
      r
  }
}
