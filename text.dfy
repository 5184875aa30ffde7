/**
 * String helpers the app calls on form text: `String.prototype.trim`,
 * `toLowerCase`, `includes` and the `isPartial` test (app.js:37, 507, 546-548).
 */
module Text {

  /** JavaScript's WhiteSpace and LineTerminator characters, which `trim` removes. */
  predicate IsSpace(c: char) {
    c == '\t' || c == '\n' || c == '\U{000B}' || c == '\U{000C}' || c == '\r' || c == ' '
    || c == '\U{00A0}' || c == '\U{1680}' || ('\U{2000}' <= c <= '\U{200A}')
    || c == '\U{2028}' || c == '\U{2029}' || c == '\U{202F}' || c == '\U{205F}'
    || c == '\U{3000}' || c == '\U{FEFF}'
  }

  /** `s` without its leading white space. */
  function TrimStart(s: string): (r: string)
    ensures |r| <= |s| && r == s[|s| - |r|..]
    ensures forall i :: 0 <= i < |s| - |r| ==> IsSpace(s[i])
    ensures |r| > 0 ==> !IsSpace(r[0])
    decreases |s|
  {
    if |s| > 0 && IsSpace(s[0]) then TrimStart(s[1..]) else s
  }

  /** `s` without its trailing white space. */
  function TrimEnd(s: string): (r: string)
    ensures |r| <= |s| && r == s[..|r|]
    ensures forall i :: |r| <= i < |s| ==> IsSpace(s[i])
    ensures |r| > 0 ==> !IsSpace(r[|r| - 1])
    decreases |s|
  {
    if |s| > 0 && IsSpace(s[|s| - 1]) then TrimEnd(s[..|s| - 1]) else s
  }

  /** Every character of `s` is white space. */
  predicate AllSpace(s: string) {
    forall k :: 0 <= k < |s| ==> IsSpace(s[k])
  }

  /** `s.trim()`: a slice of `s` with only white space cut from either end. */
  function Trim(s: string): (r: string)
    ensures |r| > 0 ==> !IsSpace(r[0]) && !IsSpace(r[|r| - 1])
    ensures r == "" <==> AllSpace(s)
    ensures exists i, j :: 0 <= i <= j <= |s| && r == s[i..j] && AllSpace(s[..i]) && AllSpace(s[j..])
  {
    TrimSlice(s);
    TrimEnd(TrimStart(s))
  }

  /** `TrimStart` cuts only white space, from the front. */
  lemma {:induction false} TrimStartCut(s: string)
    ensures AllSpace(s[..|s| - |TrimStart(s)|])
  {
    var n := |s| - |TrimStart(s)|;
    forall k | 0 <= k < n ensures IsSpace(s[..n][k]) {
      assert s[..n][k] == s[k];
    }
  }

  /** `TrimEnd` cuts only white space, from the back. */
  lemma {:induction false} TrimEndCut(t: string)
    ensures AllSpace(t[|TrimEnd(t)|..])
  {
    var m := |TrimEnd(t)|;
    forall k | 0 <= k < |t| - m ensures IsSpace(t[m..][k]) {
      assert t[m..][k] == t[m + k];
    }
  }

  /** A prefix of the suffix `s[i..]` is the slice of `s` starting at `i`. */
  lemma PrefixOfSuffix(s: string, i: nat, r: string)
    requires i <= |s| && |r| <= |s| - i && r == s[i..][..|r|]
    ensures r == s[i..i + |r|]
  {
    forall k | 0 <= k < |r| ensures s[i..i + |r|][k] == r[k] {
      assert r[k] == s[i..][k];
    }
  }

  /** The two halves of `Trim` cut white space only, at the two ends. */
  lemma {:induction false} TrimSlice(s: string)
    ensures var t := TrimStart(s); var r := TrimEnd(t);
            var i := |s| - |t|; var j := i + |r|;
            r == s[i..j] && AllSpace(s[..i]) && AllSpace(s[j..]) && (r == "" ==> i == |s|)
  {
    var t := TrimStart(s);
    var r := TrimEnd(t);
    var i := |s| - |t|;
    var j := i + |r|;
    PrefixOfSuffix(s, i, r);
    TrimStartCut(s);
    TrimEndCut(t);
    assert s[j..] == t[|r|..];
  }

  /** Trimming is idempotent: a trimmed name stays as it is. */
  lemma TrimIdempotent(s: string)
    ensures Trim(Trim(s)) == Trim(s)
  {
    var r := Trim(s);
    assert TrimStart(r) == r;
    assert TrimEnd(r) == r;
  }

  /** `c.toLowerCase()` for one character (the Basic Latin capitals). */
  function LowerChar(c: char): char {
    if 'A' <= c <= 'Z' then (c as int + 32) as char else c
  }

  /** `s.toLowerCase()`, character by character. */
  function ToLower(s: string): (r: string)
    ensures |r| == |s|
    ensures forall i :: 0 <= i < |s| ==> r[i] == LowerChar(s[i])
    ensures forall i :: 0 <= i < |r| ==> !('A' <= r[i] <= 'Z')
  {
    seq(|s|, i requires 0 <= i < |s| => LowerChar(s[i]))
  }

  /** `t` occurs in `s` starting at index `i`. */
  predicate OccursAt(s: string, t: string, i: int) {
    0 <= i && i + |t| <= |s| && s[i..i + |t|] == t
  }

  /** `s.includes(t)`: some slice of `s` equals `t`. */
  function Contains(s: string, t: string): (b: bool)
    ensures b <==> exists i :: OccursAt(s, t, i)
    decreases |s|
  {
    if |t| <= |s| && s[..|t|] == t then
      assert OccursAt(s, t, 0);
      true
    else if |s| == 0 then
      assert forall i :: !OccursAt(s, t, i);
      false
    else
      var b := Contains(s[1..], t);
      assert forall i :: 1 <= i ==> (OccursAt(s, t, i) <==> OccursAt(s[1..], t, i - 1));
      assert b ==> var k :| OccursAt(s[1..], t, k); OccursAt(s, t, k + 1);
      b
  }

  /**
   * `isPartial(raw)`: the text of a number that is still being typed, so that
   * reading it would give a misleading value (empty, ends in '.', or a bare sign).
   */
  predicate IsPartial(raw: string): (b: bool)
    ensures b <==> raw == "" || raw == "-" || raw[|raw| - 1] == '.'
  {
    raw == "" || (|raw| > 0 && raw[|raw| - 1] == '.') || raw == "-" || raw == "-."
  }
}
