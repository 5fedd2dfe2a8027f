// String operations shared by several stages.
module Text {

  predicate MatchAt(hay: string, i: nat, needle: string) {
    i + |needle| <= |hay| && hay[i..i + |needle|] == needle
  }

  /** `needle in hay` */
  predicate Contains(hay: string, needle: string) {
    exists i :: 0 <= i <= |hay| && MatchAt(hay, i, needle)
  }

  /** One text contains another when it is that one with something, or nothing, on either side. */
  lemma SubstringIsContained(front: string, needle: string, back: string)
    ensures Contains(front + needle + back, needle)
  {
    assert (front + needle + back)[|front|..|front| + |needle|] == needle;
    assert MatchAt(front + needle + back, |front|, needle);
  }

  lemma ContainedIsSubstring(hay: string, needle: string) returns (front: string, back: string)
    requires Contains(hay, needle)
    ensures hay == front + needle + back
  {
    var i :| 0 <= i <= |hay| && MatchAt(hay, i, needle);
    front, back := hay[..i], hay[i + |needle|..];
  }

  lemma ContainsTransitive(a: string, b: string, c: string)
    requires Contains(a, b) && Contains(b, c)
    ensures Contains(a, c)
  {
    var i :| 0 <= i <= |a| && MatchAt(a, i, b);
    var j :| 0 <= j <= |b| && MatchAt(b, j, c);
    forall k | 0 <= k < |c| ensures a[i + j + k] == c[k] {
      assert a[i..i + |b|][j + k] == b[j + k] && b[j..j + |c|][k] == c[k];
    }
    assert MatchAt(a, i + j, c);
  }

  lemma ContainsSelf(s: string)
    ensures Contains(s, s)
  {
    assert MatchAt(s, 0, s);
  }

  /** Unicode white space, as the pattern class `\s` and `s.strip()` see it. */
  predicate IsSpace(c: char) {
    var n := c as int;
    9 <= n <= 13 || 28 <= n <= 32 || n == 0x85 || n == 0xA0 || n == 0x1680 || 0x2000 <= n <= 0x200A
    || n == 0x2028 || n == 0x2029 || n == 0x202F || n == 0x205F || n == 0x3000
  }

  /** Of the ASCII characters exactly these are white space. */
  lemma AsciiSpaces(c: char)
    requires c as int < 128
    ensures IsSpace(c) <==> c in " \t\n\r" || c as int in {11, 12, 28, 29, 30, 31}
  {
    assert " \t\n\r"[0] == ' ' && " \t\n\r"[1] == '\t' && " \t\n\r"[2] == '\n' && " \t\n\r"[3] == '\r';
  }

  function LowerChar(c: char): char {
    if 'A' <= c <= 'Z' then (c as int + 32) as char else c
  }

  /** `s.lower()` on ASCII letters. */
  function Lower(s: string): (r: string)
    ensures |r| == |s| && forall i :: 0 <= i < |s| ==> r[i] == LowerChar(s[i])
  {
    seq(|s|, i requires 0 <= i < |s| => LowerChar(s[i]))
  }

  predicate StartsWith(s: string, prefix: string) {
    |prefix| <= |s| && s[..|prefix|] == prefix
  }

  lemma StartsWithMeaning(s: string, prefix: string)
    ensures StartsWith(s, prefix) <==> exists rest :: s == prefix + rest
  {
    if StartsWith(s, prefix) {
      assert s == prefix + s[|prefix|..];
    }
  }

  /** `s.strip()`, one end at a time. */
  function TrimLeft(s: string): string {
    if s == [] || !IsSpace(s[0]) then s else TrimLeft(s[1..])
  }

  function TrimRight(s: string): string {
    if s == [] || !IsSpace(s[|s| - 1]) then s else TrimRight(s[..|s| - 1])
  }

  function Trim(s: string): string {
    TrimRight(TrimLeft(s))
  }

  lemma {:induction false} TrimLeftCut(s: string) returns (lo: nat)
    ensures lo <= |s| && TrimLeft(s) == s[lo..] && forall i :: 0 <= i < lo ==> IsSpace(s[i])
    ensures lo < |s| ==> !IsSpace(s[lo])
  {
    if s == [] || !IsSpace(s[0]) {
      lo := 0;
    } else {
      var n := TrimLeftCut(s[1..]);
      lo := n + 1;
      assert s[1..][n..] == s[lo..];
    }
  }

  lemma {:induction false} TrimRightCut(s: string) returns (hi: nat)
    ensures hi <= |s| && TrimRight(s) == s[..hi] && forall i :: hi <= i < |s| ==> IsSpace(s[i])
    ensures hi > 0 ==> !IsSpace(s[hi - 1])
  {
    var n := |s| - 1;
    if s == [] || !IsSpace(s[n]) {
      hi := |s|;
    } else {
      hi := TrimRightCut(s[..n]);
      assert s[..n][..hi] == s[..hi];
    }
  }

  /** Stripping takes white space off both ends, and all of it. */
  lemma TrimMeaning(s: string) returns (lo: nat, hi: nat)
    ensures lo <= hi <= |s| && Trim(s) == s[lo..hi]
    ensures forall i :: 0 <= i < |s| && !(lo <= i < hi) ==> IsSpace(s[i])
    ensures lo < hi ==> !IsSpace(s[lo]) && !IsSpace(s[hi - 1])
  {
    lo := TrimLeftCut(s);
    var n := TrimRightCut(s[lo..]);
    hi := lo + n;
    assert s[lo..][..n] == s[lo..hi];
    assert forall i :: hi <= i < |s| ==> s[i] == s[lo..][i - lo];
    if lo < hi {
      assert s[hi - 1] == s[lo..][n - 1];
    }
  }

  lemma {:induction false} TrimLowerLeft(s: string)
    ensures TrimLeft(Lower(s)) == Lower(TrimLeft(s))
  {
    if s != [] && IsSpace(s[0]) {
      assert Lower(s)[1..] == Lower(s[1..]);
      TrimLowerLeft(s[1..]);
    }
  }

  lemma {:induction false} TrimLowerRight(s: string)
    ensures TrimRight(Lower(s)) == Lower(TrimRight(s))
  {
    if s != [] && IsSpace(s[|s| - 1]) {
      var n := |s| - 1;
      assert Lower(s)[..n] == Lower(s[..n]);
      TrimLowerRight(s[..n]);
    }
  }

  /** Stripping and lowering commute. */
  lemma TrimLower(s: string)
    ensures Trim(Lower(s)) == Lower(Trim(s))
  {
    TrimLowerLeft(s);
    TrimLowerRight(TrimLeft(s));
  }
}
