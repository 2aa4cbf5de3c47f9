/** Trimming, and cutting a string at its first colon, as Go's `strings` package
    does it. Strings are sequences of Unicode scalar values. */
module Text {

  type Byte = x: int | 0 <= x < 256

  // Unicode's White_Space property.
  predicate IsSpace(c: char) {
    || 9 as char <= c <= 13 as char
    || c == ' '
    || c == 0x85 as char
    || c == 0xA0 as char
    || c == 0x1680 as char
    || 0x2000 as char <= c <= 0x200A as char
    || 0x2028 as char <= c <= 0x2029 as char
    || c == 0x202F as char
    || c == 0x205F as char
    || c == 0x3000 as char
  }

  lemma SpacesAre(c: char)
    ensures IsSpace(c) <==> c as int in {
              9, 10, 11, 12, 13, 0x20, 0x85, 0xA0, 0x1680, 0x2000, 0x2001, 0x2002, 0x2003, 0x2004, 0x2005, 0x2006,
              0x2007, 0x2008, 0x2009, 0x200A, 0x2028, 0x2029, 0x202F, 0x205F, 0x3000}
  {
  }

  function TrimLeft(s: string): string {
    if s != "" && IsSpace(s[0]) then TrimLeft(s[1..]) else s
  }

  function TrimRight(s: string): string {
    if s != "" && IsSpace(s[|s| - 1]) then TrimRight(s[..|s| - 1]) else s
  }

  function Trim(s: string): string {
    TrimRight(TrimLeft(s))
  }

  predicate Trimmed(s: string) {
    s == "" || (!IsSpace(s[0]) && !IsSpace(s[|s| - 1]))
  }

  predicate AllSpace(s: string) {
    forall i | 0 <= i < |s| :: IsSpace(s[i])
  }

  lemma {:induction false} TrimLeftCuts(s: string) returns (i: nat)
    ensures i <= |s| && TrimLeft(s) == s[i..] && AllSpace(s[..i])
    ensures TrimLeft(s) != "" ==> !IsSpace(TrimLeft(s)[0])
  {
    i := 0;
    if s != "" && IsSpace(s[0]) {
      var k := TrimLeftCuts(s[1..]);
      i := k + 1;
      assert s[1..][k..] == s[i..];
      assert s[..i] == [s[0]] + s[1..][..k];
    }
  }

  lemma {:induction false} TrimRightCuts(s: string) returns (j: nat)
    ensures j <= |s| && TrimRight(s) == s[..j] && AllSpace(s[j..])
    ensures TrimRight(s) != "" ==> !IsSpace(TrimRight(s)[j - 1])
  {
    j := |s|;
    if s != "" && IsSpace(s[|s| - 1]) {
      j := TrimRightCuts(s[..|s| - 1]);
      assert s[..|s| - 1][..j] == s[..j];
      assert s[j..] == s[..|s| - 1][j..] + [s[|s| - 1]];
    }
  }

  /** Trimming keeps the middle of the string: only space is cut off, and all of
      it at both ends. */
  lemma TrimCuts(s: string) returns (i: nat, j: nat)
    ensures i <= j <= |s| && Trim(s) == s[i..j]
    ensures AllSpace(s[..i]) && AllSpace(s[j..])
    ensures Trimmed(Trim(s))
  {
    i := TrimLeftCuts(s);
    var k := TrimRightCuts(s[i..]);
    j := i + k;
    assert s[i..][..k] == s[i..j];
    assert s[i..][k..] == s[j..];
  }

  /** Trimming changes nothing exactly when there is nothing to trim. */
  lemma TrimFixed(s: string)
    ensures Trim(s) == s <==> Trimmed(s)
  {
    var i, j := TrimCuts(s);
  }

  /** What is left of a text once all space is cut off is one text only. */
  lemma TrimUnique(s: string, i: nat, j: nat)
    requires i <= j <= |s| && AllSpace(s[..i]) && AllSpace(s[j..]) && Trimmed(s[i..j])
    ensures Trim(s) == s[i..j]
  {
    var a, b := TrimCuts(s);
    Outside(s, i, j);
    Outside(s, a, b);
  }

  lemma Outside(s: string, i: nat, j: nat)
    requires i <= j <= |s| && AllSpace(s[..i]) && AllSpace(s[j..])
    ensures forall k | 0 <= k < |s| && !IsSpace(s[k]) :: i <= k < j
  {
  }

  lemma Slice(s: string, i: nat, j: nat, a: nat, b: nat)
    requires i <= j <= |s| && a <= b <= j - i
    ensures s[i..j][a..b] == s[i + a..i + b]
    ensures s[..i] + s[i..j][..a] == s[..i + a] && s[i..j][b..] + s[j..] == s[i + b..]
  {
    SliceOfSlice(s, i, j, a, b);
    SliceOfSlice(s, i, j, 0, a);
    SliceOfSlice(s, i, j, b, j - i);
    assert s[..i] + s[i..i + a] == s[..i + a] && s[i + b..j] + s[j..] == s[i + b..];
    assert s[i..j][..a] == s[i..j][0..a] && s[i..j][b..] == s[i..j][b..j - i];
  }

  lemma SliceOfSlice(s: string, i: nat, j: nat, a: nat, b: nat)
    requires i <= j <= |s| && a <= b <= j - i
    ensures s[i..j][a..b] == s[i + a..i + b]
  {
    forall k | 0 <= k < b - a
      ensures s[i..j][a..b][k] == s[i + a..i + b][k]
    {
    }
  }

  /** Cutting off space first changes nothing. */
  lemma TrimInner(s: string, i: nat, j: nat)
    requires i <= j <= |s| && AllSpace(s[..i]) && AllSpace(s[j..])
    ensures Trim(s[i..j]) == Trim(s)
  {
    var inner := s[i..j];
    var a, b := TrimCuts(inner);
    Slice(s, i, j, a, b);
    TrimUnique(s, i + a, i + b);
  }

  lemma TrimIdempotent(s: string)
    ensures Trimmed(Trim(s)) && Trim(Trim(s)) == Trim(s)
  {
    var i, j := TrimCuts(s);
    TrimFixed(Trim(s));
  }

  predicate Lacks(c: char, s: string) {
    forall i | 0 <= i < |s| :: s[i] != c
  }

  lemma TrimAbsent(c: char, s: string)
    requires Lacks(c, s)
    ensures Lacks(c, Trim(s))
  {
    var i, j := TrimCuts(s);
  }

  // The position of the first c, or the length.
  function IndexOf(s: string, c: char): (i: nat)
    ensures i <= |s| && Lacks(c, s[..i]) && (i < |s| ==> s[i] == c)
  {
    if s == "" || s[0] == c then 0
    else
      var i := IndexOf(s[1..], c) + 1;
      assert s[..i] == [s[0]] + s[1..][..i - 1];
      i
  }

  lemma {:induction false} IndexOfPrefix(a: string, c: char, b: string)
    requires Lacks(c, a)
    ensures IndexOf(a + [c] + b, c) == |a|
  {
    if a != "" {
      assert a[0] != c;
      assert (a + [c] + b)[1..] == a[1..] + [c] + b;
      IndexOfPrefix(a[1..], c, b);
    }
  }
}
