/** Path segments. Whatever text a target or a working directory is named by,
    the segment it becomes cannot leave its directory.

    The program masks bytes; the specification is in characters, each of which
    takes one to four bytes of UTF-8. */
module Paths {
  import opened MailFiles
  import opened Text

  predicate IsSafe(c: char) {
    || 'A' <= c <= 'Z'
    || 'a' <= c <= 'z'
    || '0' <= c <= '9'
    || c == '.' || c == '_' || c == '-'
  }

  predicate AllSafe(s: string) {
    forall i | 0 <= i < |s| :: IsSafe(s[i])
  }

  /** A name that is one component of a path and not a step out of it. */
  predicate IsSegment(s: string) {
    s != "" && AllSafe(s) && s != "." && s != ".."
  }

  function Utf8Width(c: char): nat {
    if c < 0x80 as char then 1
    else if c < 0x800 as char then 2
    else if c < 0x10000 as char then 3
    else 4
  }

  function Blanks(n: nat): (s: string)
    ensures |s| == n && AllSafe(s)
  {
    if n == 0 then "" else "_" + Blanks(n - 1)
  }

  function Mask(c: char): string {
    if IsSafe(c) then [c] else Blanks(Utf8Width(c))
  }

  function Masked(s: string): string {
    if s == "" then "" else Mask(s[0]) + Masked(s[1..])
  }

  function Segment(s: string): Option<string> {
    var t := Trim(s);
    if t == "" || Masked(t) == "." || Masked(t) == ".." then None else Some(Masked(t))
  }

  lemma {:induction false} MaskedIsSafe(s: string)
    ensures AllSafe(Masked(s)) && |Masked(s)| >= |s|
    ensures AllSafe(s) ==> Masked(s) == s
  {
    if s != "" {
      MaskedIsSafe(s[1..]);
      assert s == [s[0]] + s[1..];
      if AllSafe(s) {
        assert IsSafe(s[0]);
        forall i | 0 <= i < |s| - 1
          ensures IsSafe(s[1..][i])
        {
          assert IsSafe(s[i + 1]);
        }
      }
    }
  }

  lemma {:induction false} NoDotInBlanks(n: nat)
    ensures Lacks('.', Blanks(n))
  {
    if n > 0 { NoDotInBlanks(n - 1); }
  }

  /** What a segment is made of, and which texts make one. */
  lemma SegmentIsSafe(s: string)
    ensures Segment(s).Some? ==> IsSegment(Segment(s).value)
    ensures Segment(s) == None <==> Trim(s) in {"", ".", ".."}
  {
    var t := Trim(s);
    MaskedIsSafe(t);
    if t != "" && Segment(s) == None {
      DotsOnly(t);
    }
    assert Masked(".") == "." && Masked("..") == ".." by {
      MaskedIsSafe(".");
      MaskedIsSafe("..");
    }
  }

  lemma DotsOnly(t: string)
    requires Masked(t) == "." || Masked(t) == ".."
    ensures t == Masked(t)
  {
    MaskedIsSafe(t);
    FirstMasked(t);
    if |t| == 2 { FirstMasked(t[1..]); }
  }

  lemma FirstMasked(s: string)
    requires s != ""
    ensures Masked(s) == Mask(s[0]) + Masked(s[1..]) && Mask(s[0]) != ""
    ensures Masked(s)[0] == '.' ==> s[0] == '.' && Mask(s[0]) == "."
  {
    NoDotInBlanks(Utf8Width(s[0]));
    assert Masked(s)[0] == Mask(s[0])[0];
  }

  /** The segments are the fixed points, so a name read back from a directory
      names that directory again. */
  lemma SegmentFixed(s: string)
    ensures Segment(s) == Some(s) <==> IsSegment(s)
  {
    SegmentIsSafe(s);
    if IsSegment(s) {
      TrimFixed(s);
      assert IsSafe(s[0]) && IsSafe(s[|s| - 1]);
      MaskedIsSafe(s);
    }
  }

  // ---- The same on bytes ----

  function Utf8(c: char): (bytes: seq<Byte>)
    ensures |bytes| == Utf8Width(c)
  {
    var x := c as int;
    if x < 0x80 then [x]
    else if x < 0x800 then [0xC0 + x / 64, 0x80 + x % 64]
    else if x < 0x10000 then [0xE0 + x / 4096, 0x80 + x / 64 % 64, 0x80 + x % 64]
    else [0xF0 + x / 262144, 0x80 + x / 4096 % 64, 0x80 + x / 64 % 64, 0x80 + x % 64]
  }

  function Encoded(s: string): seq<Byte> {
    if s == "" then [] else Utf8(s[0]) + Encoded(s[1..])
  }

  predicate IsTail(b: int) { 0x80 <= b < 0xC0 }

  /** Section 3 of RFC 3629: the bytes of a code point, by the bits each of them
      carries; no code point has a longer form than it needs. */
  predicate IsUtf8(x: int, bytes: seq<int>) {
    if |bytes| == 1 then 0 <= x < 0x80 && bytes[0] == x
    else if |bytes| == 2 then
      0x80 <= x < 0x800 && 0xC0 <= bytes[0] < 0xE0 && IsTail(bytes[1])
      && x == 64 * (bytes[0] - 0xC0) + (bytes[1] - 0x80)
    else if |bytes| == 3 then
      0x800 <= x < 0x10000 && 0xE0 <= bytes[0] < 0xF0 && IsTail(bytes[1]) && IsTail(bytes[2])
      && x == 4096 * (bytes[0] - 0xE0) + 64 * (bytes[1] - 0x80) + (bytes[2] - 0x80)
    else
      |bytes| == 4 && 0x10000 <= x && 0xF0 <= bytes[0] < 0xF8
      && IsTail(bytes[1]) && IsTail(bytes[2]) && IsTail(bytes[3])
      && x == 262144 * (bytes[0] - 0xF0) + 4096 * (bytes[1] - 0x80) + 64 * (bytes[2] - 0x80) + (bytes[3] - 0x80)
  }

  lemma Utf8IsExact(c: char)
    ensures IsUtf8(c as int, Utf8(c))
  {
    var x := c as int;
    Digits64(x);
    if x >= 0x10000 { Digits64(x / 64); }
  }

  lemma Digits64(x: nat)
    ensures x / 64 / 64 == x / 4096 && x / 4096 / 64 == x / 262144
    ensures x == 64 * (x / 64) + x % 64 && x / 64 == 64 * (x / 4096) + x / 64 % 64
  {
  }

  /** The encoding of a text is that of its characters in order. */
  lemma {:induction false} EncodedJoins(a: string, c: char, b: string)
    ensures Encoded([]) == []
    ensures Encoded(a + [c] + b) == Encoded(a) + Utf8(c) + Encoded(b)
  {
    var s := a + [c] + b;
    if a == "" {
      assert s[0] == c && s[1..] == b;
      assert [] + Utf8(c) == Utf8(c);
    } else {
      EncodedJoins(a[1..], c, b);
      assert s[0] == a[0] && s[1..] == a[1..] + [c] + b;
    }
  }

  function MaskByte(b: Byte): char {
    if b < 128 && IsSafe(b as char) then b as char else '_'
  }

  function MaskBytes(bytes: seq<Byte>): string {
    seq(|bytes|, i requires 0 <= i < |bytes| => MaskByte(bytes[i]))
  }

  lemma {:induction false} MaskBytesAgree(s: string)
    ensures MaskBytes(Encoded(s)) == Masked(s)
  {
    if s != "" {
      MaskBytesAgree(s[1..]);
      MaskOfChar(s[0]);
      MaskBytesJoin(Utf8(s[0]), Encoded(s[1..]));
    }
  }

  lemma MaskBytesJoin(a: seq<Byte>, b: seq<Byte>)
    ensures MaskBytes(a + b) == MaskBytes(a) + MaskBytes(b)
  {
  }

  lemma MaskOfChar(c: char)
    ensures MaskBytes(Utf8(c)) == Mask(c)
  {
    if c >= 0x80 as char {
      BlanksAre(Utf8Width(c));
      assert forall i | 0 <= i < |Utf8(c)| :: Utf8(c)[i] >= 128;
    } else {
      BlanksAre(1);
    }
  }

  lemma {:induction false} BlanksAre(n: nat)
    ensures forall i | 0 <= i < n :: Blanks(n)[i] == '_'
  {
    if n > 0 { BlanksAre(n - 1); }
  }

  /** Replaces every byte outside the safe set. */
  method MaskAll(bytes: seq<Byte>) returns (out: string)
    ensures out == MaskBytes(bytes)
  {
    out := "";
    for i := 0 to |bytes|
      invariant |out| == i && forall k | 0 <= k < i :: out[k] == MaskByte(bytes[k])
    {
      var b := bytes[i];
      if b < 128 && IsSafe(b as char) {
        out := out + [b as char];
      } else {
        out := out + "_";
      }
    }
  }

  /** The promise on bytes: a letter, digit, dot, underscore or dash stays, and
      any other byte becomes an underscore. */
  predicate Sanitized(bytes: seq<Byte>, out: string) {
    && |out| == |bytes|
    && forall i | 0 <= i < |bytes| ::
         var b: int := bytes[i];
         if || 'A' as int <= b <= 'Z' as int || 'a' as int <= b <= 'z' as int || '0' as int <= b <= '9' as int
            || b == '.' as int || b == '_' as int || b == '-' as int
         then out[i] as int == b else out[i] == '_'
  }

  /** A segment is the trimmed text with just its unsafe bytes replaced. */
  lemma SegmentReplaces(s: string)
    ensures Segment(s).Some? ==> Sanitized(Encoded(Trim(s)), Segment(s).value)
  {
    MaskBytesAgree(Trim(s));
  }

  method SanitizeSegment(s: string) returns (r: Option<string>)
    ensures r == Segment(s)
    ensures r.Some? ==> IsSegment(r.value) && Sanitized(Encoded(Trim(s)), r.value)
    ensures r == None <==> Trim(s) in {"", ".", ".."}
  {
    SegmentReplaces(s);
    SegmentIsSafe(s);
    var t := Trim(s);
    if t == "" { return None; }
    var out := MaskAll(Encoded(t));
    MaskBytesAgree(t);
    return if out == "." || out == ".." then None else Some(out);
  }

  // ---- The segment of a working directory ----

  const MAX_CWD_SEGMENT := 80

  function Tail(s: string, n: nat): string {
    if |s| > n then s[|s| - n..] else s
  }

  function CwdSegment(hash: string -> string, cwd: string): Option<string> {
    var t := Trim(cwd);
    if t == "" then None
    else match Segment(t)
      case None => None
      case Some(readable) => Some(Tail(readable, MAX_CWD_SEGMENT) + "-" + hash(t))
  }

  /** The segment of a directory is the end of its own segment, at most 80
      characters of it, a dash, and the hash of the trimmed path. */
  lemma CwdSegmentReads(hash: string -> string, cwd: string)
    ensures CwdSegment(hash, cwd) == None <==> Segment(cwd) == None
    ensures CwdSegment(hash, cwd).Some? ==>
              var (readable, out) := (Segment(cwd).value, CwdSegment(hash, cwd).value);
              && (|readable| <= 80 ==> out == readable + "-" + hash(Trim(cwd)))
              && (|readable| > 80 ==> out == readable[|readable| - 80..] + "-" + hash(Trim(cwd)))
    ensures CwdSegment(hash, Trim(cwd)) == CwdSegment(hash, cwd)
  {
    TrimIdempotent(cwd);
  }

  predicate IsHash(h: string) {
    |h| == 16 && forall i | 0 <= i < 16 :: '0' <= h[i] <= '9' || 'a' <= h[i] <= 'f'
  }

  /** The segment of a directory fits a file name, cannot leave the index, and
      is refused for blank and dot directories only. */
  lemma CwdSegmentIsSafe(hash: string -> string, cwd: string)
    requires forall x :: IsHash(hash(x))
    ensures CwdSegment(hash, cwd) == None <==> Trim(cwd) in {"", ".", ".."}
    ensures CwdSegment(hash, cwd).Some? ==>
              IsSegment(CwdSegment(hash, cwd).value) && 18 <= |CwdSegment(hash, cwd).value| <= 97
  {
    var t := Trim(cwd);
    TrimIdempotent(cwd);
    SegmentIsSafe(t);
    if t != "" && Segment(t).Some? {
      var readable := Tail(Segment(t).value, MAX_CWD_SEGMENT);
      assert AllSafe(readable);
      assert IsHash(hash(t));
      var out := readable + "-" + hash(t);
      assert |out| == |readable| + 17;
      forall i | 0 <= i < |out|
        ensures IsSafe(out[i])
      {
        if i > |readable| { assert out[i] == hash(t)[i - |readable| - 1]; }
      }
    }
  }
}
