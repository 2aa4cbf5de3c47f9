/** Item ids, whose order as strings is the order of the queue, and the written
    form of targets. */
module Items {
  import opened MailFiles
  import opened Order
  import opened Text

  // ---- Ids ----

  function Digit(d: nat): char
    requires d < 16
  {
    if d < 10 then '0' + d as char else 'a' + (d - 10) as char
  }

  function Decimal(n: nat): string {
    if n < 10 then [Digit(n)] else Decimal(n / 10) + [Digit(n % 10)]
  }

  function Zeros(n: nat): string {
    if n == 0 then "" else Zeros(n - 1) + "0"
  }

  /** A decimal number padded with zeros to a least width. */
  function Padded(n: nat, width: nat): string {
    var d := Decimal(n);
    if |d| < width then Zeros(width - |d|) + d else d
  }

  function Hex(bytes: seq<Byte>): string {
    if bytes == [] then "" else [Digit(bytes[0] / 16), Digit(bytes[0] % 16)] + Hex(bytes[1..])
  }

  const ID_WIDTH := 13

  function RenderId(millis: nat, suffix: seq<Byte>): string {
    Padded(millis, ID_WIDTH) + "-" + Hex(suffix)
  }

  function Power10(k: nat): nat {
    if k == 0 then 1 else 10 * Power10(k - 1)
  }

  /** What a digit stands for, and a decimal number. */
  function DigitValue(c: char): int {
    if '0' <= c <= '9' then c as int - '0' as int
    else if 'a' <= c <= 'f' then c as int - 'a' as int + 10
    else -1
  }

  function DecimalValue(s: string): int {
    if s == "" then 0 else 10 * DecimalValue(s[..|s| - 1]) + DigitValue(s[|s| - 1])
  }

  predicate AllDecimal(s: string) {
    forall i | 0 <= i < |s| :: '0' <= s[i] <= '9'
  }

  // The last `width` digits of a number.
  function Fixed(n: nat, width: nat): (s: string)
    ensures |s| == width
  {
    if width == 0 then "" else Fixed(n / 10, width - 1) + [Digit(n % 10)]
  }

  lemma {:induction false} FixedZero(width: nat)
    ensures Fixed(0, width) == Zeros(width)
  {
    if width > 0 { FixedZero(width - 1); }
  }

  lemma {:induction false} PaddedIsFixed(n: nat, width: nat)
    requires n < Power10(width) && width > 0
    ensures Padded(n, width) == Fixed(n, width) && |Decimal(n)| <= width
  {
    if n < 10 {
      FixedZero(width - 1);
    } else {
      assert width > 1;
      PaddedIsFixed(n / 10, width - 1);
      assert Decimal(n) == Decimal(n / 10) + [Digit(n % 10)];
      assert |Decimal(n / 10)| <= width - 1;
      assert Padded(n, width) == Padded(n / 10, width - 1) + [Digit(n % 10)];
    }
  }

  lemma {:induction false} FixedReads(n: nat, width: nat)
    requires n < Power10(width)
    ensures AllDecimal(Fixed(n, width)) && DecimalValue(Fixed(n, width)) == n
  {
    if width > 0 {
      FixedReads(n / 10, width - 1);
      assert Fixed(n, width)[..width - 1] == Fixed(n / 10, width - 1);
    }
  }

  lemma {:induction false} HexReads(bytes: seq<Byte>)
    ensures |Hex(bytes)| == 2 * |bytes|
    ensures forall k | 0 <= k < |bytes| :: HexAt(Hex(bytes), 2 * k, bytes[k])
  {
    if bytes != [] {
      HexReads(bytes[1..]);
      forall k | 0 <= k < |bytes|
        ensures HexAt(Hex(bytes), 2 * k, bytes[k])
      {
        if k > 0 { assert HexAt(Hex(bytes[1..]), 2 * (k - 1), bytes[1..][k - 1]); }
      }
    }
  }

  /** Two hexadecimal digits of a string are a byte. */
  predicate HexAt(s: string, at: nat, b: Byte) {
    && at + 1 < |s| && DigitValue(s[at]) >= 0 && DigitValue(s[at + 1]) >= 0
    && 16 * DigitValue(s[at]) + DigitValue(s[at + 1]) == b
  }

  /** An id reads back: thirteen decimal digits are the time, and after a dash
      twelve hexadecimal ones are the random bytes. */
  lemma IdReadsBack(millis: nat, suffix: seq<Byte>)
    requires millis < 10_000_000_000_000 && |suffix| == 6
    ensures var id := RenderId(millis, suffix);
            && |id| == 26 && id[13] == '-'
            && AllDecimal(id[..13]) && DecimalValue(id[..13]) == millis
            && forall k | 0 <= k < 6 :: HexAt(id[14..], 2 * k, suffix[k])
  {
    TenTrillion();
    PaddedIsFixed(millis, 13);
    FixedReads(millis, 13);
    HexReads(suffix);
    var id := RenderId(millis, suffix);
    assert id[..13] == Fixed(millis, 13) && id[14..] == Hex(suffix);
  }

  /** Strings of one length compare before what follows them. */
  lemma {:induction false} LessAppend(a: string, b: string, x: string, y: string)
    requires |a| == |b|
    ensures Less(a + x, b + y) <==> Less(a, b) || (a == b && Less(x, y))
  {
    if a == [] {
      assert a + x == x && b + y == y;
    } else {
      LessAppend(a[1..], b[1..], x, y);
      assert (a + x)[1..] == a[1..] + x && (b + y)[1..] == b[1..] + y;
      assert a == [a[0]] + a[1..] && b == [b[0]] + b[1..];
      if Less(a, b) && a[0] == b[0] { assert Less(a[1..], b[1..]); }
    }
  }

  lemma LessOne(c: char, d: char)
    ensures Less([c], [d]) <==> c < d
  {
  }

  lemma {:induction false} FixedOrder(a: nat, b: nat, width: nat)
    requires a < Power10(width) && b < Power10(width)
    ensures Less(Fixed(a, width), Fixed(b, width)) <==> a < b
    ensures Fixed(a, width) == Fixed(b, width) <==> a == b
  {
    if width > 0 {
      FixedOrder(a / 10, b / 10, width - 1);
      LessAppend(Fixed(a / 10, width - 1), Fixed(b / 10, width - 1), [Digit(a % 10)], [Digit(b % 10)]);
      LessOne(Digit(a % 10), Digit(b % 10));
      var p, q := Fixed(a / 10, width - 1), Fixed(b / 10, width - 1);
      assert Fixed(a, width)[..width - 1] == p && Fixed(b, width)[..width - 1] == q;
      assert Fixed(a, width)[width - 1] == Digit(a % 10) && Fixed(b, width)[width - 1] == Digit(b % 10);
    }
  }

  predicate BytesLess(a: seq<Byte>, b: seq<Byte>) {
    if b == [] then false
    else if a == [] then true
    else if a[0] != b[0] then a[0] < b[0]
    else BytesLess(a[1..], b[1..])
  }

  lemma {:induction false} HexOrder(a: seq<Byte>, b: seq<Byte>)
    requires |a| == |b|
    ensures |Hex(a)| == |Hex(b)|
    ensures Less(Hex(a), Hex(b)) <==> BytesLess(a, b)
    ensures Hex(a) == Hex(b) <==> a == b
  {
    if a != [] {
      HexOrder(a[1..], b[1..]);
      var p, q := [Digit(a[0] / 16), Digit(a[0] % 16)], [Digit(b[0] / 16), Digit(b[0] % 16)];
      LessAppend(p, q, Hex(a[1..]), Hex(b[1..]));
      HexByteOrder(a[0], b[0]);
      assert Hex(a)[..2] == p && Hex(b)[..2] == q && Hex(a)[2..] == Hex(a[1..]) && Hex(b)[2..] == Hex(b[1..]);
      assert a == [a[0]] + a[1..] && b == [b[0]] + b[1..];
    }
  }

  lemma HexByteOrder(a: Byte, b: Byte)
    ensures var p, q := [Digit(a / 16), Digit(a % 16)], [Digit(b / 16), Digit(b % 16)];
            (Less(p, q) <==> a < b) && (p == q <==> a == b)
  {
    LessAppend([Digit(a / 16)], [Digit(b / 16)], [Digit(a % 16)], [Digit(b % 16)]);
    LessOne(Digit(a / 16), Digit(b / 16));
    LessOne(Digit(a % 16), Digit(b % 16));
  }

  lemma JoinedOrder(p: string, q: string, x: string, y: string)
    requires |p| == |q|
    ensures Less(p + "-" + x, q + "-" + y) <==> Less(p, q) || (p == q && Less(x, y))
    ensures p + "-" + x == q + "-" + y <==> p == q && x == y
  {
    var s, t := p + "-" + x, q + "-" + y;
    assert s == p + ("-" + x) && t == q + ("-" + y);
    LessAppend(p, q, "-" + x, "-" + y);
    LessAppend("-", "-", x, y);
    Irreflexive("-");
    assert s[..|p|] == p && t[..|p|] == q && s[|p| + 1..] == x && t[|p| + 1..] == y;
  }

  lemma TenTrillion()
    ensures Power10(13) == 10_000_000_000_000
  {
  }

  /** Ids compare as their creation times, and within one millisecond as their
      random suffixes. */
  lemma IdOrderIsTimeOrder(a: nat, b: nat, x: seq<Byte>, y: seq<Byte>)
    requires a < 10_000_000_000_000 && b < 10_000_000_000_000 && |x| == |y| == 6
    ensures Less(RenderId(a, x), RenderId(b, y)) <==> a < b || (a == b && BytesLess(x, y))
    ensures RenderId(a, x) == RenderId(b, y) <==> a == b && x == y
  {
    var p, q := Fixed(a, ID_WIDTH), Fixed(b, ID_WIDTH);
    TenTrillion();
    PaddedIsFixed(a, ID_WIDTH);
    PaddedIsFixed(b, ID_WIDTH);
    FixedOrder(a, b, ID_WIDTH);
    HexOrder(x, y);
    JoinedOrder(p, q, Hex(x), Hex(y));
  }

  /** A sorted directory of ids is in order of creation. */
  lemma ListingIsCreationOrder(names: seq<string>, millis: seq<nat>, suffixes: seq<seq<Byte>>)
    requires Ascending(names) && |names| == |millis| == |suffixes|
    requires forall i | 0 <= i < |names| ::
               millis[i] < 10_000_000_000_000 && |suffixes[i]| == 6
                 && names[i] == RenderId(millis[i], suffixes[i])
    ensures forall i, j | 0 <= i < j < |names| :: millis[i] <= millis[j]
  {
    forall i, j | 0 <= i < j < |names|
      ensures millis[i] <= millis[j]
    {
      IdOrderIsTimeOrder(millis[i], millis[j], suffixes[i], suffixes[j]);
    }
  }

  /** The width is what the order rests on: the first time stamp of fourteen
      digits sorts before the last of thirteen. */
  lemma FourteenDigitsSortFirst(x: seq<Byte>, y: seq<Byte>)
    ensures Less(RenderId(10_000_000_000_000, x), RenderId(9_999_999_999_999, y))
  {
    TenTrillion();
    OneAndZeros(ID_WIDTH);
    AllNines(ID_WIDTH);
    assert RenderId(Power10(ID_WIDTH), x)[0] == '1';
    assert RenderId(Power10(ID_WIDTH) - 1, y)[0] == '9';
  }

  /** Of any two times below `bound` the earlier has the lesser id. */
  ghost predicate OrderedBelow(bound: nat) {
    forall a: nat, b: nat, x: seq<Byte>, y: seq<Byte> | a < b < bound && |x| == |y| == 6 ::
      Less(RenderId(a, x), RenderId(b, y))
  }

  /** The bound is exact: ids are in order of time below 10^13 ms and no further. */
  lemma IdsAreOrderedExactly(bound: nat)
    ensures OrderedBelow(bound) <==> bound <= 10_000_000_000_000
  {
    if bound <= 10_000_000_000_000 {
      forall a: nat, b: nat, x: seq<Byte>, y: seq<Byte> | a < b < bound && |x| == |y| == 6
        ensures Less(RenderId(a, x), RenderId(b, y))
      {
        IdOrderIsTimeOrder(a, b, x, y);
      }
    } else {
      var x: seq<Byte> := [0, 0, 0, 0, 0, 0];
      var a, b := 9_999_999_999_999, 10_000_000_000_000;
      FourteenDigitsSortFirst(x, x);
      NotBoth(RenderId(a, x), RenderId(b, x));
      assert !Less(RenderId(a, x), RenderId(b, x));
    }
  }

  lemma NotBoth(s: string, t: string)
    requires Less(t, s)
    ensures !Less(s, t)
  {
    if Less(s, t) {
      Transitive(s, t, s);
      Irreflexive(s);
    }
  }

  lemma {:induction false} OneAndZeros(k: nat)
    ensures Power10(k) > 0 && |Decimal(Power10(k))| == k + 1 && Decimal(Power10(k))[0] == '1'
  {
    if k > 0 {
      OneAndZeros(k - 1);
      assert Decimal(Power10(k)) == Decimal(Power10(k - 1)) + [Digit(0)];
    }
  }

  lemma {:induction false} AllNines(k: nat)
    requires k > 0
    ensures Power10(k) > 1 && |Decimal(Power10(k) - 1)| == k && Decimal(Power10(k) - 1)[0] == '9'
  {
    if k == 1 {
      assert Power10(1) == 10 * Power10(0);
    } else {
      AllNines(k - 1);
      assert Decimal(Power10(k) - 1) == Decimal(Power10(k - 1) - 1) + [Digit(9)];
    }
  }

  // ---- Targets ----

  datatype Target = Target(agent: string, name: string) {
    function String(): string { agent + ":" + name }
  }

  const DEFAULT_AGENT := "claude"

  function ParseTarget(text: string): Option<Target> {
    var s := Trim(text);
    if s == "" then None
    else
      var i := IndexOf(s, ':');
      var agent := Trim(if i < |s| then s[..i] else DEFAULT_AGENT);
      var name := Trim(if i < |s| then s[i + 1..] else s);
      if agent == "" || name == "" then None else Some(Target(agent, name))
  }

  /** The targets that survive being written and read. */
  predicate Normal(t: Target) {
    && t.agent != "" && Trimmed(t.agent) && Lacks(':', t.agent)
    && t.name != "" && Trimmed(t.name)
  }

  lemma ParsedIsNormal(text: string)
    ensures ParseTarget(text).Some? ==> Normal(ParseTarget(text).value)
  {
    var s := Trim(text);
    var i := IndexOf(s, ':');
    var agent, name := if i < |s| then s[..i] else DEFAULT_AGENT, if i < |s| then s[i + 1..] else s;
    TrimAbsent(':', agent);
    TrimIdempotent(agent);
    TrimIdempotent(name);
  }

  /** Written and read back, a target is itself exactly when it is normal. */
  lemma TargetRoundTrip(t: Target)
    ensures ParseTarget(t.String()) == Some(t) <==> Normal(t)
  {
    ParsedIsNormal(t.String());
    if Normal(t) {
      var s := t.String();
      assert s[0] == t.agent[0] && s[|s| - 1] == t.name[|t.name| - 1];
      TrimFixed(s);
      var i := IndexOf(s, ':');
      IndexOfPrefix(t.agent, ':', t.name);
      assert s == t.agent + [':'] + t.name;
      assert s[..i] == t.agent && s[i + 1..] == t.name;
      TrimFixed(t.agent);
      TrimFixed(t.name);
    }
  }

  /** Parsing splits at the first colon and trims both sides; a blank side
      refuses the text. */
  lemma ParseSplits(x: string, y: string)
    requires Lacks(':', x)
    ensures ParseTarget(x + ":" + y) ==
            if Trim(x) == "" || Trim(y) == "" then None else Some(Target(Trim(x), Trim(y)))
  {
    var text := x + ":" + y;
    var i, j := TrimCuts(text);
    Outside(text, i, j);
    assert text[|x|] == ':';
    Cut(x, y, i, j);
    TrimInner(x, i, |x|);
    TrimInner(y, 0, j - |x| - 1);
    ParseAt(text, x[i..|x|], y[0..j - |x| - 1]);
  }

  lemma Cut(x: string, y: string, i: nat, j: nat)
    requires i <= |x| < j <= |x| + 1 + |y|
    ensures var text, k := x + ":" + y, j - |x| - 1;
            && text[i..j] == x[i..|x|] + [':'] + y[0..k]
            && text[..i] == x[..i] && text[j..] == y[k..]
            && x[|x|..] == [] && y[..0] == []
  {
  }

  lemma ParseAt(text: string, left: string, right: string)
    requires Trim(text) == left + [':'] + right && Lacks(':', left)
    ensures ParseTarget(text) ==
            if Trim(left) == "" || Trim(right) == "" then None else Some(Target(Trim(left), Trim(right)))
  {
    var s := left + [':'] + right;
    IndexOfPrefix(left, ':', right);
    assert s[..|left|] == left && s[|left| + 1..] == right;
  }

  /** Every text that names a target and the written form of that target name
      the same target, and a text without a colon names the default agent's. */
  lemma ParseIsStable(text: string)
    ensures ParseTarget(text).Some? ==> ParseTarget(ParseTarget(text).value.String()) == ParseTarget(text)
    ensures Lacks(':', text) && Trim(text) != "" ==> ParseTarget(text) == Some(Target("claude", Trim(text)))
    ensures Trim(text) == "" ==> ParseTarget(text) == None
  {
    ParsedIsNormal(text);
    if ParseTarget(text).Some? { TargetRoundTrip(ParseTarget(text).value); }
    if Lacks(':', text) {
      TrimAbsent(':', text);
      TrimIdempotent(text);
      TrimFixed(DEFAULT_AGENT);
    }
  }
}
