/**
 The canonical spelling of IP addresses in network-identity.ts, against what a spelling denotes.

 A spelling denotes numbers: four octets, or eight 16-bit groups where "::" stands for the zero
 groups that are missing, none included.  Canonicalising accepts exactly the spellings that denote
 something and prints what they denote.
 */
module IpCanonical {
  import opened Common

  // ---------------------------------------------------------------- digits

  predicate IsDigit(c: char, base: nat) {
    ('0' <= c <= '9') || (base == 16 && 'a' <= c <= 'f')
  }

  function DigitValue(c: char): nat {
    if '0' <= c <= '9' then (c - '0') as nat else if 'a' <= c <= 'f' then (c - 'a') as nat + 10 else 0
  }

  function DigitChar(d: nat): char
    requires d < 16
  {
    if d < 10 then '0' + d as char else 'a' + (d - 10) as char
  }

  predicate IsNumeral(s: string, base: nat) {
    |s| > 0 && forall k :: 0 <= k < |s| ==> IsDigit(s[k], base)
  }

  function Value(s: string, base: nat): nat {
    if s == "" then 0 else Value(s[..|s| - 1], base) * base + DigitValue(s[|s| - 1])
  }

  function Numeral(v: nat, base: nat): string
    requires 2 <= base <= 16
  {
    if v < base then [DigitChar(v)] else Numeral(v / base, base) + [DigitChar(v % base)]
  }

  function DropZeros(s: string): string {
    if s != "" && s[0] == '0' then DropZeros(s[1..]) else s
  }

  /** Leading zeros removed, a lone zero kept: for octets and groups alike. */
  function Stripped(s: string): string {
    var d := DropZeros(s);
    if d == "" then "0" else d
  }

  lemma {:induction false} DropZerosLast(p: string, c: char)
    ensures DropZeros(p + [c]) == if DropZeros(p) == "" then DropZeros([c]) else DropZeros(p) + [c]
  {
    if p == "" {
      assert p + [c] == [c];
    } else if p[0] == '0' {
      assert (p + [c])[1..] == p[1..] + [c];
      DropZerosLast(p[1..], c);
    }
  }

  lemma DigitRoundTrip(c: char, base: nat)
    requires (base == 10 || base == 16) && IsDigit(c, base)
    ensures DigitValue(c) < base && DigitChar(DigitValue(c)) == c && (DigitValue(c) == 0 <==> c == '0')
  {
  }

  lemma SumIsZero(v: nat, base: nat, d: nat)
    requires base == 10 || base == 16
    ensures v * base + d == 0 <==> v == 0 && d == 0
  {
    if base == 10 { assert v * 10 + d == 0 <==> v == 0 && d == 0; } else { assert v * 16 + d == 0 <==> v == 0 && d == 0; }
  }

  lemma {:induction false} ValueIsZero(s: string, base: nat)
    requires base == 10 || base == 16
    requires IsNumeral(s, base)
    ensures Value(s, base) == 0 <==> DropZeros(s) == ""
    decreases |s|
  {
    var p, c := s[..|s| - 1], s[|s| - 1];
    var v, d := Value(p, base), DigitValue(c);
    assert s == p + [c] && Value(s, base) == v * base + d;
    SumIsZero(v, base, d);
    DigitRoundTrip(c, base);
    DropZerosLast(p, c);
    assert DropZeros([c]) == if c == '0' then "" else [c] by { assert [c][1..] == ""; }
    if p != "" { ValueIsZero(p, base); }
  }

  lemma DivMod(v: nat, base: nat, d: nat)
    requires (base == 10 || base == 16) && d < base
    ensures (v * base + d) / base == v && (v * base + d) % base == d
    ensures v > 0 ==> v * base + d >= base
  {
    if base == 10 {
      assert (v * 10 + d) / 10 == v && (v * 10 + d) % 10 == d;
    } else {
      assert (v * 16 + d) / 16 == v && (v * 16 + d) % 16 == d;
    }
  }

  /** A numeral of a positive value, one digit longer. */
  lemma NumeralLonger(v: nat, base: nat, d: nat)
    requires (base == 10 || base == 16) && v > 0 && d < base
    ensures Numeral(v * base + d, base) == Numeral(v, base) + [DigitChar(d)]
  {
    DivMod(v, base, d);
    var longer := v * base + d;
    assert Numeral(longer, base) == Numeral(longer / base, base) + [DigitChar(longer % base)];
  }

  /** Stripping leading zeros is printing the value. */
  lemma {:induction false} StrippedIsNumeral(s: string, base: nat)
    requires base == 10 || base == 16
    requires IsNumeral(s, base)
    ensures Stripped(s) == Numeral(Value(s, base), base)
    decreases |s|
  {
    var p, c := s[..|s| - 1], s[|s| - 1];
    var v, d := Value(p, base), DigitValue(c);
    assert s == p + [c] && Value(s, base) == v * base + d;
    DropZerosLast(p, c);
    DigitRoundTrip(c, base);
    assert DropZeros([c]) == if c == '0' then "" else [c] by { assert [c][1..] == ""; }
    if p != "" { ValueIsZero(p, base); }
    if v == 0 {
      assert DropZeros(p) == "" && v * base + d == d;
      assert Numeral(d, base) == [c];
    } else {
      StrippedIsNumeral(p, base);
      NumeralLonger(v, base, d);
      assert Stripped(s) == DropZeros(p) + [c] && Stripped(p) == DropZeros(p);
    }
  }

  lemma MulMono(b: nat, x: nat, y: nat)
    requires x <= y
    ensures b * x <= b * y
  {
  }

  lemma {:induction false} NumeralRoundTrip(v: nat, base: nat)
    requires base == 10 || base == 16
    ensures IsNumeral(Numeral(v, base), base) && Value(Numeral(v, base), base) == v
    ensures Stripped(Numeral(v, base)) == Numeral(v, base)
    decreases v
  {
    var s := Numeral(v, base);
    if v < base {
      assert s[..0] == "";
      assert Value("", base) == 0;
    } else {
      NumeralRoundTrip(v / base, base);
      assert s[..|s| - 1] == Numeral(v / base, base);
    }
    StrippedIsNumeral(s, base);
  }

  lemma NumeralIsInjective(v: nat, w: nat, base: nat)
    requires base == 10 || base == 16
    requires Numeral(v, base) == Numeral(w, base)
    ensures v == w
  {
    NumeralRoundTrip(v, base);
    NumeralRoundTrip(w, base);
  }

  // ---------------------------------------------------------------- split and join

  function Split(s: string, c: char): (parts: seq<string>)
    ensures |parts| > 0
  {
    if s == "" then [""]
    else
      var rest := Split(s[1..], c);
      if s[0] == c then [""] + rest else [[s[0]] + rest[0]] + rest[1..]
  }

  function Join(parts: seq<string>, c: char): string {
    if parts == [] then "" else if |parts| == 1 then parts[0] else parts[0] + [c] + Join(parts[1..], c)
  }

  predicate Free(s: string, c: char) {
    forall k :: 0 <= k < |s| ==> s[k] != c
  }

  predicate AllFree(parts: seq<string>, c: char) {
    forall i :: 0 <= i < |parts| ==> Free(parts[i], c)
  }

  lemma {:induction false} SplitIsFree(s: string, c: char)
    ensures AllFree(Split(s, c), c)
    ensures Free(s, c) ==> Split(s, c) == [s]
    decreases |s|
  {
    if s != "" {
      SplitIsFree(s[1..], c);
      assert Free(s, c) ==> Free(s[1..], c) && s == [s[0]] + s[1..];
    }
  }

  lemma {:induction false} JoinSplit(s: string, c: char)
    ensures Join(Split(s, c), c) == s
    decreases |s|
  {
    if s != "" {
      var rest := Split(s[1..], c);
      JoinSplit(s[1..], c);
      assert s == [s[0]] + s[1..];
      if s[0] == c { JoinEmptyFirst(rest, c); } else { JoinLongerFirst(rest, s[0], c); }
    }
  }

  lemma JoinEmptyFirst(parts: seq<string>, c: char)
    requires |parts| > 0
    ensures Join([""] + parts, c) == [c] + Join(parts, c)
  {
  }

  lemma JoinLongerFirst(parts: seq<string>, d: char, c: char)
    requires |parts| > 0
    ensures Join([[d] + parts[0]] + parts[1..], c) == [d] + Join(parts, c)
  {
  }

  lemma SplitParts(s: string, c: char)
    ensures AllFree(Split(s, c), c) && Join(Split(s, c), c) == s
    ensures Free(s, c) ==> Split(s, c) == [s]
  {
  }

  lemma {:induction false} SplitFront(p: string, s: string, c: char)
    requires Free(p, c)
    ensures Split(p + [c] + s, c) == [p] + Split(s, c)
    decreases |p|
  {
    if p == "" {
      assert (p + [c] + s)[1..] == s;
    } else {
      assert (p + [c] + s)[1..] == p[1..] + [c] + s;
      SplitFront(p[1..], s, c);
      assert [p[0]] + p[1..] == p;
    }
  }

  lemma {:induction false} SplitJoin(parts: seq<string>, c: char)
    requires |parts| > 0 && AllFree(parts, c)
    ensures Split(Join(parts, c), c) == parts
    decreases |parts|
  {
    if |parts| == 1 {
      SplitParts(parts[0], c);
    } else {
      SplitJoin(parts[1..], c);
      SplitFront(parts[0], Join(parts[1..], c), c);
      assert parts == [parts[0]] + parts[1..];
    }
  }

  lemma JoinIsInjective(a: seq<string>, b: seq<string>, c: char)
    requires |a| > 0 && |b| > 0 && AllFree(a, c) && AllFree(b, c) && Join(a, c) == Join(b, c)
    ensures a == b
  {
    SplitJoin(a, c);
    SplitJoin(b, c);
  }

  /** The characters of a join are those of its parts and the separator. */
  lemma {:induction false} JoinChars(parts: seq<string>, c: char, k: nat)
    requires k < |Join(parts, c)|
    ensures Join(parts, c)[k] == c || exists i :: 0 <= i < |parts| && Join(parts, c)[k] in parts[i]
    decreases |parts|
  {
    if |parts| > 1 {
      var n := |parts[0]|;
      if k < n {
        assert Join(parts, c)[k] == parts[0][k];
      } else if k > n {
        JoinChars(parts[1..], c, k - n - 1);
        if Join(parts[1..], c)[k - n - 1] != c {
          var i :| 0 <= i < |parts[1..]| && Join(parts[1..], c)[k - n - 1] in parts[1..][i];
          assert parts[i + 1] == parts[1..][i];
        }
      }
    }
  }

  // ---------------------------------------------------------------- splitting on "::"

  /** Where the first "::" is, or the length of the text. */
  function FirstGap(s: string): (i: nat)
    ensures i <= |s|
    ensures i < |s| ==> i + 1 < |s| && s[i] == ':' && s[i + 1] == ':'
  {
    if |s| < 2 then |s|
    else if s[0] == ':' && s[1] == ':' then 0
    else 1 + FirstGap(s[1..])
  }

  /** JavaScript's split on "::". */
  function SplitGaps(s: string): (parts: seq<string>)
    ensures |parts| > 0
    decreases |s|
  {
    var i := FirstGap(s);
    if i == |s| then [s] else [s[..i]] + SplitGaps(s[i + 2..])
  }

  predicate HasGap(s: string) {
    exists i :: 0 <= i < |s| - 1 && s[i] == ':' && s[i + 1] == ':'
  }

  lemma {:induction false} FirstGapIsFirst(s: string)
    ensures FirstGap(s) < |s| <==> HasGap(s)
    ensures forall i :: 0 <= i < FirstGap(s) && i + 1 < |s| ==> !(s[i] == ':' && s[i + 1] == ':')
    decreases |s|
  {
    if |s| >= 2 && !(s[0] == ':' && s[1] == ':') {
      FirstGapIsFirst(s[1..]);
      if HasGap(s) {
        var i :| 0 <= i < |s| - 1 && s[i] == ':' && s[i + 1] == ':';
        assert s[1..][i - 1] == ':' && s[1..][i] == ':';
      }
      forall i | 0 <= i < FirstGap(s) && i + 1 < |s| ensures !(s[i] == ':' && s[i + 1] == ':') {
        if i > 0 { assert s[1..][i - 1] == s[i] && s[1..][i] == s[i + 1]; }
      }
    }
  }

  lemma SplitGapsWithout(s: string)
    requires !HasGap(s)
    ensures SplitGaps(s) == [s]
  {
  }

  /** Two halves exactly when the text is a, "::", b with no further "::" and none earlier. */
  lemma SplitGapsOnce(a: string, b: string)
    requires !HasGap(a) && !HasGap(b) && (a != "" ==> a[|a| - 1] != ':')
    ensures SplitGaps(a + "::" + b) == [a, b]
  {
    var s := a + "::" + b;
    FirstGapIsFirst(s);
    var i := FirstGap(s);
    assert s[|a|] == ':' && s[|a| + 1] == ':';
    assert forall j | 0 <= j < |a| :: s[j] == a[j];
    assert i == |a|;
    assert s[..i] == a && s[i + 2..] == b;
    SplitGapsWithout(b);
  }

  // ---------------------------------------------------------------- IPv4

  predicate OctetText(p: string) {
    1 <= |p| <= 3 && IsNumeral(p, 10) && Value(p, 10) <= 255
  }

  predicate Octets(o: seq<nat>) {
    |o| == 4 && forall i :: 0 <= i < 4 ==> o[i] <= 255
  }

  /** The text is four decimal numbers, leading zeros allowed, that denote `o`. */
  ghost predicate SpellsIpv4(s: string, o: seq<nat>) {
    exists parts: seq<string> ::
      |parts| == 4 && s == Join(parts, '.') && Octets(o)
      && forall i :: 0 <= i < 4 ==> OctetText(parts[i]) && Value(parts[i], 10) == o[i]
  }

  function Numerals(values: seq<nat>, base: nat): (parts: seq<string>)
    requires 2 <= base <= 16
    ensures |parts| == |values|
    ensures forall i :: 0 <= i < |values| ==> parts[i] == Numeral(values[i], base)
  {
    seq(|values|, i requires 0 <= i < |values| => Numeral(values[i], base))
  }

  function PrintIpv4(o: seq<nat>): string { Join(Numerals(o, 10), '.') }

  function StrippedAll(parts: seq<string>): (r: seq<string>)
    ensures |r| == |parts|
    ensures forall i :: 0 <= i < |parts| ==> r[i] == Stripped(parts[i])
  {
    seq(|parts|, i requires 0 <= i < |parts| => Stripped(parts[i]))
  }

  function CanonicalIpv4(s: string): Option<string> {
    var parts := Split(s, '.');
    if |parts| == 4 && forall i :: 0 <= i < 4 ==> OctetText(parts[i]) then Some(Join(StrippedAll(parts), '.')) else None
  }

  /** canonicalizeIpv4Address: the loop over the parts. */
  method CanonicalizeIpv4Address(s: string) returns (canonical: Option<string>)
    ensures canonical == CanonicalIpv4(s)
  {
    var parts := Split(s, '.');
    if |parts| != 4 { return None; }
    var octets: seq<string> := [];
    for i := 0 to 4
      invariant |octets| == i
      invariant forall k :: 0 <= k < i ==> OctetText(parts[k]) && octets[k] == Stripped(parts[k])
    {
      if !(1 <= |parts[i]| <= 3 && IsNumeral(parts[i], 10)) { return None; }
      if Value(parts[i], 10) > 255 { return None; }
      StrippedIsNumeral(parts[i], 10);
      octets := octets + [Numeral(Value(parts[i], 10), 10)];
    }
    assert octets == StrippedAll(parts);
    return Some(Join(octets, '.'));
  }

  lemma NumeralsAreFree(values: seq<nat>, base: nat, c: char)
    requires (base == 10 || base == 16) && !IsDigit(c, 16)
    ensures AllFree(Numerals(values, base), c)
  {
    forall i | 0 <= i < |values| ensures Free(Numerals(values, base)[i], c) { NumeralRoundTrip(values[i], base); }
  }

  /** An IPv4 text is accepted exactly when it denotes four octets, and is printed as what it denotes. */
  lemma Ipv4AcceptsExactlySpellings(s: string, o: seq<nat>)
    ensures SpellsIpv4(s, o) ==> CanonicalIpv4(s) == Some(PrintIpv4(o))
    ensures CanonicalIpv4(s).Some? ==> exists p :: SpellsIpv4(s, p)
  {
    if SpellsIpv4(s, o) {
      var parts: seq<string> :| |parts| == 4 && s == Join(parts, '.') && Octets(o)
        && forall i :: 0 <= i < 4 ==> OctetText(parts[i]) && Value(parts[i], 10) == o[i];
      SplitJoin(parts, '.');
      forall i | 0 <= i < 4 ensures StrippedAll(parts)[i] == Numerals(o, 10)[i] { StrippedIsNumeral(parts[i], 10); }
      assert StrippedAll(parts) == Numerals(o, 10);
    }
    if CanonicalIpv4(s).Some? {
      var parts := Split(s, '.');
      SplitParts(s, '.');
      var p := seq(4, i requires 0 <= i < 4 => Value(parts[i], 10));
      assert SpellsIpv4(s, p);
    }
  }

  lemma PrintedIpv4Spells(o: seq<nat>)
    requires Octets(o)
    ensures SpellsIpv4(PrintIpv4(o), o)
  {
    var parts := Numerals(o, 10);
    forall i | 0 <= i < 4 ensures OctetText(parts[i]) && Value(parts[i], 10) == o[i] {
      NumeralRoundTrip(o[i], 10);
      NumeralLength(o[i], 10, if o[i] < 10 then 1 else if o[i] < 100 then 2 else 3);
    }
  }

  function Power(base: nat, n: nat): nat { if n == 0 then 1 else base * Power(base, n - 1) }

  lemma QuotientBelow(v: nat, b: nat, p: nat)
    requires b > 0 && v < b * p
    ensures v / b < p
  {
  }

  lemma {:induction false} NumeralLength(v: nat, base: nat, n: nat)
    requires (base == 10 || base == 16) && n > 0 && v < Power(base, n)
    ensures |Numeral(v, base)| <= n
    decreases n
  {
    if v >= base {
      assert n > 1;
      QuotientBelow(v, base, Power(base, n - 1));
      NumeralLength(v / base, base, n - 1);
    }
  }

  lemma PrintIpv4IsInjective(o: seq<nat>, p: seq<nat>)
    requires Octets(o) && Octets(p) && PrintIpv4(o) == PrintIpv4(p)
    ensures o == p
  {
    NumeralsAreFree(o, 10, '.');
    NumeralsAreFree(p, 10, '.');
    JoinIsInjective(Numerals(o, 10), Numerals(p, 10), '.');
    forall i | 0 <= i < 4 ensures o[i] == p[i] {
      assert Numerals(o, 10)[i] == Numerals(p, 10)[i];
      NumeralIsInjective(o[i], p[i], 10);
    }
  }

  // ---------------------------------------------------------------- IPv6

  predicate GroupText(t: string) {
    1 <= |t| <= 4 && IsNumeral(t, 16)
  }

  predicate GroupTexts(parts: seq<string>) {
    forall i :: 0 <= i < |parts| ==> GroupText(parts[i])
  }

  predicate Groups(g: seq<nat>) {
    |g| == 8 && forall i :: 0 <= i < 8 ==> g[i] < 0x1_0000
  }

  function Values(parts: seq<string>): (r: seq<nat>)
    ensures |r| == |parts|
    ensures forall i :: 0 <= i < |parts| ==> r[i] == Value(parts[i], 16)
  {
    seq(|parts|, i requires 0 <= i < |parts| => Value(parts[i], 16))
  }

  function Zeros(n: nat): seq<nat> { seq(n, i => 0) }

  /** Groups before and after the gap; a text without a gap has all eight before it. */
  predicate SpelledBy(s: string, g: seq<nat>, head: seq<string>, gap: bool, tail: seq<string>) {
    && GroupTexts(head) && GroupTexts(tail) && |head| + |tail| <= 8
    && (if gap then s == Join(head, ':') + "::" + Join(tail, ':') else tail == [] && |head| == 8 && s == Join(head, ':'))
    && g == Values(head) + Zeros(8 - |head| - |tail|) + Values(tail)
  }

  /** The text, in lower case, denotes the eight groups `g`. */
  ghost predicate SpellsIpv6(s: string, g: seq<nat>) {
    exists head, gap, tail :: SpelledBy(s, g, head, gap, tail)
  }

  function PrintIpv6(g: seq<nat>): string { Join(Numerals(g, 16), ':') }

  function Parts(half: string): seq<string> { if half != "" then Split(half, ':') else [] }

  function ZeroTexts(n: nat): seq<string> { seq(n, i => "0") }

  predicate HexOrColon(s: string) {
    forall k :: 0 <= k < |s| ==> IsDigit(s[k], 16) || s[k] == ':'
  }

  /** canonicalizeIpv6Address after brackets and zone are gone. */
  function CanonicalGroups(s: string): Option<string> {
    if s == "" || !HexOrColon(s) then None
    else
      var halves := SplitGaps(s);
      if |halves| > 2 then None
      else Assembled(Parts(halves[0]), |halves| == 2, if |halves| == 2 then Parts(halves[1]) else [])
  }

  /** Eight groups from those before and after the gap, zeros in between. */
  function Assembled(head: seq<string>, gap: bool, tail: seq<string>): Option<string> {
    if !GroupTexts(head) || !GroupTexts(tail) || (!gap && |head| != 8) || |head| + |tail| > 8 then None
    else Some(Join(StrippedAll(head) + ZeroTexts(8 - |head| - |tail|) + StrippedAll(tail), ':'))
  }

  lemma {:induction false} JoinOfGroups(parts: seq<string>)
    requires GroupTexts(parts)
    ensures !HasGap(Join(parts, ':')) && HexOrColon(Join(parts, ':'))
    ensures parts != [] ==> Join(parts, ':') != "" && Join(parts, ':')[0] != ':' && Join(parts, ':')[|Join(parts, ':')| - 1] != ':'
    ensures Parts(Join(parts, ':')) == parts
    decreases |parts|
  {
    if |parts| == 1 {
      assert Join(parts, ':') == parts[0];
    } else if |parts| > 1 {
      var rest := Join(parts[1..], ':');
      JoinOfGroups(parts[1..]);
      GapInJoin(parts[0], rest);
    }
    if parts != [] { SplitJoin(parts, ':'); }
  }

  lemma GapInJoin(p: string, rest: string)
    requires GroupText(p) && !HasGap(rest) && rest != "" && rest[0] != ':'
    ensures !HasGap(p + [':'] + rest)
  {
  }

  lemma StrippedGroups(head: seq<string>, tail: seq<string>, g: seq<nat>)
    requires GroupTexts(head) && GroupTexts(tail) && |head| + |tail| <= 8
    requires g == Values(head) + Zeros(8 - |head| - |tail|) + Values(tail)
    ensures StrippedAll(head) + ZeroTexts(8 - |head| - |tail|) + StrippedAll(tail) == Numerals(g, 16)
  {
    var texts := StrippedAll(head) + ZeroTexts(8 - |head| - |tail|) + StrippedAll(tail);
    forall i | 0 <= i < 8 ensures texts[i] == Numeral(g[i], 16) {
      if i < |head| {
        StrippedIsNumeral(head[i], 16);
      } else if i >= 8 - |tail| {
        StrippedIsNumeral(tail[i - (8 - |tail|)], 16);
      }
    }
  }

  lemma HexOrColonJoins(a: string, b: string)
    requires HexOrColon(a) && HexOrColon(b)
    ensures HexOrColon(a + "::" + b)
  {
  }

  /** Splitting a spelling finds its halves, and the halves their groups. */
  lemma HalvesOfSpelling(s: string, g: seq<nat>, head: seq<string>, gap: bool, tail: seq<string>)
    requires SpelledBy(s, g, head, gap, tail)
    ensures s != "" && HexOrColon(s)
    ensures if gap then SplitGaps(s) == [Join(head, ':'), Join(tail, ':')] else SplitGaps(s) == [Join(head, ':')]
    ensures Parts(Join(head, ':')) == head && Parts(Join(tail, ':')) == tail
  {
    JoinOfGroups(head);
    JoinOfGroups(tail);
    if gap {
      SplitGapsOnce(Join(head, ':'), Join(tail, ':'));
      HexOrColonJoins(Join(head, ':'), Join(tail, ':'));
    } else {
      SplitGapsWithout(s);
    }
  }

  lemma AssembledSpelling(s: string, g: seq<nat>, head: seq<string>, gap: bool, tail: seq<string>)
    requires SpelledBy(s, g, head, gap, tail)
    ensures Assembled(head, gap, tail) == Some(PrintIpv6(g))
  {
    StrippedGroups(head, tail, g);
  }

  /** Which groups canonicalising sees, given the halves. */
  lemma CanonicalFromHalves(s: string, a: string, gap: bool, b: string)
    requires s != "" && HexOrColon(s) && SplitGaps(s) == if gap then [a, b] else [a]
    ensures CanonicalGroups(s) == Assembled(Parts(a), gap, if gap then Parts(b) else [])
  {
  }

  /** A spelling is accepted and printed as the groups it denotes. */
  lemma SpellingIsAccepted(s: string, g: seq<nat>, head: seq<string>, gap: bool, tail: seq<string>)
    requires SpelledBy(s, g, head, gap, tail)
    ensures CanonicalGroups(s) == Some(PrintIpv6(g))
  {
    HalvesOfSpelling(s, g, head, gap, tail);
    CanonicalFromHalves(s, Join(head, ':'), gap, Join(tail, ':'));
    AssembledSpelling(s, g, head, gap, tail);
  }

  lemma SplitGapsText(s: string)
    ensures |SplitGaps(s)| == 1 ==> SplitGaps(s) == [s]
    ensures |SplitGaps(s)| == 2 ==> s == SplitGaps(s)[0] + "::" + SplitGaps(s)[1]
  {
  }

  lemma PartsJoin(half: string)
    ensures Join(Parts(half), ':') == half
  {
    if half != "" { SplitParts(half, ':'); }
  }

  /** Only spellings are accepted. */
  lemma AcceptedIsSpelling(s: string)
    requires CanonicalGroups(s).Some?
    ensures exists g :: SpellsIpv6(s, g)
  {
    var halves := SplitGaps(s);
    SplitGapsText(s);
    var head, tail := Parts(halves[0]), if |halves| == 2 then Parts(halves[1]) else [];
    PartsJoin(halves[0]);
    if |halves| == 2 { PartsJoin(halves[1]); }
    var g := Values(head) + Zeros(8 - |head| - |tail|) + Values(tail);
    assert SpelledBy(s, g, head, |halves| == 2, tail);
    assert SpellsIpv6(s, g);
  }

  /** Accepted exactly when it spells eight groups, and then printed as they are. */
  lemma Ipv6AcceptsExactlySpellings(s: string)
    ensures CanonicalGroups(s).Some? <==> exists g :: SpellsIpv6(s, g)
    ensures forall g | SpellsIpv6(s, g) :: CanonicalGroups(s) == Some(PrintIpv6(g))
  {
    forall g | SpellsIpv6(s, g) ensures CanonicalGroups(s) == Some(PrintIpv6(g)) {
      var head, gap, tail :| SpelledBy(s, g, head, gap, tail);
      SpellingIsAccepted(s, g, head, gap, tail);
    }
    if CanonicalGroups(s).Some? { AcceptedIsSpelling(s); }
  }

  lemma SpelledGroupsAreGroups(s: string, g: seq<nat>)
    requires SpellsIpv6(s, g)
    ensures Groups(g)
  {
    var head, gap, tail :| SpelledBy(s, g, head, gap, tail);
    forall i | 0 <= i < 8 ensures g[i] < 0x1_0000 {
      if i < |head| {
        GroupValue(head[i]);
      } else if i >= 8 - |tail| {
        GroupValue(tail[i - (8 - |tail|)]);
      }
    }
  }

  lemma GroupValue(t: string)
    requires GroupText(t)
    ensures Value(t, 16) < 0x1_0000
  {
    ValueBelow(t, 16);
    assert Power(16, 1) == 16 && Power(16, 2) == 256 && Power(16, 3) == 4096 && Power(16, 4) == 0x1_0000;
  }

  lemma {:induction false} ValueBelow(t: string, base: nat)
    requires (base == 10 || base == 16) && IsNumeral(t, base)
    ensures Value(t, base) < Power(base, |t|)
    decreases |t|
  {
    var p := t[..|t| - 1];
    assert Value("", base) == 0 && Power(base, 0) == 1;
    if p != "" { ValueBelow(p, base); }
    MulMono(base, Value(p, base) + 1, Power(base, |p|));
  }

  lemma PrintedIpv6Spells(g: seq<nat>)
    requires Groups(g)
    ensures SpellsIpv6(PrintIpv6(g), g)
  {
    var parts := Numerals(g, 16);
    forall i | 0 <= i < 8 ensures GroupText(parts[i]) && Value(parts[i], 16) == g[i] {
      NumeralRoundTrip(g[i], 16);
      assert Power(16, 1) == 16 && Power(16, 2) == 256 && Power(16, 3) == 4096 && Power(16, 4) == 0x1_0000;
      NumeralLength(g[i], 16, 4);
    }
    assert g == Values(parts) + Zeros(0) + Values([]);
    assert SpelledBy(PrintIpv6(g), g, parts, false, []);
  }

  lemma PrintIpv6IsInjective(g: seq<nat>, h: seq<nat>)
    requires Groups(g) && Groups(h) && PrintIpv6(g) == PrintIpv6(h)
    ensures g == h
  {
    NumeralsAreFree(g, 16, ':');
    NumeralsAreFree(h, 16, ':');
    JoinIsInjective(Numerals(g, 16), Numerals(h, 16), ':');
    forall i | 0 <= i < 8 ensures g[i] == h[i] {
      assert Numerals(g, 16)[i] == Numerals(h, 16)[i];
      NumeralIsInjective(g[i], h[i], 16);
    }
  }

  // ---------------------------------------------------------------- the whole normalisation

  function LowerChar(c: char): char { if 'A' <= c <= 'Z' then 'a' + (c - 'A') else c }

  function Lower(s: string): (r: string)
    ensures |r| == |s|
  {
    seq(|s|, i requires 0 <= i < |s| => LowerChar(s[i]))
  }

  function IndexOf(s: string, c: char): (i: nat)
    ensures i <= |s| && (i < |s| ==> s[i] == c)
  {
    if s == "" then 0 else if s[0] == c then 0 else 1 + IndexOf(s[1..], c)
  }

  function LastIndexOf(s: string, c: char): (i: int)
    ensures -1 <= i < |s| && (i >= 0 ==> s[i] == c)
  {
    if s == "" then -1 else if s[|s| - 1] == c then |s| - 1 else LastIndexOf(s[..|s| - 1], c)
  }

  /** Lower case, without brackets and zone. */
  function Body(s: string): string {
    var lower := Lower(s);
    var inner := if |lower| >= 2 && lower[0] == '[' && lower[|lower| - 1] == ']' then lower[1..|lower| - 1] else lower;
    inner[..IndexOf(inner, '%')]
  }

  function CanonicalIpv6(s: string): Option<string> { CanonicalGroups(Body(s)) }

  /** canonicalizeEmbeddedIpv4Address */
  function CanonicalEmbedded(s: string): Option<string> {
    var separator := LastIndexOf(s, ':');
    if separator < 0 then None
    else
      var ipv4 := CanonicalIpv4(s[separator + 1..]);
      if ipv4.None? then None
      else
        var head := Lower(s[..separator]);
        if head in {"", ":", "::", "::ffff", "0:0:0:0:0:ffff"} then ipv4 else EmbeddedAsIpv6(s[..separator], ipv4.value)
  }

  /** A front with two more groups. */
  function HexTail(front: string, high: nat, low: nat): string {
    front + ":" + Numeral(high, 16) + ":" + Numeral(low, 16)
  }

  /** The four parts of a dotted tail as the last two groups. */
  function TailText(front: string, o: seq<string>): string
    requires |o| == 4
  {
    HexTail(front, Value(o[0], 10) * 256 + Value(o[1], 10), Value(o[2], 10) * 256 + Value(o[3], 10))
  }

  /** The dotted tail rewritten. */
  function EmbeddedAsIpv6(front: string, ipv4: string): Option<string> {
    var o := Split(ipv4, '.');
    if |o| != 4 then None else CanonicalIpv6(TailText(front, o))
  }

  predicate JsSpace(c: char) {
    c in {' ', '\t', '\n', '\r', '\U{000B}', '\U{000C}', '\U{00A0}', '\U{1680}', '\U{2028}', '\U{2029}', '\U{202F}', '\U{205F}', '\U{3000}', '\U{FEFF}'}
    || '\U{2000}' <= c <= '\U{200A}'
  }

  function TrimLeft(s: string): string { if s != "" && JsSpace(s[0]) then TrimLeft(s[1..]) else s }

  function TrimRight(s: string): string { if s != "" && JsSpace(s[|s| - 1]) then TrimRight(s[..|s| - 1]) else s }

  predicate Forbidden(c: char) {
    JsSpace(c) || c == '"' || c == '\'' || c == '\\'
  }

  predicate Admissible(s: string) {
    0 < |s| <= 256 && forall k :: 0 <= k < |s| ==> !Forbidden(s[k])
  }

  /** normalizeNetworkIdentityIp */
  function Normalize(ip: string): Option<string> {
    var s := TrimRight(TrimLeft(ip));
    if !Admissible(s) then None
    else if ':' in s then (if '.' in s then CanonicalEmbedded(s) else CanonicalIpv6(s))
    else if '.' in s then CanonicalIpv4(s)
    else None
  }

  /** What a canonical address is: four printed octets or eight printed groups. */
  ghost predicate Canonical(c: string) {
    (exists o :: Octets(o) && c == PrintIpv4(o)) || (exists g :: Groups(g) && c == PrintIpv6(g))
  }

  lemma CanonicalIpv6IsPrinted(s: string)
    requires CanonicalIpv6(s).Some?
    ensures Canonical(CanonicalIpv6(s).value)
  {
    Ipv6AcceptsExactlySpellings(Body(s));
    var g :| SpellsIpv6(Body(s), g);
    SpelledGroupsAreGroups(Body(s), g);
  }

  lemma CanonicalIpv4IsPrinted(s: string)
    requires CanonicalIpv4(s).Some?
    ensures Canonical(CanonicalIpv4(s).value)
  {
    Ipv4AcceptsExactlySpellings(s, []);
    var o :| SpellsIpv4(s, o);
    Ipv4AcceptsExactlySpellings(s, o);
  }

  lemma EmbeddedAsIpv6IsPrinted(front: string, ipv4: string)
    requires EmbeddedAsIpv6(front, ipv4).Some?
    ensures Canonical(EmbeddedAsIpv6(front, ipv4).value)
  {
    var o := Split(ipv4, '.');
    CanonicalIpv6IsPrinted(TailText(front, o));
  }

  lemma CanonicalEmbeddedIsPrinted(s: string)
    requires CanonicalEmbedded(s).Some?
    ensures Canonical(CanonicalEmbedded(s).value)
  {
    var separator := LastIndexOf(s, ':');
    var ipv4 := CanonicalIpv4(s[separator + 1..]);
    CanonicalIpv4IsPrinted(s[separator + 1..]);
    if CanonicalEmbedded(s) != ipv4 { EmbeddedAsIpv6IsPrinted(s[..separator], ipv4.value); }
  }

  lemma NormalizedIsCanonical(ip: string)
    requires Normalize(ip).Some?
    ensures Canonical(Normalize(ip).value)
  {
    var s := TrimRight(TrimLeft(ip));
    if ':' !in s {
      CanonicalIpv4IsPrinted(s);
    } else if '.' !in s {
      CanonicalIpv6IsPrinted(s);
    } else {
      CanonicalEmbeddedIsPrinted(s);
    }
  }

  // ---------------------------------------------------------------- idempotence

  /** Only digits and separators: what printed addresses consist of. */
  predicate Plain(s: string) {
    forall k :: 0 <= k < |s| ==> IsDigit(s[k], 16) || s[k] == ':' || s[k] == '.'
  }

  lemma PlainIsAdmissible(s: string)
    requires Plain(s) && 0 < |s| <= 256
    ensures TrimRight(TrimLeft(s)) == s && Admissible(s) && Lower(s) == s && Body(s) == s
  {
    assert forall k | 0 <= k < |s| :: !Forbidden(s[k]) && LowerChar(s[k]) == s[k] && s[k] != '%' && s[k] != '[';
    assert !JsSpace(s[0]) && !JsSpace(s[|s| - 1]);
    IndexOfAbsent(s, '%');
  }

  lemma {:induction false} IndexOfAbsent(s: string, c: char)
    requires Free(s, c)
    ensures IndexOf(s, c) == |s|
    decreases |s|
  {
    if s != "" {
      assert Free(s[1..], c);
      IndexOfAbsent(s[1..], c);
    }
  }

  lemma {:induction false} JoinLength(parts: seq<string>, c: char, n: nat)
    requires forall i :: 0 <= i < |parts| ==> 0 < |parts[i]| <= n
    ensures |Join(parts, c)| <= |parts| * (n + 1)
    ensures |parts| > 0 ==> |Join(parts, c)| > 0
    ensures |parts| > 1 ==> c in Join(parts, c)
    decreases |parts|
  {
    if |parts| > 1 {
      JoinLength(parts[1..], c, n);
      assert Join(parts, c)[|parts[0]|] == c;
      assert |parts| * (n + 1) == |parts[1..]| * (n + 1) + (n + 1) by { MulSucc(|parts[1..]|, n + 1); }
    }
  }

  lemma MulSucc(k: nat, m: nat)
    ensures (k + 1) * m == k * m + m
  {
  }

  lemma PrintedChars(values: seq<nat>, base: nat, c: char, k: nat)
    requires (base == 10 || base == 16) && k < |Join(Numerals(values, base), c)|
    ensures IsDigit(Join(Numerals(values, base), c)[k], 16) || Join(Numerals(values, base), c)[k] == c
  {
    JoinChars(Numerals(values, base), c, k);
    var d := Join(Numerals(values, base), c)[k];
    if d != c {
      var i :| 0 <= i < |values| && d in Numerals(values, base)[i];
      NumeralRoundTrip(values[i], base);
    }
  }

  lemma PrintedIpv4IsNormal(o: seq<nat>)
    requires Octets(o)
    ensures Normalize(PrintIpv4(o)) == Some(PrintIpv4(o))
  {
    var s := PrintIpv4(o);
    forall i | 0 <= i < 4 ensures 0 < |Numerals(o, 10)[i]| <= 3 {
      NumeralRoundTrip(o[i], 10);
      NumeralLength(o[i], 10, if o[i] < 10 then 1 else if o[i] < 100 then 2 else 3);
    }
    JoinLength(Numerals(o, 10), '.', 3);
    forall k | 0 <= k < |s| ensures IsDigit(s[k], 16) || s[k] == '.' { PrintedChars(o, 10, '.', k); }
    PlainIsAdmissible(s);
    assert ':' !in s;
    PrintedIpv4Spells(o);
    Ipv4AcceptsExactlySpellings(s, o);
  }

  lemma PrintedIpv6IsNormal(g: seq<nat>)
    requires Groups(g)
    ensures Normalize(PrintIpv6(g)) == Some(PrintIpv6(g))
  {
    var s := PrintIpv6(g);
    forall i | 0 <= i < 8 ensures 0 < |Numerals(g, 16)[i]| <= 4 {
      NumeralRoundTrip(g[i], 16);
      assert Power(16, 1) == 16 && Power(16, 2) == 256 && Power(16, 3) == 4096 && Power(16, 4) == 0x1_0000;
      NumeralLength(g[i], 16, 4);
    }
    JoinLength(Numerals(g, 16), ':', 4);
    forall k | 0 <= k < |s| ensures IsDigit(s[k], 16) || s[k] == ':' { PrintedChars(g, 16, ':', k); }
    PlainIsAdmissible(s);
    assert '.' !in s;
    PrintedIpv6Spells(g);
    Ipv6AcceptsExactlySpellings(s);
  }

  /** Normalising a normal form changes nothing, whatever the accepted spelling was. */
  lemma NormalizeIsIdempotent(ip: string)
    requires Normalize(ip).Some?
    ensures Normalize(Normalize(ip).value) == Normalize(ip)
  {
    NormalizedIsCanonical(ip);
    var c := Normalize(ip).value;
    if o: seq<nat> :| Octets(o) && c == PrintIpv4(o) {
      PrintedIpv4IsNormal(o);
    } else {
      var g :| Groups(g) && c == PrintIpv6(g);
      PrintedIpv6IsNormal(g);
    }
  }

  /** Two accepted hexadecimal spellings have one normal form exactly when they denote the same groups. */
  lemma SameCanonicalExactlySameGroups(s: string, t: string, g: seq<nat>, h: seq<nat>)
    requires SpellsIpv6(Body(s), g) && SpellsIpv6(Body(t), h)
    ensures CanonicalIpv6(s) == CanonicalIpv6(t) <==> g == h
  {
    Ipv6AcceptsExactlySpellings(Body(s));
    Ipv6AcceptsExactlySpellings(Body(t));
    SpelledGroupsAreGroups(Body(s), g);
    SpelledGroupsAreGroups(Body(t), h);
    if PrintIpv6(g) == PrintIpv6(h) { PrintIpv6IsInjective(g, h); }
  }

  /** Likewise for dotted decimal spellings and their octets. */
  lemma SameCanonicalExactlySameOctets(s: string, t: string, o: seq<nat>, p: seq<nat>)
    requires SpellsIpv4(s, o) && SpellsIpv4(t, p)
    ensures CanonicalIpv4(s) == CanonicalIpv4(t) <==> o == p
  {
    Ipv4AcceptsExactlySpellings(s, o);
    Ipv4AcceptsExactlySpellings(t, p);
    if PrintIpv4(o) == PrintIpv4(p) { PrintIpv4IsInjective(o, p); }
  }

  // ---------------------------------------------------------------- prefixes

  function NonEmpty(parts: seq<string>): seq<string> {
    if parts == [] then [] else (if parts[0] != "" then [parts[0]] else []) + NonEmpty(parts[1..])
  }

  function Take(parts: seq<string>, n: nat): seq<string> { if |parts| <= n then parts else parts[..n] }

  /** normalizeNetworkIdentityPrefix */
  function Prefix(normalized: string): string {
    if ':' in normalized then Join(Take(NonEmpty(Split(normalized, ':')), 4), ':')
    else Join(Take(Split(normalized, '.'), 3), '.')
  }

  lemma {:induction false} NonEmptyKeepsAll(parts: seq<string>)
    requires forall i :: 0 <= i < |parts| ==> parts[i] != ""
    ensures NonEmpty(parts) == parts
    decreases |parts|
  {
    if parts != [] {
      NonEmptyKeepsAll(parts[1..]);
      assert parts == [parts[0]] + parts[1..];
    }
  }

  lemma PrefixOfPrinted(g: seq<nat>)
    requires Groups(g)
    ensures Prefix(PrintIpv6(g)) == Join(Numerals(g[..4], 16), ':')
  {
    var parts := Numerals(g, 16);
    NumeralsAreFree(g, 16, ':');
    SplitJoin(parts, ':');
    forall i | 0 <= i < 8 ensures parts[i] != "" { NumeralRoundTrip(g[i], 16); }
    NonEmptyKeepsAll(parts);
    assert PrintIpv6(g)[|parts[0]|] == ':';
    assert parts[..4] == Numerals(g[..4], 16);
  }

  /** Two normalised IPv6 addresses have one prefix exactly when their first four groups agree. */
  lemma SamePrefixExactlySameNetwork(g: seq<nat>, h: seq<nat>)
    requires Groups(g) && Groups(h)
    ensures Prefix(PrintIpv6(g)) == Prefix(PrintIpv6(h)) <==> g[..4] == h[..4]
  {
    PrefixOfPrinted(g);
    PrefixOfPrinted(h);
    if Prefix(PrintIpv6(g)) == Prefix(PrintIpv6(h)) {
      NumeralsAreFree(g[..4], 16, ':');
      NumeralsAreFree(h[..4], 16, ':');
      JoinIsInjective(Numerals(g[..4], 16), Numerals(h[..4], 16), ':');
      forall i | 0 <= i < 4 ensures g[..4][i] == h[..4][i] {
        assert Numerals(g[..4], 16)[i] == Numerals(h[..4], 16)[i];
        NumeralIsInjective(g[i], h[i], 16);
      }
    }
  }
}
