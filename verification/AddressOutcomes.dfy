/**
 The whole normalisation of network-identity.ts from the text a client sends: what surrounds an address
 and is ignored, what is refused, and which of the three readings an address gets.
 */
module AddressOutcomes {
  import opened Common
  import opened IpCanonical

  // ---------------------------------------------------------------- surroundings

  predicate Spaces(s: string) {
    forall k :: 0 <= k < |s| ==> JsSpace(s[k])
  }

  lemma {:induction false} TrimLeftDrops(before: string, s: string)
    requires Spaces(before)
    ensures TrimLeft(before + s) == TrimLeft(s)
    decreases |before|
  {
    if before == "" {
      assert before + s == s;
    } else {
      assert (before + s)[1..] == before[1..] + s;
      TrimLeftDrops(before[1..], s);
    }
  }

  lemma {:induction false} TrimRightDrops(s: string, after: string)
    requires Spaces(after)
    ensures TrimRight(s + after) == TrimRight(s)
    decreases |after|
  {
    if after == "" {
      assert s + after == s;
    } else {
      assert (s + after)[..|s + after| - 1] == s + after[..|after| - 1];
      TrimRightDrops(s, after[..|after| - 1]);
    }
  }

  lemma {:induction false} TrimLeftKeeps(s: string, after: string)
    ensures TrimLeft(s + after) == if TrimLeft(s) == "" then TrimLeft(after) else TrimLeft(s) + after
    decreases |s|
  {
    if s == "" {
      assert s + after == after;
    } else if JsSpace(s[0]) {
      assert (s + after)[1..] == s[1..] + after;
      TrimLeftKeeps(s[1..], after);
    }
  }

  /** Space around an address is ignored. */
  lemma OuterSpaceIsIgnored(before: string, ip: string, after: string)
    requires Spaces(before) && Spaces(after)
    ensures Normalize(before + ip + after) == Normalize(ip)
  {
    assert before + ip + after == before + (ip + after);
    TrimLeftDrops(before, ip + after);
    TrimLeftKeeps(ip, after);
    if TrimLeft(ip) == "" {
      assert after + "" == after;
      TrimLeftDrops(after, "");
    } else {
      TrimRightDrops(TrimLeft(ip), after);
    }
  }

  /** A text that begins and ends with neither space nor anything refused is read as it stands. */
  predicate ReadAsIs(s: string) {
    0 < |s| <= 256 && forall k :: 0 <= k < |s| ==> !JsSpace(s[k]) && s[k] != '"' && s[k] != '\'' && s[k] != '\\'
  }

  lemma TrimmedAlready(s: string)
    requires s != "" ==> !JsSpace(s[0]) && !JsSpace(s[|s| - 1])
    ensures TrimRight(TrimLeft(s)) == s
  {
  }

  /** Space or a quote within, nothing at all, or more than 256 characters: refused. */
  lemma UnreadableIsRefused(s: string)
    requires s != "" ==> !JsSpace(s[0]) && !JsSpace(s[|s| - 1])
    ensures !ReadAsIs(s) ==> Normalize(s) == None
  {
    TrimmedAlready(s);
  }

  /** A text with neither colon nor dot is no address; one with dots alone is one exactly when it spells four octets. */
  lemma DottedIsRead(s: string, o: seq<nat>)
    requires ReadAsIs(s) && ':' !in s
    ensures '.' !in s ==> Normalize(s) == None
    ensures '.' in s && SpellsIpv4(s, o) ==> Normalize(s) == Some(PrintIpv4(o))
    ensures (forall p :: !SpellsIpv4(s, p)) ==> Normalize(s) == None
  {
    TrimmedAlready(s);
    Ipv4AcceptsExactlySpellings(s, o);
  }

  // ---------------------------------------------------------------- hexadecimal addresses

  lemma {:induction false} IndexOfFirst(a: string, b: string, c: char)
    requires Free(a, c)
    ensures IndexOf(a + [c] + b, c) == |a|
    decreases |a|
  {
    var s := a + [c] + b;
    if a == "" {
      assert s[0] == c;
    } else {
      assert s[0] == a[0] && s[1..] == a[1..] + [c] + b;
      assert Free(a[1..], c);
      IndexOfFirst(a[1..], b, c);
    }
  }

  lemma LowerJoins(a: string, b: string)
    ensures Lower(a + b) == Lower(a) + Lower(b)
  {
  }

  /** The same character, or the capital and the small form of one letter. */
  predicate SameLetter(c: char, d: char) {
    c == d || ('A' <= c <= 'Z' && d as int == c as int + 32)
  }

  lemma LowerOfOneLetter(c: char, d: char)
    requires SameLetter(c, d)
    ensures LowerChar(c) == LowerChar(d)
  {
  }

  /** Case makes no difference. */
  lemma CaseIsIgnored(s: string, t: string)
    requires |s| == |t| && forall k :: 0 <= k < |s| ==> SameLetter(s[k], t[k])
    ensures Lower(s) == Lower(t)
  {
    forall k | 0 <= k < |s| ensures Lower(s)[k] == Lower(t)[k] { LowerOfOneLetter(s[k], t[k]); }
  }

  /** The address with a zone, if it has one. */
  function Zoned(t: string, zone: Option<string>): string {
    if zone.Some? then t + "%" + zone.value else t
  }

  lemma ZoneIsCut(t: string, zone: Option<string>)
    requires HexOrColon(Lower(t))
    ensures var z := Lower(Zoned(t, zone)); z[..IndexOf(z, '%')] == Lower(t)
  {
    var low, z := Lower(t), Lower(Zoned(t, zone));
    assert Free(low, '%') by { forall k | 0 <= k < |low| ensures low[k] != '%' { assert IsDigit(low[k], 16) || low[k] == ':'; } }
    if zone.Some? {
      LowerJoins(t, "%" + zone.value);
      LowerJoins("%", zone.value);
      assert Lower("%") == "%" && z == low + ['%'] + Lower(zone.value);
      IndexOfFirst(low, Lower(zone.value), '%');
    } else {
      IndexOfAbsent(z, '%');
    }
  }

  lemma FirstIsNoBracket(t: string)
    requires t != "" && HexOrColon(Lower(t))
    ensures Lower(t)[0] != '['
  {
    assert IsDigit(Lower(t)[0], 16) || Lower(t)[0] == ':';
  }

  lemma LowerBetweenBrackets(inner: string, s: string)
    requires s == "[" + inner + "]"
    ensures |Lower(s)| >= 2 && Lower(s)[0] == '[' && Lower(s)[|s| - 1] == ']' && Lower(s)[1..|s| - 1] == Lower(inner)
  {
  }

  /** Case, brackets and zone make no difference to the body of a hexadecimal address. */
  lemma BodyIsTheAddress(t: string, zone: Option<string>, bracketed: bool)
    requires t != "" && HexOrColon(Lower(t))
    ensures Body(if bracketed then "[" + Zoned(t, zone) + "]" else Zoned(t, zone)) == Lower(t)
  {
    var inner := Zoned(t, zone);
    ZoneIsCut(t, zone);
    FirstIsNoBracket(t);
    LowerBetweenBrackets(inner, "[" + inner + "]");
    assert inner[0] == t[0];
  }

  /**
   A text without a dot that, in either case, between brackets or not, and with or without a zone, spells
   eight groups is read as those groups.
   */
  lemma HexAddressIsRead(t: string, zone: Option<string>, bracketed: bool, g: seq<nat>, s: string)
    requires s == (if bracketed then "[" + Zoned(t, zone) + "]" else Zoned(t, zone)) && ReadAsIs(s) && '.' !in s && ':' in s
    requires SpellsIpv6(Lower(t), g)
    ensures Normalize(s) == Some(PrintIpv6(g))
  {
    TrimmedAlready(s);
    Ipv6AcceptsExactlySpellings(Lower(t));
    assert CanonicalGroups(Lower(t)).Some?;
    BodyIsTheAddress(t, zone, bracketed);
  }

  // ---------------------------------------------------------------- dotted tails

  lemma {:induction false} LastIndexIs(a: string, b: string, c: char)
    requires Free(b, c)
    ensures LastIndexOf(a + [c] + b, c) == |a|
    decreases |b|
  {
    var s := a + [c] + b;
    if b == "" {
      assert s[|s| - 1] == c;
    } else {
      assert s[|s| - 1] == b[|b| - 1] && s[..|s| - 1] == a + [c] + b[..|b| - 1];
      LastIndexIs(a, b[..|b| - 1], c);
    }
  }

  /** An octet spelling has digits and dots alone. */
  lemma OctetsAreDotted(t: string, o: seq<nat>)
    requires SpellsIpv4(t, o)
    ensures t != "" && '.' in t && forall k | 0 <= k < |t| :: IsDigit(t[k], 10) || t[k] == '.'
  {
    var parts: seq<string> :| |parts| == 4 && t == Join(parts, '.') && Octets(o)
      && forall i :: 0 <= i < 4 ==> OctetText(parts[i]) && Value(parts[i], 10) == o[i];
    JoinLength(parts, '.', 3);
    forall k | 0 <= k < |t| ensures IsDigit(t[k], 10) || t[k] == '.' {
      JoinChars(parts, '.', k);
      if t[k] != '.' {
        var i :| 0 <= i < 4 && t[k] in parts[i];
      }
    }
  }

  /** The fronts after which a dotted tail is an IPv4 address: an IPv4-mapped address in its usual spellings. */
  predicate Maps(front: string) {
    Lower(front) in {"", ":", "::", "::ffff", "0:0:0:0:0:ffff"}
  }

  lemma TailIsFound(front: string, t: string, o: seq<nat>)
    requires SpellsIpv4(t, o)
    ensures var s := front + ":" + t;
            && LastIndexOf(s, ':') == |front| && s[..|front|] == front && s[|front| + 1..] == t
            && ':' in s && '.' in s && CanonicalIpv4(t) == Some(PrintIpv4(o))
  {
    OctetsAreDotted(t, o);
    Ipv4AcceptsExactlySpellings(t, o);
    LastIndexIs(front, t, ':');
    var s := front + ":" + t;
    assert s == front + [':'] + t && s[|front|] == ':';
    var k :| 0 <= k < |t| && t[k] == '.';
    assert s[|front| + 1 + k] == '.';
  }

  /** An IPv4-mapped address is the IPv4 address. */
  lemma MappedAddressIsRead(front: string, t: string, o: seq<nat>)
    requires ReadAsIs(front + ":" + t) && Maps(front) && SpellsIpv4(t, o)
    ensures Normalize(front + ":" + t) == Some(PrintIpv4(o))
  {
    TrimmedAlready(front + ":" + t);
    TailIsFound(front, t, o);
  }

  lemma NumeralIsHex(v: nat)
    ensures Lower(Numeral(v, 16)) == Numeral(v, 16)
  {
    NumeralRoundTrip(v, 16);
    var n := Numeral(v, 16);
    forall k | 0 <= k < |n| ensures Lower(n)[k] == n[k] { assert IsDigit(n[k], 16); }
  }

  /** The printed octets are found again between their dots. */
  lemma PrintedOctetsAreFound(o: seq<nat>)
    requires Octets(o)
    ensures var parts := Split(PrintIpv4(o), '.');
            |parts| == 4 && forall i :: 0 <= i < 4 ==> Value(parts[i], 10) == o[i]
  {
    NumeralsAreFree(o, 10, '.');
    SplitJoin(Numerals(o, 10), '.');
    forall i | 0 <= i < 4 ensures Value(Numerals(o, 10)[i], 10) == o[i] { NumeralRoundTrip(o[i], 10); }
  }

  lemma HexTextOf(front: string, high: nat, low: nat)
    ensures Lower(HexTail(front, high, low)) == HexTail(Lower(front), high, low)
  {
    var h, l := Numeral(high, 16), Numeral(low, 16);
    NumeralIsHex(high);
    NumeralIsHex(low);
    LowerJoins(front + ":" + h + ":", l);
    LowerJoins(front + ":" + h, ":");
    LowerJoins(front + ":", h);
    LowerJoins(front, ":");
    assert Lower(":") == ":";
  }

  lemma RewrittenIsRead(front: string, high: nat, low: nat, g: seq<nat>, text: string)
    requires text == HexTail(front, high, low) && SpellsIpv6(HexTail(Lower(front), high, low), g)
    ensures CanonicalIpv6(text) == Some(PrintIpv6(g))
  {
    HexTextOf(front, high, low);
    Ipv6AcceptsExactlySpellings(Lower(text));
    assert CanonicalGroups(Lower(text)).Some?;
    BodyIsTheAddress(text, None, false);
  }

  lemma SameGroupsSameText(front: string, a: nat, b: nat, c: nat, d: nat, text: string)
    requires a == c && b == d && text == HexTail(front, a, b)
    ensures text == HexTail(front, c, d)
  {
  }

  lemma TailIsRewritten(front: string, o: seq<nat>, p: seq<string>, text: string)
    requires Octets(o) && p == Split(PrintIpv4(o), '.') && text == HexTail(front, o[0] * 256 + o[1], o[2] * 256 + o[3])
    ensures |p| == 4 && TailText(front, p) == text
  {
    PrintedOctetsAreFound(o);
    SameGroupsSameText(front, o[0] * 256 + o[1], o[2] * 256 + o[3],
                       Value(p[0], 10) * 256 + Value(p[1], 10), Value(p[2], 10) * 256 + Value(p[3], 10), text);
  }

  lemma DottedTailIsLookedAt(s: string)
    requires ReadAsIs(s) && ':' in s && '.' in s
    ensures Normalize(s) == CanonicalEmbedded(s)
  {
    TrimmedAlready(s);
  }

  lemma EmbeddedIsRewritten(s: string, n: nat, ipv4: string, r: Option<string>)
    requires LastIndexOf(s, ':') == n < |s| && CanonicalIpv4(s[n + 1..]) == Some(ipv4) && !Maps(s[..n])
    requires |Split(ipv4, '.')| == 4 && r == CanonicalIpv6(TailText(s[..n], Split(ipv4, '.')))
    ensures CanonicalEmbedded(s) == r
  {
  }

  /** After any other front the four octets are the last two groups of an IPv6 address. */
  lemma EmbeddedAddressIsRead(front: string, t: string, o: seq<nat>, g: seq<nat>)
    requires ReadAsIs(front + ":" + t) && !Maps(front) && SpellsIpv4(t, o) && Octets(o)
    requires SpellsIpv6(Lower(front) + ":" + Numeral(o[0] * 256 + o[1], 16) + ":" + Numeral(o[2] * 256 + o[3], 16), g)
    ensures Normalize(front + ":" + t) == Some(PrintIpv6(g))
  {
    var p, text := Split(PrintIpv4(o), '.'), HexTail(front, o[0] * 256 + o[1], o[2] * 256 + o[3]);
    TailIsFound(front, t, o);
    DottedTailIsLookedAt(front + ":" + t);
    TailIsRewritten(front, o, p, text);
    RewrittenIsRead(front, o[0] * 256 + o[1], o[2] * 256 + o[3], g, text);
    EmbeddedIsRewritten(front + ":" + t, |front|, PrintIpv4(o), Some(PrintIpv6(g)));
  }

  /** A dotted tail that spells no octets makes the whole no address. */
  lemma BrokenTailIsRefused(front: string, t: string)
    requires ReadAsIs(front + ":" + t) && ':' !in t && '.' in front + ":" + t && forall o :: !SpellsIpv4(t, o)
    ensures Normalize(front + ":" + t) == None
  {
    var s := front + ":" + t;
    TrimmedAlready(s);
    Ipv4AcceptsExactlySpellings(t, []);
    LastIndexIs(front, t, ':');
    assert s == front + [':'] + t && s[|front|] == ':' && s[|front| + 1..] == t;
  }

  // ---------------------------------------------------------------- the prefix of an IPv4 address

  lemma PrefixOfPrintedIpv4(o: seq<nat>)
    requires Octets(o)
    ensures Prefix(PrintIpv4(o)) == Join(Numerals(o[..3], 10), '.')
  {
    var s := PrintIpv4(o);
    NumeralsAreFree(o, 10, '.');
    SplitJoin(Numerals(o, 10), '.');
    forall k | 0 <= k < |s| ensures s[k] != ':' { PrintedChars(o, 10, '.', k); }
    assert Numerals(o, 10)[..3] == Numerals(o[..3], 10);
  }

  /** Two normalised IPv4 addresses have one prefix exactly when their first three octets agree. */
  lemma SameIpv4PrefixExactlySameNetwork(o: seq<nat>, p: seq<nat>)
    requires Octets(o) && Octets(p)
    ensures Prefix(PrintIpv4(o)) == Prefix(PrintIpv4(p)) <==> o[..3] == p[..3]
  {
    PrefixOfPrintedIpv4(o);
    PrefixOfPrintedIpv4(p);
    if Prefix(PrintIpv4(o)) == Prefix(PrintIpv4(p)) {
      NumeralsAreFree(o[..3], 10, '.');
      NumeralsAreFree(p[..3], 10, '.');
      JoinIsInjective(Numerals(o[..3], 10), Numerals(p[..3], 10), '.');
      forall i | 0 <= i < 3 ensures o[..3][i] == p[..3][i] {
        assert Numerals(o[..3], 10)[i] == Numerals(p[..3], 10)[i];
        NumeralIsInjective(o[i], p[i], 10);
      }
    }
  }
}
