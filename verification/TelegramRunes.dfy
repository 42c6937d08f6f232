/** UTF-8, and that the tokenizer never looks inside a rune.
 *
 * Encoded code points are read whole, well-formed text is a sequence of them, and no token boundary lies
 * strictly inside one: that is why a cut message stays well-formed UTF-8.
 */
module TelegramRunes {
  import opened GoStrings
  import opened TelegramGrammar

  predicate IsCodePoint(c: nat) {
    c <= 0x10FFFF && !(0xD800 <= c <= 0xDFFF)
  }

  /** A code point as section 3 of RFC 3629 encodes it. */
  function Utf8(c: nat): (s: string)
    requires IsCodePoint(c)
    ensures s != "" && (forall k :: 1 <= k < |s| ==> IsCont(s[k])) && !IsCont(s[0])
    ensures |s| > 1 ==> s[0] >= '\U{C2}'
  {
    if c < 0x80 then [c as char]
    else if c < 0x800 then [(0xC0 + c / 64) as char, (0x80 + c % 64) as char]
    else if c < 0x10000 then [(0xE0 + c / 4096) as char, (0x80 + c / 64 % 64) as char, (0x80 + c % 64) as char]
    else [(0xF0 + c / 262144) as char, (0x80 + c / 4096 % 64) as char, (0x80 + c / 64 % 64) as char, (0x80 + c % 64) as char]
  }

  /** The tokenizer reads an encoded code point as one rune, whatever follows it. */
  lemma RuneIsWhole(c: nat, rest: string)
    requires IsCodePoint(c)
    ensures RuneSize(Utf8(c) + rest) == |Utf8(c)|
  {
    var t := Utf8(c) + rest;
    assert forall k :: 0 <= k < |Utf8(c)| ==> t[k] == Utf8(c)[k];
  }

  /** The first rune is well formed: ASCII or an encoded code point. */
  predicate StartsRune(t: string)
    requires t != ""
  {
    t[0] < '\U{80}' || RuneSize(t) > 1
  }

  lemma LastDigit(q: nat, e: nat)
    requires e < 64
    ensures (q * 64 + e) / 64 == q && (q * 64 + e) % 64 == e
  {
  }

  lemma Digits(a: nat, b: nat, d: nat, e: nat)
    requires b < 64 && d < 64 && e < 64
    ensures var c := a * 262144 + b * 4096 + d * 64 + e;
            && c / 262144 == a && c / 4096 == a * 64 + b && c / 4096 % 64 == b
            && c / 64 == a * 4096 + b * 64 + d && c / 64 % 64 == d && c % 64 == e
  {
    var c := a * 262144 + b * 4096 + d * 64 + e;
    LastDigit(a * 4096 + b * 64 + d, e);
    LastDigit(a * 64 + b, d);
    LastDigit(a, b);
    assert c / 4096 == a * 64 + b by { HighDigits(c, a * 64 + b, d * 64 + e); }
    assert c / 262144 == a by { TopDigit(c, a, b * 4096 + d * 64 + e); }
  }

  lemma HighDigits(c: nat, q: nat, r: nat)
    requires c == q * 4096 + r && r < 4096
    ensures c / 4096 == q
  {
  }

  lemma TopDigit(c: nat, q: nat, r: nat)
    requires c == q * 262144 + r && r < 262144
    ensures c / 262144 == q
  {
  }

  /** The number that a byte adds to its code point. */
  function Bits(c: char, base: nat): nat {
    if c as nat < base then 0 else c as nat - base
  }

  /** What the tokenizer takes as more than one byte is an encoded code point. */
  lemma RuneIsEncoded(t: string) returns (c: nat)
    requires t != "" && StartsRune(t)
    ensures IsCodePoint(c) && t[..RuneSize(t)] == Utf8(c)
  {
    var n := RuneSize(t);
    if n == 1 {
      c := t[0] as nat;
    } else if n == 2 {
      c := TwoBytes(t);
    } else if n == 3 {
      c := ThreeBytes(t);
    } else {
      c := FourBytes(t);
    }
  }

  lemma TwoBytes(t: string) returns (c: nat)
    requires t != "" && RuneSize(t) == 2
    ensures IsCodePoint(c) && t[..2] == Utf8(c)
  {
    var d, e := Bits(t[0], 0xC0), Bits(t[1], 0x80);
    Digits(0, 0, d, e);
    c := d * 64 + e;
    assert 0x80 <= c < 0x800;
  }

  lemma ThreeBytes(t: string) returns (c: nat)
    requires t != "" && RuneSize(t) == 3
    ensures IsCodePoint(c) && t[..3] == Utf8(c)
  {
    var b, d, e := Bits(t[0], 0xE0), Bits(t[1], 0x80), Bits(t[2], 0x80);
    Digits(0, b, d, e);
    c := b * 4096 + d * 64 + e;
    assert 0x800 <= c < 0x10000;
    assert IsCodePoint(c);
  }

  lemma FourBytes(t: string) returns (c: nat)
    requires t != "" && RuneSize(t) > 3
    ensures IsCodePoint(c) && RuneSize(t) == 4 && t[..4] == Utf8(c)
  {
    var a, b, d, e := Bits(t[0], 0xF0), Bits(t[1], 0x80), Bits(t[2], 0x80), Bits(t[3], 0x80);
    Digits(a, b, d, e);
    c := a * 262144 + b * 4096 + d * 64 + e;
    assert 0x10000 <= c <= 0x10FFFF;
  }

  /** Well-formed UTF-8. */
  predicate IsUtf8(s: string) {
    s == "" || (StartsRune(s) && IsUtf8(s[RuneSize(s)..]))
  }

  function Utf8All(cs: seq<nat>): string
    requires forall k :: 0 <= k < |cs| ==> IsCodePoint(cs[k])
  {
    if cs == [] then "" else Utf8(cs[0]) + Utf8All(cs[1..])
  }

  /** Exactly the encodings of code points are well formed. */
  lemma {:induction false} EncodedIsUtf8(cs: seq<nat>)
    requires forall k :: 0 <= k < |cs| ==> IsCodePoint(cs[k])
    ensures IsUtf8(Utf8All(cs))
  {
    if cs != [] {
      var u, rest := Utf8(cs[0]), Utf8All(cs[1..]);
      RuneIsWhole(cs[0], rest);
      EncodedIsUtf8(cs[1..]);
      hide RuneSize;
      assert (u + rest)[|u|..] == rest && (u + rest)[0] == u[0];
    }
  }

  lemma {:induction false} Utf8IsEncoded(s: string) returns (cs: seq<nat>)
    requires IsUtf8(s)
    ensures (forall k :: 0 <= k < |cs| ==> IsCodePoint(cs[k])) && s == Utf8All(cs)
  {
    hide Utf8, RuneSize;
    cs := [];
    if s != "" {
      var c := RuneIsEncoded(s);
      var rest := Utf8IsEncoded(s[RuneSize(s)..]);
      cs := [c] + rest;
      assert cs[1..] == rest;
      assert s == s[..RuneSize(s)] + s[RuneSize(s)..];
    }
  }

  // ----- pieces -----

  /** A well-formed rune is read the same whatever follows. */
  lemma RuneLonger(a: string, b: string)
    requires a != "" && StartsRune(a)
    ensures RuneSize(a + b) == RuneSize(a) && StartsRune(a + b)
  {
    assert forall k :: 0 <= k < |a| ==> (a + b)[k] == a[k];
  }

  lemma RuneAlone(t: string)
    requires t != "" && StartsRune(t)
    ensures RuneSize(t[..RuneSize(t)]) == RuneSize(t) && IsUtf8(t[..RuneSize(t)])
  {
    var u := t[..RuneSize(t)];
    assert forall k :: 0 <= k < |u| ==> u[k] == t[k];
    assert RuneSize(u) == |u|;
    hide RuneSize;
    assert u[|u|..] == "";
  }

  lemma {:induction false} Utf8Concat(a: string, b: string)
    requires IsUtf8(a) && IsUtf8(b)
    ensures IsUtf8(a + b)
  {
    hide RuneSize;
    if a == "" {
      assert a + b == b;
    } else {
      RuneLonger(a, b);
      Utf8Concat(a[RuneSize(a)..], b);
      assert (a + b)[RuneSize(a)..] == a[RuneSize(a)..] + b;
    }
  }

  lemma {:induction false} AsciiIsUtf8(s: string)
    requires forall k :: 0 <= k < |s| ==> s[k] < '\U{80}'
    ensures IsUtf8(s)
  {
    if s != "" {
      assert RuneSize(s) == 1;
      AsciiIsUtf8(s[1..]);
    }
  }

  lemma TakeSplit(t: string, n: nat, m: nat)
    requires n <= m <= |t|
    ensures t[..m] == t[..n] + t[n..][..m - n]
  {
  }

  /** Text that ends in an ASCII byte can be cut behind it. */
  lemma {:induction false} CutAfterAscii(t: string, m: nat)
    requires IsUtf8(t) && 0 < m <= |t| && t[m - 1] < '\U{80}'
    ensures IsUtf8(t[..m]) && IsUtf8(t[m..])
  {
    var n := RuneSize(t);
    RuneAlone(t);
    assert n <= m;
    hide RuneSize;
    if n < m {
      var rest := t[n..];
      assert rest[m - n - 1] == t[m - 1];
      CutAfterAscii(rest, m - n);
      DropDrop(t, n, m - n);
      TakeSplit(t, n, m);
      Utf8Concat(t[..n], rest[..m - n]);
    }
  }

  /** A token is one rune, or ends in an ASCII byte. */
  lemma TokenEnds(t: string)
    requires t != ""
    ensures var n := NextToken(t).n; n == RuneSize(t) || t[n - 1] == '>' || t[n - 1] == ';'
    ensures t[0] >= '\U{80}' ==> NextToken(t).n == RuneSize(t)
  {
    hide IsTagName, TagNameOf, RuneSize;
  }

  lemma TokenIsUtf8(t: string)
    requires t != "" && IsUtf8(t)
    ensures var n := NextToken(t).n; IsUtf8(t[..n]) && IsUtf8(t[n..])
  {
    TokenEnds(t);
    RuneAlone(t);
    hide RuneSize, NextToken;
    var n := NextToken(t).n;
    if n != RuneSize(t) {
      CutAfterAscii(t, n);
    }
  }

  ghost predicate AllUtf8(ss: seq<string>) {
    forall k :: 0 <= k < |ss| ==> IsUtf8(ss[k])
  }

  /** A cut at a token boundary leaves well-formed text on both sides, and well-formed open tags. */
  lemma {:induction false} CutIsUtf8(t: string, stack: seq<string>, m: nat)
    requires m <= |t| && IsUtf8(t) && AllUtf8(stack) && Upto(t, stack, m).Some?
    ensures IsUtf8(t[..m]) && IsUtf8(t[m..]) && AllUtf8(StackAfter(stack, Upto(t, stack, m).value))
    decreases |t|
  {
    hide NextToken, IsUtf8, TagName;
    if m == 0 {
      assert t[..0] == "" && t[0..] == t;
      EmptyIsUtf8();
    } else {
      var tok := NextToken(t);
      var x := t[..tok.n];
      var after := After(stack, tok, x);
      TokenIsUtf8(t);
      CutIsUtf8(t[tok.n..], after, m - tok.n);
      DropDrop(t, tok.n, m - tok.n);
      TakeSplit(t, tok.n, m);
      Utf8Concat(x, t[tok.n..][..m - tok.n]);
    }
  }

  lemma EmptyIsUtf8()
    ensures IsUtf8("")
  {
  }

  lemma {:induction false} JoinIsUtf8(ss: seq<string>)
    requires AllUtf8(ss)
    ensures IsUtf8(Join(ss, ""))
  {
    hide IsUtf8;
    EmptyIsUtf8();
    if |ss| > 1 {
      JoinIsUtf8(ss[1..]);
      assert IsUtf8(ss[0]) && ss[0] + "" == ss[0];
      Utf8Concat(ss[0], Join(ss[1..], ""));
    } else if |ss| == 1 {
      assert IsUtf8(ss[0]);
    }
  }

  lemma CloseTagIsUtf8(tag: string)
    ensures IsUtf8(CloseTag(tag))
  {
    var a := if HasPrefix(tag, "<") then tag[1..] else tag;
    var name := TagName(tag);
    assert name == "" || IsTagName(name);
    hide TagName;
    AsciiIsUtf8("</" + name + ">");
  }

  // ----- no boundary inside a rune -----

  /** No token boundary lies strictly inside an encoded code point, wherever in the text it stands and
      whatever surrounds it. */
  lemma {:induction false} NoBoundaryInRune(t: string, stack: seq<string>, m: nat, p: nat, c: nat)
    requires IsCodePoint(c) && p + |Utf8(c)| <= |t| && t[p..p + |Utf8(c)|] == Utf8(c)
    requires m <= |t| && Upto(t, stack, m).Some?
    ensures !(p < m < p + |Utf8(c)|)
    decreases |t|
  {
    hide Utf8, NextToken, After, TagName;
    if 0 < m && 1 < |Utf8(c)| {
      var tok := NextToken(t);
      if tok.n <= p {
        var rest := t[tok.n..];
        assert rest[p - tok.n..p - tok.n + |Utf8(c)|] == Utf8(c);
        NoBoundaryInRune(rest, After(stack, tok, t[..tok.n]), m - tok.n, p - tok.n, c);
      } else {
        assert p + |Utf8(c)| <= NextToken(t).n by {
          assert IsCodePoint(c) && 1 < |Utf8(c)| && p + |Utf8(c)| <= |t| && t[p..p + |Utf8(c)|] == Utf8(c);
          assert p < NextToken(t).n;
          hide Utf8, NextToken;
          TokenEnds(t);
          if p == 0 {
            RuneIsWhole(c, t[|Utf8(c)|..]);
            assert t == Utf8(c) + t[|Utf8(c)|..];
          }
        }
      }
    }
  }
}
