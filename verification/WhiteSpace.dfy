/** What `strings.TrimSpace` cuts off: the code points that are white space, at both ends. */
module WhiteSpace {
  import opened GoStrings
  import opened TelegramRunes

  /** `unicode.IsSpace`. */
  predicate IsSpaceRune(c: nat) {
    9 <= c <= 13 || c == 32 || c == 0x85 || c == 0xA0 || c == 0x1680 || 0x2000 <= c <= 0x200A
    || c == 0x2028 || c == 0x2029 || c == 0x202F || c == 0x205F || c == 0x3000
  }

  ghost predicate SpaceRunes(cs: seq<nat>) {
    forall k :: 0 <= k < |cs| ==> IsSpaceRune(cs[k])
  }

  /** The encodings of the white-space code points. */
  lemma SpaceBytes(c: nat)
    requires IsSpaceRune(c)
    ensures IsCodePoint(c)
    ensures var u := Utf8(c);
            || (|u| == 1 && IsAsciiSpace(u[0]))
            || (|u| == 2 && IsSpace2(u[0], u[1]) && !IsAsciiSpace(u[0]) && !IsAsciiSpace(u[1]))
            || (|u| == 3 && IsSpace3(u[0], u[1], u[2]) && !IsAsciiSpace(u[0]) && !IsAsciiSpace(u[2])
                && !IsSpace2(u[0], u[1]) && !IsSpace2(u[1], u[2]))
  {
    if 0x2000 <= c <= 0x200A {
      assert c / 4096 == 2 && c / 64 % 64 == 0 && c % 64 == c - 0x2000;
    }
  }

  lemma SpaceCode(a: char, b: char, d: char) returns (c: nat)
    requires IsSpace3(a, b, d)
    ensures IsSpaceRune(c) && Utf8(c) == [a, b, d]
  {
    c := (a as nat - 0xE0) * 4096 + (b as nat - 0x80) * 64 + (d as nat - 0x80);
    Digits(0, a as nat - 0xE0, b as nat - 0x80, d as nat - 0x80);
  }

  lemma LeadingIs(s: string, c: nat)
    requires IsSpaceRune(c) && HasPrefix(s, Utf8(c))
    ensures LeadingSpace(s) == |Utf8(c)|
  {
    SpaceBytes(c);
    var u := Utf8(c);
    assert forall k :: 0 <= k < |u| ==> s[k] == u[k];
    hide Utf8;
  }

  lemma LeadingFrom(s: string) returns (c: nat)
    requires LeadingSpace(s) > 0
    ensures IsSpaceRune(c) && IsCodePoint(c) && HasPrefix(s, Utf8(c)) && LeadingSpace(s) == |Utf8(c)|
  {
    if LeadingSpace(s) == 1 {
      c := s[0] as nat;
    } else if LeadingSpace(s) == 2 {
      c := s[1] as nat;
      assert Utf8(c) == [s[0], s[1]];
    } else {
      c := SpaceCode(s[0], s[1], s[2]);
    }
  }

  lemma TrailingIs(s: string, c: nat)
    requires IsSpaceRune(c) && HasSuffix(s, Utf8(c))
    ensures TrailingSpace(s) == |Utf8(c)|
  {
    SpaceBytes(c);
    var u, m := Utf8(c), |s|;
    assert forall k :: 0 <= k < |u| ==> s[m - |u| + k] == s[m - |u|..][k] == u[k];
    hide Utf8;
  }

  lemma TrailingFrom(s: string) returns (c: nat)
    requires TrailingSpace(s) > 0
    ensures IsSpaceRune(c) && IsCodePoint(c) && HasSuffix(s, Utf8(c)) && TrailingSpace(s) == |Utf8(c)|
  {
    var m := |s|;
    if TrailingSpace(s) == 1 {
      c := s[m - 1] as nat;
      assert s[m - 1..] == [s[m - 1]];
    } else if TrailingSpace(s) == 2 {
      c := s[m - 1] as nat;
      assert s[m - 2..] == [s[m - 2], s[m - 1]] == Utf8(c);
    } else {
      c := SpaceCode(s[m - 3], s[m - 2], s[m - 1]);
      assert s[m - 3..] == [s[m - 3], s[m - 2], s[m - 1]];
    }
  }

  ghost predicate StartsWithSpace(s: string) {
    exists c :: IsSpaceRune(c) && HasPrefix(s, Utf8(c))
  }

  ghost predicate EndsWithSpace(s: string) {
    exists c :: IsSpaceRune(c) && HasSuffix(s, Utf8(c))
  }

  lemma SpaceIff(s: string)
    ensures LeadingSpace(s) > 0 <==> StartsWithSpace(s)
    ensures TrailingSpace(s) > 0 <==> EndsWithSpace(s)
  {
    hide LeadingSpace, TrailingSpace, HasPrefix, HasSuffix;
    if LeadingSpace(s) > 0 {
      var c := LeadingFrom(s);
    }
    if TrailingSpace(s) > 0 {
      var c := TrailingFrom(s);
    }
    if StartsWithSpace(s) {
      var c :| IsSpaceRune(c) && HasPrefix(s, Utf8(c));
      LeadingIs(s, c);
    }
    if EndsWithSpace(s) {
      var c :| IsSpaceRune(c) && HasSuffix(s, Utf8(c));
      TrailingIs(s, c);
    }
  }

  lemma SpaceIsCode(cs: seq<nat>)
    requires SpaceRunes(cs)
    ensures forall k :: 0 <= k < |cs| ==> IsCodePoint(cs[k])
  {
    forall k | 0 <= k < |cs| ensures IsCodePoint(cs[k]) {
      SpaceBytes(cs[k]);
    }
  }

  /** White space, encoded. */
  ghost function Spaces(cs: seq<nat>): string
    requires SpaceRunes(cs)
  {
    SpaceIsCode(cs);
    Utf8All(cs)
  }

  lemma SpacesCons(c: nat, cs: seq<nat>)
    requires IsSpaceRune(c) && SpaceRunes(cs)
    ensures SpaceRunes([c] + cs) && IsCodePoint(c) && Spaces([c] + cs) == Utf8(c) + Spaces(cs)
  {
    SpaceBytes(c);
    hide IsSpaceRune, Utf8;
    assert ([c] + cs)[1..] == cs;
  }

  lemma NoSpaces()
    ensures SpaceRunes([]) && Spaces([]) == ""
  {
  }

  lemma TrimLeftStep(s: string)
    ensures TrimLeftSpace(s) == if LeadingSpace(s) == 0 then s else TrimLeftSpace(s[LeadingSpace(s)..])
  {
  }

  lemma {:induction false} TrimLeftIs(s: string) returns (cs: seq<nat>)
    ensures SpaceRunes(cs) && s == Spaces(cs) + TrimLeftSpace(s) && !StartsWithSpace(TrimLeftSpace(s))
    decreases |s|
  {
    hide *;
    SpaceIff(s);
    NoSpaces();
    TrimLeftStep(s);
    cs := [];
    if LeadingSpace(s) > 0 {
      var c := LeadingFrom(s);
      PrefixCut(s, Utf8(c));
      var rest := s[|Utf8(c)|..];
      var more := TrimLeftIs(rest);
      SpacesCons(c, more);
      cs := [c] + more;
      assert Utf8(c) + (Spaces(more) + TrimLeftSpace(rest)) == Utf8(c) + Spaces(more) + TrimLeftSpace(rest);
    }
  }

  lemma PrefixCut(s: string, p: string)
    requires HasPrefix(s, p)
    ensures s == p + s[|p|..]
  {
  }

  lemma SuffixCut(s: string, p: string)
    requires HasSuffix(s, p)
    ensures s == s[..|s| - |p|] + p
  {
  }

  lemma {:induction false} Utf8Snoc(cs: seq<nat>, c: nat)
    requires SpaceRunes(cs) && IsSpaceRune(c)
    ensures SpaceRunes(cs + [c]) && IsCodePoint(c) && Spaces(cs + [c]) == Spaces(cs) + Utf8(c)
  {
    SpaceBytes(c);
    hide IsSpaceRune, Utf8;
    if cs == [] {
      assert [] + [c] == [c] && [c][1..] == [];
    } else {
      Utf8Snoc(cs[1..], c);
      assert (cs + [c])[1..] == cs[1..] + [c];
    }
  }

  lemma {:induction false} TrimRightIs(s: string) returns (cs: seq<nat>)
    ensures SpaceRunes(cs) && s == TrimRightSpace(s) + Spaces(cs) && !EndsWithSpace(TrimRightSpace(s))
    decreases |s|
  {
    hide TrailingSpace, HasSuffix, IsSpaceRune, Utf8;
    SpaceIff(s);
    cs := [];
    if TrailingSpace(s) > 0 {
      var c := TrailingFrom(s);
      var rest := s[..|s| - TrailingSpace(s)];
      var more := TrimRightIs(rest);
      Utf8Snoc(more, c);
      cs := more + [c];
      SuffixCut(s, Utf8(c));
    }
  }

  /** A string is white space, the trimmed string, and white space; the trimmed string neither starts nor
      ends with white space. */
  lemma TrimSpaceIs(s: string) returns (before: seq<nat>, after: seq<nat>)
    ensures SpaceRunes(before) && SpaceRunes(after)
    ensures s == Spaces(before) + TrimSpace(s) + Spaces(after)
    ensures !StartsWithSpace(TrimSpace(s)) && !EndsWithSpace(TrimSpace(s))
  {
    var left := TrimLeftSpace(s);
    before := TrimLeftIs(s);
    after := TrimRightIs(left);
    TrimSpaceTrims(s);
    hide TrimLeftSpace, TrimRightSpace, Spaces, StartsWithSpace, EndsWithSpace;
    SpaceIff(TrimSpace(s));
  }

  lemma {:induction false} SpacesGo(cs: seq<nat>)
    requires SpaceRunes(cs)
    ensures TrimLeftSpace(Spaces(cs)) == ""
  {
    hide LeadingSpace, HasPrefix, IsSpaceRune, Utf8;
    if cs == [] {
      NothingLeads();
    } else {
      SpacesGo(cs[1..]);
      var s, rest := Spaces(cs), Spaces(cs[1..]);
      SpaceBytes(cs[0]);
      assert s == Utf8(cs[0]) + rest;
      PrefixIs(Utf8(cs[0]), rest);
      LeadingIs(s, cs[0]);
      assert s[|Utf8(cs[0])|..] == rest;
    }
  }

  lemma NothingLeads()
    ensures LeadingSpace("") == 0
  {
  }

  lemma PrefixIs(p: string, rest: string)
    ensures HasPrefix(p + rest, p)
  {
  }

  /** A string is blank if and only if every rune in it is white space. */
  lemma BlankIff(s: string)
    ensures TrimSpace(s) == "" <==> exists cs :: SpaceRunes(cs) && s == Spaces(cs)
  {
    if TrimSpace(s) == "" {
      var before, after := TrimSpaceIs(s);
      SpacesConcat(before, after);
    }
    if cs :| SpaceRunes(cs) && s == Spaces(cs) {
      SpacesGo(cs);
      TrimRightNothing();
    }
  }

  lemma TrimRightNothing()
    ensures TrimRightSpace("") == ""
  {
  }

  lemma {:induction false} SpacesConcat(a: seq<nat>, b: seq<nat>)
    requires SpaceRunes(a) && SpaceRunes(b)
    ensures SpaceRunes(a + b) && Spaces(a + b) == Spaces(a) + "" + Spaces(b)
  {
    hide IsSpaceRune, Utf8;
    if a == [] {
      assert a + b == b;
    } else {
      SpacesConcat(a[1..], b);
      assert (a + b)[1..] == a[1..] + b;
    }
  }
}
