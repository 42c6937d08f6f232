/** Redaction: known values are replaced by a token, the longest first. */
module Redact {
  import opened GoStrings

  const MIN_LEN: nat := 4
  const Token := "***"

  // ----- the order the values are handled in -----

  ghost predicate Distinct(vs: seq<string>) {
    forall i, j :: 0 <= i < j < |vs| ==> vs[i] != vs[j]
  }

  ghost predicate LongestFirst(vs: seq<string>) {
    forall i, j :: 0 <= i < j < |vs| ==> |vs[i]| >= |vs[j]|
  }

  /** The values that are long enough, each once, longest first; which of two equally long ones comes
      first is left open. */
  ghost predicate IsOrder(vs: seq<string>, values: seq<string>) {
    Distinct(vs) && LongestFirst(vs) && forall v :: v in vs <==> v in values && |v| >= MIN_LEN
  }

  predicate NoneEmpty(vs: seq<string>) {
    forall i :: 0 <= i < |vs| ==> vs[i] != ""
  }

  function RedactAll(s: string, vs: seq<string>): string
    requires NoneEmpty(vs)
    decreases |vs|
  {
    if vs == [] then s else RedactAll(ReplaceAll(s, vs[0], Token), vs[1..])
  }

  // ----- sorting -----

  /** The position of a value of length `n` in a list that is longest first. */
  method Place(vs: seq<string>, n: nat) returns (k: nat)
    requires LongestFirst(vs)
    ensures k <= |vs| && forall i :: 0 <= i < |vs| ==> if i < k then |vs[i]| >= n else |vs[i]| < n
  {
    k := 0;
    while k < |vs| && |vs[k]| >= n
      invariant k <= |vs| && forall i :: 0 <= i < k ==> |vs[i]| >= n
    {
      k := k + 1;
    }
  }

  /** `sort.Slice` by descending length. */
  method SortLongestFirst(vs: seq<string>) returns (sorted: seq<string>)
    requires Distinct(vs)
    ensures Distinct(sorted) && LongestFirst(sorted) && forall v :: v in sorted <==> v in vs
  {
    sorted := [];
    var i := 0;
    while i < |vs|
      invariant i <= |vs| && Distinct(sorted) && LongestFirst(sorted) && forall v :: v in sorted <==> v in vs[..i]
    {
      assert vs[..i + 1] == vs[..i] + [vs[i]] && vs[i] !in vs[..i];
      var k := Place(sorted, |vs[i]|);
      sorted := sorted[..k] + [vs[i]] + sorted[k..];
      i := i + 1;
    }
    assert vs[..i] == vs;
  }

  // ----- no value survives -----

  /** The token cannot combine with its surroundings to a value like this one. */
  predicate StarSafe(v: string) {
    v != "" && v[0] != '*' && v[|v| - 1] != '*' && !Contains(v, Token)
  }

  /** A tail of a star-safe value. */
  predicate Tail(q: string) {
    q != "" ==> q[|q| - 1] != '*' && !Contains(q, Token)
  }

  lemma TokenHidesTail(rest: string, q: string)
    requires q != "" && HasPrefix(Token + rest, q)
    ensures !Tail(q)
  {
    var r := Token + rest;
    assert r[..3] == Token;
    if |q| >= 3 {
      assert q[..3] == r[..3];
    } else {
      assert q[|q| - 1] == r[|q| - 1] == Token[|q| - 1];
    }
  }

  lemma {:induction false} TailBack(t: string, v: string, q: string)
    requires v != "" && Tail(q) && HasPrefix(ReplaceAll(t, v, Token), q)
    ensures HasPrefix(t, q)
  {
    if q != "" && t != "" {
      var r := ReplaceAll(t, v, Token);
      if HasPrefix(t, v) {
        TokenHidesTail(ReplaceAll(t[|v|..], v, Token), q);
      } else {
        assert r[1..] == ReplaceAll(t[1..], v, Token);
        TailBack(t[1..], v, q[1..]);
        assert t == [t[0]] + t[1..] && q == [q[0]] + q[1..];
      }
    }
  }

  /** A star-safe value that occurs after a replacement occurred before it, and was not the one replaced. */
  lemma {:induction false} OccurredBefore(s: string, v: string, w: string)
    requires v != "" && StarSafe(w) && Contains(ReplaceAll(s, v, Token), w)
    ensures Contains(s, w) && w != v
  {
    assert Tail(w[1..]) by {
    }
    hide *;
    NotEmptySafe(w);
    ReplaceStep(s, v);
    if s == "" {
      TooShort("", w);
    } else if HasPrefix(s, v) {
      AfterToken(ReplaceAll(s[|v|..], v, Token), w);
      OccurredBefore(s[|v|..], v, w);
      ContainsLater(s, |v|, w);
    } else {
      var rest := ReplaceAll(s[1..], v, Token);
      assert ([s[0]] + rest)[1..] == rest;
      if HasPrefix([s[0]] + rest, w) {
        PrefixTail(s[0], rest, w);
        TailBack(s[1..], v, w[1..]);
        PrefixBack(s, w);
      } else {
        OccurredBefore(s[1..], v, w);
        ContainsLater(s, 1, w);
      }
    }
  }

  lemma NotEmptySafe(w: string)
    requires StarSafe(w)
    ensures w != "" && w[0] != '*'
  {
  }

  lemma ReplaceStep(s: string, v: string)
    requires v != ""
    ensures s == "" ==> ReplaceAll(s, v, Token) == ""
    ensures s != "" && HasPrefix(s, v) ==> |v| <= |s| && ReplaceAll(s, v, Token) == Token + ReplaceAll(s[|v|..], v, Token)
    ensures s != "" && !HasPrefix(s, v) ==> ReplaceAll(s, v, Token) == [s[0]] + ReplaceAll(s[1..], v, Token)
  {
  }

  lemma {:induction false} ContainsLater(s: string, n: nat, w: string)
    requires n <= |s| && Contains(s[n..], w)
    ensures Contains(s, w)
  {
    if n == 0 {
      assert s[0..] == s;
    } else {
      DropDrop(s, 1, n - 1);
      ContainsLater(s[1..], n - 1, w);
    }
  }

  lemma PrefixTail(c: char, rest: string, w: string)
    requires w != "" && HasPrefix([c] + rest, w)
    ensures w[0] == c && HasPrefix(rest, w[1..])
  {
    assert ([c] + rest)[1..] == rest;
  }

  lemma PrefixBack(s: string, w: string)
    requires s != "" && w != "" && w[0] == s[0] && HasPrefix(s[1..], w[1..])
    ensures HasPrefix(s, w)
  {
    assert s == [s[0]] + s[1..] && w == [w[0]] + w[1..];
  }

  lemma AfterToken(rest: string, w: string)
    requires w != "" && w[0] != '*' && Contains(Token + rest, w)
    ensures Contains(rest, w)
  {
    assert Contains("*" + rest, w) ==> Contains(rest, w);
    assert Token + rest == "*" + ("**" + rest) && "**" + rest == "*" + ("*" + rest);
  }

  lemma {:induction false} NeverBack(s: string, vs: seq<string>, w: string)
    requires NoneEmpty(vs) && StarSafe(w) && !Contains(s, w)
    ensures !Contains(RedactAll(s, vs), w)
    decreases |vs|
  {
    hide StarSafe, Contains;
    if vs != [] {
      if Contains(ReplaceAll(s, vs[0], Token), w) {
        OccurredBefore(s, vs[0], w);
      }
      NeverBack(ReplaceAll(s, vs[0], Token), vs[1..], w);
    }
  }

  /** Whatever the text, the overlaps and the order: no value occurs in the redacted text. */
  lemma {:induction false} RedactionIsComplete(s: string, vs: seq<string>, v: string)
    requires NoneEmpty(vs) && v in vs && StarSafe(v)
    ensures !Contains(RedactAll(s, vs), v)
    decreases |vs|
  {
    hide Contains;
    var next := ReplaceAll(s, vs[0], Token);
    if v == vs[0] {
      if Contains(next, v) {
        OccurredBefore(s, v, v);
      }
      NeverBack(next, vs[1..], v);
    } else {
      RedactionIsComplete(next, vs[1..], v);
    }
  }

  lemma {:induction false} NothingReplaced(s: string, v: string)
    requires v != "" && !Contains(s, v)
    ensures ReplaceAll(s, v, Token) == s
  {
    if s != "" {
      NothingReplaced(s[1..], v);
    }
  }

  /** A text in which no value occurs is returned unchanged. */
  lemma {:induction false} CleanUnchanged(s: string, vs: seq<string>)
    requires NoneEmpty(vs) && forall i :: 0 <= i < |vs| ==> !Contains(s, vs[i])
    ensures RedactAll(s, vs) == s
    decreases |vs|
  {
    hide Contains;
    if vs != [] {
      NothingReplaced(s, vs[0]);
      CleanUnchanged(s, vs[1..]);
    }
  }

  // ----- the program -----

  /** `redactSecrets`: no star-safe value that is long enough is left, a clean text stays as it is. */
  method RedactSecrets(s: string, values: seq<string>) returns (r: string)
    ensures exists order :: IsOrder(order, if s == "" then [] else values) && r == RedactAll(s, order)
    ensures forall v :: v in values && |v| >= 4 && StarSafe(v) ==> !Contains(r, v)
    ensures (forall v :: v in values && |v| >= 4 ==> !Contains(s, v)) ==> r == s
  {
    hide StarSafe, Contains, ReplaceAll;
    if s == "" || values == [] {
      assert IsOrder([], []) && s == RedactAll(s, []) && (forall v :: |v| >= MIN_LEN ==> !Contains("", v)) by {
        forall v | |v| >= MIN_LEN ensures !Contains("", v) {
          TooShort("", v);
        }
      }
      return s;
    }
    var uniq: seq<string>, seen: set<string>, i := [], {}, 0;
    while i < |values|
      invariant i <= |values| && Distinct(uniq)
      invariant forall v :: v in seen <==> v in uniq
      invariant forall v :: v in uniq <==> v in values[..i] && |v| >= MIN_LEN
    {
      assert values[..i + 1] == values[..i] + [values[i]];
      if |values[i]| >= MIN_LEN && values[i] !in seen {
        seen := seen + {values[i]};
        uniq := uniq + [values[i]];
      }
      i := i + 1;
    }
    assert values[..i] == values;
    var sorted := SortLongestFirst(uniq);
    r, i := s, 0;
    assert sorted[0..] == sorted;
    while i < |sorted|
      invariant i <= |sorted| && RedactAll(r, sorted[i..]) == RedactAll(s, sorted)
    {
      assert sorted[i..][1..] == sorted[i + 1..];
      r := ReplaceAll(r, sorted[i], Token);
      i := i + 1;
    }
    Redacted(s, sorted, values);
  }

  /** What the program promises, for any order of the values. */
  lemma Redacted(s: string, order: seq<string>, values: seq<string>)
    requires IsOrder(order, values)
    ensures NoneEmpty(order)
    ensures forall v :: v in values && |v| >= MIN_LEN && StarSafe(v) ==> !Contains(RedactAll(s, order), v)
    ensures (forall v :: v in values && |v| >= MIN_LEN ==> !Contains(s, v)) ==> RedactAll(s, order) == s
  {
    hide StarSafe, Contains, RedactAll;
    assert NoneEmpty(order) by {
      forall i | 0 <= i < |order| ensures order[i] != "" {
        assert order[i] in order;
      }
    }
    forall v | v in values && |v| >= MIN_LEN && StarSafe(v) ensures !Contains(RedactAll(s, order), v) {
      RedactionIsComplete(s, order, v);
    }
    if forall v :: v in values && |v| >= MIN_LEN ==> !Contains(s, v) {
      forall i | 0 <= i < |order| ensures !Contains(s, order[i]) {
        assert order[i] in order;
      }
      CleanUnchanged(s, order);
    }
  }

  // ----- exactly which values are safe -----

  lemma {:induction false} TooShort(s: string, v: string)
    requires |s| < |v|
    ensures !Contains(s, v)
  {
    if s != "" {
      TooShort(s[1..], v);
    }
  }

  lemma {:induction false} FirstOccurrence(s: string, p: string) returns (k: nat)
    requires Contains(s, p)
    ensures OccursAt(s, p, k) && forall j :: 0 <= j < k ==> !OccursAt(s, p, j)
  {
    if HasPrefix(s, p) {
      k := 0;
    } else {
      var r := FirstOccurrence(s[1..], p);
      k := r + 1;
      assert s[1..][r..r + |p|] == s[k..k + |p|];
      forall j | 0 <= j < k ensures !OccursAt(s, p, j) {
        if j == 0 {
        } else {
          assert OccursAt(s[1..], p, (j - 1)) <==> OccursAt(s, p, (j - 1) + 1);
        }
      }
    }
  }

  /** Nothing is replaced before the first occurrence. */
  lemma {:induction false} SkipTo(s: string, v: string, k: nat)
    requires v != "" && k <= |s| && forall j :: 0 <= j < k ==> !OccursAt(s, v, j)
    ensures ReplaceAll(s, v, Token) == s[..k] + ReplaceAll(s[k..], v, Token)
  {
    if k == 0 {
      assert s[0..] == s;
    } else {
      hide OccursAt;
      assert HasPrefix(s, v) <==> OccursAt(s, v, 0);
      forall j | 0 <= j < k - 1 ensures !OccursAt(s[1..], v, j) {
        assert OccursAt(s[1..], v, j) <==> OccursAt(s, v, j + 1);
      }
      SkipTo(s[1..], v, k - 1);
      DropDrop(s, 1, k - 1);
      assert s[..k] == [s[0]] + s[1..][..k - 1];
    }
  }

  /** Where `x + v + y` has no earlier occurrence of `v`, exactly that one is replaced. */
  lemma ReplaceThat(x: string, v: string, y: string)
    requires v != "" && !Contains(y, v) && forall j :: 0 <= j < |x| ==> !OccursAt(x + v + y, v, j)
    ensures ReplaceAll(x + v + y, v, Token) == x + Token + y
  {
    var s := x + v + y;
    SkipTo(s, v, |x|);
    assert s[..|x|] == x && s[|x|..] == v + y && (v + y)[..|v|] == v && (v + y)[|v|..] == y;
    NothingReplaced(y, v);
  }

  /** For every value that is not star-safe there is a text in which redacting it leaves it. */
  lemma Leak(v: string) returns (s: string)
    requires v != "" && !StarSafe(v)
    ensures Contains(ReplaceAll(s, v, Token), v)
  {
    hide Contains, ReplaceAll;
    if v[0] == '*' {
      s := LeakAtStart(v);
    } else if v[|v| - 1] == '*' {
      s := LeakAtEnd(v);
    } else {
      s := LeakInside(v);
    }
  }

  lemma LeakAtStart(v: string) returns (s: string)
    requires v != "" && v[0] == '*'
    ensures Contains(ReplaceAll(s, v, Token), v)
  {
    hide Contains, ReplaceAll;
    s := "" + v + v[1..];
    TooShort(v[1..], v);
    ReplaceThat("", v, v[1..]);
    assert ("" + Token + v[1..])[2..2 + |v|] == v;
    OccurrenceContains("" + Token + v[1..], v, 2);
  }

  lemma LeakAtEnd(v: string) returns (s: string)
    requires v != "" && v[0] != '*' && v[|v| - 1] == '*'
    ensures Contains(ReplaceAll(s, v, Token), v)
  {
    hide Contains, ReplaceAll;
    var n := |v| - 1;
    s := v[..n] + v + "";
    TooShort("", v);
    forall j | 0 <= j < n ensures !OccursAt(s, v, j) {
    }
    ReplaceThat(v[..n], v, "");
    assert (v[..n] + Token + "")[..|v|] == v;
    OccurrenceContains(v[..n] + Token + "", v, 0);
  }

  lemma LeakInside(v: string) returns (s: string)
    requires v != "" && Contains(v, Token)
    ensures Contains(ReplaceAll(s, v, Token), v)
  {
    hide ReplaceAll, OccursAt;
    var k := FirstOccurrence(v, Token);
    var x, y := v[..k], v[k + 3..];
    s := x + v + y;
    TooShort(y, v);
    forall j | 0 <= j < k ensures !OccursAt(s, v, j) {
      if OccursAt(s, v, j) {
        EarlierToken(v, k, j);
      }
    }
    ReplaceThat(x, v, y);
  }

  lemma EarlierToken(v: string, k: nat, j: nat)
    requires j < k && OccursAt(v, Token, k) && OccursAt(v[..k] + v + v[k + 3..], v, j)
    ensures OccursAt(v, Token, j)
  {
    var s := v[..k] + v + v[k + 3..];
    var found := s[j..j + |v|];
    assert found[k] == s[j + k] == v[j] && found[k + 1] == s[j + k + 1] == v[j + 1];
    assert found[k + 2] == s[j + k + 2] == v[j + 2];
    assert v[k..k + 3] == [v[k], v[k + 1], v[k + 2]] && v[j..j + 3] == [v[j], v[j + 1], v[j + 2]];
  }

  ghost predicate Survives(v: string, s: string)
    requires v != ""
  {
    Contains(ReplaceAll(s, v, Token), v)
  }

  /** Redacting one value is complete for every text exactly when the value is star-safe. */
  lemma CompleteIffStarSafe(v: string)
    requires v != ""
    ensures (forall s :: !Survives(v, s)) <==> StarSafe(v)
  {
    if StarSafe(v) {
      forall s ensures !Survives(v, s) {
        if Survives(v, s) {
          OccurredBefore(s, v, v);
        }
      }
    } else {
      var s := Leak(v);
      assert Survives(v, s);
    }
  }

  // ----- why the longest come first -----

  lemma TailOfSafe(w: string, n: nat)
    requires n < |w|
    ensures StarSafe(w) ==> Tail(w[n..])
  {
    if Contains(w[n..], Token) {
      var k := ContainedOccurs(w[n..], Token);
      assert w[n..][k..k + 3] == w[n + k..n + k + 3];
      OccurrenceContains(w, Token, n + k);
    }
  }

  /** A token already in the text separates what is left of it from what is right of it. */
  lemma {:induction false} TokenSeparates(a: string, b: string, w: string)
    requires StarSafe(w)
    ensures ReplaceAll(a + Token + b, w, Token) == ReplaceAll(a, w, Token) + Token + ReplaceAll(b, w, Token)
    decreases |a|
  {
    var s := a + Token + b;
    if a == "" {
      forall j | 0 <= j < 3 ensures !OccursAt(s, w, j) {
      }
      SkipTo(s, w, 3);
      assert s[..3] == Token && s[3..] == b;
    } else {
      assert HasPrefix(a + Token + b, w) <==> HasPrefix(a, w) by {
        assert StarSafe(w);
        var s := a + Token + b;
        if HasPrefix(s, w) && |w| > |a| {
          ReachingIn(a, b, w);
        }
        assert s[..|a|] == a;
      }
      var n := if HasPrefix(a, w) then |w| else 1;
      assert s[n..] == a[n..] + Token + b;
      TokenSeparates(a[n..], b, w);
    }
  }

  lemma ReachingIn(a: string, b: string, w: string)
    requires |w| > |a| && HasPrefix(a + Token + b, w)
    ensures !StarSafe(w)
  {
    var s := a + Token + b;
    assert s[|a|..] == Token + b && w[|a|..] == s[|a|..|w|];
    TokenHidesTail(b, w[|a|..]);
    TailOfSafe(w, |a|);
  }

  ghost predicate AllSafe(vs: seq<string>) {
    forall i :: 0 <= i < |vs| ==> StarSafe(vs[i])
  }

  lemma {:induction false} TokenSeparatesAll(a: string, b: string, vs: seq<string>)
    requires NoneEmpty(vs) && AllSafe(vs)
    ensures RedactAll(a + Token + b, vs) == RedactAll(a, vs) + Token + RedactAll(b, vs)
    decreases |vs|
  {
    hide StarSafe;
    if vs != [] {
      TokenSeparates(a, b, vs[0]);
      TokenSeparatesAll(ReplaceAll(a, vs[0], Token), ReplaceAll(b, vs[0], Token), vs[1..]);
    }
  }

  lemma OccursInside(x: string, s: string, y: string, w: string)
    requires Contains(s, w)
    ensures exists k :: |x| <= k <= |x| + |s| - |w| && OccursAt(x + s + y, w, k)
  {
    var k := ContainedOccurs(s, w);
    assert (x + s + y)[|x| + k..|x| + k + |w|] == s[k..k + |w|];
    assert OccursAt(x + s + y, w, |x| + k);
  }

  /** No occurrence of `x` touches the `v` between `a` and `b`. */
  ghost predicate Clear(a: string, v: string, b: string, x: string) {
    forall j :: OccursAt(a + v + b, x, j) ==> j + |x| <= |a| || j >= |a| + |v|
  }

  /** The `v` between `a` and `b` is its first occurrence. */
  ghost predicate IsFirst(a: string, v: string, b: string) {
    forall j :: OccursAt(a + v + b, v, j) ==> j >= |a|
  }

  lemma OccursShift(s: string, w: string, n: nat, j: nat)
    requires n <= |s| && OccursAt(s[n..], w, j)
    ensures OccursAt(s, w, n + j)
  {
    DropTake(s, n, j, j + |w|);
  }

  /** Replacing what does not touch `v` leaves `v`, and handles both sides by themselves. */
  lemma {:induction false} SplitReplace(a: string, v: string, b: string, w: string)
    requires w != "" && Clear(a, v, b, w)
    ensures ReplaceAll(a + v + b, w, Token) == ReplaceAll(a, w, Token) + v + ReplaceAll(b, w, Token)
    decreases |a|
  {
    hide ReplaceAll;
    var s := a + v + b;
    if a == "" {
      ReplaceStep(a, w);
      assert s == v + b;
      SkipTo(s, w, |v|);
      assert s[..|v|] == v && s[|v|..] == b;
    } else {
      assert HasPrefix(s, w) <==> OccursAt(s, w, 0);
      assert HasPrefix(s, w) ==> |w| <= |a|;
      assert s[..|a|] == a;
      var n := if HasPrefix(s, w) then |w| else 1;
      assert s[n..] == a[n..] + v + b;
      forall j | OccursAt(a[n..] + v + b, w, j) ensures j + |w| <= |a| - n || j >= |a| - n + |v| {
        OccursShift(s, w, n, j);
      }
      SplitReplace(a[n..], v, b, w);
      ReplaceStep(s, w);
      ReplaceStep(a, w);
    }
  }

  /** The end of a redacted text from which no star shows is the end of the text. */
  lemma {:induction false} TailSame(a: string, w: string, j: nat)
    requires w != "" && j <= |ReplaceAll(a, w, Token)|
    requires var q := ReplaceAll(a, w, Token)[j..]; (q != "" ==> q[0] != '*') && !Contains(q, Token)
    ensures var q := ReplaceAll(a, w, Token)[j..]; |q| <= |a| && a[|a| - |q|..] == q
    decreases |a|
  {
    hide Contains, HasPrefix, ReplaceAll;
    var r := ReplaceAll(a, w, Token);
    ReplaceStep(a, w);
    if a == "" || j == |r| {
      assert r[j..] == "";
    } else if HasPrefix(a, w) {
      var rest := ReplaceAll(a[|w|..], w, Token);
      assert r[j] == r[j..][0];
      assert j >= 3;
      BehindToken(rest, j);
      TailSame(a[|w|..], w, j - 3);
      DropDrop(a, |w|, |a| - |w| - |r[j..]|);
    } else if j > 0 {
      var rest := ReplaceAll(a[1..], w, Token);
      BehindByte(a[0], rest, j);
      TailSame(a[1..], w, j - 1);
      DropDrop(a, 1, |a| - 1 - |r[j..]|);
    } else {
      assert r[0..] == r;
      if Contains(a, w) {
        TokenShows(a, w);
      }
      NothingReplaced(a, w);
      assert a[0..] == a;
    }
  }

  lemma BehindToken(rest: string, j: nat)
    requires 3 <= j <= 3 + |rest|
    ensures (Token + rest)[j..] == rest[j - 3..]
  {
  }

  lemma BehindByte(c: char, rest: string, j: nat)
    requires 1 <= j <= 1 + |rest|
    ensures ([c] + rest)[j..] == rest[j - 1..]
  {
  }

  lemma {:induction false} TokenShows(a: string, w: string)
    requires w != "" && Contains(a, w)
    ensures Contains(ReplaceAll(a, w, Token), Token)
    decreases |a|
  {
    ReplaceStep(a, w);
    var r := ReplaceAll(a, w, Token);
    if a == "" {
      TooShort(a, w);
    } else if HasPrefix(a, w) {
    } else {
      TokenShows(a[1..], w);
      assert r[1..] == ReplaceAll(a[1..], w, Token);
    }
  }

  /** What touches `v` after a replacement on both sides touched it before, at the same place. */
  lemma TouchBack(a: string, v: string, b: string, w: string, x: string, j: nat)
    requires w != "" && StarSafe(x)
    requires var a', b' := ReplaceAll(a, w, Token), ReplaceAll(b, w, Token);
             OccursAt(a' + v + b', x, j) && j + |x| > |a'| && j < |a'| + |v|
    ensures var k := |a| + j - |ReplaceAll(a, w, Token)|;
            OccursAt(a + v + b, x, k) && k + |x| > |a| && k < |a| + |v|
  {
    hide ReplaceAll, StarSafe, Contains;
    var a', b' := ReplaceAll(a, w, Token), ReplaceAll(b, w, Token);
    var t, s := a' + v + b', a + v + b;
    var n := if j < |a'| then |a'| - j else 0;
    var e := if j + |x| > |a'| + |v| then j + |x| - |a'| - |v| else 0;
    assert t[j..j + |x|] == x;
    assert a'[|a'| - n..] == x[..n] by {
      assert t[..|a'|] == a' && (n > 0 ==> t[j..j + |x|][..n] == a'[j..]);
    }
    assert b'[..e] == x[|x| - e..] by {
      assert t[|a'| + |v|..] == b' && (e > 0 ==> t[j..j + |x|][|x| - e..] == b'[..e]);
    }
    EndsSame(a, w, x, n);
    StartsSame(b, w, x, e);
    Aligned(a, v, b, a', b', x, j, n, e);
  }

  lemma EndsSame(a: string, w: string, x: string, n: nat)
    requires w != "" && StarSafe(x) && n <= |x| && n <= |ReplaceAll(a, w, Token)|
    requires ReplaceAll(a, w, Token)[|ReplaceAll(a, w, Token)| - n..] == x[..n]
    ensures n <= |a| && a[|a| - n..] == x[..n]
  {
    NotEmptySafe(x);
    assert !Contains(x[..n], Token) by {
      assert StarSafe(x) && n <= |x|;
      if Contains(x[..n], Token) {
        var k := ContainedOccurs(x[..n], Token);
        assert x[..n][k..k + 3] == x[k..k + 3];
        OccurrenceContains(x, Token, k);
      }
    }
    hide ReplaceAll, StarSafe, Contains;
    TailSame(a, w, |ReplaceAll(a, w, Token)| - n);
  }

  lemma StartsSame(b: string, w: string, x: string, e: nat)
    requires w != "" && StarSafe(x) && e <= |x| && e <= |ReplaceAll(b, w, Token)| && ReplaceAll(b, w, Token)[..e] == x[|x| - e..]
    ensures e <= |b| && b[..e] == x[|x| - e..]
  {
    if e > 0 {
      TailOfSafe(x, |x| - e);
      hide ReplaceAll, StarSafe, Contains, Tail;
      TailBack(b, w, x[|x| - e..]);
    }
  }

  lemma Aligned(a: string, v: string, b: string, a': string, b': string, x: string, j: nat, n: nat, e: nat)
    requires OccursAt(a' + v + b', x, j) && j + |x| > |a'| && j < |a'| + |v|
    requires n == (if j < |a'| then |a'| - j else 0) && e == (if j + |x| > |a'| + |v| then j + |x| - |a'| - |v| else 0)
    requires n <= |a| && n <= |x| && e <= |x| && e <= |b| && a[|a| - n..] == x[..n] && b[..e] == x[|x| - e..]
    ensures var k := |a| + j - |a'|; OccursAt(a + v + b, x, k) && k + |x| > |a| && k < |a| + |v|
  {
    var t, s, k := a' + v + b', a + v + b, |a| + j - |a'|;
    forall i | 0 <= i < |x| ensures s[k + i] == x[i] {
      assert t[j..j + |x|][i] == t[j + i];
      if i < n {
        assert a[|a| - n..][i] == x[..n][i];
      } else if i >= |x| - e {
        assert b[..e][i - (|x| - e)] == x[|x| - e..][i - (|x| - e)];
      }
    }
    assert s[k..k + |x|] == x;
  }

  lemma ClearStays(a: string, v: string, b: string, w: string, x: string)
    requires w != "" && StarSafe(x) && Clear(a, v, b, x)
    ensures Clear(ReplaceAll(a, w, Token), v, ReplaceAll(b, w, Token), x)
  {
    hide ReplaceAll, StarSafe;
    var a', b' := ReplaceAll(a, w, Token), ReplaceAll(b, w, Token);
    forall j | OccursAt(a' + v + b', x, j) ensures j + |x| <= |a'| || j >= |a'| + |v| {
      if j + |x| > |a'| && j < |a'| + |v| {
        TouchBack(a, v, b, w, x, j);
      }
    }
  }

  lemma FirstStays(a: string, v: string, b: string, w: string)
    requires w != "" && StarSafe(v) && IsFirst(a, v, b)
    ensures IsFirst(ReplaceAll(a, w, Token), v, ReplaceAll(b, w, Token))
  {
    hide ReplaceAll, StarSafe;
    var a', b' := ReplaceAll(a, w, Token), ReplaceAll(b, w, Token);
    NotEmptySafe(v);
    forall j | OccursAt(a' + v + b', v, j) ensures j >= |a'| {
      if j < |a'| {
        if j + |v| > |a'| {
          TouchBack(a, v, b, w, v, j);
        } else {
          assert Contains(a', v) by {
            var s := a' + v + b';
            assert s[..|a'|] == a';
            assert s[..|a'|][j..j + |v|] == s[j..j + |v|];
            OccurrenceContains(a', v, j);
          }
          OccurredBefore(a, w, v);
          NotInLeft(a, v, b);
        }
      }
    }
  }

  lemma NotInLeft(a: string, v: string, b: string)
    requires v != "" && IsFirst(a, v, b)
    ensures !Contains(a, v)
  {
    hide OccursAt, Contains;
    if Contains(a, v) {
      assert a + v + b == "" + a + (v + b);
      OccursInside("", a, v + b, v);
    }
  }

  /** Where a value first occurs and neither a longer value nor another as long touches it, it becomes
      one token as a whole, and what is before and after it is redacted by itself: shorter values inside
      it or across its ends leave no remnant of it. */
  lemma {:induction false} NoRemnant(a: string, v: string, b: string, vs: seq<string>)
    requires NoneEmpty(vs) && AllSafe(vs) && LongestFirst(vs) && v in vs
    requires IsFirst(a, v, b)
    requires forall w :: w in vs && |w| >= |v| && w != v ==> Clear(a, v, b, w)
    ensures RedactAll(a + v + b, vs) == RedactAll(a, vs) + Token + RedactAll(b, vs)
    decreases |vs|
  {
    hide Contains, StarSafe, OccursAt, LongestFirst, ReplaceAll, IsFirst, Clear;
    var w := vs[0];
    if w == v {
      NotInLeft(a, v, b);
      ReplaceFirst(a, v, b);
      NothingReplaced(a, v);
      TokenSeparatesAll(a, ReplaceAll(b, v, Token), vs[1..]);
    } else {
      FirstIsLongest(vs, v);
      SplitReplace(a, v, b, w);
      FirstStays(a, v, b, w);
      forall x | x in vs[1..] && |x| >= |v| && x != v ensures Clear(ReplaceAll(a, w, Token), v, ReplaceAll(b, w, Token), x) {
        ClearStays(a, v, b, w, x);
      }
      NoRemnant(ReplaceAll(a, w, Token), v, ReplaceAll(b, w, Token), vs[1..]);
    }
  }

  lemma ReplaceFirst(a: string, v: string, b: string)
    requires v != "" && IsFirst(a, v, b)
    ensures ReplaceAll(a + v + b, v, Token) == a + Token + ReplaceAll(b, v, Token)
  {
    hide OccursAt;
    var s := a + v + b;
    SkipTo(s, v, |a|);
    assert s[..|a|] == a && s[|a|..] == v + b && (v + b)[..|v|] == v && (v + b)[|v|..] == b;
  }

  lemma FirstIsLongest(vs: seq<string>, v: string)
    requires LongestFirst(vs) && v in vs && v != vs[0]
    ensures |vs[0]| >= |v| && v in vs[1..] && LongestFirst(vs[1..])
  {
    var i :| 0 <= i < |vs| && vs[i] == v;
    assert vs[1..][i - 1] == v;
  }

  /** The other order leaves the tail of the longer value. */
  lemma ShortestFirstLeavesRemnant()
    ensures RedactAll("abcdef", ["abcdef", "abcd"]) == "***"
    ensures RedactAll("abcdef", ["abcd", "abcdef"]) == "***ef"
  {
    ReplaceThat("", "abcdef", "");
    assert "" + "abcdef" + "" == "abcdef" && "" + Token + "" == "***";
    TooShort("***", "abcd");
    NothingReplaced("***", "abcd");
    TooShort("ef", "abcd");
    ReplaceThat("", "abcd", "ef");
    assert "" + "abcd" + "ef" == "abcdef" && "" + Token + "ef" == "***ef";
    TooShort("***ef", "abcdef");
    NothingReplaced("***ef", "abcdef");
  }
}
