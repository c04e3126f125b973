/** JavaScript strings as the exporter sees them: sequences of UTF-16 code units, lone
    surrogates included, with the UTF-8 length of section 3 of RFC 3629 (a lone surrogate is
    written as U+FFFD, three bytes). */
module JsText {
  type CodeUnit = u: int | 0 <= u < 0x1_0000
  type Text = seq<CodeUnit>

  const NUL: CodeUnit := 0x00
  const SPACE: CodeUnit := 0x20
  const DOT: CodeUnit := 0x2E
  const SLASH: CodeUnit := 0x2F
  const BACKSLASH: CodeUnit := 0x5C
  const UNDERSCORE: CodeUnit := 0x5F
  const TILDE: CodeUnit := 0x7E

  predicate HighSurrogate(u: CodeUnit) { 0xD800 <= u < 0xDC00 }

  predicate LowSurrogate(u: CodeUnit) { 0xDC00 <= u < 0xE000 }

  predicate LowerAlpha(u: CodeUnit) { 0x61 <= u <= 0x7A }

  predicate UpperAlpha(u: CodeUnit) { 0x41 <= u <= 0x5A }

  predicate Digit(u: CodeUnit) { 0x30 <= u <= 0x39 }

  predicate Alnum(u: CodeUnit) { LowerAlpha(u) || UpperAlpha(u) || Digit(u) }

  predicate Ascii(s: Text) { forall i | 0 <= i < |s| :: s[i] < 0x80 }

  /** How many code units the first character of a string iteration takes. */
  function FirstUnits(s: Text): (n: nat)
    requires s != []
    ensures 1 <= n <= |s|
  {
    if |s| >= 2 && HighSurrogate(s[0]) && LowSurrogate(s[1]) then 2 else 1
  }

  /** How many UTF-8 bytes that character takes. */
  function FirstBytes(s: Text): nat
    requires s != []
  {
    if FirstUnits(s) == 2 then 4 else if s[0] < 0x80 then 1 else if s[0] < 0x800 then 2 else 3
  }

  function ByteLength(s: Text): nat {
    if s == [] then 0 else FirstBytes(s) + ByteLength(s[FirstUnits(s)..])
  }

  /** n is a position between two characters of s: never inside a surrogate pair. */
  predicate CharacterBoundary(s: Text, n: int)
    decreases |s|
  {
    n == 0 || (s != [] && FirstUnits(s) <= n && CharacterBoundary(s[FirstUnits(s)..], n - FirstUnits(s)))
  }

  /** Positions between characters, told by the units beside them: all but those inside a pair. */
  lemma {:induction false} BoundaryByUnits(s: Text, n: nat)
    requires n <= |s|
    ensures CharacterBoundary(s, n) <==> n == 0 || n == |s| || !(HighSurrogate(s[n - 1]) && LowSurrogate(s[n]))
    decreases |s|
  {
    if n == 0 {
    } else if FirstUnits(s) <= n {
      BoundaryByUnits(s[FirstUnits(s)..], n - FirstUnits(s));
    }
  }

  /** The code unit is one half of a surrogate pair. */
  predicate Paired(s: Text, i: nat)
    requires i < |s|
  {
    || (HighSurrogate(s[i]) && i + 1 < |s| && LowSurrogate(s[i + 1]))
    || (LowSurrogate(s[i]) && i > 0 && HighSurrogate(s[i - 1]))
  }

  /** UTF-8 bytes unit by unit: each half of a pair accounts for two of the pair's four. */
  function UnitBytes(s: Text, i: nat): nat
    requires i < |s|
  {
    if s[i] < 0x80 then 1 else if s[i] < 0x800 || Paired(s, i) then 2 else 3
  }

  function BytesFrom(s: Text, i: nat): nat
    requires i <= |s|
    decreases |s| - i
  {
    if i == |s| then 0 else UnitBytes(s, i) + BytesFrom(s, i + 1)
  }

  lemma {:induction false} BytesByUnits(s: Text, i: nat)
    requires i <= |s| && (0 < i < |s| ==> !(HighSurrogate(s[i - 1]) && LowSurrogate(s[i])))
    ensures ByteLength(s[i..]) == BytesFrom(s, i)
    decreases |s| - i
  {
    if i == |s| {
    } else {
      var k := FirstUnits(s[i..]);
      BytesByUnits(s, i + k);
      assert s[i..][k..] == s[i + k..];
    }
  }

  /** The length in bytes is the sum over the units. */
  lemma ByteLengthByUnits(s: Text)
    ensures ByteLength(s) == BytesFrom(s, 0)
  {
    BytesByUnits(s, 0);
    assert s[0..] == s;
  }

  /** Joining two strings merges a surrogate pair only at the seam. */
  lemma {:induction false} ByteLengthOfJoin(a: Text, b: Text)
    requires a == [] || b == [] || !(HighSurrogate(a[|a| - 1]) && LowSurrogate(b[0]))
    ensures ByteLength(a + b) == ByteLength(a) + ByteLength(b)
    decreases |a|
  {
    if a == [] {
      assert a + b == b;
    } else if b == [] {
      assert a + b == a;
    } else {
      var k := FirstUnits(a);
      assert FirstUnits(a + b) == k;
      assert (a + b)[k..] == a[k..] + b;
      ByteLengthOfJoin(a[k..], b);
    }
  }

  lemma {:induction false} ByteLengthOfAscii(s: Text)
    requires Ascii(s)
    ensures ByteLength(s) == |s|
  {
    if s == [] {
    } else {
      ByteLengthOfAscii(s[1..]);
    }
  }

  /** What `split('/')` returns. */
  function Split(s: Text): (parts: seq<Text>)
    ensures parts != []
    decreases |s|
  {
    if s == [] then [[]]
    else
      var rest := Split(s[1..]);
      if s[0] == SLASH then [[]] + rest else [[s[0]] + rest[0]] + rest[1..]
  }

  function NonEmpty(parts: seq<Text>): (kept: seq<Text>)
    ensures forall i | 0 <= i < |kept| :: kept[i] != [] && kept[i] in parts
  {
    if parts == [] then [] else (if parts[0] == [] then [] else [parts[0]]) + NonEmpty(parts[1..])
  }

  lemma {:induction false} NonEmptyOfBoth(a: seq<Text>, b: seq<Text>)
    ensures NonEmpty(a + b) == NonEmpty(a) + NonEmpty(b)
  {
    if a == [] {
      assert a + b == b;
    } else {
      var first := if a[0] == [] then [] else [a[0]];
      NonEmptyOfBoth(a[1..], b);
      assert (a + b)[0] == a[0] && (a + b)[1..] == a[1..] + b;
      assert first + (NonEmpty(a[1..]) + NonEmpty(b)) == first + NonEmpty(a[1..]) + NonEmpty(b);
    }
  }

  /** What `filter(Boolean)` keeps, one part at a time. */
  lemma NonEmptyByParts(part: Text)
    ensures NonEmpty([part]) == (if part == [] then [] else [part]) && NonEmpty([]) == []
  {
    assert [part][1..] == [];
  }

  /** `base/name0/name1/...` */
  function Join(base: Text, names: seq<Text>): Text
    decreases |names|
  {
    if names == [] then base else Join(base + [SLASH] + names[0], names[1..])
  }

  predicate OneSegment(s: Text) { SLASH !in s }

  lemma {:induction false} SplitPartsHaveNoSlash(s: Text)
    ensures forall i | 0 <= i < |Split(s)| :: OneSegment(Split(s)[i])
    decreases |s|
  {
    if s == [] {
    } else {
      SplitPartsHaveNoSlash(s[1..]);
    }
  }

  lemma {:induction false} SplitOneSegment(s: Text)
    requires OneSegment(s)
    ensures Split(s) == [s]
  {
    if s == [] {
    } else {
      SplitOneSegment(s[1..]);
      assert s == [s[0]] + s[1..] && s[0] in s;
    }
  }

  lemma {:induction false} SplitAtSlash(a: Text, b: Text)
    ensures Split(a + [SLASH] + b) == Split(a) + Split(b)
    decreases |a|
  {
    var whole := a + [SLASH] + b;
    if a == [] {
      assert whole[1..] == b;
    } else {
      assert whole[1..] == a[1..] + [SLASH] + b;
      SplitAtSlash(a[1..], b);
    }
  }

  /** Splitting a path built from slash-free names gives the names back. */
  lemma {:induction false} SplitOfJoin(base: Text, names: seq<Text>)
    requires forall i | 0 <= i < |names| :: OneSegment(names[i])
    ensures Split(Join(base, names)) == Split(base) + names
    decreases |names|
  {
    if names == [] {
    } else {
      SplitAtSlash(base, names[0]);
      SplitOneSegment(names[0]);
      SplitOfJoin(base + [SLASH] + names[0], names[1..]);
      assert Split(base) + names == Split(base) + [names[0]] + names[1..];
    }
  }

  lemma {:induction false} JoinStartsWith(base: Text, names: seq<Text>)
    ensures base <= Join(base, names)
    decreases |names|
  {
    if names == [] {
    } else {
      JoinStartsWith(base + [SLASH] + names[0], names[1..]);
    }
  }
}
