/** Disk names for customer names: `portableSegment` and `hashedSegment`. */
module Naming {
  import opened JsText

  predicate LowerHex(u: CodeUnit) { Digit(u) || 0x61 <= u <= 0x66 }

  /** A SHA-256 digest printed in hexadecimal. */
  type Digest = s: Text | |s| == 64 && forall i | 0 <= i < 64 :: LowerHex(s[i])
    witness seq(64, _ => 0x30)

  /** What the exporter takes from the platform: the digest of a string, and the Unicode NFC and
      lower-case fold it compares disk names under. Both are arbitrary functions here. */
  datatype Platform = Platform(digest: Text -> Digest, fold: Text -> Text)

  predicate Forbidden(u: CodeUnit) {
    || u <= 0x1F || u == 0x7F
    || u == SLASH || u == BACKSLASH || u == 0x3C || u == 0x3E || u == 0x3A // / \ < > :
    || u == 0x22 || u == 0x7C || u == 0x3F || u == 0x2A // " | ? *
  }

  predicate NoForbidden(s: Text) { forall i | 0 <= i < |s| :: !Forbidden(s[i]) }

  predicate DotOrSpace(u: CodeUnit) { u == DOT || u == SPACE }

  /** u is the ASCII letter with this lower-case code, in either case. */
  predicate Letter(u: CodeUnit, lower: CodeUnit)
    requires LowerAlpha(lower)
  {
    u == lower || u == lower - 0x20
  }

  predicate Letters3(s: Text, a: CodeUnit, b: CodeUnit, c: CodeUnit)
    requires LowerAlpha(a) && LowerAlpha(b) && LowerAlpha(c)
  {
    |s| >= 3 && Letter(s[0], a) && Letter(s[1], b) && Letter(s[2], c)
  }

  /** The name is a reserved Windows device: con, prn, aux, nul, com0-9 or lpt0-9, alone or
      before a dot. */
  predicate ReservedDevice(s: Text) {
    || ((Letters3(s, 0x63, 0x6F, 0x6E) || Letters3(s, 0x70, 0x72, 0x6E)
         || Letters3(s, 0x61, 0x75, 0x78) || Letters3(s, 0x6E, 0x75, 0x6C))
        && (|s| == 3 || s[3] == DOT))
    || ((Letters3(s, 0x63, 0x6F, 0x6D) || Letters3(s, 0x6C, 0x70, 0x74))
        && |s| >= 4 && Digit(s[3]) && (|s| == 4 || s[4] == DOT))
  }

  /** A name every supported disk can hold as it is. */
  predicate SafeName(s: Text) {
    && s != []
    && ByteLength(s) <= 255
    && NoForbidden(s)
    && !DotOrSpace(s[|s| - 1])
    && !ReservedDevice(s)
  }

  // ---- the source's operations ----

  function ReplaceForbidden(s: Text): Text {
    seq(|s|, i requires 0 <= i < |s| => if Forbidden(s[i]) then UNDERSCORE else s[i])
  }

  function TrailingDotsAndSpaces(s: Text): (n: nat)
    ensures n <= |s|
    ensures forall i | |s| - n <= i < |s| :: DotOrSpace(s[i])
    ensures n < |s| ==> !DotOrSpace(s[|s| - n - 1])
  {
    if s == [] || !DotOrSpace(s[|s| - 1]) then 0 else 1 + TrailingDotsAndSpaces(s[..|s| - 1])
  }

  function ReplaceEnding(s: Text): Text {
    var n := TrailingDotsAndSpaces(s);
    s[..|s| - n] + seq(n, _ => UNDERSCORE)
  }

  function AlnumEnding(s: Text): (n: nat)
    ensures n <= |s|
    ensures forall i | |s| - n <= i < |s| :: Alnum(s[i])
    ensures n < |s| ==> !Alnum(s[|s| - n - 1])
  {
    if s == [] || !Alnum(s[|s| - 1]) then 0 else 1 + AlnumEnding(s[..|s| - 1])
  }

  predicate ExtensionShape(e: Text) {
    e == [] || (|e| > 1 && e[0] == DOT && forall i | 1 <= i < |e| :: Alnum(e[i]))
  }

  /** The match of /\.[A-Za-z0-9]{1,16}$/, unless it starts the name. */
  function Extension(s: Text): (e: Text)
    ensures |e| <= 17 && |e| <= |s| && e == s[|s| - |e|..] && ExtensionShape(e)
    ensures e != [] ==> |e| < |s|
  {
    var n := AlnumEnding(s);
    if 1 <= n <= 16 && |s| - n - 1 > 0 && s[|s| - n - 1] == DOT then s[|s| - n - 1..] else []
  }

  /** Whole characters from the front, as long as they fit in `budget` bytes. */
  function Truncate(s: Text, budget: int): (t: Text)
    ensures t <= s
    decreases |s|
  {
    if s == [] || FirstBytes(s) > budget then []
    else
      var k := FirstUnits(s);
      var rest := Truncate(s[k..], budget - FirstBytes(s));
      s[..k] + rest
  }

  const NAME: Text := [0x6E, 0x61, 0x6D, 0x65] // name

  function StemOf(s: Text): Text {
    var stem := s[..|s| - |Extension(s)|];
    if stem == [] then NAME else stem
  }

  function SuffixOf(p: Platform, s: Text, original: Text): (suffix: Text)
    ensures |suffix| == 13 + |Extension(s)| && suffix[0] == TILDE
  {
    [TILDE] + p.digest(original)[..12] + Extension(s)
  }

  function HashedSegment(p: Platform, s: Text, original: Text): Text {
    var suffix := SuffixOf(p, s, original);
    Truncate(StemOf(s), 255 - ByteLength(suffix)) + suffix
  }

  function Sanitized(s: Text): Text {
    var cleaned := ReplaceEnding(ReplaceForbidden(s));
    if ReservedDevice(s) then [UNDERSCORE] + cleaned else cleaned
  }

  function PortableSegment(p: Platform, s: Text): Text {
    if s != [] && Sanitized(s) == s && ByteLength(s) <= 255 then s
    else HashedSegment(p, Sanitized(s), s)
  }

  /** The source's loop over the characters of the stem. */
  method TakeCharacters(stem: Text, budget: int) returns (truncated: Text)
    ensures truncated == Truncate(stem, budget)
  {
    var bytes, rest := 0, stem;
    truncated := [];
    while rest != []
      invariant Truncate(stem, budget) == truncated + Truncate(rest, budget - bytes)
      decreases |rest|
    {
      var k := FirstUnits(rest);
      bytes := bytes + FirstBytes(rest);
      if bytes > budget { break; }
      truncated, rest := truncated + rest[..k], rest[k..];
    }
  }

  method ComputeHashedSegment(p: Platform, s: Text, original: Text) returns (r: Text)
    ensures r == HashedSegment(p, s, original)
  {
    var suffix := SuffixOf(p, s, original);
    var truncated := TakeCharacters(StemOf(s), 255 - ByteLength(suffix));
    r := truncated + suffix;
  }

  // ---- what truncation keeps ----

  /** Truncation cuts between characters. */
  lemma {:induction false} TruncateCutsBetweenCharacters(s: Text, budget: int)
    ensures CharacterBoundary(s, |Truncate(s, budget)|)
    decreases |s|
  {
    if s == [] || FirstBytes(s) > budget {
    } else {
      TruncateCutsBetweenCharacters(s[FirstUnits(s)..], budget - FirstBytes(s));
    }
  }

  /** And within the budget. */
  lemma {:induction false} TruncateFits(s: Text, budget: int)
    requires budget >= 0
    ensures ByteLength(Truncate(s, budget)) <= budget
    decreases |s|
  {
    if s == [] || FirstBytes(s) > budget {
    } else {
      var k := FirstUnits(s);
      var rest := Truncate(s[k..], budget - FirstBytes(s));
      TruncateFits(s[k..], budget - FirstBytes(s));
      FirstCharacterKept(s, k + |rest|);
      assert rest == s[k..][..|rest|] == s[k..k + |rest|];
      assert Truncate(s, budget) == s[..k] + rest == s[..k + |rest|];
    }
  }

  /** And no later boundary would fit: truncation loses no character it could have kept. */
  lemma {:induction false} TruncateIsLongest(s: Text, budget: int, n: nat)
    requires budget >= 0
    requires n <= |s| && CharacterBoundary(s, n) && ByteLength(s[..n]) <= budget
    ensures n <= |Truncate(s, budget)|
    decreases |s|
  {
    if n == 0 {
    } else {
      var k := FirstUnits(s);
      FirstCharacterKept(s, n);
      assert s[k..n] == s[k..][..n - k];
      TruncateIsLongest(s[k..], budget - FirstBytes(s), n - k);
    }
  }

  lemma LongestFront(s: Text, budget: nat)
    ensures var n := |Truncate(s, budget)|;
            && Truncate(s, budget) == s[..n] && CharacterBoundary(s, n) && ByteLength(s[..n]) <= budget
            && forall m {:trigger s[..m]} | n < m <= |s| && CharacterBoundary(s, m) :: ByteLength(s[..m]) > budget
  {
    TruncateFits(s, budget);
    TruncateCutsBetweenCharacters(s, budget);
    assert Truncate(s, budget) == s[..|Truncate(s, budget)|];
    forall m | |Truncate(s, budget)| < m <= |s| && CharacterBoundary(s, m) ensures ByteLength(s[..m]) > budget {
      if ByteLength(s[..m]) <= budget {
        TruncateIsLongest(s, budget, m);
      }
    }
  }

  /** Cutting at a later boundary leaves the first character whole. */
  lemma FirstCharacterKept(s: Text, n: nat)
    requires s != [] && FirstUnits(s) <= n <= |s|
    ensures FirstUnits(s[..n]) == FirstUnits(s) && FirstBytes(s[..n]) == FirstBytes(s)
    ensures ByteLength(s[..n]) == FirstBytes(s) + ByteLength(s[FirstUnits(s)..n])
  {
    assert s[..n][0] == s[0];
    assert s[..n][FirstUnits(s)..] == s[FirstUnits(s)..n];
  }

  // ---- what the operations find ----

  /** The tables of the source, as it writes them. */
  const FORBIDDEN := "/\\<>:\"|?*"
  const DEVICES := [
    "con", "prn", "aux", "nul", "com0", "com1", "com2", "com3", "com4", "com5", "com6", "com7", "com8", "com9",
    "lpt0", "lpt1", "lpt2", "lpt3", "lpt4", "lpt5", "lpt6", "lpt7", "lpt8", "lpt9"]

  /** Forbidden are the control characters and those of the table. */
  lemma ForbiddenByTable(u: CodeUnit)
    ensures Forbidden(u) <==> u < 0x20 || u == 0x7F || exists k | 0 <= k < |FORBIDDEN| :: FORBIDDEN[k] as int == u
  {
    assert FORBIDDEN[0] == '/' && FORBIDDEN[1] == '\\' && FORBIDDEN[2] == '<' && FORBIDDEN[3] == '>'
           && FORBIDDEN[4] == ':' && FORBIDDEN[5] == '\"' && FORBIDDEN[6] == '|'
           && FORBIDDEN[7] == '?' && FORBIDDEN[8] == '*';
  }

  /** The name starts with this lower-case word in any case, and ends there or goes on with a dot. */
  predicate Starts(s: Text, word: string) {
    && |word| <= |s| && (|s| == |word| || s[|word|] == DOT)
    && forall i | 0 <= i < |word| ::
         s[i] == word[i] as int || ('a' <= word[i] <= 'z' && s[i] == word[i] as int - 0x20)
  }

  /** Reserved are the names that start with a device of the table. */
  lemma ReservedByTable(s: Text)
    ensures ReservedDevice(s) <==> exists k | 0 <= k < |DEVICES| :: Starts(s, DEVICES[k])
  {
    if ReservedDevice(s) { ReservedIsListed(s); }
    forall k | 0 <= k < |DEVICES| && Starts(s, DEVICES[k]) ensures ReservedDevice(s) { ListedIsReserved(s, k); }
  }

  lemma ReservedIsListed(s: Text)
    requires ReservedDevice(s)
    ensures exists k | 0 <= k < |DEVICES| :: Starts(s, DEVICES[k])
  {
    var k := if Letters3(s, 0x63, 0x6F, 0x6E) then 0 else if Letters3(s, 0x70, 0x72, 0x6E) then 1
             else if Letters3(s, 0x61, 0x75, 0x78) then 2 else if Letters3(s, 0x6E, 0x75, 0x6C) then 3
             else if Letters3(s, 0x63, 0x6F, 0x6D) then 4 + (s[3] - 0x30) else 14 + (s[3] - 0x30);
    assert Starts(s, DEVICES[k]);
  }

  lemma ListedIsReserved(s: Text, k: nat)
    requires k < |DEVICES| && Starts(s, DEVICES[k])
    ensures ReservedDevice(s)
  {
    var word := DEVICES[k];
    assert forall i | 0 <= i < |word| ::
      s[i] == word[i] as int || ('a' <= word[i] <= 'z' && s[i] == word[i] as int - 0x20);
  }

  /** /\.[A-Za-z0-9]{1,16}$/ matches at i, after the first character. */
  predicate ExtensionAt(s: Text, i: nat) {
    0 < i < |s| && s[i] == DOT && 1 <= |s| - i - 1 <= 16 && forall j | i < j < |s| :: Alnum(s[j])
  }

  /** The extension is what matches, and nothing exactly if nothing does. */
  lemma ExtensionIsTheMatch(s: Text)
    ensures forall i: nat | ExtensionAt(s, i) :: Extension(s) == s[i..]
    ensures Extension(s) == [] <==> forall i: nat | i < |s| :: !ExtensionAt(s, i)
  {
    var n := AlnumEnding(s);
    forall i: nat | ExtensionAt(s, i) ensures i == |s| - n - 1 {
      assert !Alnum(s[i]);
    }
    if Extension(s) != [] { assert ExtensionAt(s, |s| - n - 1); }
  }

  /** c is s with forbidden characters and trailing dots and spaces as underscores, after one more
      underscore if s is reserved. */
  predicate CleanedFrom(s: Text, c: Text) {
    var first := if ReservedDevice(s) then 1 else 0;
    && |c| == first + |s| && (ReservedDevice(s) ==> c[0] == UNDERSCORE)
    && forall i | 0 <= i < |s| ::
         c[first + i] == if Forbidden(s[i]) || AllDotsAndSpaces(s[i..]) then UNDERSCORE else s[i]
  }

  lemma SanitizedByUnits(s: Text)
    ensures CleanedFrom(s, Sanitized(s))
  {
    var r := ReplaceForbidden(s);
    var n := TrailingDotsAndSpaces(r);
    assert forall i | 0 <= i < |s| && !Forbidden(s[i]) :: r[i] == s[i];
    forall i | 0 <= i < |s|
      ensures ReplaceEnding(r)[i] == if Forbidden(s[i]) || AllDotsAndSpaces(s[i..]) then UNDERSCORE else s[i]
    {
      if i >= |s| - n {
        assert forall j | i <= j < |s| :: DotOrSpace(r[j]) && DotOrSpace(s[j]);
      } else {
        assert !DotOrSpace(r[|s| - n - 1]);
        assert s[i..][|s| - n - 1 - i] == s[|s| - n - 1];
        assert Forbidden(s[|s| - n - 1]) ==> !DotOrSpace(s[|s| - n - 1]);
      }
    }
  }

  /** What a name becomes that cannot be kept: of the cleaned name, the longest front of its stem that
      fits, then `~`, twelve digits of the digest of the name itself, and the extension. */
  lemma PortableShape(p: Platform, s: Text) returns (c: Text, stem: Text, n: nat, e: Text)
    requires !SafeName(s)
    ensures CleanedFrom(s, c)
    ensures TildeShape(c, p.digest(s), stem, n, e, PortableSegment(p, s))
  {
    c := Sanitized(s);
    SanitizedByUnits(s);
    UnsafeIsHashed(p, s);
    stem, n, e := HashedByUnits(p, c, s);
  }

  /** r is the longest whole-character front of c's stem that fits, then `~`, twelve digits of the digest, and
      c's extension. */
  predicate TildeShape(c: Text, digest: Text, stem: Text, n: nat, e: Text, r: Text) {
    && |e| <= |c| && e == c[|c| - |e|..] && stem == (if c == [] then NAME else c[..|c| - |e|])
    && (if exists i: nat | i < |c| :: ExtensionAt(c, i) then ExtensionAt(c, |c| - |e|) else e == [])
    && n <= |stem| && CharacterBoundary(stem, n) && ByteLength(stem[..n]) + 13 + |e| <= 255
    && (forall m {:trigger stem[..m]} | n < m <= |stem| && CharacterBoundary(stem, m) ::
          ByteLength(stem[..m]) + 13 + |e| > 255)
    && |digest| >= 12 && r == stem[..n] + [TILDE] + digest[..12] + e
  }

  lemma HashedByUnits(p: Platform, c: Text, original: Text) returns (stem: Text, n: nat, e: Text)
    ensures TildeShape(c, p.digest(original), stem, n, e, HashedSegment(p, c, original))
  {
    e, stem := Extension(c), StemOf(c);
    StemAndExtension(c);
    n := HashedShape(p, c, original);
    JoinedInOrder(stem[..n], [TILDE], p.digest(original)[..12], e);
  }

  lemma StemAndExtension(c: Text)
    ensures var e := Extension(c);
            && |e| <= |c| && e == c[|c| - |e|..] && StemOf(c) == (if c == [] then NAME else c[..|c| - |e|])
            && if exists i: nat | i < |c| :: ExtensionAt(c, i) then ExtensionAt(c, |c| - |e|) else e == []
  {
    ExtensionIsTheMatch(c);
    if i: nat :| i < |c| && ExtensionAt(c, i) { assert Extension(c) == c[i..]; }
  }

  lemma JoinedInOrder(a: Text, b: Text, c: Text, d: Text)
    ensures a + (b + c + d) == a + b + c + d
  {
  }

  lemma UnsafeIsHashed(p: Platform, s: Text)
    requires !SafeName(s)
    ensures PortableSegment(p, s) == HashedSegment(p, Sanitized(s), s)
  {
    CleanedUnits(s);
    SanitizedIsClean(s);
  }

  // ---- safety of the names ----

  predicate AllDotsAndSpaces(s: Text) { forall i | 0 <= i < |s| :: DotOrSpace(s[i]) }

  /** Characters of a cleaned name, one by one. */
  lemma CleanedUnits(s: Text)
    ensures var c := ReplaceEnding(ReplaceForbidden(s));
            && |c| == |s| && NoForbidden(c)
            && (forall i | 0 <= i < |s| :: c[i] == s[i] || c[i] == UNDERSCORE)
            && (forall i | 0 <= i < |s| && c[i] != s[i] :: Forbidden(s[i]) || AllDotsAndSpaces(s[i..]))
            && (s != [] ==> !DotOrSpace(c[|s| - 1]))
  {
    var c, r := ReplaceEnding(ReplaceForbidden(s)), ReplaceForbidden(s);
    forall i | 0 <= i < |s| && c[i] != s[i] && !Forbidden(s[i]) ensures AllDotsAndSpaces(s[i..]) {
      assert forall j | i <= j < |s| :: DotOrSpace(r[j]) && DotOrSpace(s[j]);
    }
  }

  /** An underscore is neither a letter, a digit nor a dot, so replacing makes no device name. */
  lemma UnderscoresMakeNoDevice(s: Text, c: Text)
    requires |c| == |s| && forall i | 0 <= i < |s| :: c[i] == s[i] || c[i] == UNDERSCORE
    requires ReservedDevice(c)
    ensures ReservedDevice(s)
  {
    assert |c| >= 3 && c[0] == s[0] && c[1] == s[1] && c[2] == s[2];
    assert |c| == 3 || c[3] == s[3];
  }

  lemma UnderscoreFirstIsNoDevice(c: Text)
    ensures !ReservedDevice([UNDERSCORE] + c)
  {
    assert ([UNDERSCORE] + c)[0] == UNDERSCORE;
  }

  lemma SanitizedIsClean(s: Text)
    ensures NoForbidden(Sanitized(s)) && !ReservedDevice(Sanitized(s))
  {
    CleanedUnits(s);
    var c := ReplaceEnding(ReplaceForbidden(s));
    if ReservedDevice(s) {
      UnderscoreFirstIsNoDevice(c);
      assert NoForbidden([UNDERSCORE] + c);
    } else if ReservedDevice(c) {
      UnderscoresMakeNoDevice(s, c);
    }
  }

  /** Nothing that starts like a device survives a `~` after its first characters. */
  lemma TildeEndsDevice(stem: Text, t: Text, suffix: Text)
    requires t <= stem && suffix != [] && suffix[0] == TILDE
    requires ReservedDevice(t + suffix)
    ensures ReservedDevice(stem)
  {
    assert (t + suffix)[|t|] == TILDE;
    assert |t| >= 4;
    assert forall i | 0 <= i < |t| :: (t + suffix)[i] == stem[i];
  }

  lemma NoForbiddenInJoin(stem: Text, t: Text, suffix: Text)
    requires t <= stem && NoForbidden(stem) && NoForbidden(suffix)
    ensures NoForbidden(t + suffix)
  {
    forall i | 0 <= i < |t + suffix| ensures !Forbidden((t + suffix)[i]) {
      if i < |t| {
        assert (t + suffix)[i] == stem[i];
      }
    }
  }

  lemma HashFits(stem: Text, suffix: Text)
    requires suffix != [] && suffix[0] == TILDE && ByteLength(suffix) <= 255
    ensures ByteLength(Truncate(stem, 255 - ByteLength(suffix)) + suffix) <= 255
  {
    TruncateFits(stem, 255 - ByteLength(suffix));
    ByteLengthOfJoin(Truncate(stem, 255 - ByteLength(suffix)), suffix);
  }

  lemma SafeJoin(stem: Text, suffix: Text)
    requires suffix != [] && suffix[0] == TILDE
    requires NoForbidden(stem) && NoForbidden(suffix)
    requires !DotOrSpace(suffix[|suffix| - 1])
    requires !ReservedDevice(stem)
    requires ByteLength(suffix) <= 255
    ensures SafeName(Truncate(stem, 255 - ByteLength(suffix)) + suffix)
  {
    var t := Truncate(stem, 255 - ByteLength(suffix));
    HashFits(stem, suffix);
    NoForbiddenInJoin(stem, t, suffix);
    assert !ReservedDevice(t + suffix) by {
      if ReservedDevice(t + suffix) {
        TildeEndsDevice(stem, t, suffix);
      }
    }
  }

  lemma SuffixUnits(hash: Text, e: Text)
    requires |hash| == 12 && (forall i | 0 <= i < 12 :: LowerHex(hash[i])) && ExtensionShape(e)
    ensures var suffix := [TILDE] + hash + e;
            NoForbidden(suffix) && Ascii(suffix) && !DotOrSpace(suffix[|suffix| - 1])
  {
    var suffix := [TILDE] + hash + e;
    forall i | 0 <= i < |suffix| ensures !Forbidden(suffix[i]) && suffix[i] < 0x80 {
      assert suffix[i] == if i == 0 then TILDE else if i < 13 then hash[i - 1] else e[i - 13];
    }
    assert suffix[|suffix| - 1] == if e == [] then hash[11] else e[|e| - 1];
  }

  lemma SuffixIsClean(p: Platform, s: Text, original: Text)
    ensures var suffix := SuffixOf(p, s, original);
            && NoForbidden(suffix) && !DotOrSpace(suffix[|suffix| - 1]) && ByteLength(suffix) == |suffix|
  {
    SuffixUnits(p.digest(original)[..12], Extension(s));
    ByteLengthOfAscii(SuffixOf(p, s, original));
  }

  lemma PrefixOfDevice(s: Text, n: nat)
    requires n < |s| && s[n] == DOT && ReservedDevice(s[..n])
    ensures ReservedDevice(s)
  {
    assert forall i | 0 <= i < n :: s[..n][i] == s[i];
    assert n == 3 || n == 4 || s[..n][3] == s[3];
    assert n <= 4 || s[..n][4] == s[4];
  }

  lemma StemIsClean(s: Text)
    requires !ReservedDevice(s)
    ensures !ReservedDevice(StemOf(s))
    ensures NoForbidden(s) ==> NoForbidden(StemOf(s))
  {
    var e := Extension(s);
    var n := |s| - |e|;
    if s == [] {
      assert StemOf(s) == NAME;
    } else if e == [] {
      assert StemOf(s) == s;
    } else {
      assert s[n] == s[n..][0] == DOT;
      assert StemOf(s) == s[..n];
      if ReservedDevice(s[..n]) {
        PrefixOfDevice(s, n);
      }
    }
  }

  /** A hash is put on any name without making it unsafe, reserved or too long. */
  lemma HashedIsSafe(p: Platform, s: Text, original: Text)
    requires NoForbidden(s)
    requires !ReservedDevice(s)
    ensures SafeName(HashedSegment(p, s, original))
  {
    SuffixIsClean(p, s, original);
    StemIsClean(s);
    SafeJoin(StemOf(s), SuffixOf(p, s, original));
  }

  /** A safe name is one path segment, and none that a path lookup treats specially. */
  lemma SafeNameIsOneSegment(s: Text)
    requires SafeName(s)
    ensures OneSegment(s) && BACKSLASH !in s && NUL !in s && s != [DOT] && s != [DOT, DOT]
  {
    assert Forbidden(SLASH) && Forbidden(BACKSLASH) && Forbidden(NUL) && DotOrSpace(DOT);
  }

  lemma {:induction false} PortableIsSafe(p: Platform, s: Text)
    ensures SafeName(PortableSegment(p, s))
  {
    CleanedUnits(s);
    SanitizedIsClean(s);
    if !(s != [] && Sanitized(s) == s && ByteLength(s) <= 255) {
      HashedIsSafe(p, Sanitized(s), s);
    }
  }

  lemma SafeIsSanitized(s: Text)
    requires SafeName(s)
    ensures Sanitized(s) == s
  {
    assert ReplaceForbidden(s) == s;
    assert TrailingDotsAndSpaces(s) == 0;
    assert s[..|s|] + [] == s;
  }

  /** Exactly the safe names are kept as they are. */
  lemma PortableKeepsExactlySafeNames(p: Platform, s: Text)
    ensures PortableSegment(p, s) == s <==> SafeName(s)
  {
    PortableIsSafe(p, s);
    if SafeName(s) {
      SafeIsSanitized(s);
    }
  }

  lemma {:induction false} PortableIsIdempotent(p: Platform, s: Text)
    ensures PortableSegment(p, PortableSegment(p, s)) == PortableSegment(p, s)
  {
    PortableIsSafe(p, s);
    PortableKeepsExactlySafeNames(p, PortableSegment(p, s));
  }

  /** A hashed name is the longest whole-character front of the stem that fits, then `~`, twelve
      hexadecimal digits of the original's digest, and the extension. */
  lemma HashedShape(p: Platform, s: Text, original: Text) returns (n: nat)
    ensures n <= |StemOf(s)| && CharacterBoundary(StemOf(s), n)
    ensures HashedSegment(p, s, original) == StemOf(s)[..n] + ([TILDE] + p.digest(original)[..12] + Extension(s))
    ensures ByteLength(StemOf(s)[..n]) + 13 + |Extension(s)| <= 255
    ensures forall m {:trigger StemOf(s)[..m]} | n < m <= |StemOf(s)| && CharacterBoundary(StemOf(s), m) ::
              ByteLength(StemOf(s)[..m]) + 13 + |Extension(s)| > 255
  {
    SuffixIsClean(p, s, original);
    LongestFront(StemOf(s), 255 - |SuffixOf(p, s, original)|);
    n := |Truncate(StemOf(s), 255 - |SuffixOf(p, s, original)|)|;
  }
}
