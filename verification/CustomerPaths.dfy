/** What the claims table promises about customer files: one path per file, one file per path,
    and a mapping that tells which is which. */
module CustomerPaths {
  import opened JsText
  import opened Options
  import opened PathTree

  /** A customer file: the directory it is exported under and its original path segments. */
  datatype Origin = Origin(base: Text, segments: seq<Text>)

  /** The claims give this path to this customer file. */
  predicate Assigned(p: Scheme, claims: Claims, o: Origin, path: Text) {
    && o.segments != []
    && var names := Lookup(p, claims, o.base, o.base, o.segments);
       names.Some? && path == Join(o.base, names.value)
  }

  /** Two directories some pair of corresponding segments of which differs even up to folding. */
  predicate Apart(p: Scheme, b1: Text, b2: Text) {
    exists i | 0 <= i < |Split(b1)| && i < |Split(b2)| :: p.fold(Split(b1)[i]) != p.fold(Split(b2)[i])
  }

  predicate BasesApart(p: Scheme, bases: set<Text>) {
    forall b1, b2 | b1 in bases && b2 in bases && b1 != b2 :: Apart(p, b1, b2)
  }

  /** Up to folding, path a is path b or one of the directories on the way to b. */
  predicate FoldsOnto(p: Scheme, a: Text, b: Text) {
    |Split(a)| <= |Split(b)| && FoldEqual(p, Split(a), Split(b)[..|Split(a)|])
  }

  /** A scheme whose names are single segments that pass the output checks of `target`. */
  ghost predicate UsableScheme(p: Scheme) {
    && (forall s :: UsableName(p.portable(s)))
    && (forall s, owner :: UsableName(s) ==> UsableName(p.hashed(s, owner)))
  }

  predicate UsableName(name: Text) { OneSegment(name) && TargetPart(name) }

  lemma AssignedSplit(p: Scheme, claims: Claims, o: Origin, path: Text)
    requires UsableScheme(p) && Assigned(p, claims, o, path)
    ensures var names := Lookup(p, claims, o.base, o.base, o.segments).value;
            Split(path) == Split(o.base) + names && forall i | 0 <= i < |names| :: UsableName(names[i])
  {
    LookupNamesAre(p, UsableName, claims, o.base, o.base, o.segments);
    SplitOfJoin(o.base, Lookup(p, claims, o.base, o.base, o.segments).value);
  }

  lemma FoldedFront(p: Scheme, a: seq<Text>, b: seq<Text>, i: nat)
    requires |a| <= |b| && FoldEqual(p, a, b[..|a|]) && i < |a|
    ensures p.fold(a[i]) == p.fold(b[i])
  {
    assert b[..|a|][i] == b[i];
  }

  /** Paths under different bases never meet, up to folding. */
  lemma BasesMeetNowhere(p: Scheme, a1: seq<Text>, n1: seq<Text>, a2: seq<Text>, n2: seq<Text>, i: nat)
    requires |a1 + n1| <= |a2 + n2| && FoldEqual(p, a1 + n1, (a2 + n2)[..|a1 + n1|])
    requires i < |a1| && i < |a2|
    ensures p.fold(a1[i]) == p.fold(a2[i])
  {
    FoldedFront(p, a1 + n1, a2 + n2, i);
    assert (a1 + n1)[i] == a1[i] && (a2 + n2)[i] == a2[i];
  }

  lemma FoldedTails(p: Scheme, a: seq<Text>, n1: seq<Text>, n2: seq<Text>)
    requires |a + n1| <= |a + n2| && FoldEqual(p, a + n1, (a + n2)[..|a + n1|])
    ensures |n1| <= |n2| && FoldEqual(p, n1, n2[..|n1|])
  {
    forall i | 0 <= i < |n1| ensures p.fold(n1[i]) == p.fold(n2[..|n1|][i]) {
      FoldedFront(p, a + n1, a + n2, |a| + i);
      assert (a + n1)[|a| + i] == n1[i] && (a + n2)[|a| + i] == n2[i];
    }
  }

  lemma SplitsMeet(p: Scheme, claims: Claims, o1: Origin, o2: Origin, path1: Text, path2: Text)
    returns (n1: seq<Text>, n2: seq<Text>)
    requires UsableScheme(p)
    requires Assigned(p, claims, o1, path1) && Assigned(p, claims, o2, path2)
    requires FoldsOnto(p, path1, path2)
    ensures Lookup(p, claims, o1.base, o1.base, o1.segments) == Some(n1)
    ensures Lookup(p, claims, o2.base, o2.base, o2.segments) == Some(n2)
    ensures var a1, a2 := Split(o1.base) + n1, Split(o2.base) + n2;
            |a1| <= |a2| && FoldEqual(p, a1, a2[..|a1|])
    ensures path1 == Join(o1.base, n1) && path2 == Join(o2.base, n2)
  {
    n1 := Lookup(p, claims, o1.base, o1.base, o1.segments).value;
    n2 := Lookup(p, claims, o2.base, o2.base, o2.segments).value;
    AssignedSplit(p, claims, o1, path1);
    AssignedSplit(p, claims, o2, path2);
  }

  lemma BasesAgree(p: Scheme, bases: set<Text>, b1: Text, n1: seq<Text>, b2: Text, n2: seq<Text>)
    requires BasesApart(p, bases) && b1 in bases && b2 in bases
    requires var a1, a2 := Split(b1) + n1, Split(b2) + n2;
             |a1| <= |a2| && FoldEqual(p, a1, a2[..|a1|])
    ensures b1 == b2
  {
    if b1 != b2 {
      var i :| 0 <= i < |Split(b1)| && i < |Split(b2)| && p.fold(Split(b1)[i]) != p.fold(Split(b2)[i]);
      BasesMeetNowhere(p, Split(b1), n1, Split(b2), n2, i);
      assert false;
    }
  }

  /** No path on disk serves two customer files, and none is a directory on the way to another:
      paths that meet up to folding are the same path of the same file. */
  lemma OneFilePerPath(p: Scheme, claims: Claims, bases: set<Text>, o1: Origin, o2: Origin, path1: Text, path2: Text)
    requires UsableScheme(p) && BasesApart(p, bases) && o1.base in bases && o2.base in bases
    requires Assigned(p, claims, o1, path1) && Assigned(p, claims, o2, path2)
    requires FoldsOnto(p, path1, path2)
    ensures o1 == o2 && path1 == path2
  {
    var n1, n2 := SplitsMeet(p, claims, o1, o2, path1, path2);
    BasesAgree(p, bases, o1.base, n1, o2.base, n2);
    FoldedTails(p, Split(o1.base), n1, n2);
    Separation(p, claims, o1.base, o1.base, o1.segments, o2.segments);
  }

  lemma AssignedIsStable(p: Scheme, before: Claims, after: Claims, o: Origin, path: Text)
    requires Extends(before, after) && Assigned(p, before, o, path)
    ensures Assigned(p, after, o, path)
  {
    LookupIsStable(p, before, after, o.base, o.base, o.segments);
  }

  // ---- the lexical checks of `target` ----

  predicate TargetPart(part: Text) {
    part != [] && part != [DOT] && part != [DOT, DOT] && BACKSLASH !in part && NUL !in part
  }

  predicate PassesTarget(path: Text) {
    (path == [] || path[0] != SLASH) && forall i | 0 <= i < |Split(path)| :: TargetPart(Split(path)[i])
  }

  /** A path given to a customer file under a base that passes the output checks passes them. */
  lemma AssignedPassesTarget(p: Scheme, claims: Claims, o: Origin, path: Text)
    requires UsableScheme(p) && Assigned(p, claims, o, path) && PassesTarget(o.base)
    ensures PassesTarget(path)
  {
    AssignedSplit(p, claims, o, path);
    var names := Lookup(p, claims, o.base, o.base, o.segments).value;
    forall i | 0 <= i < |Split(path)| ensures TargetPart(Split(path)[i]) {
      if i < |Split(o.base)| {
        assert Split(path)[i] == Split(o.base)[i];
      } else {
        assert Split(path)[i] == names[i - |Split(o.base)|];
        assert UsableName(names[i - |Split(o.base)|]);
      }
    }
    assert TargetPart(Split(path)[0]);
  }

  // ---- whole calls, and the mapping of renamed files ----

  datatype Call = Call(base: Text, path: Text)

  datatype NameTable = NameTable(claims: Claims, mappings: map<Text, Text>)

  datatype CallResult = CallResult(table: NameTable, path: Option<Text>)

  function WithoutLeadingSlashes(path: Text): Text {
    if path != [] && path[0] == SLASH then WithoutLeadingSlashes(path[1..]) else path
  }

  /** What is left once all slashes at the front are gone. */
  lemma {:induction false} StripsLeadingSlashes(path: Text)
    ensures var rest := WithoutLeadingSlashes(path);
            && |rest| <= |path| && rest == path[|path| - |rest|..] && (rest != [] ==> rest[0] != SLASH)
            && forall i | 0 <= i < |path| - |rest| :: path[i] == SLASH
    decreases |path|
  {
    if path == [] || path[0] != SLASH {
    } else {
      StripsLeadingSlashes(path[1..]);
    }
  }

  function OriginalOf(c: Call): Text {
    c.base + [SLASH] + WithoutLeadingSlashes(c.path)
  }

  function OriginOf(c: Call): Origin {
    Origin(c.base, Segments(c.path))
  }

  /** One call of `tree`; None is a throw. */
  function TreeCall(p: Scheme, t: NameTable, c: Call): CallResult {
    if Segments(c.path) == [] then CallResult(t, None)
    else
      var r := TreeFrom(p, t.claims, c.base, c.base, Segments(c.path));
      var mappings :=
        if r.path.Some? && r.path.value != OriginalOf(c) then t.mappings[OriginalOf(c) := r.path.value]
        else t.mappings;
      CallResult(NameTable(r.claims, mappings), r.path)
  }

  function AfterCalls(p: Scheme, t: NameTable, calls: seq<Call>): NameTable
    decreases |calls|
  {
    if calls == [] then t else AfterCalls(p, TreeCall(p, t, calls[0]).table, calls[1..])
  }

  const EMPTY_TABLE := NameTable(map[], map[])

  /** The entry for `original` records the path of a file whose original path it is. */
  predicate Explains(p: Scheme, bases: set<Text>, t: NameTable, original: Text, c: Call) {
    original in t.mappings && c.base in bases && OriginalOf(c) == original
    && Assigned(p, t.claims, OriginOf(c), t.mappings[original])
  }

  ghost predicate MappingsExplained(p: Scheme, bases: set<Text>, t: NameTable) {
    forall original | original in t.mappings :: exists c :: Explains(p, bases, t, original, c)
  }

  function MappedPath(t: NameTable, original: Text): Text {
    if original in t.mappings then t.mappings[original] else original
  }

  lemma TreeCallAssigns(p: Scheme, t: NameTable, c: Call)
    ensures var r := TreeCall(p, t, c);
            && Extends(t.claims, r.table.claims) && t.mappings.Keys <= r.table.mappings.Keys
            && (r.path.Some? ==> Assigned(p, r.table.claims, OriginOf(c), r.path.value))
  {
    TreeThenLookup(p, t.claims, c.base, c.base, Segments(c.path));
  }

  /** A call throws if and only if the path has no segments, or the claims before the call hold
      both names of some segment for others. */
  lemma CallThrowsExactly(p: Scheme, t: NameTable, c: Call)
    ensures TreeCall(p, t, c).path.None? <==>
              Segments(c.path) == [] || Blocked(p, t.claims, c.base, c.base, Segments(c.path))
    ensures TreeCall(p, t, c).path.None? ==> TreeCall(p, t, c).table.mappings == t.mappings
  {
    ThrowsExactlyIfBlocked(p, t.claims, c.base, c.base, Segments(c.path));
  }

  lemma SplitAtFirst(s: Text, i: nat)
    requires i < |s| && s[i] == SLASH && OneSegment(s[..i])
    ensures Split(s) == [s[..i]] + Split(s[i + 1..])
  {
    SplitAtSlash(s[..i], s[i + 1..]);
    SplitOneSegment(s[..i]);
    assert s == s[..i] + [SLASH] + s[i + 1..];
  }

  lemma {:induction false} JoinOfSplit(base: Text, s: Text)
    ensures Join(base, Split(s)) == base + [SLASH] + s
    decreases |s|
  {
    if OneSegment(s) {
      SplitOneSegment(s);
      assert Join(base + [SLASH] + s, []) == base + [SLASH] + s;
    } else {
      var i := FirstSlash(s);
      SplitAtFirst(s, i);
      JoinOfSplit(base + [SLASH] + s[..i], s[i + 1..]);
      assert base + [SLASH] + s == base + [SLASH] + s[..i] + [SLASH] + s[i + 1..];
    }
  }

  function FirstSlash(s: Text): (i: nat)
    requires !OneSegment(s)
    ensures i < |s| && s[i] == SLASH && OneSegment(s[..i])
  {
    if s[0] == SLASH then 0 else 1 + FirstSlash(s[1..])
  }

  /** A path is recorded in the mapping if and only if one of its names is not the customer's own,
      or its slashes are doubled or trail. */
  lemma MappedExactlyIf(p: Scheme, t: NameTable, c: Call)
    requires UsableScheme(p) && TreeCall(p, t, c).path.Some?
    ensures var r := TreeCall(p, t, c);
            var names := Lookup(p, r.table.claims, c.base, c.base, Segments(c.path));
            && names.Some? && r.path.value == Join(c.base, names.value)
            && (r.path.value != OriginalOf(c) <==>
                  names.value != Segments(c.path) || [] in Split(WithoutLeadingSlashes(c.path)))
            && (if r.path.value == OriginalOf(c) then r.table.mappings == t.mappings
                else r.table.mappings == t.mappings[OriginalOf(c) := r.path.value])
  {
    var r := TreeCall(p, t, c);
    var rest := WithoutLeadingSlashes(c.path);
    TreeCallAssigns(p, t, c);
    AssignedSplit(p, r.table.claims, OriginOf(c), r.path.value);
    var names := Lookup(p, r.table.claims, c.base, c.base, Segments(c.path)).value;
    JoinOfSplit(c.base, rest);
    SplitAtSlash(c.base, rest);
    LeadingSlashesDoNotCount(c.path);
    if [] in Split(rest) {
      assert names != Split(rest);
    } else {
      AllNonEmpty(Split(rest));
      assert Segments(c.path) == Split(rest);
    }
    if r.path.value == OriginalOf(c) {
      SameTail(Split(c.base), names, Split(rest));
    }
  }

  lemma SameTail(a: seq<Text>, b: seq<Text>, c: seq<Text>)
    requires a + b == a + c
    ensures b == c
  {
    assert b == (a + b)[|a|..] == (a + c)[|a|..] == c;
  }

  lemma {:induction false} AllNonEmpty(parts: seq<Text>)
    requires [] !in parts
    ensures NonEmpty(parts) == parts
  {
    if parts == [] {
    } else {
      assert parts[0] in parts;
      AllNonEmpty(parts[1..]);
      assert [parts[0]] + parts[1..] == parts;
    }
  }

  /** A doubled slash alone is enough: `a//b` is recorded although both names are kept. */
  lemma DoubledSlashIsMapped(p: Scheme, base: Text, a: Text, b: Text)
    requires UsableScheme(p) && a != [] && b != [] && OneSegment(a) && OneSegment(b)
    requires p.portable(a) == a && p.portable(b) == b
    ensures var c := Call(base, a + [SLASH, SLASH] + b);
            var r := TreeCall(p, EMPTY_TABLE, c);
            r.path == Some(Join(base, [a, b])) && r.table.mappings == map[OriginalOf(c) := Join(base, [a, b])]
  {
    var c := Call(base, a + [SLASH, SLASH] + b);
    DoubledSlash(a, b);
    TwoSegments(p, base, a, b);
    MappedExactlyIf(p, EMPTY_TABLE, c);
  }

  lemma DoubledSlash(a: Text, b: Text)
    requires a != [] && b != [] && OneSegment(a) && OneSegment(b)
    ensures var path := a + [SLASH, SLASH] + b;
            WithoutLeadingSlashes(path) == path && [] in Split(path) && Segments(path) == [a, b]
  {
    var path := a + [SLASH, SLASH] + b;
    SplitDoubled(a, b);
    assert a[0] in a && path[0] == a[0];
    assert Split(path)[1] == [];
    var one, two, three := [b], [[], b], [a, [], b];
    assert one[1..] == [] && two[1..] == one && three[1..] == two;
    assert NonEmpty(one) == [b] + NonEmpty(one[1..]) == [b];
    assert NonEmpty(two) == [] + NonEmpty(two[1..]) == [b];
    assert NonEmpty(three) == [a] + NonEmpty(three[1..]) == [a, b];
  }

  lemma SplitDoubled(a: Text, b: Text)
    requires OneSegment(a) && OneSegment(b)
    ensures Split(a + [SLASH, SLASH] + b) == [a, [], b]
  {
    SplitAtSlash(a, [SLASH] + b);
    SplitAtSlash([], b);
    SplitOneSegment(a);
    SplitOneSegment(b);
    assert a + [SLASH, SLASH] + b == a + [SLASH] + ([SLASH] + b) && [] + [SLASH] + b == [SLASH] + b;
  }

  lemma TwoSegments(p: Scheme, base: Text, a: Text, b: Text)
    requires p.portable(a) == a && p.portable(b) == b
    ensures TreeFrom(p, map[], base, base, [a, b]).path == Some(Join(base, [a, b]))
  {
    var below, prefix := base + [SLASH] + a, base + [SLASH] + a;
    var claims: Claims := map[ClaimKey(p, base, a) := OwnerOf(false, prefix)];
    ClaimChangesNothingBelow(p, map[], base, a, OwnerOf(false, prefix));
    KeysBelow(p, base + [SLASH], below, b);
    assert ClaimKey(p, below, b) !in claims;
    assert [a, b][1..] == [b] && [b][1..] == [];
    assert TreeFrom(p, claims, below, prefix, [b]).path == Some(below + [SLASH] + b);
    assert Join(below, [b]) == below + [SLASH] + b;
  }

  lemma ExplainedStays(p: Scheme, bases: set<Text>, before: NameTable, after: NameTable, original: Text)
    requires MappingsExplained(p, bases, before) && Extends(before.claims, after.claims)
    requires original in before.mappings && original in after.mappings
    requires after.mappings[original] == before.mappings[original]
    ensures exists c :: Explains(p, bases, after, original, c)
  {
    var c :| Explains(p, bases, before, original, c);
    AssignedIsStable(p, before.claims, after.claims, OriginOf(c), before.mappings[original]);
    assert Explains(p, bases, after, original, c);
  }

  lemma TreeCallMaps(p: Scheme, t: NameTable, c: Call, original: Text)
    requires original in TreeCall(p, t, c).table.mappings
    ensures var r := TreeCall(p, t, c);
            || (original == OriginalOf(c) && r.path == Some(r.table.mappings[original]))
            || (original in t.mappings && r.table.mappings[original] == t.mappings[original])
  {
  }

  lemma TreeCallKeepsMappings(p: Scheme, bases: set<Text>, t: NameTable, c: Call)
    requires MappingsExplained(p, bases, t) && c.base in bases
    ensures MappingsExplained(p, bases, TreeCall(p, t, c).table)
  {
    var r := TreeCall(p, t, c);
    TreeCallAssigns(p, t, c);
    forall original | original in r.table.mappings
      ensures exists c' :: Explains(p, bases, r.table, original, c')
    {
      TreeCallMaps(p, t, c, original);
      if original in t.mappings && r.table.mappings[original] == t.mappings[original] {
        ExplainedStays(p, bases, t, r.table, original);
      } else {
        assert Explains(p, bases, r.table, original, c);
      }
    }
  }

  lemma {:induction false} AfterCallsKeeps(p: Scheme, bases: set<Text>, t: NameTable, calls: seq<Call>)
    requires MappingsExplained(p, bases, t)
    requires forall i | 0 <= i < |calls| :: calls[i].base in bases
    ensures var t' := AfterCalls(p, t, calls);
            MappingsExplained(p, bases, t') && Extends(t.claims, t'.claims) && t.mappings.Keys <= t'.mappings.Keys
    decreases |calls|
  {
    if calls == [] {
    } else {
      TreeCallKeepsMappings(p, bases, t, calls[0]);
      TreeCallAssigns(p, t, calls[0]);
      AfterCallsKeeps(p, bases, TreeCall(p, t, calls[0]).table, calls[1..]);
    }
  }

  lemma {:induction false} LeadingSlashesDoNotCount(path: Text)
    ensures Segments(WithoutLeadingSlashes(path)) == Segments(path)
    decreases |path|
  {
    if path == [] || path[0] != SLASH {
    } else {
      LeadingSlashesDoNotCount(path[1..]);
      assert Split(path) == [[]] + Split(path[1..]);
      assert ([[]] + Split(path[1..]))[1..] == Split(path[1..]);
    }
  }

  lemma SameFront(a1: seq<Text>, b1: seq<Text>, a2: seq<Text>, b2: seq<Text>, i: nat)
    requires a1 + b1 == a2 + b2 && i < |a1| && i < |a2|
    ensures a1[i] == a2[i]
  {
    assert (a1 + b1)[i] == (a2 + b2)[i];
  }

  lemma OriginalTellsBase(p: Scheme, bases: set<Text>, b1: Text, r1: Text, b2: Text, r2: Text)
    requires BasesApart(p, bases) && b1 in bases && b2 in bases
    requires b1 + [SLASH] + r1 == b2 + [SLASH] + r2
    ensures b1 == b2
  {
    SplitAtSlash(b1, r1);
    SplitAtSlash(b2, r2);
    if b1 != b2 {
      var i :| 0 <= i < |Split(b1)| && i < |Split(b2)| && p.fold(Split(b1)[i]) != p.fold(Split(b2)[i]);
      SameFront(Split(b1), Split(r1), Split(b2), Split(r2), i);
      assert false;
    }
  }

  /** Under bases that are apart, the original path tells the file. */
  lemma OriginalTellsOrigin(p: Scheme, bases: set<Text>, c1: Call, c2: Call)
    requires UsableScheme(p) && BasesApart(p, bases) && c1.base in bases && c2.base in bases
    requires OriginalOf(c1) == OriginalOf(c2)
    ensures OriginOf(c1) == OriginOf(c2)
  {
    var r1, r2 := WithoutLeadingSlashes(c1.path), WithoutLeadingSlashes(c2.path);
    OriginalTellsBase(p, bases, c1.base, r1, c2.base, r2);
    var k := |c1.base| + 1;
    assert r1 == OriginalOf(c1)[k..] == OriginalOf(c2)[k..] == r2;
    LeadingSlashesDoNotCount(c1.path);
    LeadingSlashesDoNotCount(c2.path);
  }

  lemma MappedToAssigned(p: Scheme, bases: set<Text>, t: NameTable, c: Call, path: Text)
    requires UsableScheme(p) && BasesApart(p, bases) && c.base in bases
    requires MappingsExplained(p, bases, t) && Assigned(p, t.claims, OriginOf(c), path)
    requires OriginalOf(c) in t.mappings
    ensures t.mappings[OriginalOf(c)] == path
  {
    var c' :| Explains(p, bases, t, OriginalOf(c), c');
    OriginalTellsOrigin(p, bases, c', c);
  }

  lemma AskedAgain(p: Scheme, t: NameTable, c: Call, path: Text)
    requires Assigned(p, t.claims, OriginOf(c), path)
    requires path != OriginalOf(c) ==> OriginalOf(c) in t.mappings && t.mappings[OriginalOf(c)] == path
    ensures TreeCall(p, t, c) == CallResult(t, Some(path))
  {
    LookupThenTree(p, t.claims, c.base, c.base, Segments(c.path));
    assert path != OriginalOf(c) ==> t.mappings[OriginalOf(c) := path] == t.mappings;
  }

  lemma StableAndMappedFrom(p: Scheme, bases: set<Text>, t: NameTable, c: Call, path: Text, final: NameTable)
    requires UsableScheme(p) && BasesApart(p, bases) && c.base in bases
    requires TreeCall(p, t, c).path == Some(path) && Assigned(p, final.claims, OriginOf(c), path)
    requires MappingsExplained(p, bases, final) && TreeCall(p, t, c).table.mappings.Keys <= final.mappings.Keys
    ensures TreeCall(p, final, c) == CallResult(final, Some(path))
    ensures MappedPath(final, OriginalOf(c)) == path
  {
    if path != OriginalOf(c) {
      assert OriginalOf(c) in TreeCall(p, t, c).table.mappings.Keys;
    }
    if OriginalOf(c) in final.mappings {
      MappedToAssigned(p, bases, final, c, path);
    }
    AskedAgain(p, final, c, path);
  }

  /** Once `tree` has returned a path for a customer file, whatever is called later (and
      whatever of it throws), the same call returns the same path and changes nothing, and the
      mappings, read with the original itself as the default, give that path. */
  lemma {:induction false} PathsAreStableAndMapped(p: Scheme, bases: set<Text>, earlier: seq<Call>, c: Call,
                                                   later: seq<Call>)
    requires UsableScheme(p) && BasesApart(p, bases) && c.base in bases
    requires forall i | 0 <= i < |earlier| :: earlier[i].base in bases
    requires forall i | 0 <= i < |later| :: later[i].base in bases
    requires TreeCall(p, AfterCalls(p, EMPTY_TABLE, earlier), c).path.Some?
    ensures var r := TreeCall(p, AfterCalls(p, EMPTY_TABLE, earlier), c);
            var final := AfterCalls(p, r.table, later);
            && TreeCall(p, final, c) == CallResult(final, r.path)
            && MappedPath(final, OriginalOf(c)) == r.path.value
  {
    var t0 := AfterCalls(p, EMPTY_TABLE, earlier);
    AfterCallsKeeps(p, bases, EMPTY_TABLE, earlier);
    var r := TreeCall(p, t0, c);
    TreeCallKeepsMappings(p, bases, t0, c);
    TreeCallAssigns(p, t0, c);
    AfterCallsKeeps(p, bases, r.table, later);
    var final := AfterCalls(p, r.table, later);
    AssignedIsStable(p, r.table.claims, final.claims, OriginOf(c), r.path.value);
    StableAndMappedFrom(p, bases, t0, c, r.path.value, final);
  }

  /** Whatever was called before, in between and after, two paths that `tree` returns and that
      meet up to folding, as equals or as file and directory, are the same path of the same file. */
  lemma {:induction false} ReturnedPathsNeverMeet(p: Scheme, bases: set<Text>, earlier: seq<Call>, c1: Call,
                                                  between: seq<Call>, c2: Call)
    requires UsableScheme(p) && BasesApart(p, bases) && c1.base in bases && c2.base in bases
    requires forall i | 0 <= i < |earlier| :: earlier[i].base in bases
    requires forall i | 0 <= i < |between| :: between[i].base in bases
    requires var r1 := TreeCall(p, AfterCalls(p, EMPTY_TABLE, earlier), c1);
             var r2 := TreeCall(p, AfterCalls(p, r1.table, between), c2);
             && r1.path.Some? && r2.path.Some?
             && (FoldsOnto(p, r1.path.value, r2.path.value) || FoldsOnto(p, r2.path.value, r1.path.value))
    ensures var r1 := TreeCall(p, AfterCalls(p, EMPTY_TABLE, earlier), c1);
            var r2 := TreeCall(p, AfterCalls(p, r1.table, between), c2);
            r1.path == r2.path && OriginOf(c1) == OriginOf(c2)
  {
    var t0 := AfterCalls(p, EMPTY_TABLE, earlier);
    AfterCallsKeeps(p, bases, EMPTY_TABLE, earlier);
    var r1 := TreeCall(p, t0, c1);
    TreeCallKeepsMappings(p, bases, t0, c1);
    TreeCallAssigns(p, t0, c1);
    var t2 := AfterCalls(p, r1.table, between);
    AfterCallsKeeps(p, bases, r1.table, between);
    var r2 := TreeCall(p, t2, c2);
    TreeCallAssigns(p, t2, c2);
    var claims := r2.table.claims;
    AssignedIsStable(p, r1.table.claims, t2.claims, OriginOf(c1), r1.path.value);
    AssignedIsStable(p, t2.claims, claims, OriginOf(c1), r1.path.value);
    if FoldsOnto(p, r1.path.value, r2.path.value) {
      OneFilePerPath(p, claims, bases, OriginOf(c1), OriginOf(c2), r1.path.value, r2.path.value);
    } else {
      OneFilePerPath(p, claims, bases, OriginOf(c2), OriginOf(c1), r2.path.value, r1.path.value);
    }
  }
}
