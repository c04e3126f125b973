/** The name allocator: how `ExportWriter.tree` turns a customer path into a path on disk, given
    the table of claims, and why two customer files can never share one. It works with any
    naming scheme; `Naming` supplies the exporter's. */
module PathTree {
  import opened JsText
  import opened Options

  /** How names are made and compared: the portable name of a segment, its hashed form for an
      owner, and the fold under which two names collide on some disk. */
  datatype Scheme = Scheme(portable: Text -> Text, hashed: (Text, Text) -> Text, fold: Text -> Text)

  /** Claim key -> owner. */
  type Claims = map<Text, Text>

  const FILE_TAG: Text := [0x66, 0x69, 0x6C, 0x65, 0x3A] // file:
  const DIR_TAG: Text := [0x64, 0x69, 0x72, 0x3A] // dir:

  function OwnerOf(last: bool, prefix: Text): Text {
    (if last then FILE_TAG else DIR_TAG) + prefix
  }

  function ClaimKey(p: Scheme, parent: Text, name: Text): Text {
    parent + [NUL] + p.fold(name)
  }

  predicate HeldByOther(claims: Claims, key: Text, owner: Text) {
    key in claims && claims[key] != owner
  }

  function Segments(path: Text): seq<Text> {
    NonEmpty(Split(path))
  }

  /** The name `tree` tries to claim for one segment: the portable one, or the hashed one if
      another owner holds the portable one. */
  function ChosenName(p: Scheme, claims: Claims, parent: Text, segment: Text, owner: Text): Text {
    var plain := p.portable(segment);
    if HeldByOther(claims, ClaimKey(p, parent, plain), owner) then p.hashed(plain, owner) else plain
  }

  datatype TreeResult = TreeResult(claims: Claims, path: Option<Text>)

  /** The loop of `tree` from some segment on; claims made before a throw are kept. */
  function TreeFrom(p: Scheme, claims: Claims, parent: Text, prefix: Text, segments: seq<Text>): TreeResult
    decreases |segments|
  {
    if segments == [] then TreeResult(claims, Some(parent))
    else
      var prefix' := prefix + [SLASH] + segments[0];
      var owner := OwnerOf(|segments| == 1, prefix');
      var name := ChosenName(p, claims, parent, segments[0], owner);
      var key := ClaimKey(p, parent, name);
      if HeldByOther(claims, key, owner) then TreeResult(claims, None)
      else TreeFrom(p, claims[key := owner], parent + [SLASH] + name, prefix', segments[1..])
  }

  /** Reference definition: the names a table of claims already gives to a customer path, found
      by reading the table only. */
  function Lookup(p: Scheme, claims: Claims, parent: Text, prefix: Text,
                  segments: seq<Text>): (names: Option<seq<Text>>)
    ensures names.Some? ==> |names.value| == |segments|
    decreases |segments|
  {
    if segments == [] then Some([])
    else
      var prefix' := prefix + [SLASH] + segments[0];
      var owner := OwnerOf(|segments| == 1, prefix');
      var name := ChosenName(p, claims, parent, segments[0], owner);
      var key := ClaimKey(p, parent, name);
      if key !in claims || claims[key] != owner then None
      else
        var rest := Lookup(p, claims, parent + [SLASH] + name, prefix', segments[1..]);
        if rest.None? then None else Some([name] + rest.value)
  }

  predicate Extends(before: Claims, after: Claims) {
    forall k | k in before :: k in after && after[k] == before[k]
  }

  /** A successful call leaves a table in which the path it returned can be looked up; no call,
      not even one that throws, changes an owner. */
  lemma {:induction false} TreeThenLookup(p: Scheme, claims: Claims, parent: Text, prefix: Text, segments: seq<Text>)
    ensures var r := TreeFrom(p, claims, parent, prefix, segments);
            && Extends(claims, r.claims)
            && (r.path.Some? ==>
                  var names := Lookup(p, r.claims, parent, prefix, segments);
                  names.Some? && r.path.value == Join(parent, names.value))
    decreases |segments|
  {
    if segments == [] {
    } else {
      var prefix' := prefix + [SLASH] + segments[0];
      var owner := OwnerOf(|segments| == 1, prefix');
      var name := ChosenName(p, claims, parent, segments[0], owner);
      var key := ClaimKey(p, parent, name);
      if !HeldByOther(claims, key, owner) {
        TreeThenLookup(p, claims[key := owner], parent + [SLASH] + name, prefix', segments[1..]);
        var r := TreeFrom(p, claims, parent, prefix, segments);
        ChosenNameIsStable(p, claims, r.claims, parent, segments[0], owner);
      }
    }
  }

  /** Once the chosen name is claimed, later claims do not change the choice. */
  lemma ChosenNameIsStable(p: Scheme, before: Claims, after: Claims, parent: Text, segment: Text, owner: Text)
    requires Extends(before, after)
    requires var key := ClaimKey(p, parent, ChosenName(p, before, parent, segment, owner));
             key in after && after[key] == owner
    ensures ChosenName(p, after, parent, segment, owner) == ChosenName(p, before, parent, segment, owner)
  {
  }

  lemma {:induction false} LookupIsStable(p: Scheme, before: Claims, after: Claims, parent: Text, prefix: Text,
                                          segments: seq<Text>)
    requires Extends(before, after)
    requires Lookup(p, before, parent, prefix, segments).Some?
    ensures Lookup(p, after, parent, prefix, segments) == Lookup(p, before, parent, prefix, segments)
    decreases |segments|
  {
    if segments == [] {
    } else {
      var prefix' := prefix + [SLASH] + segments[0];
      var owner := OwnerOf(|segments| == 1, prefix');
      var name := ChosenName(p, before, parent, segments[0], owner);
      ChosenNameIsStable(p, before, after, parent, segments[0], owner);
      LookupIsStable(p, before, after, parent + [SLASH] + name, prefix', segments[1..]);
    }
  }

  /** Asking again for a path already in the table returns it and changes nothing. */
  lemma {:induction false} LookupThenTree(p: Scheme, claims: Claims, parent: Text, prefix: Text, segments: seq<Text>)
    requires Lookup(p, claims, parent, prefix, segments).Some?
    ensures TreeFrom(p, claims, parent, prefix, segments)
         == TreeResult(claims, Some(Join(parent, Lookup(p, claims, parent, prefix, segments).value)))
    decreases |segments|
  {
    if segments == [] {
    } else {
      var prefix' := prefix + [SLASH] + segments[0];
      var owner := OwnerOf(|segments| == 1, prefix');
      var name := ChosenName(p, claims, parent, segments[0], owner);
      assert claims[ClaimKey(p, parent, name) := owner] == claims;
      LookupThenTree(p, claims, parent + [SLASH] + name, prefix', segments[1..]);
    }
  }

  predicate FoldEqual(p: Scheme, a: seq<Text>, b: seq<Text>) {
    |a| == |b| && forall i | 0 <= i < |a| :: p.fold(a[i]) == p.fold(b[i])
  }

  /** The heart of the allocator. If the names of one customer path are, up to folding, a front
      of the names of another below the same parent, the two paths are one and the same. */
  lemma {:induction false} Separation(p: Scheme, claims: Claims, parent: Text, prefix: Text, s1: seq<Text>,
                                      s2: seq<Text>)
    requires s1 != []
    requires Lookup(p, claims, parent, prefix, s1).Some? && Lookup(p, claims, parent, prefix, s2).Some?
    requires var n1, n2 := Lookup(p, claims, parent, prefix, s1).value, Lookup(p, claims, parent, prefix, s2).value;
             |n1| <= |n2| && FoldEqual(p, n1, n2[..|n1|])
    ensures s1 == s2
    decreases |s1|
  {
    var n1, n2 := Lookup(p, claims, parent, prefix, s1).value, Lookup(p, claims, parent, prefix, s2).value;
    var o1, o2 := OwnerOf(|s1| == 1, prefix + [SLASH] + s1[0]), OwnerOf(|s2| == 1, prefix + [SLASH] + s2[0]);
    assert p.fold(n1[0]) == p.fold(n2[..|n1|][0]);
    assert o1 == o2;
    OwnersDiffer(|s1| == 1, |s2| == 1, prefix, s1[0], s2[0]);
    if |s1| > 1 {
      var prefix' := prefix + [SLASH] + s1[0];
      assert n1[0] == n2[0];
      assert n1[1..] == Lookup(p, claims, parent + [SLASH] + n1[0], prefix', s1[1..]).value;
      assert n2[1..] == Lookup(p, claims, parent + [SLASH] + n1[0], prefix', s2[1..]).value;
      forall i | 0 <= i < |n1| - 1 ensures p.fold(n1[1..][i]) == p.fold(n2[1..][..|n1| - 1][i]) {
        assert p.fold(n1[i + 1]) == p.fold(n2[..|n1|][i + 1]);
      }
      Separation(p, claims, parent + [SLASH] + n1[0], prefix', s1[1..], s2[1..]);
      assert s1 == [s1[0]] + s1[1..] && s2 == [s2[0]] + s2[1..];
    } else {
      assert s1 == s2;
    }
  }

  /** An owner names its kind and its whole original prefix. */
  lemma OwnersDiffer(last1: bool, last2: bool, prefix: Text, a: Text, b: Text)
    requires OwnerOf(last1, prefix + [SLASH] + a) == OwnerOf(last2, prefix + [SLASH] + b)
    ensures last1 == last2 && a == b
  {
    var o1, o2 := OwnerOf(last1, prefix + [SLASH] + a), OwnerOf(last2, prefix + [SLASH] + b);
    assert o1[0] == o2[0];
    var skip := (if last1 then 5 else 4) + |prefix| + 1;
    assert o1[skip..] == a && o2[skip..] == b;
  }

  /** Whatever holds of portable names and survives hashing holds of every name the table gives. */
  lemma {:induction false} LookupNamesAre(p: Scheme, ok: Text -> bool, claims: Claims, parent: Text, prefix: Text,
                                          segments: seq<Text>)
    requires forall s :: ok(p.portable(s))
    requires forall s, owner :: ok(s) ==> ok(p.hashed(s, owner))
    requires Lookup(p, claims, parent, prefix, segments).Some?
    ensures forall i | 0 <= i < |segments| :: ok(Lookup(p, claims, parent, prefix, segments).value[i])
    decreases |segments|
  {
    if segments == [] {
    } else {
      var prefix' := prefix + [SLASH] + segments[0];
      var owner := OwnerOf(|segments| == 1, prefix');
      var name := ChosenName(p, claims, parent, segments[0], owner);
      assert ok(p.portable(segments[0]));
      LookupNamesAre(p, ok, claims, parent + [SLASH] + name, prefix', segments[1..]);
    }
  }

  // ---- when `tree` throws ----

  /** Other owners hold both the portable and the hashed name. */
  predicate BothNamesTaken(p: Scheme, claims: Claims, parent: Text, segment: Text, owner: Text) {
    && HeldByOther(claims, ClaimKey(p, parent, p.portable(segment)), owner)
    && HeldByOther(claims, ClaimKey(p, parent, p.hashed(p.portable(segment), owner)), owner)
  }

  /** In the table as it stands before the call, the walk along the chosen names comes to a segment
      both of whose names are taken. */
  predicate Blocked(p: Scheme, claims: Claims, parent: Text, prefix: Text, segments: seq<Text>)
    decreases |segments|
  {
    segments != [] &&
    var prefix' := prefix + [SLASH] + segments[0];
    var owner := OwnerOf(|segments| == 1, prefix');
    || BothNamesTaken(p, claims, parent, segments[0], owner)
    || Blocked(p, claims, parent + [SLASH] + ChosenName(p, claims, parent, segments[0], owner), prefix', segments[1..])
  }

  /** Two tables with the same entries under keys that start like this. */
  ghost predicate AgreeBelow(a: Claims, b: Claims, start: Text) {
    forall key | start <= key :: (key in a <==> key in b) && (key in a ==> b[key] == a[key])
  }

  lemma KeysBelow(p: Scheme, start: Text, parent: Text, name: Text)
    requires start <= parent
    ensures start <= ClaimKey(p, parent, name)
  {
    assert ClaimKey(p, parent, name)[..|start|] == parent[..|start|];
  }

  /** Whether the way is blocked depends on the keys below its start only. */
  lemma {:induction false} BlockedLooksBelow(p: Scheme, a: Claims, b: Claims, start: Text, parent: Text, prefix: Text,
                                             segments: seq<Text>)
    requires AgreeBelow(a, b, start) && start <= parent
    ensures Blocked(p, a, parent, prefix, segments) == Blocked(p, b, parent, prefix, segments)
    decreases |segments|
  {
    if segments == [] {
    } else {
      var prefix' := prefix + [SLASH] + segments[0];
      var owner := OwnerOf(|segments| == 1, prefix');
      var plain := p.portable(segments[0]);
      KeysBelow(p, start, parent, plain);
      KeysBelow(p, start, parent, p.hashed(plain, owner));
      var name := ChosenName(p, a, parent, segments[0], owner);
      assert ChosenName(p, b, parent, segments[0], owner) == name;
      BlockedLooksBelow(p, a, b, start, parent + [SLASH] + name, prefix', segments[1..]);
    }
  }

  /** A claim under a directory is none under a directory inside it. */
  lemma ClaimChangesNothingBelow(p: Scheme, claims: Claims, parent: Text, name: Text, owner: Text)
    ensures AgreeBelow(claims, claims[ClaimKey(p, parent, name) := owner], parent + [SLASH])
  {
    var key := ClaimKey(p, parent, name);
    assert key[|parent|] == NUL && (parent + [SLASH])[|parent|] == SLASH;
    assert !(parent + [SLASH] <= key);
  }

  /** The loop throws if and only if the way is blocked in the table before the call. */
  lemma {:induction false} ThrowsExactlyIfBlocked(p: Scheme, claims: Claims, parent: Text, prefix: Text,
                                                  segments: seq<Text>)
    ensures TreeFrom(p, claims, parent, prefix, segments).path.None? <==> Blocked(p, claims, parent, prefix, segments)
    decreases |segments|
  {
    if segments == [] {
    } else {
      var prefix' := prefix + [SLASH] + segments[0];
      var owner := OwnerOf(|segments| == 1, prefix');
      var name := ChosenName(p, claims, parent, segments[0], owner);
      var key := ClaimKey(p, parent, name);
      if HeldByOther(claims, key, owner) {
        assert BothNamesTaken(p, claims, parent, segments[0], owner);
      } else {
        var below := parent + [SLASH] + name;
        ThrowsExactlyIfBlocked(p, claims[key := owner], below, prefix', segments[1..]);
        ClaimChangesNothingBelow(p, claims, parent, name, owner);
        BlockedLooksBelow(p, claims, claims[key := owner], parent + [SLASH], below, prefix', segments[1..]);
      }
    }
  }

  /** The names of a path by the rule of the source, in the table before the call: the portable name of a
      segment unless another owner holds it there, and else the hashed one. */
  predicate ByTheRule(p: Scheme, claims: Claims, parent: Text, prefix: Text, segments: seq<Text>, names: seq<Text>)
    decreases |segments|
  {
    if segments == [] then names == []
    else
      var prefix' := prefix + [SLASH] + segments[0];
      var owner := (if |segments| == 1 then FILE_TAG else DIR_TAG) + prefix';
      var plain := p.portable(segments[0]);
      var key := parent + [NUL] + p.fold(plain);
      && names != []
      && names[0] == (if key in claims && claims[key] != owner then p.hashed(plain, owner) else plain)
      && ByTheRule(p, claims, parent + [SLASH] + names[0], prefix', segments[1..], names[1..])
  }

  lemma {:induction false} RuleLooksBelow(p: Scheme, a: Claims, b: Claims, start: Text, parent: Text, prefix: Text,
                                          segments: seq<Text>, names: seq<Text>)
    requires AgreeBelow(a, b, start) && start <= parent
    ensures ByTheRule(p, a, parent, prefix, segments, names) == ByTheRule(p, b, parent, prefix, segments, names)
    decreases |segments|
  {
    if segments == [] || names == [] {
    } else {
      KeysBelow(p, start, parent, p.portable(segments[0]));
      assert start <= parent + [SLASH] + names[0];
      RuleLooksBelow(p, a, b, start, parent + [SLASH] + names[0], prefix + [SLASH] + segments[0], segments[1..],
                     names[1..]);
    }
  }

  /** The path returned is made of those names. */
  lemma {:induction false} NamesGoByTheRule(p: Scheme, claims: Claims, parent: Text, prefix: Text, segments: seq<Text>)
    returns (names: seq<Text>)
    requires TreeFrom(p, claims, parent, prefix, segments).path.Some?
    ensures ByTheRule(p, claims, parent, prefix, segments, names)
    ensures TreeFrom(p, claims, parent, prefix, segments).path == Some(Join(parent, names))
    decreases |segments|
  {
    if segments == [] {
      names := [];
    } else {
      var prefix' := prefix + [SLASH] + segments[0];
      var owner := OwnerOf(|segments| == 1, prefix');
      var name := ChosenName(p, claims, parent, segments[0], owner);
      var after := claims[ClaimKey(p, parent, name) := owner];
      var rest := NamesGoByTheRule(p, after, parent + [SLASH] + name, prefix', segments[1..]);
      names := [name] + rest;
      ClaimChangesNothingBelow(p, claims, parent, name, owner);
      RuleLooksBelow(p, claims, after, parent + [SLASH], parent + [SLASH] + name, prefix', segments[1..], rest);
    }
  }

  /** And it can come to that: a customer may own a file h named like the hash of another one, a.
      Once h and then a directory a are claimed, a file a finds no name. */
  lemma OwnedHashMakesTreeThrow(p: Scheme, base: Text, a: Text, h: Text, x: Text)
    requires p.portable(a) == a && p.portable(h) == h && p.hashed(a, OwnerOf(true, base + [SLASH] + a)) == h
    requires p.fold(a) != p.fold(h)
    ensures var c1 := TreeFrom(p, map[], base, base, [h]).claims;
            var c2 := TreeFrom(p, c1, base, base, [a, x]).claims;
            TreeFrom(p, c2, base, base, [a]) == TreeResult(c2, None)
  {
    var keyA, keyH := ClaimKey(p, base, a), ClaimKey(p, base, h);
    var fileA, dirA := OwnerOf(true, base + [SLASH] + a), OwnerOf(false, base + [SLASH] + a);
    var fileH := OwnerOf(true, base + [SLASH] + h);
    assert keyA[|base| + 1..] == p.fold(a) && keyH[|base| + 1..] == p.fold(h);
    assert [h][1..] == [];
    assert TreeFrom(p, map[keyH := fileH], base + [SLASH] + h, base + [SLASH] + h, []).claims == map[keyH := fileH];
    var c1 := TreeFrom(p, map[], base, base, [h]).claims;
    assert c1 == map[keyH := fileH];
    TreeThenLookup(p, c1[keyA := dirA], base + [SLASH] + a, base + [SLASH] + a, [a, x][1..]);
    var c2 := TreeFrom(p, c1, base, base, [a, x]).claims;
    assert c2[keyA] == dirA && c2[keyH] == fileH;
    assert dirA[0] != fileA[0];
    if fileA == fileH { OwnersDiffer(true, true, base, a, h); }
  }
}
