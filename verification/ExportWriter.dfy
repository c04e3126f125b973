/** The export writer: its claims, its bookkeeping of items, and the directory it writes. Code
    between two awaits runs uninterrupted, so each such stretch is one method here. */
module Writer {
  import opened JsText
  import opened Options
  import opened Naming
  import opened PathTree
  import opened CustomerPaths
  import opened ExportStates
  import opened Layout

  /** The exporter's own naming scheme. */
  function SchemeOf(p: Platform): Scheme {
    Scheme(s => PortableSegment(p, s), (s, owner) => HashedSegment(p, s, owner), p.fold)
  }

  datatype Content =
    | Settings(manifest: Option<Manifest>) // None is a falsy answer such as null
    | Listing(rows: seq<Row>)
    | CustomerFile(origin: Origin)
    | Data

  /** One thing the walk did with names of its own: an item for a row or a key, a listing, the
      claiming of a listing's paths under a directory, or a walk over stored objects. */
  datatype Visit = Leaf(id: Text, of: Text) | List(id: Text) | Dir(base: Text, paths: seq<Text>) | Walk(who: Walker)

  /** What a listing of stored objects answered: its pages, and whether it then ended or failed. */
  datatype Pages = Pages(pages: seq<seq<Text>>, ended: bool)

  /** The listing of one prefix, and all a walk is answered: which prefixes there are, unless that fails, and
      what the listing of each answers. */
  datatype Prefix = Prefix(prefix: Text, listing: Pages)
  datatype Scope = Unanswered | Scoped(prefixes: seq<Prefix>)
  datatype Asked = Asked(who: Walker, scope: Scope)

  /** The server: what it answers when its k-th answer is for the listing that goes to a file, for the settings,
      and for the prefixes of a walk over stored objects. */
  datatype Server = Server(
    rows: (nat, Text) -> seq<Row>, settings: nat -> Option<Manifest>, scope: (nat, Walker) -> Scope)

  /** What a run can be judged by: the state, the export directory, and a record of what the run
      did. The sets are of ids. */
  datatype World = World(
    server: Server, state: ExportState, files: map<Text, Content>,
    reached: set<Text>,      // items started
    flying: set<Text>,       // items whose action is not over
    lacking: set<Text>,      // items whose last action threw
    faults: set<Text>,       // items any action of which threw
    blocked: set<Text>,      // walks over objects that met an object's warning, but were otherwise done
    torn: set<Text>,         // items that two actions held at once
    unread: set<Text>,       // listings that could not be read when they were asked for
    visits: multiset<Visit>,
    listed: seq<seq<Text>>,  // the pages of object listings whose objects were taken
    skipped: set<Text>,      // walks over objects that found themselves finished
    scopes: seq<Asked>,      // what the server answers those that did not, in the order they began
    answers: map<Text, Asked>, // and to the last one with this id that is over
    written: map<Text, Text>)  // for which row or key an item other than a listing last succeeded

  /** What a process knows when it opens an export: warnings of finished items are torn. */
  function Opened(server: Server, state: ExportState, files: map<Text, Content>): World {
    var torn := set id | id in state.finished && id in state.warnings;
    World(server, state, files, {}, {}, {}, {}, {}, torn, {}, multiset{}, [], {}, [], map[], map[])
  }

  class ExportWriter {
    const names: Scheme
    const server: Server
    ghost const bases: set<Text>
    var finished: map<Text, Record>
    var warnings: map<Text, Text>
    var mappings: map<Text, Text>
    var claims: Claims
    var files: map<Text, Content>
    ghost var reached: set<Text>
    ghost var flying: set<Text>
    ghost var lacking: set<Text>
    ghost var faults: set<Text>
    ghost var blocked: set<Text>
    ghost var torn: set<Text>
    ghost var unread: set<Text>
    ghost var visits: multiset<Visit>
    ghost var listed: seq<seq<Text>>
    ghost var skipped: set<Text>
    ghost var scopes: seq<Asked>
    ghost var answers: map<Text, Asked>
    ghost var written: map<Text, Text>

    ghost function State(): ExportState
      reads this
    {
      ExportState(finished, warnings, mappings, claims)
    }

    ghost function Now(): World
      reads this
    {
      World(server, State(), files, reached, flying, lacking, faults, blocked, torn, unread, visits, listed,
            skipped, scopes, answers, written)
    }

    /** A process opens the export on a checkpointed state and the directory it finds. */
    constructor (platform: Platform, server: Server, ghost bases: set<Text>, checkpoint: Option<ExportState>,
                 files: map<Text, Content>)
      ensures names == SchemeOf(platform) && this.bases == bases
      ensures Now() == Opened(server, if checkpoint.Some? then checkpoint.value else NEW_EXPORT, files)
    {
      var st := if checkpoint.Some? then checkpoint.value else NEW_EXPORT;
      this.names, this.server, this.bases, this.files := SchemeOf(platform), server, bases, files;
      this.finished, this.warnings, this.mappings, this.claims := st.finished, st.warnings, st.mappings, st.claims;
      this.reached, this.flying, this.lacking, this.faults, this.blocked := {}, {}, {}, {}, {};
      this.torn := set id | id in st.finished && id in st.warnings;
      this.unread, this.visits, this.listed := {}, multiset{}, [];
      this.skipped, this.scopes, this.answers, this.written := {}, [], map[], map[];
    }

    /** One turn of the loop of `tree`: claim a name for a segment, hashed if the portable one is
        held by another owner. */
    method ClaimSegment(parent: Text, segment: Text, owner: Text) returns (claimed: Option<Text>)
      modifies this`claims
      ensures var name := ChosenName(names, old(claims), parent, segment, owner);
              var key := ClaimKey(names, parent, name);
              if HeldByOther(old(claims), key, owner) then claimed == None && claims == old(claims)
              else claimed == Some(name) && claims == old(claims)[key := owner]
      ensures var plain := names.portable(segment);
              var hashed := names.hashed(plain, owner);
              var key1, key2 := parent + [NUL] + names.fold(plain), parent + [NUL] + names.fold(hashed);
              if key1 !in old(claims) || old(claims)[key1] == owner
              then claimed == Some(plain) && claims == old(claims)[key1 := owner]
              else if key2 !in old(claims) || old(claims)[key2] == owner
              then claimed == Some(hashed) && claims == old(claims)[key2 := owner]
              else claimed == None && claims == old(claims)
    {
      var candidate := names.portable(segment);
      var key := parent + [NUL] + names.fold(candidate);
      if key in claims && claims[key] != owner {
        candidate := names.hashed(candidate, owner);
        key := parent + [NUL] + names.fold(candidate);
        if key in claims && claims[key] != owner { return None; }
      }
      claims := claims[key := owner];
      return Some(candidate);
    }

    /** The loop of `tree` over the segments; None is a throw. */
    method ClaimPath(base: Text, segments: seq<Text>) returns (path: Option<Text>)
      modifies this`claims
      ensures TreeResult(claims, path) == TreeFrom(names, old(claims), base, base, segments)
    {
      var parent, prefix := base, base;
      for i := 0 to |segments|
        invariant TreeFrom(names, old(claims), base, base, segments)
                    == TreeFrom(names, claims, parent, prefix, segments[i..])
      {
        prefix := prefix + [SLASH] + segments[i];
        var claimed := ClaimSegment(parent, segments[i], OwnerOf(i == |segments| - 1, prefix));
        if claimed.None? { return None; }
        parent := parent + [SLASH] + claimed.value;
        assert segments[i..][1..] == segments[i + 1..];
      }
      return Some(parent);
    }

    method Tree(base: Text, originalPath: Text) returns (path: Option<Text>)
      modifies this`claims, this`mappings
      ensures CallResult(NameTable(claims, mappings), path)
           == TreeCall(names, NameTable(old(claims), old(mappings)), Call(base, originalPath))
    {
      var segments := Segments(originalPath);
      if segments == [] { return None; }
      path := ClaimPath(base, segments);
      var original := base + [SLASH] + WithoutLeadingSlashes(originalPath);
      if path.Some? && path.value != original {
        mappings := mappings[original := path.value];
      }
    }

    /** `item` up to its action: true means it returns at once. */
    method ItemStart(id: Text) returns (skip: bool)
      modifies this`finished
      ensures skip <==> old(id in finished && forall output | output in finished[id].outputs :: output in files)
      ensures State() == if skip then old(State()) else Started(old(State()), id)
    {
      skip := false;
      if id in finished {
        skip := true;
        var outputs := finished[id].outputs;
        for i := 0 to |outputs|
          invariant skip <==> forall k | 0 <= k < i :: outputs[k] in files
        {
          skip := skip && outputs[i] in files;
        }
      }
      if !skip { finished := finished - {id}; }
    }

    method ItemSucceed(id: Text, outputs: seq<Text>, count: int)
      modifies this`finished, this`warnings
      ensures State() == Succeeded(old(State()), id, Record(outputs, count))
    {
      finished := finished[id := Record(outputs, count)];
      warnings := warnings - {id};
    }

    method ItemFail(id: Text, error: Text)
      modifies this`warnings
      ensures State() == Failed(old(State()), id, error)
    {
      warnings := warnings[id := error];
    }
  }

  /** The exporter's names are usable, so what `CustomerPaths` proves holds of them. */
  lemma {:induction false} ExporterNamesAreUsable(p: Platform)
    ensures UsableScheme(SchemeOf(p))
  {
    forall s ensures UsableName(SchemeOf(p).portable(s)) {
      PortableIsSafe(p, s);
      SafeNameIsOneSegment(PortableSegment(p, s));
    }
    forall s, owner | UsableName(s) ensures UsableName(SchemeOf(p).hashed(s, owner)) {
      HashedIsUsable(p, s, owner);
    }
  }

  /** The exporter's name for a segment that is free: the segment, or the safe one with its own digest. */
  lemma FreeName(p: Platform, s: Text) returns (c: Text, stem: Text, n: nat, e: Text)
    ensures var name := SchemeOf(p).portable(s);
            if SafeName(s) then name == s else CleanedFrom(s, c) && TildeShape(c, p.digest(s), stem, n, e, name)
  {
    PortableKeepsExactlySafeNames(p, s);
    c, stem, n, e := [], [], 0, [];
    if !SafeName(s) { c, stem, n, e := PortableShape(p, s); }
  }

  /** And for one that another owner holds: the portable name with the digest of its owner. */
  lemma ClashingName(p: Platform, s: Text, owner: Text) returns (stem: Text, n: nat, e: Text)
    ensures TildeShape(s, p.digest(owner), stem, n, e, SchemeOf(p).hashed(s, owner))
  {
    stem, n, e := HashedByUnits(p, s, owner);
  }

  lemma HashedIsUsable(p: Platform, s: Text, owner: Text)
    requires UsableName(s)
    ensures UsableName(HashedSegment(p, s, owner))
  {
    var suffix, stem := SuffixOf(p, s, owner), StemOf(s);
    SuffixIsClean(p, s, owner);
    var t := Truncate(stem, 255 - ByteLength(suffix));
    var r := t + suffix;
    assert r[|t|] == TILDE;
    forall i | 0 <= i < |r| ensures r[i] != SLASH && r[i] != BACKSLASH && r[i] != NUL {
      if i < |t| {
        assert r[i] == stem[i] && stem[i] in stem;
        assert stem == NAME || s[i] in s;
      } else {
        assert !Forbidden(suffix[i - |t|]);
      }
    }
  }

  /** Every name the exporter gives a customer file, disambiguated or not, is a safe disk name,
      and the whole path passes the output checks. */
  lemma ExportedPathsAreSafe(p: Platform, claims: Claims, o: Origin, path: Text)
    requires Assigned(SchemeOf(p), claims, o, path)
    ensures exists names: seq<Text> :: path == Join(o.base, names) && forall i | 0 <= i < |names| :: SafeName(names[i])
    ensures PassesTarget(o.base) ==> PassesTarget(path)
  {
    ExporterNamesAreUsable(p);
    forall s ensures SafeName(SchemeOf(p).portable(s)) {
      PortableIsSafe(p, s);
    }
    forall s, owner | SafeName(s) ensures SafeName(SchemeOf(p).hashed(s, owner)) {
      HashedIsSafe(p, s, owner);
    }
    LookupNamesAre(SchemeOf(p), SafeName, claims, o.base, o.base, o.segments);
    if PassesTarget(o.base) {
      AssignedPassesTarget(SchemeOf(p), claims, o, path);
    }
  }

  /** The exporter's own `tree` does throw when a customer owns a file named like a hash: the
      guard is the claims table, not the names. */
  lemma {:induction false} TreeCanThrow(p: Platform, base: Text, a: Text, x: Text)
    requires SafeName(a)
    requires p.fold(a) != p.fold(HashedSegment(p, a, OwnerOf(true, base + [SLASH] + a)))
    ensures var h := HashedSegment(p, a, OwnerOf(true, base + [SLASH] + a));
            var c1 := TreeFrom(SchemeOf(p), map[], base, base, [h]).claims;
            var c2 := TreeFrom(SchemeOf(p), c1, base, base, [a, x]).claims;
            TreeFrom(SchemeOf(p), c2, base, base, [a]).path == None
  {
    var h := HashedSegment(p, a, OwnerOf(true, base + [SLASH] + a));
    HashedIsSafe(p, a, OwnerOf(true, base + [SLASH] + a));
    PortableKeepsExactlySafeNames(p, a);
    PortableKeepsExactlySafeNames(p, h);
    OwnedHashMakesTreeThrow(SchemeOf(p), base, a, h, x);
  }
}
