/** Cursor paging, `ExportClient.pages` and `all`: listings whose length only the server knows. */
module Paging {
  import opened JsText
  import opened Options
  import opened Sets

  /** What one page request answers. A null cursor is None. */
  datatype Answer<R> = Page(items: seq<R>, cursor: Option<Text>) | ItemsNoArray | RequestFailed

  /** A falsy cursor: null or the empty string. */
  predicate Blank(cursor: Option<Text>) { cursor == None || cursor == Some([]) }

  /** The next cursor to ask with, if any. */
  function NextCursor<R>(answer: Answer<R>): Option<Text>
    requires answer.Page?
  {
    if Blank(answer.cursor) then None else answer.cursor
  }

  /** Every cursor the server may ever give is in the pool. */
  ghost predicate DrawsFrom<R>(answers: (nat, Option<Text>) -> Answer<R>, pool: set<Text>) {
    forall k, cursor :: answers(k, cursor).Page? && !Blank(answers(k, cursor).cursor) ==>
      answers(k, cursor).cursor.value in pool
  }

  /** The page got with one cursor gives the other. */
  predicate Gives<R>(answers: (nat, Option<Text>) -> Answer<R>, k: nat, from: Option<Text>, to: Option<Text>) {
    answers(k, from).Page? && !Blank(answers(k, from).cursor) && answers(k, from).cursor == to
  }

  predicate GivesNext<R>(answers: (nat, Option<Text>) -> Answer<R>, asked: seq<Option<Text>>, k: nat)
    requires k < |asked| - 1
  {
    Gives(answers, k, asked[k], asked[k + 1])
  }

  /** The cursors asked with, in order: each after the first was given by the page before. */
  predicate Chain<R>(answers: (nat, Option<Text>) -> Answer<R>, asked: seq<Option<Text>>) {
    asked != [] && asked[0] == None
    && forall k | 0 <= k < |asked| - 1 :: GivesNext(answers, asked, k)
  }

  predicate Distinct(asked: seq<Option<Text>>) {
    forall i, j | 0 <= i < j < |asked| :: asked[i] != asked[j]
  }

  /** The rows of the first pages of a chain. */
  function Rows<R>(answers: (nat, Option<Text>) -> Answer<R>, asked: seq<Option<Text>>, count: nat): seq<R>
    requires count <= |asked|
  {
    if count == 0 then []
    else
      var last := answers(count - 1, asked[count - 1]);
      Rows(answers, asked, count - 1) + if last.Page? then last.items else []
  }

  lemma {:induction false} RowsKept<R>(answers: (nat, Option<Text>) -> Answer<R>, asked: seq<Option<Text>>,
                                       more: seq<Option<Text>>, count: nat)
    requires count <= |asked|
    ensures Rows(answers, asked + more, count) == Rows(answers, asked, count)
    decreases count
  {
    if count == 0 {
    } else {
      RowsKept(answers, asked, more, count - 1);
    }
  }

  lemma RowsOneMore<R>(answers: (nat, Option<Text>) -> Answer<R>, asked: seq<Option<Text>>, next: Option<Text>)
    requires asked != [] && answers(|asked| - 1, asked[|asked| - 1]).Page?
    ensures Rows(answers, asked + [next], |asked|)
         == Rows(answers, asked, |asked| - 1) + answers(|asked| - 1, asked[|asked| - 1]).items
  {
    RowsKept(answers, asked, [next], |asked|);
  }

  /** The last page asked for ends the listing. */
  predicate Ends<R>(answers: (nat, Option<Text>) -> Answer<R>, asked: seq<Option<Text>>)
    requires asked != []
  {
    var last := answers(|asked| - 1, asked[|asked| - 1]);
    last.Page? && Blank(last.cursor)
  }

  /** The last page asked for failed, or gave a cursor that was asked with before. */
  predicate GivesUp<R>(answers: (nat, Option<Text>) -> Answer<R>, asked: seq<Option<Text>>)
    requires asked != []
  {
    var last := answers(|asked| - 1, asked[|asked| - 1]);
    last.Page? ==> !Blank(last.cursor) && last.cursor in asked
  }

  /** The cursors asked with and still to ask with are those seen. */
  predicate Tracks(asked: seq<Option<Text>>, seen: set<Text>) {
    && (forall i | 0 <= i < |asked| :: asked[i].Some? ==> asked[i].value in seen)
    && (forall c | c in seen :: Some(c) in asked)
  }

  lemma ChainGrows<R>(answers: (nat, Option<Text>) -> Answer<R>, asked: seq<Option<Text>>, next: Option<Text>,
                      seen: set<Text>)
    requires Chain(answers, asked) && Distinct(asked) && Tracks(asked, seen)
    requires Gives(answers, |asked| - 1, asked[|asked| - 1], next) && next.value !in seen
    ensures Chain(answers, asked + [next]) && Distinct(asked + [next]) && Tracks(asked + [next], seen + {next.value})
  {
    var longer := asked + [next];
    forall k | 0 <= k < |longer| - 1 ensures GivesNext(answers, longer, k) {
      if k < |asked| - 1 { assert GivesNext(answers, asked, k); }
    }
    forall c | c in seen + {next.value} ensures Some(c) in longer {
      if c in seen {
        assert Some(c) in asked;
      } else {
        assert longer[|asked|] == Some(c);
      }
    }
    forall i | 0 <= i < |longer| && longer[i].Some? ensures longer[i].value in seen + {next.value} {
      if i < |asked| { assert asked[i].Some?; }
    }
  }

  /** Where the loop of `pages` stands before its next request. */
  ghost predicate Underway<R>(answers: (nat, Option<Text>) -> Answer<R>, pool: set<Text>,
                              asked: seq<Option<Text>>, seen: set<Text>, taken: seq<R>) {
    && Chain(answers, asked) && Distinct(asked) && Tracks(asked, seen)
    && seen <= pool && |asked| == |seen| + 1 <= |pool| + 1
    && taken == Rows(answers, asked, |asked| - 1)
  }

  lemma OneRequestMore<R>(answers: (nat, Option<Text>) -> Answer<R>, pool: set<Text>,
                          asked: seq<Option<Text>>, seen: set<Text>, taken: seq<R>, answer: Answer<R>)
    requires DrawsFrom(answers, pool) && Underway(answers, pool, asked, seen, taken)
    requires answer == answers(|asked| - 1, asked[|asked| - 1]) && answer.Page?
    requires NextCursor(answer).Some? && NextCursor(answer).value !in seen
    ensures Underway(answers, pool, asked + [NextCursor(answer)], seen + {NextCursor(answer).value},
                     taken + answer.items)
  {
    var next := NextCursor(answer);
    ChainGrows(answers, asked, next, seen);
    RowsOneMore(answers, asked, next);
    SubsetIsSmaller(seen + {next.value}, pool);
  }

  /** How the loop ends. */
  ghost predicate Outcome<R>(answers: (nat, Option<Text>) -> Answer<R>, asked: seq<Option<Text>>, rows: Option<seq<R>>)
    requires asked != []
  {
    && (rows.Some? <==> Ends(answers, asked))
    && (rows.None? <==> GivesUp(answers, asked))
    && (rows.Some? ==> rows.value == Rows(answers, asked, |asked|))
  }

  lemma LastRequest<R>(answers: (nat, Option<Text>) -> Answer<R>, pool: set<Text>,
                       asked: seq<Option<Text>>, seen: set<Text>, taken: seq<R>, answer: Answer<R>)
    requires Underway(answers, pool, asked, seen, taken)
    requires answer == answers(|asked| - 1, asked[|asked| - 1])
    requires answer.Page? && NextCursor(answer).Some? ==> NextCursor(answer).value in seen
    ensures Outcome(answers, asked,
                    if answer.Page? && NextCursor(answer).None? then Some(taken + answer.items) else None)
  {
    if answer.Page? && NextCursor(answer).Some? {
      assert Some(NextCursor(answer).value) in asked;
    }
  }

  /** The rows of page k lie between two starts. */
  predicate PageAt<R(==)>(answers: (nat, Option<Text>) -> Answer<R>, asked: seq<Option<Text>>, rows: seq<R>,
                          starts: seq<nat>, k: nat)
    requires k < |asked| < |starts|
  {
    && answers(k, asked[k]).Page? && starts[k] <= starts[k + 1] <= |rows|
    && rows[starts[k]..starts[k + 1]] == answers(k, asked[k]).items
  }

  /** The pages, one after the other, make up the rows. */
  predicate MakeUp<R(==)>(answers: (nat, Option<Text>) -> Answer<R>, asked: seq<Option<Text>>, rows: seq<R>,
                          starts: seq<nat>) {
    && |starts| == |asked| + 1 && starts[0] == 0 && starts[|asked|] == |rows|
    && forall k | 0 <= k < |asked| :: PageAt(answers, asked, rows, starts, k)
  }

  predicate IsPage<R>(answers: (nat, Option<Text>) -> Answer<R>, asked: seq<Option<Text>>, k: nat)
    requires k < |asked|
  {
    answers(k, asked[k]).Page?
  }

  lemma {:induction false} RowsAreMadeUp<R>(answers: (nat, Option<Text>) -> Answer<R>, asked: seq<Option<Text>>,
                                            count: nat) returns (starts: seq<nat>)
    requires count <= |asked| && forall k | 0 <= k < count :: IsPage(answers, asked, k)
    ensures MakeUp(answers, asked[..count], Rows(answers, asked, count), starts)
    decreases count
  {
    if count == 0 {
      starts := [0];
    } else {
      var before := RowsAreMadeUp(answers, asked, count - 1);
      starts := before + [|Rows(answers, asked, count)|];
      assert IsPage(answers, asked, count - 1);
      OnePageMore(answers, asked, count, before);
    }
  }

  lemma OnePageMore<R>(answers: (nat, Option<Text>) -> Answer<R>, asked: seq<Option<Text>>,
                       count: nat, starts: seq<nat>)
    requires 0 < count <= |asked| && IsPage(answers, asked, count - 1)
    requires MakeUp(answers, asked[..count - 1], Rows(answers, asked, count - 1), starts)
    ensures MakeUp(answers, asked[..count], Rows(answers, asked, count), starts + [|Rows(answers, asked, count)|])
  {
    var less, rows, more := Rows(answers, asked, count - 1), Rows(answers, asked, count),
                            starts + [|Rows(answers, asked, count)|];
    assert rows == less + answers(count - 1, asked[count - 1]).items;
    forall k | 0 <= k < count ensures PageAt(answers, asked[..count], rows, more, k) {
      if k < count - 1 {
        assert PageAt(answers, asked[..count - 1], less, starts, k);
        assert rows[starts[k]..starts[k + 1]] == less[starts[k]..starts[k + 1]];
      }
    }
  }

  /** The page's own cursor, neither null nor empty, is the next one asked with. */
  predicate Leads<R>(answers: (nat, Option<Text>) -> Answer<R>, asked: seq<Option<Text>>, k: nat)
    requires k < |asked| - 1
  {
    var answer := answers(k, asked[k]);
    answer.Page? && answer.cursor != None && answer.cursor != Some([]) && asked[k + 1] == answer.cursor
  }

  /** What the cursors say on the way and at the end. */
  predicate CursorsTell<R>(answers: (nat, Option<Text>) -> Answer<R>, asked: seq<Option<Text>>, ended: bool)
    requires asked != []
  {
    && (forall k | 0 <= k < |asked| - 1 :: Leads(answers, asked, k))
    && var last := answers(|asked| - 1, asked[|asked| - 1]);
       if ended then last.Page? && (last.cursor == None || last.cursor == Some([]))
       else last.Page? ==> last.cursor != None && last.cursor != Some([]) && last.cursor in asked
  }

  lemma ChainTells<R>(answers: (nat, Option<Text>) -> Answer<R>, asked: seq<Option<Text>>, rows: Option<seq<R>>)
    requires Chain(answers, asked) && Outcome(answers, asked, rows)
    ensures CursorsTell(answers, asked, rows.Some?)
    ensures rows.Some? ==> exists starts :: MakeUp(answers, asked, rows.value, starts)
  {
    forall k | 0 <= k < |asked| - 1 ensures Leads(answers, asked, k) { assert GivesNext(answers, asked, k); }
    if rows.Some? {
      forall k | 0 <= k < |asked| ensures IsPage(answers, asked, k) {
        if k < |asked| - 1 { assert GivesNext(answers, asked, k); }
      }
      var starts := RowsAreMadeUp(answers, asked, |asked|);
      assert asked[..|asked|] == asked;
    }
  }

  /** `all` over `pages`: the rows, or None for a throw. No cursor is asked with twice, the
      requests are at most one more than the cursors the server has, each asks with the cursor the
      page before gave, and a listing that ends, at a page without one, is all the pages in order. It
      throws only when a request fails, a page has no items, or a cursor comes back. */
  method All<R>(answers: (nat, Option<Text>) -> Answer<R>, ghost pool: set<Text>)
    returns (rows: Option<seq<R>>, asked: seq<Option<Text>>)
    requires DrawsFrom(answers, pool)
    ensures Chain(answers, asked) && Distinct(asked)
    ensures |asked| <= |pool| + 1
    ensures Outcome(answers, asked, rows)
    ensures CursorsTell(answers, asked, rows.Some?)
    ensures rows.Some? ==> exists starts :: MakeUp(answers, asked, rows.value, starts)
  {
    rows, asked := ReadAll(answers, pool);
    ChainTells(answers, asked, rows);
  }

  method ReadAll<R>(answers: (nat, Option<Text>) -> Answer<R>, ghost pool: set<Text>)
    returns (rows: Option<seq<R>>, asked: seq<Option<Text>>)
    requires DrawsFrom(answers, pool)
    ensures Chain(answers, asked) && Distinct(asked)
    ensures |asked| <= |pool| + 1
    ensures Outcome(answers, asked, rows)
  {
    var cursor: Option<Text> := None;
    var seen: set<Text> := {};
    var taken: seq<R> := [];
    asked := [cursor];
    while true
      invariant asked != [] && asked[|asked| - 1] == cursor
      invariant Underway(answers, pool, asked, seen, taken)
      decreases |pool| + 1 - |asked|
    {
      var answer := answers(|asked| - 1, cursor);
      if !answer.Page? {
        LastRequest(answers, pool, asked, seen, taken, answer);
        return None, asked;
      }
      cursor := NextCursor(answer);
      if cursor.None? || cursor.value in seen {
        LastRequest(answers, pool, asked, seen, taken, answer);
        return if cursor.None? then Some(taken + answer.items) else None, asked;
      }
      OneRequestMore(answers, pool, asked, seen, taken, answer);
      taken, seen, asked := taken + answer.items, seen + {cursor.value}, asked + [cursor];
    }
  }

  // ---- one listing, one answer ----

  /** The cursors are determined by the answers: of two chains, one is a front of the other. */
  lemma {:induction false} ChainIsDetermined<R>(answers: (nat, Option<Text>) -> Answer<R>, a: seq<Option<Text>>,
                                                b: seq<Option<Text>>, k: nat)
    requires Chain(answers, a) && Chain(answers, b) && k < |a| && k < |b|
    ensures a[k] == b[k]
    decreases k
  {
    if k == 0 {
    } else {
      ChainIsDetermined(answers, a, b, k - 1);
      assert GivesNext(answers, a, k - 1) && GivesNext(answers, b, k - 1);
    }
  }

  lemma EndIsTheEnd<R>(answers: (nat, Option<Text>) -> Answer<R>, a: seq<Option<Text>>, b: seq<Option<Text>>)
    requires Chain(answers, a) && Chain(answers, b) && Ends(answers, a)
    ensures |b| <= |a|
  {
    if |a| < |b| {
      assert GivesNext(answers, b, |a| - 1);
      ChainIsDetermined(answers, a, b, |a| - 1);
    }
  }

  /** So the chain `all` follows is the only one that ends, and its rows the only listing. */
  lemma {:induction false} ListingIsUnique<R>(answers: (nat, Option<Text>) -> Answer<R>, a: seq<Option<Text>>,
                                              b: seq<Option<Text>>)
    requires Chain(answers, a) && Chain(answers, b) && Ends(answers, a) && Ends(answers, b)
    ensures a == b
  {
    EndIsTheEnd(answers, a, b);
    EndIsTheEnd(answers, b, a);
    forall k | 0 <= k < |a| ensures a[k] == b[k] { ChainIsDetermined(answers, a, b, k); }
  }

  /** On a server without memory, giving up on a cursor that comes back loses nothing: from there
      the listing would go round for ever, and no chain of its pages ends. */
  lemma {:induction false} RepeatedCursorNeverEnds<R>(answers: (nat, Option<Text>) -> Answer<R>,
                                                      asked: seq<Option<Text>>, other: seq<Option<Text>>)
    requires forall k, c :: answers(k, c) == answers(0, c)
    requires Chain(answers, asked) && Chain(answers, other)
    requires answers(0, asked[|asked| - 1]).Page? && GivesUp(answers, asked)
    ensures !Ends(answers, other)
  {
    CursorsStayInside(answers, asked, other, |other| - 1);
    var i :| 0 <= i < |asked| && asked[i] == other[|other| - 1];
    assert answers(|other| - 1, asked[i]) == answers(0, asked[i]) == answers(i, asked[i]);
    if i < |asked| - 1 {
      assert GivesNext(answers, asked, i);
    }
  }

  lemma {:induction false} CursorsStayInside<R>(answers: (nat, Option<Text>) -> Answer<R>, asked: seq<Option<Text>>,
                                                other: seq<Option<Text>>, k: nat)
    requires forall k, c :: answers(k, c) == answers(0, c)
    requires Chain(answers, asked) && Chain(answers, other)
    requires answers(0, asked[|asked| - 1]).Page? && GivesUp(answers, asked)
    requires k < |other|
    ensures other[k] in asked
    decreases k
  {
    if k == 0 {
    } else {
      CursorsStayInside(answers, asked, other, k - 1);
      var i :| 0 <= i < |asked| && asked[i] == other[k - 1];
      assert GivesNext(answers, other, k - 1);
      assert answers(k - 1, asked[i]) == answers(0, asked[i]) == answers(i, asked[i]);
      if i < |asked| - 1 {
        assert GivesNext(answers, asked, i);
      }
    }
  }
}
