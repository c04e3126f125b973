/** A thread's message history: pages come newest first, and are put together oldest first. */
module History {
  import opened Options

  datatype Entry<M> = Entry(index: int, message: M)

  /** The `next` of a page: null, a safe integer, or anything else. */
  datatype Next = Null | SafeInteger(n: int) | NotSafeInteger

  /** What one request answers; its entries may be no array at all. */
  datatype Answer<M> = Page(entries: seq<Entry<M>>, next: Next) | EntriesNoArray | RequestFailed

  /** The messages of an exported history and their number, unless the export threw. */
  datatype Exported<M> = Exported(messages: seq<M>, count: nat) | Threw

  predicate Ascending<M>(entries: seq<Entry<M>>) {
    forall i | 1 <= i < |entries| :: entries[i - 1].index < entries[i].index
  }

  /** The checks a page must pass, given the cursor it was asked for with. */
  predicate Accepts<M>(before: Option<nat>, answer: Answer<M>) {
    && answer.Page?
    && !answer.next.NotSafeInteger?
    && (answer.next.SafeInteger? ==> 0 <= answer.next.n && (before.Some? ==> answer.next.n < before.value))
    && Ascending(answer.entries)
  }

  /** The pages accepted from request k on, newest first; None if one is refused. The k-th request
      is answered by `answers(k, cursor)`, which may be anything. */
  function Fetched<M>(answers: (nat, Option<nat>) -> Answer<M>, k: nat, before: Option<nat>): Option<seq<seq<Entry<M>>>>
    decreases before.None?, if before.Some? then before.value else 0
  {
    var answer := answers(k, before);
    if !Accepts(before, answer) then None
    else if answer.next.Null? then Some([answer.entries])
    else
      var rest := Fetched(answers, k + 1, Some(answer.next.n));
      if rest.None? then None else Some([answer.entries] + rest.value)
  }

  function Requests<M>(answers: (nat, Option<nat>) -> Answer<M>, k: nat, before: Option<nat>): nat
    decreases before.None?, if before.Some? then before.value else 0
  {
    var answer := answers(k, before);
    1 + if Accepts(before, answer) && answer.next.SafeInteger? then Requests(answers, k + 1, Some(answer.next.n)) else 0
  }

  /** All entries, oldest first, of pages that came newest first. */
  function OldestFirst<M>(pages: seq<seq<Entry<M>>>): seq<Entry<M>> {
    if pages == [] then [] else OldestFirst(pages[1..]) + pages[0]
  }

  function Messages<M>(entries: seq<Entry<M>>): seq<M> {
    seq(|entries|, i requires 0 <= i < |entries| => entries[i].message)
  }

  function Result<M>(pages: Option<seq<seq<Entry<M>>>>): Exported<M> {
    if pages.None? then Threw
    else Exported(Messages(OldestFirst(pages.value)), |OldestFirst(pages.value)|)
  }

  /** Reading the page files back, the last one first. */
  method Assemble<M>(pages: seq<seq<Entry<M>>>) returns (messages: seq<M>)
    ensures messages == Messages(OldestFirst(pages))
  {
    messages := [];
    var i := |pages|;
    while i > 0
      invariant 0 <= i <= |pages|
      invariant messages == Messages(OldestFirst(pages[i..]))
    {
      i := i - 1;
      assert pages[i..][1..] == pages[i + 1..];
      messages := messages + Messages(pages[i]);
    }
    assert pages[0..] == pages;
  }

  lemma {:induction false} OldestFirstGrows<M>(pages: seq<seq<Entry<M>>>, page: seq<Entry<M>>)
    ensures OldestFirst(pages + [page]) == page + OldestFirst(pages)
    decreases |pages|
  {
    if pages == [] {
      assert OldestFirst([page]) == page;
    } else {
      assert (pages + [page])[1..] == pages[1..] + [page];
      OldestFirstGrows(pages[1..], page);
    }
  }

  function Continued<M>(pages: seq<seq<Entry<M>>>, rest: Option<seq<seq<Entry<M>>>>): Option<seq<seq<Entry<M>>>> {
    if rest.None? then None else Some(pages + rest.value)
  }

  lemma ContinuedOnce<M>(pages: seq<seq<Entry<M>>>, page: seq<Entry<M>>, rest: Option<seq<seq<Entry<M>>>>)
    ensures Continued(pages, Continued([page], rest)) == Continued(pages + [page], rest)
    ensures Continued([], rest) == rest
  {
    if rest.Some? {
      assert pages + ([page] + rest.value) == pages + [page] + rest.value;
      assert [] + rest.value == rest.value;
    }
  }

  /** The cursor a page goes on with is below the one it was asked for with. */
  predicate GoesDown(before: Option<nat>, next: int) { 0 <= next && (before.Some? ==> next < before.value) }

  /** A page in order, and with a cursor that goes down or none. */
  predicate InOrder<M>(before: Option<nat>, answer: Answer<M>) {
    && answer.Page? && (answer.next == Null || (answer.next.SafeInteger? && GoesDown(before, answer.next.n)))
    && forall i | 0 <= i < |answer.entries| - 1 :: answer.entries[i].index < answer.entries[i + 1].index
  }

  /** Request k was asked with this cursor, and its page, in order, gave the cursor of the next one. */
  predicate Leads<M>(answers: (nat, Option<nat>) -> Answer<M>, asked: seq<Option<nat>>, k: nat)
    requires k < |asked| - 1
  {
    var answer := answers(k, asked[k]);
    InOrder(asked[k], answer) && answer.next.SafeInteger? && asked[k + 1] == Some(answer.next.n)
  }

  /** The cursors asked with, from none on. The last page is in order and has no cursor, unless it is refused. */
  predicate Course<M>(answers: (nat, Option<nat>) -> Answer<M>, asked: seq<Option<nat>>, taken: bool) {
    && asked != [] && asked[0] == None && (forall k | 0 <= k < |asked| - 1 :: Leads(answers, asked, k))
    && var last := answers(|asked| - 1, asked[|asked| - 1]);
       if taken then InOrder(asked[|asked| - 1], last) && last.next == Null else !InOrder(asked[|asked| - 1], last)
  }

  predicate PagesOf<M(==)>(answers: (nat, Option<nat>) -> Answer<M>, asked: seq<Option<nat>>,
                           pages: seq<seq<Entry<M>>>) {
    && |pages| == |asked|
    && forall k | 0 <= k < |asked| :: answers(k, asked[k]).Page? && pages[k] == answers(k, asked[k]).entries
  }

  lemma CourseOneMore<M>(answers: (nat, Option<nat>) -> Answer<M>, asked: seq<Option<nat>>,
                         taken: seq<seq<Entry<M>>>, before: Option<nat>)
    requires asked != [] && asked[|asked| - 1] == before && |taken| == |asked| - 1
    requires forall k | 0 <= k < |asked| - 1 :: Leads(answers, asked, k) && taken[k] == answers(k, asked[k]).entries
    requires var answer := answers(|asked| - 1, before); Accepts(before, answer) && answer.next.SafeInteger?
    ensures var answer := answers(|asked| - 1, before);
            var longer, more := asked + [Some(answer.next.n)], taken + [answer.entries];
            forall k | 0 <= k < |longer| - 1 :: Leads(answers, longer, k) && more[k] == answers(k, longer[k]).entries
  {
    var answer := answers(|asked| - 1, before);
    var longer, more := asked + [Some(answer.next.n)], taken + [answer.entries];
    forall k | 0 <= k < |longer| - 1 ensures Leads(answers, longer, k) && more[k] == answers(k, longer[k]).entries {
      if k < |asked| - 1 { assert Leads(answers, asked, k); }
    }
  }

  lemma {:induction false} FetchedCourse<M>(answers: (nat, Option<nat>) -> Answer<M>, asked: seq<Option<nat>>,
                                            taken: seq<seq<Entry<M>>>, before: Option<nat>)
    returns (all: seq<Option<nat>>)
    requires asked != [] && asked[0] == None && asked[|asked| - 1] == before && |taken| == |asked| - 1
    requires forall k | 0 <= k < |asked| - 1 :: Leads(answers, asked, k) && taken[k] == answers(k, asked[k]).entries
    ensures var pages := Fetched(answers, |asked| - 1, before);
            && Course(answers, all, pages.Some?) && (pages.Some? ==> PagesOf(answers, all, taken + pages.value))
    ensures |all| == |asked| - 1 + Requests(answers, |asked| - 1, before)
    decreases before.None?, if before.Some? then before.value else 0
  {
    var answer := answers(|asked| - 1, before);
    all := asked;
    if Accepts(before, answer) && answer.next.SafeInteger? {
      var longer, more := asked + [Some(answer.next.n)], taken + [answer.entries];
      CourseOneMore(answers, asked, taken, before);
      all := FetchedCourse(answers, longer, more, Some(answer.next.n));
      var rest := Fetched(answers, |asked|, Some(answer.next.n));
      if rest.Some? { Regrouped(taken, answer.entries, rest.value); }
    } else {
      CourseEnds(answers, asked, taken, before);
    }
  }

  lemma CourseEnds<M>(answers: (nat, Option<nat>) -> Answer<M>, asked: seq<Option<nat>>, taken: seq<seq<Entry<M>>>,
                      before: Option<nat>)
    requires asked != [] && asked[0] == None && asked[|asked| - 1] == before && |taken| == |asked| - 1
    requires forall k | 0 <= k < |asked| - 1 :: Leads(answers, asked, k) && taken[k] == answers(k, asked[k]).entries
    requires var answer := answers(|asked| - 1, before); !(Accepts(before, answer) && answer.next.SafeInteger?)
    ensures var pages := Fetched(answers, |asked| - 1, before);
            && Course(answers, asked, pages.Some?) && (pages.Some? ==> PagesOf(answers, asked, taken + pages.value))
    ensures Requests(answers, |asked| - 1, before) == 1
  {
    var answer := answers(|asked| - 1, before);
    if Accepts(before, answer) {
      var all := taken + [answer.entries];
      forall k | 0 <= k < |asked|
        ensures answers(k, asked[k]).Page? && all[k] == answers(k, asked[k]).entries
      {
        if k < |asked| - 1 { assert Leads(answers, asked, k) && all[k] == taken[k]; }
      }
    }
  }

  lemma Regrouped<T>(some: seq<T>, one: T, more: seq<T>)
    ensures some + ([one] + more) == some + [one] + more
  {
  }

  /** The cursor loop of `exportHistory`: the pages as they came, or a throw. */
  method FetchPages<M>(answers: (nat, Option<nat>) -> Answer<M>)
    returns (pages: Option<seq<seq<Entry<M>>>>, count: nat, requests: nat)
    ensures pages == Fetched(answers, 0, None)
    ensures requests == Requests(answers, 0, None)
    ensures pages.Some? ==> count == |OldestFirst(pages.value)|
    ensures exists asked :: |asked| == requests && Course(answers, asked, pages.Some?)
                            && (pages.Some? ==> PagesOf(answers, asked, pages.value))
  {
    pages, count, requests := ReadPages(answers);
    ghost var asked := FetchedCourse(answers, [None], [], None);
    if pages.Some? { assert [] + pages.value == pages.value; }
  }

  /** The source's loop. */
  method ReadPages<M>(answers: (nat, Option<nat>) -> Answer<M>)
    returns (pages: Option<seq<seq<Entry<M>>>>, count: nat, requests: nat)
    ensures pages == Fetched(answers, 0, None)
    ensures requests == Requests(answers, 0, None)
    ensures pages.Some? ==> count == |OldestFirst(pages.value)|
  {
    var before: Option<nat> := None;
    var taken: seq<seq<Entry<M>>> := [];
    count, requests := 0, 0;
    ContinuedOnce([], [], Fetched(answers, 0, None));
    while true
      invariant Fetched(answers, 0, None) == Continued(taken, Fetched(answers, requests, before))
      invariant Requests(answers, 0, None) == requests + Requests(answers, requests, before)
      invariant count == |OldestFirst(taken)|
      decreases before.None?, if before.Some? then before.value else 0
    {
      var answer := answers(requests, before);
      ghost var k := requests;
      requests := requests + 1;
      if !Accepts(before, answer) { return None, count, requests; }
      OldestFirstGrows(taken, answer.entries);
      count := count + |answer.entries|;
      if answer.next.Null? { return Some(taken + [answer.entries]), count, requests; }
      ContinuedOnce(taken, answer.entries, Fetched(answers, requests, Some(answer.next.n)));
      taken := taken + [answer.entries];
      before := Some(answer.next.n);
    }
  }

  /** The action of `exportHistory`. */
  method ExportHistory<M>(answers: (nat, Option<nat>) -> Answer<M>) returns (exported: Exported<M>, requests: nat)
    ensures exported == Result(Fetched(answers, 0, None))
    ensures requests == Requests(answers, 0, None)
    ensures exists asked :: |asked| == requests && Course(answers, asked, exported.Exported?)
  {
    var pages, count;
    pages, count, requests := FetchPages(answers);
    ghost var asked := FetchedCourse(answers, [None], [], None);
    if pages.None? { return Threw, requests; }
    var messages := Assemble(pages.value);
    return Exported(messages, count), requests;
  }

  /** Whatever the server answers, the loop makes at most two requests more than the first cursor
      it is given. */
  lemma RequestsAreBounded<M>(answers: (nat, Option<nat>) -> Answer<M>)
    ensures var first := answers(0, None);
            if first.Page? && first.next.SafeInteger? && first.next.n >= 0
            then Requests(answers, 0, None) <= first.next.n + 2
            else Requests(answers, 0, None) == 1
  {
    var first := answers(0, None);
    if Accepts(None, first) && first.next.SafeInteger? {
      CursorBoundsRequests(answers, 1, first.next.n);
    }
  }

  lemma {:induction false} CursorBoundsRequests<M>(answers: (nat, Option<nat>) -> Answer<M>, k: nat, before: nat)
    ensures Requests(answers, k, Some(before)) <= before + 1
    decreases before
  {
    var answer := answers(k, Some(before));
    if Accepts(Some(before), answer) && answer.next.SafeInteger? {
      CursorBoundsRequests(answers, k + 1, answer.next.n);
    }
  }

  // ---- a server that pages through a history ----

  /** How many entries of an ascending history lie below the cursor. */
  function Below<M>(history: seq<Entry<M>>, before: Option<nat>): (n: nat)
    ensures n <= |history|
    ensures n > 0 && before.Some? ==> history[n - 1].index < before.value
    ensures before.None? ==> n == |history|
    decreases |history|
  {
    if before.None? || history == [] || history[|history| - 1].index < before.value then |history|
    else Below(history[..|history| - 1], before)
  }

  /** The page holds a run of entries that ends just below the cursor, and `next` continues just
      below that run; it is null only when nothing is left. */
  ghost predicate Serves<M>(history: seq<Entry<M>>, before: Option<nat>, answer: Answer<M>) {
    && answer.Page?
    && var high := Below(history, before);
       && |answer.entries| <= high
       && answer.entries == history[high - |answer.entries|..high]
       && match answer.next
          case Null => high == |answer.entries|
          case SafeInteger(n) =>
            0 <= n && (before.Some? ==> n < before.value) && Below(history, Some(n)) == high - |answer.entries|
          case NotSafeInteger => false
  }

  lemma ServedPageIsAccepted<M>(history: seq<Entry<M>>, before: Option<nat>, answer: Answer<M>)
    requires Ascending(history) && Serves(history, before, answer)
    ensures Accepts(before, answer)
  {
    var low := Below(history, before) - |answer.entries|;
    forall i | 1 <= i < |answer.entries| ensures answer.entries[i - 1].index < answer.entries[i].index {
      assert history[low + i - 1].index < history[low + i].index;
    }
  }

  lemma ServedPageContinues<M>(history: seq<Entry<M>>, before: Option<nat>, answer: Answer<M>, rest: seq<seq<Entry<M>>>)
    requires Serves(history, before, answer)
    requires OldestFirst(rest) == history[..Below(history, before) - |answer.entries|]
    ensures OldestFirst([answer.entries] + rest) == history[..Below(history, before)]
  {
    var high := Below(history, before);
    var low := high - |answer.entries|;
    assert ([answer.entries] + rest)[1..] == rest;
    assert history[..high] == history[..low] + history[low..high];
  }

  lemma {:induction false} FetchedIsTheRest<M>(history: seq<Entry<M>>, answers: (nat, Option<nat>) -> Answer<M>, k: nat,
                                               before: Option<nat>)
    requires Ascending(history)
    requires forall k, before :: Serves(history, before, answers(k, before))
    ensures Fetched(answers, k, before).Some?
    ensures OldestFirst(Fetched(answers, k, before).value) == history[..Below(history, before)]
    decreases before.None?, if before.Some? then before.value else 0
  {
    var answer := answers(k, before);
    ServedPageIsAccepted(history, before, answer);
    if answer.next.Null? {
      assert OldestFirst<M>([]) == history[..0];
      ServedPageContinues(history, before, answer, []);
      assert [answer.entries] + [] == [answer.entries];
    } else {
      FetchedIsTheRest(history, answers, k + 1, Some(answer.next.n));
      ServedPageContinues(history, before, answer, Fetched(answers, k + 1, Some(answer.next.n)).value);
    }
  }

  /** Against such a server the export is the whole history, oldest first, and counts it. */
  lemma HistoryIsWhole<M>(history: seq<Entry<M>>, answers: (nat, Option<nat>) -> Answer<M>)
    requires Ascending(history)
    requires forall k, before :: Serves(history, before, answers(k, before))
    ensures Result(Fetched(answers, 0, None)) == Exported(Messages(history), |history|)
  {
    FetchedIsTheRest(history, answers, 0, None);
    assert history[..|history|] == history;
  }
}
