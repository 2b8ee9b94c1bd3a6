/** The past-activity pagination loop of the wallet actions
    (`fetchPastActivities` in src/global/actions/api/wallet.ts): it walks a
    timestamp cursor backwards through one activity stream, page by page,
    keeps everything it fetched, uses the visibility filter only to decide
    whether to fetch another page, and commits the sorted buffer once. */
module PastActivities {
  import opened Types

  /** Page size requested from the API and the threshold of the stopping rule. */
  const PastActivityBatch: nat := 50

  /** The two spam checks the filter consults; their bodies are not part of
      this model (`getIsTransactionWithPoisoning`, `getIsTinyOrScamTransaction`). */
  datatype SpamChecks = SpamChecks(isPoisoning: Activity -> bool, isTinyOrScam: Activity -> bool)

  /** What the loop reads from the stream's window before it starts. */
  datatype StreamState = StreamState(isHistoryEndReached: bool, lastActivityTimestamp: Option<int>)

  /** The arguments handed to the `addPastActivities` reducer, committed once. */
  datatype PastActivitiesCommit =
    PastActivitiesCommit(accountId: string, slug: Option<string>, activities: seq<Activity>, isEndReached: bool)

  /** The hide predicate of the loop: only transfers can be hidden; a
      poisoning transfer always is, a tiny or scam one only when the user
      hides tiny transfers. */
  function ShouldHide(a: Activity, areTinyTransfersHidden: bool, checks: SpamChecks): (hidden: bool)
    ensures hidden ==> a.TransactionActivity?
    ensures a.TransactionActivity? && checks.isPoisoning(a) ==> hidden
    ensures a.TransactionActivity? && !checks.isPoisoning(a) ==>
              (hidden <==> areTinyTransfersHidden && checks.isTinyOrScam(a))
  {
    a.TransactionActivity? && (checks.isPoisoning(a) || (areTinyTransfersHidden && checks.isTinyOrScam(a)))
  }

  /** `result.filter(tx => !shouldHide)`: the visible items of one page, in order. */
  function Visible(page: seq<Activity>, areTinyTransfersHidden: bool, checks: SpamChecks): (r: seq<Activity>)
    ensures |r| <= |page|
  {
    if page == [] then []
    else
      var rest := Visible(page[1..], areTinyTransfersHidden, checks);
      if ShouldHide(page[0], areTinyTransfersHidden, checks) then rest else [page[0]] + rest
  }

  /** Filtering keeps every visible occurrence: each item occurs in the
      visible part as often as in the page, or not at all when hidden. */
  lemma {:induction false} VisibleCounts(page: seq<Activity>, areTinyTransfersHidden: bool, checks: SpamChecks, x: Activity)
    ensures multiset(Visible(page, areTinyTransfersHidden, checks))[x]
              == if ShouldHide(x, areTinyTransfersHidden, checks) then 0 else multiset(page)[x]
  {
    if page != [] {
      assert page == [page[0]] + page[1..];
      VisibleCounts(page[1..], areTinyTransfersHidden, checks, x);
    }
  }

  /** Filtering keeps order: the visible part of two pages put together is
      the visible part of the first followed by that of the second. */
  lemma {:induction false} VisibleAppend(p: seq<Activity>, q: seq<Activity>, areTinyTransfersHidden: bool, checks: SpamChecks)
    ensures Visible(p + q, areTinyTransfersHidden, checks)
              == Visible(p, areTinyTransfersHidden, checks) + Visible(q, areTinyTransfersHidden, checks)
  {
    if p == [] {
      assert p + q == q;
    } else {
      var t := areTinyTransfersHidden;
      assert (p + q)[0] == p[0];
      assert (p + q)[1..] == p[1..] + q;
      VisibleAppend(p[1..], q, t, checks);
      var head := if ShouldHide(p[0], t, checks) then [] else [p[0]];
      assert Visible(p + q, t, checks) == head + Visible(p[1..] + q, t, checks);
      assert Visible(p, t, checks) == head + Visible(p[1..], t, checks);
      assert head + (Visible(p[1..], t, checks) + Visible(q, t, checks))
             == (head + Visible(p[1..], t, checks)) + Visible(q, t, checks);
    }
  }

  /** Concatenation of pages in fetch order (`fetchedActivities.push(...result)`). */
  function Flatten(pages: seq<seq<Activity>>): seq<Activity>
  {
    if pages == [] then [] else Flatten(pages[..|pages| - 1]) + pages[|pages| - 1]
  }

  /** The page each logged request received; a failed request counts as no items. */
  function Pages(fetch: (nat, Option<int>) -> Option<seq<Activity>>, requests: seq<Option<int>>): (ps: seq<seq<Activity>>)
    ensures |ps| == |requests|
    ensures forall k :: 0 <= k < |requests| ==> ps[k] == fetch(k, requests[k]).GetOr([])
  {
    seq(|requests|, k requires 0 <= k < |requests| => fetch(k, requests[k]).GetOr([]))
  }

  /** After round `k` the stopping rule of line 102 said "fetch more": the
      page was non-empty, it showed fewer than a batch of visible items, and
      fewer than a batch had been fetched in total. */
  predicate Continued(pages: seq<seq<Activity>>, k: nat, tinyHiddenAt: nat -> bool, checks: SpamChecks)
    requires k < |pages|
  {
    |pages[k]| > 0
    && |Visible(pages[k], tinyHiddenAt(k), checks)| < PastActivityBatch
    && |Flatten(pages[..k + 1])| < PastActivityBatch
  }

  /** A comparator that sorts consistently: total and transitive. */
  ghost predicate TotalPreorder(le: (Activity, Activity) -> bool) {
    (forall a, b :: le(a, b) || le(b, a))
    && (forall a, b, c :: le(a, b) && le(b, c) ==> le(a, c))
  }

  predicate SortedBy(s: seq<Activity>, le: (Activity, Activity) -> bool) {
    forall i, j :: 0 <= i < j < |s| ==> le(s[i], s[j])
  }

  function Insert(x: Activity, s: seq<Activity>, le: (Activity, Activity) -> bool): (r: seq<Activity>)
    requires TotalPreorder(le) && SortedBy(s, le)
    ensures multiset(r) == multiset(s) + multiset{x}
    ensures SortedBy(r, le)
  {
    if s == [] then [x]
    // `x` goes after every element it ties with
    else if !le(s[0], x) then [x] + s
    else
      var rest := Insert(x, s[1..], le);
      HeadBelowAll(x, s, rest, le);
      SortedCons(s[0], rest, le);
      assert s == [s[0]] + s[1..];
      [s[0]] + rest
  }

  /** The head of a sorted sequence is below every element of its tail, and
      so below everything in a reordering of the tail with `x` added. */
  lemma HeadBelowAll(x: Activity, s: seq<Activity>, rest: seq<Activity>, le: (Activity, Activity) -> bool)
    requires s != [] && SortedBy(s, le) && le(s[0], x)
    requires multiset(rest) == multiset(s[1..]) + multiset{x}
    ensures forall y :: y in rest ==> le(s[0], y)
  {
    forall y | y in rest ensures le(s[0], y) {
      assert y in multiset(rest);
      if y != x {
        assert y in multiset(s[1..]);
        var j :| 0 <= j < |s[1..]| && s[1..][j] == y;
        assert s[j + 1] == y;
      }
    }
  }

  /** An element below everything in a sorted sequence can be put in front. */
  lemma SortedCons(a: Activity, t: seq<Activity>, le: (Activity, Activity) -> bool)
    requires SortedBy(t, le) && forall y :: y in t ==> le(a, y)
    ensures SortedBy([a] + t, le)
  {
    var r := [a] + t;
    assert forall j :: 0 < j < |r| ==> r[j] == t[j - 1];
  }

  /** `fetchedActivities.sort(compareActivities)`: a sorted permutation,
      which is stable (see `SortByStable`). */
  function SortBy(s: seq<Activity>, le: (Activity, Activity) -> bool): (r: seq<Activity>)
    requires TotalPreorder(le)
    ensures multiset(r) == multiset(s)
    ensures SortedBy(r, le)
  {
    if s == [] then []
    else
      assert s == s[..|s| - 1] + [s[|s| - 1]];
      Insert(s[|s| - 1], SortBy(s[..|s| - 1], le), le)
  }

  /** Two items the comparator cannot tell apart. */
  predicate Tied(a: Activity, b: Activity, le: (Activity, Activity) -> bool) {
    le(a, b) && le(b, a)
  }

  /** The items of `s` tied with `y`, in their order in `s`. */
  function Ties(s: seq<Activity>, y: Activity, le: (Activity, Activity) -> bool): (t: seq<Activity>)
    ensures |t| <= |s|
  {
    if s == [] then [] else (if Tied(s[0], y, le) then [s[0]] else []) + Ties(s[1..], y, le)
  }

  lemma {:induction false} TiesAppend(s: seq<Activity>, x: Activity, y: Activity, le: (Activity, Activity) -> bool)
    ensures Ties(s + [x], y, le) == Ties(s, y, le) + (if Tied(x, y, le) then [x] else [])
  {
    if s == [] {
      assert [x][1..] == [];
    } else {
      assert (s + [x])[1..] == s[1..] + [x];
      TiesAppend(s[1..], x, y, le);
    }
  }

  lemma SortedTail(s: seq<Activity>, le: (Activity, Activity) -> bool)
    requires s != [] && SortedBy(s, le)
    ensures SortedBy(s[1..], le)
  {
    forall i, j | 0 <= i < j < |s[1..]| ensures le(s[1..][i], s[1..][j]) {
      assert s[1..][i] == s[i + 1] && s[1..][j] == s[j + 1];
    }
  }

  /** In a sorted list whose head is strictly above `x`, nothing ties with
      an item that ties with `x`. */
  lemma {:induction false} NoTiesAbove(s: seq<Activity>, x: Activity, y: Activity, le: (Activity, Activity) -> bool)
    requires TotalPreorder(le) && SortedBy(s, le)
    requires s != [] && !le(s[0], x) && Tied(x, y, le)
    ensures Ties(s, y, le) == []
  {
    if |s| > 1 {
      assert le(s[0], s[1]);
      assert !le(s[1], x);
      SortedTail(s, le);
      NoTiesAbove(s[1..], x, y, le);
    }
    assert !Tied(s[0], y, le);
  }

  /** Inserting `x` adds it behind the items it ties with. */
  lemma {:induction false} InsertTies(x: Activity, s: seq<Activity>, y: Activity, le: (Activity, Activity) -> bool)
    requires TotalPreorder(le) && SortedBy(s, le)
    ensures Ties(Insert(x, s, le), y, le) == Ties(s, y, le) + (if Tied(x, y, le) then [x] else [])
  {
    if s == [] || !le(s[0], x) {
      InsertTiesAtFront(x, s, y, le);
    } else {
      var rest := Insert(x, s[1..], le);
      assert Insert(x, s, le) == [s[0]] + rest;
      SortedTail(s, le);
      InsertTies(x, s[1..], y, le);
      TiesCons(s[0], rest, y, le);
    }
  }

  /** The case where `x` goes first: nothing after it ties with it. */
  lemma InsertTiesAtFront(x: Activity, s: seq<Activity>, y: Activity, le: (Activity, Activity) -> bool)
    requires TotalPreorder(le) && SortedBy(s, le)
    requires s == [] || !le(s[0], x)
    ensures Ties(Insert(x, s, le), y, le) == Ties(s, y, le) + (if Tied(x, y, le) then [x] else [])
  {
    assert Insert(x, s, le) == [x] + s;
    TiesCons(x, s, y, le);
    if Tied(x, y, le) && s != [] {
      NoTiesAbove(s, x, y, le);
    }
  }

  lemma TiesCons(a: Activity, t: seq<Activity>, y: Activity, le: (Activity, Activity) -> bool)
    ensures Ties([a] + t, y, le) == (if Tied(a, y, le) then [a] else []) + Ties(t, y, le)
  {
    assert ([a] + t)[1..] == t;
  }

  /** The sort is stable: the items of every class of tied items keep their
      input order. */
  lemma {:induction false} SortByStable(s: seq<Activity>, y: Activity, le: (Activity, Activity) -> bool)
    requires TotalPreorder(le)
    ensures Ties(SortBy(s, le), y, le) == Ties(s, y, le)
  {
    if s != [] {
      var n := |s| - 1;
      SortByStable(s[..n], y, le);
      InsertTies(s[n], SortBy(s[..n], le), y, le);
      TiesAppend(s[..n], s[n], y, le);
      assert s == s[..n] + [s[n]];
    }
  }

  lemma PagesSnoc(fetch: (nat, Option<int>) -> Option<seq<Activity>>, requests: seq<Option<int>>, t: Option<int>)
    ensures Pages(fetch, requests + [t]) == Pages(fetch, requests) + [fetch(|requests|, t).GetOr([])]
  {
    var lhs := Pages(fetch, requests + [t]);
    var rhs := Pages(fetch, requests) + [fetch(|requests|, t).GetOr([])];
    assert |lhs| == |rhs|;
    forall k | 0 <= k < |lhs| ensures lhs[k] == rhs[k] {
      if k < |requests| {
        assert (requests + [t])[k] == requests[k];
      }
    }
  }

  lemma FlattenSnoc(pages: seq<seq<Activity>>, p: seq<Activity>)
    ensures Flatten(pages + [p]) == Flatten(pages) + p
  {
    assert (pages + [p])[..|pages|] == pages;
  }

  lemma ContinuedSnoc(pages: seq<seq<Activity>>, p: seq<Activity>, tinyHiddenAt: nat -> bool, checks: SpamChecks)
    ensures forall k :: 0 <= k < |pages| ==>
              (Continued(pages + [p], k, tinyHiddenAt, checks) <==> Continued(pages, k, tinyHiddenAt, checks))
  {
    forall k | 0 <= k < |pages|
      ensures Continued(pages + [p], k, tinyHiddenAt, checks) <==> Continued(pages, k, tinyHiddenAt, checks)
    {
      assert (pages + [p])[k] == pages[k];
      assert (pages + [p])[..k + 1] == pages[..k + 1];
    }
  }

  /** Timestamp of the oldest item of a non-empty page: the next cursor. */
  function LastTimestamp(page: seq<Activity>): int
    requires |page| > 0
  {
    page[|page| - 1].timestamp
  }

  /** Every request after the first used the last timestamp of the page before it. */
  ghost predicate CursorChain(requests: seq<Option<int>>, pages: seq<seq<Activity>>)
    requires |pages| == |requests|
  {
    forall k :: 0 <= k < |requests| - 1 ==> |pages[k]| > 0 && requests[k + 1] == Some(LastTimestamp(pages[k]))
  }

  lemma CursorChainSnoc(requests: seq<Option<int>>, pages: seq<seq<Activity>>, t: Option<int>, p: seq<Activity>)
    requires |pages| == |requests| && CursorChain(requests, pages)
    requires 0 < |pages| ==> |pages[|pages| - 1]| > 0 && t == Some(LastTimestamp(pages[|pages| - 1]))
    ensures CursorChain(requests + [t], pages + [p])
  {
    var rs, ps := requests + [t], pages + [p];
    forall k | 0 <= k < |rs| - 1
      ensures |ps[k]| > 0 && rs[k + 1] == Some(LastTimestamp(ps[k]))
    {
      assert ps[k] == pages[k];
      if k + 1 < |requests| {
        assert rs[k + 1] == requests[k + 1];
      } else {
        assert rs[k + 1] == t;
      }
    }
    assert CursorChain(rs, ps);
  }

  lemma ContinuedLast(pages: seq<seq<Activity>>, tinyHiddenAt: nat -> bool, checks: SpamChecks)
    requires |pages| > 0
    ensures Continued(pages, |pages| - 1, tinyHiddenAt, checks) <==>
              |pages[|pages| - 1]| > 0
              && |Visible(pages[|pages| - 1], tinyHiddenAt(|pages| - 1), checks)| < PastActivityBatch
              && |Flatten(pages)| < PastActivityBatch
  {
    assert pages[..|pages|] == pages;
  }

  /** The loop ended normally (not at the end of history): the last page was
      non-empty and the stopping rule said "stop". */
  predicate Stopped(pages: seq<seq<Activity>>, tinyHiddenAt: nat -> bool, checks: SpamChecks)
    requires |pages| > 0
  {
    var k := |pages| - 1;
    |pages[k]| > 0
    && (|Visible(pages[k], tinyHiddenAt(k), checks)| >= PastActivityBatch
        || |Flatten(pages)| >= PastActivityBatch)
  }

  /** What the rounds of a run so far have in common: `pages` are the answers
      to `requests`, the cursor started at the stored timestamp and then
      followed the pages, and every round but the last was answered and said
      "continue". */
  ghost predicate Rounds(
    fetch: (nat, Option<int>) -> Option<seq<Activity>>,
    stream: StreamState,
    requests: seq<Option<int>>,
    pages: seq<seq<Activity>>,
    tinyHiddenAt: nat -> bool,
    checks: SpamChecks)
  {
    pages == Pages(fetch, requests)
    && (0 < |requests| ==> requests[0] == stream.lastActivityTimestamp)
    && CursorChain(requests, pages)
    && (forall k :: 0 <= k < |requests| - 1 ==> fetch(k, requests[k]).Some? && Continued(pages, k, tinyHiddenAt, checks))
  }

  /** One more round keeps `Rounds` when the previous round said "continue"
      and the new request uses the cursor the loop computes. */
  lemma RoundsSnoc(
    fetch: (nat, Option<int>) -> Option<seq<Activity>>,
    stream: StreamState,
    requests: seq<Option<int>>,
    pages: seq<seq<Activity>>,
    t: Option<int>,
    tinyHiddenAt: nat -> bool,
    checks: SpamChecks)
    requires Rounds(fetch, stream, requests, pages, tinyHiddenAt, checks)
    requires |requests| == 0 ==> t == stream.lastActivityTimestamp
    requires 0 < |requests| ==>
               fetch(|requests| - 1, requests[|requests| - 1]).Some?
               && Continued(pages, |requests| - 1, tinyHiddenAt, checks)
               && t == Some(LastTimestamp(pages[|requests| - 1]))
    ensures Rounds(fetch, stream, requests + [t], pages + [fetch(|requests|, t).GetOr([])], tinyHiddenAt, checks)
  {
    var p := fetch(|requests|, t).GetOr([]);
    PagesSnoc(fetch, requests, t);
    ContinuedSnoc(pages, p, tinyHiddenAt, checks);
    CursorChainSnoc(requests, pages, t, p);
    forall k | 0 <= k < |requests| ensures (requests + [t])[k] == requests[k] { }
  }

  /** The contract of one run of `fetchPastActivities`, stated over the log
      of requested cursors and the answers `fetch` gave to them. */
  ghost predicate FetchRunSpec(
    accountId: string,
    slug: Option<string>,
    stream: StreamState,
    fetch: (nat, Option<int>) -> Option<seq<Activity>>,
    tinyHiddenAt: nat -> bool,
    checks: SpamChecks,
    compareActivities: (Activity, Activity) -> bool,
    requests: seq<Option<int>>,
    commit: Option<PastActivitiesCommit>)
  {
    var pages := Pages(fetch, requests);
    var last := |requests| - 1;
    // end of history already reached: nothing is fetched, nothing committed
    (stream.isHistoryEndReached ==> requests == [] && commit == None)
    // otherwise at least one and at most a batch of requests
    && (!stream.isHistoryEndReached ==> 0 < |requests| <= PastActivityBatch)
    // the cursor: the stored timestamp first, then the last item of the previous page
    && (0 < |requests| ==> requests[0] == stream.lastActivityTimestamp)
    && CursorChain(requests, pages)
    // every round before the last was answered and the stopping rule said "continue"
    && (forall k :: 0 <= k < last ==> fetch(k, requests[k]).Some? && Continued(pages, k, tinyHiddenAt, checks))
    // nothing is committed exactly when the end was already reached or the last fetch failed
    && (commit.None? <==> stream.isHistoryEndReached || (0 <= last && fetch(last, requests[last]).None?))
    // the commit: every fetched item, hidden ones included, sorted; the end
    // flag says the last page was empty, otherwise the stopping rule fired
    && (commit.Some? ==>
          var c := commit.value;
          c.accountId == accountId && c.slug == slug
          && 0 <= last
          && multiset(c.activities) == multiset(Flatten(pages))
          && SortedBy(c.activities, compareActivities)
          && TotalPreorder(compareActivities)
          && c.activities == SortBy(Flatten(pages), compareActivities)
          && (c.isEndReached <==> pages[last] == [])
          && (!c.isEndReached ==> Stopped(pages, tinyHiddenAt, checks)))
  }

  /** The invariant of the `while (shouldFetchMore)` loop: the rounds so far,
      the buffer holding all their items, the bounds that give termination,
      and the cursor and flag the last round computed. */
  ghost predicate LoopState(
    fetch: (nat, Option<int>) -> Option<seq<Activity>>,
    stream: StreamState,
    tinyHiddenAt: nat -> bool,
    checks: SpamChecks,
    requests: seq<Option<int>>,
    pages: seq<seq<Activity>>,
    fetched: seq<Activity>,
    toTimestamp: Option<int>,
    shouldFetchMore: bool)
  {
    !stream.isHistoryEndReached
    && Rounds(fetch, stream, requests, pages, tinyHiddenAt, checks)
    && fetched == Flatten(pages)
    && |requests| <= |fetched|
    && (shouldFetchMore ==> |fetched| < PastActivityBatch)
    && |requests| <= PastActivityBatch
    && (|requests| == 0 ==> shouldFetchMore && toTimestamp == stream.lastActivityTimestamp)
    && (0 < |requests| ==>
          var last := |requests| - 1;
          fetch(last, requests[last]).Some? && |pages[last]| > 0
          && toTimestamp == Some(LastTimestamp(pages[last]))
          && (shouldFetchMore <==> Continued(pages, last, tinyHiddenAt, checks)))
  }

  /** A round that fetched a non-empty page keeps the loop invariant. */
  lemma LoopStep(
    fetch: (nat, Option<int>) -> Option<seq<Activity>>, stream: StreamState,
    tinyHiddenAt: nat -> bool, checks: SpamChecks,
    requests: seq<Option<int>>, pages: seq<seq<Activity>>, fetched: seq<Activity>,
    toTimestamp: Option<int>, page: seq<Activity>)
    requires LoopState(fetch, stream, tinyHiddenAt, checks, requests, pages, fetched, toTimestamp, true)
    requires fetch(|requests|, toTimestamp) == Some(page) && |page| > 0
    ensures LoopState(fetch, stream, tinyHiddenAt, checks, requests + [toTimestamp], pages + [page],
                      fetched + page, Some(LastTimestamp(page)),
                      |Visible(page, tinyHiddenAt(|requests|), checks)| < PastActivityBatch
                      && |fetched + page| < PastActivityBatch)
  {
    RoundsSnoc(fetch, stream, requests, pages, toTimestamp, tinyHiddenAt, checks);
    FlattenSnoc(pages, page);
    ContinuedLast(pages + [page], tinyHiddenAt, checks);
  }

  /** The run ends because the request just made got no answer. */
  lemma AbortedRun(
    accountId: string, slug: Option<string>, stream: StreamState,
    fetch: (nat, Option<int>) -> Option<seq<Activity>>, tinyHiddenAt: nat -> bool,
    checks: SpamChecks, compareActivities: (Activity, Activity) -> bool,
    requests: seq<Option<int>>, pages: seq<seq<Activity>>, fetched: seq<Activity>, toTimestamp: Option<int>)
    requires LoopState(fetch, stream, tinyHiddenAt, checks, requests, pages, fetched, toTimestamp, true)
    requires fetch(|requests|, toTimestamp).None?
    ensures FetchRunSpec(accountId, slug, stream, fetch, tinyHiddenAt, checks, compareActivities,
                         requests + [toTimestamp], None)
  {
    RoundsSnoc(fetch, stream, requests, pages, toTimestamp, tinyHiddenAt, checks);
  }

  /** The run ends because the request just made got an empty page. */
  lemma EndReachedRun(
    accountId: string, slug: Option<string>, stream: StreamState,
    fetch: (nat, Option<int>) -> Option<seq<Activity>>, tinyHiddenAt: nat -> bool,
    checks: SpamChecks, compareActivities: (Activity, Activity) -> bool,
    requests: seq<Option<int>>, pages: seq<seq<Activity>>, fetched: seq<Activity>, toTimestamp: Option<int>)
    requires TotalPreorder(compareActivities)
    requires LoopState(fetch, stream, tinyHiddenAt, checks, requests, pages, fetched, toTimestamp, true)
    requires fetch(|requests|, toTimestamp) == Some([])
    ensures FetchRunSpec(accountId, slug, stream, fetch, tinyHiddenAt, checks, compareActivities,
                         requests + [toTimestamp],
                         Some(PastActivitiesCommit(accountId, slug, SortBy(fetched, compareActivities), true)))
  {
    RoundsSnoc(fetch, stream, requests, pages, toTimestamp, tinyHiddenAt, checks);
    FlattenSnoc(pages, []);
    assert Pages(fetch, requests + [toTimestamp]) == pages + [[]];
    assert Flatten(pages + [[]]) == fetched;
  }

  /** The run ends because the stopping rule fired after a non-empty page. */
  lemma StoppedRun(
    accountId: string, slug: Option<string>, stream: StreamState,
    fetch: (nat, Option<int>) -> Option<seq<Activity>>, tinyHiddenAt: nat -> bool,
    checks: SpamChecks, compareActivities: (Activity, Activity) -> bool,
    requests: seq<Option<int>>, pages: seq<seq<Activity>>, fetched: seq<Activity>, toTimestamp: Option<int>)
    requires TotalPreorder(compareActivities)
    requires LoopState(fetch, stream, tinyHiddenAt, checks, requests, pages, fetched, toTimestamp, false)
    ensures FetchRunSpec(accountId, slug, stream, fetch, tinyHiddenAt, checks, compareActivities, requests,
                         Some(PastActivitiesCommit(accountId, slug, SortBy(fetched, compareActivities), false)))
  {
    ContinuedLast(pages, tinyHiddenAt, checks);
  }

  /** One run of `fetchPastActivities` for the stream `slug` of `accountId`.
      `fetch(k, cursor)` is the API's answer to the k-th request of the run
      (None stands for `undefined`); `tinyHiddenAt(k)` is the setting read
      after the k-th answer. `requests` logs the cursor of every request;
      `commit` is what the run hands to `addPastActivities`, if anything. */
  method FetchPastActivities(
    accountId: string,
    slug: Option<string>,
    stream: StreamState,
    fetch: (nat, Option<int>) -> Option<seq<Activity>>,
    tinyHiddenAt: nat -> bool,
    checks: SpamChecks,
    compareActivities: (Activity, Activity) -> bool)
    returns (requests: seq<Option<int>>, commit: Option<PastActivitiesCommit>)
    requires TotalPreorder(compareActivities)
    ensures FetchRunSpec(accountId, slug, stream, fetch, tinyHiddenAt, checks, compareActivities, requests, commit)
  {
    requests := [];
    commit := None;
    if stream.isHistoryEndReached {
      return;
    }

    var fetched: seq<Activity> := [];
    var toTimestamp := stream.lastActivityTimestamp;
    var shouldFetchMore := true;
    var isEndReached := false;
    ghost var pages: seq<seq<Activity>> := [];

    while shouldFetchMore
      invariant LoopState(fetch, stream, tinyHiddenAt, checks, requests, pages, fetched, toTimestamp, shouldFetchMore)
      invariant !isEndReached
      decreases if shouldFetchMore then PastActivityBatch + 1 - |fetched| else 0
    {
      var k := |requests|;
      var result := fetch(k, toTimestamp);
      if result.None? {
        AbortedRun(accountId, slug, stream, fetch, tinyHiddenAt, checks, compareActivities,
                   requests, pages, fetched, toTimestamp);
        requests := requests + [toTimestamp];
        return;
      }

      var page := result.value;
      if |page| == 0 {
        EndReachedRun(accountId, slug, stream, fetch, tinyHiddenAt, checks, compareActivities,
                      requests, pages, fetched, toTimestamp);
        requests := requests + [toTimestamp];
        isEndReached := true;
        break;
      }

      var visibleCount := |Visible(page, tinyHiddenAt(k), checks)|;
      LoopStep(fetch, stream, tinyHiddenAt, checks, requests, pages, fetched, toTimestamp, page);
      requests := requests + [toTimestamp];
      pages := pages + [page];
      fetched := fetched + page;
      shouldFetchMore := visibleCount < PastActivityBatch && |fetched| < PastActivityBatch;
      toTimestamp := Some(LastTimestamp(page));
    }

    if !isEndReached {
      StoppedRun(accountId, slug, stream, fetch, tinyHiddenAt, checks, compareActivities,
                 requests, pages, fetched, toTimestamp);
    }
    commit := Some(PastActivitiesCommit(accountId, slug, SortBy(fetched, compareActivities), isEndReached));
  }

  lemma PagesPrefix(fetch: (nat, Option<int>) -> Option<seq<Activity>>, r1: seq<Option<int>>, r2: seq<Option<int>>)
    requires |r1| <= |r2| && r1 == r2[..|r1|]
    ensures Pages(fetch, r1) == Pages(fetch, r2)[..|r1|]
  {
    var p1, p2 := Pages(fetch, r1), Pages(fetch, r2)[..|r1|];
    forall k | 0 <= k < |r1| ensures p1[k] == p2[k] {
      assert r1[k] == r2[k];
    }
  }

  /** A round after which the stopping rule said "continue" is not one
      after which it said "stop". */
  lemma ContinuedIsNotStopped(pages: seq<seq<Activity>>, j: nat, tinyHiddenAt: nat -> bool, checks: SpamChecks)
    requires j < |pages| && Continued(pages, j, tinyHiddenAt, checks)
    ensures pages[..j + 1][j] != [] && !Stopped(pages[..j + 1], tinyHiddenAt, checks)
  {
  }

  /** The contract pins a run down: two logs that both meet `FetchRunSpec`
      for the same inputs are the same requests with the same commit. */
  lemma {:induction false} FetchRunDeterministic(
    accountId: string, slug: Option<string>, stream: StreamState,
    fetch: (nat, Option<int>) -> Option<seq<Activity>>, tinyHiddenAt: nat -> bool,
    checks: SpamChecks, compareActivities: (Activity, Activity) -> bool,
    r1: seq<Option<int>>, c1: Option<PastActivitiesCommit>,
    r2: seq<Option<int>>, c2: Option<PastActivitiesCommit>)
    requires FetchRunSpec(accountId, slug, stream, fetch, tinyHiddenAt, checks, compareActivities, r1, c1)
    requires FetchRunSpec(accountId, slug, stream, fetch, tinyHiddenAt, checks, compareActivities, r2, c2)
    ensures r1 == r2
    ensures c1 == c2
  {
    if stream.isHistoryEndReached {
      return;
    }
    SameRequestsUpTo(stream, fetch, r1, r2);
    RunEnd(accountId, slug, stream, fetch, tinyHiddenAt, checks, compareActivities, r1, c1);
    RunEnd(accountId, slug, stream, fetch, tinyHiddenAt, checks, compareActivities, r2, c2);
    NotLonger(fetch, tinyHiddenAt, checks, r1, r2);
    NotLonger(fetch, tinyHiddenAt, checks, r2, r1);
    assert r1 == r2;
  }

  /** A run that ends (its last request failed, got an empty page or got a
      page on which the stopping rule fired) is no shorter than another run
      that continued at each of its earlier rounds and agrees with it on
      their common requests. */
  lemma NotLonger(
    fetch: (nat, Option<int>) -> Option<seq<Activity>>, tinyHiddenAt: nat -> bool, checks: SpamChecks,
    r1: seq<Option<int>>, r2: seq<Option<int>>)
    requires 0 < |r1|
    requires fetch(|r1| - 1, r1[|r1| - 1]).None? || Pages(fetch, r1)[|r1| - 1] == []
             || Stopped(Pages(fetch, r1), tinyHiddenAt, checks)
    requires forall k :: 0 <= k < |r2| - 1 ==> fetch(k, r2[k]).Some? && Continued(Pages(fetch, r2), k, tinyHiddenAt, checks)
    requires forall j :: 0 <= j < |r1| && j < |r2| ==> r1[j] == r2[j]
    ensures |r2| <= |r1|
  {
    if |r1| < |r2| {
      var l := |r1| - 1;
      assert r1 == r2[..|r1|];
      ContinuedIsNotStopped(Pages(fetch, r2), l, tinyHiddenAt, checks);
      PagesPrefix(fetch, r1, r2);
      assert false;
    }
  }

  /** How a run that meets the contract ends: its last request failed, got
      an empty page, or got a page on which the stopping rule fired. */
  lemma RunEnd(
    accountId: string, slug: Option<string>, stream: StreamState,
    fetch: (nat, Option<int>) -> Option<seq<Activity>>, tinyHiddenAt: nat -> bool,
    checks: SpamChecks, compareActivities: (Activity, Activity) -> bool,
    r: seq<Option<int>>, c: Option<PastActivitiesCommit>)
    requires !stream.isHistoryEndReached
    requires FetchRunSpec(accountId, slug, stream, fetch, tinyHiddenAt, checks, compareActivities, r, c)
    ensures 0 < |r|
    ensures var pages := Pages(fetch, r);
            fetch(|r| - 1, r[|r| - 1]).None? || pages[|r| - 1] == [] || Stopped(pages, tinyHiddenAt, checks)
  {
  }

  /** Two cursor logs that start from the same stored timestamp agree on
      every position both have. */
  lemma SameRequestsUpTo(
    stream: StreamState, fetch: (nat, Option<int>) -> Option<seq<Activity>>,
    r1: seq<Option<int>>, r2: seq<Option<int>>)
    requires 0 < |r1| && 0 < |r2|
    requires r1[0] == stream.lastActivityTimestamp && r2[0] == stream.lastActivityTimestamp
    requires CursorChain(r1, Pages(fetch, r1)) && CursorChain(r2, Pages(fetch, r2))
    ensures forall j :: 0 <= j < |r1| && j < |r2| ==> r1[j] == r2[j]
  {
    var p1, p2 := Pages(fetch, r1), Pages(fetch, r2);
    var j := 0;
    while j + 1 < |r1| && j + 1 < |r2|
      invariant 0 <= j < |r1| && j < |r2|
      invariant forall i :: 0 <= i <= j ==> r1[i] == r2[i]
    {
      assert p1[j] == fetch(j, r1[j]).GetOr([]) == p2[j];
      assert r1[j + 1] == Some(LastTimestamp(p1[j]));
      assert r2[j + 1] == Some(LastTimestamp(p2[j]));
      j := j + 1;
    }
  }
}
