/** driver/paging.go: item-based tokens served from a page-based API. */
module Paging {
  import opened Wrappers

  // ---- The paged API -------------------------------------------------------

  /** The inventory index at which a page starts; pages count from 1. */
  function PageStart(page: int, p: nat): nat {
    if page <= 1 then 0 else PageStart(page - 1, p) + p
  }

  lemma {:induction false} PageStartIsProduct(page: int, p: nat)
    requires 1 <= page
    ensures PageStart(page, p) == (page - 1) * p
  {
    if 1 < page {
      PageStartIsProduct(page - 1, p);
    }
  }

  /** The pagination links of a reply, reduced to the page numbers they carry. */
  datatype Links = Links(prev: Option<int>, next: Option<int>) {
    predicate IsLastPage() {
      next.None?
    }

    function CurrentPage(): int {
      if prev.Some? then prev.value + 1 else if next.Some? then 1 else 0
    }
  }

  datatype Reply<+T> = Failed | Page(items: seq<T>, links: Option<Links>)

  /** A fixed inventory behind an API that cuts it into pages. A page holds at
      most `cap` items, `default` of them when the request names no page size;
      the requests for the page numbers in `failing` do not succeed. */
  datatype Server<T> = Server(items: seq<T>, cap: nat, default: nat, failing: set<int>) {

    predicate Valid() {
      1 <= default <= cap < TWO_31
    }

    function PageSize(perPage: int): (p: nat)
      requires Valid()
      ensures 1 <= p <= cap
    {
      if perPage <= 0 then default else Min(perPage, cap)
    }

    predicate Fails(page: int) {
      page < 0 || page in failing
    }

    /** Page 0 is page 1, because the client leaves a zero out of the query. */
    function Serve(page: int, perPage: int): Reply<T>
      requires Valid()
    {
      if Fails(page) then Failed else
      var q := Max(page, 1);
      var start := PageStart(q, PageSize(perPage));
      var end := start + PageSize(perPage);
      var prev := if q > 1 then Some(q - 1) else None;
      if |items| <= start then Page([], Some(Links(prev, None)))
      else if |items| <= end then Page(items[start..], if q == 1 then None else Some(Links(prev, None)))
      else Page(items[start..end], Some(Links(prev, Some(q + 1))))
    }
  }

  // ---- What a call means ---------------------------------------------------

  /** Go's integer division and remainder, which truncate toward zero. */
  function TruncDiv(a: int, b: int): int
    requires 0 < b
  {
    if 0 <= a then a / b else -((-a) / b)
  }

  function TruncMod(a: int, b: int): int
    requires 0 < b
  {
    if 0 <= a then a % b else -((-a) % b)
  }

  function FirstPage(token: int, maxEntries: int): int {
    if 0 < maxEntries then TruncDiv(token, maxEntries) + 1 else 1
  }

  lemma TruncModBound(a: int, b: int)
    requires 0 < b
    ensures -b < TruncMod(a, b) < b
  {
  }

  /** How many items of the first page lie before the token. */
  function Skip(token: int, maxEntries: int): nat {
    Max((if 0 < maxEntries then TruncMod(token, maxEntries) else token) - 1, 0)
  }

  /** The index `skip` items into a page, where items past its end do not count. */
  function PageOffset(n: nat, p: nat, page: int, skip: nat): (b: nat)
    ensures b <= n
  {
    Min(n, PageStart(page, p) + Min(skip, p))
  }

  /** The items from index b on, at most maxEntries of them if that is positive. */
  function Slice<T>(items: seq<T>, b: nat, maxEntries: int): seq<T>
    requires b <= |items|
  {
    items[b..SliceEnd(|items|, b, maxEntries)]
  }

  function SliceEnd(n: nat, b: nat, maxEntries: int): (e: nat)
    requires b <= n
    ensures b <= e <= n
  {
    if 0 < maxEntries then Min(b + maxEntries, n) else n
  }

  /** The page asked for after i others. */
  function PageAt(firstPage: int, i: nat): int {
    if i == 0 then firstPage else Max(firstPage, 1) + i
  }

  /** The inventory index at which a call starts, when the API serves pages of
      p items. */
  function Offset(n: nat, p: nat, token: int, maxEntries: int): (b: nat)
    ensures b <= n
  {
    PageOffset(n, p, FirstPage(token, maxEntries), Skip(token, maxEntries))
  }

  /** How many pages it takes to come to the index `last`, when the page in hand ends
      at the index `end`. */
  function PagesTo(end: nat, last: nat, p: nat): (k: nat)
    requires 0 < p
    ensures 1 <= k
    decreases if last <= end then 0 else last - end
  {
    if last <= end then 1 else 1 + PagesTo(end + p, last, p)
  }

  /** The pages a call needs, from `firstPage` on, for the items after the first
      `skip` of that page. */
  function PagesNeeded(n: nat, p: nat, firstPage: int, skip: nat, maxEntries: int): (k: nat)
    requires 0 < p
    ensures 1 <= k
  {
    PagesTo(PageStart(firstPage, p) + p, SliceEnd(n, PageOffset(n, p, firstPage, skip), maxEntries), p)
  }

  /** The pages needed for a token, and whether the API fails on one of them. */
  function PagesFor(n: nat, p: nat, token: int, maxEntries: int): (k: nat)
    requires 0 < p
    ensures 1 <= k
  {
    PagesNeeded(n, p, FirstPage(token, maxEntries), Skip(token, maxEntries), maxEntries)
  }

  ghost predicate FailsWithin<T>(server: Server<T>, firstPage: int, k: nat) {
    exists i :: 0 <= i < k && server.Fails(PageAt(firstPage, i))
  }

  ghost predicate ListingFails<T>(server: Server<T>, token: int, maxEntries: int)
    requires server.Valid()
  {
    FailsWithin(server, FirstPage(token, maxEntries),
                PagesFor(|server.items|, server.PageSize(maxEntries), token, maxEntries))
  }

  predicate HasMore(n: nat, p: nat, token: int, maxEntries: int) {
    0 < maxEntries && Offset(n, p, token, maxEntries) + maxEntries < n
  }

  function Window<T>(items: seq<T>, p: nat, token: int, maxEntries: int): seq<T> {
    Slice(items, Offset(|items|, p, token, maxEntries), maxEntries)
  }

  function NextToken(n: nat, p: nat, token: int32, maxEntries: int32): int32 {
    if !HasMore(n, p, token, maxEntries) then 0
    else Wrap32(Wrap32(token + maxEntries) + (if token == 0 then 1 else 0))
  }

  datatype Listing<+T> = Listing(entries: seq<T>, next: int32)

  function ListingOf<T>(items: seq<T>, p: nat, token: int32, maxEntries: int32): Listing<T> {
    Listing(Window(items, p, token, maxEntries), NextToken(|items|, p, token, maxEntries))
  }

  // ---- The translator ------------------------------------------------------

  /** One API call: the page asked for, as a slice of the inventory. */
  method Fetch<T>(server: Server<T>, page: int, perPage: int) returns (reply: Reply<T>, ghost lo: nat, ghost hi: nat)
    requires server.Valid()
    ensures reply.Failed? <==> server.Fails(page)
    ensures lo == Min(PageStart(page, server.PageSize(perPage)), |server.items|)
    ensures hi == PageStop(|server.items|, PageStart(page, server.PageSize(perPage)) + server.PageSize(perPage))
    ensures lo <= hi <= |server.items|
    ensures reply.Page? ==>
              var end := PageStart(page, server.PageSize(perPage)) + server.PageSize(perPage);
              && reply.items == server.items[lo..hi]
              && ((reply.links.None? || reply.links.value.IsLastPage()) <==> |server.items| <= end)
              && (end < |server.items| ==> reply.links.value.CurrentPage() == Max(page, 1))
  {
    reply := server.Serve(page, perPage);
    lo := Min(PageStart(page, server.PageSize(perPage)), |server.items|);
    hi := PageStop(|server.items|, PageStart(page, server.PageSize(perPage)) + server.PageSize(perPage));
  }

  function PageStop(n: nat, end: nat): nat {
    if n <= end then n else end
  }

  lemma JoinSlices<T>(items: seq<T>, b: nat, from: nat, left: seq<T>, right: seq<T>)
    requires b <= from && from + |right| <= |items|
    requires left == items[b..from] && right == items[from..from + |right|]
    ensures left + right == items[b..from + |right|]
  {
  }

  function Skipped(skipToken: int, len: nat): (skip: nat)
    ensures skip <= len
  {
    if skipToken <= 1 then 0 else if skipToken > len then len else skipToken - 1
  }

  lemma SubSlice<T>(items: seq<T>, lo: nat, hi: nat, page: seq<T>, skip: nat, part: seq<T>)
    requires lo <= hi <= |items| && page == items[lo..hi]
    requires skip + |part| <= |page| && part == page[skip..skip + |part|]
    ensures part == items[lo + skip..lo + skip + |part|]
  {
    assert forall x :: 0 <= x < |part| ==> part[x] == page[skip + x] == items[lo + skip..lo + skip + |part|][x];
  }

  lemma SkipWithinPage(n: nat, p: nat, page: int, token: int, lo: nat, hi: nat)
    requires lo == Min(PageStart(page, p), n) && hi == PageStop(n, PageStart(page, p) + p)
    ensures lo <= hi
    ensures PageOffset(n, p, page, Max(token - 1, 0)) == lo + Skipped(token, hi - lo)
  {
  }

  /** What is taken off a page is a slice of the inventory from the offset of the token on. */
  lemma OffPage<T>(items: seq<T>, p: nat, page: int, token: int, lo: nat, hi: nat, served: seq<T>, part: seq<T>)
    requires lo == Min(PageStart(page, p), |items|) && hi == PageStop(|items|, PageStart(page, p) + p)
    requires lo <= hi && served == items[lo..hi]
    requires var skip := Skipped(token, |served|); skip + |part| <= |served| && part == served[skip..skip + |part|]
    ensures var from := PageOffset(|items|, p, page, Max(token - 1, 0));
            && from == lo + Skipped(token, |served|) && from + |part| <= hi
            && part == items[from..from + |part|]
  {
    SkipWithinPage(|items|, p, page, token, lo, hi);
    SubSlice(items, lo, hi, served, Skipped(token, |served|), part);
  }

  /** Drops what lies before the token, then what exceeds the room left. */
  method Trim<T>(page: seq<T>, skipToken: int, remaining: int, maxEntries: int)
    returns (res: seq<T>, cut: bool)
    requires 0 < maxEntries ==> 0 <= remaining
    ensures var skip := Skipped(skipToken, |page|);
            && skip + |res| <= |page|
            && res == page[skip..skip + |res|]
            && (if cut then 0 < maxEntries && |res| == remaining && skip + |res| < |page|
                else skip + |res| == |page| && (0 < maxEntries ==> |res| <= remaining))
  {
    var token := skipToken;
    res, cut := page, false;
    if 0 < token {
      if token > |res| {
        token := |res|;
      } else {
        token := token - 1;
      }
      res := res[token..];
    }
    if 0 < maxEntries && remaining < |res| {
      res := res[..remaining];
      cut := true;
    }
  }

  /** One turn of the page loop: the items of one page that the caller wants,
      where `from` is the inventory index the caller has come to and `end` that
      of the next page. */
  method TakePage<T>(server: Server<T>, page: int, token: int, remaining: int, maxEntries: int32,
                     ghost from: nat, ghost end: nat)
    returns (failed: bool, res: seq<T>, cut: bool, links: Option<Links>)
    requires server.Valid()
    requires 0 < maxEntries ==> 0 < remaining
    requires end == PageStart(page, server.PageSize(maxEntries)) + server.PageSize(maxEntries)
    requires from == PageOffset(|server.items|, server.PageSize(maxEntries), page, Max(token - 1, 0))
    ensures failed <==> server.Fails(page)
    ensures !failed ==>
              var stop := PageStop(|server.items|, end);
              && from + |res| <= stop
              && res == server.items[from..from + |res|]
              && (if cut then 0 < maxEntries && |res| == remaining && from + |res| < stop
                  else from + |res| == stop && (0 < maxEntries ==> |res| <= remaining))
              && ((links.None? || links.value.IsLastPage()) <==> |server.items| <= end)
              && (end < |server.items| ==>
                    && links.value.CurrentPage() == Max(page, 1)
                    && PageStart(links.value.CurrentPage() + 1, server.PageSize(maxEntries)) == end)
  {
    failed, res, cut, links := true, [], false, None;
    var reply, lo, hi := Fetch(server, page, maxEntries);
    if reply.Page? {
      res, cut := Trim(reply.items, token, remaining, maxEntries);
      OffPage(server.items, server.PageSize(maxEntries), page, token, lo, hi, reply.items, res);
      failed, links := false, reply.links;
    }
  }

  /** One turn of the page loop, with what it decides: whether to stop, and
      which page is next if not. */
  method Turn<T>(server: Server<T>, page: int, token: int, remaining: int, maxEntries: int32,
                 ghost from: nat, ghost end: nat)
    returns (failed: bool, res: seq<T>, hasMore: bool, done: bool, nextPage: int)
    requires server.Valid()
    requires 0 < maxEntries ==> 0 < remaining
    requires end == PageStart(page, server.PageSize(maxEntries)) + server.PageSize(maxEntries)
    requires from == PageOffset(|server.items|, server.PageSize(maxEntries), page, Max(token - 1, 0))
    ensures failed <==> server.Fails(page)
    ensures !failed ==>
              && from + |res| <= |server.items| && from + |res| <= end
              && res == server.items[from..from + |res|]
    ensures !failed && done ==>
              && from + |res| == SliceEnd(|server.items|, from, if 0 < maxEntries then remaining else 0)
              && (hasMore <==> 0 < maxEntries && from + remaining < |server.items|)
    ensures !failed && !done ==>
              && from + |res| == end < |server.items|
              && (0 < maxEntries ==> |res| < remaining)
              && nextPage == Max(page, 1) + 1
              && PageStart(nextPage, server.PageSize(maxEntries)) == end
  {
    var cut, links;
    failed, res, cut, links := TakePage(server, page, token, remaining, maxEntries, from, end);
    var isLastPage := links.None? || links.value.IsLastPage();
    hasMore := cut || !isLastPage;
    // Stop when all of maxEntries are used up, or no page is left.
    done := (0 < maxEntries && remaining - |res| == 0) || isLastPage;
    nextPage := if done then page else links.value.CurrentPage() + 1;
  }

  /** Without a page size cap in the way, two pages always suffice. */
  lemma TwoPagesSuffice(n: nat, firstPage: int, skip: nat, maxEntries: nat)
    requires skip < maxEntries
    ensures PagesNeeded(n, maxEntries, firstPage, skip, maxEntries) <= 2
  {
    var end := PageStart(firstPage, maxEntries) + maxEntries;
    var last := SliceEnd(n, PageOffset(n, maxEntries, firstPage, skip), maxEntries);
    assert last <= end + maxEntries;
    assert PagesTo(end + maxEntries, last, maxEntries) == 1;
  }

  lemma FirstFailure<T>(server: Server<T>, firstPage: int, calls: nat, needed: nat)
    requires 0 < calls <= needed
    requires forall i :: 0 <= i < calls - 1 ==> !server.Fails(PageAt(firstPage, i))
    requires !server.Fails(PageAt(firstPage, calls - 1)) ==> calls == needed
    ensures server.Fails(PageAt(firstPage, calls - 1)) <==> FailsWithin(server, firstPage, needed)
  {
  }

  /** What the page loop of `listResources` is to do: start at `firstPage`, pass over the
      items before `skipToken`, and return at most `maxEntries` items. */
  datatype Task<T> = Task(server: Server<T>, firstPage: int, skipToken: int, maxEntries: int32) {
    function N(): nat {
      |server.items|
    }

    function P(): nat
      requires server.Valid()
    {
      server.PageSize(maxEntries)
    }

    /** The number of the first item wanted. */
    function Begin(): nat
      requires server.Valid()
    {
      PageOffset(N(), P(), firstPage, Max(skipToken - 1, 0))
    }

    /** The number of the first item not wanted. */
    function End(): nat
      requires server.Valid()
    {
      SliceEnd(N(), Begin(), maxEntries)
    }

    predicate HasMore()
      requires server.Valid()
    {
      0 < maxEntries && Begin() + maxEntries < N()
    }
  }

  /** How far the loop has come: the pages asked for, and the next one; the number of the
      next item to return, and that of the first one behind the page; and the room left. */
  datatype Place = Place(calls: nat, page: int, from: nat, end: nat, remaining: int)

  function StartPlace<T>(task: Task<T>): Place
    requires task.server.Valid()
  {
    Place(0, task.firstPage, task.Begin(), PageStart(task.firstPage, task.P()) + task.P(), task.maxEntries)
  }

  /** The loop goes on from a place. */
  ghost predicate GoesOn<T>(task: Task<T>, at: Place)
    requires task.server.Valid()
  {
    && task.Begin() <= at.from <= task.N()
    && at.remaining == task.maxEntries - (at.from - task.Begin()) && (0 < task.maxEntries ==> 0 < at.remaining)
    && at.page == PageAt(task.firstPage, at.calls) && at.end == PageStart(at.page, task.P()) + task.P()
    && if at.calls == 0 then at.from == task.Begin() else at.from == PageStart(at.page, task.P()) < task.N()
  }

  /** The place after a page of which `taken` items were wanted. */
  function NextPlace<T>(task: Task<T>, at: Place, nextPage: int, taken: nat): Place
    requires task.server.Valid()
  {
    Place(at.calls + 1, nextPage, at.from + taken, at.end + task.P(), at.remaining - taken)
  }

  lemma GoesOnFrom<T>(task: Task<T>, at: Place, nextPage: int, taken: nat)
    requires task.server.Valid() && GoesOn(task, at)
    requires at.from + taken == at.end < task.N() && (0 < task.maxEntries ==> taken < at.remaining)
    requires nextPage == Max(at.page, 1) + 1 && PageStart(nextPage, task.P()) == at.end
    ensures GoesOn(task, NextPlace(task, at, nextPage, taken))
    ensures PagesTo(at.end, task.End(), task.P()) == 1 + PagesTo(at.end + task.P(), task.End(), task.P())
  {
  }

  lemma EndsAt<T>(task: Task<T>, at: Place, taken: nat)
    requires task.server.Valid() && GoesOn(task, at)
    requires at.from + taken == SliceEnd(task.N(), at.from, if 0 < task.maxEntries then at.remaining else 0) <= at.end
    ensures at.from + taken == task.End() && PagesTo(at.end, task.End(), task.P()) == 1
    ensures at.from + at.remaining == task.Begin() + task.maxEntries
  {
  }

  /** One turn of the loop, with its items joined to the ones before. */
  method Extend<T>(task: Task<T>, token: int, resources: seq<T>, page: int, remaining: int, ghost at: Place)
    returns (failed: bool, more: seq<T>, taken: nat, hasMore: bool, done: bool, nextPage: int)
    requires task.server.Valid() && GoesOn(task, at)
    requires page == at.page && remaining == at.remaining
    requires token == (if at.calls == 0 then task.skipToken else 0)
    requires resources == task.server.items[task.Begin()..at.from]
    ensures failed <==> task.server.Fails(page)
    ensures !failed ==>
              && at.from + taken <= task.N() && at.from + taken <= at.end
              && more == task.server.items[task.Begin()..at.from + taken]
    ensures !failed && done ==>
              && at.from + taken == SliceEnd(task.N(), at.from, if 0 < task.maxEntries then remaining else 0)
              && (hasMore <==> 0 < task.maxEntries && at.from + remaining < task.N())
    ensures !failed && !done ==>
              && at.from + taken == at.end < task.N()
              && (0 < task.maxEntries ==> taken < remaining)
              && nextPage == Max(page, 1) + 1 && PageStart(nextPage, task.P()) == at.end
  {
    var res;
    failed, res, hasMore, done, nextPage :=
      Turn(task.server, page, token, remaining, task.maxEntries, at.from, at.end);
    more, taken := resources + res, |res|;
    if !failed {
      JoinSlices(task.server.items, task.Begin(), at.from, resources, res);
    }
  }

  /** From one place where the loop goes on to the next, or to its end. */
  method Step<T>(task: Task<T>, token: int, resources: seq<T>, page: int, remaining: int, ghost at: Place)
    returns (failed: bool, more: seq<T>, taken: nat, hasMore: bool, done: bool, nextPage: int)
    requires task.server.Valid() && GoesOn(task, at)
    requires page == at.page && remaining == at.remaining
    requires token == (if at.calls == 0 then task.skipToken else 0)
    requires resources == task.server.items[task.Begin()..at.from]
    ensures failed <==> task.server.Fails(page)
    ensures !failed ==>
              && at.from + taken <= task.N()
              && more == task.server.items[task.Begin()..at.from + taken]
    ensures !failed && done ==>
              && at.from + taken == task.End() && PagesTo(at.end, task.End(), task.P()) == 1
              && (hasMore <==> task.HasMore())
    ensures !failed && !done ==>
              && GoesOn(task, NextPlace(task, at, nextPage, taken)) && at.end < task.N()
              && PagesTo(at.end, task.End(), task.P()) == 1 + PagesTo(at.end + task.P(), task.End(), task.P())
  {
    failed, more, taken, hasMore, done, nextPage := Extend(task, token, resources, page, remaining, at);
    if !failed {
      if done {
        EndsAt(task, at, taken);
      } else {
        GoesOnFrom(task, at, nextPage, taken);
      }
    }
  }

  /** The pages the whole loop needs. */
  function PagesOf<T>(task: Task<T>): nat
    requires task.server.Valid()
  {
    PagesTo(PageStart(task.firstPage, task.P()) + task.P(), task.End(), task.P())
  }

  /** The loop after `calls` pages, come to a place or to its end. */
  ghost predicate Looping<T>(task: Task<T>, at: Place, calls: nat, token: int, resources: seq<T>, hasMore: bool,
                             done: bool)
    requires task.server.Valid()
  {
    && task.Begin() <= at.from <= task.N() && resources == task.server.items[task.Begin()..at.from]
    && token == (if calls == 0 then task.skipToken else 0)
    && (forall i :: 0 <= i < calls ==> !task.server.Fails(PageAt(task.firstPage, i)))
    && if done then 0 < calls == PagesOf(task) && at.from == task.End() && (hasMore <==> task.HasMore())
       else GoesOn(task, at) && at.calls == calls && PagesOf(task) == calls + PagesTo(at.end, task.End(), task.P())
  }

  /** One turn of the loop. */
  method Advance<T>(task: Task<T>, ghost calls: nat, token: int, resources: seq<T>, page: int, remaining: int,
                    ghost at: Place)
    returns (failed: bool, more: seq<T>, hasMore: bool, done: bool, nextPage: int, left: int, ghost next: Place)
    requires task.server.Valid() && Looping(task, at, calls, token, resources, false, false)
    requires page == at.page && remaining == at.remaining
    ensures failed ==> task.server.Fails(PageAt(task.firstPage, calls)) && calls < PagesOf(task)
    ensures !failed ==> Looping(task, next, calls + 1, 0, more, hasMore, done)
    ensures !failed && !done ==> nextPage == next.page && left == next.remaining
    ensures !failed && !done ==> at.end < task.N() && at.end < next.end
  {
    var taken;
    failed, more, taken, hasMore, done, nextPage := Step(task, token, resources, page, remaining, at);
    next, left := NextPlace(task, at, nextPage, taken), remaining - taken;
  }

  /** The page loop of `listResources`; `calls` counts the pages it asks for. */
  method LoopPages<T>(task: Task<T>)
    returns (failed: bool, resources: seq<T>, hasMore: bool, calls: nat)
    requires task.server.Valid()
    ensures 0 < calls
    ensures forall i :: 0 <= i < calls - 1 ==> !task.server.Fails(PageAt(task.firstPage, i))
    ensures failed <==> task.server.Fails(PageAt(task.firstPage, calls - 1))
    ensures !failed ==>
              && resources == task.server.items[task.Begin()..task.End()]
              && (hasMore <==> task.HasMore())
    ensures calls <= PagesOf(task) && (!failed ==> calls == PagesOf(task))
  {
    var token, page := task.skipToken, task.firstPage;
    var remaining: int := task.maxEntries;
    var done := false;
    failed, resources, hasMore, calls := false, [], false, 0;

    ghost var at := StartPlace(task);
    while !done
      invariant Looping(task, at, calls, token, resources, hasMore, done)
      invariant !done ==> page == at.page && remaining == at.remaining
      decreases !done, task.N() - at.end
    {
      failed, resources, hasMore, done, page, remaining, at :=
        Advance(task, calls, token, resources, page, remaining, at);
      calls := calls + 1;
      if failed {
        return;
      }
      token := 0;
    }
  }

  /** The page loop, with the items it returns and the pages it needs. */
  method CollectPages<T>(server: Server<T>, firstPage: int, skipToken: int, maxEntries: int32)
    returns (failed: bool, resources: seq<T>, hasMore: bool, calls: nat)
    requires server.Valid()
    ensures 0 < calls
    ensures forall i :: 0 <= i < calls - 1 ==> !server.Fails(PageAt(firstPage, i))
    ensures failed <==> server.Fails(PageAt(firstPage, calls - 1))
    ensures !failed ==>
              var b := PageOffset(|server.items|, server.PageSize(maxEntries), firstPage, Max(skipToken - 1, 0));
              && resources == Slice(server.items, b, maxEntries)
              && (hasMore <==> 0 < maxEntries && b + maxEntries < |server.items|)
    ensures skipToken <= maxEntries <= server.cap && 0 < maxEntries ==> calls <= 2
    // No page is asked for that is not needed.
    ensures var needed := PagesNeeded(|server.items|, server.PageSize(maxEntries), firstPage, Max(skipToken - 1, 0),
                                      maxEntries);
            && calls <= needed && (!failed ==> calls == needed)
            && (failed <==> FailsWithin(server, firstPage, needed))
  {
    ghost var n, p, skip := |server.items|, server.PageSize(maxEntries), Max(skipToken - 1, 0);
    failed, resources, hasMore, calls := LoopPages(Task(server, firstPage, skipToken, maxEntries));
    FirstFailure(server, firstPage, calls, PagesNeeded(n, p, firstPage, skip, maxEntries));
    if skipToken <= maxEntries <= server.cap && 0 < maxEntries {
      TwoPagesSuffice(n, firstPage, skip, maxEntries);
    }
  }

  /** The page a token leads to, and what is left of the token on that page. */
  method StartOf(startingToken: int32, maxEntries: int32) returns (page: int, token: int)
    ensures page == FirstPage(startingToken, maxEntries) && Max(token - 1, 0) == Skip(startingToken, maxEntries)
    ensures 0 < maxEntries ==> token < maxEntries
  {
    token, page := startingToken, 1;
    if 0 < maxEntries {
      page := TruncDiv(startingToken, maxEntries) + 1;
      token := TruncMod(startingToken, maxEntries);
      TruncModBound(startingToken, maxEntries);
    }
  }

  /** The token for what comes after a response. */
  method TokenFor(startingToken: int32, maxEntries: int32, hasMore: bool) returns (nextToken: int32)
    ensures nextToken
         == if !hasMore then 0 else Wrap32(Wrap32(startingToken + maxEntries) + (if startingToken == 0 then 1 else 0))
  {
    nextToken := 0;
    if hasMore {
      nextToken := Wrap32(startingToken + maxEntries);
      if startingToken == 0 {
        nextToken := Wrap32(nextToken + 1);
      }
    }
  }

  /** `listResources`; `calls` counts the pages it asks for. */
  method ListResources<T>(server: Server<T>, startingToken: int32, maxEntries: int32)
    returns (r: Result<Listing<T>>, calls: nat)
    requires server.Valid()
    // Pages are asked for one after the other, as many as are needed; the call fails
    // exactly if the API does on one of them, and then at once.
    ensures 0 < calls
    ensures var first := FirstPage(startingToken, maxEntries);
            && (forall i :: 0 <= i < calls - 1 ==> !server.Fails(PageAt(first, i)))
            && (r.Err? <==> server.Fails(PageAt(first, calls - 1)))
    ensures r.Err? ==> r.code == Internal
    ensures r.Err? <==> ListingFails(server, startingToken, maxEntries)
    ensures r.Ok? ==> calls == PagesFor(|server.items|, server.PageSize(maxEntries), startingToken, maxEntries)
    // A successful call is a slice of the inventory.
    ensures r.Ok? ==>
              r.value == ListingOf(server.items, server.PageSize(maxEntries), startingToken, maxEntries)
    // Without a page size cap in the way, two pages always suffice.
    ensures 1 <= maxEntries <= server.cap ==> calls <= 2
  {
    var page, token := StartOf(startingToken, maxEntries);
    var failed, resources, hasMore;
    failed, resources, hasMore, calls := CollectPages(server, page, token, maxEntries);
    if failed {
      return Err(Internal), calls;
    }

    var nextToken := TokenFor(startingToken, maxEntries, hasMore);
    r := Ok(Listing(resources, nextToken));
  }
}
