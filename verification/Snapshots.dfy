/** `CreateSnapshot` and `DeleteSnapshot` of driver/controller.go, against the
    snapshots of the API. */
module Snapshots {
  import opened Wrappers
  import opened Paging
  import opened PagingChain
  import opened Listing

  const PAGE_SIZE: int := 50

  type PageCap = x: int | 1 <= x < TWO_31 witness 1

  /** How the API answers the request to create a snapshot: it may also carry it
      out and lose the reply. */
  datatype Reply = Created | Lost | Conflicts | Refused

  /** What happens to the API calls of one creation. */
  datatype Conditions = Conditions(failingPages: set<int>, reply: Reply, dated: bool, minDisk: nat)

  /** The same of a deletion. */
  datatype Deletion = Performed | Unconfirmed | Rejected

  predicate Matches(s: Snapshot, name: string, source: Id) {
    s.name == name && s.source == source
  }

  /** The place of the first match, or the length if there is none. */
  function FirstMatch(snapshots: seq<Snapshot>, name: string, source: Id): (m: nat)
    ensures m <= |snapshots|
    ensures forall i :: 0 <= i < m ==> !Matches(snapshots[i], name, source)
    ensures m < |snapshots| ==> Matches(snapshots[m], name, source)
  {
    if snapshots == [] || Matches(snapshots[0], name, source) then 0
    else 1 + FirstMatch(snapshots[1..], name, source)
  }

  function MatchIn(snapshots: seq<Snapshot>, name: string, source: Id): Option<Snapshot> {
    var m := FirstMatch(snapshots, name, source);
    if m < |snapshots| then Some(snapshots[m]) else None
  }

  lemma FoundMatches(snapshots: seq<Snapshot>, name: string, source: Id)
    ensures var found := MatchIn(snapshots, name, source);
            && (found.None? <==> forall s :: s in snapshots ==> s.name != name || s.source != source)
            && (found.Some? ==>
                  found.value in snapshots && found.value.name == name && found.value.source == source)
  {
  }

  lemma FirstOnPage(snapshots: seq<Snapshot>, name: string, source: Id, lo: nat, hi: nat)
    requires lo <= hi <= |snapshots| && lo <= FirstMatch(snapshots, name, source)
    ensures var k := FirstMatch(snapshots[lo..hi], name, source);
            if k < hi - lo then FirstMatch(snapshots, name, source) == lo + k
            else hi <= FirstMatch(snapshots, name, source)
  {
    var page := snapshots[lo..hi];
    assert forall i :: 0 <= i < hi - lo ==> page[i] == snapshots[lo + i];
    var m := FirstMatch(snapshots, name, source);
    if m < hi {
      assert page[m - lo] == snapshots[m];
    }
  }

  /** The pages a search through the listing reads: up to the first match, or all. */
  function PagesRead(server: Server<Snapshot>, name: string, source: Id): (k: nat)
    requires server.Valid()
  {
    var p := server.PageSize(PAGE_SIZE);
    PagesTo(p, Min(FirstMatch(server.items, name, source) + 1, |server.items|), p)
  }

  // ---- The snapshots of an account -----------------------------------------

  /** `scoped` says whether the API lists the snapshots of the volume asked for
      only, or all of them; `issued` is the last identifier it has given out. */
  datatype Catalog = Catalog(snapshots: seq<Snapshot>, issued: Id, cap: PageCap, scoped: bool) {

    ghost predicate Valid() {
      && (forall s :: s in snapshots ==> NO_ID < s.id <= issued)
      && Pairwise(snapshots, (a: Snapshot, b: Snapshot) => a.id != b.id)
      && Pairwise(snapshots, (a: Snapshot, b: Snapshot) => a.name != b.name || a.source != b.source)
    }

    function Listed(source: Id): seq<Snapshot> {
      if scoped then Filter((s: Snapshot) => s.source == source, snapshots) else snapshots
    }

    function Server(source: Id, failing: set<int>): (server: Server<Snapshot>)
      ensures server.Valid()
    {
      Paging.Server(Listed(source), cap, cap, failing)
    }

    function Fresh(name: string, source: Id, k: Conditions): Snapshot {
      Snapshot(issued + 1, name, source, k.minDisk, k.dated)
    }

    function Adding(s: Snapshot): Catalog {
      this.(snapshots := snapshots + [s], issued := s.id)
    }

    function Without(id: Id): Catalog {
      this.(snapshots := Filter((s: Snapshot) => s.id != id, snapshots))
    }
  }

  ghost predicate Pairwise<T>(xs: seq<T>, r: (T, T) -> bool) {
    forall i, j :: 0 <= i < j < |xs| ==> r(xs[i], xs[j])
  }

  lemma {:induction false} FilterMembers<T>(keep: T -> bool, xs: seq<T>)
    ensures forall x :: x in Filter(keep, xs) <==> x in xs && keep(x)
  {
    if xs != [] {
      FilterMembers(keep, xs[1..]);
    }
  }

  lemma {:induction false} FilterOrigin<T>(keep: T -> bool, xs: seq<T>, j: nat) returns (k: nat)
    requires j < |Filter(keep, xs)|
    ensures k < |xs| && xs[k] == Filter(keep, xs)[j]
  {
    var kept := if keep(xs[0]) then 1 else 0;
    if j < kept {
      k := 0;
    } else {
      k := FilterOrigin(keep, xs[1..], j - kept);
      k := k + 1;
    }
  }

  lemma {:induction false} FilterPairs<T>(keep: T -> bool, xs: seq<T>, r: (T, T) -> bool)
    requires Pairwise(xs, r)
    ensures Pairwise(Filter(keep, xs), r)
  {
    if xs != [] {
      FilterPairs(keep, xs[1..], r);
      forall j | 0 <= j < |Filter(keep, xs[1..])|
        ensures r(xs[0], Filter(keep, xs[1..])[j])
      {
        var k := FilterOrigin(keep, xs[1..], j);
        assert xs[k + 1] == xs[1..][k];
      }
    }
  }

  /** In a valid catalog, the search finds the one match wherever it stands. */
  lemma OneMatch(c: Catalog, s: Snapshot)
    requires c.Valid() && s in c.snapshots
    ensures var listed := c.Listed(s.source);
            var m := FirstMatch(listed, s.name, s.source);
            m < |listed| && listed[m] == s
  {
    var listed := c.Listed(s.source);
    FilterMembers((t: Snapshot) => t.source == s.source, c.snapshots);
    FilterPairs((t: Snapshot) => t.source == s.source, c.snapshots,
                (a: Snapshot, b: Snapshot) => a.name != b.name || a.source != b.source);
    assert s in listed && Pairwise(listed, (a: Snapshot, b: Snapshot) => a.name != b.name || a.source != b.source);
    var i :| 0 <= i < |listed| && listed[i] == s;
    var m := FirstMatch(listed, s.name, s.source);
    assert !(m < i);
  }

  lemma NoMatch(c: Catalog, name: string, source: Id)
    requires c.Valid()
    ensures var listed := c.Listed(source);
            FirstMatch(listed, name, source) == |listed|
            <==> forall s :: s in c.snapshots ==> s.name != name || s.source != source
  {
    FilterMembers((t: Snapshot) => t.source == source, c.snapshots);
    var listed := c.Listed(source);
    var m := FirstMatch(listed, name, source);
    if m < |listed| {
      assert listed[m] in c.snapshots;
    }
    forall s | s in c.snapshots && Matches(s, name, source)
      ensures m < |listed|
    {
      OneMatch(c, s);
    }
  }

  // ---- The requests --------------------------------------------------------

  datatype Operation =
    | CreateOp(name: string, source: Id, conditions: Conditions)
    | DeleteOp(id: Id, deletion: Deletion)

  datatype Answer = CreateAnswer(created: Result<SnapshotEntry>) | DeleteAnswer(deleted: Result<()>)

  /** `toCSISnapshot` */
  function Converted(s: Snapshot): Result<SnapshotEntry> {
    if s.dated then Ok(ToEntry(s)) else Err(Internal)
  }

  /** The answer to a creation, and the snapshots after it. */
  ghost function CreateOutcome(c: Catalog, name: string, source: Id, k: Conditions): (Result<SnapshotEntry>, Catalog) {
    var listed := c.Listed(source);
    var m := FirstMatch(listed, name, source);
    var server := c.Server(source, k.failingPages);
    var s := c.Fresh(name, source, k);
    if name == "" || source == NO_ID then (Err(InvalidArgument), c)
    else if FailsWithin(server, 1, PagesRead(server, name, source)) then (Err(Internal), c)
    else if m < |listed| then (Converted(listed[m]), c)
    else match k.reply
      case Conflicts => (Err(AlreadyExists), c)
      case Refused => (Err(Internal), c)
      case Lost => (Err(Internal), c.Adding(s))
      case Created => (Converted(s), c.Adding(s))
  }

  function DeleteOutcome(c: Catalog, id: Id, deletion: Deletion): (Result<()>, Catalog) {
    if id == NO_ID then (Err(InvalidArgument), c)
    else (if deletion.Performed? then Ok(()) else Err(Unknown), if deletion.Rejected? then c else c.Without(id))
  }

  ghost function OutcomeOf(c: Catalog, op: Operation): (Answer, Catalog) {
    match op
    case CreateOp(name, source, k) =>
      var (r, after) := CreateOutcome(c, name, source, k);
      (CreateAnswer(r), after)
    case DeleteOp(id, deletion) =>
      var (r, after) := DeleteOutcome(c, id, deletion);
      (DeleteAnswer(r), after)
  }

  class Store {
    var catalog: Catalog

    constructor (cap: PageCap, scoped: bool)
      ensures catalog == Catalog([], 0, cap, scoped)
    {
      catalog := Catalog([], 0, cap, scoped);
    }

    method Create(name: string, source: Id, k: Conditions) returns (s: Snapshot)
      modifies this
      ensures s == old(catalog).Fresh(name, source, k) && catalog == old(catalog).Adding(s)
    {
      s := Snapshot(catalog.issued + 1, name, source, k.minDisk, k.dated);
      catalog := catalog.(snapshots := catalog.snapshots + [s], issued := s.id);
    }

    /** An identifier the API does not know is answered with 404, which the driver
        takes for success. */
    method Delete(id: Id)
      modifies this
      ensures catalog == old(catalog).Without(id)
    {
      catalog := catalog.Without(id);
    }
  }

  /** The search through one page. */
  method FindOnPage(page: seq<Snapshot>, name: string, source: Id) returns (found: Option<Snapshot>)
    ensures found == MatchIn(page, name, source)
  {
    for i := 0 to |page|
      invariant i <= FirstMatch(page, name, source)
    {
      if Matches(page[i], name, source) {
        return Some(page[i]);
      }
    }
    return None;
  }

  /** The search, come to a page that starts at the index `pos`. */
  ghost predicate Searching(server: Server<Snapshot>, name: string, source: Id, page: int, pos: nat)
    requires server.Valid()
  {
    var p, m := server.PageSize(PAGE_SIZE), FirstMatch(server.items, name, source);
    && 1 <= page && pos == PageStart(page, p) && (page == 1 || pos < |server.items|) && pos <= m
    && (forall i :: 0 <= i < page - 1 ==> !server.Fails(PageAt(1, i)))
    && PagesRead(server, name, source) == page - 1 + PagesTo(pos + p, Min(m + 1, |server.items|), p)
  }

  lemma SearchStops(server: Server<Snapshot>, name: string, source: Id, page: int, pos: nat)
    requires server.Valid() && Searching(server, name, source, page, pos)
    requires Min(FirstMatch(server.items, name, source) + 1, |server.items|) <= pos + server.PageSize(PAGE_SIZE)
              || server.Fails(page)
    ensures FailsWithin(server, 1, PagesRead(server, name, source)) <==> server.Fails(page)
  {
    assert PageAt(1, page - 1) == page;
  }

  lemma SearchGoesOn(server: Server<Snapshot>, name: string, source: Id, page: int, pos: nat)
    requires server.Valid() && Searching(server, name, source, page, pos) && !server.Fails(page)
    requires pos + server.PageSize(PAGE_SIZE) < |server.items|
    requires pos + server.PageSize(PAGE_SIZE) <= FirstMatch(server.items, name, source)
    ensures Searching(server, name, source, page + 1, pos + server.PageSize(PAGE_SIZE))
  {
    assert PageAt(1, page - 1) == page;
  }

  /** What one page comes to: the search is over if the match is on it or it is the
      last one, and goes on behind it if not. */
  lemma SearchedPage(server: Server<Snapshot>, name: string, source: Id, page: int, pos: nat, lo: nat, hi: nat)
    requires server.Valid() && Searching(server, name, source, page, pos) && !server.Fails(page)
    requires lo == Min(pos, |server.items|) && hi == PageStop(|server.items|, pos + server.PageSize(PAGE_SIZE))
    ensures var end, found := pos + server.PageSize(PAGE_SIZE), MatchIn(server.items[lo..hi], name, source);
            if found.Some? || |server.items| <= end
            then
              && found == MatchIn(server.items, name, source)
              && !FailsWithin(server, 1, PagesRead(server, name, source))
            else Searching(server, name, source, page + 1, end)
  {
    var end := pos + server.PageSize(PAGE_SIZE);
    FirstOnPage(server.items, name, source, lo, hi);
    if MatchIn(server.items[lo..hi], name, source).Some? || |server.items| <= end {
      SearchStops(server, name, source, page, pos);
    } else {
      SearchGoesOn(server, name, source, page, pos);
    }
  }

  /** One page of the search. */
  method SearchPage(server: Server<Snapshot>, name: string, source: Id, page: int, ghost pos: nat)
    returns (failed: bool, found: Option<Snapshot>, done: bool, nextPage: int)
    requires server.Valid() && Searching(server, name, source, page, pos)
    ensures failed ==> FailsWithin(server, 1, PagesRead(server, name, source))
    ensures !failed && done ==> !FailsWithin(server, 1, PagesRead(server, name, source))
    ensures !failed && done ==> found == MatchIn(server.items, name, source)
    ensures !failed && !done ==>
              && pos < |server.items|
              && Searching(server, name, source, nextPage, pos + server.PageSize(PAGE_SIZE))
  {
    var reply, lo, hi := Fetch(server, page, PAGE_SIZE);
    failed, found, done, nextPage := reply.Failed?, None, true, page;
    if failed {
      SearchStops(server, name, source, page, pos);
      return;
    }
    SearchedPage(server, name, source, page, pos, lo, hi);
    found := FindOnPage(reply.items, name, source);
    done := found.Some? || reply.links.None? || reply.links.value.IsLastPage();
    if !done {
      nextPage := reply.links.value.CurrentPage() + 1;
    }
  }

  /** The search of `CreateSnapshot` through the pages of the listing. */
  method FindSnapshot(server: Server<Snapshot>, name: string, source: Id)
    returns (failed: bool, found: Option<Snapshot>)
    requires server.Valid()
    // It fails exactly if one of the pages up to the first match does.
    ensures failed <==> FailsWithin(server, 1, PagesRead(server, name, source))
    ensures !failed ==> found == MatchIn(server.items, name, source)
    ensures !failed ==>
              (found.None? <==> forall s :: s in server.items ==> s.name != name || s.source != source)
    ensures !failed && found.Some? ==>
              found.value in server.items && found.value.name == name && found.value.source == source
  {
    var page, done := 1, false;
    ghost var pos := 0;
    while true
      invariant Searching(server, name, source, page, pos)
      decreases |server.items| - pos
    {
      failed, found, done, page := SearchPage(server, name, source, page, pos);
      if failed || done {
        FoundMatches(server.items, name, source);
        return;
      }
      pos := pos + server.PageSize(PAGE_SIZE);
    }
  }

  /** `CreateSnapshot`. */
  method CreateSnapshot(store: Store, name: string, source: Id, k: Conditions) returns (r: Result<SnapshotEntry>)
    modifies store
    ensures (r, store.catalog) == CreateOutcome(old(store.catalog), name, source, k)
  {
    if name == "" {
      return Err(InvalidArgument);
    }
    if source == NO_ID {
      return Err(InvalidArgument);
    }
    var failed, found := FindSnapshot(store.catalog.Server(source, k.failingPages), name, source);
    if failed {
      return Err(Internal);
    }
    if found.Some? {
      return Converted(found.value);
    }
    match k.reply
    case Conflicts =>
      r := Err(AlreadyExists);
    case Refused =>
      r := Err(Internal);
    case Lost =>
      var _ := store.Create(name, source, k);
      r := Err(Internal);
    case Created =>
      var s := store.Create(name, source, k);
      r := Converted(s);
  }

  /** `DeleteSnapshot`. */
  method DeleteSnapshot(store: Store, id: Id, deletion: Deletion) returns (r: Result<()>)
    modifies store
    ensures (r, store.catalog) == DeleteOutcome(old(store.catalog), id, deletion)
  {
    if id == NO_ID {
      return Err(InvalidArgument);
    }
    if !deletion.Rejected? {
      store.Delete(id);
    }
    r := if deletion.Performed? then Ok(()) else Err(Unknown);
  }

  // ---- One request ---------------------------------------------------------

  predicate Deletes(op: Operation, id: Id) {
    op.DeleteOp? && op.id == id && !op.deletion.Rejected?
  }

  lemma AddingKeepsValid(c: Catalog, name: string, source: Id, k: Conditions)
    requires c.Valid() && forall s :: s in c.snapshots ==> s.name != name || s.source != source
    ensures c.Adding(c.Fresh(name, source, k)).Valid()
  {
    forall i | 0 <= i < |c.snapshots|
      ensures c.snapshots[i].id <= c.issued && (c.snapshots[i].name != name || c.snapshots[i].source != source)
    {
      assert c.snapshots[i] in c.snapshots;
    }
  }

  lemma WithoutKeepsValid(c: Catalog, id: Id)
    requires c.Valid()
    ensures c.Without(id).Valid()
    ensures forall s :: s in c.Without(id).snapshots <==> s in c.snapshots && s.id != id
  {
    var keep := (s: Snapshot) => s.id != id;
    FilterMembers(keep, c.snapshots);
    FilterPairs(keep, c.snapshots, (a: Snapshot, b: Snapshot) => a.id != b.id);
    FilterPairs(keep, c.snapshots, (a: Snapshot, b: Snapshot) => a.name != b.name || a.source != b.source);
  }

  /** Whatever fails on the way, a request leaves identifiers and names unique, takes
      away what it deletes and nothing else, and gives out no identifier twice. */
  lemma OutcomeKeepsValid(c: Catalog, op: Operation)
    requires c.Valid()
    ensures var after := OutcomeOf(c, op).1;
            && after.Valid() && c.issued <= after.issued
            && (forall s :: s in c.snapshots ==> (s in after.snapshots <==> !Deletes(op, s.id)))
            && (forall s :: s in after.snapshots && s !in c.snapshots ==> c.issued < s.id)
  {
    match op
    case CreateOp(name, source, k) =>
      NoMatch(c, name, source);
      if CreateOutcome(c, name, source, k).1 != c {
        AddingKeepsValid(c, name, source, k);
      }
    case DeleteOp(id, _) =>
      WithoutKeepsValid(c, id);
  }

  /** A creation that succeeds returns a snapshot that matches, and that exists. */
  lemma CreatedExists(c: Catalog, op: Operation) returns (s: Snapshot)
    requires c.Valid() && op.CreateOp? && OutcomeOf(c, op).0.created.Ok?
    ensures s in OutcomeOf(c, op).1.snapshots && s.name == op.name && s.source == op.source && s.dated
    ensures OutcomeOf(c, op).0.created == Ok(SnapshotEntry(s.id, s.source, s.minDisk * 0x4000_0000))
  {
    var listed := c.Listed(op.source);
    var m := FirstMatch(listed, op.name, op.source);
    if m < |listed| {
      s := listed[m];
      FilterMembers((t: Snapshot) => t.source == op.source, c.snapshots);
      assert s in listed;
    } else {
      s := c.Fresh(op.name, op.source, op.conditions);
    }
  }

  /** While a matching snapshot exists, the store is left alone, and the answer is that
      snapshot unless a page up to it fails. */
  lemma CreatesNothingBeside(c: Catalog, op: Operation, s: Snapshot)
    requires c.Valid() && op.CreateOp? && op.name != "" && op.source != NO_ID
    requires s in c.snapshots && s.name == op.name && s.source == op.source
    ensures OutcomeOf(c, op).1 == c
    ensures var r, entry := OutcomeOf(c, op).0.created, SnapshotEntry(s.id, s.source, s.minDisk * 0x4000_0000);
            && (r == Err(Internal) || (s.dated && r == Ok(entry)))
            && (op.conditions.failingPages == {} && s.dated ==> r == Ok(entry))
  {
    OneMatch(c, s);
  }

  /** The pages read all start at or before the last item looked at. */
  lemma {:induction false} PagesReadStart(end: nat, p: nat, last: nat, q: nat)
    requires 0 < p && 1 < q <= PagesTo(end, last, p)
    ensures end + (q - 2) * p < last
    decreases q
  {
    if 2 < q {
      PagesReadStart(end + p, p, last, q - 1);
      assert (q - 2) * p == (q - 1 - 2) * p + p;
    }
  }

  lemma NoPageFails(server: Server<Snapshot>, p: nat, last: nat)
    requires 0 < p && 0 < last
    requires forall q :: q in server.failing && 0 < q ==> last <= (q - 1) * p
    ensures !FailsWithin(server, 1, PagesTo(p, last, p))
  {
    forall j | 0 <= j < PagesTo(p, last, p)
      ensures !server.Fails(PageAt(1, j))
    {
      if 0 < j {
        PagesReadStart(p, p, last, j + 1);
        assert p + (j - 1) * p == j * p;
      }
    }
  }

  /** A page that fails behind the match makes no difference. */
  lemma FoundBeforeFailure(c: Catalog, op: Operation, i: nat)
    requires op.CreateOp? && op.name != "" && op.source != NO_ID && i < |c.Listed(op.source)|
    requires var s := c.Listed(op.source)[i]; s.name == op.name && s.source == op.source && s.dated
    requires forall j :: 0 <= j < i ==> var t := c.Listed(op.source)[j]; t.name != op.name || t.source != op.source
    requires forall q :: q in op.conditions.failingPages && 0 < q ==> i < (q - 1) * Min(50, c.cap)
    ensures var s := c.Listed(op.source)[i];
            && OutcomeOf(c, op).0.created == Ok(SnapshotEntry(s.id, s.source, s.minDisk * 0x4000_0000))
            && OutcomeOf(c, op).1 == c
  {
    var server := c.Server(op.source, op.conditions.failingPages);
    assert FirstMatch(server.items, op.name, op.source) == i;
    NoPageFails(server, Min(50, c.cap), i + 1);
  }

  /** While there is none, and no page fails, the answer is that of the API: a creation
      that it carries out adds one snapshot of the name and source asked for. */
  lemma CreatesOne(c: Catalog, op: Operation)
    requires c.Valid() && op.CreateOp? && op.name != "" && op.source != NO_ID && op.conditions.failingPages == {}
    requires forall s :: s in c.snapshots ==> s.name != op.name || s.source != op.source
    ensures var (answer, after) := OutcomeOf(c, op);
            var s := Snapshot(c.issued + 1, op.name, op.source, op.conditions.minDisk, op.conditions.dated);
            var entry := SnapshotEntry(c.issued + 1, op.source, op.conditions.minDisk * 0x4000_0000);
            match op.conditions.reply
            case Created =>
              && after.snapshots == c.snapshots + [s]
              && answer.created == if op.conditions.dated then Ok(entry) else Err(Internal)
            case Lost => after.snapshots == c.snapshots + [s] && answer.created == Err(Internal)
            case Conflicts => after == c && answer.created == Err(AlreadyExists)
            case Refused => after == c && answer.created == Err(Internal)
  {
    NoMatch(c, op.name, op.source);
  }

  /** A creation without a name or a source is turned down. */
  lemma CreateNeedsNames(c: Catalog, op: Operation)
    requires op.CreateOp?
    ensures op.name == "" || op.source == NO_ID <==> OutcomeOf(c, op).0.created == Err(InvalidArgument)
    ensures op.name == "" || op.source == NO_ID ==> OutcomeOf(c, op).1 == c
  {
  }

  /** When a deletion succeeds, and what it leaves: also if there is no such snapshot. */
  lemma DeletionAnswers(c: Catalog, op: Operation)
    requires c.Valid() && op.DeleteOp?
    ensures var (answer, after) := OutcomeOf(c, op);
            && (answer.deleted == Ok(()) <==> op.id != NO_ID && op.deletion.Performed?)
            && (answer.deleted == Err(InvalidArgument) <==> op.id == NO_ID)
            && (answer.deleted == Err(Unknown) <==> op.id != NO_ID && !op.deletion.Performed?)
            && (answer.deleted.Ok? ==> forall s :: s in after.snapshots <==> s in c.snapshots && s.id != op.id)
            && (op.deletion.Rejected? ==> after == c)
  {
    WithoutKeepsValid(c, op.id);
  }

  // ---- Runs ----------------------------------------------------------------

  /** The snapshots before request number i of a serial run. */
  ghost function CatalogAt(c: Catalog, ops: seq<Operation>, i: nat): Catalog
    requires i <= |ops|
  {
    if i == 0 then c else OutcomeOf(CatalogAt(c, ops, i - 1), ops[i - 1]).1
  }

  ghost function AnswerAt(c: Catalog, ops: seq<Operation>, i: nat): Answer
    requires i < |ops|
  {
    OutcomeOf(CatalogAt(c, ops, i), ops[i]).0
  }

  method Run(store: Store, ops: seq<Operation>) returns (answers: seq<Answer>)
    modifies store
    ensures |answers| == |ops| && store.catalog == CatalogAt(old(store.catalog), ops, |ops|)
    ensures forall i :: 0 <= i < |ops| ==> answers[i] == AnswerAt(old(store.catalog), ops, i)
  {
    answers := [];
    for i := 0 to |ops|
      invariant |answers| == i && store.catalog == CatalogAt(old(store.catalog), ops, i)
      invariant forall k :: 0 <= k < i ==> answers[k] == AnswerAt(old(store.catalog), ops, k)
    {
      match ops[i]
      case CreateOp(name, source, k) =>
        var r := CreateSnapshot(store, name, source, k);
        answers := answers + [CreateAnswer(r)];
      case DeleteOp(id, deletion) =>
        var r := DeleteSnapshot(store, id, deletion);
        answers := answers + [DeleteAnswer(r)];
    }
  }

  /** Whatever fails on the way, no serial run leaves two snapshots of one name on a volume. */
  lemma {:induction false} RunKeepsValid(c: Catalog, ops: seq<Operation>, i: nat)
    requires c.Valid() && i <= |ops|
    ensures CatalogAt(c, ops, i).Valid()
    ensures var snapshots := CatalogAt(c, ops, i).snapshots;
            forall a, b :: 0 <= a < b < |snapshots| ==>
              && snapshots[a].id != snapshots[b].id
              && (snapshots[a].name != snapshots[b].name || snapshots[a].source != snapshots[b].source)
  {
    if 0 < i {
      RunKeepsValid(c, ops, i - 1);
      OutcomeKeepsValid(CatalogAt(c, ops, i - 1), ops[i - 1]);
    }
  }

  ghost predicate Deleted(ops: seq<Operation>, i: nat, j: nat, id: Id)
    requires j <= |ops|
  {
    exists k :: i <= k < j && Deletes(ops[k], id)
  }

  lemma DeletedStep(ops: seq<Operation>, i: nat, j: nat, id: Id)
    requires i <= j < |ops|
    ensures Deleted(ops, i, j + 1, id) <==> Deleted(ops, i, j, id) || Deletes(ops[j], id)
  {
  }

  /** The snapshot is there, or it is gone and its identifier never comes back. */
  ghost predicate Accounted(c: Catalog, s: Snapshot, deleted: bool) {
    && c.Valid() && s.id <= c.issued
    && if deleted then forall t :: t in c.snapshots ==> t.id != s.id else s in c.snapshots
  }

  lemma AccountedStep(c: Catalog, op: Operation, s: Snapshot, deleted: bool)
    requires Accounted(c, s, deleted)
    ensures Accounted(OutcomeOf(c, op).1, s, deleted || Deletes(op, s.id))
  {
    OutcomeKeepsValid(c, op);
    if Deletes(op, s.id) {
      WithoutKeepsValid(c, s.id);
    }
  }

  /** A snapshot is there until a request deletes it, and its identifier never again. */
  lemma {:induction false} Lifetime(c: Catalog, ops: seq<Operation>, s: Snapshot, i: nat, j: nat)
    requires i <= j <= |ops| && Accounted(CatalogAt(c, ops, i), s, false)
    ensures Accounted(CatalogAt(c, ops, j), s, Deleted(ops, i, j, s.id))
  {
    if i < j {
      Lifetime(c, ops, s, i, j - 1);
      DeletedStep(ops, i, j - 1, s.id);
      AccountedStep(CatalogAt(c, ops, j - 1), ops[j - 1], s, Deleted(ops, i, j - 1, s.id));
    }
  }

  /** Once a matching snapshot exists, and until it is deleted, a creation of the
      same name and source returns it, wherever it is listed, if no page fails;
      also if the reply of the request that made it was lost. */
  lemma FoundLater(c: Catalog, ops: seq<Operation>, s: Snapshot, i: nat, j: nat)
    requires c.Valid() && i <= j < |ops| && s in CatalogAt(c, ops, i).snapshots && s.dated
    requires ops[j].CreateOp? && ops[j].name != "" && ops[j].source != NO_ID
    requires s.name == ops[j].name && s.source == ops[j].source
    requires ops[j].conditions.failingPages == {} && !Deleted(ops, i, j, s.id)
    ensures AnswerAt(c, ops, j).created == Ok(SnapshotEntry(s.id, s.source, s.minDisk * 0x4000_0000))
    ensures CatalogAt(c, ops, j + 1) == CatalogAt(c, ops, j)
  {
    RunKeepsValid(c, ops, i);
    Lifetime(c, ops, s, i, j);
    CreatesNothingBeside(CatalogAt(c, ops, j), ops[j], s);
  }

  /** Two creations of one name and source that succeed return the same snapshot if
      and only if no request between them deletes it; and if none does, the second
      succeeds unless a page fails. */
  lemma SameSnapshot(c: Catalog, ops: seq<Operation>, i: nat, j: nat)
    requires c.Valid() && i < j < |ops|
    requires ops[i].CreateOp? && ops[j].CreateOp? && ops[j].name == ops[i].name && ops[j].source == ops[i].source
    requires AnswerAt(c, ops, i).created.Ok?
    ensures var first, second := AnswerAt(c, ops, i).created, AnswerAt(c, ops, j).created;
            var deleted := Deleted(ops, i + 1, j, first.value.id);
            && (second.Ok? ==> (second == first <==> !deleted))
            && (ops[j].conditions.failingPages == {} && !deleted ==> second == first)
  {
    RunKeepsValid(c, ops, i);
    RunKeepsValid(c, ops, i + 1);
    var s := CreatedExists(CatalogAt(c, ops, i), ops[i]);
    Lifetime(c, ops, s, i + 1, j);
    var before := CatalogAt(c, ops, j);
    if Deleted(ops, i + 1, j, s.id) {
      if AnswerAt(c, ops, j).created.Ok? {
        var t := CreatedExists(before, ops[j]);
        OutcomeKeepsValid(before, ops[j]);
        assert t.id != s.id;
      }
    } else {
      CreatesNothingBeside(before, ops[j], s);
    }
  }
}
