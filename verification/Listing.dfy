/** ListVolumes and ListSnapshots of driver/controller.go, over string tokens. */
module Listing {
  import opened Wrappers
  import opened Paging
  import opened PagingChain
  import Tokens

  /** A snapshot of the API; `dated` says that its creation time parses. */
  datatype Snapshot = Snapshot(id: Id, name: string, source: Id, minDisk: nat, dated: bool)

  datatype SnapshotEntry = SnapshotEntry(id: Id, source: Id, sizeBytes: int)

  datatype ListedVolume = ListedVolume(id: Id, size: nat, droplets: seq<int>)

  datatype VolumeEntry = VolumeEntry(id: Id, capacityBytes: int, nodes: seq<string>)

  datatype Response<+E> = Response(entries: seq<E>, nextToken: string)

  function ToEntry(s: Snapshot): SnapshotEntry {
    SnapshotEntry(s.id, s.source, s.minDisk * GIB)
  }

  function ToEntries(snapshots: seq<Snapshot>): (entries: seq<SnapshotEntry>)
    ensures |entries| == |snapshots|
    ensures forall i :: 0 <= i < |snapshots| ==> entries[i] == ToEntry(snapshots[i])
  {
    seq(|snapshots|, i requires 0 <= i < |snapshots| => ToEntry(snapshots[i]))
  }

  predicate AllDated(snapshots: seq<Snapshot>) {
    forall s :: s in snapshots ==> s.dated
  }

  /** The entries a request for the snapshots of one volume keeps. */
  function Keeps(source: Id): SnapshotEntry -> bool {
    (e: SnapshotEntry) => source == NO_ID || e.source == source
  }

  /** `toCSISnapshot` over a page. */
  method ConvertSnapshots(snapshots: seq<Snapshot>) returns (r: Result<seq<SnapshotEntry>>)
    ensures r == if AllDated(snapshots) then Ok(ToEntries(snapshots)) else Err(Internal)
  {
    var entries: seq<SnapshotEntry> := [];
    for i := 0 to |snapshots|
      invariant AllDated(snapshots[..i])
      invariant entries == ToEntries(snapshots[..i])
    {
      if !snapshots[i].dated {
        return Err(Internal);
      }
      assert snapshots[..i + 1] == snapshots[..i] + [snapshots[i]];
      entries := entries + [ToEntry(snapshots[i])];
    }
    assert snapshots[..|snapshots|] == snapshots;
    r := Ok(entries);
  }

  /** `filterSnapshotEntriesForVolumeID`. */
  method FilterEntries(entries: seq<SnapshotEntry>, source: Id) returns (filtered: seq<SnapshotEntry>)
    ensures filtered == Filter(Keeps(source), entries)
  {
    if source == NO_ID {
      FilterKeepsAll(Keeps(source), entries);
      return entries;
    }
    filtered := [];
    for i := 0 to |entries|
      invariant filtered == Filter(Keeps(source), entries[..i])
    {
      assert entries[..i + 1] == entries[..i] + [entries[i]];
      FilterConcat(Keeps(source), entries[..i], [entries[i]]);
      if entries[i].source == source {
        filtered := filtered + [entries[i]];
      }
    }
    assert entries[..|entries|] == entries;
  }

  lemma {:induction false} FilterKeepsAll<T>(keep: T -> bool, xs: seq<T>)
    requires forall x :: x in xs ==> keep(x)
    ensures Filter(keep, xs) == xs
  {
    if xs != [] {
      FilterKeepsAll(keep, xs[1..]);
    }
  }

  function TokenString(next: int32): string {
    if 0 < next then Tokens.Format(next) else ""
  }

  /** The token a request starts at; None if it does not parse. */
  function StartingToken(token: string): Option<int32> {
    if token == "" then Some(0) else Tokens.Parse(token)
  }

  /** A token that parses and does not lead before the first page. */
  predicate StartsInRange(token: string, maxEntries: int32) {
    StartingToken(token).Some? && 0 <= FirstPage(StartingToken(token).value, maxEntries)
  }

  /** What a listing request is answered with when no page of the API fails. */
  function SnapshotsResponse(server: Server<Snapshot>, source: Id, token: string, maxEntries: int32)
    : Result<Response<SnapshotEntry>>
    requires server.Valid()
  {
    match StartingToken(token)
    case None => Err(Aborted)
    case Some(t) =>
      var listing := ListingOf(server.items, server.PageSize(maxEntries), t, maxEntries);
      if AllDated(listing.entries)
      then Ok(Response(Filter(Keeps(source), ToEntries(listing.entries)), TokenString(listing.next)))
      else Err(Internal)
  }

  /** `ListSnapshots`. A request by ID is looked up in the same inventory;
      `lookupFails` is an API failure of that lookup. */
  method ListSnapshots(server: Server<Snapshot>, id: Id, source: Id, token: string, maxEntries: int32,
                       lookupFails: bool)
    returns (r: Result<Response<SnapshotEntry>>, calls: nat)
    requires server.Valid()
    ensures id == NO_ID && server.failing == {} && StartsInRange(token, maxEntries) ==>
              r == SnapshotsResponse(server, source, token, maxEntries)
    ensures id == NO_ID && StartingToken(token) == None ==> r == Err(Aborted) && calls == 0
    ensures id == NO_ID && StartingToken(token) != None ==>
              var t := StartingToken(token).value;
              && r == (if ListingFails(server, t, maxEntries) then Err(Internal)
                       else SnapshotsResponse(server, source, token, maxEntries))
              && (r.Ok? ==> calls == PagesFor(|server.items|, server.PageSize(maxEntries), t, maxEntries))
    ensures id == NO_ID && 1 <= maxEntries <= server.cap ==> calls <= 2
    ensures id != NO_ID && lookupFails ==> r == Err(Internal)
    ensures id != NO_ID && !lookupFails && (forall s :: s in server.items ==> s.id != id) ==> r == Ok(Response([], ""))
    ensures id != NO_ID && !lookupFails && r.Err? ==>
              r.code == Internal && exists s :: s in server.items && s.id == id && !s.dated
    ensures id != NO_ID && r.Ok? && (exists s :: s in server.items && s.id == id) ==>
              exists s :: s in server.items && s.id == id && s.dated
                          && r.value == Response(if source == NO_ID || s.source == source
                                                 then [SnapshotEntry(s.id, s.source, s.minDisk * 0x4000_0000)]
                                                 else [], "")
    ensures id == NO_ID && Tokens.HasStray(token) ==> r == Err(Aborted)
  {
    Tokens.NumbersExactly(token);
    calls := 0;
    var entries: seq<SnapshotEntry> := [];
    var nextToken := "";
    if id != NO_ID {
      if lookupFails {
        return Err(Internal), 0;
      }
      if s :| s in server.items && s.id == id {
        if !s.dated {
          return Err(Internal), 0;
        }
        entries := [ToEntry(s)];
      }
    } else {
      var startingToken := StartingToken(token);
      if startingToken.None? {
        return Err(Aborted), 0;
      }
      var listed;
      listed, calls := ListResources(server, startingToken.value, maxEntries);
      if listed.Err? {
        return Err(listed.code), calls;
      }
      var converted := ConvertSnapshots(listed.value.entries);
      if converted.Err? {
        return Err(converted.code), calls;
      }
      entries := converted.value;
      nextToken := TokenString(listed.value.next);
    }
    entries := FilterEntries(entries, source);
    r := Ok(Response(entries, nextToken));
  }

  // ---- Following NextToken -------------------------------------------------

  lemma WindowOfEntries(snapshots: seq<Snapshot>, p: nat, token: int32, maxEntries: int32)
    ensures ToEntries(Window(snapshots, p, token, maxEntries)) == Window(ToEntries(snapshots), p, token, maxEntries)
    ensures AllDated(snapshots) ==> AllDated(Window(snapshots, p, token, maxEntries))
  {
  }

  /** The filtered calls of a chain: the first one, then the rest. */
  lemma FilteredChainStep<T>(keep: T -> bool, items: seq<T>, p: nat, token: int32, maxEntries: int32)
    requires 0 <= token
    ensures var next := NextToken(|items|, p, token, maxEntries);
            FilterEach(keep, Chain(items, p, token, maxEntries))
            == [Filter(keep, Window(items, p, token, maxEntries))]
               + if next <= 0 then [] else FilterEach(keep, Chain(items, p, next, maxEntries))
  {
    var next := NextToken(|items|, p, token, maxEntries);
    var chain := Chain(items, p, token, maxEntries);
    assert chain[1..] == if next <= 0 then [] else Chain(items, p, next, maxEntries);
  }

  lemma ChainResponse(server: Server<Snapshot>, source: Id, token: string, t: int32, maxEntries: int32)
    requires server.Valid() && AllDated(server.items) && StartingToken(token) == Some(t)
    ensures var all, p := ToEntries(server.items), server.PageSize(maxEntries);
            SnapshotsResponse(server, source, token, maxEntries)
            == Ok(Response(Filter(Keeps(source), Window(all, p, t, maxEntries)),
                           TokenString(NextToken(|all|, p, t, maxEntries))))
  {
    WindowOfEntries(server.items, server.PageSize(maxEntries), t, maxEntries);
  }

  lemma TokenStringParses(next: int32)
    ensures TokenString(next) == "" <==> next <= 0
    ensures 0 < next ==> StartingToken(TokenString(next)) == Some(next)
  {
    Tokens.RoundTrip(next);
  }

  lemma FirstPagePositive(token: int32, maxEntries: int32)
    requires 0 <= token
    ensures 0 < FirstPage(token, maxEntries)
  {
  }

  /** A response is the first of the filtered calls that are left of a chain at the
      token t, and its token leads to the others. */
  ghost predicate IsHead<E>(keep: E -> bool, all: seq<E>, p: nat, t: int32, maxEntries: int32,
                            page: seq<E>, nextToken: string)
    requires 0 <= t
  {
    var left := FilterEach(keep, Chain(all, p, t, maxEntries));
    if nextToken == "" then left == [page]
    else StartingToken(nextToken).Some? &&
         var next := StartingToken(nextToken).value;
         t < next && left == [page] + FilterEach(keep, Chain(all, p, next, maxEntries))
  }

  lemma WindowIsHead<E>(keep: E -> bool, all: seq<E>, p: nat, t: int32, maxEntries: int32,
                        page: seq<E>, nextToken: string)
    requires 0 <= t && page == Filter(keep, Window(all, p, t, maxEntries))
    requires nextToken == TokenString(NextToken(|all|, p, t, maxEntries))
    ensures IsHead(keep, all, p, t, maxEntries, page, nextToken)
  {
    var next := NextToken(|all|, p, t, maxEntries);
    TokenStringParses(next);
    if 0 < next {
      NextTokenGrows(|all|, p, t, maxEntries);
    }
    FilteredChainStep(keep, all, p, t, maxEntries);
  }

  /** One request of a chain of `ListSnapshots`, at the token t. */
  method FollowToken(server: Server<Snapshot>, source: Id, token: string, maxEntries: int32, ghost t: int32)
    returns (page: seq<SnapshotEntry>, nextToken: string)
    requires server.Valid() && server.failing == {} && AllDated(server.items)
    requires 0 <= t && StartingToken(token) == Some(t)
    ensures IsHead(Keeps(source), ToEntries(server.items), server.PageSize(maxEntries), t, maxEntries, page, nextToken)
  {
    FirstPagePositive(t, maxEntries);
    var r, _ := ListSnapshots(server, NO_ID, source, token, maxEntries, false);
    ChainResponse(server, source, token, t, maxEntries);
    page, nextToken := r.value.entries, r.value.nextToken;
    WindowIsHead(Keeps(source), ToEntries(server.items), server.PageSize(maxEntries), t, maxEntries, page, nextToken);
  }

  /** The responses so far, come to the token t: with those left they are the filtered
      calls of the chain from the start. */
  ghost predicate Following<E>(keep: E -> bool, all: seq<E>, p: nat, maxEntries: int32, pages: seq<seq<E>>,
                               token: string, t: int32, done: bool)
  {
    var goal := FilterEach(keep, Chain(all, p, 0, maxEntries));
    if done then pages == goal
    else 0 <= t && StartingToken(token) == Some(t) && pages + FilterEach(keep, Chain(all, p, t, maxEntries)) == goal
  }

  lemma OnePageMore<T>(pages: seq<T>, page: T)
    ensures forall rest :: pages + ([page] + rest) == (pages + [page]) + rest
  {
  }

  lemma FollowedOn<E>(keep: E -> bool, all: seq<E>, p: nat, maxEntries: int32, pages: seq<seq<E>>, token: string,
                      t: int32,
                      page: seq<E>, nextToken: string, next: int32)
    requires Following(keep, all, p, maxEntries, pages, token, t, false)
    requires IsHead(keep, all, p, t, maxEntries, page, nextToken)
    requires nextToken != "" ==> StartingToken(nextToken) == Some(next)
    ensures Following(keep, all, p, maxEntries, pages + [page], nextToken, next, nextToken == "")
    ensures nextToken != "" ==> t < next
  {
    OnePageMore(pages, page);
  }

  /** The token of a response, if it has one that parses. */
  function TokenAfter(nextToken: string): int32 {
    if StartingToken(nextToken).Some? then StartingToken(nextToken).value else 0
  }

  /** The orchestrator's side of the protocol: it repeats the request with the
      NextToken of each response until there is none. The responses are the
      filtered calls of one chain; the filter does not touch the tokens, even
      when it leaves a response empty. */
  method FollowTokens(server: Server<Snapshot>, source: Id, maxEntries: int32)
    returns (pages: seq<seq<SnapshotEntry>>)
    requires server.Valid() && server.failing == {} && AllDated(server.items)
    ensures pages == FilterEach(Keeps(source),
                                Chain(ToEntries(server.items), server.PageSize(maxEntries), 0, maxEntries))
  {
    var token, done := "", false;
    pages := [];
    ghost var keep, all, p := Keeps(source), ToEntries(server.items), server.PageSize(maxEntries);
    ghost var t: int32 := 0;
    while !done
      invariant Following(keep, all, p, maxEntries, pages, token, t, done)
      decreases !done, TWO_31 - t
    {
      var page, nextToken := FollowToken(server, source, token, maxEntries, t);
      FollowedOn(keep, all, p, maxEntries, pages, token, t, page, nextToken, TokenAfter(nextToken));
      pages, token, done := pages + [page], nextToken, nextToken == "";
      t := TokenAfter(nextToken);
    }
  }

  /** Filtering commutes with paging: the responses together are the filtered
      inventory, and as many as the unfiltered chain needs. */
  lemma FilteredChain(server: Server<Snapshot>, source: Id, maxEntries: int32)
    requires server.Valid() && |server.items| < TWO_31 && 2 <= maxEntries <= server.cap
    ensures var all := ToEntries(server.items);
            var pages := FilterEach(Keeps(source), Chain(all, server.PageSize(maxEntries), 0, maxEntries));
            && Flatten(pages) == Filter(Keeps(source), all)
            && |pages| == Max(1, CeilDiv(|server.items|, maxEntries))
  {
    var all := ToEntries(server.items);
    var chain := Chain(all, maxEntries, 0, maxEntries);
    ChainComplete(all, maxEntries);
    FilterFlatten(Keeps(source), chain);
    FilterEachLength(Keeps(source), chain);
  }

  lemma {:induction false} FilterEachLength<T>(keep: T -> bool, xss: seq<seq<T>>)
    ensures |FilterEach(keep, xss)| == |xss|
  {
    if xss != [] {
      FilterEachLength(keep, xss[1..]);
    }
  }

  // ---- Volumes -------------------------------------------------------------

  function VolumeEntryOf(v: ListedVolume): VolumeEntry {
    VolumeEntry(v.id, v.size * GIB, seq(|v.droplets|, i requires 0 <= i < |v.droplets| => Tokens.Format(v.droplets[i])))
  }

  function VolumeEntriesOf(volumes: seq<ListedVolume>): (entries: seq<VolumeEntry>)
    ensures |entries| == |volumes|
    ensures forall i :: 0 <= i < |volumes| ==> entries[i] == VolumeEntryOf(volumes[i])
  {
    seq(|volumes|, i requires 0 <= i < |volumes| => VolumeEntryOf(volumes[i]))
  }

  /** A request without maxEntries gets the driver's default, if there is one. */
  function EffectiveMaxEntries(maxEntries: int32, defaultPageSize: nat): int32 {
    if maxEntries == 0 && 0 < defaultPageSize then Wrap32(defaultPageSize) else maxEntries
  }

  /** `ListVolumes`, on the volumes of the driver's region. */
  method ListVolumes(server: Server<ListedVolume>, token: string, maxEntries: int32, defaultPageSize: nat)
    returns (r: Result<Response<VolumeEntry>>, calls: nat)
    requires server.Valid()
    ensures Tokens.HasStray(token) ==> r == Err(Aborted)
    ensures StartingToken(token) == None ==> r == Err(Aborted)
    ensures r.Ok? ==>
              StartingToken(token) != None &&
              var m := EffectiveMaxEntries(maxEntries, defaultPageSize);
              var listing := ListingOf(server.items, server.PageSize(m), StartingToken(token).value, m);
              r.value == Response(VolumeEntriesOf(listing.entries), TokenString(listing.next))
    ensures server.failing == {} && StartsInRange(token, EffectiveMaxEntries(maxEntries, defaultPageSize)) ==> r.Ok?
    ensures r.Err? && StartingToken(token) != None ==> r.code == Internal
    ensures StartingToken(token) != None ==>
              var m := EffectiveMaxEntries(maxEntries, defaultPageSize);
              && (r.Err? <==> ListingFails(server, StartingToken(token).value, m))
              && (r.Ok? ==> calls == PagesFor(|server.items|, server.PageSize(m), StartingToken(token).value, m))
              && (1 <= m <= server.cap ==> calls <= 2)
    ensures StartingToken(token) == None ==> calls == 0
  {
    Tokens.NumbersExactly(token);
    var effective := maxEntries;
    if maxEntries == 0 && 0 < defaultPageSize {
      effective := Wrap32(defaultPageSize);
    }
    var startingToken := StartingToken(token);
    if startingToken.None? {
      return Err(Aborted), 0;
    }
    var listed;
    listed, calls := ListResources(server, startingToken.value, effective);
    if listed.Err? {
      return Err(listed.code), calls;
    }
    var volumes := listed.value.entries;
    var entries: seq<VolumeEntry> := [];
    for i := 0 to |volumes|
      invariant entries == VolumeEntriesOf(volumes[..i])
    {
      assert volumes[..i + 1] == volumes[..i] + [volumes[i]];
      entries := entries + [VolumeEntryOf(volumes[i])];
    }
    assert volumes[..|volumes|] == volumes;
    r := Ok(Response(entries, TokenString(listed.value.next)));
  }

  // ---- Following the tokens of volumes -------------------------------------

  const EVERY: VolumeEntry -> bool := (e: VolumeEntry) => true

  lemma WindowOfVolumes(volumes: seq<ListedVolume>, p: nat, token: int32, maxEntries: int32)
    ensures VolumeEntriesOf(Window(volumes, p, token, maxEntries))
              == Window(VolumeEntriesOf(volumes), p, token, maxEntries)
  {
  }

  lemma {:induction false} FilterEachKeepsAll<T>(keep: T -> bool, xss: seq<seq<T>>)
    requires forall x :: keep(x)
    ensures FilterEach(keep, xss) == xss
  {
    if xss != [] {
      FilterKeepsAll(keep, xss[0]);
      FilterEachKeepsAll(keep, xss[1..]);
    }
  }

  /** One request of a chain of `ListVolumes`, at the token t. */
  method FollowVolumeToken(server: Server<ListedVolume>, token: string, maxEntries: int32, defaultPageSize: nat,
                           ghost t: int32)
    returns (page: seq<VolumeEntry>, nextToken: string)
    requires server.Valid() && server.failing == {}
    requires 0 <= t && StartingToken(token) == Some(t)
    ensures var m := EffectiveMaxEntries(maxEntries, defaultPageSize);
            IsHead(EVERY, VolumeEntriesOf(server.items), server.PageSize(m), t, m, page, nextToken)
  {
    ghost var m := EffectiveMaxEntries(maxEntries, defaultPageSize);
    ghost var all, p := VolumeEntriesOf(server.items), server.PageSize(m);
    FirstPagePositive(t, m);
    var r, _ := ListVolumes(server, token, maxEntries, defaultPageSize);
    page, nextToken := r.value.entries, r.value.nextToken;
    WindowOfVolumes(server.items, p, t, m);
    FilterKeepsAll(EVERY, page);
    WindowIsHead(EVERY, all, p, t, m, page, nextToken);
  }

  /** Repeating the request with the NextToken of each response. The default page size
      is applied again on every call, so that the responses are the calls of one
      chain. */
  method FollowVolumes(server: Server<ListedVolume>, maxEntries: int32, defaultPageSize: nat)
    returns (pages: seq<seq<VolumeEntry>>)
    requires server.Valid() && server.failing == {}
    ensures var m := EffectiveMaxEntries(maxEntries, defaultPageSize);
            pages == Chain(VolumeEntriesOf(server.items), server.PageSize(m), 0, m)
  {
    var token, done := "", false;
    pages := [];
    ghost var m := EffectiveMaxEntries(maxEntries, defaultPageSize);
    ghost var all, p := VolumeEntriesOf(server.items), server.PageSize(m);
    ghost var t: int32 := 0;
    while !done
      invariant Following(EVERY, all, p, m, pages, token, t, done)
      decreases !done, TWO_31 - t
    {
      var page, nextToken := FollowVolumeToken(server, token, maxEntries, defaultPageSize, t);
      FollowedOn(EVERY, all, p, m, pages, token, t, page, nextToken, TokenAfter(nextToken));
      pages, token, done := pages + [page], nextToken, nextToken == "";
      t := TokenAfter(nextToken);
    }
    FilterEachKeepsAll(EVERY, Chain(all, p, 0, m));
  }

  /** Exactly when those responses together are the volumes there are. */
  lemma VolumesExact(server: Server<ListedVolume>, maxEntries: int32, defaultPageSize: nat)
    requires server.Valid() && |server.items| < TWO_31
    requires forall i, j :: 0 <= i < j < |server.items| ==> server.items[i].id != server.items[j].id
    ensures var m, all := EffectiveMaxEntries(maxEntries, defaultPageSize), VolumeEntriesOf(server.items);
            Flatten(Chain(all, server.PageSize(m), 0, m)) == all
            <==> m <= 0 || |all| <= m || 2 <= m <= server.cap
  {
    var all := VolumeEntriesOf(server.items);
    ChainExact(Server(all, server.cap, server.default, server.failing),
               EffectiveMaxEntries(maxEntries, defaultPageSize));
  }
}
