/** What the listings return, snapshot by snapshot and volume by volume. */
module ListingLaws {
  import opened Wrappers
  import opened Paging
  import opened PagingChain
  import opened Listing
  import Tokens

  // ---- Snapshots -----------------------------------------------------------

  /** The snapshots of a volume, or all of them if none is named. */
  function SnapshotsOf(source: Id, snapshots: seq<Snapshot>): seq<Snapshot> {
    Filter((s: Snapshot) => source == NO_ID || s.source == source, snapshots)
  }

  /** One entry for each snapshot, in order, with its identifier, its volume and its
      size in bytes. */
  predicate Lists(entries: seq<SnapshotEntry>, snapshots: seq<Snapshot>) {
    && |entries| == |snapshots|
    && forall i :: 0 <= i < |entries| ==>
         && entries[i].id == snapshots[i].id
         && entries[i].source == snapshots[i].source
         && entries[i].sizeBytes == snapshots[i].minDisk * 0x4000_0000
  }

  /** To filter by volume first and convert then is to convert first and filter then. */
  lemma {:induction false} FilterConverts(source: Id, snapshots: seq<Snapshot>)
    ensures Lists(Filter(Keeps(source), ToEntries(snapshots)), SnapshotsOf(source, snapshots))
  {
    if snapshots != [] {
      FilterConverts(source, snapshots[1..]);
      assert ToEntries(snapshots)[1..] == ToEntries(snapshots[1..]);
    }
  }

  /** A response lists the snapshots of the volume in its window of the inventory. */
  lemma ResponseLists(server: Server<Snapshot>, source: Id, token: string, maxEntries: int32)
    requires server.Valid() && StartingToken(token).Some?
    requires SnapshotsResponse(server, source, token, maxEntries).Ok?
    ensures var window := Window(server.items, server.PageSize(maxEntries), StartingToken(token).value, maxEntries);
            && Lists(SnapshotsResponse(server, source, token, maxEntries).value.entries, SnapshotsOf(source, window))
            && forall s :: s in window ==> s.dated
  {
    var window := Window(server.items, server.PageSize(maxEntries), StartingToken(token).value, maxEntries);
    FilterConverts(source, window);
  }

  /** The response fails exactly if the timestamp of a snapshot in the window does not parse,
      of whichever volume it is. */
  lemma UndatedFails(server: Server<Snapshot>, source: Id, token: string, maxEntries: int32)
    requires server.Valid() && StartingToken(token).Some?
    ensures var window := Window(server.items, server.PageSize(maxEntries), StartingToken(token).value, maxEntries);
            var r := SnapshotsResponse(server, source, token, maxEntries);
            && (r == Err(Internal) <==> exists s :: s in window && !s.dated)
            && (r.Err? ==> r == Err(Internal))
  {
  }

  /** All responses to a client that follows the tokens list the snapshots of the volume,
      each once and in order. */
  lemma ChainLists(server: Server<Snapshot>, source: Id, maxEntries: int32)
    requires server.Valid() && |server.items| < TWO_31 && 2 <= maxEntries <= server.cap
    ensures var all := ToEntries(server.items);
            var pages := FilterEach(Keeps(source), Chain(all, server.PageSize(maxEntries), 0, maxEntries));
            Lists(Flatten(pages), SnapshotsOf(source, server.items))
  {
    FilteredChain(server, source, maxEntries);
    FilterConverts(source, server.items);
  }

  // ---- Volumes -------------------------------------------------------------

  /** One entry for each volume, in order, with its identifier, its size in bytes and the
      droplets it is attached to. */
  predicate ListsVolumes(entries: seq<VolumeEntry>, volumes: seq<ListedVolume>) {
    && |entries| == |volumes|
    && forall i :: 0 <= i < |entries| ==>
         && entries[i].id == volumes[i].id
         && entries[i].capacityBytes == volumes[i].size * 0x4000_0000
         && |entries[i].nodes| == |volumes[i].droplets|
         && forall j :: 0 <= j < |volumes[i].droplets| && -TWO_31 <= volumes[i].droplets[j] < TWO_31 ==>
              Tokens.Parse(entries[i].nodes[j]) == Some(volumes[i].droplets[j] as int32)
  }

  lemma EntriesListVolumes(volumes: seq<ListedVolume>)
    ensures ListsVolumes(VolumeEntriesOf(volumes), volumes)
  {
    forall i, j | 0 <= i < |volumes| && 0 <= j < |volumes[i].droplets|
                  && -TWO_31 <= volumes[i].droplets[j] < TWO_31
      ensures Tokens.Parse(VolumeEntriesOf(volumes)[i].nodes[j]) == Some(volumes[i].droplets[j] as int32)
    {
      Tokens.RoundTrip(volumes[i].droplets[j]);
    }
  }

  lemma ChainOfVolumes(server: Server<ListedVolume>, m: int32)
    requires server.Valid() && |server.items| < TWO_31 && 2 <= m <= server.cap
    ensures var pages := Chain(VolumeEntriesOf(server.items), server.PageSize(m), 0, m);
            ListsVolumes(Flatten(pages), server.items) && |pages| == Max(1, CeilDiv(|server.items|, m))
  {
    EntriesListVolumes(server.items);
    ChainComplete(VolumeEntriesOf(server.items), m);
  }

  /** The default page size counts only for a request without one. */
  lemma ExplicitSizeWins(maxEntries: int32, defaultPageSize: nat)
    ensures maxEntries != 0 || defaultPageSize == 0 ==> EffectiveMaxEntries(maxEntries, defaultPageSize) == maxEntries
    ensures maxEntries == 0 && defaultPageSize < TWO_31 ==>
              EffectiveMaxEntries(maxEntries, defaultPageSize) == defaultPageSize
  {
  }

  /** All responses to a client that follows the tokens list the volumes, each once and in
      order, in as many calls as the page size of the request asks for, or the default
      page size if the request has none. */
  lemma ChainListsVolumes(server: Server<ListedVolume>, maxEntries: int32, defaultPageSize: nat)
    requires server.Valid() && |server.items| < TWO_31
    requires 2 <= maxEntries <= server.cap || (maxEntries == 0 && 2 <= defaultPageSize <= server.cap)
    ensures var m := EffectiveMaxEntries(maxEntries, defaultPageSize);
            var pages := Chain(VolumeEntriesOf(server.items), server.PageSize(m), 0, m);
            && ListsVolumes(Flatten(pages), server.items)
            && |pages| == Max(1, CeilDiv(|server.items|, if maxEntries == 0 then defaultPageSize else maxEntries))
  {
    ExplicitSizeWins(maxEntries, defaultPageSize);
    ChainOfVolumes(server, EffectiveMaxEntries(maxEntries, defaultPageSize));
  }

  /** Without either page size one response lists all volumes. */
  lemma OneResponseListsVolumes(server: Server<ListedVolume>)
    requires server.Valid() && |server.items| < TWO_31
    ensures var m := EffectiveMaxEntries(0, 0);
            var pages := Chain(VolumeEntriesOf(server.items), server.PageSize(m), 0, m);
            |pages| == 1 && ListsVolumes(pages[0], server.items)
  {
    EntriesListVolumes(server.items);
    FirstCallExact(VolumeEntriesOf(server.items), server.PageSize(0), 0);
  }
}
