/** Creating volumes: `CreateVolume` of driver/controller.go. */
module Provisioning {
  import opened Wrappers
  import opened Capacity
  import opened CloudState
  import opened CloudApi
  import opened Waiting
  import opened Expanding

  // ---- Requests and their outcomes -----------------------------------------

  /** A volume capability: its access mode, reduced to whether it is the one that
      is supported, and whether it has an access type. */
  datatype Capability = Capability(singleNodeWriter: bool, typed: bool)

  datatype CreateVolumeRequest = CreateVolumeRequest(
    name: string,
    capabilities: seq<Capability>,
    range: Option<CapacityRange>,
    regions: seq<string>,
    snapshot: Option<Id>
  )

  datatype Created = Created(id: Id, capacityBytes: int, snapshot: Option<Id>)

  predicate Supported(c: Capability) {
    c.singleNodeWriter && c.typed
  }

  /** The requests turned down before the API is asked. */
  function CreateRejects(driver: Driver, req: CreateVolumeRequest): Option<Code> {
    if req.name == "" || req.capabilities == [] then Some(InvalidArgument)
    else if exists c :: c in req.capabilities && !Supported(c) then Some(InvalidArgument)
    else if ExtractStorage(req.range).Err? then Some(OutOfRange)
    else if exists region :: region in req.regions && region != driver.region then Some(ResourceExhausted)
    else None
  }

  function TagsFor(driver: Driver): set<string> {
    if driver.doTag == "" then {} else {driver.doTag}
  }

  /** The answer to a request for a volume whose name exists. */
  ghost function Existing(found: map<Id, Volume>, size: int): Result<Created>
    requires found != map[]
  {
    var id :| id in found;
    if 1 < |found| then Err(Unknown)
    else if found[id].size * GIB != size then Err(AlreadyExists)
    else Ok(Created(id, size, None))
  }

  /** What becomes of a creation: the first call decides between the volumes that are
      found, which are left alone, and a new one. */
  ghost function CreateOutcome(w: World, driver: Driver, req: CreateVolumeRequest, limit: nat, ctx: seq<bool>)
    : (Result<Created>, World)
  {
    if CreateRejects(driver, req).Some? then (Err(CreateRejects(driver, req).value), w)
    else
      var (found, at) := ReadNamed(w, driver.region, req.name);
      NamedOutcome(found, at, driver, req.name, ExtractStorage(req.range).value, req.snapshot, limit, ctx)
  }

  ghost function NamedOutcome(found: Reply<map<Id, Volume>>, at: World, driver: Driver, name: string, size: int,
                              snapshot: Option<Id>,
                              limit: nat, ctx: seq<bool>): (Result<Created>, World) {
    if found.Failed? then (Err(Internal), at)
    else if found.value != map[] then (Existing(found.value, size), at)
    else FreshOutcome(at, driver, name, size, snapshot, limit, ctx)
  }

  /** For a name that is not found: the snapshot must exist. */
  ghost function FreshOutcome(w: World, driver: Driver, name: string, size: int, snapshot: Option<Id>, limit: nat,
                              ctx: seq<bool>)
    : (Result<Created>, World)
  {
    if snapshot.None? then MakeOutcome(w, driver, name, size, snapshot, limit, ctx)
    else if snapshot.value == NO_ID then (Err(InvalidArgument), w)
    else
      var (found, at) := ReadSnapshot(w, snapshot.value);
      if found.Failed? then (Err(if found.error == Missing then NotFound else Unknown), at)
      else MakeOutcome(at, driver, name, size, snapshot, limit, ctx)
  }

  /** The volume is made, and grown if the snapshot it is made from is smaller. */
  ghost function MakeOutcome(w: World, driver: Driver, name: string, size: int, snapshot: Option<Id>, limit: nat,
                             ctx: seq<bool>)
    : (Result<Created>, World)
  {
    var (made, at) := Making(w, driver, name, size, snapshot);
    if made.Failed? then (Err(if made.error == CapacityLimit then ResourceExhausted else Internal), at)
    else GrowOutcome(at, made.value.0, made.value.1.size, size, snapshot, limit, ctx)
  }

  /** The request for the volume. */
  ghost function Making(w: World, driver: Driver, name: string, size: int, snapshot: Option<Id>)
    : (Reply<(Id, Volume)>, World)
  {
    Creating(w, name, driver.region, GigaBytes(size), TagsFor(driver), snapshot)
  }

  /** What follows once the volume is made; the handler looks at the status of the
      action without checking that there is one. */
  ghost function GrowOutcome(w: World, id: Id, made: int, size: int, snapshot: Option<Id>, limit: nat, ctx: seq<bool>)
    : (Result<Created>, World)
  {
    if GigaBytes(size) <= made then (Ok(Created(id, size, snapshot)), w)
    else
      var (reply, at) := Acted(w, id, Resize(GigaBytes(size)), limit);
      match reply
      case Failed(_) => (Err(Internal), at)
      case Got(None) => (Err(Crash), at)
      case Got(Some(a)) =>
        if a.status.Completed? then (Ok(Created(id, size, snapshot)), at)
        else
          var (done, after) := WaitOutcome(at, ctx, a.id);
          (if done then Ok(Created(id, size, snapshot)) else Err(Internal), after)
  }

  // ---- Names and tags ------------------------------------------------------

  /** No two volumes of a region have the same name. */
  ghost predicate UniqueNames(s: State) {
    forall v, w :: v in s.volumes && w in s.volumes && v != w ==>
      s.volumes[v].name != s.volumes[w].name || s.volumes[v].region != s.volumes[w].region
  }

  /** Names stay unique as long as nobody creates volumes. */
  lemma NamesStayUnique(p: Policy, a: State, b: State)
    requires Kept(p, a, b) && VolumesInv(b)
    ensures p.noCreate && UniqueNames(a) ==> UniqueNames(b)
  {
    if p.noCreate && UniqueNames(a) {
      forall v, w | v in b.volumes && w in b.volumes && v != w
        ensures b.volumes[v].name != b.volumes[w].name || b.volumes[v].region != b.volumes[w].region
      {
        assert KeptVolume(p, a, b, v) && KeptVolume(p, a, b, w);
      }
    }
  }

  /** A name that is not found stays free as long as nobody else creates volumes. */
  lemma NameStaysFree(p: Policy, a: State, b: State, region: string, name: string)
    requires Kept(p, a, b) && VolumesInv(b)
    ensures p.noCreate && Named(a, region, name) == map[] ==> Named(b, region, name) == map[]
  {
    if p.noCreate && Named(a, region, name) == map[] {
      forall v | v in b.volumes
        ensures v !in Named(b, region, name)
      {
        assert KeptVolume(p, a, b, v);
        assert v !in Named(a, region, name);
      }
    }
  }

  lemma UniqueNamesAfterCreate(s: State, name: string, region: string, size: int, tags: set<string>)
    requires VolumesInv(s)
    ensures UniqueNames(s) && Named(s, region, name) == map[] ==>
              UniqueNames(Next(s, NewVolume(name, region, size, tags)))
  {
    forall v | v in s.volumes && Named(s, region, name) == map[]
      ensures s.volumes[v].name != name || s.volumes[v].region != region
    {
      assert v !in Named(s, region, name);
    }
  }

  lemma TagsStay(p: Policy, a: State, b: State, v: Id)
    requires Kept(p, a, b) && v in a.volumes && v <= a.issued
    ensures p.noUntag && v in b.volumes ==> a.volumes[v].tags <= b.volumes[v].tags
  {
    if v in b.volumes {
      assert KeptVolume(p, a, b, v);
    }
  }

  /** The volume is there, under its name, with at least the size, at some instant. */
  ghost predicate SometimeProvisioned(history: seq<State>, from: int, v: Id, region: string, name: string, size: int) {
    exists k :: 0 <= from <= k < |history| && Provides(history[k], v, region, name, size)
  }

  predicate Provides(s: State, v: Id, region: string, name: string, size: int) {
    v in s.volumes && s.volumes[v].name == name && s.volumes[v].region == region && size <= s.volumes[v].size
  }

  /** A volume that has just been made has no action pending. */
  lemma NewNotPending(s: State, name: string, region: string, size: int, tags: set<string>)
    requires Inv(s)
    ensures !Pending(Next(s, NewVolume(name, region, size, tags)), s.issued + 1)
  {
  }

  // ---- CreateVolume --------------------------------------------------------

  /** The request to create a volume, for a name that has not been found. */
  method MakeVolume(cloud: Cloud, driver: Driver, name: string, size: int, snapshot: Option<Id>)
    returns (r: Reply<(Id, Volume)>)
    requires cloud.Valid() && size <= MAXIMUM_SIZE
    modifies cloud`s, cloud`history, cloud`log, cloud`schedule, cloud`requests
    ensures cloud.Valid() && old(cloud.history) <= cloud.history
    ensures (r, cloud.Now()) == Making(old(cloud.Now()), driver, name, size, snapshot)
    ensures cloud.policy.noCreate && UniqueNames(old(cloud.s)) && Named(old(cloud.s), driver.region, name) == map[] ==>
              UniqueNames(cloud.s)
    ensures r.Got? ==>
              && r.value.0 == cloud.s.issued && r.value.0 in cloud.s.volumes && cloud.s.volumes[r.value.0] == r.value.1
              && r.value.1 == Volume(name, driver.region, r.value.1.size, [], TagsFor(driver))
  {
    var tags: set<string> := {};
    if driver.doTag != "" {
      tags := tags + {driver.doTag};
    }
    assert tags == TagsFor(driver);
    ghost var middle;
    r, middle := cloud.Create(name, driver.region, GigaBytes(size), tags, snapshot);
    ghost var made := CreatedSize(Last(middle), GigaBytes(size), snapshot);
    NamesStayUnique(cloud.policy, old(cloud.s), Last(middle));
    NameStaysFree(cloud.policy, old(cloud.s), Last(middle), driver.region, name);
    UniqueNamesAfterCreate(Last(middle), name, driver.region, made, tags);
  }

  /** Growing a volume that has just been made; it is as large as asked for at instant k. */
  method ResizeNew(cloud: Cloud, id: Id, vol: Volume, size: int, snapshot: Option<Id>, ctx: seq<bool>)
    returns (r: Result<Created>, ghost k: nat)
    requires cloud.Valid() && id in cloud.s.volumes && cloud.s.volumes[id] == vol
    requires vol.size < GigaBytes(size) <= MAX_GIB
    modifies cloud`s, cloud`history, cloud`log, cloud`schedule, cloud`requests
    ensures cloud.Valid() && Moved(cloud.policy, old(cloud.history), cloud.history)
    ensures (r, cloud.Now()) == GrowOutcome(old(cloud.Now()), id, vol.size, size, snapshot, cloud.limit, ctx)
    ensures |old(cloud.history)| - 1 <= k < |cloud.history|
    ensures r.Ok? ==>
              && r.value == Created(id, size, snapshot)
              && Provides(cloud.history[k], id, vol.region, vol.name, GigaBytes(size))
  {
    ghost var k0 := |cloud.history| - 1;
    var action := cloud.Act(id, Resize(GigaBytes(size)));
    ghost var h1 := cloud.history;
    k := |h1| - 1;
    match action
    case Failed(_) =>
      r := Err(Internal);
    case Got(None) =>
      // The handler looks at the status of an action that is nil.
      r := Err(Crash);
    case Got(Some(a)) =>
      var done := a.status.Completed?;
      if !done {
        done, k := AwaitEffect(cloud, id, Resize(GigaBytes(size)), a.id, ctx);
        MovedTransitive(cloud.policy, old(cloud.history), h1, cloud.history);
      }
      if !done {
        return Err(Internal), k;
      }
      RunKeepsName(cloud, k0, k, id);
      r := Ok(Created(id, size, snapshot));
  }

  /** A volume is the same one, under the same name, at a later instant. */
  lemma RunKeepsName(cloud: Cloud, i: nat, k: nat, v: Id)
    requires cloud.Valid() && i <= k < |cloud.history|
    requires v in cloud.history[i].volumes && v in cloud.history[k].volumes
    ensures cloud.history[k].volumes[v].name == cloud.history[i].volumes[v].name
    ensures cloud.history[k].volumes[v].region == cloud.history[i].volumes[v].region
  {
    RunKeepsInv(cloud.history, cloud.log, i);
    RunKeeps(ANYTHING, cloud.history, cloud.log, i, k);
    assert KeptVolume(ANYTHING, cloud.history[i], cloud.history[k], v);
  }

  /** What follows once the volume is made; it is provided at instant k. */
  method GrowIfSmaller(cloud: Cloud, driver: Driver, id: Id, vol: Volume, size: int, snapshot: Option<Id>,
                       ctx: seq<bool>)
    returns (r: Result<Created>, ghost k: nat)
    requires cloud.Valid() && id in cloud.s.volumes && cloud.s.volumes[id] == vol && 0 < size <= MAXIMUM_SIZE
    requires vol.tags == TagsFor(driver) && id == cloud.s.issued
    modifies cloud`s, cloud`history, cloud`log, cloud`schedule, cloud`requests
    ensures cloud.Valid() && old(cloud.history) <= cloud.history
    ensures (r, cloud.Now()) == GrowOutcome(old(cloud.Now()), id, vol.size, size, snapshot, cloud.limit, ctx)
    ensures |old(cloud.history)| - 1 <= k < |cloud.history|
    ensures r.Ok? ==>
              && r.value == Created(id, size, snapshot)
              && Provides(cloud.history[k], id, vol.region, vol.name, GigaBytes(size))
    ensures driver.doTag != "" && cloud.policy.noUntag && id in cloud.s.volumes ==>
              driver.doTag in cloud.s.volumes[id].tags
    ensures cloud.policy.noCreate && UniqueNames(old(cloud.s)) ==> UniqueNames(cloud.s)
  {
    ghost var before := cloud.s;
    k := |cloud.history| - 1;
    if GigaBytes(size) <= vol.size {
      return Ok(Created(id, size, snapshot)), k;
    }
    r, k := ResizeNew(cloud, id, vol, size, snapshot, ctx);
    cloud.StateInv();
    NamesStayUnique(cloud.policy, before, cloud.s);
    TagsStay(cloud.policy, before, cloud.s, id);
  }

  /** The second half of a creation, when no volume of the name has been found. */
  method CreateAndResize(cloud: Cloud, driver: Driver, name: string, size: int, snapshot: Option<Id>, ctx: seq<bool>)
    returns (r: Result<Created>, ghost k: nat)
    requires cloud.Valid() && 0 < size <= MAXIMUM_SIZE
    modifies cloud`s, cloud`history, cloud`log, cloud`schedule, cloud`requests
    ensures cloud.Valid() && old(cloud.history) <= cloud.history
    ensures (r, cloud.Now()) == MakeOutcome(old(cloud.Now()), driver, name, size, snapshot, cloud.limit, ctx)
    ensures |old(cloud.history)| - 1 <= k < |cloud.history|
    ensures r.Ok? ==>
              && r.value.capacityBytes == size
              && Provides(cloud.history[k], r.value.id, driver.region, name, GigaBytes(size))
    ensures r.Ok? && driver.doTag != "" && cloud.policy.noUntag && r.value.id in cloud.s.volumes ==>
              driver.doTag in cloud.s.volumes[r.value.id].tags
    ensures cloud.policy.noCreate && UniqueNames(old(cloud.s)) && Named(old(cloud.s), driver.region, name) == map[] ==>
              UniqueNames(cloud.s)
  {
    var reply := MakeVolume(cloud, driver, name, size, snapshot);
    k := |cloud.history| - 1;
    match reply
    case Failed(error) =>
      r := Err(if error == CapacityLimit then ResourceExhausted else Internal);
    case Got((id, vol)) =>
      r, k := GrowIfSmaller(cloud, driver, id, vol, size, snapshot, ctx);
  }

  /** Whether every region a request names is the driver's. */
  method CheckRegions(regions: seq<string>, region: string) returns (ok: bool)
    ensures ok <==> !exists other :: other in regions && other != region
  {
    for i := 0 to |regions|
      invariant forall j :: 0 <= j < i ==> regions[j] == region
    {
      if regions[i] != region {
        assert regions[i] in regions;
        return false;
      }
    }
    ok := true;
  }

  /** The checks in front of the first API call. */
  method RejectRequest(driver: Driver, req: CreateVolumeRequest) returns (code: Option<Code>)
    ensures code == CreateRejects(driver, req)
  {
    if req.name == "" {
      return Some(InvalidArgument);
    }
    if req.capabilities == [] {
      return Some(InvalidArgument);
    }
    for i := 0 to |req.capabilities|
      invariant forall j :: 0 <= j < i ==> Supported(req.capabilities[j])
    {
      if !Supported(req.capabilities[i]) {
        assert req.capabilities[i] in req.capabilities;
        return Some(InvalidArgument);
      }
    }
    if ExtractStorage(req.range).Err? {
      return Some(OutOfRange);
    }
    var inRegion := CheckRegions(req.regions, driver.region);
    code := if inRegion then None else Some(ResourceExhausted);
  }

  /** The branch for a name that is found: the volume is returned if it has the
      size, and a conflict reported if not. */
  method AnswerExisting(found: map<Id, Volume>, size: int) returns (r: Result<Created>)
    requires found != map[]
    ensures r == Existing(found, size)
    ensures r.Ok? ==>
              && r.value.id in found && r.value == Created(r.value.id, size, None)
              && found[r.value.id].size * GIB == size
    ensures r.Ok? || r == Err(AlreadyExists) ==> |found| == 1
  {
    if 1 < |found| {
      return Err(Unknown);
    }
    var id :| id in found;
    OnlyKey(found, id);
    if found[id].size * GIB != size {
      return Err(AlreadyExists);
    }
    r := Ok(Created(id, found[id].size * GIB, None));
  }

  lemma OnlyKey(found: map<Id, Volume>, id: Id)
    requires |found| <= 1 && id in found
    ensures forall v :: v in found ==> v == id
  {
    var others := found.Keys - {id};
    assert |others| == 0;
    assert forall v :: v in found && v != id ==> v in others;
  }

  /** The first call of a creation: the answer if volumes of the name are found, or
      the call fails. */
  method LookUp(cloud: Cloud, driver: Driver, name: string, size: int) returns (answer: Option<Result<Created>>)
    requires cloud.Valid()
    modifies cloud`s, cloud`history, cloud`log, cloud`schedule
    ensures cloud.Valid() && Moved(cloud.policy, old(cloud.history), cloud.history)
    ensures var (found, at) := ReadNamed(old(cloud.Now()), driver.region, name);
            && cloud.Now() == at
            && answer == if found.Failed? then Some(Err(Internal))
                         else if found.value == map[] then None
                         else Some(Existing(found.value, size))
    ensures answer.Some? && answer.value.Ok? ==>
              && answer.value.value.capacityBytes == size
              && Provides(Last(cloud.history), answer.value.value.id, driver.region, name, GigaBytes(size))
    ensures cloud.policy.noCreate && UniqueNames(old(cloud.s)) ==> UniqueNames(cloud.s)
  {
    var volumes := cloud.FindVolumes(driver.region, name);
    cloud.StateInv();
    NamesStayUnique(cloud.policy, old(cloud.s), cloud.s);
    if volumes.Failed? {
      return Some(Err(Internal));
    }
    if volumes.value == map[] {
      return None;
    }
    var r := AnswerExisting(volumes.value, size);
    answer := Some(r);
  }

  /** The branch for a name that is not found: the snapshot must exist. */
  method CreateFresh(cloud: Cloud, driver: Driver, name: string, size: int, snapshot: Option<Id>, ctx: seq<bool>)
    returns (r: Result<Created>, ghost k: nat)
    requires cloud.Valid() && 0 < size <= MAXIMUM_SIZE
    modifies cloud`s, cloud`history, cloud`log, cloud`schedule, cloud`requests
    ensures cloud.Valid() && old(cloud.history) <= cloud.history
    ensures (r, cloud.Now()) == FreshOutcome(old(cloud.Now()), driver, name, size, snapshot, cloud.limit, ctx)
    ensures |old(cloud.history)| - 1 <= k < |cloud.history|
    ensures r.Ok? ==>
              && r.value.capacityBytes == size
              && Provides(cloud.history[k], r.value.id, driver.region, name, GigaBytes(size))
    ensures r.Ok? && driver.doTag != "" && cloud.policy.noUntag && r.value.id in cloud.s.volumes ==>
              driver.doTag in cloud.s.volumes[r.value.id].tags
    ensures cloud.policy.noCreate && UniqueNames(old(cloud.s)) && Named(old(cloud.s), driver.region, name) == map[] ==>
              UniqueNames(cloud.s)
  {
    k := |cloud.history| - 1;
    if snapshot.Some? {
      if snapshot.value == NO_ID {
        return Err(InvalidArgument), k;
      }
      var found := cloud.GetSnapshot(snapshot.value);
      cloud.StateInv();
      NameStaysFree(cloud.policy, old(cloud.s), cloud.s, driver.region, name);
      NamesStayUnique(cloud.policy, old(cloud.s), cloud.s);
      if found.Failed? {
        return Err(if found.error == Missing then NotFound else Unknown), k;
      }
    }
    r, k := CreateAndResize(cloud, driver, name, size, snapshot, ctx);
  }

  /** `CreateVolume`. */
  method CreateVolume(cloud: Cloud, driver: Driver, req: CreateVolumeRequest, ctx: seq<bool>)
    returns (r: Result<Created>)
    requires cloud.Valid()
    modifies cloud`s, cloud`history, cloud`log, cloud`schedule, cloud`requests
    ensures cloud.Valid() && old(cloud.history) <= cloud.history
    ensures (r, cloud.Now()) == CreateOutcome(old(cloud.Now()), driver, req, cloud.limit, ctx)
    ensures CreateRejects(driver, req).Some? ==> cloud.history == old(cloud.history)
    ensures old(cloud.requests) <= cloud.requests
    // Only a request that has a name, supported capabilities and no foreign region succeeds.
    ensures r.Ok? ==>
              && req.name != "" && req.capabilities != []
              && (forall c :: c in req.capabilities ==> c.singleNodeWriter && c.typed)
              && (forall region :: region in req.regions ==> region == driver.region)
    // Success: a volume of the name is there at some instant of the call, with at
    // least as many GiB as asked for; the capacity returned is the one asked for.
    ensures r.Ok? ==>
              && CreateRejects(driver, req).None?
              && r.value.capacityBytes == ExtractStorage(req.range).value
              && SometimeProvisioned(cloud.history, |old(cloud.history)| - 1, r.value.id, driver.region, req.name,
                                     GigaBytes(ExtractStorage(req.range).value))
    // A volume that is made carries the tag.
    ensures r.Ok? && cloud.requests != old(cloud.requests) && r.value.id in cloud.s.volumes ==>
              driver.doTag != "" && cloud.policy.noUntag ==>
              driver.doTag in cloud.s.volumes[r.value.id].tags
    // Names stay unique when nobody else creates volumes meanwhile.
    ensures cloud.policy.noCreate && UniqueNames(old(cloud.s)) ==> UniqueNames(cloud.s)
  {
    var rejected := RejectRequest(driver, req);
    if rejected.Some? {
      return Err(rejected.value);
    }
    var size := ExtractStorage(req.range).value;
    AcceptedGigaBytes(req.range);
    CreateAsks(cloud.Now(), driver, req, cloud.limit, ctx);

    ghost var k;
    var answer := LookUp(cloud, driver, req.name, size);
    if answer.Some? {
      assert answer.value.Ok? ==> Provides(Last(cloud.history), answer.value.value.id, driver.region, req.name,
                                           GigaBytes(size));
      return answer.value;
    }
    r, k := CreateFresh(cloud, driver, req.name, size, req.snapshot, ctx);
    assert r.Ok? ==> Provides(cloud.history[k], r.value.id, driver.region, req.name, GigaBytes(size));
  }

  // ---- What follows from the outcome ---------------------------------------

  /** A creation asks for the volume, and then at most for it to be grown. */
  lemma MakeAsks(w: World, driver: Driver, name: string, size: int, snapshot: Option<Id>, limit: nat, ctx: seq<bool>)
    ensures var asked := MakeOutcome(w, driver, name, size, snapshot, limit, ctx).1.asked;
            var made := Making(w, driver, name, size, snapshot).1.asked;
            && made == w.asked + [CreateRequest(name, driver.region, GigaBytes(size), TagsFor(driver), snapshot)]
            && (asked == made || exists id :: asked == made + [ActRequest(id, Resize(GigaBytes(size)))])
  {
    var (made, at) := Making(w, driver, name, size, snapshot);
    if made.Got? && made.value.1.size < GigaBytes(size) {
      var (reply, next) := Acted(at, made.value.0, Resize(GigaBytes(size)), limit);
      if reply.Got? && reply.value.Some? {
        WaitAsks(next, ctx, reply.value.value.id);
      }
      assert next.asked == at.asked + [ActRequest(made.value.0, Resize(GigaBytes(size)))];
    }
  }

  lemma CreateAsks(w: World, driver: Driver, req: CreateVolumeRequest, limit: nat, ctx: seq<bool>)
    ensures w.asked <= CreateOutcome(w, driver, req, limit, ctx).1.asked
  {
    if CreateRejects(driver, req).None? {
      var size := ExtractStorage(req.range).value;
      MakeAsks(Arrive(w), driver, req.name, size, req.snapshot, limit, ctx);
      MakeAsks(Arrive(Arrive(w)), driver, req.name, size, req.snapshot, limit, ctx);
    }
  }

  lemma NothingMade(w: World, driver: Driver, name: string, size: int, snapshot: Option<Id>, limit: nat, ctx: seq<bool>)
    requires GigaBytes(size) < 1
    ensures MakeOutcome(w, driver, name, size, snapshot, limit, ctx).0.Err?
  {
  }

  /** Less than one GiB is accepted in some cases, but never provided. */
  lemma NothingBelowMinimum(w: World, driver: Driver, req: CreateVolumeRequest, limit: nat, ctx: seq<bool>)
    requires VolumesInv(Arrive(w).s) && CreateRejects(driver, req).None? && BelowMinimum(req.range)
    ensures CreateOutcome(w, driver, req, limit, ctx).0.Err?
  {
    AcceptedGigaBytes(req.range);
    var size := ExtractStorage(req.range).value;
    var at := Arrive(w);
    assert forall v :: v in Named(at.s, driver.region, req.name) ==> 0 < at.s.volumes[v].size;
    NothingMade(at, driver, req.name, size, req.snapshot, limit, ctx);
    NothingMade(Arrive(at), driver, req.name, size, req.snapshot, limit, ctx);
  }

  /** `CreateVolume` crashes when the volume is made smaller than asked for and the API
      then grows it at once and returns no action. */
  ghost predicate Crashes(w: World, driver: Driver, req: CreateVolumeRequest, limit: nat) {
    && CreateRejects(driver, req).None?
    && !NoReply(TickOf(w.left)) && Named(Arrive(w).s, driver.region, req.name) == map[]
    && req.snapshot.Some? && ReadSnapshot(Arrive(w), req.snapshot.value).0.Got? && req.snapshot.value != NO_ID
    && var (made, at) := Making(Arrive(Arrive(w)), driver, req.name, ExtractStorage(req.range).value, req.snapshot);
       var g := GigaBytes(ExtractStorage(req.range).value);
       && made.Got? && made.value.1.size < g
       && CarriedOutUnseen(at.s, at.left, made.value.0, Resize(g), limit)
  }

  lemma UnseenIsNoAction(w: World, v: Id, kind: Kind, limit: nat)
    ensures Acted(w, v, kind, limit).0 == Got(None) <==> CarriedOutUnseen(w.s, w.left, v, kind, limit)
  {
  }

  lemma CrashesMaking(w: World, driver: Driver, name: string, size: int, snapshot: Option<Id>, limit: nat,
                      ctx: seq<bool>)
    ensures var (made, at) := Making(w, driver, name, size, snapshot);
            MakeOutcome(w, driver, name, size, snapshot, limit, ctx).0 == Err(Crash) <==>
              && made.Got? && made.value.1.size < GigaBytes(size)
              && CarriedOutUnseen(at.s, at.left, made.value.0, Resize(GigaBytes(size)), limit)
  {
    var (made, at) := Making(w, driver, name, size, snapshot);
    if made.Got? {
      UnseenIsNoAction(at, made.value.0, Resize(GigaBytes(size)), limit);
    }
  }

  /** Exactly then. Without a snapshot the volume is made as large as asked for. */
  lemma CrashExactly(w: World, driver: Driver, req: CreateVolumeRequest, limit: nat, ctx: seq<bool>)
    ensures CreateOutcome(w, driver, req, limit, ctx).0 == Err(Crash) <==> Crashes(w, driver, req, limit)
  {
    if CreateRejects(driver, req).None? {
      var size := ExtractStorage(req.range).value;
      CrashesMaking(Arrive(w), driver, req.name, size, req.snapshot, limit, ctx);
      CrashesMaking(Arrive(Arrive(w)), driver, req.name, size, req.snapshot, limit, ctx);
    }
  }

  /** The tick of an API that carries out an action at once and returns none. */
  const UNSEEN: Tick := Tick([], NoFault, AtOnce)

  lemma NothingArrives(w: World)
    requires TickOf(w.left).events == []
    ensures Arrive(w).s == w.s
  {
  }

  /** A creation that grows the volume at its fourth call, which returns no action,
      crashes. */
  lemma GrowthUnseen(w: World, driver: Driver, req: CreateVolumeRequest, limit: nat)
    requires w.left == [QUIET, QUIET, QUIET, UNSEEN] && Inv(w.s)
    requires CreateRejects(driver, req).None? && Named(w.s, driver.region, req.name) == map[]
    requires req.snapshot.Some? && req.snapshot.value != NO_ID && req.snapshot.value in w.s.snapshots
    requires w.s.snapshots[req.snapshot.value] < GigaBytes(ExtractStorage(req.range).value)
    ensures Crashes(w, driver, req, limit)
  {
    NothingArrives(w);
    assert Arrive(w).left == [QUIET, QUIET, UNSEEN];
    NothingArrives(Arrive(w));
    assert Arrive(Arrive(w)).left == [QUIET, UNSEEN];
    NothingArrives(Arrive(Arrive(w)));
    var (made, at) := Making(Arrive(Arrive(w)), driver, req.name, ExtractStorage(req.range).value, req.snapshot);
    assert at.left == [UNSEEN];
    NothingArrives(at);
    NewNotPending(w.s, req.name, driver.region, w.s.snapshots[req.snapshot.value], TagsFor(driver));
  }

  /** An account with a snapshot of 1 GiB. */
  const SNAPSHOT_ONLY: State := State(map[], 0, {}, [], {}, map[1 := 1])

  /** A request for 2 GiB from that snapshot. */
  const GROWN_REQUEST: CreateVolumeRequest :=
    CreateVolumeRequest("data", [Capability(true, true)], Some(CapacityRange(2 * GIB, 0)), [], Some(1))

  /** A concrete creation that crashes, when the resize is carried out at once and no
      action is returned. */
  lemma CrashWitness(driver: Driver, limit: nat)
    ensures CreateOutcome(World(SNAPSHOT_ONLY, [QUIET, QUIET, QUIET, UNSEEN], [], 1), driver, GROWN_REQUEST, limit,
                          []).0 == Err(Crash)
  {
    var w := World(SNAPSHOT_ONLY, [QUIET, QUIET, QUIET, UNSEEN], [], 1);
    assert CreateRejects(driver, GROWN_REQUEST).None?;
    GrowthUnseen(w, driver, GROWN_REQUEST, limit);
    CrashExactly(w, driver, GROWN_REQUEST, limit, []);
  }

  lemma MakeKeepsInv(w: World, driver: Driver, name: string, size: int, snapshot: Option<Id>, limit: nat,
                     ctx: seq<bool>)
    requires Inv(w.s)
    ensures Inv(MakeOutcome(w, driver, name, size, snapshot, limit, ctx).1.s)
  {
    var (made, at) := Making(w, driver, name, size, snapshot);
    CreatingKeepsInv(w, name, driver.region, GigaBytes(size), TagsFor(driver), snapshot);
    if made.Got? {
      var (reply, next) := Acted(at, made.value.0, Resize(GigaBytes(size)), limit);
      ActedKeepsInv(at, made.value.0, Resize(GigaBytes(size)), limit);
      if reply.Got? && reply.value.Some? {
        WaitKeepsInv(next, ctx, reply.value.value.id);
      }
    }
  }

  lemma CreateKeepsInv(w: World, driver: Driver, req: CreateVolumeRequest, limit: nat, ctx: seq<bool>)
    requires Inv(w.s)
    ensures Inv(CreateOutcome(w, driver, req, limit, ctx).1.s)
  {
    if CreateRejects(driver, req).None? {
      var size := ExtractStorage(req.range).value;
      ArriveKeepsInv(w);
      ArriveKeepsInv(Arrive(w));
      MakeKeepsInv(Arrive(w), driver, req.name, size, req.snapshot, limit, ctx);
      MakeKeepsInv(Arrive(Arrive(w)), driver, req.name, size, req.snapshot, limit, ctx);
    }
  }

  // ---- With nobody else at work --------------------------------------------

  /** The state with the volume an accepted request to create makes. */
  ghost function WithVolume(s: State, driver: Driver, name: string, size: int, snapshot: Option<Id>): State {
    Next(s, NewVolume(name, driver.region, CreatedSize(s, GigaBytes(size), snapshot), TagsFor(driver)))
  }

  /** Making a volume is settled by the state: it fails if the API will not make the
      volume. If a resize is needed the answer says whether it has been carried out. */
  ghost predicate MakeSettled(before: State, driver: Driver, name: string, size: int, snapshot: Option<Id>,
                              queued: bool,
                              r: Result<Created>, after: State) {
    var id, g, made := before.issued + 1, GigaBytes(size), CreatedSize(before, GigaBytes(size), snapshot);
    var created := WithVolume(before, driver, name, size, snapshot);
    if made <= 0 then r == Err(Internal) && after == before
    else if g <= made then r == Ok(Created(id, size, snapshot)) && after == created
    else
      && (r == Ok(Created(id, size, snapshot)) || r == Err(Internal) || r == Err(Crash))
      && after == Next(created, if r == Err(Internal) then Start(id, Resize(g)) else Apply(id, Resize(g)))
      && (queued ==> r == Err(Internal))
  }

  lemma CalmGrow(w: World, id: Id, made: int, size: int, snapshot: Option<Id>, limit: nat, ctx: seq<bool>)
    requires Calm(w.left) && id in w.s.volumes && w.s.volumes[id].size == made < GigaBytes(size) && !Pending(w.s, id)
    ensures var (r, after) := GrowOutcome(w, id, made, size, snapshot, limit, ctx);
            var resize := Resize(GigaBytes(size));
            && Calm(after.left) && (w.left == [] ==> after.left == [])
            && (r == Ok(Created(id, size, snapshot)) || r == Err(Internal) || r == Err(Crash))
            && after.s == Next(w.s, if r == Err(Internal) then Start(id, resize) else Apply(id, resize))
            && (w.left == [] ==> r == Err(Internal))
  {
    CalmMeets(w.s, w.left);
    var (reply, at) := Acted(w, id, Resize(GigaBytes(size)), limit);
    if reply.Got? && reply.value.Some? {
      CalmWait(at, ctx, reply.value.value.id);
    }
  }

  lemma CalmMake(w: World, driver: Driver, name: string, size: int, snapshot: Option<Id>, limit: nat, ctx: seq<bool>)
    requires Calm(w.left) && Inv(w.s)
    ensures var (r, after) := MakeOutcome(w, driver, name, size, snapshot, limit, ctx);
            && Calm(after.left) && (w.left == [] ==> after.left == [])
            && MakeSettled(w.s, driver, name, size, snapshot, w.left == [], r, after.s)
  {
    CalmMeets(w.s, w.left);
    var (made, at) := Making(w, driver, name, size, snapshot);
    if made.Got? && made.value.1.size < GigaBytes(size) {
      NewNotPending(w.s, name, driver.region, made.value.1.size, TagsFor(driver));
      CalmGrow(at, made.value.0, made.value.1.size, size, snapshot, limit, ctx);
    }
  }

  /** A creation is settled by the state: by the volumes of the name, if there are any,
      which are left alone, and by the snapshot if there are none. */
  ghost predicate CreateSettled(before: State, driver: Driver, req: CreateVolumeRequest, queued: bool,
                                r: Result<Created>, after: State)
    requires CreateRejects(driver, req).None?
  {
    var size, found := ExtractStorage(req.range).value, Named(before, driver.region, req.name);
    if found != map[] then after == before && r == Existing(found, size)
    else FreshSettled(before, driver, req.name, size, req.snapshot, queued, r, after)
  }

  ghost predicate FreshSettled(before: State, driver: Driver, name: string, size: int, snapshot: Option<Id>,
                               queued: bool, r: Result<Created>, after: State)
  {
    if snapshot.Some? && (snapshot.value == NO_ID || snapshot.value !in before.snapshots)
    then after == before && r == Err(if snapshot.value == NO_ID then InvalidArgument else NotFound)
    else MakeSettled(before, driver, name, size, snapshot, queued, r, after)
  }

  lemma CalmFresh(w: World, driver: Driver, name: string, size: int, snapshot: Option<Id>, limit: nat, ctx: seq<bool>)
    requires Calm(w.left) && Inv(w.s)
    ensures var (r, after) := FreshOutcome(w, driver, name, size, snapshot, limit, ctx);
            && Calm(after.left) && (w.left == [] ==> after.left == [])
            && FreshSettled(w.s, driver, name, size, snapshot, w.left == [], r, after.s)
  {
    CalmMeets(w.s, w.left);
    CalmMake(if snapshot.None? then w else Arrive(w), driver, name, size, snapshot, limit, ctx);
  }

  lemma CalmCreate(w: World, driver: Driver, req: CreateVolumeRequest, limit: nat, ctx: seq<bool>)
    requires Calm(w.left) && Inv(w.s) && CreateRejects(driver, req).None?
    ensures var (r, after) := CreateOutcome(w, driver, req, limit, ctx);
            && Calm(after.left) && (w.left == [] ==> after.left == [])
            && CreateSettled(w.s, driver, req, w.left == [], r, after.s)
  {
    CalmMeets(w.s, w.left);
    CalmFresh(Arrive(w), driver, req.name, ExtractStorage(req.range).value, req.snapshot, limit, ctx);
  }

  /** A creation for a name that stands for one volume. */
  lemma CalmExisting(w: World, driver: Driver, req: CreateVolumeRequest, id: Id, limit: nat, ctx: seq<bool>)
    requires Calm(w.left) && CreateRejects(driver, req).None?
    requires id in w.s.volumes && Named(w.s, driver.region, req.name) == map[id := w.s.volumes[id]]
    ensures var size := ExtractStorage(req.range).value;
            CreateOutcome(w, driver, req, limit, ctx)
            == (if w.s.volumes[id].size * GIB == size then Ok(Created(id, size, None))
                else Err(AlreadyExists), Arrive(w))
    ensures Arrive(w).s == w.s && Arrive(w).asked == w.asked
  {
    CalmMeets(w.s, w.left);
    var found := Named(w.s, driver.region, req.name);
    assert id in found && |found| == 1;
    OnlyKey(found, id);
  }

  // ---- Retries -------------------------------------------------------------

  lemma NamedAfterCreate(s: State, name: string, region: string, size: int, tags: set<string>)
    requires VolumesInv(s) && 0 < size && Named(s, region, name) == map[]
    ensures Named(Next(s, NewVolume(name, region, size, tags)), region, name)
         == map[s.issued + 1 := Volume(name, region, size, [], tags)]
  {
    forall v | v in s.volumes
      ensures s.volumes[v].name != name || s.volumes[v].region != region
    {
      assert v !in Named(s, region, name);
    }
  }

  /** A volume that was provided at some instant and is still there has its name to
      itself, as long as names are unique. */
  lemma StillNamed(cloud: Cloud, from: int, id: Id, region: string, name: string, size: int)
    requires cloud.Valid() && UniqueNames(cloud.s) && id in cloud.s.volumes
    requires SometimeProvisioned(cloud.history, from, id, region, name, size)
    ensures Named(cloud.s, region, name) == map[id := cloud.s.volumes[id]]
  {
    var k :| 0 <= from <= k < |cloud.history| && Provides(cloud.history[k], id, region, name, size);
    RunKeepsName(cloud, k, |cloud.history| - 1, id);
    assert forall v :: v in Named(cloud.s, region, name) ==> v == id;
    assert id in Named(cloud.s, region, name);
  }

  /** A creation that has succeeded, whatever happened meanwhile and since, is repeated
      with nobody else at work: as long as the volume is there and names are unique,
      the retry returns the same volume and capacity if and only if what is stored is
      the size asked for, to the byte, and reports a conflict if not. Either way it
      leaves the store alone and asks for nothing. */
  method CreateAgain(cloud: Cloud, driver: Driver, req: CreateVolumeRequest, ctx: seq<bool>, ghost id: Id,
                     ghost from: int)
    returns (r: Result<Created>)
    requires cloud.Valid() && UniqueNames(cloud.s) && Calm(cloud.schedule)
    requires CreateRejects(driver, req).None? && id in cloud.s.volumes
    requires SometimeProvisioned(cloud.history, from, id, driver.region, req.name,
                                 GigaBytes(ExtractStorage(req.range).value))
    modifies cloud`s, cloud`history, cloud`log, cloud`schedule, cloud`requests
    ensures cloud.Valid() && cloud.s == old(cloud.s) && cloud.requests == old(cloud.requests)
    ensures (r, cloud.Now()) == CreateOutcome(old(cloud.Now()), driver, req, cloud.limit, ctx)
    ensures var size := ExtractStorage(req.range).value;
            r == if cloud.s.volumes[id].size * GIB == size then Ok(Created(id, size, None)) else Err(AlreadyExists)
  {
    StillNamed(cloud, from, id, driver.region, req.name, GigaBytes(ExtractStorage(req.range).value));
    CalmExisting(cloud.Now(), driver, req, id, cloud.limit, ctx);
    r := CreateVolume(cloud, driver, req, ctx);
  }

  /** What is stored for a volume that is made is the size asked for, or that of the
      snapshot if it is larger: to the byte if and only if the size is a multiple of one
      GiB and the snapshot no larger. */
  lemma StoredToTheByte(before: State, size: int, snapshot: Option<Id>)
    requires 0 < size && 0 < CreatedSize(before, GigaBytes(size), snapshot)
    ensures snapshot.Some? ==> snapshot.value in before.snapshots
    ensures Max(CreatedSize(before, GigaBytes(size), snapshot), GigaBytes(size)) * GIB == size <==>
              size % GIB == 0 && (snapshot.Some? ==> before.snapshots[snapshot.value] * GIB <= size)
  {
    DivGib(size);
  }

  /** What a creation that succeeds with nobody else at work leaves: one volume of the
      name, as large as asked for, or as the snapshot if that is larger. */
  lemma CreatedAlone(before: State, driver: Driver, req: CreateVolumeRequest, r: Result<Created>, after: State)
    requires Inv(before) && CreateRejects(driver, req).None? && Named(before, driver.region, req.name) == map[]
    requires CreateSettled(before, driver, req, false, r, after) && r.Ok?
    ensures var g := GigaBytes(ExtractStorage(req.range).value);
            && r.value.id in after.volumes && 0 < CreatedSize(before, g, req.snapshot)
            && after.volumes[r.value.id].size == Max(CreatedSize(before, g, req.snapshot), g)
            && Named(after, driver.region, req.name) == map[r.value.id := after.volumes[r.value.id]]
  {
    var size := ExtractStorage(req.range).value;
    var id, g, made := before.issued + 1, GigaBytes(size), CreatedSize(before, GigaBytes(size), req.snapshot);
    var created := WithVolume(before, driver, req.name, size, req.snapshot);
    NamedAfterCreate(before, req.name, driver.region, made, TagsFor(driver));
    NewNotPending(before, req.name, driver.region, made, TagsFor(driver));
    assert id in Named(created, driver.region, req.name);
    if made < g {
      StillAlone(created, after, driver.region, req.name, id);
    }
  }

  /** A name keeps standing for one volume when nothing but its size changes. */
  lemma StillAlone(a: State, b: State, region: string, name: string, id: Id)
    requires id in a.volumes && Named(a, region, name) == map[id := a.volumes[id]]
    requires id in b.volumes && b.volumes == a.volumes[id := b.volumes[id]]
    requires b.volumes[id].name == name && b.volumes[id].region == region
    ensures Named(b, region, name) == map[id := b.volumes[id]]
  {
    forall v | v in b.volumes && v != id
      ensures v !in Named(b, region, name)
    {
      assert v !in Named(a, region, name);
    }
  }

  /** Idempotence, exactly, with nobody else at work: a creation that has succeeded
      returns the same volume and capacity again if and only if the size is a multiple
      of one GiB and the snapshot, if there is one, no larger; it reports a conflict if
      not. A volume that was there before is returned again. The retry leaves the store
      alone and asks for nothing. */
  lemma CreateTwice(w: World, driver: Driver, req: CreateVolumeRequest, limit: nat, ctx: seq<bool>, again: seq<bool>)
    requires Calm(w.left) && Inv(w.s) && CreateOutcome(w, driver, req, limit, ctx).0.Ok?
    ensures CreateRejects(driver, req).None?
              && (req.snapshot.Some? && Named(w.s, driver.region, req.name) == map[] ==>
                  req.snapshot.value in w.s.snapshots)
    ensures var (first, next) := CreateOutcome(w, driver, req, limit, ctx);
            var (second, after) := CreateOutcome(next, driver, req, limit, again);
            var size := ExtractStorage(req.range).value;
            && after.s == next.s && after.asked == next.asked
            && second == if Named(w.s, driver.region, req.name) != map[] then first
                         else if && size % GIB == 0
                                 && (req.snapshot.Some? ==> w.s.snapshots[req.snapshot.value] * GIB <= size)
                         then Ok(Created(first.value.id, size, None))
                         else Err(AlreadyExists)
  {
    var (first, next) := CreateOutcome(w, driver, req, limit, ctx);
    CalmCreate(w, driver, req, limit, ctx);
    var found := Named(w.s, driver.region, req.name);
    if found == map[] {
      AcceptedGigaBytes(req.range);
      CreatedAlone(w.s, driver, req, first, next.s);
      StoredToTheByte(w.s, ExtractStorage(req.range).value, req.snapshot);
      CalmExisting(next, driver, req, first.value.id, limit, again);
    } else {
      CalmCreate(next, driver, req, limit, again);
      CalmMeets(next.s, next.left);
      CalmMeets(w.s, w.left);
    }
  }

  /** A creation without a snapshot, for a name that is free, succeeds, and its retry
      does if and only if the size is a multiple of one GiB. */
  lemma CreateTwiceFresh(w: World, driver: Driver, req: CreateVolumeRequest, limit: nat, ctx: seq<bool>,
                         again: seq<bool>)
    requires w.left == [] && Inv(w.s) && CreateRejects(driver, req).None? && req.snapshot.None?
    requires Named(w.s, driver.region, req.name) == map[] && GIB <= ExtractStorage(req.range).value
    ensures var (first, next) := CreateOutcome(w, driver, req, limit, ctx);
            var size := ExtractStorage(req.range).value;
            && first == Ok(Created(w.s.issued + 1, size, None))
            && CreateOutcome(next, driver, req, limit, again).0 == if size % GIB == 0 then first else Err(AlreadyExists)
  {
    CalmCreate(w, driver, req, limit, ctx);
    DivGib(ExtractStorage(req.range).value);
    CreateTwice(w, driver, req, limit, ctx, again);
  }

  const EMPTY: State := State(map[], 0, {}, [], {}, map[])

  /** A request for 1.5 GiB. */
  const ODD_REQUEST: CreateVolumeRequest :=
    CreateVolumeRequest("data", [Capability(true, true)], Some(CapacityRange(3 * GIB / 2, 0)), [], None)

  lemma OddRequest(driver: Driver)
    ensures Inv(EMPTY) && Named(EMPTY, driver.region, ODD_REQUEST.name) == map[]
    ensures CreateRejects(driver, ODD_REQUEST).None? && ExtractStorage(ODD_REQUEST.range).value == 3 * GIB / 2
    ensures GIB <= 3 * GIB / 2 && (3 * GIB / 2) % GIB != 0
  {
  }

  /** A concrete creation of 1.5 GiB that succeeds, and its retry, which reports a
      conflict. */
  lemma ConflictWitness(driver: Driver, limit: nat)
    ensures var (first, next) := CreateOutcome(World(EMPTY, [], [], 1), driver, ODD_REQUEST, limit, []);
            && first == Ok(Created(1, 3 * GIB / 2, None))
            && CreateOutcome(next, driver, ODD_REQUEST, limit, []).0 == Err(AlreadyExists)
  {
    OddRequest(driver);
    CreateTwiceFresh(World(EMPTY, [], [], 1), driver, ODD_REQUEST, limit, [], []);
  }

  /** The world in which the last action has completed. */
  ghost function LastFinished(w: World): World {
    if w.s.actions == [] then w else With(w, Finish(|w.s.actions| - 1))
  }

  /** A volume that is grown later keeps its name to itself. */
  lemma ResizedAlone(created: State, id: Id, g: int, region: string, name: string)
    requires id in created.volumes && !Pending(created, id) && created.volumes[id].size < g
    requires Named(created, region, name) == map[id := created.volumes[id]]
    ensures var started := Next(created, Start(id, Resize(g)));
            var after := Next(started, Finish(|created.actions|));
            && |started.actions| == |created.actions| + 1
            && id in after.volumes && after.volumes[id].size == g
            && Named(after, region, name) == map[id := after.volumes[id]]
  {
    assert id in Named(created, region, name);
    ResizeFinishes(created, id, g);
    StillAlone(created, Next(Next(created, Start(id, Resize(g))), Finish(|created.actions|)), region, name, id);
  }

  /** A creation from a smaller snapshot whose resize stays queued runs out of time; once
      the resize has completed, the name stands for the volume alone. */
  lemma LateResize(w: World, driver: Driver, req: CreateVolumeRequest, limit: nat, ctx: seq<bool>)
    requires w.left == [] && Inv(w.s) && CreateRejects(driver, req).None?
    requires Named(w.s, driver.region, req.name) == map[]
    requires req.snapshot.Some? && req.snapshot.value != NO_ID && req.snapshot.value in w.s.snapshots
    requires w.s.snapshots[req.snapshot.value] < GigaBytes(ExtractStorage(req.range).value)
    ensures var (first, next) := CreateOutcome(w, driver, req, limit, ctx);
            var id, finished := w.s.issued + 1, LastFinished(next).s;
            && first == Err(Internal) && next.left == []
            && id in finished.volumes && finished.volumes[id].size == GigaBytes(ExtractStorage(req.range).value)
            && Named(finished, driver.region, req.name) == map[id := finished.volumes[id]]
  {
    var size := ExtractStorage(req.range).value;
    var made := w.s.snapshots[req.snapshot.value];
    AcceptedGigaBytes(req.range);
    CalmCreate(w, driver, req, limit, ctx);
    NewNotPending(w.s, req.name, driver.region, made, TagsFor(driver));
    NamedAfterCreate(w.s, req.name, driver.region, made, TagsFor(driver));
    ResizedAlone(WithVolume(w.s, driver, req.name, size, req.snapshot), w.s.issued + 1, GigaBytes(size), driver.region,
                 req.name);
  }

  /** The retry then returns the volume, if and only if the size is a multiple of one GiB. */
  lemma CreateAfterLateResize(w: World, driver: Driver, req: CreateVolumeRequest, limit: nat, ctx: seq<bool>,
                              again: seq<bool>)
    requires w.left == [] && Inv(w.s) && CreateRejects(driver, req).None?
    requires Named(w.s, driver.region, req.name) == map[]
    requires req.snapshot.Some? && req.snapshot.value != NO_ID && req.snapshot.value in w.s.snapshots
    requires w.s.snapshots[req.snapshot.value] < GigaBytes(ExtractStorage(req.range).value)
    ensures var (first, next) := CreateOutcome(w, driver, req, limit, ctx);
            var (second, after) := CreateOutcome(LastFinished(next), driver, req, limit, again);
            var size := ExtractStorage(req.range).value;
            && first == Err(Internal)
            && second == (if size % GIB == 0 then Ok(Created(w.s.issued + 1, size, None)) else Err(AlreadyExists))
            && after.s == LastFinished(next).s && after.asked == next.asked
  {
    var next := CreateOutcome(w, driver, req, limit, ctx).1;
    LateResize(w, driver, req, limit, ctx);
    AcceptedGigaBytes(req.range);
    DivGib(ExtractStorage(req.range).value);
    CalmExisting(LastFinished(next), driver, req, w.s.issued + 1, limit, again);
  }
}
