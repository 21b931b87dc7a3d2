/** What the controller RPCs answer, written out in the fields of the request and of the
    state before. */
module ControllerLaws {
  import opened Wrappers
  import opened Capacity
  import opened CloudState
  import opened CloudApi
  import opened Waiting
  import opened Publishing
  import opened Expanding
  import opened Provisioning
  import opened ControllerRuns

  // ---- Actions -------------------------------------------------------------

  /** An action that is taken has done its work if it has finished, and is pending if it
      is queued; no other volume changes. */
  lemma TakenMeans(before: State, v: Id, kind: Kind, queued: bool, finished: bool, after: State)
    requires Admissible(before, v, kind) && Taken(before, v, kind, queued, finished, after)
    ensures v in after.volumes && after.volumes == before.volumes[v := after.volumes[v]]
    ensures after.volumes[v].tags == before.volumes[v].tags
    ensures queued ==> !finished && Pending(after, v)
    ensures finished ==>
              match kind
              case Attach(d) => after.volumes[v].droplets == before.volumes[v].droplets + [d]
              case Detach(d) => d !in after.volumes[v].droplets
              case Resize(g) => after.volumes[v].size == g
  {
    if after == Next(before, Start(v, kind)) {
      assert after.actions[|before.actions|] == Action(v, kind, InProgress);
    }
  }

  // ---- ControllerPublishVolume ---------------------------------------------

  /** What is turned down before any call. */
  lemma PublishTurnsDown(w: World, driver: Driver, req: PublishRequest, limit: nat, ctx: seq<bool>)
    ensures req.volume == NO_ID || req.droplet.None? || !req.capability ==>
              PublishOutcome(w, driver, req, limit, ctx) == (Err(InvalidArgument), w)
    ensures req.volume != NO_ID && req.droplet.Some? && req.capability && req.readonly ==>
              PublishOutcome(w, driver, req, limit, ctx) == (Err(AlreadyExists), w)
  {
  }

  predicate PublishAccepted(req: PublishRequest) {
    req.volume != NO_ID && req.droplet.Some? && req.capability && !req.readonly
  }

  /** With nobody else at work: a volume or droplet that is missing. */
  lemma PublishMissing(w: World, driver: Driver, req: PublishRequest, limit: nat, ctx: seq<bool>)
    requires Calm(w.left) && Inv(w.s) && PublishAccepted(req)
    ensures var (r, after) := PublishOutcome(w, driver, req, limit, ctx);
            && (req.volume !in w.s.volumes ==> r == Err(NotFound) && after.s == w.s)
            && (req.volume in w.s.volumes && req.droplet.value !in w.s.droplets ==>
                  r == Err(if req.droplet.value < 1 then Unknown else NotFound))
  {
    CalmPublish(w, driver, req, limit, ctx);
  }

  /** A volume and a droplet that are there. */
  predicate BothThere(s: State, v: Id, droplet: Option<int>) {
    droplet.Some? && v in s.volumes && droplet.value in s.droplets
  }

  /** A volume that is attached already: to this droplet, or to another one. */
  lemma PublishAlreadyAttached(w: World, driver: Driver, req: PublishRequest, limit: nat, ctx: seq<bool>)
    requires Calm(w.left) && Inv(w.s) && PublishAccepted(req) && BothThere(w.s, req.volume, req.droplet)
    requires w.s.volumes[req.volume].droplets != []
    ensures var (r, after) := PublishOutcome(w, driver, req, limit, ctx);
            && r == (if req.droplet.value in w.s.volumes[req.volume].droplets then Ok(w.s.volumes[req.volume].name)
                     else Err(FailedPrecondition))
            && after.s.actions == w.s.actions && after.s.volumes.Keys == w.s.volumes.Keys
            && after.s.volumes[req.volume].droplets == w.s.volumes[req.volume].droplets
  {
    CalmPublish(w, driver, req, limit, ctx);
    CalmCheck(w, driver, req.volume, req.droplet.value);
  }

  /** A volume that is not attached: what keeps it from being attached, and what becomes
      of it if nothing does. */
  lemma PublishUnattached(w: World, driver: Driver, req: PublishRequest, limit: nat, ctx: seq<bool>)
    requires Calm(w.left) && Inv(w.s) && PublishAccepted(req) && BothThere(w.s, req.volume, req.droplet)
    requires w.s.volumes[req.volume].droplets == []
    ensures var (r, after) := PublishOutcome(w, driver, req, limit, ctx);
            var v, d := req.volume, req.droplet.value;
            && v in after.s.volumes
            && if Pending(w.s, v) || Busy(w.s, d) then r == Err(Aborted) && after.s.actions == w.s.actions
               else if limit <= |AttachedTo(w.s, d)| then r == Err(ResourceExhausted) && after.s.actions == w.s.actions
               else
                 && (r == Ok(w.s.volumes[v].name) || r == Err(Internal))
                 && (r.Ok? ==> after.s.volumes[v].droplets == [d])
                 && (w.left == [] ==> r == Err(Internal) && Pending(after.s, v))
  {
    CalmPublish(w, driver, req, limit, ctx);
    CalmCheck(w, driver, req.volume, req.droplet.value);
    var v, d, tagged := req.volume, req.droplet.value, TaggedBy(driver.doTag, w.s, req.volume);
    NotPendingTagged(w.s, v, driver.doTag);
    if Refusal(w.s, v, Attach(d), limit).None? {
      var (r, after) := PublishOutcome(w, driver, req, limit, ctx);
      TakenMeans(tagged, v, Attach(d), w.left == [], r.Ok?, after.s);
    }
  }

  lemma NotPendingTagged(s: State, v: Id, tag: string)
    requires v in s.volumes
    ensures Pending(TaggedBy(tag, s, v), v) == Pending(s, v)
    ensures TaggedBy(tag, s, v).volumes[v].droplets == s.volumes[v].droplets
    ensures TaggedBy(tag, s, v).droplets == s.droplets && TaggedBy(tag, s, v).actions == s.actions
  {
  }

  /** The volume carries the driver's tag afterwards, and the other tags it had; no other
      volume changes. */
  lemma PublishTags(w: World, driver: Driver, req: PublishRequest, limit: nat, ctx: seq<bool>)
    requires Calm(w.left) && Inv(w.s) && PublishAccepted(req) && req.volume in w.s.volumes
    ensures var after := PublishOutcome(w, driver, req, limit, ctx).1.s;
            && after.volumes.Keys == w.s.volumes.Keys
            && after.volumes[req.volume].tags
               == w.s.volumes[req.volume].tags + (if driver.doTag == "" then {} else {driver.doTag})
            && forall u :: u in w.s.volumes && u != req.volume ==> after.volumes[u] == w.s.volumes[u]
  {
    CalmPublish(w, driver, req, limit, ctx);
    var v, d, tagged := req.volume, req.droplet.value, TaggedBy(driver.doTag, w.s, req.volume);
    NotPendingTagged(w.s, v, driver.doTag);
    if Refusal(w.s, v, Attach(d), limit).None? {
      var (r, after) := PublishOutcome(w, driver, req, limit, ctx);
      TakenMeans(tagged, v, Attach(d), w.left == [], r.Ok?, after.s);
    }
  }

  // ---- ControllerUnpublishVolume -------------------------------------------

  lemma UnpublishTurnsDown(w: World, req: UnpublishRequest, limit: nat, ctx: seq<bool>)
    ensures req.volume == NO_ID || req.droplet.None? ==>
              UnpublishOutcome(w, req, limit, ctx) == (Err(InvalidArgument), w)
  {
  }

  /** With nobody else at work: a volume or droplet that is gone counts as detached. */
  lemma UnpublishMissing(w: World, req: UnpublishRequest, limit: nat, ctx: seq<bool>)
    requires Calm(w.left) && Inv(w.s) && req.volume != NO_ID && req.droplet.Some? && 0 < req.droplet.value
    requires req.volume !in w.s.volumes || req.droplet.value !in w.s.droplets
    ensures var (r, after) := UnpublishOutcome(w, req, limit, ctx);
            r == Ok(()) && after.s == w.s && after.asked == w.asked
  {
    CalmUnpublish(w, req, limit, ctx);
    CalmMeets(w.s, w.left);
    CalmMeets(Arrive(w).s, Arrive(w).left);
  }

  /** For a volume and a droplet that are there: a pending action on the volume or on the
      droplet is a reason to try later; a volume that is not attached to the droplet counts
      as detached; one that is becomes detached, if the wait sees it. */
  lemma UnpublishAnswers(w: World, req: UnpublishRequest, limit: nat, ctx: seq<bool>)
    requires Calm(w.left) && Inv(w.s) && req.volume != NO_ID && BothThere(w.s, req.volume, req.droplet)
    ensures var (r, after) := UnpublishOutcome(w, req, limit, ctx);
            var v, d := req.volume, req.droplet.value;
            && v in after.s.volumes
            && if Pending(w.s, v) || Busy(w.s, d) then r == Err(Aborted) && after.s == w.s
               else if d !in w.s.volumes[v].droplets then r == Ok(()) && after.s == w.s
               else
                 && (r == Ok(()) || r == Err(Internal))
                 && (r.Ok? ==> d !in after.s.volumes[v].droplets)
                 && (w.left == [] ==> r == Err(Internal) && Pending(after.s, v))
  {
    CalmUnpublish(w, req, limit, ctx);
    var v, d := req.volume, req.droplet.value;
    if Refusal(w.s, v, Detach(d), limit).None? {
      var (r, after) := UnpublishOutcome(w, req, limit, ctx);
      TakenMeans(w.s, v, Detach(d), w.left == [], r.Ok?, after.s);
    }
  }

  /** Whatever happened during an unpublish and since: once volume and droplet are apart
      and nothing is pending on either, the retry succeeds and leaves the state alone. */
  lemma UnpublishRetry(w: World, req: UnpublishRequest, limit: nat, ctx: seq<bool>, since: seq<Event>, again: seq<bool>)
    requires Inv(w.s) && req.volume != NO_ID && req.droplet.Some? && 0 < req.droplet.value
    requires var now := Later(UnpublishOutcome(w, req, limit, ctx).1, since);
             var v, d := req.volume, req.droplet.value;
             && Calm(now.left) && !Pending(now.s, v) && !Busy(now.s, d)
             && (v in now.s.volumes ==> d !in now.s.volumes[v].droplets)
    ensures var now := Later(UnpublishOutcome(w, req, limit, ctx).1, since);
            var (r, after) := UnpublishOutcome(now, req, limit, again);
            r == Ok(()) && after.s == now.s
  {
    var left := UnpublishOutcome(w, req, limit, ctx).1;
    var now := Later(left, since);
    UnpublishKeepsInv(w, req, limit, ctx);
    EventsKeepInv(left.s, since);
    if BothThere(now.s, req.volume, req.droplet) {
      UnpublishAnswers(now, req, limit, again);
    } else {
      UnpublishMissing(now, req, limit, again);
    }
  }

  // ---- ControllerExpandVolume ----------------------------------------------

  lemma ExpandTurnsDown(w: World, req: ExpandRequest, limit: nat, ctx: seq<bool>)
    ensures req.volume == NO_ID ==> ExpandOutcome(w, req, limit, ctx) == (Err(InvalidArgument), w)
    ensures Calm(w.left) && req.volume != NO_ID ==>
              && (req.volume !in w.s.volumes ==> ExpandOutcome(w, req, limit, ctx).0 == Err(Internal))
              && (req.volume in w.s.volumes && ExtractStorage(req.range).Err? ==>
                    ExpandOutcome(w, req, limit, ctx).0 == Err(OutOfRange))
  {
    if Calm(w.left) {
      CalmExpand(w, req, limit, ctx);
    }
  }

  /** With nobody else at work: a volume that is large enough is reported as it is; a
      smaller one grows to the whole GiB asked for, unless an action is pending. */
  lemma ExpandAnswers(w: World, req: ExpandRequest, limit: nat, ctx: seq<bool>)
    requires Calm(w.left) && req.volume != NO_ID && req.volume in w.s.volumes && ExtractStorage(req.range).Ok?
    ensures var (r, after) := ExpandOutcome(w, req, limit, ctx);
            var size, g := w.s.volumes[req.volume].size, ExtractStorage(req.range).value / 0x4000_0000;
            && req.volume in after.s.volumes
            && if g <= size then r == Ok(Expanded(size * 0x4000_0000, true)) && after.s == w.s
               else if Pending(w.s, req.volume) then r == Err(Internal) && after.s == w.s
               else
                 && (r == Ok(Expanded(g * 0x4000_0000, !req.block)) || r == Err(Internal))
                 && (r.Ok? ==> after.s.volumes[req.volume].size == g)
                 && (w.left == [] ==> r == Err(Internal) && Pending(after.s, req.volume))
  {
    CalmExpand(w, req, limit, ctx);
    if CanGrow(w.s, req) {
      var (r, after) := ExpandOutcome(w, req, limit, ctx);
      TakenMeans(w.s, req.volume, Resize(GigaBytes(ExtractStorage(req.range).value)), w.left == [], r.Ok?, after.s);
    }
  }

  // ---- CreateVolume --------------------------------------------------------

  predicate WellFormed(req: CreateVolumeRequest) {
    && req.name != "" && req.capabilities != []
    && forall c :: c in req.capabilities ==> c.singleNodeWriter && c.typed
  }

  predicate InRegion(driver: Driver, req: CreateVolumeRequest) {
    forall region :: region in req.regions ==> region == driver.region
  }

  /** What is turned down before any call, and with what; a success passes all checks. */
  lemma CreateTurnsDown(w: World, driver: Driver, req: CreateVolumeRequest, limit: nat, ctx: seq<bool>)
    ensures var (r, after) := CreateOutcome(w, driver, req, limit, ctx);
            && (!WellFormed(req) ==> r == Err(InvalidArgument) && after == w)
            && (WellFormed(req) && ExtractStorage(req.range).Err? ==> r == Err(OutOfRange) && after == w)
            && (WellFormed(req) && ExtractStorage(req.range).Ok? && !InRegion(driver, req) ==>
                  r == Err(ResourceExhausted) && after == w)
            && (r.Ok? ==> WellFormed(req) && ExtractStorage(req.range).Ok? && InRegion(driver, req))
  {
  }

  predicate CreateAccepted(driver: Driver, req: CreateVolumeRequest) {
    WellFormed(req) && ExtractStorage(req.range).Ok? && InRegion(driver, req)
  }

  predicate HasName(s: State, v: Id, region: string, name: string) {
    v in s.volumes && s.volumes[v].region == region && s.volumes[v].name == name
  }

  /** With nobody else at work, for a name that exists in the region: two volumes of the
      name are an error, and one is returned if it has the size, to the byte. */
  lemma CreateExisting(w: World, driver: Driver, req: CreateVolumeRequest, limit: nat, ctx: seq<bool>, v: Id)
    requires Calm(w.left) && CreateAccepted(driver, req) && HasName(w.s, v, driver.region, req.name)
    ensures var (r, after) := CreateOutcome(w, driver, req, limit, ctx);
            var size := ExtractStorage(req.range).value;
            && after.s == w.s && after.asked == w.asked
            && r == if exists u :: HasName(w.s, u, driver.region, req.name) && u != v then Err(Unknown)
                    else if w.s.volumes[v].size * 0x4000_0000 == size then Ok(Created(v, size, None))
                    else Err(AlreadyExists)
  {
    CalmMeets(w.s, w.left);
    var found := Named(w.s, driver.region, req.name);
    assert v in found;
    if exists u :: HasName(w.s, u, driver.region, req.name) && u != v {
      var u :| HasName(w.s, u, driver.region, req.name) && u != v;
      TwoKeys(found, u, v);
    } else {
      forall u
        ensures u in found <==> u == v
      {
        assert HasName(w.s, u, driver.region, req.name) <==> u in found;
      }
      assert found == map[v := w.s.volumes[v]];
      CalmExisting(w, driver, req, v, limit, ctx);
    }
  }

  lemma TwoKeys(found: map<Id, Volume>, u: Id, v: Id)
    requires u in found && v in found && u != v
    ensures 1 < |found|
  {
    if |found| <= 1 {
      OnlyKey(found, u);
    }
  }

  /** For a name that does not exist there: a snapshot must have an identifier and exist. */
  lemma CreateFromMissing(w: World, driver: Driver, req: CreateVolumeRequest, limit: nat, ctx: seq<bool>)
    requires Calm(w.left) && Inv(w.s) && CreateAccepted(driver, req) && req.snapshot.Some?
    requires forall v :: v in w.s.volumes ==> !HasName(w.s, v, driver.region, req.name)
    ensures var (r, after) := CreateOutcome(w, driver, req, limit, ctx);
            && (req.snapshot.value == NO_ID ==> r == Err(InvalidArgument) && after.s == w.s)
            && (req.snapshot.value != NO_ID && req.snapshot.value !in w.s.snapshots ==>
                  r == Err(NotFound) && after.s == w.s)
  {
    NoName(w.s, driver.region, req.name);
    CalmCreate(w, driver, req, limit, ctx);
  }

  lemma NoName(s: State, region: string, name: string)
    requires forall v :: v in s.volumes ==> !HasName(s, v, region, name)
    ensures Named(s, region, name) == map[]
  {
    assert forall v :: v in Named(s, region, name) ==> HasName(s, v, region, name);
  }

  /** The volume a creation makes. */
  function NewVolumeOf(driver: Driver, req: CreateVolumeRequest, size: int): Volume {
    Volume(req.name, driver.region, size, [], if driver.doTag == "" then {} else {driver.doTag})
  }

  /** Without a snapshot the volume is made with the whole GiB asked for, under the next
      ID; nothing can be made of less than one. */
  lemma CreateNew(w: World, driver: Driver, req: CreateVolumeRequest, limit: nat, ctx: seq<bool>)
    requires Calm(w.left) && Inv(w.s) && CreateAccepted(driver, req) && req.snapshot.None?
    requires forall v :: v in w.s.volumes ==> !HasName(w.s, v, driver.region, req.name)
    ensures var (r, after) := CreateOutcome(w, driver, req, limit, ctx);
            var bytes, id := ExtractStorage(req.range).value, w.s.issued + 1;
            if bytes < 0x4000_0000 then r == Err(Internal) && after.s == w.s
            else
              && r == Ok(Created(id, bytes, None))
              && after.s.volumes == w.s.volumes[id := NewVolumeOf(driver, req, bytes / 0x4000_0000)]
              && after.s.actions == w.s.actions
  {
    NoName(w.s, driver.region, req.name);
    AcceptedGigaBytes(req.range);
    CalmCreate(w, driver, req, limit, ctx);
  }

  /** A creation from a snapshot that exists, for a name that does not. */
  predicate FromSnapshot(s: State, driver: Driver, req: CreateVolumeRequest) {
    && CreateAccepted(driver, req)
    && req.snapshot.Some? && req.snapshot.value != NO_ID && req.snapshot.value in s.snapshots
    && forall v :: v in s.volumes ==> !HasName(s, v, driver.region, req.name)
  }

  /** From a snapshot that is large enough the volume is made as large as that. */
  lemma CreateFromLarger(w: World, driver: Driver, req: CreateVolumeRequest, limit: nat, ctx: seq<bool>)
    requires Calm(w.left) && Inv(w.s) && FromSnapshot(w.s, driver, req)
    requires 0x4000_0000 <= ExtractStorage(req.range).value
    requires ExtractStorage(req.range).value / 0x4000_0000 <= w.s.snapshots[req.snapshot.value]
    ensures var (r, after) := CreateOutcome(w, driver, req, limit, ctx);
            var id, made := w.s.issued + 1, w.s.snapshots[req.snapshot.value];
            && r == Ok(Created(id, ExtractStorage(req.range).value, req.snapshot))
            && after.s.volumes == w.s.volumes[id := NewVolumeOf(driver, req, made)]
            && after.s.actions == w.s.actions
  {
    NoName(w.s, driver.region, req.name);
    CalmCreate(w, driver, req, limit, ctx);
  }

  /** From a smaller one it is made, and grown: it has the size asked for then, or is to
      get it, or the handler crashes. */
  lemma CreateFromSmaller(w: World, driver: Driver, req: CreateVolumeRequest, limit: nat, ctx: seq<bool>)
    requires Calm(w.left) && Inv(w.s) && FromSnapshot(w.s, driver, req)
    requires w.s.snapshots[req.snapshot.value] < ExtractStorage(req.range).value / 0x4000_0000
    ensures var (r, after) := CreateOutcome(w, driver, req, limit, ctx);
            var bytes, id, made := ExtractStorage(req.range).value, w.s.issued + 1, w.s.snapshots[req.snapshot.value];
            var size := if r == Err(Internal) then made else bytes / 0x4000_0000;
            && (r == Ok(Created(id, bytes, req.snapshot)) || r == Err(Internal) || r == Err(Crash))
            && after.s.volumes == w.s.volumes[id := NewVolumeOf(driver, req, size)]
            && (r == Err(Internal) ==> Pending(after.s, id))
            && (w.left == [] ==> r == Err(Internal))
  {
    NoName(w.s, driver.region, req.name);
    CalmCreate(w, driver, req, limit, ctx);
    NewNotPending(w.s, req.name, driver.region, w.s.snapshots[req.snapshot.value], TagsFor(driver));
    Grown(WithVolume(w.s, driver, req.name, ExtractStorage(req.range).value, req.snapshot), w.s.issued + 1,
          GigaBytes(ExtractStorage(req.range).value));
  }

  /** A volume without a pending action that is to grow, now or later. */
  lemma Grown(s: State, v: Id, g: int)
    requires v in s.volumes && !Pending(s, v) && s.volumes[v].size < g
    ensures var now, later := Next(s, Apply(v, Resize(g))), Next(s, Start(v, Resize(g)));
            && now.volumes == s.volumes[v := s.volumes[v].(size := g)]
            && later.volumes == s.volumes && Pending(later, v)
  {
    assert Next(s, Start(v, Resize(g))).actions[|s.actions|] == Action(v, Resize(g), InProgress);
  }

  // ---- Calls without a reply -----------------------------------------------

  /** When the first call gets no reply, nothing is asked for, and the answer is an error. */
  lemma FirstCallLost(w: World, driver: Driver, limit: nat, ctx: seq<bool>, publish: PublishRequest,
                      unpublish: UnpublishRequest, expand: ExpandRequest, create: CreateVolumeRequest)
    requires NoReply(TickOf(w.left))
    requires PublishAccepted(publish) && CreateAccepted(driver, create)
    requires unpublish.volume != NO_ID && unpublish.droplet.Some? && expand.volume != NO_ID
    ensures PublishOutcome(w, driver, publish, limit, ctx) == (Err(Unknown), Arrive(w))
    ensures UnpublishOutcome(w, unpublish, limit, ctx) == (Err(Unknown), Arrive(w))
    ensures ExpandOutcome(w, expand, limit, ctx) == (Err(Internal), Arrive(w))
    ensures CreateOutcome(w, driver, create, limit, ctx) == (Err(Internal), Arrive(w))
    ensures Arrive(w).asked == w.asked
  {
  }

  /** When tagging gets no reply, the tag is not created, and the publish fails. */
  lemma TagLost(w: World, driver: Driver, req: PublishRequest, limit: nat, ctx: seq<bool>)
    requires PublishAccepted(req) && !NoReply(TickOf(w.left)) && req.volume in Arrive(w).s.volumes
    requires driver.doTag != "" && driver.doTag !in Arrive(w).s.volumes[req.volume].tags
    requires NoReply(TickOf(Arrive(w).left))
    ensures var (r, after) := PublishOutcome(w, driver, req, limit, ctx);
            r == Err(Internal) && after.asked == w.asked + [TagRequest(req.volume, driver.doTag)]
  {
  }

  /** When the tag does not exist and its creation gets no reply, tagging is not repeated,
      and the publish fails. */
  lemma TagCreationLost(w: World, driver: Driver, req: PublishRequest, limit: nat, ctx: seq<bool>)
    requires PublishAccepted(req) && !NoReply(TickOf(w.left)) && req.volume in Arrive(w).s.volumes
    requires driver.doTag != "" && driver.doTag !in Arrive(w).s.volumes[req.volume].tags
    requires !NoReply(TickOf(Arrive(w).left)) && driver.doTag !in Arrive(Arrive(w)).s.tags
    requires NoReply(TickOf(Arrive(Arrive(w)).left))
    ensures var (r, after) := PublishOutcome(w, driver, req, limit, ctx);
            && r == Err(Internal)
            && after.asked == w.asked + [TagRequest(req.volume, driver.doTag), CreateTagRequest(driver.doTag)]
  {
  }

  /** When the look-up of the droplet gets no reply, no action is asked for. */
  lemma DropletLost(w: World, driver: Driver, limit: nat, ctx: seq<bool>, publish: PublishRequest,
                    unpublish: UnpublishRequest)
    requires PublishAccepted(publish) && unpublish.volume == publish.volume && unpublish.droplet == publish.droplet
    requires !NoReply(TickOf(w.left)) && publish.volume in Arrive(w).s.volumes && driver.doTag == ""
    requires NoReply(TickOf(Arrive(w).left))
    ensures var (r, after) := PublishOutcome(w, driver, publish, limit, ctx);
            r == Err(Unknown) && after.asked == w.asked
    ensures var (r, after) := UnpublishOutcome(w, unpublish, limit, ctx);
            r == Err(Unknown) && after.asked == w.asked
  {
  }

  /** The world that the request for an action arrives in, when the look-ups of volume and
      droplet before it have been answered. */
  ghost predicate ReachesAction(w: World, v: Id, d: int) {
    && !NoReply(TickOf(w.left)) && v in Arrive(w).s.volumes
    && 0 < d && !NoReply(TickOf(Arrive(w).left)) && d in Arrive(Arrive(w)).s.droplets
  }

  /** What others have done between the look-up of a volume without attachments and the
      request to attach it decides how that is answered. */
  lemma PublishRaces(w: World, driver: Driver, req: PublishRequest, limit: nat, ctx: seq<bool>)
    requires PublishAccepted(req) && ReachesAction(w, req.volume, req.droplet.value) && driver.doTag == ""
    requires Arrive(w).s.volumes[req.volume].droplets == []
    ensures var r := PublishOutcome(w, driver, req, limit, ctx).0;
            var v, d, last := req.volume, req.droplet.value, Arrive(Arrive(w));
            var s := Arrive(last).s;
            && (NoReply(TickOf(last.left)) ==> r == Err(Unknown))
            && (!NoReply(TickOf(last.left)) ==>
                  if v !in s.volumes || d !in s.droplets then r == Err(Unknown)
                  else if d in s.volumes[v].droplets then r == Ok(Arrive(w).s.volumes[v].name)
                  else if Pending(s, v) || Busy(s, d) then r == Err(Aborted)
                  else if s.volumes[v].droplets != [] then r == Err(Unknown)
                  else if limit <= |AttachedTo(s, d)| then r == Err(ResourceExhausted)
                  else TickOf(last.left).speed == AtOnce ==> r == Ok(Arrive(w).s.volumes[v].name))
  {
  }

  /** The same for the request to detach. */
  lemma UnpublishRaces(w: World, req: UnpublishRequest, limit: nat, ctx: seq<bool>)
    requires req.volume != NO_ID && req.droplet.Some? && ReachesAction(w, req.volume, req.droplet.value)
    ensures var r := UnpublishOutcome(w, req, limit, ctx).0;
            var v, d, last := req.volume, req.droplet.value, Arrive(Arrive(w));
            var s := Arrive(last).s;
            && (NoReply(TickOf(last.left)) ==> r == Err(Unknown))
            && (!NoReply(TickOf(last.left)) ==>
                  if v !in s.volumes then r == Ok(())
                  else if Pending(s, v) || Busy(s, d) then r == Err(Aborted)
                  else d !in s.volumes[v].droplets || TickOf(last.left).speed == AtOnce ==> r == Ok(()))
  {
  }

  /** A resize that is refused or gets no reply is an internal error; one that is carried
      out without an action to wait for is a success. */
  lemma ExpandRaces(w: World, req: ExpandRequest, limit: nat, ctx: seq<bool>)
    requires req.volume != NO_ID && !NoReply(TickOf(w.left)) && req.volume in Arrive(w).s.volumes
    requires ExtractStorage(req.range).Ok?
    requires Arrive(w).s.volumes[req.volume].size < ExtractStorage(req.range).value / 0x4000_0000
    ensures var g, last := ExtractStorage(req.range).value / 0x4000_0000, Arrive(w);
            var s := Arrive(last).s;
            var refused := req.volume !in s.volumes || Pending(s, req.volume) || g <= s.volumes[req.volume].size;
            var r := ExpandOutcome(w, req, limit, ctx).0;
            if NoReply(TickOf(last.left)) || refused then r == Err(Internal)
            else TickOf(last.left).speed == AtOnce ==> r == Ok(Expanded(g * 0x4000_0000, !req.block))
  {
  }

  /** A request for a volume that gets no reply is an internal error; one that exceeds the
      limit of the account is not. */
  lemma CreationRefused(w: World, driver: Driver, req: CreateVolumeRequest, limit: nat, ctx: seq<bool>)
    requires CreateAccepted(driver, req) && req.snapshot.None? && !NoReply(TickOf(w.left))
    requires forall v :: v in Arrive(w).s.volumes ==> !HasName(Arrive(w).s, v, driver.region, req.name)
    ensures var fault := TickOf(Arrive(w).left).fault;
            var r := CreateOutcome(w, driver, req, limit, ctx).0;
            && (fault == OverLimit ==> r == Err(ResourceExhausted))
            && (fault == Unreachable || fault == ReplyLost ==> r == Err(Internal))
  {
    NoName(Arrive(w).s, driver.region, req.name);
  }

  /** A look-up of the snapshot that gets no reply: nothing is asked for. */
  lemma SnapshotLost(w: World, driver: Driver, req: CreateVolumeRequest, limit: nat, ctx: seq<bool>)
    requires CreateAccepted(driver, req) && req.snapshot.Some? && req.snapshot.value != NO_ID
    requires !NoReply(TickOf(w.left)) && NoReply(TickOf(Arrive(w).left))
    requires forall v :: v in Arrive(w).s.volumes ==> !HasName(Arrive(w).s, v, driver.region, req.name)
    ensures var (r, after) := CreateOutcome(w, driver, req, limit, ctx); r == Err(Unknown) && after.asked == w.asked
  {
    NoName(Arrive(w).s, driver.region, req.name);
  }

  /** The request that makes a volume names what was asked for; a resize that gets no reply
      after it is an internal error. */
  lemma CreationAsks(w: World, driver: Driver, req: CreateVolumeRequest, limit: nat, ctx: seq<bool>)
    requires FromSnapshot(Arrive(w).s, driver, req) && !NoReply(TickOf(w.left))
    requires var at := Arrive(w); !NoReply(TickOf(at.left)) && req.snapshot.value in Arrive(at).s.snapshots
    requires var at := Arrive(Arrive(w)); TickOf(at.left).fault == NoFault && Inv(at.s)
    ensures var (r, after) := CreateOutcome(w, driver, req, limit, ctx);
            var g := ExtractStorage(req.range).value / 0x4000_0000;
            var tags := if driver.doTag == "" then {} else {driver.doTag};
            var made := Arrive(Arrive(Arrive(w)));
            && w.asked + [CreateRequest(req.name, driver.region, g, tags, req.snapshot)] <= after.asked
            && (req.snapshot.value in made.s.snapshots && NoReply(TickOf(made.left)) ==>
                  1 <= made.s.snapshots[req.snapshot.value] < g ==> r == Err(Internal))
  {
    NoName(Arrive(w).s, driver.region, req.name);
    AcceptedGigaBytes(req.range);
    MakeAsks(Arrive(Arrive(w)), driver, req.name, ExtractStorage(req.range).value, req.snapshot, limit, ctx);
  }

  // ---- Runs ----------------------------------------------------------------

  /** What it comes to that every volume served carries the tag. */
  lemma WhatIsTagged(records: seq<Record>, s: State, tag: string, e: Record)
    requires AllTagged(records, s, tag) && e in records
    ensures e.call.Publish? && e.outcome.PublishReply? && e.outcome.publish.Ok? ==>
              var v := e.call.publish.volume;
              v in s.volumes ==> tag in s.volumes[v].tags
    ensures e.call.Create? && e.outcome.CreateReply? && e.outcome.create.Ok? && |e.before.asked| < |e.after.asked| ==>
              var v := e.outcome.create.value.id;
              v in s.volumes ==> tag in s.volumes[v].tags
  {
    assert RecordTagged(e, s, tag);
  }
}
