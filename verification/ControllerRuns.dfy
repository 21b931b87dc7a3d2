/** What holds over runs of controller RPCs, whatever else happens meanwhile. */
module ControllerRuns {
  import opened Wrappers
  import opened CloudState
  import opened CloudApi
  import opened Waiting
  import opened Capacity
  import opened Publishing
  import opened Expanding
  import opened Provisioning

  /** One RPC, with the polls its context has room for. */
  datatype Call =
    | Publish(publish: PublishRequest, ctx: seq<bool>)
    | Unpublish(unpublish: UnpublishRequest, ctx: seq<bool>)
    | Expand(expand: ExpandRequest, ctx: seq<bool>)
    | Create(create: CreateVolumeRequest, ctx: seq<bool>)

  /** Its reply. */
  datatype Outcome =
    | PublishReply(publish: Result<string>)
    | UnpublishReply(unpublish: Result<()>)
    | ExpandReply(expand: Result<Expanded>)
    | CreateReply(create: Result<Created>)

  /** The outcome of a call and the world it leaves. */
  ghost function OutcomeOf(driver: Driver, w: World, call: Call, limit: nat): (Outcome, World) {
    match call
    case Publish(req, ctx) => var (r, after) := PublishOutcome(w, driver, req, limit, ctx); (PublishReply(r), after)
    case Unpublish(req, ctx) => var (r, after) := UnpublishOutcome(w, req, limit, ctx); (UnpublishReply(r), after)
    case Expand(req, ctx) => var (r, after) := ExpandOutcome(w, req, limit, ctx); (ExpandReply(r), after)
    case Create(req, ctx) => var (r, after) := CreateOutcome(w, driver, req, limit, ctx); (CreateReply(r), after)
  }

  /** A call that was made, with its reply and the worlds before and after it. */
  datatype Record = Record(call: Call, outcome: Outcome, before: World, after: World)

  ghost function RecordOf(driver: Driver, w: World, call: Call, limit: nat): Record {
    var (o, after) := OutcomeOf(driver, w, call, limit);
    Record(call, o, w, after)
  }

  ghost function Final(w: World, records: seq<Record>): World {
    if records == [] then w else Last(records).after
  }

  /** The records of a run of calls. */
  ghost function RecordsOf(driver: Driver, w: World, calls: seq<Call>, limit: nat): (records: seq<Record>)
    ensures |records| == |calls|
  {
    if calls == [] then []
    else
      var before := RecordsOf(driver, w, calls[..|calls| - 1], limit);
      before + [RecordOf(driver, Final(w, before), Last(calls), limit)]
  }

  // ---- What a reply shows --------------------------------------------------

  /** What a reply shows about the instants of its call, which are those of the
      history from index `from` on. */
  ghost predicate Shows(driver: Driver, call: Call, o: Outcome, history: seq<State>, from: int, limit: nat) {
    match call
    case Publish(req, _) => o.PublishReply? && PublishShows(req, o.publish, history, from, limit)
    case Unpublish(req, _) => o.UnpublishReply? && UnpublishShows(req, o.unpublish, history, from, limit)
    case Expand(req, _) => o.ExpandReply? && ExpandShows(req, o.expand, history, from)
    case Create(req, _) => o.CreateReply? && CreateShows(driver, req, o.create, history, from)
  }

  ghost predicate PublishShows(req: PublishRequest, r: Result<string>, history: seq<State>, from: int, limit: nat) {
    if PublishRejects(req).Some? then r == Err(PublishRejects(req).value)
    else if r.Ok? then Sometime(history, from, req.volume, Attach(req.droplet.value))
    else SometimeShows(history, from, req.volume, req.droplet.value, limit, r.code)
  }

  ghost predicate UnpublishShows(req: UnpublishRequest, r: Result<()>, history: seq<State>, from: int, limit: nat) {
    if req.volume == NO_ID || req.droplet.None? then r == Err(InvalidArgument)
    else
      && (r.Ok? ==> SometimeApart(history, from, req.volume, req.droplet.value))
      && (r == Err(Aborted) ==> SometimeShows(history, from, req.volume, req.droplet.value, limit, Aborted))
  }

  ghost predicate ExpandShows(req: ExpandRequest, r: Result<Expanded>, history: seq<State>, from: int) {
    if req.volume == NO_ID then r == Err(InvalidArgument)
    else r.Ok? ==>
      && SometimeSized(history, from, req.volume, r.value.capacityBytes)
      && ExtractStorage(req.range).Ok?
      && GigaBytes(ExtractStorage(req.range).value) * GIB <= r.value.capacityBytes
  }

  ghost predicate CreateShows(driver: Driver, req: CreateVolumeRequest, r: Result<Created>, history: seq<State>,
                              from: int)
  {
    if CreateRejects(driver, req).Some? then r == Err(CreateRejects(driver, req).value)
    else r.Ok? ==>
      && r.value.capacityBytes == ExtractStorage(req.range).value
      && SometimeProvisioned(history, from, r.value.id, driver.region, req.name, GigaBytes(r.value.capacityBytes))
  }

  /** The reply to a call and the state it leaves when nobody else is at work; actions
      stay `queued` or not. */
  ghost predicate Settled(driver: Driver, call: Call, o: Outcome, before: State, after: State, limit: nat, queued: bool)
  {
    match call
    case Publish(req, _) =>
      o.PublishReply? &&
      (PublishRejects(req).None? ==>
       PublishSettled(before, driver.doTag, req.volume, req.droplet.value, limit, queued, Verdict(o.publish), after))
    case Unpublish(req, _) =>
      o.UnpublishReply? &&
      (req.volume != NO_ID && req.droplet.Some? ==>
        UnpublishSettled(before, req.volume, req.droplet.value, limit, queued, o.unpublish, after))
    case Expand(req, _) => o.ExpandReply? && ExpandSettled(before, req, queued, o.expand, after)
    case Create(req, _) =>
      o.CreateReply? && (CreateRejects(driver, req).None? ==>
                         CreateSettled(before, driver, req, queued, o.create, after))
  }

  lemma CalmOutcome(driver: Driver, w: World, call: Call, limit: nat)
    requires Calm(w.left) && Inv(w.s)
    ensures var (o, after) := OutcomeOf(driver, w, call, limit);
            && Calm(after.left) && (w.left == [] ==> after.left == [])
            && Settled(driver, call, o, w.s, after.s, limit, w.left == [])
  {
    match call
    case Publish(req, ctx) => if PublishRejects(req).None? { CalmPublish(w, driver, req, limit, ctx); }
    case Unpublish(req, ctx) => if req.volume != NO_ID && req.droplet.Some? { CalmUnpublish(w, req, limit, ctx); }
    case Expand(req, ctx) => CalmExpand(w, req, limit, ctx);
    case Create(req, ctx) => if CreateRejects(driver, req).None? { CalmCreate(w, driver, req, limit, ctx); }
  }

  lemma OutcomeKeepsInv(driver: Driver, w: World, call: Call, limit: nat)
    requires Inv(w.s)
    ensures Inv(OutcomeOf(driver, w, call, limit).1.s)
  {
    match call
    case Publish(req, ctx) => PublishKeepsInv(w, driver, req, limit, ctx);
    case Unpublish(req, ctx) => UnpublishKeepsInv(w, req, limit, ctx);
    case Expand(req, ctx) => ExpandKeepsInv(w, req, limit, ctx);
    case Create(req, ctx) => CreateKeepsInv(w, driver, req, limit, ctx);
  }

  /** Each record of a run is that of its call, in the world the record before leaves. */
  lemma {:induction false} RunSteps(driver: Driver, w: World, calls: seq<Call>, limit: nat, i: nat)
    requires i < |calls|
    ensures var records := RecordsOf(driver, w, calls, limit);
            && records[..i] == RecordsOf(driver, w, calls[..i], limit)
            && records[i] == RecordOf(driver, Final(w, records[..i]), calls[i], limit)
  {
    var most := calls[..|calls| - 1];
    if i < |most| {
      RunSteps(driver, w, most, limit, i);
      assert most[..i] == calls[..i];
      assert RecordsOf(driver, w, calls, limit)[..i] == RecordsOf(driver, w, most, limit)[..i];
    } else {
      assert calls[..i] == most;
    }
  }

  lemma {:induction false} CalmWorlds(driver: Driver, w: World, calls: seq<Call>, limit: nat)
    requires Calm(w.left) && Inv(w.s)
    ensures var after := Final(w, RecordsOf(driver, w, calls, limit));
            Calm(after.left) && Inv(after.s) && (w.left == [] ==> after.left == [])
  {
    if calls != [] {
      var most := calls[..|calls| - 1];
      var at := Final(w, RecordsOf(driver, w, most, limit));
      CalmWorlds(driver, w, most, limit);
      CalmOutcome(driver, at, Last(calls), limit);
      OutcomeKeepsInv(driver, at, Last(calls), limit);
    }
  }

  /** With nobody else at work every reply of a run, and the state after it, are settled
      by the state that its call meets. */
  lemma CalmRun(driver: Driver, w: World, calls: seq<Call>, limit: nat, i: nat)
    requires Calm(w.left) && Inv(w.s) && i < |calls|
    ensures var e := RecordsOf(driver, w, calls, limit)[i];
            e.call == calls[i] && Settled(driver, e.call, e.outcome, e.before.s, e.after.s, limit, w.left == [])
  {
    RunSteps(driver, w, calls, limit, i);
    CalmWorlds(driver, w, calls[..i], limit);
    var e := RecordsOf(driver, w, calls, limit)[i];
    CalmOutcome(driver, e.before, calls[i], limit);
    SettledAtLeast(driver, e.call, e.outcome, e.before.s, e.after.s, limit, e.before.left == [], w.left == []);
  }

  lemma SettledAtLeast(driver: Driver, call: Call, o: Outcome, before: State, after: State, limit: nat, sure: bool,
                       queued: bool)
    requires Settled(driver, call, o, before, after, limit, sure) && (queued ==> sure)
    ensures Settled(driver, call, o, before, after, limit, queued)
  {
  }

  // ---- What a run leaves ---------------------------------------------------

  /** The volume a call has published, or has asked for and made. */
  function ServedBy(e: Record): Option<Id> {
    match (e.call, e.outcome)
    case (Publish(req, _), PublishReply(Ok(_))) => Some(req.volume)
    case (Create(_, _), CreateReply(Ok(created))) =>
      if |e.before.asked| < |e.after.asked| then Some(created.id) else None
    case _ => None
  }

  /** A volume that is gone for good or carries the tag. */
  predicate TaggedIfThere(s: State, v: Id, tag: string) {
    v <= s.issued && (v in s.volumes ==> tag in s.volumes[v].tags)
  }

  lemma TaggedLater(p: Policy, a: State, b: State, v: Id, tag: string)
    requires p.noUntag && Kept(p, a, b) && TaggedIfThere(a, v, tag)
    ensures TaggedIfThere(b, v, tag)
  {
    if v in b.volumes {
      assert KeptVolume(p, a, b, v);
    }
  }

  /** A volume that was there once has been issued. */
  lemma IssuedSince(cloud: Cloud, k: nat, v: Id)
    requires cloud.Valid() && k < |cloud.history| && v in cloud.history[k].volumes
    ensures v <= cloud.s.issued
  {
    RunKeepsInv(cloud.history, cloud.log, k);
    RunKeeps(ANYTHING, cloud.history, cloud.log, k, |cloud.history| - 1);
  }

  lemma PublishedIsIssued(cloud: Cloud, from: int, v: Id, d: int)
    requires cloud.Valid() && Sometime(cloud.history, from, v, Attach(d))
    ensures v <= cloud.s.issued
  {
    var k :| 0 <= from <= k < |cloud.history| && Done(cloud.history[k], v, Attach(d));
    IssuedSince(cloud, k, v);
  }

  ghost predicate RecordTagged(e: Record, s: State, tag: string) {
    ServedBy(e).Some? ==> TaggedIfThere(s, ServedBy(e).value, tag)
  }

  /** A record shows what its reply says about the part of the history between its
      worlds. */
  ghost predicate RecordShows(driver: Driver, e: Record, history: seq<State>, limit: nat) {
    && 1 <= e.before.age <= e.after.age <= |history|
    && history[e.before.age - 1] == e.before.s && history[e.after.age - 1] == e.after.s
    && Shows(driver, e.call, e.outcome, history[..e.after.age], e.before.age - 1, limit)
  }

  /** Every record shows what its reply says. */
  ghost predicate AllShow(driver: Driver, records: seq<Record>, history: seq<State>, limit: nat) {
    forall e :: e in records ==> RecordShows(driver, e, history, limit)
  }

  /** Every volume served carries the tag or is gone. */
  ghost predicate AllTagged(records: seq<Record>, s: State, tag: string) {
    forall e :: e in records ==> RecordTagged(e, s, tag)
  }

  lemma LastShows(driver: Driver, e: Record, history: seq<State>, limit: nat)
    requires 1 <= e.before.age <= e.after.age == |history|
    requires history[e.before.age - 1] == e.before.s && Last(history) == e.after.s
    requires Shows(driver, e.call, e.outcome, history, e.before.age - 1, limit)
    ensures RecordShows(driver, e, history, limit)
  {
    assert history[..|history|] == history;
  }

  lemma OneMoreShows(driver: Driver, records: seq<Record>, history: seq<State>, limit: nat, e: Record,
                     later: seq<State>)
    requires AllShow(driver, records, history, limit) && history <= later
    requires RecordShows(driver, e, later, limit)
    ensures AllShow(driver, records + [e], later, limit)
  {
    forall r | r in records + [e]
      ensures RecordShows(driver, r, later, limit)
    {
      if r in records {
        assert RecordShows(driver, r, history, limit);
        assert later[..r.after.age] == history[..r.after.age];
      }
    }
  }

  lemma OneMoreTagged(p: Policy, records: seq<Record>, a: State, e: Record, b: State, tag: string)
    requires AllTagged(records, a, tag) && RecordTagged(e, b, tag)
    requires p.noUntag && Kept(p, a, b)
    ensures AllTagged(records + [e], b, tag)
  {
    forall r | r in records + [e]
      ensures RecordTagged(r, b, tag)
    {
      if r in records && ServedBy(r).Some? {
        assert RecordTagged(r, a, tag);
        TaggedLater(p, a, b, ServedBy(r).value, tag);
      }
    }
  }

  // ---- Runs of RPCs --------------------------------------------------------

  ghost predicate SingleAttachments(s: State) {
    forall v :: v in s.volumes ==> |s.volumes[v].droplets| <= 1
  }

  /** No state of the history attaches a volume to two droplets. */
  ghost predicate AlwaysSingle(history: seq<State>) {
    forall k :: 0 <= k < |history| ==> SingleAttachments(history[k])
  }

  /** No state of the history has a volume above the maximum. */
  ghost predicate AlwaysBounded(history: seq<State>) {
    forall k :: 0 <= k < |history| ==> Bounded(history[k])
  }

  ghost predicate NoneShrinks(a: State, b: State) {
    forall v :: v in a.volumes && v in b.volumes ==> a.volumes[v].size <= b.volumes[v].size
  }

  /** What holds of every run, whatever happens in it. */
  lemma RunInvariants(cloud: Cloud, i: nat)
    requires cloud.Valid() && i < |cloud.history|
    ensures AlwaysSingle(cloud.history) && (cloud.policy.bounded ==> AlwaysBounded(cloud.history))
    ensures NoneShrinks(cloud.history[i], cloud.s)
  {
    forall k | 0 <= k < |cloud.history|
      ensures SingleAttachments(cloud.history[k])
      ensures cloud.policy.bounded ==> Bounded(cloud.history[k])
    {
      RunKeepsInv(cloud.history, cloud.log, k);
      if cloud.policy.bounded {
        RunKeepsBound(cloud.history, cloud.log, k);
      }
    }
    forall v | v in cloud.history[i].volumes && v in cloud.s.volumes
      ensures cloud.history[i].volumes[v].size <= cloud.s.volumes[v].size
    {
      SizesMonotone(cloud.history, cloud.log, i, |cloud.history| - 1, v);
    }
  }

  /** A publish, with what it says of the volume and of names. */
  method DispatchPublish(cloud: Cloud, driver: Driver, req: PublishRequest, ctx: seq<bool>) returns (r: Result<string>)
    requires cloud.Valid()
    modifies cloud`s, cloud`history, cloud`log, cloud`schedule, cloud`requests
    ensures cloud.Valid() && old(cloud.history) <= cloud.history && old(cloud.requests) <= cloud.requests
    ensures (r, cloud.Now()) == PublishOutcome(old(cloud.Now()), driver, req, cloud.limit, ctx)
    ensures PublishShows(req, r, cloud.history, |old(cloud.history)| - 1, cloud.limit)
    ensures r.Ok? && driver.doTag != "" && cloud.policy.noUntag ==> TaggedIfThere(cloud.s, req.volume, driver.doTag)
    ensures cloud.policy.noCreate && UniqueNames(old(cloud.s)) ==> UniqueNames(cloud.s)
  {
    r := ControllerPublishVolume(cloud, driver, req, ctx);
    if r.Ok? {
      PublishedIsIssued(cloud, |old(cloud.history)| - 1, req.volume, req.droplet.value);
    }
    cloud.StateInv();
    NamesStayUnique(cloud.policy, old(cloud.s), cloud.s);
  }

  /** A creation, with what it says of the volume and of names. */
  method DispatchCreate(cloud: Cloud, driver: Driver, req: CreateVolumeRequest, ctx: seq<bool>)
    returns (r: Result<Created>)
    requires cloud.Valid()
    modifies cloud`s, cloud`history, cloud`log, cloud`schedule, cloud`requests
    ensures cloud.Valid() && old(cloud.history) <= cloud.history && old(cloud.requests) <= cloud.requests
    ensures (r, cloud.Now()) == CreateOutcome(old(cloud.Now()), driver, req, cloud.limit, ctx)
    ensures CreateShows(driver, req, r, cloud.history, |old(cloud.history)| - 1)
    ensures r.Ok? && |old(cloud.requests)| < |cloud.requests| && driver.doTag != "" && cloud.policy.noUntag ==>
              TaggedIfThere(cloud.s, r.value.id, driver.doTag)
    ensures cloud.policy.noCreate && UniqueNames(old(cloud.s)) ==> UniqueNames(cloud.s)
  {
    r := CreateVolume(cloud, driver, req, ctx);
    if r.Ok? {
      ghost var k :| 0 <= k < |cloud.history| && r.value.id in cloud.history[k].volumes;
      IssuedSince(cloud, k, r.value.id);
    }
  }

  /** One RPC. */
  method Dispatch(cloud: Cloud, driver: Driver, call: Call) returns (o: Outcome)
    requires cloud.Valid()
    modifies cloud`s, cloud`history, cloud`log, cloud`schedule, cloud`requests
    ensures cloud.Valid() && old(cloud.history) <= cloud.history && old(cloud.requests) <= cloud.requests
    ensures (o, cloud.Now()) == OutcomeOf(driver, old(cloud.Now()), call, cloud.limit)
    ensures Shows(driver, call, o, cloud.history, |old(cloud.history)| - 1, cloud.limit)
    ensures driver.doTag != "" && cloud.policy.noUntag ==>
              RecordTagged(Record(call, o, old(cloud.Now()), cloud.Now()), cloud.s, driver.doTag)
    ensures cloud.policy.noCreate && UniqueNames(old(cloud.s)) ==> UniqueNames(cloud.s)
  {
    match call {
      case Publish(req, ctx) =>
        var r := DispatchPublish(cloud, driver, req, ctx);
        o := PublishReply(r);
      case Unpublish(req, ctx) =>
        var r := ControllerUnpublishVolume(cloud, req, ctx);
        o := UnpublishReply(r);
        cloud.StateInv();
        NamesStayUnique(cloud.policy, old(cloud.s), cloud.s);
      case Expand(req, ctx) =>
        var r := ControllerExpandVolume(cloud, req, ctx);
        o := ExpandReply(r);
        cloud.StateInv();
        NamesStayUnique(cloud.policy, old(cloud.s), cloud.s);
      case Create(req, ctx) =>
        var r := DispatchCreate(cloud, driver, req, ctx);
        o := CreateReply(r);
    }
  }

  /** What the records of a run come to: every reply shows what it says, and what is
      served carries the tag when that is `tagging`. */
  ghost predicate Holds(driver: Driver, records: seq<Record>, history: seq<State>, s: State, limit: nat, tagging: bool)
  {
    AllShow(driver, records, history, limit) && (tagging ==> AllTagged(records, s, driver.doTag))
  }

  lemma HoldsLater(driver: Driver, records: seq<Record>, history: seq<State>, s: State, limit: nat, tagging: bool,
                   p: Policy, e: Record, later: seq<State>, after: State)
    requires Holds(driver, records, history, s, limit, tagging) && history <= later
    requires RecordShows(driver, e, later, limit)
    requires tagging ==> p.noUntag && Kept(p, s, after) && RecordTagged(e, after, driver.doTag)
    ensures Holds(driver, records + [e], later, after, limit, tagging)
  {
    OneMoreShows(driver, records, history, limit, e, later);
    if tagging {
      OneMoreTagged(p, records, s, e, after, driver.doTag);
    }
  }

  /** One call of a run, with what its record shows. */
  method RunOne(cloud: Cloud, driver: Driver, call: Call) returns (o: Outcome)
    requires cloud.Valid()
    modifies cloud`s, cloud`history, cloud`log, cloud`schedule, cloud`requests
    ensures cloud.Valid() && old(cloud.history) <= cloud.history && Kept(Shared(cloud.policy), old(cloud.s), cloud.s)
    ensures var e := RecordOf(driver, old(cloud.Now()), call, cloud.limit);
            && o == e.outcome && cloud.Now() == e.after
            && RecordShows(driver, e, cloud.history, cloud.limit)
            && (driver.doTag != "" && cloud.policy.noUntag ==> RecordTagged(e, cloud.s, driver.doTag))
    ensures cloud.policy.noCreate && UniqueNames(old(cloud.s)) ==> UniqueNames(cloud.s)
  {
    ghost var w := cloud.Now();
    o := Dispatch(cloud, driver, call);
    RunKeeps(Shared(cloud.policy), cloud.history, cloud.log, w.age - 1, |cloud.history| - 1);
    LastShows(driver, RecordOf(driver, w, call, cloud.limit), cloud.history, cloud.limit);
  }

  /** Any run of RPCs, among any events and failures of the API. Every reply is the
      outcome of its call, and shows what it says about the instants of that call. In
      every state no volume is attached to two droplets, and no volume ever shrinks or
      exceeds the maximum, unless somebody else asks for more. At the end every volume
      that a call has published or made carries the tag, unless somebody untags, and
      names are unique, unless somebody else creates volumes. */
  method Run(cloud: Cloud, driver: Driver, calls: seq<Call>) returns (outcomes: seq<Outcome>)
    requires cloud.Valid()
    modifies cloud`s, cloud`history, cloud`log, cloud`schedule, cloud`requests
    ensures cloud.Valid() && old(cloud.history) <= cloud.history && |outcomes| == |calls|
    ensures var records := RecordsOf(driver, old(cloud.Now()), calls, cloud.limit);
            && (forall i :: 0 <= i < |calls| ==> outcomes[i] == records[i].outcome)
            && cloud.Now() == Final(old(cloud.Now()), records)
            && AllShow(driver, records, cloud.history, cloud.limit)
            && (driver.doTag != "" && cloud.policy.noUntag ==> AllTagged(records, cloud.s, driver.doTag))
    ensures AlwaysSingle(cloud.history) && (cloud.policy.bounded ==> AlwaysBounded(cloud.history))
    ensures NoneShrinks(old(cloud.s), cloud.s)
    ensures cloud.policy.noCreate && UniqueNames(old(cloud.s)) ==> UniqueNames(cloud.s)
  {
    ghost var w := cloud.Now();
    ghost var tagging := driver.doTag != "" && cloud.policy.noUntag;
    ghost var records: seq<Record> := [];
    outcomes := [];
    for i := 0 to |calls|
      invariant cloud.Valid() && old(cloud.history) <= cloud.history
      invariant records == RecordsOf(driver, w, calls[..i], cloud.limit)
      invariant |outcomes| == i && forall k :: 0 <= k < i ==> outcomes[k] == records[k].outcome
      invariant cloud.Now() == Final(w, records)
      invariant Holds(driver, records, cloud.history, cloud.s, cloud.limit, tagging)
      invariant cloud.policy.noCreate && UniqueNames(w.s) ==> UniqueNames(cloud.s)
    {
      ghost var at, h := cloud.Now(), cloud.history;
      ghost var e := RecordOf(driver, at, calls[i], cloud.limit);
      assert calls[..i + 1][..i] == calls[..i];
      var o := RunOne(cloud, driver, calls[i]);
      HoldsLater(driver, records, h, at.s, cloud.limit, tagging, Shared(cloud.policy), e, cloud.history, cloud.s);
      outcomes, records := outcomes + [o], records + [e];
    }
    assert calls[..|calls|] == calls;
    RunInvariants(cloud, |old(cloud.history)| - 1);
  }
}
