/** Attaching, detaching and tagging volumes: `ControllerPublishVolume`,
    `ControllerUnpublishVolume` and `tagVolume` of driver/controller.go. */
module Publishing {
  import opened Wrappers
  import opened CloudState
  import opened CloudApi
  import opened Waiting

  /** The volume is not attached to the droplet. */
  predicate Apart(s: State, v: Id, d: int) {
    v in s.volumes ==> d !in s.volumes[v].droplets
  }

  ghost predicate SometimeApart(history: seq<State>, from: int, v: Id, d: int) {
    exists k :: 0 <= from <= k < |history| && Apart(history[k], v, d)
  }

  // ---- tagVolume -----------------------------------------------------------

  function Tagged(s: State, v: Id, tag: string): State
    requires v in s.volumes
  {
    s.(tags := s.tags + {tag}, volumes := s.volumes[v := s.volumes[v].(tags := s.volumes[v].tags + {tag})])
  }

  /** What becomes of tagging a volume that was read with the given tags. */
  ghost function TagOutcome(w: World, tag: string, v: Id, tags: set<string>): (bool, World) {
    if tag in tags then (true, w)
    else
      var (r, at) := Tagging(w, tag, v);
      if r == Failed(Missing) then RetagOutcome(at, tag, v) else (r.Got?, at)
  }

  ghost function RetagOutcome(w: World, tag: string, v: Id): (bool, World) {
    var (created, at) := AddingTag(w, tag);
    if created.Failed? then (false, at)
    else
      var (r, after) := Tagging(at, tag, v);
      (r.Got?, after)
  }

  /** The part of `tagVolume` for a tag that is not there yet. */
  method CreateTagAndRetry(cloud: Cloud, tag: string, v: Id) returns (ok: bool)
    requires cloud.Valid()
    modifies cloud`s, cloud`history, cloud`log, cloud`schedule, cloud`requests
    ensures cloud.Valid() && Moved(cloud.policy, old(cloud.history), cloud.history)
    ensures (ok, cloud.Now()) == RetagOutcome(old(cloud.Now()), tag, v)
    ensures ok ==> v in cloud.s.volumes && tag in cloud.s.volumes[v].tags
  {
    var created := cloud.AddTag(tag);
    ghost var h1 := cloud.history;
    if created.Failed? {
      return false;
    }
    var r := cloud.TagResources(tag, v);
    MovedTransitive(cloud.policy, old(cloud.history), h1, cloud.history);
    ok := r.Got?;
  }

  /** `tagVolume`, on a volume that was read with the given tags. */
  method TagVolume(cloud: Cloud, tag: string, v: Id, tags: set<string>) returns (ok: bool)
    requires cloud.Valid()
    modifies cloud`s, cloud`history, cloud`log, cloud`schedule, cloud`requests
    ensures cloud.Valid() && Moved(cloud.policy, old(cloud.history), cloud.history)
    ensures (ok, cloud.Now()) == TagOutcome(old(cloud.Now()), tag, v, tags)
    ensures ok && tag !in tags ==> v in cloud.s.volumes && tag in cloud.s.volumes[v].tags
    ensures tag in tags ==> cloud.history == old(cloud.history)
  {
    if tag in tags {
      return true;
    }
    var r := cloud.TagResources(tag, v);
    if r != Failed(Missing) {
      return r.Got?;
    }
    ghost var h1 := cloud.history;
    ok := CreateTagAndRetry(cloud, tag, v);
    MovedTransitive(cloud.policy, old(cloud.history), h1, cloud.history);
  }

  /** Nothing is asked of the API for a volume that carries the tag; otherwise at most
      two taggings and one creation of the tag between them. */
  lemma TagAsks(w: World, tag: string, v: Id, tags: set<string>)
    ensures var asked := TagOutcome(w, tag, v, tags).1.asked;
            if tag in tags then asked == w.asked
            else
              || asked == w.asked + [TagRequest(v, tag)]
              || asked == w.asked + [TagRequest(v, tag), CreateTagRequest(tag)]
              || asked == w.asked + [TagRequest(v, tag), CreateTagRequest(tag), TagRequest(v, tag)]
    ensures var asked := TagOutcome(w, tag, v, tags).1.asked;
            w.asked <= asked && NoActs(asked, |w.asked|)
  {
  }

  /** With nobody else at work tagging succeeds. */
  lemma CalmTags(w: World, tag: string, v: Id, tags: set<string>)
    requires Calm(w.left) && v in w.s.volumes && tag !in tags
    ensures var (ok, after) := TagOutcome(w, tag, v, tags);
            ok && after.s == Tagged(w.s, v, tag) && Calm(after.left) && (w.left == [] ==> after.left == [])
  {
    CalmMeets(w.s, w.left);
    var (r, at) := Tagging(w, tag, v);
    CalmMeets(at.s, at.left);
    var (created, later) := AddingTag(at, tag);
    CalmMeets(later.s, later.left);
  }

  /** The requests from number n on ask for no action. */
  ghost predicate NoActs(requests: seq<Request>, n: nat) {
    forall i :: n <= i < |requests| ==> !requests[i].ActRequest?
  }

  /** Of the new requests, the last asks for the attachment and no other for an action. */
  ghost predicate AttachLast(before: seq<Request>, after: seq<Request>, v: Id, d: int) {
    && before < after
    && NoActs(after[..|after| - 1], |before|)
    && Last(after) == ActRequest(v, Attach(d))
  }

  lemma AttachComesLast(before: seq<Request>, middle: seq<Request>, v: Id, d: int)
    requires before <= middle && NoActs(middle, |before|)
    ensures AttachLast(before, middle + [ActRequest(v, Attach(d))], v, d)
  {
    assert (middle + [ActRequest(v, Attach(d))])[..|middle|] == middle;
  }

  // ---- ControllerPublishVolume ---------------------------------------------

  datatype PublishRequest = PublishRequest(volume: Id, droplet: Option<int>, capability: bool, readonly: bool)

  function PublishRejects(req: PublishRequest): Option<Code> {
    if req.volume == NO_ID || req.droplet.None? || !req.capability then Some(InvalidArgument)
    else if req.readonly then Some(AlreadyExists)
    else None
  }

  /** What becomes of reading the volume and tagging it. */
  ghost function ReadOutcome(w: World, driver: Driver, v: Id): (Result<Volume>, World) {
    var (vol, at) := ReadVolume(w, v);
    if vol.Failed? then (Err(LookUpCode(vol.error)), at)
    else if driver.doTag == "" then (Ok(vol.value), at)
    else
      var (ok, tagged) := TagOutcome(at, driver.doTag, v, vol.value.tags);
      (if ok then Ok(vol.value) else Err(Internal), tagged)
  }

  function LookUpCode(error: ApiError): Code {
    if error == Missing then NotFound else Unknown
  }

  /** The first half of a publish: the droplet is looked up as well. */
  ghost function CheckOutcome(w: World, driver: Driver, v: Id, d: int): (Result<Volume>, World) {
    var (r, tagged) := ReadOutcome(w, driver, v);
    if r.Err? then (r, tagged)
    else
      var (droplet, after) := ReadDroplet(tagged, d);
      (if droplet.Failed? then Err(LookUpCode(droplet.error)) else r, after)
  }

  /** The second half, for a volume seen with the given attachments. */
  ghost function AttachOutcome(w: World, v: Id, d: int, droplets: seq<int>, limit: nat, ctx: seq<bool>)
    : (Result<()>, World)
  {
    if droplets != [] then (if d in droplets then Ok(()) else Err(FailedPrecondition), w)
    else
      var (result, after) := ActOutcome(w, v, Attach(d), limit, ctx);
      (AttachVerdict(result), after)
  }

  function AttachVerdict(result: ActResult): Result<()> {
    match result
    case Refused(AlreadyAttached) => Ok(())
    case Refused(PendingEvent) => Err(Aborted)
    case Refused(VolumeLimit) => Err(ResourceExhausted)
    case Refused(_) => Err(Unknown)
    case Finished => Ok(())
    case TimedOut => Err(Internal)
  }

  /** What becomes of a publish; on success the name of the volume is returned. */
  ghost function PublishOutcome(w: World, driver: Driver, req: PublishRequest, limit: nat, ctx: seq<bool>)
    : (Result<string>, World)
  {
    if PublishRejects(req).Some? then (Err(PublishRejects(req).value), w)
    else
      var (vol, at) := CheckOutcome(w, driver, req.volume, req.droplet.value);
      CheckedOutcome(vol, at, req.volume, req.droplet.value, limit, ctx)
  }

  /** What follows the first half. */
  ghost function CheckedOutcome(vol: Result<Volume>, at: World, v: Id, d: int, limit: nat, ctx: seq<bool>)
    : (Result<string>, World)
  {
    if vol.Err? then (Err(vol.code), at)
    else
      var (r, after) := AttachOutcome(at, v, d, vol.value.droplets, limit, ctx);
      (if r.Ok? then Ok(vol.value.name) else Err(r.code), after)
  }

  /** What the error of a publish shows about some instant of the call. */
  predicate PublishErrorShows(s: State, v: Id, d: int, limit: nat, code: Code) {
    match code
    case NotFound => v !in s.volumes || d !in s.droplets
    case FailedPrecondition => v in s.volumes && s.volumes[v].droplets != [] && d !in s.volumes[v].droplets
    case Aborted => Pending(s, v) || Busy(s, d)
    case ResourceExhausted => limit <= |AttachedTo(s, d)|
    case _ => true
  }

  ghost predicate SometimeShows(history: seq<State>, from: int, v: Id, d: int, limit: nat, code: Code) {
    exists k :: 0 <= from <= k < |history| && PublishErrorShows(history[k], v, d, limit, code)
  }

  /** The loop over the droplets a volume is attached to. */
  method FindAttachment(droplets: seq<int>, d: int) returns (found: bool, attachedId: int)
    ensures found <==> d in droplets
    ensures !found ==> attachedId == if droplets == [] then 0 else Last(droplets)
  {
    attachedId := 0;
    for i := 0 to |droplets|
      invariant d !in droplets[..i]
      invariant attachedId == if i == 0 then 0 else droplets[i - 1]
    {
      attachedId := droplets[i];
      if droplets[i] == d {
        return true, attachedId;
      }
    }
    found := false;
  }

  /** The volume is read, and tagged if need be; it was so at instant k. */
  method ReadAndTag(cloud: Cloud, driver: Driver, v: Id) returns (r: Result<Volume>, ghost k: nat)
    requires cloud.Valid()
    modifies cloud`s, cloud`history, cloud`log, cloud`schedule, cloud`requests
    ensures cloud.Valid() && Moved(cloud.policy, old(cloud.history), cloud.history)
    ensures (r, cloud.Now()) == ReadOutcome(old(cloud.Now()), driver, v)
    ensures |old(cloud.history)| - 1 <= k < |cloud.history| && Inv(cloud.history[k])
    ensures r.Ok? ==> v in cloud.history[k].volumes && cloud.history[k].volumes[v] == r.value && v <= cloud.s.issued
    ensures r.Ok? && v in cloud.s.volumes ==>
              && cloud.s.volumes[v].name == r.value.name
              && (driver.doTag != "" && cloud.policy.noUntag ==> driver.doTag in cloud.s.volumes[v].tags)
    ensures r == Err(NotFound) ==> v !in cloud.history[k].volumes
    ensures r.Err? ==> r.code == Unknown || r.code == Internal || r.code == NotFound
  {
    var vol := cloud.GetVolume(v);
    ghost var h1, s1 := cloud.history, cloud.s;
    k := |h1| - 1;
    cloud.StateInv();
    if vol.Failed? {
      return Err(if vol.error == Missing then NotFound else Unknown), k;
    }
    if driver.doTag != "" {
      var ok := TagVolume(cloud, driver.doTag, v, vol.value.tags);
      MovedTransitive(cloud.policy, old(cloud.history), h1, cloud.history);
      if !ok {
        return Err(Internal), k;
      }
      if v in cloud.s.volumes {
        assert KeptVolume(cloud.policy, s1, cloud.s, v);
      }
    }
    r := Ok(vol.value);
  }

  /** The first half of a publish: the volume is read and tagged, the droplet
      looked up. The volume was so at instant k. */
  method CheckBeforeAttach(cloud: Cloud, driver: Driver, v: Id, d: int) returns (r: Result<Volume>, ghost k: nat)
    requires cloud.Valid()
    modifies cloud`s, cloud`history, cloud`log, cloud`schedule, cloud`requests
    ensures cloud.Valid() && Moved(cloud.policy, old(cloud.history), cloud.history)
    ensures (r, cloud.Now()) == CheckOutcome(old(cloud.Now()), driver, v, d)
    ensures |old(cloud.history)| - 1 <= k < |cloud.history| && Inv(cloud.history[k])
    ensures r.Ok? ==> v in cloud.history[k].volumes && cloud.history[k].volumes[v] == r.value && v <= cloud.s.issued
    ensures r.Ok? && v in cloud.s.volumes ==>
              && cloud.s.volumes[v].name == r.value.name
              && (driver.doTag != "" && cloud.policy.noUntag ==> driver.doTag in cloud.s.volumes[v].tags)
    ensures r == Err(NotFound) ==> v !in cloud.history[k].volumes || d !in cloud.s.droplets
    ensures r.Err? ==> r.code == Unknown || r.code == Internal || r.code == NotFound
  {
    r, k := ReadAndTag(cloud, driver, v);
    ghost var h1, s1 := cloud.history, cloud.s;
    if r.Err? {
      return;
    }
    var droplet := cloud.GetDroplet(d);
    MovedTransitive(cloud.policy, old(cloud.history), h1, cloud.history);
    if droplet.Failed? {
      return Err(if droplet.error == Missing then NotFound else Unknown), k;
    }
    if v in cloud.s.volumes {
      assert KeptVolume(cloud.policy, s1, cloud.s, v);
    }
  }

  /** The decision on a volume that was read, at instant k, with the given attachments;
      what it says is so at instant `at`. */
  method AttachUnlessAttached(cloud: Cloud, v: Id, d: int, droplets: seq<int>, ctx: seq<bool>, ghost k: nat)
    returns (r: Result<()>, ghost at: nat)
    requires cloud.Valid() && k < |cloud.history| && Inv(cloud.history[k])
    requires v in cloud.history[k].volumes && cloud.history[k].volumes[v].droplets == droplets
    modifies cloud`s, cloud`history, cloud`log, cloud`schedule, cloud`requests
    ensures cloud.Valid() && Moved(cloud.policy, old(cloud.history), cloud.history)
    ensures (r, cloud.Now()) == AttachOutcome(old(cloud.Now()), v, d, droplets, cloud.limit, ctx)
    ensures k <= at < |cloud.history|
    ensures if r.Ok? then Done(cloud.history[at], v, Attach(d))
            else PublishErrorShows(cloud.history[at], v, d, cloud.limit, r.code)
    ensures cloud.requests
         == if droplets == [] then old(cloud.requests) + [ActRequest(v, Attach(d))] else old(cloud.requests)
  {
    NotAttached(cloud.history[k], v);
    at := k;
    var found, attachedId := FindAttachment(droplets, d);
    if found {
      return Ok(()), k;
    }
    if attachedId != 0 {
      return Err(FailedPrecondition), k;
    }
    var result;
    result, at := ActAndWait(cloud, v, Attach(d), ctx);
    match result
    case Refused(error) =>
      if error == AlreadyAttached {
        return Ok(()), at;
      }
      r := Err(if error == PendingEvent then Aborted else if error == VolumeLimit then ResourceExhausted else Unknown);
    case Finished =>
      r := Ok(());
    case TimedOut =>
      r := Err(Internal);
  }

  /** Droplet IDs are positive, so that 0 stands for no attachment. */
  lemma NotAttached(s: State, v: Id)
    requires Inv(s) && v in s.volumes
    ensures s.volumes[v].droplets != [] ==> 0 < Last(s.volumes[v].droplets)
  {
    if s.volumes[v].droplets != [] {
      assert Last(s.volumes[v].droplets) in s.volumes[v].droplets;
    }
  }

  predicate Unattached(s: State, v: Id) {
    v in s.volumes && s.volumes[v].droplets == []
  }

  ghost predicate SometimeUnattached(history: seq<State>, from: int, v: Id) {
    exists k :: 0 <= from <= k < |history| && Unattached(history[k], v)
  }

  /** `ControllerPublishVolume`; the name of the volume is returned for the node. */
  method ControllerPublishVolume(cloud: Cloud, driver: Driver, req: PublishRequest, ctx: seq<bool>)
    returns (r: Result<string>)
    requires cloud.Valid()
    modifies cloud`s, cloud`history, cloud`log, cloud`schedule, cloud`requests
    ensures cloud.Valid() && Moved(cloud.policy, old(cloud.history), cloud.history)
    ensures (r, cloud.Now()) == PublishOutcome(old(cloud.Now()), driver, req, cloud.limit, ctx)
    ensures PublishRejects(req).Some? ==> cloud.history == old(cloud.history)
    // Success: at some instant of the call the volume is attached to the droplet.
    ensures r.Ok? ==> Sometime(cloud.history, |old(cloud.history)| - 1, req.volume, Attach(req.droplet.value))
    ensures r.Ok? && req.volume in cloud.s.volumes ==> r.value == cloud.s.volumes[req.volume].name
    ensures r.Ok? && driver.doTag != "" && cloud.policy.noUntag && req.volume in cloud.s.volumes ==>
              driver.doTag in cloud.s.volumes[req.volume].tags
    // Failure: what the error says was so at some instant.
    ensures r.Err? && PublishRejects(req).None? ==>
              SometimeShows(cloud.history, |old(cloud.history)| - 1, req.volume, req.droplet.value, cloud.limit, r.code)
    // An attachment is asked for at most once, last, and of a volume seen without any.
    ensures old(cloud.requests) <= cloud.requests
    ensures NoActs(cloud.requests, |old(cloud.requests)|) ||
            (&& AttachLast(old(cloud.requests), cloud.requests, req.volume, req.droplet.value)
             && SometimeUnattached(cloud.history, |old(cloud.history)| - 1, req.volume))
  {
    if req.volume == NO_ID || req.droplet.None? || !req.capability {
      return Err(InvalidArgument);
    }
    if req.readonly {
      return Err(AlreadyExists);
    }
    var v, d := req.volume, req.droplet.value;
    ghost var w := cloud.Now();
    var vol, k := CheckBeforeAttach(cloud, driver, v, d);
    ghost var h1, s1 := cloud.history, cloud.s;
    CheckAsks(w, driver, v, d);
    if vol.Err? {
      assert PublishErrorShows(cloud.history[k], v, d, cloud.limit, vol.code) ||
             PublishErrorShows(Last(cloud.history), v, d, cloud.limit, vol.code);
      return Err(vol.code);
    }
    AttachComesLast(w.asked, cloud.requests, v, d);
    var attached, at := AttachUnlessAttached(cloud, v, d, vol.value.droplets, ctx, k);
    MovedTransitive(cloud.policy, old(cloud.history), h1, cloud.history);
    assert vol.value.droplets == [] ==> Unattached(cloud.history[k], v);
    if v in cloud.s.volumes {
      assert KeptVolume(cloud.policy, s1, cloud.s, v);
    }
    r := if attached.Ok? then Ok(vol.value.name) else Err(attached.code);
  }

  lemma CheckAsks(w: World, driver: Driver, v: Id, d: int)
    ensures var asked := CheckOutcome(w, driver, v, d).1.asked;
            w.asked <= asked && NoActs(asked, |w.asked|)
  {
    var (vol, at) := ReadVolume(w, v);
    if vol.Got? && driver.doTag != "" {
      TagAsks(at, driver.doTag, v, vol.value.tags);
    }
  }

  // ---- A publish with nobody else at work ----------------------------------

  /** The answer while an action that can be started stays queued. */
  function PublishAnswer(s: State, v: Id, d: int, limit: nat): Result<()> {
    if v !in s.volumes then Err(NotFound)
    else if d !in s.droplets then Err(if d < 1 then Unknown else NotFound)
    else if d in s.volumes[v].droplets then Ok(())
    else if s.volumes[v].droplets != [] then Err(FailedPrecondition)
    else match Refusal(s, v, Attach(d), limit)
         case Some(error) => AttachVerdict(Refused(error))
         case None => AttachVerdict(TimedOut)
  }

  /** Tagging a volume does not bear on whether it can be attached. */
  lemma TaggedSameAnswer(s: State, v: Id, tag: string, d: int, limit: nat)
    requires v in s.volumes
    ensures Refusal(Tagged(s, v, tag), v, Attach(d), limit) == Refusal(s, v, Attach(d), limit)
    ensures PublishAnswer(Tagged(s, v, tag), v, d, limit) == PublishAnswer(s, v, d, limit)
  {
    assert AttachedTo(Tagged(s, v, tag), d) == AttachedTo(s, d);
    assert Pending(Tagged(s, v, tag), v) == Pending(s, v);
    assert Busy(Tagged(s, v, tag), d) == Busy(s, d);
  }

  /** The state once the volume carries the tag, if the driver has one. */
  function TaggedBy(tag: string, s: State, v: Id): State {
    if v !in s.volumes || tag == "" || tag in s.volumes[v].tags then s else Tagged(s, v, tag)
  }

  /** A publish is settled by the state, except that an attachment that is asked for may
      be carried out at once, unless it is queued. */
  ghost predicate PublishSettled(before: State, tag: string, v: Id, d: int, limit: nat, queued: bool, r: Result<()>,
                                 after: State)
  {
    var tagged := TaggedBy(tag, before, v);
    if Refusal(before, v, Attach(d), limit).None?
    then (r.Ok? || r == Err(Internal)) && Taken(tagged, v, Attach(d), queued, r.Ok?, after)
    else r == PublishAnswer(before, v, d, limit) && after == tagged
  }

  function Verdict<T>(r: Result<T>): Result<()> {
    if r.Ok? then Ok(()) else Err(r.code)
  }

  /** What the first half finds with nobody else at work. */
  ghost predicate CheckSettled(before: State, tag: string, v: Id, d: int, r: Result<Volume>, after: State) {
    && after == TaggedBy(tag, before, v)
    && r == if v !in before.volumes then Err(NotFound)
            else if d !in before.droplets then Err(if d < 1 then Unknown else NotFound)
            else Ok(before.volumes[v])
  }

  lemma CalmCheck(w: World, driver: Driver, v: Id, d: int)
    requires Calm(w.left) && (forall o :: o in w.s.droplets ==> 0 < o)
    ensures var (r, after) := CheckOutcome(w, driver, v, d);
            && Calm(after.left) && (w.left == [] ==> after.left == [])
            && CheckSettled(w.s, driver.doTag, v, d, r, after.s)
  {
    CalmMeets(w.s, w.left);
    var (vol, at) := ReadVolume(w, v);
    if vol.Got? {
      if driver.doTag != "" && driver.doTag !in vol.value.tags {
        CalmTags(at, driver.doTag, v, vol.value.tags);
      }
      var (_, tagged) := ReadOutcome(w, driver, v);
      CalmMeets(tagged.s, tagged.left);
    }
  }

  lemma CalmAttach(w: World, before: State, tag: string, v: Id, d: int, limit: nat, ctx: seq<bool>)
    requires Calm(w.left) && v in before.volumes && d in before.droplets
    requires w.s == TaggedBy(tag, before, v)
    ensures var (r, after) := AttachOutcome(w, v, d, before.volumes[v].droplets, limit, ctx);
            && Calm(after.left) && (w.left == [] ==> after.left == [])
            && PublishSettled(before, tag, v, d, limit, w.left == [], r, after.s)
  {
    TaggedSameAnswer(before, v, tag, d, limit);
    if before.volumes[v].droplets == [] {
      CalmAct(w, v, Attach(d), limit, ctx);
      if Refusal(w.s, v, Attach(d), limit).None? {
        NotRefusedIsAdmissible(w.s, v, Attach(d), limit);
      }
    }
  }

  lemma CalmChecked(before: State, tag: string, v: Id, d: int, limit: nat, ctx: seq<bool>, vol: Result<Volume>,
                    at: World)
    requires Calm(at.left) && CheckSettled(before, tag, v, d, vol, at.s)
    ensures var (r, after) := CheckedOutcome(vol, at, v, d, limit, ctx);
            && Calm(after.left) && (at.left == [] ==> after.left == [])
            && PublishSettled(before, tag, v, d, limit, at.left == [], Verdict(r), after.s)
    ensures PublishAnswer(before, v, d, limit).Ok? ==> !(vol.Ok? && vol.value.droplets == [])
    ensures PublishAnswer(before, v, d, limit) == Err(Internal) ==> vol.Ok? && vol.value.droplets == []
  {
    if vol.Ok? {
      CalmAttach(at, before, tag, v, d, limit, ctx);
    }
  }

  /** A publish that gets as far as the request to attach asks for that alone, and last. */
  lemma PublishAsks(w: World, driver: Driver, req: PublishRequest, limit: nat, ctx: seq<bool>)
    requires PublishRejects(req).None?
    ensures var after := PublishOutcome(w, driver, req, limit, ctx).1;
            var (vol, at) := CheckOutcome(w, driver, req.volume, req.droplet.value);
            && w.asked <= after.asked
            && if vol.Ok? && vol.value.droplets == []
               then AttachLast(w.asked, after.asked, req.volume, req.droplet.value)
               else NoActs(after.asked, |w.asked|)
  {
    var v, d := req.volume, req.droplet.value;
    CheckAsks(w, driver, v, d);
    var at := CheckOutcome(w, driver, v, d).1;
    AttachComesLast(w.asked, at.asked, v, d);
    ActAsks(at, v, Attach(d), limit, ctx);
  }

  /** The answer is settled by the state; one that finds the volume attached asks for
      nothing, and one that has to wait has asked for the attachment. */
  lemma CalmPublish(w: World, driver: Driver, req: PublishRequest, limit: nat, ctx: seq<bool>)
    requires Calm(w.left) && PublishRejects(req).None? && (forall o :: o in w.s.droplets ==> 0 < o)
    ensures var (r, after) := PublishOutcome(w, driver, req, limit, ctx);
            var v, d := req.volume, req.droplet.value;
            && Calm(after.left) && (w.left == [] ==> after.left == [])
            && PublishSettled(w.s, driver.doTag, v, d, limit, w.left == [], Verdict(r), after.s)
            && w.asked <= after.asked
            && (PublishAnswer(w.s, v, d, limit).Ok? ==> NoActs(after.asked, |w.asked|))
            && (PublishAnswer(w.s, v, d, limit) == Err(Internal) ==> AttachLast(w.asked, after.asked, v, d))
  {
    var (vol, at) := CheckOutcome(w, driver, req.volume, req.droplet.value);
    CalmCheck(w, driver, req.volume, req.droplet.value);
    CalmChecked(w.s, driver.doTag, req.volume, req.droplet.value, limit, ctx, vol, at);
    PublishAsks(w, driver, req, limit, ctx);
  }

  // ---- ControllerUnpublishVolume -------------------------------------------

  datatype UnpublishRequest = UnpublishRequest(volume: Id, droplet: Option<int>)

  function DetachVerdict(result: ActResult): Result<()> {
    match result
    case Refused(Missing) => Ok(())
    case Refused(AttachmentNotFound) => Ok(())
    case Refused(PendingEvent) => Err(Aborted)
    case Refused(_) => Err(Unknown)
    case Finished => Ok(())
    case TimedOut => Err(Internal)
  }

  /** An answer when a look-up fails: what is gone is not attached. */
  function GoneVerdict(error: ApiError): Result<()> {
    if error == Missing then Ok(()) else Err(Unknown)
  }

  /** What becomes of an unpublish. */
  ghost function UnpublishOutcome(w: World, req: UnpublishRequest, limit: nat, ctx: seq<bool>): (Result<()>, World) {
    if req.volume == NO_ID || req.droplet.None? then (Err(InvalidArgument), w)
    else
      var (vol, at) := ReadVolume(w, req.volume);
      if vol.Failed? then (GoneVerdict(vol.error), at)
      else
        var (droplet, next) := ReadDroplet(at, req.droplet.value);
        if droplet.Failed? then (GoneVerdict(droplet.error), next)
        else
          var (result, after) := ActOutcome(next, req.volume, Detach(req.droplet.value), limit, ctx);
          (DetachVerdict(result), after)
  }

  /** The second half of an unpublish: the request to detach, and the wait. */
  method DetachAndWait(cloud: Cloud, v: Id, d: int, ctx: seq<bool>) returns (r: Result<()>, ghost k: nat)
    requires cloud.Valid()
    modifies cloud`s, cloud`history, cloud`log, cloud`schedule, cloud`requests
    ensures cloud.Valid() && Moved(cloud.policy, old(cloud.history), cloud.history)
    ensures var (result, after) := ActOutcome(old(cloud.Now()), v, Detach(d), cloud.limit, ctx);
            r == DetachVerdict(result) && cloud.Now() == after
    ensures cloud.requests == old(cloud.requests) + [ActRequest(v, Detach(d))]
    ensures |old(cloud.history)| - 1 <= k < |cloud.history|
    ensures r.Ok? ==> Apart(cloud.history[k], v, d)
    ensures r == Err(Aborted) ==> PublishErrorShows(cloud.history[k], v, d, cloud.limit, Aborted)
  {
    var result;
    result, k := ActAndWait(cloud, v, Detach(d), ctx);
    match result
    case Refused(error) =>
      if error == Missing || error == AttachmentNotFound {
        return Ok(()), k;
      }
      r := Err(if error == PendingEvent then Aborted else Unknown);
    case Finished =>
      r := Ok(());
    case TimedOut =>
      r := Err(Internal);
  }

  /** `ControllerUnpublishVolume`. */
  method ControllerUnpublishVolume(cloud: Cloud, req: UnpublishRequest, ctx: seq<bool>) returns (r: Result<()>)
    requires cloud.Valid()
    modifies cloud`s, cloud`history, cloud`log, cloud`schedule, cloud`requests
    ensures cloud.Valid() && Moved(cloud.policy, old(cloud.history), cloud.history)
    ensures (r, cloud.Now()) == UnpublishOutcome(old(cloud.Now()), req, cloud.limit, ctx)
    ensures req.volume == NO_ID || req.droplet.None? ==> cloud.history == old(cloud.history)
    // Success: at some instant of the call the volume is not attached to the droplet.
    ensures r.Ok? ==> SometimeApart(cloud.history, |old(cloud.history)| - 1, req.volume, req.droplet.value)
    ensures r == Err(Aborted) ==>
              SometimeShows(cloud.history, |old(cloud.history)| - 1, req.volume, req.droplet.value, cloud.limit,
                            Aborted)
    // At most the removal is asked for.
    ensures cloud.requests == old(cloud.requests) ||
            (&& req.droplet.Some?
             && cloud.requests == old(cloud.requests) + [ActRequest(req.volume, Detach(req.droplet.value))])
  {
    if req.volume == NO_ID {
      return Err(InvalidArgument);
    }
    if req.droplet.None? {
      return Err(InvalidArgument);
    }
    var v, d := req.volume, req.droplet.value;

    var vol := cloud.GetVolume(v);
    ghost var h1 := cloud.history;
    if vol.Failed? {
      if vol.error == Missing {
        assert Apart(Last(cloud.history), v, d);
        return Ok(());
      }
      return Err(Unknown);
    }

    var droplet := cloud.GetDroplet(d);
    ghost var h2 := cloud.history;
    MovedTransitive(cloud.policy, old(cloud.history), h1, h2);
    if droplet.Failed? {
      if droplet.error == Missing {
        // A volume is attached to droplets that exist only.
        cloud.StateInv();
        assert Apart(Last(cloud.history), v, d);
        return Ok(());
      }
      return Err(Unknown);
    }

    ghost var k;
    r, k := DetachAndWait(cloud, v, d, ctx);
    MovedTransitive(cloud.policy, old(cloud.history), h2, cloud.history);
  }

  /** What an unpublish is answered with while nobody else is at work and a removal that
      can be started stays queued. */
  function UnpublishAnswer(s: State, v: Id, d: int, limit: nat): Result<()> {
    if v !in s.volumes then Ok(())
    else if d !in s.droplets then (if d < 1 then Err(Unknown) else Ok(()))
    else match Refusal(s, v, Detach(d), limit)
         case Some(error) => DetachVerdict(Refused(error))
         case None => DetachVerdict(TimedOut)
  }

  /** An unpublish is settled by the state, except that a removal that is asked for may
      be carried out at once, unless it is queued. */
  ghost predicate UnpublishSettled(before: State, v: Id, d: int, limit: nat, queued: bool, r: Result<()>, after: State)
  {
    if d in before.droplets && Refusal(before, v, Detach(d), limit).None?
    then (r.Ok? || r == Err(Internal)) && Taken(before, v, Detach(d), queued, r.Ok?, after)
    else r == UnpublishAnswer(before, v, d, limit) && after == before
  }

  lemma CalmUnpublish(w: World, req: UnpublishRequest, limit: nat, ctx: seq<bool>)
    requires Calm(w.left) && req.volume != NO_ID && req.droplet.Some? && (forall o :: o in w.s.droplets ==> 0 < o)
    ensures var (r, after) := UnpublishOutcome(w, req, limit, ctx);
            && Calm(after.left) && (w.left == [] ==> after.left == [])
            && UnpublishSettled(w.s, req.volume, req.droplet.value, limit, w.left == [], r, after.s)
  {
    CalmMeets(w.s, w.left);
    var (vol, at) := ReadVolume(w, req.volume);
    CalmMeets(at.s, at.left);
    var (droplet, next) := ReadDroplet(at, req.droplet.value);
    if vol.Got? && droplet.Got? {
      CalmAct(next, req.volume, Detach(req.droplet.value), limit, ctx);
    }
  }

  // ---- Every call keeps the invariant --------------------------------------

  lemma TagKeepsInv(w: World, tag: string, v: Id, tags: set<string>)
    requires Inv(w.s)
    ensures Inv(TagOutcome(w, tag, v, tags).1.s)
  {
    TaggingKeepsInv(w, tag, v);
    var at := Tagging(w, tag, v).1;
    AddingTagKeepsInv(at, tag);
    TaggingKeepsInv(AddingTag(at, tag).1, tag, v);
  }

  lemma CheckKeepsInv(w: World, driver: Driver, v: Id, d: int)
    requires Inv(w.s)
    ensures Inv(CheckOutcome(w, driver, v, d).1.s)
  {
    ArriveKeepsInv(w);
    var (vol, at) := ReadVolume(w, v);
    if vol.Got? && driver.doTag != "" {
      TagKeepsInv(at, driver.doTag, v, vol.value.tags);
    }
    ArriveKeepsInv(ReadOutcome(w, driver, v).1);
  }

  lemma PublishKeepsInv(w: World, driver: Driver, req: PublishRequest, limit: nat, ctx: seq<bool>)
    requires Inv(w.s)
    ensures Inv(PublishOutcome(w, driver, req, limit, ctx).1.s)
  {
    if PublishRejects(req).None? {
      CheckKeepsInv(w, driver, req.volume, req.droplet.value);
      ActKeepsInv(CheckOutcome(w, driver, req.volume, req.droplet.value).1, req.volume, Attach(req.droplet.value),
                  limit, ctx);
    }
  }

  lemma UnpublishKeepsInv(w: World, req: UnpublishRequest, limit: nat, ctx: seq<bool>)
    requires Inv(w.s)
    ensures Inv(UnpublishOutcome(w, req, limit, ctx).1.s)
  {
    if req.volume != NO_ID && req.droplet.Some? {
      ArriveKeepsInv(w);
      ArriveKeepsInv(Arrive(w));
      ActKeepsInv(Arrive(Arrive(w)), req.volume, Detach(req.droplet.value), limit, ctx);
    }
  }

  // ---- Retries -------------------------------------------------------------

  /** The attachment of the volume to the droplet is queued as action number a. */
  predicate UnderWay(s: State, a: nat, v: Id, d: int) {
    && a < |s.actions| && s.actions[a] == Action(v, Attach(d), InProgress)
    && v in s.volumes && d in s.droplets
  }

  /** The volume is attached to the droplet, and both are there. */
  predicate Attached(s: State, v: Id, d: int) {
    Done(s, v, Attach(d)) && d in s.droplets
  }

  /** A publish for a volume that is attached already succeeds without asking for
      another attachment. */
  lemma PublishAttached(w: World, driver: Driver, req: PublishRequest, limit: nat, ctx: seq<bool>)
    requires Calm(w.left) && PublishRejects(req).None? && (forall o :: o in w.s.droplets ==> 0 < o)
    requires Attached(w.s, req.volume, req.droplet.value)
    ensures var (r, after) := PublishOutcome(w, driver, req, limit, ctx);
            && r == Ok(w.s.volumes[req.volume].name) && after.s == TaggedBy(driver.doTag, w.s, req.volume)
            && w.asked <= after.asked && NoActs(after.asked, |w.asked|)
  {
    CalmPublish(w, driver, req, limit, ctx);
    CalmCheck(w, driver, req.volume, req.droplet.value);
  }

  /** The world after some events between two calls. */
  ghost function Later(w: World, events: seq<Event>): World {
    w.(s := AfterEvents(w.s, events), age := w.age + |events|)
  }

  /** Whatever happened during a publish and since: once the volume is attached to the
      droplet, and with nobody else at work, the retry succeeds, and no more than the
      first call has asked for the attachment. */
  lemma PublishRetry(w: World, driver: Driver, req: PublishRequest, limit: nat, ctx: seq<bool>, since: seq<Event>,
                     again: seq<bool>)
    requires Inv(w.s) && PublishRejects(req).None?
    requires var now := Later(PublishOutcome(w, driver, req, limit, ctx).1, since);
             Calm(now.left) && Attached(now.s, req.volume, req.droplet.value)
    ensures var left := PublishOutcome(w, driver, req, limit, ctx).1;
            var (r, after) := PublishOutcome(Later(left, since), driver, req, limit, again);
            r.Ok? && left.asked <= after.asked && NoActs(after.asked, |left.asked|)
  {
    var left := PublishOutcome(w, driver, req, limit, ctx).1;
    PublishKeepsInv(w, driver, req, limit, ctx);
    EventsKeepInv(left.s, since);
    PublishAttached(Later(left, since), driver, req, limit, again);
  }

  /** An attachment that is under way and completes is such a case. */
  lemma PublishFinished(s: State, v: Id, a: nat, d: int)
    requires UnderWay(s, a, v, d)
    ensures Attached(AfterEvents(s, [Finish(a)]), v, d)
  {
    assert [Finish(a)][..0] == [];
  }

  /** A publish with nobody else at work, for an attachment that can be started and stays
      queued, runs out of time, and leaves it under way. */
  lemma PublishTimesOut(w: World, driver: Driver, req: PublishRequest, limit: nat, ctx: seq<bool>)
    requires w.left == [] && PublishRejects(req).None? && (forall o :: o in w.s.droplets ==> 0 < o)
    requires Refusal(w.s, req.volume, Attach(req.droplet.value), limit).None?
    ensures var (r, after) := PublishOutcome(w, driver, req, limit, ctx);
            && r == Err(Internal) && UnderWay(after.s, |w.s.actions|, req.volume, req.droplet.value)
            && AttachLast(w.asked, after.asked, req.volume, req.droplet.value)
  {
    NotRefusedIsAdmissible(w.s, req.volume, Attach(req.droplet.value), limit);
    CalmPublish(w, driver, req, limit, ctx);
  }
}
