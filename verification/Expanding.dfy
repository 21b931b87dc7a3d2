/** Growing volumes: `ControllerExpandVolume` of driver/controller.go. */
module Expanding {
  import opened Wrappers
  import opened Capacity
  import opened CloudState
  import opened CloudApi
  import opened Waiting

  datatype ExpandRequest = ExpandRequest(volume: Id, range: Option<CapacityRange>, block: bool)

  datatype Expanded = Expanded(capacityBytes: int, nodeExpansionRequired: bool)

  /** What becomes of an expansion. */
  ghost function ExpandOutcome(w: World, req: ExpandRequest, limit: nat, ctx: seq<bool>): (Result<Expanded>, World) {
    if req.volume == NO_ID then (Err(InvalidArgument), w)
    else
      var (volume, at) := ReadVolume(w, req.volume);
      if volume.Failed? then (Err(Internal), at)
      else if ExtractStorage(req.range).Err? then (Err(OutOfRange), at)
      else GrowthOutcome(at, req, volume.value.size, GigaBytes(ExtractStorage(req.range).value), limit, ctx)
  }

  /** What becomes of it for a volume seen with a size, in GiB, and asked to have g. */
  ghost function GrowthOutcome(w: World, req: ExpandRequest, size: int, g: int, limit: nat, ctx: seq<bool>)
    : (Result<Expanded>, World)
  {
    if g <= size then (Ok(Expanded(size * GIB, true)), w)
    else
      var (result, after) := ActOutcome(w, req.volume, Resize(g), limit, ctx);
      (if result.Finished? then Ok(Expanded(g * GIB, !req.block)) else Err(Internal), after)
  }

  /** The volume has the size, in bytes, at some instant from index `from` on. */
  ghost predicate SometimeSized(history: seq<State>, from: int, v: Id, bytes: int) {
    exists k :: 0 <= from <= k < |history| && v in history[k].volumes && history[k].volumes[v].size * GIB == bytes
  }

  ghost predicate SometimeSmaller(history: seq<State>, from: int, v: Id, size: int) {
    exists k :: 0 <= from <= k < |history| && v in history[k].volumes && history[k].volumes[v].size < size
  }

  /** The request to resize, and the wait; the volume has the size at instant k. */
  method ResizeAndWait(cloud: Cloud, v: Id, g: int, ctx: seq<bool>) returns (done: bool, ghost k: nat)
    requires cloud.Valid() && g <= MAX_GIB
    modifies cloud`s, cloud`history, cloud`log, cloud`schedule, cloud`requests
    ensures cloud.Valid() && Moved(cloud.policy, old(cloud.history), cloud.history)
    ensures var (result, after) := ActOutcome(old(cloud.Now()), v, Resize(g), cloud.limit, ctx);
            done == result.Finished? && cloud.Now() == after
    ensures cloud.requests == old(cloud.requests) + [ActRequest(v, Resize(g))]
    ensures |old(cloud.history)| - 1 <= k < |cloud.history|
    ensures done ==> v in cloud.history[k].volumes && cloud.history[k].volumes[v].size == g
  {
    var result;
    result, k := ActAndWait(cloud, v, Resize(g), ctx);
    done := result.Finished?;
  }

  /** `ControllerExpandVolume`. */
  method ControllerExpandVolume(cloud: Cloud, req: ExpandRequest, ctx: seq<bool>) returns (r: Result<Expanded>)
    requires cloud.Valid()
    modifies cloud`s, cloud`history, cloud`log, cloud`schedule, cloud`requests
    ensures cloud.Valid() && Moved(cloud.policy, old(cloud.history), cloud.history)
    ensures (r, cloud.Now()) == ExpandOutcome(old(cloud.Now()), req, cloud.limit, ctx)
    ensures req.volume == NO_ID ==> cloud.history == old(cloud.history)
    // Success: the capacity returned is what the volume has at some instant of the
    // call, and at least as many GiB as the request asks for.
    ensures r.Ok? ==>
              && SometimeSized(cloud.history, |old(cloud.history)| - 1, req.volume, r.value.capacityBytes)
              && ExtractStorage(req.range).Ok?
              && GigaBytes(ExtractStorage(req.range).value) * GIB <= r.value.capacityBytes
              && (r.value.nodeExpansionRequired <==> cloud.requests == old(cloud.requests) || !req.block)
    // A resize is asked for at most once, to the size of the request, and of a
    // volume seen smaller; it stays within the supported maximum.
    ensures cloud.requests == old(cloud.requests) || (
              && ExtractStorage(req.range).Ok?
              && var g := GigaBytes(ExtractStorage(req.range).value);
              && cloud.requests == old(cloud.requests) + [ActRequest(req.volume, Resize(g))]
              && 0 < g <= MAX_GIB
              && SometimeSmaller(cloud.history, |old(cloud.history)| - 1, req.volume, g)
              && (r.Ok? ==> r.value.capacityBytes == g * GIB))
  {
    var v := req.volume;
    if v == NO_ID {
      return Err(InvalidArgument);
    }
    var volume := cloud.GetVolume(v);
    ghost var h1, k1 := cloud.history, |cloud.history| - 1;
    cloud.StateInv();
    if volume.Failed? {
      return Err(Internal);
    }
    var resizeBytes := ExtractStorage(req.range);
    if resizeBytes.Err? {
      return Err(OutOfRange);
    }
    var g := GigaBytes(resizeBytes.value);
    AcceptedGigaBytes(req.range);
    if g <= volume.value.size {
      assert h1[k1].volumes[v].size * GIB == volume.value.size * GIB;
      return Ok(Expanded(volume.value.size * GIB, true));
    }

    ghost var k;
    var done;
    done, k := ResizeAndWait(cloud, v, g, ctx);
    MovedTransitive(cloud.policy, old(cloud.history), h1, cloud.history);
    assert cloud.history[k1].volumes[v].size < g;
    if !done {
      return Err(Internal);
    }
    assert cloud.history[k].volumes[v].size * GIB == g * GIB;
    r := Ok(Expanded(g * GIB, !req.block));
  }

  lemma AcceptedGigaBytes(range: Option<CapacityRange>)
    requires ExtractStorage(range).Ok?
    ensures 0 <= GigaBytes(ExtractStorage(range).value) <= MAX_GIB
    ensures 0 < ExtractStorage(range).value <= MAXIMUM_SIZE
    ensures ExtractStorage(range).value < MINIMUM_SIZE <==> BelowMinimum(range)
  {
    if range.Some? && (range.value.RequiredSet() || range.value.LimitSet()) {
      AcceptedSize(range.value);
    }
  }

  // ---- With nobody else at work --------------------------------------------

  /** What an expansion is answered with while a resize that can be started stays queued. */
  function ExpandAnswer(s: State, req: ExpandRequest): Result<Expanded> {
    if req.volume == NO_ID then Err(InvalidArgument)
    else if req.volume !in s.volumes then Err(Internal)
    else match ExtractStorage(req.range)
         case Err(_) => Err(OutOfRange)
         case Ok(bytes) =>
           var size := s.volumes[req.volume].size;
           if GigaBytes(bytes) <= size then Ok(Expanded(size * GIB, true)) else Err(Internal)
  }

  predicate CanGrow(s: State, req: ExpandRequest) {
    && req.volume != NO_ID && req.volume in s.volumes && !Pending(s, req.volume)
    && ExtractStorage(req.range).Ok?
    && s.volumes[req.volume].size < GigaBytes(ExtractStorage(req.range).value)
  }

  /** The answer is settled by the state, except that growth that can be started may be
      carried out at once, unless it is queued. */
  ghost predicate ExpandSettled(before: State, req: ExpandRequest, queued: bool, r: Result<Expanded>, after: State) {
    if CanGrow(before, req) then
      var g := GigaBytes(ExtractStorage(req.range).value);
      && (r == Ok(Expanded(g * GIB, !req.block)) || r == Err(Internal))
      && Taken(before, req.volume, Resize(g), queued, r.Ok?, after)
    else r == ExpandAnswer(before, req) && after == before
  }

  lemma CalmExpand(w: World, req: ExpandRequest, limit: nat, ctx: seq<bool>)
    requires Calm(w.left)
    ensures var (r, after) := ExpandOutcome(w, req, limit, ctx);
            && Calm(after.left) && (w.left == [] ==> after.left == [])
            && ExpandSettled(w.s, req, w.left == [], r, after.s)
            && (ExpandAnswer(w.s, req).Ok? ==> after.asked == w.asked)
  {
    CalmMeets(w.s, w.left);
    var (volume, at) := ReadVolume(w, req.volume);
    if volume.Got? && ExtractStorage(req.range).Ok? {
      CalmAct(at, req.volume, Resize(GigaBytes(ExtractStorage(req.range).value)), limit, ctx);
    }
  }

  lemma ExpandKeepsInv(w: World, req: ExpandRequest, limit: nat, ctx: seq<bool>)
    requires Inv(w.s)
    ensures Inv(ExpandOutcome(w, req, limit, ctx).1.s)
  {
    ArriveKeepsInv(w);
    if ExtractStorage(req.range).Ok? {
      ActKeepsInv(Arrive(w), req.volume, Resize(GigaBytes(ExtractStorage(req.range).value)), limit, ctx);
    }
  }

  // ---- Retries -------------------------------------------------------------

  /** A volume that has had a size is not seen smaller later. */
  lemma SizedStaysSized(cloud: Cloud, from: int, now: nat, v: Id, bytes: int, g: int)
    requires cloud.Valid() && now < |cloud.history| && g * GIB <= bytes
    requires SometimeSized(cloud.history[..now + 1], from, v, bytes)
    ensures !SometimeSmaller(cloud.history, now, v, g)
    ensures forall later :: SometimeSized(cloud.history, now, v, later) ==> bytes <= later
  {
    var i :| 0 <= from <= i <= now && v in cloud.history[i].volumes && cloud.history[i].volumes[v].size * GIB == bytes;
    forall j | now <= j < |cloud.history| && v in cloud.history[j].volumes
      ensures bytes <= cloud.history[j].volumes[v].size * GIB
    {
      SizesMonotone(cloud.history, cloud.log, i, j, v);
    }
  }

  /** Whatever happens meanwhile, growth that has been seen is not asked for again: an
      expansion to a size the volume once had sends nothing, and never reports less. */
  method ExpandGrown(cloud: Cloud, req: ExpandRequest, ctx: seq<bool>, ghost from: int, ghost bytes: int)
    returns (r: Result<Expanded>)
    requires cloud.Valid() && SometimeSized(cloud.history, from, req.volume, bytes)
    requires ExtractStorage(req.range).Ok? && GigaBytes(ExtractStorage(req.range).value) * GIB <= bytes
    modifies cloud`s, cloud`history, cloud`log, cloud`schedule, cloud`requests
    ensures cloud.Valid() && (r, cloud.Now()) == ExpandOutcome(old(cloud.Now()), req, cloud.limit, ctx)
    ensures cloud.requests == old(cloud.requests)
    ensures r.Ok? ==> r.value.nodeExpansionRequired && bytes <= r.value.capacityBytes
  {
    ghost var h := cloud.history;
    r := ControllerExpandVolume(cloud, req, ctx);
    assert cloud.history[..|h|] == h;
    SizedStaysSized(cloud, from, |h| - 1, req.volume, bytes, GigaBytes(ExtractStorage(req.range).value));
  }

  /** In particular after an expansion that has succeeded: the two ask for at most one
      resize, and the second for none. */
  method ExpandTwice(cloud: Cloud, req: ExpandRequest, ctx: seq<bool>, again: seq<bool>)
    returns (first: Result<Expanded>, second: Result<Expanded>)
    requires cloud.Valid()
    modifies cloud`s, cloud`history, cloud`log, cloud`schedule, cloud`requests
    ensures cloud.Valid()
    ensures var (r, next) := ExpandOutcome(old(cloud.Now()), req, cloud.limit, ctx);
            && first == r && (second, cloud.Now()) == ExpandOutcome(next, req, cloud.limit, again)
            && (first.Ok? ==> cloud.requests == next.asked)
    ensures first.Ok? && second.Ok? ==>
              second.value.nodeExpansionRequired && first.value.capacityBytes <= second.value.capacityBytes
  {
    first := ControllerExpandVolume(cloud, req, ctx);
    if first.Err? {
      second := ControllerExpandVolume(cloud, req, again);
    } else {
      second := ExpandGrown(cloud, req, again, |old(cloud.history)| - 1, first.value.capacityBytes);
    }
  }

  lemma ResizeFinishes(s: State, v: Id, g: int)
    requires v in s.volumes && !Pending(s, v) && s.volumes[v].size < g
    ensures var started := Next(s, Start(v, Resize(g)));
            var finished := Next(started, Finish(|s.actions|));
            && |started.actions| == |s.actions| + 1
            && v in finished.volumes && finished.volumes[v] == s.volumes[v].(size := g)
  {
  }

  /** The world in which the resize of an expansion has completed, if it was queued. */
  ghost function AfterFinish(w: World, r: Result<Expanded>): World {
    if r.Err? && w.s.actions != [] then With(w, Finish(|w.s.actions| - 1)) else w
  }

  /** An expansion whose resize completes late, and then again, with nobody else at
      work: the store has the larger of the old and the requested size, and the retry
      reports it, changes nothing and asks for nothing. */
  lemma ExpandAgain(w: World, req: ExpandRequest, limit: nat, ctx: seq<bool>, again: seq<bool>)
    requires w.left == [] && req.volume != NO_ID && ExtractStorage(req.range).Ok?
    requires req.volume in w.s.volumes && !Pending(w.s, req.volume)
    ensures var (first, next) := ExpandOutcome(w, req, limit, ctx);
            var grown := AfterFinish(next, first);
            var (second, after) := ExpandOutcome(grown, req, limit, again);
            && req.volume in grown.s.volumes
            && grown.s.volumes[req.volume].size
                 == Max(w.s.volumes[req.volume].size, GigaBytes(ExtractStorage(req.range).value))
            && second == Ok(Expanded(grown.s.volumes[req.volume].size * GIB, true))
            && after.s == grown.s && after.asked == next.asked
  {
    var g := GigaBytes(ExtractStorage(req.range).value);
    var (first, next) := ExpandOutcome(w, req, limit, ctx);
    CalmExpand(w, req, limit, ctx);
    if w.s.volumes[req.volume].size < g {
      ResizeFinishes(w.s, req.volume, g);
    }
    CalmExpand(AfterFinish(next, first), req, limit, again);
  }
}
