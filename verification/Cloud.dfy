/** The API as the driver meets it: calls that change a shared state, with other
    clients and the API itself at work between any two of them. */
module CloudApi {
  import opened Wrappers
  import opened CloudState

  /** The configuration of the driver; an empty `doTag` means no tagging. */
  datatype Driver = Driver(region: string, doTag: string)

  /** The replies the driver tells apart. */
  datatype ApiError =
    | Missing
    | AlreadyAttached
    | AttachmentNotFound
    | PendingEvent
    | VolumeLimit
    | CapacityLimit
    | Other

  datatype Reply<+T> = Got(value: T) | Failed(error: ApiError)

  /** An action as a reply reports it. */
  datatype ActionRef = ActionRef(id: nat, status: Status)

  /** What may go wrong with a call: it does not arrive, its reply is lost, or the
      account is at its limit, which bears on the creation of volumes only. */
  datatype Fault = NoFault | Unreachable | ReplyLost | OverLimit

  /** Whether the API queues an action, or carries it out at once and returns no
      action or a completed one. */
  datatype Speed = Queued | AtOnce | AtOnceWithAction

  /** What happens around one call: the events before it, and its circumstances. */
  datatype Tick = Tick(events: seq<Event>, fault: Fault, speed: Speed)

  const QUIET: Tick := Tick([], NoFault, Queued)

  // ---- What a schedule brings ----------------------------------------------

  function TickOf(schedule: seq<Tick>): Tick {
    if schedule == [] then QUIET else schedule[0]
  }

  function Rest(schedule: seq<Tick>): seq<Tick> {
    if schedule == [] then [] else schedule[1..]
  }

  /** The caller gets no reply. */
  predicate NoReply(t: Tick) {
    t.fault == Unreachable || t.fault == ReplyLost
  }

  ghost function AfterEvents(s: State, events: seq<Event>): State {
    if events == [] then s else Next(AfterEvents(s, events[..|events| - 1]), events[|events| - 1])
  }

  /** The state a call meets. */
  ghost function Met(s: State, schedule: seq<Tick>): State {
    AfterEvents(s, TickOf(schedule).events)
  }

  /** Nobody else is at work and no call fails; how fast actions are is left open. */
  ghost predicate Calm(schedule: seq<Tick>) {
    forall t :: t in schedule ==> t.events == [] && t.fault == NoFault
  }

  lemma CalmMeets(s: State, schedule: seq<Tick>)
    requires Calm(schedule)
    ensures Met(s, schedule) == s && TickOf(schedule).fault == NoFault && Calm(Rest(schedule))
  {
    if schedule != [] {
      assert schedule[0] in schedule;
    }
  }

  /** The API carries out an action as it is asked for and returns none. */
  ghost predicate CarriedOutUnseen(s: State, schedule: seq<Tick>, v: Id, kind: Kind, limit: nat) {
    var t := TickOf(schedule);
    && !NoReply(t)
    && t.speed == AtOnce
    && Refusal(Met(s, schedule), v, kind, limit).None?
  }

  /** The requests of the driver that are meant to change something. */
  datatype Request =
    | ActRequest(volume: Id, kind: Kind)
    | CreateRequest(name: string, region: string, size: int, tags: set<string>, snapshot: Option<Id>)
    | TagRequest(volume: Id, tag: string)
    | CreateTagRequest(tag: string)

  ghost predicate Obeys(p: Policy, schedule: seq<Tick>) {
    forall t :: t in schedule ==> forall e :: e in t.events ==> Allows(p, e)
  }

  /** The policy as far as the driver keeps to it as well, which does create volumes. */
  function Shared(p: Policy): Policy {
    p.(noCreate := false)
  }

  ghost predicate Followed(p: Policy, log: seq<Event>) {
    forall e :: e in log ==> Allows(Shared(p), e)
  }

  function Last<T>(xs: seq<T>): T
    requires xs != []
  {
    xs[|xs| - 1]
  }

  /** The history goes on from where it was. */
  ghost predicate Moved(p: Policy, before: seq<State>, after: seq<State>) {
    && before != [] && before <= after
    && Kept(p, Last(before), Last(after))
  }

  lemma MovedTransitive(p: Policy, a: seq<State>, b: seq<State>, c: seq<State>)
    requires Moved(p, a, b) && Moved(p, b, c)
    ensures Moved(p, a, c)
  {
    KeptTransitive(p, Last(a), Last(b), Last(c));
  }

  function AttachedTo(s: State, droplet: int): set<Id> {
    set v | v in s.volumes && droplet in s.volumes[v].droplets
  }

  /** An attachment or removal is under way on the droplet. */
  predicate Busy(s: State, droplet: int) {
    exists i :: 0 <= i < |s.actions| && s.actions[i].status.InProgress?
                && (s.actions[i].kind == Attach(droplet) || s.actions[i].kind == Detach(droplet))
  }

  /** The answer to a request for an action that is not accepted. */
  function Refusal(s: State, v: Id, kind: Kind, limit: nat): Option<ApiError> {
    if v !in s.volumes then Some(Missing) else
    match kind
    case Attach(d) =>
      if d !in s.droplets then Some(Missing)
      else if d in s.volumes[v].droplets then Some(AlreadyAttached)
      else if Pending(s, v) || Busy(s, d) then Some(PendingEvent)
      else if s.volumes[v].droplets != [] then Some(Other)
      else if limit <= |AttachedTo(s, d)| then Some(VolumeLimit)
      else None
    case Detach(d) =>
      if Pending(s, v) || Busy(s, d) then Some(PendingEvent)
      else if d !in s.volumes[v].droplets then Some(AttachmentNotFound)
      else None
    case Resize(g) =>
      if Pending(s, v) then Some(PendingEvent)
      else if g <= s.volumes[v].size then Some(Other)
      else None
  }

  lemma NotRefusedIsAdmissible(s: State, v: Id, kind: Kind, limit: nat)
    requires Refusal(s, v, kind, limit).None?
    ensures Admissible(s, v, kind)
  {
  }

  /** The volumes a listing by region and name finds. */
  function Named(s: State, region: string, name: string): map<Id, Volume> {
    map v | v in s.volumes && s.volumes[v].region == region && s.volumes[v].name == name :: s.volumes[v]
  }

  // ---- Calls as functions --------------------------------------------------

  /** All that the outcome of a call depends on, and all that it changes: the state,
      what the schedule still brings, the requests so far, and the number of states the
      history has come to. */
  datatype World = World(s: State, left: seq<Tick>, asked: seq<Request>, age: nat)

  /** The world a call meets. */
  ghost function Arrive(w: World): World {
    w.(s := Met(w.s, w.left), left := Rest(w.left), age := w.age + |TickOf(w.left).events|)
  }

  /** The world after an event. */
  ghost function With(w: World, e: Event): World {
    w.(s := Next(w.s, e), age := w.age + 1)
  }

  ghost function ReadVolume(w: World, v: Id): (Reply<Volume>, World) {
    var at := Arrive(w);
    var found := if v in at.s.volumes then Got(at.s.volumes[v]) else Failed(Missing);
    (if NoReply(TickOf(w.left)) then Failed(Other) else found, at)
  }

  /** No call is made for an ID that no droplet can have. */
  ghost function ReadDroplet(w: World, d: int): (Reply<()>, World) {
    if d < 1 then (Failed(Other), w)
    else
      var at := Arrive(w);
      (if NoReply(TickOf(w.left)) then Failed(Other) else if d in at.s.droplets then Got(()) else Failed(Missing), at)
  }

  ghost function ReadSnapshot(w: World, id: Id): (Reply<int>, World) {
    var at := Arrive(w);
    var found := if id in at.s.snapshots then Got(at.s.snapshots[id]) else Failed(Missing);
    (if NoReply(TickOf(w.left)) then Failed(Other) else found, at)
  }

  ghost function ReadNamed(w: World, region: string, name: string): (Reply<map<Id, Volume>>, World) {
    var at := Arrive(w);
    (if NoReply(TickOf(w.left)) then Failed(Other) else Got(Named(at.s, region, name)), at)
  }

  ghost function ReadAction(w: World, a: nat): (Reply<Status>, World) {
    var at := Arrive(w);
    var found := if a < |at.s.actions| then Got(at.s.actions[a].status) else Failed(Missing);
    (if NoReply(TickOf(w.left)) then Failed(Other) else found, at)
  }

  /** The request for an action, which the API queues or carries out at once. */
  ghost function Acted(w: World, v: Id, kind: Kind, limit: nat): (Reply<Option<ActionRef>>, World) {
    var t, at := TickOf(w.left), Arrive(w).(asked := w.asked + [ActRequest(v, kind)]);
    var refusal := Refusal(at.s, v, kind, limit);
    if t.fault == Unreachable then (Failed(Other), at)
    else if refusal.Some? then (Failed(if NoReply(t) then Other else refusal.value), at)
    else (Accepted(t, |at.s.actions|), With(at, if t.speed == Queued then Start(v, kind) else Apply(v, kind)))
  }

  /** The reply to a request that is accepted as action number i. */
  function Accepted(t: Tick, i: nat): Reply<Option<ActionRef>> {
    if NoReply(t) then Failed(Other)
    else if t.speed == AtOnce then Got(None)
    else Got(Some(ActionRef(i, if t.speed == Queued then InProgress else Completed)))
  }

  /** The API does not find a tag that has not been created. */
  ghost function Tagging(w: World, tag: string, v: Id): (Reply<()>, World) {
    var t, at := TickOf(w.left), Arrive(w).(asked := w.asked + [TagRequest(v, tag)]);
    var found := tag in at.s.tags && v in at.s.volumes;
    (if NoReply(t) then Failed(Other) else if found then Got(()) else Failed(Missing),
     if t.fault != Unreachable && found then With(at, TagVolume(v, tag)) else at)
  }

  ghost function AddingTag(w: World, tag: string): (Reply<()>, World) {
    var t, at := TickOf(w.left), Arrive(w).(asked := w.asked + [CreateTagRequest(tag)]);
    (if NoReply(t) then Failed(Other) else Got(()), if t.fault == Unreachable then at else With(at, CreateTag(tag)))
  }

  /** The creation of a volume, as large as the snapshot if it is made from one. The ID
      of the new volume is the next one. */
  ghost function Creating(w: World, name: string, region: string, size: int, tags: set<string>, snapshot: Option<Id>)
    : (Reply<(Id, Volume)>, World)
  {
    var t, at := TickOf(w.left), Arrive(w).(asked := w.asked + [CreateRequest(name, region, size, tags, snapshot)]);
    var made := CreatedSize(at.s, size, snapshot);
    if t.fault == OverLimit then (Failed(CapacityLimit), at)
    else if t.fault == Unreachable || made <= 0 then (Failed(Other), at)
    else
      (if NoReply(t) then Failed(Other) else Got((at.s.issued + 1, Volume(name, region, made, [], tags))),
       With(at, NewVolume(name, region, made, tags)))
  }

  // ---- Calls keep the invariant --------------------------------------------

  lemma {:induction false} EventsKeepInv(s: State, events: seq<Event>)
    requires Inv(s)
    ensures Inv(AfterEvents(s, events))
  {
    if events != [] {
      EventsKeepInv(s, events[..|events| - 1]);
      NextKeepsInv(AfterEvents(s, events[..|events| - 1]), events[|events| - 1]);
    }
  }

  lemma ArriveKeepsInv(w: World)
    requires Inv(w.s)
    ensures Inv(Arrive(w).s)
  {
    EventsKeepInv(w.s, TickOf(w.left).events);
  }

  lemma ActedKeepsInv(w: World, v: Id, kind: Kind, limit: nat)
    requires Inv(w.s)
    ensures Inv(Acted(w, v, kind, limit).1.s)
  {
    ArriveKeepsInv(w);
    NextKeepsInv(Arrive(w).s, if TickOf(w.left).speed == Queued then Start(v, kind) else Apply(v, kind));
  }

  lemma TaggingKeepsInv(w: World, tag: string, v: Id)
    requires Inv(w.s)
    ensures Inv(Tagging(w, tag, v).1.s)
  {
    ArriveKeepsInv(w);
    NextKeepsInv(Arrive(w).s, TagVolume(v, tag));
  }

  lemma AddingTagKeepsInv(w: World, tag: string)
    requires Inv(w.s)
    ensures Inv(AddingTag(w, tag).1.s)
  {
    ArriveKeepsInv(w);
    NextKeepsInv(Arrive(w).s, CreateTag(tag));
  }

  lemma CreatingKeepsInv(w: World, name: string, region: string, size: int, tags: set<string>, snapshot: Option<Id>)
    requires Inv(w.s)
    ensures Inv(Creating(w, name, region, size, tags, snapshot).1.s)
  {
    ArriveKeepsInv(w);
    NextKeepsInv(Arrive(w).s, NewVolume(name, region, CreatedSize(Arrive(w).s, size, snapshot), tags));
  }

  class Cloud {
    var s: State
    var schedule: seq<Tick>
    var requests: seq<Request>
    const limit: nat
    ghost const policy: Policy
    ghost var history: seq<State>
    ghost var log: seq<Event>

    ghost predicate Valid()
      reads this
    {
      && IsRun(history, log)
      && Inv(history[0])
      && Last(history) == s
      && Obeys(policy, schedule)
      && Followed(policy, log)
      && (policy.bounded ==> Bounded(history[0]))
    }

    ghost function Now(): World
      reads this
    {
      World(s, schedule, requests, |history|)
    }

    /** The state is as good as every state of a run. */
    lemma StateInv()
      requires Valid()
      ensures Inv(s) && (policy.bounded ==> Bounded(s))
    {
      RunKeepsInv(history, log, |history| - 1);
      if policy.bounded {
        RunKeepsBound(history, log, |history| - 1);
      }
    }

    constructor (s: State, schedule: seq<Tick>, limit: nat, ghost policy: Policy)
      requires Inv(s) && Obeys(policy, schedule) && (policy.bounded ==> Bounded(s))
      ensures Valid() && this.s == s && this.schedule == schedule && this.limit == limit && this.policy == policy
      ensures requests == [] && history == [s] && log == []
    {
      this.s, this.schedule, this.limit, this.policy := s, schedule, limit, policy;
      requests, history, log := [], [s], [];
    }

    method Emit(e: Event)
      requires Valid() && Allows(Shared(policy), e)
      modifies this`s, this`history, this`log
      ensures Valid()
      ensures s == Next(old(s), e) && history == old(history) + [s] && log == old(log) + [e]
      ensures Allows(policy, e) ==> Moved(policy, old(history), history)
    {
      ExtendRun(history, log, e);
      StateInv();
      if Allows(policy, e) {
        NextKeeps(policy, s, e);
      }
      s := Next(s, e);
      history := history + [s];
      log := log + [e];
    }

    /** What happens before the next call arrives. Once the schedule is used up
        nobody else is at work any more. */
    method Turn() returns (t: Tick)
      requires Valid()
      modifies this`s, this`history, this`log, this`schedule
      ensures Valid() && Moved(policy, old(history), history)
      ensures t == TickOf(old(schedule)) && schedule == Rest(old(schedule)) && s == Met(old(s), old(schedule))
      ensures |history| == |old(history)| + |t.events|
    {
      if schedule == [] {
        return QUIET;
      }
      t := schedule[0];
      for i := 0 to |t.events|
        invariant Valid() && schedule == old(schedule) && Moved(policy, old(history), history)
        invariant s == AfterEvents(old(s), t.events[..i]) && |history| == |old(history)| + i
      {
        ghost var before := history;
        assert t in schedule && t.events[i] in t.events;
        assert t.events[..i + 1][..i] == t.events[..i];
        Emit(t.events[i]);
        MovedTransitive(policy, old(history), before, history);
      }
      assert t.events[..|t.events|] == t.events;
      schedule := schedule[1..];
    }

    method GetVolume(v: Id) returns (r: Reply<Volume>)
      requires Valid()
      modifies this`s, this`history, this`log, this`schedule
      ensures Valid() && Moved(policy, old(history), history)
      ensures (r, Now()) == ReadVolume(old(Now()), v)
    {
      var t := Turn();
      if NoReply(t) {
        return Failed(Other);
      }
      r := if v in s.volumes then Got(s.volumes[v]) else Failed(Missing);
    }

    /** The client refuses an ID below 1 without a call. */
    method GetDroplet(d: int) returns (r: Reply<()>)
      requires Valid()
      modifies this`s, this`history, this`log, this`schedule
      ensures Valid() && Moved(policy, old(history), history)
      ensures (r, Now()) == ReadDroplet(old(Now()), d)
    {
      if d < 1 {
        return Failed(Other);
      }
      var t := Turn();
      if NoReply(t) {
        return Failed(Other);
      }
      r := if d in s.droplets then Got(()) else Failed(Missing);
    }

    method GetSnapshot(id: Id) returns (r: Reply<int>)
      requires Valid()
      modifies this`s, this`history, this`log, this`schedule
      ensures Valid() && Moved(policy, old(history), history)
      ensures (r, Now()) == ReadSnapshot(old(Now()), id)
    {
      var t := Turn();
      if NoReply(t) {
        return Failed(Other);
      }
      r := if id in s.snapshots then Got(s.snapshots[id]) else Failed(Missing);
    }

    method FindVolumes(region: string, name: string) returns (r: Reply<map<Id, Volume>>)
      requires Valid()
      modifies this`s, this`history, this`log, this`schedule
      ensures Valid() && Moved(policy, old(history), history)
      ensures (r, Now()) == ReadNamed(old(Now()), region, name)
    {
      var t := Turn();
      if NoReply(t) {
        return Failed(Other);
      }
      r := Got(Named(s, region, name));
    }

    method GetAction(i: nat) returns (r: Reply<Status>)
      requires Valid() && i < |s.actions|
      modifies this`s, this`history, this`log, this`schedule
      ensures Valid() && Moved(policy, old(history), history)
      ensures i < |s.actions| && (r, Now()) == ReadAction(old(Now()), i)
    {
      ghost var k := |history| - 1;
      var t := Turn();
      ActionsStay(history, log, k, |history| - 1);
      if NoReply(t) {
        return Failed(Other);
      }
      r := Got(s.actions[i].status);
    }

    /** The API takes on an action: it queues it, or carries it out at once. */
    method Accept(v: Id, kind: Kind, queued: bool) returns (a: ActionRef)
      requires Valid() && BoundedKind(kind) && Admissible(s, v, kind)
      modifies this`s, this`history, this`log
      ensures Valid() && Moved(policy, old(history), history)
      ensures s == Next(old(s), if queued then Start(v, kind) else Apply(v, kind))
      ensures |history| == |old(history)| + 1
      ensures a == ActionRef(|old(s).actions|, if queued then InProgress else Completed)
      ensures Tracked(s, a.id, v, kind) && s.actions[a.id].status == a.status && (!queued ==> Done(s, v, kind))
    {
      var i := |s.actions|;
      if queued {
        Emit(Start(v, kind));
      } else {
        Emit(Apply(v, kind));
      }
      a := ActionRef(i, s.actions[i].status);
    }

    /** Asks for an action on a volume; growth is asked for within the maximum only. */
    method Act(v: Id, kind: Kind) returns (r: Reply<Option<ActionRef>>)
      requires Valid() && BoundedKind(kind)
      modifies this`s, this`history, this`log, this`schedule, this`requests
      ensures Valid() && Moved(policy, old(history), history)
      ensures (r, Now()) == Acted(old(Now()), v, kind, limit)
      // An action that has been accepted is under way or done.
      ensures r.Got? && r.value.None? ==> Done(s, v, kind)
      ensures r.Got? && r.value.Some? ==>
                && Tracked(s, r.value.value.id, v, kind)
                && s.actions[r.value.value.id].status == r.value.value.status
                && (r.value.value.status.Completed? ==> Done(s, v, kind))
      // One that has not is answered with the reason.
      ensures r.Failed? && r.error != Other ==> Refusal(s, v, kind, limit) == Some(r.error)
    {
      requests := requests + [ActRequest(v, kind)];
      var t := Turn();
      if t.fault == Unreachable {
        return Failed(Other);
      }
      var refusal := Refusal(s, v, kind, limit);
      if refusal.Some? {
        return Failed(if NoReply(t) then Other else refusal.value);
      }
      NotRefusedIsAdmissible(s, v, kind, limit);
      ghost var before := history;
      var a := Accept(v, kind, t.speed == Queued);
      MovedTransitive(policy, old(history), before, history);
      r := if NoReply(t) then Failed(Other) else Got(if t.speed == AtOnce then None else Some(a));
    }

    method TagResources(tag: string, v: Id) returns (r: Reply<()>)
      requires Valid()
      modifies this`s, this`history, this`log, this`schedule, this`requests
      ensures Valid() && Moved(policy, old(history), history)
      ensures (r, Now()) == Tagging(old(Now()), tag, v)
      ensures r.Got? ==> v in s.volumes && tag in s.volumes[v].tags
    {
      requests := requests + [TagRequest(v, tag)];
      var t := Turn();
      if t.fault == Unreachable {
        return Failed(Other);
      }
      if tag !in s.tags || v !in s.volumes {
        return Failed(if NoReply(t) then Other else Missing);
      }
      ghost var before := history;
      Emit(TagVolume(v, tag));
      MovedTransitive(policy, old(history), before, history);
      r := if NoReply(t) then Failed(Other) else Got(());
    }

    method AddTag(tag: string) returns (r: Reply<()>)
      requires Valid()
      modifies this`s, this`history, this`log, this`schedule, this`requests
      ensures Valid() && Moved(policy, old(history), history)
      ensures (r, Now()) == AddingTag(old(Now()), tag)
    {
      requests := requests + [CreateTagRequest(tag)];
      var t := Turn();
      if t.fault == Unreachable {
        return Failed(Other);
      }
      ghost var before := history;
      Emit(CreateTag(tag));
      MovedTransitive(policy, old(history), before, history);
      r := if NoReply(t) then Failed(Other) else Got(());
    }

    /** The API makes a volume, under the next ID. */
    method Make(name: string, region: string, size: int, tags: set<string>) returns (made: (Id, Volume))
      requires Valid() && 0 < size && (policy.bounded ==> size <= MAX_GIB)
      modifies this`s, this`history, this`log
      ensures Valid() && old(history) <= history && |history| == |old(history)| + 1
      ensures s == Next(old(s), NewVolume(name, region, size, tags))
      ensures made == (old(s).issued + 1, Volume(name, region, size, [], tags))
    {
      Emit(NewVolume(name, region, size, tags));
      made := (s.issued, s.volumes[s.issued]);
    }

    method Create(name: string, region: string, size: int, tags: set<string>, snapshot: Option<Id>)
      returns (r: Reply<(Id, Volume)>, ghost middle: seq<State>)
      requires Valid() && size <= MAX_GIB
      modifies this`s, this`history, this`log, this`schedule, this`requests
      ensures Valid()
      ensures (r, Now()) == Creating(old(Now()), name, region, size, tags, snapshot)
      // Up to the call itself, only others are at work.
      ensures Moved(policy, old(history), middle) && middle <= history && Inv(Last(middle))
      ensures Last(middle) == Met(old(s), old(schedule))
    {
      requests := requests + [CreateRequest(name, region, size, tags, snapshot)];
      var t := Turn();
      middle := history;
      StateInv();
      if t.fault == OverLimit {
        return Failed(CapacityLimit), middle;
      }
      var made := CreatedSize(s, size, snapshot);
      if t.fault == Unreachable || made <= 0 {
        return Failed(Other), middle;
      }
      var volume := Make(name, region, made, tags);
      r := if NoReply(t) then Failed(Other) else Got(volume);
    }
  }

  /** The size the API gives a new volume; 0 if it will not make it. */
  function CreatedSize(s: State, size: int, snapshot: Option<Id>): int {
    if size < 1 then 0
    else if snapshot.None? then size
    else if snapshot.value in s.snapshots then s.snapshots[snapshot.value]
    else 0
  }

  lemma {:induction false} ActionsStay(history: seq<State>, log: seq<Event>, i: nat, j: nat)
    requires IsRun(history, log) && i <= j < |history|
    ensures |history[i].actions| <= |history[j].actions|
    decreases j
  {
    if i < j {
      ActionsStay(history, log, i, j - 1);
      assert history[j] == Next(history[j - 1], log[j - 1]);
    }
  }
}
