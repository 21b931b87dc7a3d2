/** The part of the DigitalOcean API the controller works on, as a state and the
    events that change it. */
module CloudState {
  import opened Wrappers

  /** What an asynchronous action does to a volume. */
  datatype Kind = Attach(droplet: int) | Detach(droplet: int) | Resize(size: int)

  datatype Status = InProgress | Completed | Errored

  datatype Action = Action(volume: Id, kind: Kind, status: Status)

  /** A volume; its size is in GiB. */
  datatype Volume = Volume(name: string, region: string, size: int, droplets: seq<int>, tags: set<string>)

  /** Volumes by ID, of which `issued` is the latest given out; actions by number;
      the sizes of the snapshots by ID. */
  datatype State = State(
    volumes: map<Id, Volume>,
    issued: Id,
    droplets: set<int>,
    actions: seq<Action>,
    tags: set<string>,
    snapshots: map<Id, int>
  )

  datatype Event =
    | Start(volume: Id, kind: Kind)
    | Apply(volume: Id, kind: Kind)
    | Finish(action: nat)
    | Abandon(action: nat)
    | NewVolume(name: string, region: string, size: int, tags: set<string>)
    | DeleteVolume(volume: Id)
    | AddDroplet(droplet: int)
    | RemoveDroplet(droplet: int)
    | CreateTag(tag: string)
    | TagVolume(volume: Id, tag: string)
    | UntagVolume(volume: Id, tag: string)
    | AddSnapshot(snapshot: Id, size: int)
    | RemoveSnapshot(snapshot: Id)

  function Without(ds: seq<int>, d: int): (r: seq<int>)
    ensures |r| <= |ds|
    ensures forall x :: x in r <==> x in ds && x != d
  {
    if ds == [] then [] else (if ds[0] == d then [] else [ds[0]]) + Without(ds[1..], d)
  }

  // ---- Transitions ---------------------------------------------------------

  predicate Pending(s: State, v: Id) {
    exists i :: 0 <= i < |s.actions| && s.actions[i].volume == v && s.actions[i].status.InProgress?
  }

  /** The requests the API accepts: on a volume without a pending action, an
      attachment of a volume that has none, the removal of one that exists, or
      growth. */
  predicate Admissible(s: State, v: Id, kind: Kind) {
    && v in s.volumes
    && !Pending(s, v)
    && match kind
       case Attach(d) => d in s.droplets && s.volumes[v].droplets == []
       case Detach(d) => d in s.volumes[v].droplets
       case Resize(g) => s.volumes[v].size < g
  }

  function Carried(volume: Volume, kind: Kind): Volume {
    match kind
    case Attach(d) => volume.(droplets := volume.droplets + [d])
    case Detach(d) => volume.(droplets := Without(volume.droplets, d))
    case Resize(g) => volume.(size := g)
  }

  /** An action can complete as long as the volume, and the droplet to attach it
      to, are there. */
  predicate CanFinish(s: State, i: nat) {
    && i < |s.actions|
    && s.actions[i].status.InProgress?
    && s.actions[i].volume in s.volumes
    && (s.actions[i].kind.Attach? ==> s.actions[i].kind.droplet in s.droplets)
  }

  function Next(s: State, e: Event): State {
    match e
    case Start(v, kind) =>
      if Admissible(s, v, kind) then s.(actions := s.actions + [Action(v, kind, InProgress)]) else s
    case Apply(v, kind) =>
      if Admissible(s, v, kind)
      then s.(actions := s.actions + [Action(v, kind, Completed)],
              volumes := s.volumes[v := Carried(s.volumes[v], kind)])
      else s
    case Finish(i) =>
      if CanFinish(s, i) then
        var a := s.actions[i];
        s.(actions := s.actions[i := a.(status := Completed)],
           volumes := s.volumes[a.volume := Carried(s.volumes[a.volume], a.kind)])
      else s
    case Abandon(i) =>
      if i < |s.actions| && s.actions[i].status.InProgress?
      then s.(actions := s.actions[i := s.actions[i].(status := Errored)]) else s
    case NewVolume(name, region, size, tags) =>
      if 0 < size
      then s.(issued := s.issued + 1, tags := s.tags + tags,
              volumes := s.volumes[s.issued + 1 := Volume(name, region, size, [], tags)])
      else s
    case DeleteVolume(v) => s.(volumes := s.volumes - {v})
    case AddDroplet(d) => if 0 < d then s.(droplets := s.droplets + {d}) else s
    case RemoveDroplet(d) =>
      s.(droplets := s.droplets - {d},
         volumes := map v | v in s.volumes :: s.volumes[v].(droplets := Without(s.volumes[v].droplets, d)))
    case CreateTag(tag) => s.(tags := s.tags + {tag})
    case TagVolume(v, tag) =>
      if v in s.volumes && tag in s.tags
      then s.(volumes := s.volumes[v := s.volumes[v].(tags := s.volumes[v].tags + {tag})]) else s
    case UntagVolume(v, tag) =>
      if v in s.volumes
      then s.(volumes := s.volumes[v := s.volumes[v].(tags := s.volumes[v].tags - {tag})]) else s
    case AddSnapshot(id, size) =>
      if 0 < size && id !in s.snapshots then s.(snapshots := s.snapshots[id := size]) else s
    case RemoveSnapshot(id) => s.(snapshots := s.snapshots - {id})
  }

  // ---- The invariant of every run ------------------------------------------

  /** At most one attachment per volume, to a droplet that exists. */
  ghost predicate VolumesInv(s: State) {
    && (forall d :: d in s.droplets ==> 0 < d)
    && forall v :: v in s.volumes ==>
         && NO_ID < v <= s.issued
         && |s.volumes[v].droplets| <= 1
         && (forall d :: d in s.volumes[v].droplets ==> d in s.droplets)
         && 0 < s.volumes[v].size
  }

  /** At most one pending action per volume, which has lost nothing of what made
      it admissible. */
  ghost predicate ActionsInv(s: State) {
    && (forall i :: 0 <= i < |s.actions| ==> s.actions[i].volume <= s.issued)
    && (forall i, j ::
          0 <= i < j < |s.actions| && s.actions[i].status.InProgress? && s.actions[j].status.InProgress? ==>
          s.actions[i].volume != s.actions[j].volume)
    && (forall i :: 0 <= i < |s.actions| && s.actions[i].status.InProgress? && s.actions[i].volume in s.volumes ==>
          Awaits(s.volumes[s.actions[i].volume], s.actions[i].kind))
  }

  predicate Awaits(volume: Volume, kind: Kind) {
    match kind
    case Attach(_) => volume.droplets == []
    case Detach(_) => true
    case Resize(g) => volume.size < g
  }

  ghost predicate Inv(s: State) {
    && VolumesInv(s)
    && ActionsInv(s)
    && forall id :: id in s.snapshots ==> 0 < s.snapshots[id]
  }

  /** The events in the life of an action. */
  predicate ActionEvent(e: Event) {
    e.Start? || e.Apply? || e.Finish? || e.Abandon?
  }

  lemma ActionsKeepVolumes(s: State, e: Event)
    requires Inv(s) && ActionEvent(e)
    ensures VolumesInv(Next(s, e))
  {
  }

  lemma ActionsKeepActions(s: State, e: Event)
    requires Inv(s) && ActionEvent(e)
    ensures ActionsInv(Next(s, e))
  {
  }

  lemma OthersKeepVolumes(s: State, e: Event)
    requires Inv(s) && !ActionEvent(e)
    ensures VolumesInv(Next(s, e))
  {
  }

  lemma OthersKeepActions(s: State, e: Event)
    requires Inv(s) && !ActionEvent(e)
    ensures ActionsInv(Next(s, e))
  {
  }

  lemma NextKeepsInv(s: State, e: Event)
    requires Inv(s)
    ensures Inv(Next(s, e))
  {
    if ActionEvent(e) {
      ActionsKeepVolumes(s, e);
      ActionsKeepActions(s, e);
    } else {
      OthersKeepVolumes(s, e);
      OthersKeepActions(s, e);
    }
  }

  // ---- The maximum size ----------------------------------------------------

  /** The largest volume, in GiB. */
  const MAX_GIB: int := 16 * 1024

  /** No size beyond the maximum, pending growth and snapshots included. */
  ghost predicate Bounded(s: State) {
    && (forall v :: v in s.volumes ==> s.volumes[v].size <= MAX_GIB)
    && (forall id :: id in s.snapshots ==> s.snapshots[id] <= MAX_GIB)
    && (forall i :: 0 <= i < |s.actions| && s.actions[i].status.InProgress? ==> BoundedKind(s.actions[i].kind))
  }

  predicate BoundedKind(kind: Kind) {
    kind.Resize? ==> kind.size <= MAX_GIB
  }

  predicate BoundedEvent(e: Event) {
    match e
    case Start(_, kind) => BoundedKind(kind)
    case Apply(_, kind) => BoundedKind(kind)
    case NewVolume(_, _, size, _) => size <= MAX_GIB
    case AddSnapshot(_, size) => size <= MAX_GIB
    case _ => true
  }

  // ---- Runs ----------------------------------------------------------------

  ghost predicate IsRun(history: seq<State>, log: seq<Event>) {
    && |history| == |log| + 1
    && forall i {:trigger log[i]} :: 0 <= i < |log| ==> history[i + 1] == Next(history[i], log[i])
  }

  lemma ExtendRun(history: seq<State>, log: seq<Event>, e: Event)
    requires IsRun(history, log)
    ensures IsRun(history + [Next(history[|history| - 1], e)], log + [e])
  {
  }

  /** Every reachable state keeps the invariant: in particular no volume is ever
      attached to two droplets. */
  lemma {:induction false} RunKeepsInv(history: seq<State>, log: seq<Event>, k: nat)
    requires IsRun(history, log) && Inv(history[0]) && k < |history|
    ensures Inv(history[k])
    ensures forall v :: v in history[k].volumes ==> |history[k].volumes[v].droplets| <= 1
  {
    if 0 < k {
      RunKeepsInv(history, log, k - 1);
      NextKeepsInv(history[k - 1], log[k - 1]);
    }
  }

  /** What other clients of the API abstain from: untagging, creating volumes, and
      sizes beyond the maximum. */
  datatype Policy = Policy(noUntag: bool, noCreate: bool, bounded: bool)

  const ANYTHING: Policy := Policy(false, false, false)

  predicate Allows(p: Policy, e: Event) {
    && (p.noUntag ==> !e.UntagVolume?)
    && (p.noCreate ==> !e.NewVolume?)
    && (p.bounded ==> BoundedEvent(e))
  }

  /** What a volume keeps for as long as it exists: its name and region, a size
      that never shrinks, and its tags if nobody untags. An ID is never reused. */
  ghost predicate Kept(p: Policy, a: State, b: State) {
    && a.issued <= b.issued
    && (p.noCreate ==> a.issued == b.issued)
    && forall v :: v in b.volumes && v <= a.issued ==> KeptVolume(p, a, b, v)
  }

  ghost predicate KeptVolume(p: Policy, a: State, b: State, v: Id)
    requires v in b.volumes
  {
    && v in a.volumes
    && a.volumes[v].name == b.volumes[v].name
    && a.volumes[v].region == b.volumes[v].region
    && a.volumes[v].size <= b.volumes[v].size
    && (p.noUntag ==> a.volumes[v].tags <= b.volumes[v].tags)
  }

  lemma KeptTransitive(p: Policy, a: State, b: State, c: State)
    requires Kept(p, a, b) && Kept(p, b, c)
    ensures Kept(p, a, c)
  {
    forall v | v in c.volumes && v <= a.issued
      ensures KeptVolume(p, a, c, v)
    {
      assert KeptVolume(p, b, c, v);
      assert KeptVolume(p, a, b, v);
    }
  }

  lemma NextKeepsVolume(p: Policy, s: State, e: Event, v: Id)
    requires Inv(s) && Allows(p, e) && v in Next(s, e).volumes && v <= s.issued
    ensures KeptVolume(p, s, Next(s, e), v)
  {
  }

  lemma NextKeeps(p: Policy, s: State, e: Event)
    requires Inv(s) && Allows(p, e)
    ensures Kept(p, s, Next(s, e))
  {
    forall v | v in Next(s, e).volumes && v <= s.issued
      ensures KeptVolume(p, s, Next(s, e), v)
    {
      NextKeepsVolume(p, s, e, v);
    }
  }

  /** Over any part of any run. */
  lemma {:induction false} RunKeeps(p: Policy, history: seq<State>, log: seq<Event>, i: nat, j: nat)
    requires IsRun(history, log) && Inv(history[0]) && i <= j < |history|
    requires forall e :: e in log ==> Allows(p, e)
    ensures Kept(p, history[i], history[j])
    decreases j
  {
    if i < j {
      RunKeeps(p, history, log, i, j - 1);
      RunKeepsInv(history, log, j - 1);
      NextKeeps(p, history[j - 1], log[j - 1]);
      KeptTransitive(p, history[i], history[j - 1], history[j]);
    }
  }

  /** Volume sizes are monotone over every run, whoever takes part in it. */
  lemma SizesMonotone(history: seq<State>, log: seq<Event>, i: nat, j: nat, v: Id)
    requires IsRun(history, log) && Inv(history[0]) && i <= j < |history|
    requires v in history[i].volumes && v in history[j].volumes
    ensures history[i].volumes[v].size <= history[j].volumes[v].size
  {
    RunKeepsInv(history, log, i);
    RunKeeps(ANYTHING, history, log, i, j);
    assert KeptVolume(ANYTHING, history[i], history[j], v);
  }

  /** A tag stays on a volume for as long as the volume exists and nobody untags. */
  lemma TagStays(history: seq<State>, log: seq<Event>, i: nat, j: nat, v: Id, tag: string)
    requires IsRun(history, log) && Inv(history[0]) && i <= j < |history|
    requires forall e :: e in log ==> !e.UntagVolume?
    requires v in history[i].volumes && tag in history[i].volumes[v].tags && v in history[j].volumes
    ensures tag in history[j].volumes[v].tags
  {
    RunKeepsInv(history, log, i);
    RunKeeps(Policy(true, false, false), history, log, i, j);
    assert KeptVolume(Policy(true, false, false), history[i], history[j], v);
  }

  lemma NextKeepsBound(s: State, e: Event)
    requires Bounded(s) && BoundedEvent(e)
    ensures Bounded(Next(s, e))
  {
  }

  /** No volume outgrows the maximum that every client keeps to. */
  lemma {:induction false} RunKeepsBound(history: seq<State>, log: seq<Event>, k: nat)
    requires IsRun(history, log) && Bounded(history[0]) && k < |history|
    requires forall e :: e in log ==> BoundedEvent(e)
    ensures Bounded(history[k])
  {
    if 0 < k {
      RunKeepsBound(history, log, k - 1);
      NextKeepsBound(history[k - 1], log[k - 1]);
    }
  }

  // ---- Completion ----------------------------------------------------------

  /** The volume is as the action wants it. */
  predicate Done(s: State, v: Id, kind: Kind) {
    && v in s.volumes
    && match kind
       case Attach(d) => d in s.volumes[v].droplets
       case Detach(d) => d !in s.volumes[v].droplets
       case Resize(g) => s.volumes[v].size == g
  }

  /** Action number i is this one, whatever has become of it. */
  ghost predicate Tracked(s: State, i: nat, v: Id, kind: Kind) {
    i < |s.actions| && s.actions[i].volume == v && s.actions[i].kind == kind
  }

  lemma NextTracks(s: State, e: Event, i: nat, v: Id, kind: Kind)
    requires Tracked(s, i, v, kind)
    ensures Tracked(Next(s, e), i, v, kind)
    ensures Next(s, e).actions[i].status.Completed? && !s.actions[i].status.Completed? ==> Done(Next(s, e), v, kind)
  {
  }

  /** An action seen completed had its effect at some instant since it was seen
      under way: nothing else but carrying it out completes it. */
  lemma {:induction false} CompletionInstant(history: seq<State>, log: seq<Event>, i: nat, j: nat, a: nat, v: Id,
                                             kind: Kind)
    returns (k: nat)
    requires IsRun(history, log) && i <= j < |history|
    requires Tracked(history[i], a, v, kind)
    requires history[i].actions[a].status.Completed? ==> Done(history[i], v, kind)
    requires a < |history[j].actions| && history[j].actions[a].status.Completed?
    ensures i <= k <= j && Done(history[k], v, kind)
    decreases j - i
  {
    if history[i].actions[a].status.Completed? {
      k := i;
    } else {
      NextTracks(history[i], log[i], a, v, kind);
      k := CompletionInstant(history, log, i + 1, j, a, v, kind);
    }
  }
}
