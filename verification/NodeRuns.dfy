/** What holds over runs of node RPCs. */
module NodeRuns {
  import opened Wrappers
  import opened Node

  /** One step of a run: an RPC, or the attachment of a device making or losing
      progress, or a device replaced by another one or by none. */
  datatype Step =
    | Call(req: Request, c: Conditions)
    | SetRunning(path: string, running: bool)
    | Replace(path: string, device: Option<Device>)

  /** An RPC that was made, whether it succeeded, and whether a stage left its
      target mounted. */
  datatype Event = Event(req: Request, ok: bool, mounted: bool)

  /** Either the attachment is validated or blkid can be trusted. */
  predicate Safe(d: Config, step: Step) {
    step.Call? ==> d.validateAttachment || step.c.truthful
  }

  /** What an RPC says about a target: Some(true) that it is mounted from then on. */
  function Effect(e: Event, target: string): Option<bool> {
    if e.req.target != target then None else
    match e.req
    case Stage(_, _, _, _, _) => if e.mounted then Some(true) else None
    case Publish(_, _, _, _, _, _) => if e.ok then Some(true) else None
    case Unstage(_, _) => if e.ok then Some(false) else None
    case Unpublish(_, _) => if e.ok then Some(false) else None
  }

  /** Whether a target is mounted, read off the calls alone: the last one with an
      effect on it decides. */
  predicate MountedBy(trace: seq<Event>, target: string, initially: set<string>) {
    if trace == [] then target in initially else
    match Effect(trace[|trace| - 1], target)
    case Some(mounted) => mounted
    case None => MountedBy(trace[..|trace| - 1], target, initially)
  }

  /** The formattings from index k on all hit blank devices. */
  ghost predicate OnlyBlank(formats: seq<Formatting>, k: nat) {
    forall i :: k <= i < |formats| ==> formats[i].before.Blank?
  }

  /** Every filesystem is still there, with its data. */
  ghost predicate DataKept(before: map<string, Device>, after: map<string, Device>) {
    forall s :: s in before && before[s].content.Formatted? ==> s in after && after[s].content == before[s].content
  }

  /** What a request makes happen. */
  function EventOf(d: Config, s: NodeState, req: Request, c: Conditions): Event {
    Event(req, Succeeds(d, s, req, c), StageMounts(d, s, req, c))
  }

  // ---- Runs as functions ---------------------------------------------------

  function AfterStep(d: Config, s: NodeState, step: Step): NodeState {
    match step
    case Call(req, c) => AfterCall(d, s, req, c)
    case SetRunning(path, running) =>
      if path in s.devices then s.(devices := s.devices[path := s.devices[path].(running := running)]) else s
    case Replace(path, Some(device)) => s.(devices := s.devices[path := device])
    case Replace(path, None) => s.(devices := s.devices - {path})
  }

  /** The state of the node after a run. */
  function After(d: Config, s: NodeState, steps: seq<Step>): NodeState {
    if steps == [] then s else AfterStep(d, After(d, s, steps[..|steps| - 1]), steps[|steps| - 1])
  }

  /** The calls of a run, with what each of them made happen. */
  function TraceOf(d: Config, s: NodeState, steps: seq<Step>): seq<Event> {
    if steps == [] then []
    else
      var before := steps[..|steps| - 1];
      match steps[|steps| - 1]
      case Call(req, c) => TraceOf(d, s, before) + [EventOf(d, After(d, s, before), req, c)]
      case _ => TraceOf(d, s, before)
  }

  /** A call changes the mounting of its own target only, as its event says. */
  lemma CallMounts(d: Config, s: NodeState, req: Request, c: Conditions)
    ensures forall t :: t in AfterCall(d, s, req, c).mounts <==>
                        match Effect(EventOf(d, s, req, c), t) case Some(mounted) => mounted case None => t in s.mounts
  {
  }

  /** In every run a target is mounted if and only if the last call with an effect on
      it mounted it. */
  lemma {:induction false} MountTable(d: Config, s: NodeState, steps: seq<Step>)
    ensures forall t :: t in After(d, s, steps).mounts <==> MountedBy(TraceOf(d, s, steps), t, s.mounts.Keys)
  {
    if steps != [] {
      var before, last := steps[..|steps| - 1], steps[|steps| - 1];
      MountTable(d, s, before);
      if last.Call? {
        CallMounts(d, After(d, s, before), last.req, last.c);
        assert TraceOf(d, s, steps)[..|TraceOf(d, s, before)|] == TraceOf(d, s, before);
      }
    }
  }

  lemma SafeFormat(d: Config, s: NodeState, source: string, volumeContext: map<string, string>, c: Conditions)
    requires d.validateAttachment || c.truthful
    ensures var after := Prepared(d, s, source, volumeContext, c);
            && s.formats <= after.formats && OnlyBlank(after.formats, |s.formats|)
            && DataKept(s.devices, after.devices)
  {
  }

  /** A call under safe conditions formats blank devices only, and loses no data. */
  lemma SafeCall(d: Config, s: NodeState, req: Request, c: Conditions)
    requires Safe(d, Call(req, c))
    ensures var after := AfterCall(d, s, req, c);
            && s.formats <= after.formats && OnlyBlank(after.formats, |s.formats|)
            && DataKept(s.devices, after.devices)
  {
    if req.Stage? && Rejects(d, req).None? {
      SafeFormat(d, s, SourceOf(d, req), req.volumeContext, c);
    }
  }

  lemma FormatsGrow(d: Config, s: NodeState, step: Step)
    ensures s.formats <= AfterStep(d, s, step).formats
  {
  }

  /** No data loss: a run in which every call has a validated attachment or a truthful
      check formats blank devices only, and keeps all data unless devices are
      replaced. */
  lemma {:induction false} NoDataLoss(d: Config, s: NodeState, steps: seq<Step>)
    requires forall i :: 0 <= i < |steps| ==> Safe(d, steps[i])
    ensures s.formats <= After(d, s, steps).formats && OnlyBlank(After(d, s, steps).formats, |s.formats|)
    ensures (forall i :: 0 <= i < |steps| ==> !steps[i].Replace?) ==> DataKept(s.devices, After(d, s, steps).devices)
  {
    if steps != [] {
      var before, last := steps[..|steps| - 1], steps[|steps| - 1];
      var middle := After(d, s, before);
      assert forall i :: 0 <= i < |before| ==> before[i] == steps[i];
      NoDataLoss(d, s, before);
      FormatsGrow(d, middle, last);
      if last.Call? {
        SafeCall(d, middle, last.req, last.c);
      }
    }
  }

  /** Call number i of a run is at risk in the state it meets. */
  ghost predicate RiskAt(d: Config, s: NodeState, steps: seq<Step>, i: nat)
    requires i < |steps|
  {
    steps[i].Call? && AtRisk(d, After(d, s, steps[..i]), steps[i].req, steps[i].c)
  }

  ghost predicate SomeRisk(d: Config, s: NodeState, steps: seq<Step>) {
    exists i :: 0 <= i < |steps| && RiskAt(d, s, steps, i)
  }

  lemma RiskBefore(d: Config, s: NodeState, steps: seq<Step>)
    requires steps != []
    ensures SomeRisk(d, s, steps) <==> SomeRisk(d, s, steps[..|steps| - 1]) || RiskAt(d, s, steps, |steps| - 1)
  {
    var before := steps[..|steps| - 1];
    forall i | 0 <= i < |before|
      ensures RiskAt(d, s, before, i) <==> RiskAt(d, s, steps, i)
    {
      assert before[..i] == steps[..i];
    }
    if i :| 0 <= i < |before| && RiskAt(d, s, before, i) {
      assert RiskAt(d, s, steps, i);
    }
    if i :| 0 <= i < |steps| && RiskAt(d, s, steps, i) {
      assert i < |before| ==> RiskAt(d, s, before, i);
    }
  }

  /** Exactly the calls at risk destroy data: a run does if and only if one of its
      calls meets a device that is not running and holds a filesystem taken for blank. */
  lemma {:induction false} LossExactly(d: Config, s: NodeState, steps: seq<Step>)
    ensures s.formats <= After(d, s, steps).formats
    ensures Destroys(s.formats, After(d, s, steps).formats) <==> SomeRisk(d, s, steps)
  {
    if steps != [] {
      var before, last := steps[..|steps| - 1], steps[|steps| - 1];
      var middle := After(d, s, before);
      LossExactly(d, s, before);
      RiskBefore(d, s, steps);
      FormatsGrow(d, middle, last);
      StepDestroys(d, middle, last);
      DestroysInSteps(s.formats, middle.formats, AfterStep(d, middle, last).formats);
    }
  }

  lemma StepDestroys(d: Config, s: NodeState, step: Step)
    ensures Destroys(s.formats, AfterStep(d, s, step).formats) <==> step.Call? && AtRisk(d, s, step.req, step.c)
  {
    if step.Call? {
      DestroysExactly(d, s, step.req, step.c);
    }
  }

  lemma DestroysInSteps(a: seq<Formatting>, b: seq<Formatting>, c: seq<Formatting>)
    requires a <= b <= c
    ensures Destroys(a, c) <==> Destroys(a, b) || Destroys(b, c)
  {
    if Destroys(a, b) {
      var i :| |a| <= i < |b| && b[i].before.Formatted?;
      assert c[i].before.Formatted?;
    }
    if Destroys(a, c) {
      var i :| |a| <= i < |c| && c[i].before.Formatted?;
      assert i < |b| ==> b[i].before.Formatted?;
    }
  }

  // ---- Runs of the RPCs ----------------------------------------------------

  /** One RPC, of whatever kind. */
  method Dispatch(m: Mounter, d: Config, req: Request, c: Conditions) returns (e: Event)
    modifies m
    ensures m.State() == AfterCall(d, old(m.State()), req, c)
    ensures e == EventOf(d, old(m.State()), req, c)
  {
    match req
    case Stage(_, _, _, _, _) =>
      var r, mounted := NodeStageVolume(m, d, req, c);
      e := Event(req, r.Ok?, mounted);
    case Unstage(_, _) =>
      var r := NodeUnstageVolume(m, d, req, c);
      e := Event(req, r.Ok?, false);
    case Publish(_, _, _, _, _, _) =>
      var r := NodePublishVolume(m, d, req, c);
      e := Event(req, r.Ok?, false);
    case Unpublish(_, _) =>
      var r := NodeUnpublishVolume(m, d, req, c);
      e := Event(req, r.Ok?, false);
  }

  /** Any run. No device that holds a filesystem is ever formatted, and the mount
      table is what the history of calls says. */
  method Run(m: Mounter, d: Config, steps: seq<Step>) returns (trace: seq<Event>)
    modifies m
    ensures m.State() == After(d, old(m.State()), steps)
    ensures trace == TraceOf(d, old(m.State()), steps)
    ensures (forall i :: 0 <= i < |steps| ==> Safe(d, steps[i])) ==> OnlyBlank(m.formats, |old(m.formats)|)
    ensures (forall i :: 0 <= i < |steps| ==> Safe(d, steps[i]) && !steps[i].Replace?) ==>
              DataKept(old(m.devices), m.devices)
    ensures forall t :: t in m.mounts <==> MountedBy(trace, t, old(m.mounts).Keys)
  {
    ghost var s := m.State();
    trace := [];
    for i := 0 to |steps|
      invariant m.State() == After(d, s, steps[..i])
      invariant trace == TraceOf(d, s, steps[..i])
    {
      assert steps[..i + 1][..i] == steps[..i];
      match steps[i]
      case Call(req, c) =>
        var e := Dispatch(m, d, req, c);
        trace := trace + [e];
      case SetRunning(path, running) =>
        if path in m.devices {
          m.devices := m.devices[path := m.devices[path].(running := running)];
        }
      case Replace(path, device) =>
        m.devices := if device.Some? then m.devices[path := device.value] else m.devices - {path};
    }
    assert steps[..|steps|] == steps;
    MountTable(d, s, steps);
    if forall i :: 0 <= i < |steps| ==> Safe(d, steps[i]) {
      NoDataLoss(d, s, steps);
    }
  }

  /** No mounter call of the RPC fails. */
  predicate Smooth(c: Conditions) {
    !c.formatCheckFails && c.format.Formats? && !c.mountCheckFails && !c.mountFails && !c.resizeFails
  }

  /** Staging again, under whatever conditions are safe, changes nothing, and succeeds
      if nothing fails. */
  lemma StageAgain(d: Config, s: NodeState, req: Request, c: Conditions, again: Conditions)
    requires req.Stage? && Succeeds(d, s, req, c) && Safe(d, Call(req, again))
    ensures var once := AfterCall(d, s, req, c);
            AfterCall(d, once, req, again) == once && (Smooth(again) ==> Succeeds(d, once, req, again))
  {
  }

  /** Publishing again, under whatever conditions, changes nothing, and succeeds if
      nothing fails and the device is found where it needs to be. */
  lemma PublishAgain(d: Config, s: NodeState, req: Request, c: Conditions, again: Conditions)
    requires req.Publish? && Succeeds(d, s, req, c)
    ensures var once := AfterCall(d, s, req, c);
            && AfterCall(d, once, req, again) == once
            && (Smooth(again) && (req.capability.value.Block? ==> again.resolved.Some?) ==>
                Succeeds(d, once, req, again))
  {
  }

  /** Unstaging takes back a fresh stage, and nothing else: the mount table is what it
      was, and the devices are what the stage has left. */
  lemma StageAndUnstage(d: Config, s: NodeState, req: Request, c: Conditions, id: Id, later: Conditions)
    requires req.Stage? && req.target !in s.mounts
    ensures var staged := AfterCall(d, s, req, c);
            var unstage := Unstage(id, req.target);
            Succeeds(d, staged, unstage, later) ==> AfterCall(d, staged, unstage, later) == staged.(mounts := s.mounts)
  {
    StageMeans(d, s, req, c);
    assert AfterCall(d, s, req, c).mounts - {req.target} == s.mounts;
  }

  /** Unpublishing takes back a fresh publish: the node is what it was. */
  lemma PublishAndUnpublish(d: Config, s: NodeState, req: Request, c: Conditions, id: Id, later: Conditions)
    requires req.Publish? && req.target !in s.mounts
    ensures var published := AfterCall(d, s, req, c);
            var unpublish := Unpublish(id, req.target);
            Succeeds(d, published, unpublish, later) ==> AfterCall(d, published, unpublish, later) == s
  {
    var published := AfterCall(d, s, req, c);
    assert published.mounts - {req.target} == s.mounts;
  }

  /** A stage onto the device "data", and conditions in which nothing fails but the check
      may take the device for blank. */
  function StageOfData(d: Config): Request {
    Stage(1, "/staging", Some(Access.Filesystem("", [])), map[d.publishInfoVolumeName := "data"], map[])
  }

  const MISLEADING: Conditions := Conditions(false, false, Formats, false, false, false, false, None)

  /** Without validation, a device that is not running yet and reads as blank is
      formatted although it holds data, and the stage succeeds. */
  lemma LossWithoutValidation(d: Config)
    requires !d.validateAttachment
    ensures var s := NodeState(map[DevicePath("data") := Device(Formatted(7), false)], map[], [], 0);
            && AfterCall(d, s, StageOfData(d), MISLEADING).formats == [Formatting(DevicePath("data"), Formatted(7))]
            && Succeeds(d, s, StageOfData(d), MISLEADING)
  {
  }
}
