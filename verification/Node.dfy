/** The node RPCs of driver/node.go, over the devices and mounts of a node. */
module Node {
  import opened Wrappers

  // ---- The node ------------------------------------------------------------

  /** What a device holds. Two filesystems are the same only if they hold the same data. */
  datatype Content = Blank | Formatted(data: nat)

  /** A device; `running` once its attachment has fully completed. */
  datatype Device = Device(content: Content, running: bool)

  datatype Mount = Mount(source: string, fsType: string, options: seq<string>)

  /** One call of `Format`, with what the device held before. */
  datatype Formatting = Formatting(source: string, before: Content)

  /** A format that fails has not touched the device, or has wiped it. */
  datatype Formatter = Formats | FailsBefore | FailsAfter

  /** What befalls the mounter during one RPC. `truthful` says that a device that
      is not running is still reported as formatted if it is. */
  datatype Conditions = Conditions(
    truthful: bool,
    formatCheckFails: bool,
    format: Formatter,
    mountCheckFails: bool,
    mountFails: bool,
    unmountFails: bool,
    resizeFails: bool,
    resolved: Option<string>
  )

  /** The devices by path, the mounts by target, the formattings so far, and how many
      filesystems they have made. */
  datatype NodeState = NodeState(devices: map<string, Device>, mounts: map<string, Mount>, formats: seq<Formatting>,
                                 made: nat)

  /** What blkid makes of a device: a missing one has no identifiers either. */
  predicate Identified(devices: map<string, Device>, source: string, c: Conditions) {
    && source in devices
    && devices[source].content.Formatted?
    && (devices[source].running || c.truthful)
  }

  function AfterFormat(s: NodeState, source: string, c: Conditions): NodeState {
    if source !in s.devices || c.format.FailsBefore? then s
    else
      var device := s.devices[source];
      s.(formats := s.formats + [Formatting(source, device.content)], made := s.made + 1,
         devices := s.devices[source := device.(
          content := if c.format.FailsAfter? then Blank else Formatted(s.made + 1))])
  }

  /** The node, as the `Mounter` sees it. */
  class Mounter {
    var devices: map<string, Device>
    var mounts: map<string, Mount>
    var formats: seq<Formatting>
    var made: nat

    constructor (devices: map<string, Device>, mounts: map<string, Mount>)
      ensures this.devices == devices && this.mounts == mounts && formats == [] && made == 0
    {
      this.devices, this.mounts := devices, mounts;
      formats, made := [], 0;
    }

    /** Whether the device state reads "running". */
    method IsAttached(source: string) returns (attached: bool)
      ensures attached <==> source in devices && devices[source].running
    {
      attached := source in devices && devices[source].running;
    }

    function State(): NodeState
      reads this
    {
      NodeState(devices, mounts, formats, made)
    }

    method IsFormatted(source: string, c: Conditions) returns (r: Result<bool>)
      ensures c.formatCheckFails ==> r == Err(Unknown)
      ensures !c.formatCheckFails ==> r == Ok(Identified(devices, source, c))
    {
      if c.formatCheckFails {
        return Err(Unknown);
      }
      r := Ok(Identified(devices, source, c));
    }

    method Format(source: string, c: Conditions) returns (ok: bool)
      modifies this`devices, this`formats, this`made
      ensures State() == AfterFormat(old(State()), source, c)
      ensures ok <==> source in old(devices) && c.format.Formats?
      ensures source !in old(devices) || c.format.FailsBefore? ==> devices == old(devices) && formats == old(formats)
      ensures source in old(devices) && !c.format.FailsBefore? ==>
                && devices.Keys == old(devices).Keys
                && devices == old(devices)[source := devices[source]]
                && devices[source].running == old(devices)[source].running
                && (devices[source].content.Formatted? <==> c.format.Formats?)
                && formats == old(formats) + [Formatting(source, old(devices)[source].content)]
    {
      if source !in devices || c.format.FailsBefore? {
        return false;
      }
      var device := devices[source];
      formats := formats + [Formatting(source, device.content)];
      made := made + 1;
      devices := devices[source := device.(content := if c.format.FailsAfter? then Blank else Formatted(made))];
      ok := c.format.Formats?;
    }

    method IsMounted(target: string, c: Conditions) returns (r: Result<bool>)
      ensures r == if c.mountCheckFails then Err(Unknown) else Ok(target in mounts)
    {
      r := if c.mountCheckFails then Err(Unknown) else Ok(target in mounts);
    }

    method Mount(source: string, target: string, fsType: string, options: seq<string>, c: Conditions) returns (ok: bool)
      modifies this`mounts
      ensures ok <==> !c.mountFails
      ensures mounts == if ok then old(mounts)[target := MountEntry(source, fsType, options)] else old(mounts)
    {
      if c.mountFails {
        return false;
      }
      mounts := mounts[target := MountEntry(source, fsType, options)];
      ok := true;
    }

    /** Unmounting what is not mounted succeeds. */
    method Unmount(target: string, c: Conditions) returns (ok: bool)
      modifies this`mounts
      ensures ok <==> !c.unmountFails
      ensures mounts == if ok then old(mounts) - {target} else old(mounts)
    {
      if c.unmountFails {
        return false;
      }
      mounts := mounts - {target};
      ok := true;
    }
  }

  function MountEntry(source: string, fsType: string, options: seq<string>): Mount {
    Mount(source, fsType, options + if fsType == "xfs" then ["nouuid"] else [])
  }

  // ---- Requests ------------------------------------------------------------

  datatype Access = Block | Filesystem(fsType: string, flags: seq<string>) | NoAccessType

  datatype Config = Config(publishInfoVolumeName: string, validateAttachment: bool)

  datatype Request =
    | Stage(volumeId: Id, target: string, capability: Option<Access>,
            publishContext: map<string, string>, volumeContext: map<string, string>)
    | Unstage(volumeId: Id, target: string)
    | Publish(volumeId: Id, staging: string, target: string, capability: Option<Access>,
              readonly: bool, publishContext: map<string, string>)
    | Unpublish(volumeId: Id, target: string)

  const NO_FORMAT_KEYS: seq<string> := ["dobs.csi.digitalocean.com/noformat", "com.digitalocean.csi.dobs/noformat"]

  predicate NoFormat(volumeContext: map<string, string>) {
    NO_FORMAT_KEYS[0] in volumeContext || NO_FORMAT_KEYS[1] in volumeContext
  }

  function DevicePath(volumeName: string): string {
    "/dev/disk/by-id/scsi-0DO_Volume_" + volumeName
  }

  function FsTypeOf(fsType: string): string {
    if fsType != "" then fsType else "ext4"
  }

  /** The requests turned down before anything is looked at. */
  function Rejects(d: Config, req: Request): Option<Code> {
    match req
    case Stage(id, target, capability, publishContext, _) =>
      if id == NO_ID || target == "" || capability.None? then Some(InvalidArgument)
      else if d.publishInfoVolumeName !in publishContext then Some(InvalidArgument)
      else if capability.value.NoAccessType? then Some(Crash)
      else None
    case Unstage(id, target) => if id == NO_ID || target == "" then Some(InvalidArgument) else None
    case Publish(id, staging, target, capability, _, publishContext) =>
      if id == NO_ID || staging == "" || target == "" || capability.None? then Some(InvalidArgument)
      else if capability.value.NoAccessType? then Some(InvalidArgument)
      else if capability.value.Block? && d.publishInfoVolumeName !in publishContext then Some(InvalidArgument)
      else None
    case Unpublish(id, target) => if id == NO_ID || target == "" then Some(InvalidArgument) else None
  }

  /** The mount a request makes when nothing is mounted at its target; None for a
      request that mounts nothing. */
  function MountFor(d: Config, req: Request, c: Conditions): Option<Mount> {
    match req
    case Stage(_, _, Some(Filesystem(fsType, flags)), publishContext, _) =>
      if d.publishInfoVolumeName in publishContext
      then Some(MountEntry(DevicePath(publishContext[d.publishInfoVolumeName]), FsTypeOf(fsType), flags)) else None
    case Publish(_, staging, _, Some(Filesystem(fsType, flags)), readonly, _) =>
      Some(MountEntry(staging, FsTypeOf(fsType), ["bind"] + (if readonly then ["ro"] else []) + flags))
    case Publish(_, _, _, Some(Block), readonly, _) =>
      if c.resolved.None? then None
      else Some(MountEntry(c.resolved.value, "", ["bind"] + if readonly then ["ro"] else []))
    case _ => None
  }

  // ---- What each request does ----------------------------------------------

  /** The guards in front of mkfs, for a device that exists. */
  predicate Reaches(d: Config, device: Device, volumeContext: map<string, string>, c: Conditions) {
    && !NoFormat(volumeContext)
    && (d.validateAttachment ==> device.running)
    && !c.formatCheckFails
    && !(device.content.Formatted? && (device.running || c.truthful))
    && !c.format.FailsBefore?
  }

  /** The formatting of a device, if it gets as far. */
  function FormattingOf(d: Config, devices: map<string, Device>, source: string, volumeContext: map<string, string>,
                        c: Conditions): seq<Formatting>
  {
    if source in devices && Reaches(d, devices[source], volumeContext, c)
    then [Formatting(source, devices[source].content)] else []
  }

  /** The first half of a stage: the device is formatted if it may and must be. */
  function Prepared(d: Config, s: NodeState, source: string, volumeContext: map<string, string>,
                    c: Conditions): NodeState
  {
    if source in s.devices && Reaches(d, s.devices[source], volumeContext, c) then AfterFormat(s, source, c) else s
  }

  /** Whether it succeeds. */
  predicate Prepares(d: Config, s: NodeState, source: string, volumeContext: map<string, string>, c: Conditions) {
    NoFormat(volumeContext) ||
    (&& source in s.devices
     && (d.validateAttachment ==> s.devices[source].running)
     && !c.formatCheckFails
     && (Identified(s.devices, source, c) || c.format.Formats?))
  }

  /** The device a stage request is about. */
  function SourceOf(d: Config, req: Request): string
    requires req.Stage? && Rejects(d, req).None?
  {
    DevicePath(req.publishContext[d.publishInfoVolumeName])
  }

  /** A stage leaves its target mounted, whether or not the resize after it succeeds. */
  predicate StageMounts(d: Config, s: NodeState, req: Request, c: Conditions) {
    && req.Stage? && Rejects(d, req).None? && req.capability.value.Filesystem?
    && Prepares(d, s, SourceOf(d, req), req.volumeContext, c)
    && !c.mountCheckFails && (req.target in s.mounts || !c.mountFails)
  }

  /** Whether a request succeeds. */
  predicate Succeeds(d: Config, s: NodeState, req: Request, c: Conditions) {
    && Rejects(d, req).None?
    && match req
       case Stage(_, _, capability, _, _) => capability.value.Block? || (StageMounts(d, s, req, c) && !c.resizeFails)
       case Unstage(_, target) => !c.mountCheckFails && (target !in s.mounts || !c.unmountFails)
       case Publish(_, _, target, capability, _, _) =>
         (capability.value.Block? ==> c.resolved.Some?) && !c.mountCheckFails && (target in s.mounts || !c.mountFails)
       case Unpublish(_, _) => !c.unmountFails
  }

  /** The error of a request that is let through and fails. */
  function Failure(d: Config, s: NodeState, req: Request, c: Conditions): Code
    requires Rejects(d, req).None?
  {
    match req
    case Stage(_, _, _, _, volumeContext) =>
      var source := SourceOf(d, req);
      if Prepares(d, s, source, volumeContext, c) then (if c.mountCheckFails then Unknown else Internal)
      else if d.validateAttachment && !(source in s.devices && s.devices[source].running) then Unknown
      else if c.formatCheckFails then Unknown
      else Internal
    case Publish(_, _, _, capability, _, _) =>
      if capability.value.Block? && c.resolved.None? then Internal
      else if c.mountCheckFails then Unknown
      else Internal
    case _ => Unknown
  }

  /** The answer to a request. */
  function AnswerTo(d: Config, s: NodeState, req: Request, c: Conditions): Result<()> {
    if Rejects(d, req).Some? then Err(Rejects(d, req).value)
    else if Succeeds(d, s, req, c) then Ok(())
    else Err(Failure(d, s, req, c))
  }

  /** The state with the mount of a request at its target, unless something is
      mounted there. */
  function Mounted(d: Config, s: NodeState, req: Request, c: Conditions): NodeState {
    if req.target in s.mounts || MountFor(d, req, c).None? then s
    else s.(mounts := s.mounts[req.target := MountFor(d, req, c).value])
  }

  /** What a request does to the node. */
  function AfterCall(d: Config, s: NodeState, req: Request, c: Conditions): NodeState {
    match req
    case Stage(_, _, _, _, volumeContext) =>
      if Rejects(d, req).Some? || !req.capability.value.Filesystem? then s
      else
        var prepared := Prepared(d, s, SourceOf(d, req), volumeContext, c);
        if StageMounts(d, s, req, c) then Mounted(d, prepared, req, c) else prepared
    case Publish(_, _, _, _, _, _) => if Succeeds(d, s, req, c) then Mounted(d, s, req, c) else s
    case _ => if Succeeds(d, s, req, c) then s.(mounts := s.mounts - {req.target}) else s
  }

  ghost predicate Destroys(before: seq<Formatting>, after: seq<Formatting>) {
    exists i :: |before| <= i < |after| && after[i].before.Formatted?
  }

  /** The device holds a filesystem that is taken for blank, and nothing prevents the
      format. */
  predicate AtRisk(d: Config, s: NodeState, req: Request, c: Conditions) {
    && req.Stage? && Rejects(d, req).None? && req.capability.value.Filesystem?
    && var source := SourceOf(d, req);
    && source in s.devices && s.devices[source].content.Formatted? && !s.devices[source].running
    && !c.truthful && !d.validateAttachment && !NoFormat(req.volumeContext)
    && !c.formatCheckFails && !c.format.FailsBefore?
  }

  /** A request destroys data exactly if a filesystem is taken for blank, which takes
      a stage of a device that is not running and no validation of the attachment. */
  lemma DestroysExactly(d: Config, s: NodeState, req: Request, c: Conditions)
    ensures Destroys(s.formats, AfterCall(d, s, req, c).formats) <==> AtRisk(d, s, req, c)
  {
    var after := AfterCall(d, s, req, c);
    if AtRisk(d, s, req, c) {
      assert after.formats[|s.formats|].before.Formatted?;
    }
  }

  /** The mount table is left alone, or gains the mount of the request at its
      target, where nothing was mounted. */
  ghost predicate MountsChange(d: Config, req: Request, c: Conditions, before: map<string, Mount>,
                               after: map<string, Mount>)
  {
    after == before ||
    (req.target !in before && MountFor(d, req, c).Some? && after == before[req.target := MountFor(d, req, c).value])
  }

  /** What that means for a stage: what is formatted, what is mounted, and what is
      left alone. */
  lemma StageMeans(d: Config, s: NodeState, req: Request, c: Conditions)
    requires req.Stage?
    ensures var after := AfterCall(d, s, req, c);
            && (Rejects(d, req).Some? || req.capability.value.Block? ==> after == s && !StageMounts(d, s, req, c))
            && (Rejects(d, req).None? && req.capability.value.Filesystem? ==>
                  after.formats == s.formats + FormattingOf(d, s.devices, SourceOf(d, req), req.volumeContext, c))
            && (after.formats == s.formats ==> after.devices == s.devices)
            && after.devices.Keys == s.devices.Keys
            && (Rejects(d, req).None? ==> forall o :: o in after.devices && o != SourceOf(d, req) ==>
                after.devices[o] == s.devices[o])
            && MountsChange(d, req, c, s.mounts, after.mounts)
            && (if StageMounts(d, s, req, c) then req.target in after.mounts else after.mounts == s.mounts)
    ensures var after := AfterCall(d, s, req, c);
            Succeeds(d, s, req, c) && req.capability.value.Filesystem? && !NoFormat(req.volumeContext) ==>
              var source := SourceOf(d, req);
              && source in after.devices && after.devices[source].content.Formatted?
              && (d.validateAttachment ==> after.devices[source].running)
    ensures Succeeds(d, s, req, c) ==> (StageMounts(d, s, req, c) <==> req.capability.value.Filesystem?)
    ensures !Succeeds(d, s, req, c) && StageMounts(d, s, req, c) ==> c.resizeFails
  {
  }

  // ---- The RPCs ------------------------------------------------------------

  /** Whether the annotations of a volume forbid formatting it. */
  method FindNoFormat(volumeContext: map<string, string>) returns (noFormat: bool)
    ensures noFormat <==> NoFormat(volumeContext)
    ensures noFormat <==> || "dobs.csi.digitalocean.com/noformat" in volumeContext
                          || "com.digitalocean.csi.dobs/noformat" in volumeContext
  {
    noFormat := false;
    for i := 0 to |NO_FORMAT_KEYS|
      invariant !noFormat
      invariant forall j :: 0 <= j < i ==> NO_FORMAT_KEYS[j] !in volumeContext
    {
      noFormat := NO_FORMAT_KEYS[i] in volumeContext;
      if noFormat {
        return;
      }
    }
  }

  /** The first half of NodeStageVolume: formats the device if it may and must. */
  method FormatIfNeeded(m: Mounter, d: Config, source: string, volumeContext: map<string, string>, c: Conditions)
    returns (r: Result<()>)
    modifies m`devices, m`formats, m`made
    ensures m.State() == Prepared(d, old(m.State()), source, volumeContext, c)
    ensures r.Ok? <==> Prepares(d, old(m.State()), source, volumeContext, c)
    ensures r.Err? ==>
              var detached := d.validateAttachment && !(source in old(m.devices) && old(m.devices)[source].running);
              r.code == if detached || c.formatCheckFails then Unknown else Internal
    // Nothing but the one device changes.
    ensures m.devices.Keys == old(m.devices).Keys
    ensures forall s :: s in m.devices && s != source ==> m.devices[s] == old(m.devices)[s]
    ensures source in m.devices ==> m.devices[source].running == old(m.devices)[source].running
    // It is formatted exactly if all of the guards let it through.
    ensures m.formats == old(m.formats) + FormattingOf(d, old(m.devices), source, volumeContext, c)
    ensures m.formats == old(m.formats) ==> m.devices == old(m.devices)
    // A device that passes unformatted by choice only may be blank afterwards.
    ensures r.Ok? && !NoFormat(volumeContext) ==> source in m.devices && m.devices[source].content.Formatted?
    ensures r.Ok? && d.validateAttachment && !NoFormat(volumeContext) ==> m.devices[source].running
    ensures NoFormat(volumeContext) ==> r.Ok?
    ensures (source in old(m.devices) && (d.validateAttachment ==> old(m.devices)[source].running)
             && !c.formatCheckFails && c.format.Formats?) ==> r.Ok?
  {
    var noFormat := FindNoFormat(volumeContext);
    if !noFormat {
      if d.validateAttachment {
        var attached := m.IsAttached(source);
        if !attached {
          return Err(Unknown);
        }
      }
      var formatted := m.IsFormatted(source, c);
      if formatted.Err? {
        return Err(formatted.code);
      }
      if !formatted.value {
        var ok := m.Format(source, c);
        if !ok {
          return Err(Internal);
        }
      }
    }
    r := Ok(());
  }

  /** A stage request that is not rejected, for a filesystem: the device is prepared
      and mounted, and the filesystem resized. */
  method StageFilesystem(m: Mounter, d: Config, req: Request, c: Conditions) returns (r: Result<()>, mounted: bool)
    requires req.Stage? && Rejects(d, req).None? && req.capability.value.Filesystem?
    modifies m
    ensures m.State() == AfterCall(d, old(m.State()), req, c)
    ensures r == AnswerTo(d, old(m.State()), req, c)
    ensures mounted <==> StageMounts(d, old(m.State()), req, c)
  {
    mounted := false;
    var source := DevicePath(req.publishContext[d.publishInfoVolumeName]);
    var fsType := "ext4";
    if req.capability.value.fsType != "" {
      fsType := req.capability.value.fsType;
    }

    var prepared := FormatIfNeeded(m, d, source, req.volumeContext, c);
    if prepared.Err? {
      return prepared, false;
    }

    var already := m.IsMounted(req.target, c);
    if already.Err? {
      return Err(already.code), false;
    }
    if !already.value {
      var ok := m.Mount(source, req.target, fsType, req.capability.value.flags, c);
      if !ok {
        return Err(Internal), false;
      }
    }
    mounted := true;

    if c.resizeFails {
      return Err(Internal), true;
    }
    r := Ok(());
  }

  /** `mounted` is true when a target is known to be mounted as the call returns,
      which it can be although the call fails: a failing resize leaves it so. */
  method NodeStageVolume(m: Mounter, d: Config, req: Request, c: Conditions) returns (r: Result<()>, mounted: bool)
    requires req.Stage?
    modifies m
    ensures m.State() == AfterCall(d, old(m.State()), req, c)
    ensures r == AnswerTo(d, old(m.State()), req, c)
    ensures mounted <==> StageMounts(d, old(m.State()), req, c)
    ensures Destroys(old(m.formats), m.formats) <==> AtRisk(d, old(m.State()), req, c)
    ensures r == Err(Crash) <==> Rejects(d, req) == Some(Crash)
  {
    DestroysExactly(d, m.State(), req, c);
    mounted := false;
    if req.volumeId == NO_ID || req.target == "" || req.capability.None? {
      return Err(InvalidArgument), false;
    }
    if d.publishInfoVolumeName !in req.publishContext {
      return Err(InvalidArgument), false;
    }
    if req.capability.value.Block? {
      return Ok(()), false;
    }
    if req.capability.value.NoAccessType? {
      // The mount part of the capability is nil here.
      return Err(Crash), false;
    }
    r, mounted := StageFilesystem(m, d, req, c);
  }

  method NodeUnstageVolume(m: Mounter, d: Config, req: Request, c: Conditions) returns (r: Result<()>)
    requires req.Unstage?
    modifies m`mounts
    ensures m.State() == AfterCall(d, old(m.State()), req, c)
    ensures r == AnswerTo(d, old(m.State()), req, c)
    ensures m.mounts == if r.Ok? then old(m.mounts) - {req.target} else old(m.mounts)
    ensures Rejects(d, req).None? && !c.mountCheckFails && !c.unmountFails ==> r.Ok?
  {
    if req.volumeId == NO_ID || req.target == "" {
      return Err(InvalidArgument);
    }
    var mounted := m.IsMounted(req.target, c);
    if mounted.Err? {
      return Err(mounted.code);
    }
    if mounted.value {
      var ok := m.Unmount(req.target, c);
      if !ok {
        return Err(Unknown);
      }
    }
    assert req.target !in m.mounts;
    assert m.mounts == old(m.mounts) - {req.target};
    r := Ok(());
  }

  method NodePublishVolume(m: Mounter, d: Config, req: Request, c: Conditions) returns (r: Result<()>)
    requires req.Publish?
    modifies m`mounts
    ensures m.State() == AfterCall(d, old(m.State()), req, c)
    ensures r == AnswerTo(d, old(m.State()), req, c)
    ensures MountsChange(d, req, c, old(m.mounts), m.mounts)
    ensures r.Ok? ==> req.target in m.mounts
    ensures r.Ok? && req.readonly && req.target !in old(m.mounts) ==> "ro" in m.mounts[req.target].options
    ensures r.Err? ==> m.mounts == old(m.mounts)
    ensures Rejects(d, req).None? && !c.mountCheckFails && !c.mountFails && c.resolved.Some? ==> r.Ok?
  {
    if req.volumeId == NO_ID || req.staging == "" || req.target == "" || req.capability.None? {
      return Err(InvalidArgument);
    }
    var options := ["bind"];
    if req.readonly {
      options := options + ["ro"];
    }
    assert options == ["bind"] + (if req.readonly then ["ro"] else []);
    match req.capability.value
    case Block =>
      r := PublishBlock(m, d, req, options, c);
    case Filesystem(fsType, flags) =>
      r := PublishFilesystem(m, req, options, c);
    case NoAccessType =>
      r := Err(InvalidArgument);
  }

  /** `nodePublishVolumeForFileSystem`. */
  method PublishFilesystem(m: Mounter, req: Request, options: seq<string>, c: Conditions) returns (r: Result<()>)
    requires req.Publish? && req.capability.Some? && req.capability.value.Filesystem?
    modifies m`mounts
    ensures r.Ok? ==>
              var access := req.capability.value;
              var mount := MountEntry(req.staging, FsTypeOf(access.fsType), options + access.flags);
              m.mounts == if req.target in old(m.mounts) then old(m.mounts) else old(m.mounts)[req.target := mount]
    ensures r.Err? ==> m.mounts == old(m.mounts)
    ensures r == if c.mountCheckFails then Err(Unknown)
                 else if req.target !in old(m.mounts) && c.mountFails then Err(Internal)
                 else Ok(())
  {
    var mountOptions := options;
    var flags := req.capability.value.flags;
    for i := 0 to |flags|
      invariant mountOptions == options + flags[..i]
    {
      assert flags[..i + 1] == flags[..i] + [flags[i]];
      mountOptions := mountOptions + [flags[i]];
    }
    assert flags[..|flags|] == flags;
    var fsType := "ext4";
    if req.capability.value.fsType != "" {
      fsType := req.capability.value.fsType;
    }
    var mounted := m.IsMounted(req.target, c);
    if mounted.Err? {
      return Err(mounted.code);
    }
    if !mounted.value {
      var ok := m.Mount(req.staging, req.target, fsType, mountOptions, c);
      if !ok {
        return Err(Internal);
      }
    }
    r := Ok(());
  }

  /** `nodePublishVolumeForBlock`; the symbolic link of the device leads to `c.resolved`. */
  method PublishBlock(m: Mounter, d: Config, req: Request, options: seq<string>, c: Conditions) returns (r: Result<()>)
    requires req.Publish?
    modifies m`mounts
    ensures d.publishInfoVolumeName !in req.publishContext ==> r == Err(InvalidArgument)
    ensures r.Ok? ==> c.resolved.Some? &&
                      m.mounts == if req.target in old(m.mounts) then old(m.mounts)
                                  else old(m.mounts)[req.target := MountEntry(c.resolved.value, "", options)]
    ensures r.Err? ==> m.mounts == old(m.mounts)
    ensures d.publishInfoVolumeName in req.publishContext ==>
              r == if c.resolved.None? then Err(Internal)
                   else if c.mountCheckFails then Err(Unknown)
                   else if req.target !in old(m.mounts) && c.mountFails then Err(Internal)
                   else Ok(())
  {
    if d.publishInfoVolumeName !in req.publishContext {
      return Err(InvalidArgument);
    }
    if c.resolved.None? {
      return Err(Internal);
    }
    var mounted := m.IsMounted(req.target, c);
    if mounted.Err? {
      return Err(mounted.code);
    }
    if !mounted.value {
      var ok := m.Mount(c.resolved.value, req.target, "", options, c);
      if !ok {
        return Err(Internal);
      }
    }
    r := Ok(());
  }

  method NodeUnpublishVolume(m: Mounter, d: Config, req: Request, c: Conditions) returns (r: Result<()>)
    requires req.Unpublish?
    modifies m`mounts
    ensures m.State() == AfterCall(d, old(m.State()), req, c)
    ensures r == AnswerTo(d, old(m.State()), req, c)
    ensures m.mounts == if r.Ok? then old(m.mounts) - {req.target} else old(m.mounts)
  {
    if req.volumeId == NO_ID || req.target == "" {
      return Err(InvalidArgument);
    }
    var ok := m.Unmount(req.target, c);
    r := if ok then Ok(()) else Err(Unknown);
  }
}
