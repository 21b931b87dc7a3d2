/** What the node RPCs do and answer, written out in the fields of the request and of
    the node. */
module NodeLaws {
  import opened Wrappers
  import opened Node

  // ---- Formatting ----------------------------------------------------------

  /** The device a stage request names in its publish context. */
  function DeviceOf(d: Config, req: Request): string
    requires req.Stage? && d.publishInfoVolumeName in req.publishContext
  {
    "/dev/disk/by-id/scsi-0DO_Volume_" + req.publishContext[d.publishInfoVolumeName]
  }

  /** A stage request for a filesystem that has all that it needs. */
  predicate Stages(d: Config, req: Request) {
    && req.Stage? && req.volumeId != NO_ID && req.target != ""
    && d.publishInfoVolumeName in req.publishContext
    && req.capability.Some? && req.capability.value.Filesystem?
  }

  /** Neither the current nor the legacy annotation against formatting. */
  predicate Unannotated(volumeContext: map<string, string>) {
    && "dobs.csi.digitalocean.com/noformat" !in volumeContext
    && "com.digitalocean.csi.dobs/noformat" !in volumeContext
  }

  /** Either annotation keeps every device as it is, whatever it holds. */
  lemma AnnotationProtects(d: Config, s: NodeState, req: Request, c: Conditions)
    requires req.Stage?
    requires || "dobs.csi.digitalocean.com/noformat" in req.volumeContext
             || "com.digitalocean.csi.dobs/noformat" in req.volumeContext
    ensures AfterCall(d, s, req, c).devices == s.devices && AfterCall(d, s, req, c).formats == s.formats
  {
  }

  /** A request other than a stage formats nothing. */
  lemma StagesOnlyFormat(d: Config, s: NodeState, req: Request, c: Conditions)
    requires !req.Stage?
    ensures AfterCall(d, s, req, c).devices == s.devices && AfterCall(d, s, req, c).formats == s.formats
  {
  }

  /** Without an annotation a blank device is formatted, once, if its attachment is
      complete or not validated, and nothing fails before mkfs. */
  lemma BlankIsFormatted(d: Config, s: NodeState, req: Request, c: Conditions)
    requires Stages(d, req) && Unannotated(req.volumeContext)
    requires DeviceOf(d, req) in s.devices && s.devices[DeviceOf(d, req)].content.Blank?
    requires d.validateAttachment ==> s.devices[DeviceOf(d, req)].running
    requires !c.formatCheckFails && !c.format.FailsBefore?
    ensures var after := AfterCall(d, s, req, c);
            && after.formats == s.formats + [Formatting(DeviceOf(d, req), Blank)]
            && DeviceOf(d, req) in after.devices
            && (c.format.Formats? <==> after.devices[DeviceOf(d, req)].content.Formatted?)
  {
  }

  /** A running device that holds a filesystem is never formatted. */
  lemma RunningIsKept(d: Config, s: NodeState, req: Request, c: Conditions)
    requires Stages(d, req) && DeviceOf(d, req) in s.devices
    requires s.devices[DeviceOf(d, req)].content.Formatted? && s.devices[DeviceOf(d, req)].running
    ensures AfterCall(d, s, req, c).devices == s.devices && AfterCall(d, s, req, c).formats == s.formats
  {
  }

  /** With validation, a device that is missing or not running is left alone. */
  lemma ValidationProtects(d: Config, s: NodeState, req: Request, c: Conditions)
    requires Stages(d, req) && d.validateAttachment && Unannotated(req.volumeContext)
    requires DeviceOf(d, req) in s.devices ==> !s.devices[DeviceOf(d, req)].running
    ensures AfterCall(d, s, req, c) == s && AnswerTo(d, s, req, c) == Err(Unknown)
  {
  }

  // ---- Mounts --------------------------------------------------------------

  function FsOrDefault(fsType: string): string {
    if fsType == "" then "ext4" else fsType
  }

  /** xfs volumes are mounted whatever their UUID. */
  function WithNoUuid(fsType: string, options: seq<string>): seq<string> {
    if fsType == "xfs" then options + ["nouuid"] else options
  }

  lemma MountedWith(source: string, fsType: string, options: seq<string>)
    ensures MountEntry(source, fsType, options) == Mount(source, fsType, WithNoUuid(fsType, options))
  {
    assert options + [] == options;
  }

  lemma BindOptions(readonly: bool)
    ensures ["bind"] + (if readonly then ["ro"] else []) == if readonly then ["bind", "ro"] else ["bind"]
  {
  }

  /** A stage that succeeds at a free target mounts the device there, with the flags of
      the request. */
  lemma StageMountsDevice(d: Config, s: NodeState, req: Request, c: Conditions)
    requires Stages(d, req) && req.target !in s.mounts && AnswerTo(d, s, req, c).Ok?
    ensures var fs := FsOrDefault(req.capability.value.fsType);
            var mount := Mount(DeviceOf(d, req), fs, WithNoUuid(fs, req.capability.value.flags));
            AfterCall(d, s, req, c).mounts == s.mounts[req.target := mount]
  {
    MountedWith(DeviceOf(d, req), FsOrDefault(req.capability.value.fsType), req.capability.value.flags);
  }

  /** A publish that succeeds at a free target binds the staging path there. */
  lemma PublishBindsStaging(d: Config, s: NodeState, req: Request, c: Conditions)
    requires req.Publish? && req.capability.Some? && req.capability.value.Filesystem?
    requires req.target !in s.mounts && AnswerTo(d, s, req, c).Ok?
    ensures var fs := FsOrDefault(req.capability.value.fsType);
            var options := (if req.readonly then ["bind", "ro"] else ["bind"]) + req.capability.value.flags;
            AfterCall(d, s, req, c) == s.(mounts := s.mounts[req.target := Mount(req.staging, fs,
                                                                                 WithNoUuid(fs, options))])
  {
    BindOptions(req.readonly);
    var options := (if req.readonly then ["bind", "ro"] else ["bind"]) + req.capability.value.flags;
    MountedWith(req.staging, FsOrDefault(req.capability.value.fsType), options);
  }

  /** For a block volume it binds the device the link leads to. */
  lemma PublishBindsDevice(d: Config, s: NodeState, req: Request, c: Conditions)
    requires req.Publish? && req.capability.Some? && req.capability.value.Block?
    requires req.target !in s.mounts && AnswerTo(d, s, req, c).Ok?
    ensures c.resolved.Some?
    ensures var options := if req.readonly then ["bind", "ro"] else ["bind"];
            AfterCall(d, s, req, c) == s.(mounts := s.mounts[req.target := Mount(c.resolved.value, "", options)])
  {
    BindOptions(req.readonly);
    MountedWith(c.resolved.value, "", if req.readonly then ["bind", "ro"] else ["bind"]);
  }

  /** What is mounted at a target already stays, and nothing else is touched; staging a
      block volume does nothing. */
  lemma MountedStays(d: Config, s: NodeState, req: Request, c: Conditions)
    requires req.Stage? || req.Publish?
    ensures req.target in s.mounts ==> AfterCall(d, s, req, c).mounts == s.mounts
    ensures req.Stage? && req.capability.Some? && req.capability.value.Block? ==> AfterCall(d, s, req, c) == s
  {
  }

  // ---- Answers -------------------------------------------------------------

  /** A stage is turned down for what it lacks, and crashes for a capability without an
      access type. */
  lemma StageRejections(d: Config, s: NodeState, req: Request, c: Conditions)
    requires req.Stage?
    ensures var lacking := || req.volumeId == NO_ID || req.target == "" || req.capability.None?
                           || d.publishInfoVolumeName !in req.publishContext;
            && (AnswerTo(d, s, req, c) == Err(InvalidArgument) <==> lacking)
            && (AnswerTo(d, s, req, c) == Err(Crash) <==> !lacking && req.capability.value.NoAccessType?)
            && (!lacking && req.capability.value.Block? ==> AnswerTo(d, s, req, c) == Ok(()))
  {
  }

  /** A stage of a device that is ready and holds a filesystem can fail at the mount and
      at the resize only. */
  lemma StageAnswers(d: Config, s: NodeState, req: Request, c: Conditions)
    requires Stages(d, req)
    ensures Unannotated(req.volumeContext) && c.formatCheckFails ==> AnswerTo(d, s, req, c) == Err(Unknown)
    ensures || !Unannotated(req.volumeContext)
            || (&& DeviceOf(d, req) in s.devices && !c.formatCheckFails
                && s.devices[DeviceOf(d, req)].running && s.devices[DeviceOf(d, req)].content.Formatted?)
            ==>
              AnswerTo(d, s, req, c) == if c.mountCheckFails then Err(Unknown)
                                        else if req.target !in s.mounts && c.mountFails then Err(Internal)
                                        else if c.resizeFails then Err(Internal)
                                        else Ok(())
  {
  }

  /** A format that is needed and fails is an internal error. */
  lemma FormatFailure(d: Config, s: NodeState, req: Request, c: Conditions)
    requires Stages(d, req) && Unannotated(req.volumeContext) && !d.validateAttachment
    requires DeviceOf(d, req) in s.devices ==> s.devices[DeviceOf(d, req)].content.Blank?
    requires !c.formatCheckFails && !c.format.Formats?
    ensures AnswerTo(d, s, req, c) == Err(Internal) && AfterCall(d, s, req, c).mounts == s.mounts
  {
  }

  lemma PublishAnswers(d: Config, s: NodeState, req: Request, c: Conditions)
    requires req.Publish?
    ensures var lacking := || req.volumeId == NO_ID || req.staging == "" || req.target == ""
                           || req.capability.None? || req.capability.value.NoAccessType?
                           || (req.capability.value.Block? && d.publishInfoVolumeName !in req.publishContext);
            AnswerTo(d, s, req, c)
            == if lacking then Err(InvalidArgument)
               else if req.capability.value.Block? && c.resolved.None? then Err(Internal)
               else if c.mountCheckFails then Err(Unknown)
               else if req.target !in s.mounts && c.mountFails then Err(Internal)
               else Ok(())
  {
  }

  /** Taking a mount away succeeds also if there is none. */
  lemma TakeDownAnswers(d: Config, s: NodeState, req: Request, c: Conditions)
    requires req.Unstage? || req.Unpublish?
    ensures var fails := if req.Unstage? then c.mountCheckFails || (req.target in s.mounts && c.unmountFails)
                         else c.unmountFails;
            && AnswerTo(d, s, req, c) == (if req.volumeId == NO_ID || req.target == "" then Err(InvalidArgument)
                                          else if fails then Err(Unknown)
                                          else Ok(()))
            && AfterCall(d, s, req, c) == if AnswerTo(d, s, req, c).Ok? then s.(mounts := s.mounts - {req.target})
                 else s
  {
  }
}
