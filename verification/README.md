# A verified model of the DigitalOcean CSI driver

The driver turns requests of a container orchestrator into calls of the
DigitalOcean API and into mounts on a node. This project models the parts of it
that carry hard properties and proves those properties with Dafny 4.11:

- **Paging** (`Paging`, `PagingChain`, `Listing`, `Tokens`): item-based tokens are
  served from a page-based API. Every call is shown to return a slice of the
  inventory, for all 32-bit tokens and sizes, whatever page size the API imposes;
  the chain obtained by following `NextToken` returns the inventory exactly in the
  cases stated by `PagingChain.ChainExact`.
- **The controller** (`CloudState`, `CloudApi`, `Waiting`, `Publishing`, `Expanding`,
  `Provisioning`, `ControllerRuns`, `Capacity`): volumes, attachments, actions and
  tags are the state of a class `Cloud`. The class keeps its whole history as ghost
  state. Each RPC is a method that makes API calls; before each call any number of
  events by other clients and by the API itself may happen, and each call may fail
  or lose its reply; the schedule of these ticks is an input. A `World` is the state,
  what the schedule still brings, the requests sent and the length of the history so
  far; every RPC is proved equal to a function from worlds to replies and worlds, and
  every run of RPCs to the records of its calls, each with the worlds before and after
  it, for every schedule. So each error has its cause in the ticks of the call itself.
  What a response proves is stated about an instant of the history ("at some instant
  of the call the volume was attached"). That the answer is settled by the state when
  nobody else is at work, the exact crash, retries and the requests sent are lemmas
  about the functions.
- **Snapshots** (`Snapshots`): the scan through the pages of existing snapshots, the
  creation after it and the deletion, equal to functions of the snapshots there are,
  in serial runs with API failures.
- **The node** (`Node`, `NodeRuns`): formatting and mounting over a table of devices
  and a table of mounts. Every RPC is proved equal to a function on the state of the
  node, and the results over runs are lemmas about that function.
- **Laws** (`ControllerLaws`, `ListingLaws`, `NodeLaws`): what the functions above
  answer and change, case by case, in the fields of the request and of the state.

`Wrappers` holds the result types, the status codes and 32-bit wrap-around.

## Assumptions about the environment

- Resource IDs are numbers, 0 being the empty string. A string field is compared
  only; node IDs arrive parsed, `None` standing for one that is empty or not a number.
- A page request for page 0 is served as page 1, one for a negative page fails. A
  page holds at most `cap` items, and links report the page that was asked for.
- The API gives out volume IDs once, keeps droplet IDs positive, accepts an action
  only on a volume without a pending one, attaches only a volume that is not
  attached, resizes only upwards, and answers "already attached" only for the
  droplet asked for. An action that is returned as nil has been carried out. A
  volume made from a snapshot has the size of the snapshot. The size of a volume is
  at least 1 GiB.
- Inventories hold fewer than 2^31 items where chains of calls are concerned, and
  pages fewer than 2^31.
- A context is given by the polls it leaves room for and by whether it has ended
  when the answer to each arrives.
- A droplet ID below 1 is refused by the API client without a call, and is then an
  error of no status (vendor/github.com/digitalocean/godo/droplets.go:395).
- "Nobody else at work" means a schedule without events of others and without faults,
  in which the API may queue actions or carry them out at once. "Undisturbed" means an
  empty schedule: a queued action then stays queued, and waiting for it runs out of time.
- `blkid` reports a device that is missing as unformatted, and may report one that
  is not running as unformatted. A format that fails
  has either not touched the device or wiped it.

## Where the code falls short of its comments

- A token is described as the index of the first item wanted. That is so exactly for
  the tokens that `maxEntries` does not divide; the others are off by one
  (`PagingChain.WindowExact`). A chain with `maxEntries` 1 therefore omits the second
  item (`PagingChain.ChainOfOneOmitsSecond`), and a chain with `maxEntries` above the
  page size cap repeats items from its second call on (`PagingChain.CappedSecondCall`).
- `CreateVolume` is called idempotent. A retry returns the volume exactly if the size
  stored is the size asked for, to the byte; a size that is not a multiple of 1 GiB
  makes every retry a conflict, and so does a snapshot larger than the size
  (`Provisioning.CreateTwice`; an instance is the 1.5 GiB of
  `Provisioning.ConflictWitness`).
- A limit beyond the maximum size is refused although smaller supported sizes satisfy
  it (`Capacity.LoneLimitRefused`; exactly when: `Capacity.AcceptedExactly`), and a
  required size below the minimum that comes with a limit of at least the minimum is
  accepted (`Capacity.OneByteAccepted`; exactly when: `Capacity.AcceptedSize`) and then
  fails at the API as 0 GiB (`Provisioning.NothingBelowMinimum`).
- Without `--validate-attachment` a device that is not running yet can lose its data
  (`NodeRuns.LossWithoutValidation`; exactly when: `Node.DestroysExactly` for a call,
  `NodeRuns.LossExactly` for a run).
- `CreateVolume` looks at the status of a resize action without checking it for nil.
  The model answers `Crash` there: exactly if the volume is made smaller than asked
  for and the API then grows it at once and returns no action
  (`Provisioning.CrashExactly`; an instance is `Provisioning.CrashWitness`).
  `NodeStageVolume` crashes exactly for a capability without an access type
  (`Node.NodeStageVolume`).

## Model

| member | source | states |
|---|---|---|
| Tokens.RoundTrip | driver/controller.go:840-887 | a token formatted into a response and parsed from the next request is the same 32-bit number |
| Tokens.NumbersExactly | driver/controller.go:840-847 | a token with a character that is neither a digit nor a sign in front, an empty one and a lone sign are no numbers; up to nine digits always are |
| Tokens.SignsAndZeros | driver/controller.go:840-847 | a plus sign and leading zeros make no difference |
| Tokens.TooLarge | driver/controller.go:840-847 | a number that 32 bits do not hold is refused |
| Paging.Fetch | driver/driver_test.go:412-454 | the paged API: a page is the slice of the inventory between its bounds, the links say whether it is the last one and which page it was |
| Paging.Trim | driver/paging.go:83-97 | what is left of a page: the items after the token, cut to the room left, and whether a cut was made |
| Paging.TakePage | driver/paging.go:76-97 | the items of one page the caller wants are those from the index it has come to, in the inventory |
| Paging.Turn | driver/paging.go:76-120 | when the loop stops, all that was asked for or all there is has been collected, and more is reported exactly if more is there; otherwise it goes on where the page ends |
| Paging.LoopPages | driver/paging.go:66-120 | the loop returns the items from the first wanted to the last, and stops at the page where that is reached |
| Paging.CollectPages | driver/paging.go:66-120 | stitched pages are one gap-free slice from the start offset, of maxEntries items or to the end, under any page size cap; a success asks for exactly the pages it needs, at most two when no cap interferes; it fails exactly when one of those pages fails |
| Paging.ListResources | driver/paging.go:30-135 | for every 32-bit token and maxEntries the listing is the slice and NextToken of `ListingOf`, after exactly the page requests it needs, and an error exactly if one of them fails; at most two requests within the cap |
| PagingChain.PagesToIsRoundedUp | driver/paging.go:66-120 | the pages needed are the first one and the rest divided by the page size, rounded up |
| PagingChain.WindowExact | driver/paging.go:50-59 | without a cap: the window starts at item token-1, or at item token when maxEntries divides the token; NextToken is token+maxEntries exactly if more is there, stays in its residue class and does not overflow |
| PagingChain.FirstCallExact | driver/paging.go:66-132 | the first call returns the first maxEntries items whatever the page size, with NextToken maxEntries+1 exactly if there are more |
| PagingChain.UnlimitedExact | driver/paging.go:46-59 | without maxEntries the whole suffix from the token is returned if the token lies in the first page, and no NextToken |
| PagingChain.NegativeToken | driver/paging.go:46-59 | a negative token starts at the first item, and fails exactly from twice the negated maxEntries down, where the page asked for is negative |
| PagingChain.NextOffset | driver/paging.go:122-132 | the next call of a chain starts where this one ends |
| PagingChain.ChainFromToken | driver/paging.go:30-135 | a chain from any token has no gap and no repetition, in the fewest calls |
| PagingChain.ChainComplete | driver/paging.go:30-135 | for maxEntries of at least 2 the chain from the empty token returns every item once, in order, in max(1, ceil(n/m)) calls |
| PagingChain.ChainOfOneOmitsSecond | driver/paging.go:50-59 | for maxEntries 1 the chain omits exactly the second item |
| PagingChain.CappedSecondCall | driver/paging.go:50-59 | above the page size cap the second call returns the second page of the API again, past which the first call has already gone |
| PagingChain.ChainExact | driver/paging.go:30-135 | the chain returns the inventory if and only if one call suffices or maxEntries lies between 2 and the cap |
| PagingChain.FilterFlatten | driver/controller.go:1226-1238 | filtering response by response is filtering the whole |
| Listing.ConvertSnapshots | driver/controller.go:870-881 | a page converts exactly if all of its timestamps parse, entry by entry |
| Listing.FilterEntries | driver/controller.go:1226-1238 | the entries of the source volume are kept in order; an empty source keeps all |
| Listing.ListSnapshots | driver/controller.go:807-894 | the response by ID or by page, for every token and every failing page: malformed tokens, missing snapshots, unparseable timestamps and API failures each have their answer; a request by ID yields the ID, volume and size in bytes of the snapshot, unless it is of another volume |
| Listing.FollowToken | driver/controller.go:840-890 | one response is the first of the filtered calls left in the chain, and its token string leads to the rest, growing strictly |
| Listing.FollowTokens | driver/controller.go:840-890 | repeating the request with the returned token string yields the filtered calls of the unfiltered chain |
| Listing.FilteredChain | driver/controller.go:840-890 | within 2 and the cap the responses together are the filtered inventory, in as many calls as the unfiltered one |
| ListingLaws.ResponseLists | driver/controller.go:1145-1164 | a response has one entry for each snapshot of the volume in its window, in order, with its ID, its volume and its size in bytes |
| ListingLaws.UndatedFails | driver/controller.go:870-881 | a response fails exactly if the timestamp of some snapshot in its window does not parse, of whichever volume |
| ListingLaws.ChainLists | driver/controller.go:807-894 | all responses to a client that follows the tokens list the snapshots of the volume, each once and in order, with these fields |
| Listing.ListVolumes | driver/controller.go:544-620 | the entries and token of the listing under the effective page size, its errors exactly, and the number of page requests |
| Listing.FollowVolumeToken | driver/controller.go:544-620 | one response is the first call left in the chain under the effective page size, and its token string leads to the rest, growing strictly |
| Listing.FollowVolumes | driver/controller.go:544-620 | repeating the request with the returned token string, the default page size being applied again on every call, yields the calls of one chain |
| Listing.VolumesExact | driver/controller.go:544-620 | those responses together are the volumes there are if and only if one call suffices or the effective page size lies between 2 and the cap |
| ListingLaws.ExplicitSizeWins | driver/controller.go:545-548 | the default page size counts only for a request without one |
| ListingLaws.ChainListsVolumes | driver/controller.go:544-620 | all responses to a client that follows the tokens list the volumes, each once and in order, with ID, size in bytes and droplets, in as many calls as the page size of the request, or else the default one, asks for |
| ListingLaws.OneResponseListsVolumes | driver/controller.go:544-620 | without either page size one response lists all volumes |
| Capacity.AcceptedExactly | driver/controller.go:976-1027 | a range is accepted if and only if a supported size satisfies it and it is not a lone limit above the maximum |
| Capacity.LoneLimitRefused | driver/controller.go:1010-1012 | a concrete range that supported sizes satisfy and that is refused |
| Capacity.DefaultTaken | driver/controller.go:976-989 | without a bound 16 GiB are taken |
| Capacity.RefusedExactly | driver/controller.go:991-1012 | exactly which ranges are refused, in bytes |
| Capacity.AcceptedSize | driver/controller.go:976-1027 | the size taken lies in the range and below 16 TiB; it is below 1 GiB exactly for a small required size with a limit; it is the least size of the range, or the greatest if only a limit is set |
| Capacity.OneByteAccepted | driver/controller.go:990-1020 | a concrete range that is accepted with a size below the minimum, which makes no whole GiB |
| Capacity.Provisioned | driver/controller.go:157-162 | the whole GiB provisioned fall short of the size by less than one GiB and cover it exactly if it is a multiple; no 64-bit overflow; 0 exactly below 1 GiB |
| CloudState.NextKeepsInv | driver/controller.go:345-405 | every event keeps the invariant: at most one attachment per volume, to an existing droplet, at most one pending action, which stays admissible |
| CloudState.RunKeepsInv | driver/controller.go:345-405 | no reachable state attaches a volume to two droplets |
| CloudState.RunKeeps | driver/controller.go:897-957 | over any part of any run a volume keeps name and region, never shrinks, keeps its tags unless untagged, and its ID is never reused |
| CloudState.SizesMonotone | driver/controller.go:921-957 | volume sizes are monotone over every run |
| CloudState.RunKeepsBound | driver/controller.go:976-1027 | no volume exceeds 16 TiB in any state of a run in which every client keeps to that maximum |
| CloudState.TagStays | driver/controller.go:1184-1224 | a tag stays on a volume for as long as it exists and nobody untags |
| CloudState.CompletionInstant | driver/controller.go:1056-1080 | an action seen completed had its effect at some instant since it was seen under way |
| CloudApi.Cloud.Act | driver/controller.go:366-397 | the API side: the reply and the world after are those of `Acted`; an accepted action is under way or done, a refusal is justified by the state, and no action is returned exactly if it is accepted and carried out unseen |
| CloudApi.Cloud.GetAction | driver/controller.go:1058-1066 | the status of the action as the call meets it, or a failure exactly if the reply does not come |
| Waiting.WaitAction | driver/controller.go:1056-1080 | its success and the world it leaves are those of `WaitOutcome`, for every schedule and context; success leaves the action completed |
| Waiting.WaitEnds | driver/controller.go:1056-1080 | waiting ends at the first poll that is answered with completion or fails with the context over, or with the last the context leaves room for, one call each; it succeeds if and only if that poll is answered with completion |
| Waiting.WaitSucceeds | driver/controller.go:1056-1080 | waiting succeeds if and only if some poll is answered with completion and every earlier one with another status, or not at all while the context is live |
| Waiting.CalmWait | driver/controller.go:1056-1080 | with nobody else at work waiting changes nothing and succeeds if and only if the action has completed and the context leaves room for a poll |
| Waiting.AwaitEffect | driver/controller.go:399-405 | when waiting succeeds the effect was in place at some instant since the action was accepted |
| Waiting.ActAndWait | driver/controller.go:365-405 | one request for the action; if it has finished the effect was in place at some instant, and a refusal is justified at one; the result is that of `ActOutcome` |
| Waiting.CalmAct | driver/controller.go:365-405 | with nobody else at work an action is refused exactly as the state says, and one that stays queued runs out of time |
| Publishing.TagVolume | driver/controller.go:1184-1224 | the outcome is that of `TagOutcome` for every schedule; success implies that the volume carries the tag |
| Publishing.CreateTagAndRetry | driver/controller.go:1209-1223 | the tag is created and the tagging repeated once; success implies that the volume carries the tag |
| Publishing.TagAsks | driver/controller.go:1184-1224 | nothing is asked for a volume that carries the tag, otherwise one tagging, or two with one creation of the tag between them |
| Publishing.CalmTags | driver/controller.go:1184-1224 | with nobody else at work tagging succeeds, whether or not the tag exists |
| Publishing.FindAttachment | driver/controller.go:345-356 | whether the droplet is among the attachments, and the last of them if not |
| Publishing.ReadAndTag | driver/controller.go:319-334 | the volume is returned as it was at an instant of the call, and carries the tag afterwards |
| Publishing.CheckBeforeAttach | driver/controller.go:319-343 | as above, with the droplet looked up; an error says what was missing |
| Publishing.AttachUnlessAttached | driver/controller.go:345-405 | an attachment is asked for exactly if the volume was read without any; success implies an instant at which the volume is attached to the droplet, and each refusal its own status code |
| Publishing.TaggedSameAnswer | driver/controller.go:328-366 | tagging a volume does not change how attaching it is answered |
| Publishing.ControllerPublishVolume | driver/controller.go:285-413 | success implies attachment to the requested droplet at some instant, and the tag; errors are justified at some instant; at most one attachment is asked for, of a volume seen without any; reply and world are those of `PublishOutcome` for every schedule |
| Publishing.PublishAsks | driver/controller.go:345-366 | an attachment is asked for if and only if the checks succeed and the volume was read without any, and then last |
| Publishing.CalmPublish | driver/controller.go:285-413 | with nobody else at work reply, state and requests are settled by the state before, tagging included; an attachment that is asked for is queued or carried out, and success means carried out |
| Publishing.DetachAndWait | driver/controller.go:454-497 | the removal is asked for once; success implies an instant at which volume and droplet are apart; "aborted" implies a pending action (the answer to each refusal: `ControllerLaws.UnpublishRaces`) |
| Publishing.ControllerUnpublishVolume | driver/controller.go:416-498 | success implies that at some instant the volume was not attached to the droplet; "aborted" implies a pending action; at most the removal is asked for; reply and world are those of `UnpublishOutcome` for every schedule, of which `ControllerLaws.UnpublishAnswers` says what it answers |
| Publishing.CalmUnpublish | driver/controller.go:416-498 | with nobody else at work reply and state are settled by the state before; a removal that is asked for is queued or carried out, and success means carried out |
| Publishing.PublishAttached | driver/controller.go:345-356 | with nobody else at work, a publish for a volume that is attached to the droplet succeeds without asking for an attachment; it changes the tag at most |
| Publishing.PublishRetry | driver/controller.go:285-413 | whatever happened during a publish and since: once the volume is attached to the droplet the retry succeeds, and only the first call may have asked for the attachment |
| Publishing.PublishFinished | driver/controller.go:399-405 | an attachment that is under way and completes leaves the volume attached, as the retry needs it |
| Publishing.PublishTimesOut | driver/controller.go:399-405 | a publish whose attachment stays queued runs out of time and leaves it under way |
| ControllerLaws.PublishTurnsDown | driver/controller.go:286-310 | a request without volume, droplet or capability is an invalid argument and a read-only one exists already, before any call |
| ControllerLaws.PublishMissing | driver/controller.go:319-343 | a volume or a droplet that does not exist is not found |
| ControllerLaws.PublishAlreadyAttached | driver/controller.go:345-363 | a volume attached to the droplet succeeds, one attached elsewhere is a failed precondition; neither changes an attachment or an action |
| ControllerLaws.PublishUnattached | driver/controller.go:365-405 | for a volume without attachments: a pending action or a busy droplet aborts, a full droplet is out of resources, and otherwise it is attached or still pending |
| ControllerLaws.PublishTags | driver/controller.go:328-334 | the volume has the tags it had and that of the driver; no other volume changes |
| ControllerLaws.PublishRaces | driver/controller.go:365-405 | what others have done between the look-up and the request to attach decides the answer, case by case |
| ControllerLaws.TagLost | driver/controller.go:1199-1207 | when tagging gets no reply the tag is not created and no attachment is asked for |
| ControllerLaws.TagCreationLost | driver/controller.go:1209-1223 | when the creation of the tag gets no reply tagging is not repeated and the publish fails |
| ControllerLaws.DropletLost | driver/controller.go:336-343 | when the look-up of the droplet gets no reply no action is asked for |
| ControllerLaws.FirstCallLost | driver/controller.go:87-497 | when the first call of an RPC gets no reply, nothing is asked for, and the answer is the error of that RPC |
| ControllerLaws.UnpublishTurnsDown | driver/controller.go:417-424 | a request without volume or droplet is an invalid argument, before any call |
| ControllerLaws.UnpublishMissing | driver/controller.go:433-452 | a volume or droplet that is gone counts as detached, and nothing is asked for |
| ControllerLaws.UnpublishAnswers | driver/controller.go:454-497 | a pending action on the volume or a busy droplet aborts; a volume that is not attached to the droplet is a success that changes nothing; one that is becomes detached, or its removal is pending |
| ControllerLaws.UnpublishRetry | driver/controller.go:416-498 | whatever happened during an unpublish and since: once volume and droplet are apart and nothing is pending the retry succeeds and changes nothing |
| ControllerLaws.UnpublishRaces | driver/controller.go:454-497 | what others have done between the look-ups and the request to detach decides the answer, case by case |
| Expanding.ResizeAndWait | driver/controller.go:928-944 | success implies that the volume had exactly the requested size at some instant |
| Expanding.ControllerExpandVolume | driver/controller.go:897-957 | the capacity returned is the size of the volume at some instant and at least the whole GiB asked for; a resize is asked for at most once, of a smaller volume, within 16 TiB; reply and world are those of `ExpandOutcome` for every schedule |
| Expanding.CalmExpand | driver/controller.go:897-957 | with nobody else at work reply and state are settled by the state before; growth that is asked for is queued or carried out, and success means carried out; an expansion that is not needed asks for nothing |
| Expanding.SizedStaysSized | driver/controller.go:921-957 | a volume seen with a size is never seen smaller afterwards |
| Expanding.ExpandGrown | driver/controller.go:921-957 | under arbitrary events and faults: an expansion to a size the volume once had asks for nothing and never reports less |
| Expanding.ExpandTwice | driver/controller.go:921-957 | once an expansion has succeeded, an identical one adds nothing to what the first has asked for, and never reports less |
| Expanding.ExpandAgain | driver/controller.go:921-957 | undisturbed, with the resize completing after the first call: the size is the larger of old and requested, and an identical expansion reports it, changes nothing and asks for nothing |
| ControllerLaws.ExpandTurnsDown | driver/controller.go:898-910 | a missing ID, a missing volume and a refused range each have their code |
| ControllerLaws.ExpandAnswers | driver/controller.go:911-957 | a volume that is large enough is reported as it is, in bytes; a smaller one has the whole GiB asked for afterwards, or is about to, unless an action is pending |
| ControllerLaws.ExpandRaces | driver/controller.go:928-957 | a resize that is refused or gets no reply is an internal error; one carried out without an action is a success |
| Provisioning.RejectRequest | driver/controller.go:88-116 | the requests turned down before any API call (which they are: `ControllerLaws.CreateTurnsDown`) |
| Provisioning.CheckRegions | driver/controller.go:105-116 | every region named must be the driver's |
| Provisioning.AnswerExisting | driver/controller.go:138-155 | an existing volume is returned exactly if its size is the one asked for, to the byte; duplicates are an error |
| Provisioning.MakeVolume | driver/controller.go:157-202 | a volume made under a name that was free keeps names unique if nobody else creates, and carries the tag |
| Provisioning.ResizeNew | driver/controller.go:204-222 | success implies that the new volume had the requested size at some instant; the outcome, the crash among it, is that of `GrowOutcome` for every schedule |
| Provisioning.GrowIfSmaller | driver/controller.go:204-222 | a volume that is large enough is left alone; otherwise it is resized; names stay unique and the tag stays |
| Provisioning.CreateAndResize | driver/controller.go:157-222 | creation and resize together: provisioned at some instant, tagged, unique |
| Provisioning.LookUp | driver/controller.go:128-155 | the first call settles the answer if it fails or finds volumes of the name |
| Provisioning.CreateFresh | driver/controller.go:168-222 | as above, behind the check that the snapshot exists, with the errors of that check |
| Provisioning.CreateVolume | driver/controller.go:87-253 | success implies a volume of that name and region with at least the GiB asked for at some instant, the tag if it was made, a name, supported capabilities and no foreign region; names stay unique if nobody else creates; reply and world are those of `CreateOutcome` for every schedule |
| Provisioning.MakeAsks | driver/controller.go:157-216 | a creation asks for the volume once, and then at most for one resize, to the size asked for |
| Provisioning.CalmCreate | driver/controller.go:87-253 | with nobody else at work reply and state are settled by the state before: by the volumes of the name, the snapshot and the sizes; for a volume that must be grown the reply says whether the resize is queued or carried out |
| Provisioning.NothingBelowMinimum | driver/controller.go:157-202 | a size below 1 GiB that is accepted always ends in an error, for every schedule |
| Provisioning.CrashExactly | driver/controller.go:204-216 | for every schedule: the call crashes if and only if the volume is made smaller than asked for, from a snapshot, and the resize is carried out and returned as no action |
| Provisioning.GrowthUnseen | driver/controller.go:204-216 | a creation from a smaller snapshot whose resize returns no action meets the condition for the crash |
| Provisioning.CrashWitness | driver/controller.go:204-216 | a concrete creation that crashes |
| Provisioning.CalmExisting | driver/controller.go:128-155 | a creation for a name that stands for one volume returns it exactly if the sizes agree to the byte, and changes and asks for nothing |
| Provisioning.StillNamed | driver/controller.go:128-138 | a volume that was provided once has its name to itself for as long as it exists and names are unique |
| Provisioning.CreateAgain | driver/controller.go:128-155 | after a creation that succeeded under any events and faults: as long as the volume exists and names are unique, a retry leaves the store alone, asks for nothing and returns the volume if and only if the stored size is the one asked for, to the byte, and a conflict otherwise |
| Provisioning.StoredToTheByte | driver/controller.go:157-162 | what is stored is the size asked for if and only if it is a GiB multiple and the snapshot no larger |
| Provisioning.CreatedAlone | driver/controller.go:87-253 | what a creation leaves for its retry: the name stands for its volume alone, with the larger of the sizes of request and snapshot |
| Provisioning.CreateTwice | driver/controller.go:128-162 | with nobody else at work, a creation that succeeded returns the same volume again if and only if it was there before, or the size is a GiB multiple and the snapshot no larger; a conflict otherwise; the retry changes and asks for nothing |
| Provisioning.ConflictWitness | driver/controller.go:147-162 | a concrete creation of 1.5 GiB that succeeds and whose retry is a conflict |
| Provisioning.LateResize | driver/controller.go:204-222 | a creation from a smaller snapshot that runs out of time leaves one volume of the name, which has the requested size once the resize completes |
| Provisioning.CreateAfterLateResize | driver/controller.go:204-222 | a creation whose resize completed late succeeds on retry exactly if the size is a GiB multiple |
| ControllerLaws.CreateTurnsDown | driver/controller.go:88-116 | without a name, without capabilities or with one that is not supported: invalid argument; a refused range: out of range; a foreign region: resource exhausted; in this order, without any call; a success passes all checks |
| ControllerLaws.CreateExisting | driver/controller.go:138-155 | for a name that exists in the region: two volumes are an error, and one is returned exactly if it has the size, to the byte |
| ControllerLaws.CreateFromMissing | driver/controller.go:168-189 | a snapshot without an ID is an invalid argument, one that does not exist is not found |
| ControllerLaws.CreateNew | driver/controller.go:157-202 | without a snapshot the volume is made under the next ID with the whole GiB asked for and the tag of the driver, and nothing of less than one |
| ControllerLaws.CreateFromLarger | driver/controller.go:193-252 | from a snapshot that is large enough the volume is made as large as that, and the answer names the size asked for and the snapshot |
| ControllerLaws.CreateFromSmaller | driver/controller.go:204-222 | from a smaller one it has the size asked for, or is about to, or the handler crashes |
| ControllerLaws.CreationRefused | driver/controller.go:194-202 | a request for a volume that exceeds the limit of the account is out of resources, one without a reply an internal error |
| ControllerLaws.SnapshotLost | driver/controller.go:176-185 | when the look-up of the snapshot gets no reply nothing is asked for |
| ControllerLaws.CreationAsks | driver/controller.go:157-212 | the request that makes the volume names region, GiB, tag and snapshot; a resize without a reply is an internal error |
| ControllerRuns.Dispatch | driver/controller.go:87-498 | every single RPC: its reply and world are those of `OutcomeOf` for every schedule; the reply shows what it says about an instant of the call; names stay unique and the volume it serves is tagged |
| ControllerRuns.RunInvariants | driver/controller.go:345-405 | in every state of every run: single attachments, sizes within 16 TiB if nobody else asks for more, and none shrinks |
| ControllerRuns.RunSteps | driver/controller.go:87-498 | each record of a run is that of its own call, in the world that the record before leaves |
| ControllerRuns.CalmRun | driver/controller.go:87-498 | with nobody else at work every reply of a run, and the state after it, are settled by the state its call meets |
| ControllerRuns.OutcomeKeepsInv | driver/controller.go:87-498 | no call, under any schedule, leaves a volume attached twice or an action that cannot be carried out |
| ControllerRuns.Run | driver/controller.go:87-498 | over every run of RPCs among arbitrary events and failures: replies, worlds and records are those of `RecordsOf`; each reply, in order, shows what it says about the part of the history between the worlds of its own call; every volume that a reply has published, or asked for and made, carries the tag; single attachments in every state, sizes that never shrink and never exceed 16 TiB if nobody else asks for more, unique names |
| ControllerLaws.WhatIsTagged | driver/controller.go:157-334 | what it comes to that the volumes served are tagged: a volume whose publish succeeded, or that a creation has asked for and returned, has the tag if it exists |
| Snapshots.FindSnapshot | driver/controller.go:698-733 | the page loop terminates and returns the first snapshot with the name and the volume, on whatever page, and none exactly if no snapshot has both; it fails if and only if one of the pages up to that one, or to the last, fails |
| Snapshots.CreateSnapshot | driver/controller.go:678-771 | reply and snapshots are those of `CreateOutcome`, for every failing page and API reply; what that is: `Snapshots.CreatesNothingBeside`, `Snapshots.CreatesOne`, `Snapshots.CreateNeedsNames` |
| Snapshots.DeleteSnapshot | driver/controller.go:774-801 | exactly the snapshot of the ID is removed, unless the request is rejected; one that is unknown counts as deleted |
| Snapshots.OneMatch | driver/controller.go:708-722 | among unique names the search finds the one match, whichever way the API lists |
| Snapshots.OutcomeKeepsValid | driver/controller.go:678-801 | whatever fails, names stay unique per volume, identifiers are given out once, and only what is deleted goes |
| Snapshots.CreatedExists | driver/controller.go:708-771 | a creation that succeeds returns ID, volume and size of a snapshot that exists, with the name and the volume asked for |
| Snapshots.CreatesNothingBeside | driver/controller.go:708-722 | while a snapshot of the name and the volume exists nothing is created, and it is the answer unless a page fails |
| Snapshots.CreatesOne | driver/controller.go:735-770 | while there is none, and no page fails, a creation that the API carries out adds exactly one snapshot, of that name and volume; each other reply has its code and adds none |
| Snapshots.CreateNeedsNames | driver/controller.go:679-685 | a creation without name or volume, and no other, is an invalid argument |
| Snapshots.FoundBeforeFailure | driver/controller.go:698-733 | a page that fails behind the first match makes no difference |
| Snapshots.DeletionAnswers | driver/controller.go:774-801 | when a deletion succeeds, also of a snapshot that does not exist, and what it leaves |
| Snapshots.Run | driver/controller.go:678-801 | every serial run gives the answers, and leaves the snapshots, of the functions the lemmas are about |
| Snapshots.RunKeepsValid | driver/controller.go:678-801 | no serial run of creations and deletions, whatever fails, leaves two snapshots of one name and volume, or of one ID |
| Snapshots.Lifetime | driver/controller.go:678-801 | over any part of a run a snapshot stays until a request deletes it, and its identifier never comes back |
| Snapshots.FoundLater | driver/controller.go:698-771 | a creation returns the matching snapshot that exists, any number of requests later and even if the reply that made it was lost, if no page fails |
| Snapshots.SameSnapshot | driver/controller.go:678-801 | over every run: two creations of one name and volume that succeed return the same snapshot if and only if no request between them deletes it |
| Node.Mounter.Format | driver/mounter.go:134-173 | formatting changes the one device, and leaves a record of what the device held; an error before mkfs leaves the node alone |
| Node.FindNoFormat | driver/node.go:123-129 | either of the two annotations suffices |
| Node.FormatIfNeeded | driver/node.go:123-152 | the device is formatted exactly if all guards let it through; on success it holds a filesystem; no other device changes |
| Node.DestroysExactly | driver/node.go:130-152 | a request formats a device that holds a filesystem if and only if it is a stage of a device that is not running and reported blank, with neither validation nor an annotation nor an error before mkfs in the way |
| Node.StageFilesystem | driver/node.go:108-187 | device, mount and resize, as the function on the state of the node says |
| Node.NodeStageVolume | driver/node.go:68-187 | equal to a function on the state of the node; the exact answer, with the code of every failure, and exactly when it mounts, crashes and destroys data |
| Node.StageMeans | driver/node.go:68-187 | what that function comes to: rejections leave the node alone; the target is the only one added, from the device, with the options asked for; the device is formatted only if it was blank or taken for blank |
| Node.NodeUnstageVolume | driver/node.go:190-223 | the target is removed from the mount table on success, and nothing changes on failure; exactly when it succeeds |
| Node.NodePublishVolume | driver/node.go:226-272 | the mount made at a free target, with "bind", "ro" and the flags; nothing else changes; the exact answer |
| Node.PublishFilesystem | driver/node.go:495-531 | the staging path is bind-mounted with all flags in order, unless the target is mounted |
| Node.PublishBlock | driver/node.go:533-567 | the resolved device is bind-mounted, unless the target is mounted |
| Node.NodeUnpublishVolume | driver/node.go:275-298 | the target is removed from the mount table on success |
| NodeLaws.AnnotationProtects | driver/node.go:50-62 | either annotation keeps every device as it is |
| NodeLaws.BlankIsFormatted | driver/node.go:130-152 | without an annotation a blank device is formatted, once, when no guard stops it |
| NodeLaws.RunningIsKept | driver/node.go:139-152 | a running device that holds a filesystem is never formatted |
| NodeLaws.ValidationProtects | driver/node.go:133-137 | with validation, a stage of a device that is missing or not running changes nothing and fails |
| NodeLaws.StageMountsDevice | driver/node.go:102-167 | a stage at a free target mounts the device named in the publish context, as the filesystem asked for or ext4, with the flags |
| NodeLaws.PublishBindsStaging | driver/node.go:495-531 | a publish at a free target binds the staging path, with "bind", "ro" if asked for, and the flags |
| NodeLaws.PublishBindsDevice | driver/node.go:533-567 | a publish of a block volume at a free target binds the device the link leads to |
| NodeLaws.MountedStays | driver/node.go:156-167 | what is mounted at a target stays; staging a block volume does nothing |
| NodeLaws.StageRejections | driver/node.go:69-106 | what a stage is turned down for, and when it crashes |
| NodeLaws.StageAnswers | driver/node.go:130-187 | a stage of a device that needs no format fails at the mount and at the resize only, with their codes |
| NodeLaws.FormatFailure | driver/node.go:145-152 | a format that is needed and fails is an internal error, and nothing is mounted |
| NodeLaws.PublishAnswers | driver/node.go:227-272 | the answer to every publish on the node |
| NodeLaws.TakeDownAnswers | driver/node.go:190-298 | the answer to every unstage and unpublish, and what it leaves |
| NodeRuns.Dispatch | driver/node.go:68-298 | each RPC does and reports what the functions on the state say |
| NodeRuns.CallMounts | driver/node.go:68-298 | a call changes the mounting of its own target only, as its outcome says |
| NodeRuns.MountTable | driver/node.go:68-298 | after every run a target is mounted if and only if the last call with an effect on it mounted it |
| NodeRuns.NoDataLoss | driver/node.go:123-152 | a run in which every call has a validated attachment or a truthful check formats blank devices only and keeps all data |
| NodeRuns.LossExactly | driver/node.go:123-152 | a run formats a device holding a filesystem if and only if one of its calls meets a device that is not running and is taken for blank, with nothing in the way |
| NodeRuns.Run | driver/node.go:68-298 | every run of the RPCs ends in the state, and yields the calls and outcomes, of the functions the lemmas above are about |
| NodeRuns.StageAgain | driver/node.go:139-167 | staging again after a success leaves the whole node as it was, and succeeds if nothing fails |
| NodeRuns.PublishAgain | driver/node.go:495-567 | publishing twice is publishing once |
| NodeRuns.StageAndUnstage | driver/node.go:156-219 | unstaging a fresh stage restores the whole mount table and leaves the devices |
| NodeRuns.PublishAndUnpublish | driver/node.go:226-298 | unpublishing a fresh publish restores the whole node |
| NodeRuns.LossWithoutValidation | driver/node.go:133-152 | a concrete stage that formats a device holding data, and succeeds |

## Left out

- DeleteVolume, ValidateVolumeCapabilities, ControllerGetVolume, the capability, identity and health responses: single calls or constants.
- checkLimit: no RPC calls it.
- NodeExpandVolume, NodeGetVolumeStats, NodeGetInfo and the filesystem resize in NodeStageVolume: foreign calls; the resize is a step that may fail after the mount.
- The shell commands, symbolic links and sysfs reads of driver/mounter.go: the mounter is its device and mount tables.
- Staging into a target where something else is mounted: the code checks only that something is mounted there, so nothing is claimed about the source.
- Interleaving in Snapshots: the inventory changes between calls only, not between the pages of one scan.
- Paging.ListResources: the inventory does not change between the pages of one call, or between the calls of a chain.
- Which volumes a listing by name returns first: the listing is a map, of which the code uses a single element only.
- Timestamps, sizes of snapshot entries beyond minDisk, log lines, formatBytes and error texts.
- The server, its sockets and flags, manifests and the end-to-end tooling.
