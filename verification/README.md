# Organization export, cost-controls backfill and chat delivery: a verified model

The repository's organization exporter copies everything an organization owns into a directory that
must survive crashes, resumes, concurrent downloads and hostile names. This project models it, with
the backfill runner and the chat's send queue beside it, and proves what those programs are for.

## What is modelled

**Names on disk** (`JsText.dfy`, `Naming.dfy`). Customer names are JavaScript strings of UTF-16 code
units, lone surrogates included; lengths on disk are those of section 3 of RFC 3629. The SHA-256 digest
(its first twelve hexadecimal digits) and the NFC/lower-case fold are arbitrary functions: nothing
proved here needs them to be injective. The shape of every name that cannot be kept is stated by its code
units alone (`Naming.PortableShape`).

**The name allocator** (`PathTree.dfy`, `CustomerPaths.dfy`, `ExportWriter.dfy`). `tree` walks a customer
path segment by segment and claims a name for each under an owner string (`file:` or `dir:` and the
original prefix). `Lookup` is a reference definition that only reads the claims table. On the table
alone, for every naming scheme with usable names: paths that meet up to folding, as equals or as a file
and a directory above another file, are the same path of the same customer file; a path once returned
is returned for ever; and the mapping tells it. Directories that customer files are exported under must
differ, up to folding, at some segment (`BasesApart`).

**Checkpoints, crashes and resumes** (`Checkpoint.dfy`, `ExportState.dfy`, `Protocol.dfy`, `Ledger.dfy`,
`Resume.dfy`). The chain of `save` calls is a step system of its own. Around it a second one interleaves,
in any order, listings that claim names and save, downloads and all other items, each of which starts, puts
its output in place and succeeds or fails, forgotten walks, warnings that are no item's, checkpoint writes,
files that disappear, and crashes after which a new process opens the checkpoint. A download may start only
when the save of its listing has resolved. Over every run, each customer file on disk has its claim in the
checkpoint, so no path is ever given to another file, and a skipped item's file is the right one. If items
of one id never overlap, no item is ever both finished and warned of, and every item started is over or in
flight, with its bookkeeping telling how it went. One process uses a directory at a time, and a save
succeeds or the process dies.

**The walk** (`Layout.dfy`, `Archive.dfy`, `Progress.dfy`, `Walk.dfy`, `Shortfalls.dfy`, `Bridge.dfy`).
`walkExport` and the verdict of `finishExport` run on the class `ExportWriter` against a server
(`Writer.Server`) that may answer anything in well-typed rows, and another time something else: ids are text,
and a manifest lists its record sets. What it answers to each walk over stored objects, the prefixes and the
pages of each, is recorded. Downloads of a listing start in order, at most `concurrency` at a time, and place
their files and end in any order; the threads of a workspace likewise, one item or one volume at a time.
`Layout` names the export's own files and directories and proves them apart; `Archive` says, from the listings
inside the archive alone, what must be there (`ArchiveComplete`) and which names the walk uses for it (`Plan`);
`Progress` says what no stretch of a run undoes, and `Bridge` that each stretch is a run of steps of the step
system above. A run is opened on any state and directory an interrupted history can have left, warnings
included, and its theorem (`Walk.RunExport`, `Walk.CompleteExactlyIf`, `Walk.ObjectsAreThere`) is:

- if it reports `complete` and the names of its plan do not clash (`WellNamed`), nothing is left out, down to the
  last file of the last volume, and the stored objects of every workspace and project have been walked: unless
  the checkpoint the run opened had that walk finished, the listing of every prefix (for a project, of every prefix
  that starts with `project-fs/`) ended and every object it named is there;
- every list in the archive is what the server answered for it, or what was there when the run began, and no stored
  object was started that no listing of such a prefix named;
- a walk over stored objects skips if and only if the opened checkpoint has it finished;
- unless an item is torn, the warnings it leaves are exactly the old ones of items it did not start, those of actions
  that threw last, those of walks over stored objects that were blocked by an object's warning, one for each thread
  without a workspace, and one for a walk that threw; so it reports `complete` if and only if there are none;
- an item is torn only if two actions held it at once, and only a listing that names a file twice, or an unknown
  customer directory, makes that happen.

`WellNamed` is a condition on the names in the listings: no listing has the file of another listing, of an item or of
the automation index, no two rows have one own file, no two walks over stored objects have one id, and every customer
directory is among those known to be apart. `Archive.CompleteOrganization` and the lemmas after it spell out what a
complete archive holds, and `Layout.DirsSpelled` and `Layout.ItemsSpelled` under which paths.

**Loops against a server** (`History.dfy`, `Paging.dfy`, `Retry.dfy`, `Pool.dfy`). The message history, cursor
paging, retries, and the pool of workers that share one index. A server is a function from the number of
the request and what is asked to any answer.

**The backfill runner** (`Backfill.dfy`). The classifier, the settings reads and the clock are parameters
that do not depend on what was applied before; `applyOne` may answer or throw anything.

**The chat's send queue** (`Delivery.dfy`). The refs and callbacks of one mount of a thread with a
workspace, as a class and as a step system over sends, late, lost and repeated replies, reopened
transports, terminal errors and ends of turns. Message ids are fresh when first queued; writes to browser
storage may fail.

## Where the code is not what one might expect

- A settings file that holds no manifest (`null`) ends the walk at once without a warning
  (`scripts/lib/org-export-run.ts:80-81`), so an export can be `complete` and hold nothing else. `Walk.RunExport`
  states both sides: with a manifest nothing is left out; without one nothing else was looked at.
- The walk over stored objects ends with a test for any object's warning, whichever walk the object belongs to
  (`scripts/lib/org-export-run.ts:116`). A warning left by an earlier run for an object of a later workspace fails the
  walks of all workspaces before it, although in this run nothing goes wrong (`Shortfalls.StandingWarningBlocks`,
  `Shortfalls.StandingWarningHappens`); such an export needs one run more (`Shortfalls.NextRunIsNotBlocked`).
- The walk over stored objects is saved as finished by `item` and forgotten only afterwards, without a save
  (`scripts/lib/org-export-run.ts:117-119`). A crash in between makes the resumed run skip it, although the comment
  there says objects are listed again on resume (`Resume.InterruptedWalkIsSkipped`). It is skipped exactly if the opened
  checkpoint has it finished (`Walk.RunExport`), and then lists nothing (`Walk.R2Walk`).
- A `thread:<id>` warning, once set, is never deleted, so such an export stays incomplete on resume; `Walk.RunExport`
  says so of every run.
- A listing that names one path twice is downloaded twice at once. If one download succeeds and the other then fails,
  the file is both finished and warned of, and no later run takes the warning back (`Shortfalls.TornItemStaysWarned`).
- Own files can share a name. A manifest key `threads` takes the place of the thread listing, which is then never asked for
  (`Shortfalls.ManifestKeyTakesThreads`). Volumes `a-b` at `c` and `a` at `b-c` share a listing
  (`Shortfalls.VolumesShareListing`); when it cannot be read for the first and then can for the second, no warning is left
  and the first volume's files are missing (`Shortfalls.SharedListingHidesFiles`). A record set or key `automations` is
  overwritten by the automation index (`Shortfalls.IndexOverwrites`). These are the clashes `WellNamed` excludes; a volume
  mounted twice is none (`Shortfalls.TwoMountsAreWellNamed`). The manifest of the repository's own server has no such keys
  (`workers/main/src/org-export.ts:93-103`).
- `tree` throws exactly if the path is empty or, at some segment, both the portable and the hashed name are held by
  other owners in the table before the call (`PathTree.ThrowsExactlyIfBlocked`, `CustomerPaths.CallThrowsExactly`); a
  customer who owns a file named like the hash of another brings that about (`Writer.TreeCanThrow`).
- `ORG_EXPORT.md` says the mapping records only renamed files; the code also maps paths whose slashes were doubled or
  trailing (`CustomerPaths.MappedExactlyIf`, `CustomerPaths.DoubledSlashIsMapped`).
- `--limit` is documented as counting applied or failed redeploys; the code counts every call of `applyOne`,
  those the server declines included, and no failed reads (`Backfill.RunAddsUp`).

## Model

| member | source | states |
|---|---|---|
| JsText.BoundaryByUnits | scripts/lib/org-export.ts:37 | The positions between characters are all but those inside a surrogate pair |
| JsText.ByteLengthByUnits | scripts/lib/org-export.ts:35-38 | The length in bytes is the sum over the units of what each takes: one, two or three, a pair four |
| Naming.TakeCharacters | scripts/lib/org-export.ts:36-41 | The source's loop over the stem's characters takes the front that `Truncate` defines |
| Naming.ComputeHashedSegment | scripts/lib/org-export.ts:30-43 | The hashed name computed step by step is the one the lemmas are about |
| Naming.LongestFront | scripts/lib/org-export.ts:36-41 | Truncation ends between characters, within the byte budget, and no later boundary would fit |
| Naming.HashedShape | scripts/lib/org-export.ts:29-43 | A hashed name is the longest whole-character front of the stem that fits in 255 bytes, a tilde, twelve digits of the original's digest, and the extension |
| Naming.CleanedUnits | scripts/lib/org-export.ts:47 | Cleaning keeps the length, changes only forbidden characters and trailing dots and spaces, and leaves neither |
| Naming.SanitizedIsClean | scripts/lib/org-export.ts:46-48 | What is left has no forbidden character and is no reserved device, whatever the customer's name |
| Naming.HashedIsSafe | scripts/lib/org-export.ts:30-43 | Hashing a clean name gives a nonempty name of at most 255 bytes, with no forbidden character, trailing dot or space, and no reserved stem |
| Naming.ForbiddenByTable | scripts/lib/org-export.ts:47 | Forbidden are the controls and nine punctuation marks, listed in a table |
| Naming.ReservedByTable | scripts/lib/org-export.ts:48 | Reserved is what begins with one of 24 device names, in any case, and ends there or goes on with a dot |
| Naming.ExtensionIsTheMatch | scripts/lib/org-export.ts:31-32 | The extension is what the pattern matches after the first unit, and empty exactly if it matches nothing |
| Naming.SanitizedByUnits | scripts/lib/org-export.ts:46-48 | The cleaned name, unit by unit: underscores for what is forbidden and for trailing dots and spaces, and one before a reserved name |
| Naming.PortableShape | scripts/lib/org-export.ts:29-51 | A name that is not safe becomes the longest whole-character front that fits of the stem of its cleaned name, a tilde, twelve digits of the digest of the name itself, and the cleaned name's extension |
| Naming.PortableIsSafe | scripts/lib/org-export.ts:44-51 | A portable name is safe, whatever the string: nonempty, at most 255 bytes, nothing forbidden, no trailing dot or space, not reserved |
| Naming.PortableKeepsExactlySafeNames | scripts/lib/org-export.ts:44-51 | A name is preserved if and only if it is safe |
| Naming.PortableIsIdempotent | scripts/lib/org-export.ts:45-51 | A portable name is its own portable name |
| Writer.FreeName | scripts/lib/org-export.ts:126-127 | The exporter's name for a segment no other owner holds: the segment if it is safe, and else of the shape above |
| Writer.ClashingName | scripts/lib/org-export.ts:129-133 | Its name for one that another owner holds: the portable name with the digest of the owner |
| Writer.ExportWriter.ClaimSegment | scripts/lib/org-export.ts:125-134 | One segment's claim: the portable name if it is free or the owner's, else the hashed one if that is, and else no name and no claim |
| Writer.ExportWriter.ClaimPath | scripts/lib/org-export.ts:122-136 | The loop leaves the table and returns the path of the specification function, or throws where it does |
| Writer.ExportWriter.Tree | scripts/lib/org-export.ts:119-140 | A whole call: claims, mapping entry and result |
| PathTree.NamesGoByTheRule | scripts/lib/org-export.ts:122-136 | Each name of a returned path is the portable one unless another owner holds it in the table before the call, and then the hashed one |
| CustomerPaths.StripsLeadingSlashes | scripts/lib/org-export.ts:137 | What the original path is without: its leading slashes, and nothing else |
| PathTree.TreeThenLookup | scripts/lib/org-export.ts:119-140 | The path a call returns can be read back from the table, and no call, throwing or not, changes an owner |
| PathTree.LookupThenTree | scripts/lib/org-export.ts:122-136 | Asking again returns the path in the table and changes nothing |
| PathTree.LookupIsStable | scripts/lib/org-export.ts:126-134 | Later claims do not change what the table gives to a path |
| PathTree.Separation | scripts/lib/org-export.ts:122-136 | Two customer paths, the names of one of which are up to folding a front of the other's, are one path |
| PathTree.ThrowsExactlyIfBlocked | scripts/lib/org-export.ts:122-136 | The segments find no names if and only if, in the table before the call, both names of one of them are held by other owners below the names chosen so far |
| CustomerPaths.CallThrowsExactly | scripts/lib/org-export.ts:119-136 | A call throws if and only if its path has no segments or is so blocked, and then enters no mapping |
| PathTree.OwnedHashMakesTreeThrow | scripts/lib/org-export.ts:129-133 | Three customer paths after which a call throws, for every scheme that can produce the clash |
| Writer.TreeCanThrow | scripts/lib/org-export.ts:129-133 | The exporter's own scheme can |
| CustomerPaths.OneFilePerPath | scripts/lib/org-export.ts:119-140 | Assigned paths that meet up to folding, as equals or as file and directory, are the same path of the same file |
| CustomerPaths.ReturnedPathsNeverMeet | scripts/lib/org-export.ts:119-140 | The same for any two results in any sequence of calls |
| CustomerPaths.PathsAreStableAndMapped | scripts/lib/org-export.ts:119-140 | After any later calls the same call returns the same path and changes nothing, and the mapping, with the original as default, gives it |
| CustomerPaths.OriginalTellsOrigin | scripts/lib/org-export.ts:138-139 | The mapping's key tells which customer file it is about |
| CustomerPaths.MappedExactlyIf | scripts/lib/org-export.ts:137-138 | A call enters a mapping if and only if some name given is not the customer's own, or a slash of the path is doubled or trailing; nothing else changes in the mapping |
| CustomerPaths.DoubledSlashIsMapped | scripts/lib/org-export.ts:137-138 | `a//b` is mapped though no name of it is changed |
| CustomerPaths.AssignedPassesTarget | scripts/lib/org-export.ts:141-146 | A path given under a base that passes the output checks passes them |
| Writer.ExporterNamesAreUsable | scripts/lib/org-export.ts:30-51 | The exporter's scheme meets what the allocator's theorems ask of a scheme |
| Writer.ExportedPathsAreSafe | scripts/lib/org-export.ts:119-146 | Every customer path on disk is made of safe names and passes the output checks |
| Layout.CustomerDirsPassTarget | scripts/lib/org-export-run.ts:124-173 | Every directory the walk exports customer files under passes the output checks, whatever its names |
| Layout.CustomerDirsAreApart | scripts/lib/org-export-run.ts:124-173 | Two such directories are apart if the names in which they differ do so up to folding |
| Layout.KindsOfIdsDiffer | scripts/lib/org-export-run.ts:80-183 | Own items, customer files, walks over objects and warnings of the walk and of threads never share an id |
| Layout.DirsSpelled | scripts/lib/org-export-run.ts:124-165 | The directories of a workspace, a project and a thread as text |
| Layout.FilePathsSpelled | scripts/lib/org-export-run.ts:126-137 | So the listings and the file directory of each |
| Layout.ItemsSpelled | scripts/lib/org-export-run.ts:135-174 | So the bundle, the apps' values, the threads' files and the volumes |
| Layout.OwnFilesDiffer | scripts/lib/org-export-run.ts:124-170 | The own files of one directory are different files |
| Layout.CustomerPathIsCustomerId | scripts/lib/org-export-run.ts:94-101 | A file given a path under such a directory has no other item's id |
| Checkpoint.StepKeepsValid | scripts/lib/org-export.ts:163-166 | The checkpoint and the snapshot in writing are whole past states, in order |
| Checkpoint.WriteIsOfItsBegin | scripts/lib/org-export.ts:156-166 | A write stores the live state of the moment it begins, whatever changes and calls come before its end |
| Checkpoint.CheckpointNeverGoesBack | scripts/lib/org-export.ts:156-166 | Over any interleaving of changes, calls and writes the checkpoint never returns to an older state |
| Checkpoint.ResolvedSaveIsOnDisk | scripts/lib/org-export.ts:163-166 | When a call of save resolves, a state no older than the call is on disk |
| Checkpoint.WritesGetDone | scripts/lib/org-export.ts:163-166 | While a call is owed a write can go on, and each brings the end nearer |
| ExportStates.ClaimAllAssigns | scripts/lib/org-export-run.ts:95-97 | Claiming a listing in order gives every row its own path and keeps all earlier claims |
| ExportStates.ThrowKeepsClaims | scripts/lib/org-export-run.ts:95-97 | A listing's throw comes at the first path that finds no names, and what was claimed before it is kept |
| Protocol.StepKeepsSafe | scripts/lib/org-export-run.ts:92-102 | Every step, a crash included, keeps the invariant: files, flights and finished items have durable claims |
| Protocol.RunsStaySafe | scripts/lib/org-export-run.ts:92-120 | So does every run, and durable claims never shrink or change owner |
| Protocol.StartedJobIsDurable | scripts/lib/org-export-run.ts:96-101 | When a download may start its claim is on disk |
| Protocol.CheckpointedFilesAreClaimed | scripts/lib/org-export.ts:167-177 | Every checkpoint that reaches the disk has a claim for each finished customer file |
| Protocol.PathsAreNeverReassigned | scripts/lib/org-export-run.ts:94-101 | A path that once held a customer file never holds another, in this run or any later one, nor do paths that fold onto it or lie below it |
| Protocol.SkippedFileIsTheRightOne | scripts/lib/org-export.ts:167-172 | When an item skips, the file on disk was written for the same customer path |
| Resume.ResumedExportIsSane | scripts/lib/org-export.ts:102-117 | However earlier runs ended, a process that opens the export meets all that the walk's theorem asks of its start |
| Resume.OrderlyRunsTearNothing | scripts/lib/org-export.ts:102-117 | If no items of one id overlapped in them, it starts with no item torn |
| Resume.InterruptedWalkIsSkipped | scripts/lib/org-export-run.ts:117-119 | A process that ends between the save of a finished walk over objects and its being forgotten makes the next one skip it, and list nothing |
| Ledger.StepBalances | scripts/lib/org-export.ts:167-182 | Each step keeps the books: finished and warnings disjoint over all ids, every item started over or in flight, and each that is over booked as it went |
| Ledger.RunsStayBalanced | scripts/lib/org-export.ts:167-182 | So does every run in which items of one id do not overlap, crashes and resumes included |
| Ledger.WarningsTellWhatIsLacking | scripts/lib/org-export.ts:167-182 | With nothing in flight every item started is over, and an id is warned of if and only if its last action threw or, not started, it was warned of before |
| Ledger.NoWarningsMeansNothingLacks | scripts/lib/org-export.ts:167-182 | Then, without warnings, every item started is finished with its outputs on disk unless lost since, but for forgotten walks, and a customer file there is that file |
| Ledger.OwnIdsMayStart | scripts/lib/org-export-run.ts:80-183 | The ids of the walk's own items meet the guard of the step that starts them |
| Writer.ExportWriter.ItemStart | scripts/lib/org-export.ts:168-172 | An item skips exactly if it is finished and all its outputs exist; otherwise it is unfinished first |
| Progress.ItemBooked | scripts/lib/org-export.ts:167-182 | An item keeps the bookkeeping: nothing finished is warned of, and a started item is warned of exactly if it lacks |
| Progress.EndBooked | scripts/lib/org-export.ts:173-181 | So does the end of a download among others in flight |
| Progress.WalkSane | scripts/lib/org-export-run.ts:105-119 | So does the end of a walk over objects, which is forgotten at once |
| Progress.WalkKeepsWalks | scripts/lib/org-export-run.ts:103-120 | A walk over objects skips exactly if it was finished when the run came to it, and none is ever left finished |
| Progress.MovesOn | scripts/lib/org-export-run.ts:79-185 | What one stretch of a run keeps (finished items, claims, others' warnings), several keep |
| Progress.ItemEnds | scripts/lib/org-export.ts:167-182 | An item that does not fail is finished with its outputs on disk |
| Walk.Item | scripts/lib/org-export.ts:167-182 | The whole world after an item, and that it undoes nothing |
| Walk.CachedListing | scripts/lib/org-export.ts:183-187 | What is returned is what the file holds, fresh from the server or cached, and undefined only if it could not be read |
| Walk.ClaimRows | scripts/lib/org-export-run.ts:95-97 | The names of a listing, claimed in order |
| Walk.Pool | scripts/lib/org-export-run.ts:99-101 | Downloads in flight side by side, ending in any order: at most `concurrency` at a time, every job is started, none is left in flight, and none is torn if the jobs differ |
| Walk.DistinctJobsDiffer | scripts/lib/org-export-run.ts:95-101 | Files told apart by their segments have jobs of their own |
| Walk.Files | scripts/lib/org-export-run.ts:92-102 | Unless it throws or a listing cannot be read, the listing is stored and every file in it has been started at its path |
| Walk.ObjectPage | scripts/lib/org-export-run.ts:110-112 | One page of stored objects: all of it started, or a throw |
| Walk.ObjectPages | scripts/lib/org-export-run.ts:109-113 | All pages of a listing started, or a throw, and nothing else touched |
| Walk.ListPrefixes | scripts/lib/org-export-run.ts:108-114 | The pages of the prefixes asked for are taken in order until one fails, and it ends well exactly if all ended and all were taken |
| Walk.AnswerTells | scripts/lib/org-export-run.ts:107-109 | Those are all prefixes of the answer for a workspace and exactly those that start with `project-fs/` for a project: all ended, and the pages are theirs |
| Walk.ListObjects | scripts/lib/org-export-run.ts:105-117 | It throws if the prefixes are not answered, a listing does not end or a page finds no names, and at its end exactly if an object's warning stands |
| Walk.R2Walk | scripts/lib/org-export-run.ts:103-120 | What the server answers is recorded, and no object is started but those of prefixes the walk is for; unless it skips, it fails exactly then, and afterwards it is not finished; if it skips it lists nothing |
| Walk.Project | scripts/lib/org-export-run.ts:135-142 | A project's files, bundle and walk over stored objects have been started |
| Walk.Projects | scripts/lib/org-export-run.ts:134-142 | So has every project of a workspace |
| Walk.Apps | scripts/lib/org-export-run.ts:144-161 | Every app of the workspace has had its key-value item |
| Walk.ThreadVolume | scripts/lib/org-export-run.ts:169-178 | One volume of a thread's agent, down to its files |
| Walk.Threads | scripts/lib/org-export-run.ts:162-180 | Every thread of the workspace, with its messages and volumes, however the threads take turns; when one throws the others may still go on |
| Walk.Workspace | scripts/lib/org-export-run.ts:123-181 | A workspace's automations, files, projects, walk over stored objects, apps and threads |
| Walk.RecordSets | scripts/lib/org-export-run.ts:86-89 | Every record set of the manifest is stored, and the walk works on what is stored |
| Walk.WarnOfStrayThreads | scripts/lib/org-export-run.ts:183-184 | The warnings added are one for each thread with no workspace of its id, and no other |
| Walk.WalkExport | scripts/lib/org-export-run.ts:79-185 | A walk that does not throw has started all that its listings name, using no names but those of its plan |
| Walk.WellNamedIsReliable | scripts/lib/org-export-run.ts:79-185 | If no names clash and no warnings are left, no listing was taken for an empty one |
| Walk.StartedIsDone | scripts/lib/org-export.ts:167-182 | Without warnings, all that was started is finished, on disk, and the right customer file |
| Archive.ArchiveStays | scripts/lib/org-export-run.ts:79-185 | What the archive holds as far as the walk has seen, it holds when more is there |
| Archive.FilePathsAre | scripts/lib/org-export-run.ts:96-97 | Of a listing the paths of exactly the rows that are files are claimed, in listing order |
| Archive.CompleteOrganization | scripts/lib/org-export-run.ts:80-90 | A complete archive has every setting, record set and the thread listing |
| Archive.CompleteThreads | scripts/lib/org-export-run.ts:183-184 | Each of its threads has a workspace in the record set |
| Archive.CompleteWorkspace | scripts/lib/org-export-run.ts:123-161 | Of each workspace it has the automations, every file, the walk over stored objects, the projects and the apps |
| Archive.CompleteProject | scripts/lib/org-export-run.ts:134-142 | Of each project every file, the bundle and the walk over stored objects |
| Archive.CompleteThread | scripts/lib/org-export-run.ts:162-180 | Of each thread its details, its messages and, if an agent is mounted, every file of every volume |
| Walk.NothingLeftOut | scripts/lib/org-export-run.ts:79-185 | A walk that ended without warnings, and whose names do not clash, has left nothing out, walks over stored objects included |
| Walk.RunExport | scripts/org-export.ts:23-26 | One run on any state an earlier one left: complete exactly without warnings, and then nothing is left out; which warnings are left; nothing finished is warned of; a thread's old warning stays; which walks over stored objects skip, and what any other has listed; every list but the automation index is the server's answer or was there before |
| Walk.ObjectsAreThere | scripts/lib/org-export-run.ts:103-143 | After a complete run every workspace and project has had its stored objects walked, and unless the opened checkpoint had the walk finished the server's listing of every prefix (of exactly those that start with `project-fs/` for a project) ended and every object it named is there; no other object was started |
| Walk.CompleteExactlyIf | scripts/lib/org-export-run.ts:201-212 | Unless an item is torn, a run is complete if and only if every old warning's item was started, no action threw last, no walk over objects was blocked, no thread is stray and the walk did not throw |
| Walk.FaultlessRunLeaves | scripts/lib/org-export-run.ts:79-185 | A run in which nothing goes wrong leaves the old warnings of items not started and of blocked walks, and no walk is blocked if no object was warned of |
| Shortfalls.StandingWarningBlocks | scripts/lib/org-export-run.ts:116 | The warning of an object of a later workspace blocks an earlier workspace's walk in a run without faults |
| Shortfalls.StandingWarningHappens | scripts/lib/org-export-run.ts:116 | It happens: a run that fails one download, and the next one that takes the object and still leaves a warning |
| Shortfalls.NextRunIsNotBlocked | scripts/lib/org-export-run.ts:105-119 | With no object warned of, a walk fails only for its own listing |
| Shortfalls.ManifestKeyTakesThreads | scripts/lib/org-export-run.ts:82-90 | A manifest key `threads` keeps the thread listing from ever being asked for |
| Shortfalls.TwoMountsAreWellNamed | scripts/lib/org-export-run.ts:169-178 | A volume mounted twice makes no names clash |
| Shortfalls.VolumesShareListing | scripts/lib/org-export-run.ts:171 | Different volumes can share a listing's file |
| Shortfalls.SecondReadingHidesFirst | scripts/lib/org-export.ts:183-187 | A second listing of one id takes back the warning of the first, which stays unread; but the names clash |
| Shortfalls.SharedListingHidesFiles | scripts/lib/org-export-run.ts:171-176 | At two such volumes no warning is left, the second volume is whole and the first is not; but the names clash |
| Shortfalls.IndexOverwrites | scripts/lib/org-export-run.ts:182 | A record set or a key `automations` is finished without a warning, and its file holds the automation index |
| Shortfalls.TornItemStaysWarned | scripts/lib/org-export.ts:167-182 | A file named twice can end up finished and warned of, and no later item changes that |
| Bridge.ItemFollows | scripts/lib/org-export.ts:167-182 | An item of the walk is a start, a placing and an end in the step system, which then holds the same state and files |
| Bridge.ClaimFollows | scripts/lib/org-export-run.ts:95-98 | Claiming a listing is one step |
| Bridge.BeginFollows | scripts/lib/org-export-run.ts:99-101 | So is the start of a download whose listing's save has resolved |
| Bridge.PlaceFollows | scripts/lib/org-export.ts:236 | So is moving its file into place |
| Bridge.EndFollows | scripts/lib/org-export.ts:173-181 | So is its end, though another flight may hold the id |
| Bridge.WalkStartFollows | scripts/lib/org-export.ts:168-172 | A walk over objects starts as an item and stays in flight around those of its objects |
| Bridge.WalkEndFollows | scripts/lib/org-export-run.ts:117-119 | At its end it succeeds or fails and is forgotten |
| Bridge.NoteFollows | scripts/lib/org-export-run.ts:183-184 | So are warnings that are no item's |
| Bridge.IndexFollows | scripts/lib/org-export-run.ts:182 | And the automation index |
| History.FetchPages | scripts/lib/org-export-run.ts:14-24 | The cursor loop asks with no cursor and then with each page's own next one, ends at a page without one, and throws at the first page with a bad or not smaller next cursor or entries out of order |
| History.Assemble | scripts/lib/org-export-run.ts:26-31 | Reading the pages back from the last gives their messages oldest first |
| History.ExportHistory | scripts/lib/org-export-run.ts:10-35 | The file holds the messages of all pages so asked for, oldest first, with their count, and the same pages decide a throw |
| History.RequestsAreBounded | scripts/lib/org-export-run.ts:15-23 | Whatever is answered, at most two requests more than the first cursor given |
| History.FetchedIsTheRest | scripts/lib/org-export-run.ts:13-31 | Against a server that pages a history the pages from a cursor on are all the entries below it |
| History.HistoryIsWhole | scripts/lib/org-export-run.ts:13-34 | The export is then the whole history, oldest first, and counts it |
| Paging.All | scripts/lib/org-export.ts:211-227 | No cursor is asked with twice; each request but the first asks with the cursor of the page before; the rows of a listing are those of all its pages in order, and it ends exactly at a page with no or an empty cursor, with rows or without; it throws only on a failed request, a bad page or a page whose cursor was asked with before |
| Paging.ListingIsUnique | scripts/lib/org-export.ts:211-222 | Only one chain of cursors ends |
| Paging.RepeatedCursorNeverEnds | scripts/lib/org-export.ts:219 | On a server without memory, giving up on a repeated cursor loses no listing that could have ended |
| Retry.Run | scripts/lib/org-export.ts:64-72 | All calls but the last fail with 429, 5xx or no HTTP status; the last returns, is the last allowed or fails with another status; and the sleep between each two |
| Retry.DelayBounds | scripts/lib/org-export.ts:69 | A sleep is at least its exponential step and what the server asks, up to 30 seconds, and no more than the larger of the two |
| Retry.ReturnsFirstSuccess | scripts/lib/org-export.ts:64-72 | A value is returned if and only if some call succeeds within the attempts and before a final HTTP error, and it is the first |
| Pool.StepKeepsSound | scripts/lib/org-export.ts:73-78 | Each item taken is with one worker or has settled once |
| Pool.RunsAreOrderly | scripts/lib/org-export.ts:73-78 | Every interleaving takes items in index order, each once, and ends |
| Pool.NoWorkerIsStuck | scripts/lib/org-export.ts:73-78 | Until all workers are through one of them can go on |
| Pool.ResolvedMeansAllDone | scripts/lib/org-export.ts:73-78 | When the call resolves every item has been run to its end exactly once |
| Pool.AllCanBeInFlight | scripts/lib/org-export.ts:73-78 | As many items as the concurrency allows can be in flight at once |
| Pool.ConcurrencyIsBounded | scripts/lib/org-export.ts:73-78 | Never more items in flight than the concurrency |
| Backfill.JudgeIsRight | scripts/lib/user-app-cost-controls-backfill.ts:199-224 | A candidate is due for a redeploy if and only if both questions are answered so and the reads between them were answered; skipped for the reason of the first answer that skips; failed with the error of the first read that fails; the entrypoint is read only where the alarm guard needs it |
| Backfill.OneOfThree | scripts/lib/user-app-cost-controls-backfill.ts:199-224 | Of these one holds, for one reason or error |
| Backfill.RunIsRight | scripts/lib/user-app-cost-controls-backfill.ts:185-241 | So for each candidate a run considers: a due one would be applied, or takes the outcome of `applyOne`, whose three answers become applied with its version, skipped with its reason, or failed; the calls are those of the due ones in order |
| Backfill.RunBackfill | scripts/lib/user-app-cost-controls-backfill.ts:185-241 | The loop's report is so for every candidate it considers, and adds up as below |
| Backfill.RunAddsUp | scripts/lib/user-app-cost-controls-backfill.ts:185-241 | One outcome for each considered candidate, in order, all unless the limit is reached; calls within the limit; calls and pauses alternate, beginning and ending with a call |
| Backfill.DryRunPredicts | scripts/lib/user-app-cost-controls-backfill.ts:225-235 | A dry run names exactly, in order, the scripts a run with the same answers redeploys, even if redeploys fail, and settles all others alike |
| Backfill.Summarize | scripts/lib/user-app-cost-controls-backfill.ts:142-151 | Each number of the summary is how many places of the outcomes hold that kind, each skip reason apart, and only reasons that occur are listed |
| Backfill.SummaryAddsUp | scripts/lib/user-app-cost-controls-backfill.ts:135-151 | Its totals add up to the number of outcomes |
| Delivery.StepKeepsSafe | src/components/Chat.tsx:2163-2373 | Every callback keeps the queue free of duplicates and its notes of acceptance true |
| Delivery.AcceptedIsNeverResent | src/components/Chat.tsx:2718-2890 | From the mount on, over any interleaving, once an acceptance has been processed the message is never sent again nor put back into the composer |
| Delivery.AcceptedMeansAcked | src/components/Chat.tsx:2300-2331 | A queued message is withheld if and only if its acceptance has been processed |
| Delivery.SendIsQueued | src/components/Chat.tsx:4317-4346 | A message from the composer is queued last, goes out at once if the transport is open, and is backed up if asked for |
| Delivery.InitialSendIsQueued | src/components/Chat.tsx:3164-3215 | The first message of a thread is queued and backed up unless known to be accepted, and once only |
| Delivery.ReopenSends | src/components/Chat.tsx:2862-2882 | A flush sends exactly the queued messages whose acceptance has not been processed, each once, in order |
| Delivery.AckedIsAccepted | src/components/Chat.tsx:2718-2756 | The acceptances processed are those that replies brought |
| Delivery.AcceptMarksBackup | src/components/Chat.tsx:2163-2208 | An acceptance marks the draft and the stored backup of its message, and touches nothing else |
| Delivery.LettingGo | src/components/Chat.tsx:2333-2366 | A refusal lets go of exactly the queued messages not accepted; a terminal error and the end of a turn let go of all |
| Delivery.RestoresExactly | src/components/Chat.tsx:2235-2278 | Text goes back into the composer if and only if a refusal lets go of a message, or a terminal error comes, while a backup is not accepted and the composer is free |
| Delivery.LastTurnClears | src/components/Chat.tsx:2210-2233 | Of several sends in flight each end of a turn is through with one, and the last removes the backup |
| Delivery.LostMessageIsSentAgain | src/components/Chat.tsx:2850-2882 | A queued message not accepted stays queued while nothing lets go of it, and is in every flush until accepted |
| Delivery.SentMessageGoesOut | src/components/Chat.tsx:2850-2882 | From the mount on, over any interleaving, a message sent from the composer or as the first of its thread is queued, and goes out whenever the transport opens until it is accepted or let go of |
| Delivery.SendQueue.HandleAgentOpen | src/components/Chat.tsx:2862-2882 | A flush dispatches exactly the queued messages not known to be accepted, in order |
| Delivery.SendQueue.MarkAccepted | src/components/Chat.tsx:2163-2208 | What an accepted reply records, in the set, the draft and the stored backup |
| Delivery.SendQueue.RestoreDraft | src/components/Chat.tsx:2235-2278 | A backup is put back only if not accepted and the composer is free, and is then gone |
| Delivery.SendQueue.ClearDraft | src/components/Chat.tsx:2210-2233 | The backup is kept until the last of several sends in flight is through |
| Delivery.SendQueue.FailPending | src/components/Chat.tsx:2333-2366 | A refusal lets go of exactly the messages not known to be accepted |

## Left out

- Walk.R2Walk: a walk the opened checkpoint has finished is skipped, and whether its objects are all there is not claimed.
- Walk.ObjectsAreThere: says nothing of two walks whose ids are one (workspace or project ids that hold colons): `WellNamed`
  excludes them.
- Walk.CachedListing: which endpoint a listing is asked from is not modelled; the server's answer goes by the file it is for,
  and a download's content by its customer path.
- Walk.RunExport: says nothing is left out only if the names in the listings do not clash, because where they do the
  code itself loses listings without a word, as the lemmas above show; and the exact warnings only if no item is torn.
- Walk.Threads: one thread's items do not overlap in time with another's, and the downloads of a volume are not
  interrupted. `Protocol.dfy` interleaves all items freely.
- Bridge.ItemFollows: the stretches of the walk are runs of the step system one by one; that a whole walk is one, with its
  saves in between, is not stated.
- Walk.LeafItem: what an earlier run stored under an id is taken for this run's, as the code takes it.
- Rows whose ids are not text: the code compares the text of a workspace's id with the raw ids in apps and threads, so
  numeric ids would pass both over.
- Delivery.AcceptedIsNeverResent: one mount with a workspace, ids fresh, the stored backup written by this tab only.
- `selectBackfillCandidates`, `alarmInvocationsByScript`, `parseBackfillArgs` and `formatBackfillOutcome`: filters,
  sums and text that would add only easy members.
- The counts, README, checksums and archive that `finishExport` writes; its verdict is modelled.
- `redactError`, `parseExportArgs`, `findExportDirectory`, and the version, organization and URL checks of `open`.
- Symlink checks and directory creation in `target`, staging directories, and disk failures during `save`: a rename is
  one step and a save succeeds or the process dies.
- The check of an item's outputs and the removal of its record are one step, although files may vanish in between.
- HTTP itself (`response`, timeouts, the `Retry-After` header) and Git commands; `exportGit` is an item that may have no
  output, and the history of a thread an item with one, detailed in `History.dfy`.
- The `excluded` list and the records of `org/automations.json` (files, counts and flags): text for the reader of the
  archive, which nothing reads back. The model writes any list there.
- The classifier, the alarm-guard test and the settings of the backfill: parameters of the model.
- History indices are integers, and message bodies are values of any type; their JSON text is not modelled.
- The rest of `Chat.tsx`, and the server's deduplication of repeated ids: not part of this model.
