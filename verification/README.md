# dedcom: what is proved of its protocols

dedcom finds duplicate files on ZFS pools, shows them in a terminal interface and replaces or deletes
what the operator marked. This project models the parts of it that keep state across concurrent or
asynchronous steps, and proves what must hold over whole runs of them. `dafny verify dfyconfig.toml`
checks everything.

| file | models |
|---|---|
| `Wrappers.dfy`, `Text.dfy`, `Seal.dfy`, `StateRecord.dfy` | what is shared by all (`Option`, lists whose entries have numbers), and the texts of `scripts/g6-publish-record.py`: lines, the seal of a record, the state head, and the second reader of the seal in `scripts/g6-verify-counts.py` |
| `WriteAll.dfy` | `write_all` against short writes |
| `Publication.dfy`, `PublicationRuns.dfy`, `PublicationFailures.dfy`, `PublicationEnds.dfy`, `PublicationAlone.dfy`, `FileNames.dfy`, `FileRuns.dfy`, `FileFindings.dfy` | the publication protocol: any number of calls on one directory, interleaved system call by system call, each of which may fail or be the call's last; what holds in every run; what a failure leads to; that every call ends; a publication alone; how the names are spelt, and what comes of it |
| `FileTree.dfy` | directories, files, links, walks, resolutions and no-replace renames, and what a rename does that comes later than its questions; shared by the next two |
| `InstanceLock.dfy`, `LockLooks.dfy`, `TwoOperators.dfy` | `src/lock.rs`: `flock` on an inode that the next process finds by name; which files become locks and what is let go of when; and the runs that end with two operators |
| `OpenDatabases.dfy`, `DatabaseSteps.dfy`, `DatabaseRuns.dfy`, `DatabaseFindings.dfy` | the list of open databases of `src/paths.rs`, with SQLite and its `fcntl` locks as the environment; what holds in every run; where it falls short |
| `StateDirectory.dfy`, `DirectoryLooks.dfy` | the walk to the state directory of `src/paths.rs`; and whom it trusts, what it takes, and exactly when the walks that change nothing find it |
| `Opening.dfy` | one open at a time against the actor of `src/state/browse.rs`, a server that answers in order |
| `Browsing.dfy`, `BrowsingRuns.dfy`, `BrowsingReplies.dfy`, `BrowsingAnswers.dfy`, `BrowsingPages.dfy`, `BrowsingGate.dfy` | the replies, pages, gate, marks and plans of `src/app.rs`, against replies in any order; what holds in every run; how long a request is waited for; what is asked for when, and what the answers show; the rows of the open group; and when the gate opens again |
| `Shutdown.dfy`, `ExitSteps.dfy`, `ExitRuns.dfy`, `ExitEnds.dfy`, `ExitFindings.dfy` | the staged exit of `src/app.rs` in the event loop of `src/main.rs`; what becomes of results, actors and batches on the way; what every run of it leaves; that it ends, and when not; and the runs that show where it falls short |
| `SessionList.dfy` | the background load of the session list of `src/app.rs` |

Each protocol is a state, one function per step, `Apply` over events and `Run` over sequences of them;
an event that cannot happen changes nothing. What the program changes in place is also written as a
class whose methods are proved to do what the step functions say, loops included. The invariants are
proved of every step, and the main lemmas are about every run.

SHA-256 is a parameter, any function from text to digests. Environments are stated where they are
used: what the operating system may answer, SQLite opening and removing its files, an actor that
serves a queue, member lists fixed by a group's identity and — for the rows of the open group only —
published lists of groups in which no rank occurs twice.

Beside the results in the table below, the modules `BrowsingAnswers`, `ExitSteps`, `LockLooks` and
`DirectoryLooks` say of single steps what they leave, so that each function the runs are made of has its
meaning stated apart from it.

## How large a step is

- A publication goes one system call at a time.
- A rename is two steps: the look at the name together with the questions to the list, and the call.
  Between the two may come anything that does not wait for the list — steps of other processes, other
  renames of the same process, SQLite. Within one look the several `lstat` calls are one step.
- The close of a descriptor, with the question that lets it through, is one step, and so is
  `OpenDatabase::at` in the runs; its two halves are treated apart in `LockSurvivesIff` and `LateEntry`.
- The interface handles one event at a time, as its event loop does. The beginning of a pass, where a
  signal or a lost terminal asks for the exit, is a step of its own: the program may decide to quit there
  and still handle one event. Work may begin, by a key or by a late reply, in any stage of the exit.

## What the proofs found

- `TwoOperators.OverlappingRenamesTwoOperators`: each process holds only its own list
  (`src/lock.rs:168-177`), and the rename goes by path (`src/actions/move_file.rs:198-235`). Three
  processes that all keep the lock's name listed end with two operators when one's rename comes after
  another's look: a directory on the looked-at path has been replaced by a link to the state directory.
  `InstanceLock.TimelyIsExact` says exactly when a rename in hand harms a held lock: if the questions
  about the lock's name, asked again when the rename is made, would find part of it. So a rename harms
  nothing if nobody has renamed anything since its look (`InstanceLock.HeldLockKeepsItsName`).
  `OpenDatabases` has the same two steps, condition and conclusion for the files of a database, where the
  renames that may overlap are those of the batch's worker and of the move's, and of other processes.
- `DatabaseFindings.LateEntry`: `OpenDatabase::at` looks at the file (`src/paths.rs:691`) before it takes
  the list (`src/paths.rs:692`). A rename let through in between leaves a number on the list that is
  not the database's, and closing a descriptor of the file SQLite then opens drops its lock.
  `DatabaseFindings.LockSurvivesIff` says of every state when that lock survives: exactly if the look had
  found nothing, or the very file SQLite opens.
- `StateDirectory.EstablishingAgain`: a mode that writes establishes the directory twice, for its log
  and for itself. The second time works exactly if the directory holds live state or is not directly
  below `/`; so one directly below `/` that dedcom itself has just made is refused
  (`StateDirectory.TopLevelIsRefusedTheSecondTime`), although the comments at `src/paths.rs:370-372`
  and `src/paths.rs:281-285` mean it to be taken.
- `BrowsingPages.RowsGoWrong`: a mark rolled back after another group was shown puts the rows of the
  group it was made in under the other's name (`src/app.rs:2656-2668`), and a run from the start of the
  program gets there.
  `BrowsingPages.RollbackKeepsRows` says when a rollback is right: exactly if the same group is open.
- `BrowsingGate.GateWaitsForEver`: a mark may be set while a sweep runs (`src/app.rs:5064-5072`), and its
  acknowledgement asks for the count of the marks again (`src/app.rs:2748`), under the one route there is.
  If it comes after the sweep's, the reload that followed the sweep waits for a count whose reply is no
  longer heard (`src/app.rs:2368-2374`): with every request answered in order and well, planning is refused
  with "wait for them to settle" until something else starts a reload or the results are opened again.
  `BrowsingGate.StepFollows` says exactly what takes a reload its answers, `BrowsingGate.GateOpens` that
  otherwise they open the gate, in either order.
- `ExitFindings.QuitsWithWork`: `producers_busy` is read only in the first stage of the exit
  (`src/app.rs:3711-3757`), and nothing that begins work asks about the exit. A reply that begins a scan
  after that (`src/app.rs:1079-1092`) does not keep the program from quitting, nor does a batch confirmed
  then. `ExitRuns.EndsWith` says exactly what runs when the loop ends: what was begun past that stage and
  has not ended. Without any such beginning it quits clean (`ExitRuns.QuitsClean`).
- `ExitFindings.QuitsOwing`: a batch that reports while the actor is being closed leaves its settlement
  owed, and that is the only way (`ExitRuns.EndsWith`).
- `ExitFindings.QuitsWithAnActor`: `on_finished` asks for the exit before it opens its result
  (`src/app.rs:3123-3140`), so the last scan of a program without a live actor starts one after the exit
  is done. `ExitRuns.LeavesAnActorIff` says exactly when an actor is left: then, or if the one event
  handled after the decision to quit asks an actor for something.
- `ExitFindings.NewActorSticks`: the exit takes an actor that is there for the one that owes it the
  settlement (`src/app.rs:3743-3757`). When that one dies with an open in flight and the scan screen asks
  a new actor for the result it owes (`src/app.rs:3251-3260`), only a second signal ends the exit.
  `ExitFindings.LateBatchSticks`: so it does if a batch is begun and reports while it settles, because the
  new settlement takes over the route. `ExitEnds.StuckIff` says that nothing else does this,
  `ExitEnds.SomethingAwaitedIff` that in every other state something awaited is still to come.
- `FileFindings.RecordIsLost`: a record may be named like the temporary of the state file beside it; another
  call's failing `write_state` (`scripts/g6-publish-record.py:202-223`) then unlinks it.
  `FileNames.ApartIff` says exactly which names are safe.
- `PublicationAlone.LonePublication`: with a negative code, or a name with a blank or a line break, a
  publication exits 0 and the state file then reads FAILED.
- `Seal.VerifySealIff`: a body that does not end a line is sealed but never verifies.
- The header of `scripts/g6-publish-record.py` calls a damaged state file CORRUPT; `read_state` says
  FAILED. The model says what the code says.

## Model

| member | source | states |
|---|---|---|
| Seal.SealRoundTrip | scripts/g6-publish-record.py:54-89 | a body that is empty or ends in a line break is recovered whole from its sealed record, with its size and digest, and the record verifies |
| Seal.UnterminatedNeverVerifies | scripts/g6-publish-record.py:59-89 | no body that stops inside a line verifies once sealed, whatever it says and whatever the digest function is |
| Seal.VerifySealIff | scripts/g6-publish-record.py:54-89 | `verify` accepts what `seal` made exactly when the body is empty or ends in a line break |
| Seal.IntactCarriesItsBody | scripts/g6-publish-record.py:59-89 | any record that verifies starts with its body and carries that body's size and digest |
| Seal.ReadersAgree | scripts/g6-verify-counts.py:178-200 | the second reader accepts exactly the records `verify` accepts that have a body, and finds the same body |
| Seal.Fields | scripts/g6-verify-counts.py:201-205 | the loop over the body's lines maps each key but the empty one to the value of the first line that has it, and has no other keys |
| Seal.ReadFields | scripts/g6-verify-counts.py:178-206 | the whole of `read_sealed`: exactly a record that verifies and has a body gives anything, and that is the keys and first values of its own body's lines |
| StateRecord.StateRoundTrip | scripts/g6-publish-record.py:115-151 | what `read_state` makes of every state `state_record` writes: the very same one if the code is not negative and the name is one field of one line, FAILED otherwise |
| StateRecord.ReadIff | scripts/g6-publish-record.py:131-151 | of any text whatever: `read_state` says something other than FAILED exactly if it is two lines, a head of five fields that can be read and a line with the key and the digest of that head; and then it says what the head says |
| StateRecord.Tampered | scripts/g6-publish-record.py:139-142 | a sealed state file whose head is replaced by one of another digest, its seal line kept, always reads FAILED |
| WriteAll.Descriptor.Write | scripts/g6-publish-record.py:92-104 | one write lands a prefix of what it is given, or raises and lands nothing |
| WriteAll.WriteAll | scripts/g6-publish-record.py:92-104 | whatever each write answers, a normal return means exactly the buffer has landed, anything else that a write raised or made no progress; and no more writes are made than the buffer has bytes |
| WriteAll.ProgressFills | scripts/g6-publish-record.py:92-104 | answers that each land a byte at least are enough to land the whole buffer |
| PublicationRuns.RunKeeps | scripts/g6-publish-record.py:154-340 | every run keeps the protocol's invariant, and records and the state file once there stay there |
| PublicationRuns.PublishedIsThere | scripts/g6-publish-record.py:227-247 | over every interleaving with failures and deaths, of names told apart by kind, once the state reads PUBLISHED the record it names exists, verifies, and has exactly the recorded size and digest, so the check answers ok, then and ever after |
| PublicationRuns.CheckedAgainst | scripts/g6-publish-record.py:227-247 | against any directory, each answer about a published record has its own cause: gone, not sealed, not readable again, another size, another digest; ok exactly if none of them |
| PublicationRuns.OnlyThatRecord | scripts/g6-publish-record.py:227-247 | over every run whose state reads PUBLISHED and for any other directory, the check answers ok exactly if the record there verifies, can be read and has the length and digest of the one the run published |
| PublicationRuns.QuerySaysZero | scripts/g6-publish-record.py:358-376 | over every run and for any directory, `--query-state` exits 0 exactly if there is no state file, or it says PUBLISHED with the code 0 and — a directory being given — that very record is there |
| PublicationRuns.ReEntryIff | scripts/g6-publish-record.py:416-427 | over every run, a call exits 3 exactly at its look at a state file that reads PUBLISHED, being told to publish under a name beside one; it has touched nothing |
| PublicationRuns.LookDecides | scripts/g6-publish-record.py:383-440 | what every other call makes of the state it finds: a beginning goes on only from a fresh start, a publication from a fresh start or a run that has begun |
| PublicationRuns.ReadPublished | scripts/g6-publish-record.py:202-224 | a state file that reads PUBLISHED names a record that is there, with that record's own size and digest |
| PublicationRuns.RecordsNeverChange | scripts/g6-publish-record.py:266-340 | the bytes of a record never change once its name exists |
| PublicationRuns.ClaimReturnsOk | scripts/g6-publish-record.py:154-199 | over every run, a step out of a claim other than to a failure is that of a call whose own link put the state file in place |
| PublicationRuns.AtMostOneWinner | scripts/g6-publish-record.py:154-199 | at most one call ever wins the claim, at most one `--begin` exits 0, and at most one publication of a name exits 0 |
| PublicationRuns.ExitZeroLanded | scripts/g6-publish-record.py:250-340 | a publication that exits 0 has its own sealed bytes under the record's name |
| PublicationRuns.NeverFreshAgain | scripts/g6-publish-record.py:115-199 | after a claim has linked, the state file never reads NOT_STARTED again |
| PublicationRuns.StateReadsStarted | scripts/g6-publish-record.py:115-151 | nothing the protocol puts at the state file's name reads as a fresh start |
| PublicationFailures.FailureIsFelt | scripts/g6-publish-record.py:92-340 | from any state and however the run goes on: a call of which any one system call fails, or a write lands nothing, never exits 0 |
| PublicationFailures.RecordsHavePlainNames | scripts/g6-publish-record.py:250-340 | over every run no record's name holds a slash or starts with a dot, and a publication that exits 0 has such a name and a body |
| PublicationFailures.StatelessRun | scripts/g6-publish-record.py:411-450 | publications that are given no state file make none, in any run of them |
| PublicationEnds.CallsEnd | scripts/g6-publish-record.py:92-340 | over every run and from any state: a call that still lives has made no more system calls than it had ahead of it, whatever the others do and whatever fails; so with that many it has ended |
| PublicationAlone.LonePublication | scripts/g6-publish-record.py:343-450 | a publication alone, with no call failing and however short its writes, exits 0 exactly when its body ends a line, and leaves PUBLISHED exactly when besides the code is not negative and the name is one field, FAILED otherwise |
| PublicationAlone.AloneRuns | scripts/g6-publish-record.py:92-340 | every such run of steps keeps the publication on its way, and as many steps as are left finish it |
| FileNames.ApartIff | scripts/g6-publish-record.py:172-304 | no two names of a run are spelt alike exactly if the state file's is apart from every record's: neither is named like the other, the record like no temporary of the state file, and the state file like no record behind a dot and no temporary of a record |
| FileRuns.FilesRun | scripts/g6-publish-record.py:154-340 | with such names the directory of files holds, after every run, name by name what the directory of kinds of names holds |
| FileRuns.PublishedFileIsThere | scripts/g6-publish-record.py:227-247 | so for any such spelling the file the state file says is published is there, intact, of that size and digest, then and ever after |
| FileRuns.RecordFilesNeverChange | scripts/g6-publish-record.py:266-340 | and no record's file changes once it is there |
| FileFindings.TempTakesRecord | scripts/g6-publish-record.py:202-223 | from any directory: a record named like the temporary a call is about to write is unlinked by that call |
| FileFindings.RecordIsLost | scripts/g6-publish-record.py:202-223 | a run from the empty directory in which a record that was published is lost that way |
| FileTree.GuardsTheWay | src/lock.rs:200-240 | refusing the directories above a name and what is not a directory at it refuses every name on the way to it, by whatever path the rename reaches it |
| FileTree.GuardsTheParent | src/paths.rs:900-922 | the directories above a name are refused even while nothing lies at the name |
| FileTree.LookStillHolds | src/lock.rs:168-193 | a name the questions found harmless is harmless still if nothing was renamed since, whatever was made and linked |
| FileTree.RenameKeepsExactly | src/actions/move_file.rs:198-235 | of a rename that happens, whenever its questions were asked: the way to a kept name stays exactly if the questions about it find nothing now, and is gone otherwise |
| InstanceLock.LockFiles.Enter | src/lock.rs:100-110 | a new entry with a number never used before joins the list at its end |
| InstanceLock.LockFiles.Retain | src/lock.rs:42-53 | dropping a lock or a name takes its entry out of the list and no other |
| InstanceLock.LockFiles.PartOf | src/lock.rs:180-240 | the look and the questions entry by entry answer what the whole list answers |
| InstanceLock.GuardedRenameKeeps | src/lock.rs:168-193 | a rename made at once after the list let it through moves no part of the way to a listed name that leads to a file |
| InstanceLock.RenameKeepsIff | src/lock.rs:180-240 | whenever it looked, a rename that happens leaves the way to a lock exactly if the list of a process that keeps that name would let it through now |
| InstanceLock.HeldLockKeepsItsName | src/lock.rs:363-409 | over every run of processes that look and rename in two steps, in which each rename is still harmless when made or comes from a process that lists the name with no other rename since its look, the name of a held lock leads, no link on the way, to the very inode the lock is on |
| InstanceLock.OneOperator | src/lock.rs:363-409 | so in such runs at most one instance lock exists for a state directory in any reachable state |
| LockLooks.NoNameOfALock | src/lock.rs:196-198 | over the same runs, a rename of the locked file by any name it has, a hard link elsewhere included, is not let through |
| LockLooks.LocksHadOneName | src/lock.rs:433-453 | over every run, whoever checks, locks or lists a file as his lock found it, when he looked, by one name only |
| LockLooks.CheckPassesIff | src/lock.rs:433-453 | the look lets the file through exactly if one name leads to it |
| LockLooks.SecondNameIsSeen | src/lock.rs:443-448 | a file that was given a second name does not pass |
| LockLooks.DropIff | src/lock.rs:42-53 | dropping a lock gives it free and takes its entry out of the list, dropping a name takes out its entry only; anything else drops nothing |
| InstanceLock.TimelyIsExact | src/lock.rs:168-177 | in any reachable state and of any rename in hand, the name of a held lock still leads to its file afterwards if and only if the rename is still harmless when made, and is free otherwise |
| TwoOperators.OverlappingRenamesTwoOperators | src/actions/move_file.rs:198-235 | a run in which every process lists the name whenever it renames, and two processes end with locks of one directory |
| TwoOperators.WithoutTheNameTwoOperators | src/lock.rs:118-150 | without the name on the renaming process's list there is a run after which two processes hold locks of one directory |
| OpenDatabases.Registry.NoteNames | src/paths.rs:595-603 | the loop notes, of the first names, those that hold something and are not noted, and changes no other |
| OpenDatabases.Registry.At | src/paths.rs:676-695 | a new connection is entered at the end of the list, under a number never used, with what the earlier look found |
| OpenDatabases.Registry.With | src/paths.rs:710-717 | the entry of the connection has the new notes, and every other entry is as it was, in its place |
| OpenDatabases.Registry.NoteFiles | src/paths.rs:697-702 | each file of the connection not noted is noted as what lies at its name, those noted stay noted, and every other entry is as it was |
| OpenDatabases.Registry.Closing | src/paths.rs:704-708 | nothing is noted for the connection any more, and every other entry is as it was |
| OpenDatabases.EntryChangedIff | src/paths.rs:697-717 | what those two leave, entry by entry, is exactly what a note and an announcement leave in the runs |
| OpenDatabases.EntersItsLook | src/paths.rs:679-694 | and what `at` enters is what an entry with its look's finding is in the runs |
| OpenDatabases.Registry.Drop | src/paths.rs:720-738 | the entry goes, no other does, and whether it had been forgotten is said |
| OpenDatabases.Registry.RenameUnlessPart | src/paths.rs:808-869 | the rename happens exactly if the name holds no part of an open database, and the answer says which part otherwise |
| OpenDatabases.RenameStep | src/paths.rs:798-919 | a rename clear of the ways to the open databases keeps everything their connections rely on |
| DatabaseSteps.TimelyIsClear | src/paths.rs:808-869 | a rename the list lets through now is clear of every open connection |
| DatabaseSteps.ApartIsClear | src/paths.rs:808-819 | and so is one in hand since whose look nothing was renamed, though SQLite opened, closed and removed files meanwhile |
| OpenDatabases.HeldNameKeptIff | src/actions/move_file.rs:198-235 | a rename that happens leaves an open file its name exactly if the questions about that name find nothing when it is made |
| OpenDatabases.CloseStep | src/paths.rs:756-775 | a close of a descriptor the list lets through drops no connection's lock |
| DatabaseSteps.CloseConnectionStep | src/paths.rs:575-593 | a connection's own close, SQLite taking the journal with the last one, harms no other connection |
| DatabaseSteps.RunKeeps | src/paths.rs:575-612 | every run keeps the list's invariant |
| DatabaseRuns.HeldFilesAreSafe | src/paths.rs:676-922 | over every run in which each rename is still let through when made, or comes with no other rename since its look, every file a live connection has open is answered for by the list, still lies at its name, and its locks are still held |
| DatabaseRuns.NoNameOfAFile | src/paths.rs:606-612 | so a rename of an open file by any name it has, a hard link elsewhere included, is not let through |
| DatabaseRuns.PlainIff | src/paths.rs:684-688 | a name is a database's own exactly if it is no other's journal nor the index of one |
| DatabaseRuns.NamesApart | src/paths.rs:684-688 | the names of the three files of plainly named databases never meet |
| DatabaseSteps.EnterStep | src/paths.rs:679-694 | entering with the finding of an earlier look keeps the invariant of the runs exactly if it found nothing or what it found still lies there |
| DatabaseFindings.LockSurvivesIff | src/paths.rs:679-694 | of every state and every earlier look: after the entry, SQLite's open and a close the list lets through of a descriptor of that file, the connection has it open, and its lock on it exactly if the look had found nothing or that very file |
| DatabaseFindings.LateEntry | src/paths.rs:679-694 | a run in which the look came too early: the database's lock is dropped by a close the list let through |
| DatabaseRuns.AnswersAreCurrent | src/paths.rs:586-612 | where every close is announced, the list refuses exactly the files that now lie at one of its names, so no recycled number is refused by a stale note |
| DatabaseRuns.NotesAreHeld | src/paths.rs:586-593 | there each noted number is that of a file this very connection has open, or is about to |
| DatabaseRuns.NotedInFull | src/paths.rs:697-702 | once a connection that has read is noted, all three of its files are, each under the number of the file it has open |
| DatabaseRuns.NotesStay | src/paths.rs:697-708 | over every run a note once taken stays until its connection announces its close or leaves the list |
| DatabaseFindings.StaleNote | src/paths.rs:720-738 | a run from the start in which a close is not announced, and a file that was given the journal's old number is refused though it lies at none of the names |
| StateDirectory.HeldBy | src/paths.rs:286-341 | the names read one by one, in any order, give the answer their set gives |
| StateDirectory.Volume.List | src/paths.rs:286-341 | a listing has each name of the directory, in any order |
| StateDirectory.Volume.OpenVerifiedDir | src/paths.rs:194-262 | the checks of one component, in the program's order, and the one change of mode they may end in |
| StateDirectory.Volume.EstablishChain | src/paths.rs:132-175 | the loop over the components does to the filesystem what the walk is specified to do |
| StateDirectory.Volume.WalkStateDir | src/paths.rs:82-113 | the whole walk, its refusals of paths included |
| StateDirectory.NamesOfSpelt | src/paths.rs:82-96 | however a path is spelt, its names are those it was spelt with, once and in their order: empty parts and dots add none, and two dots are a name |
| StateDirectory.NamesOfJoined | src/paths.rs:82-96 | any list of proper names, joined with a slash before each, has just these names |
| DirectoryLooks.TrustedIff | src/paths.rs:216-240 | a component is trusted exactly if whoever walks or root owns it and, by the mode bits of his class, nobody else may write to it — on the way, unless the sticky bit is set |
| DirectoryLooks.LeafRefusedIff | src/paths.rs:247-252 | a directory that is there is taken for the state directory exactly if it holds live state, or nothing but logs and is not directly below the root |
| DirectoryLooks.OpensIff | src/paths.rs:132-262 | the walk of a database about to be opened ends in a directory exactly if the path leads there without a link through trusted directories and no call fails |
| DirectoryLooks.ReportsIff | src/paths.rs:253-257 | the reporting walk ends as that one does, but that it refuses a directory without live state, or that it cannot list |
| StateDirectory.LookingChangesNothing | src/paths.rs:56-68 | a walk that reports, or opens a database, changes nothing, whatever it answers |
| StateDirectory.EstablishingIsSafe | src/paths.rs:132-262 | a failed establishing changes nothing but that directories of the walker's own are made along the path; a successful one ends in a leaf for its owner only, reached through trusted directories and no link, made by this walk, or holding live state, or empty but for the logs and not directly below the root |
| StateDirectory.EstablishingAgain | src/logging.rs:57-79 | once both logs are in it, establishing the directory again changes nothing and works exactly if it holds live state or is not directly below the root |
| StateDirectory.TopLevelIsRefusedTheSecondTime | src/paths.rs:370-386 | a directory directly below the root that the first walk makes is refused by the second |
| Opening.App.OpenViaActor | src/app.rs:1234-1278 | an open leaves only if none is in flight, and proposes the activation after the installed one |
| Opening.App.OnReply | src/app.rs:1738-1772 | only the reply to the routed open installs, uninstalls or releases the route |
| Opening.OneOpenInFlight | src/app.rs:1234-1278 | over every run at most one open is on its way there or back, exactly while the interface waits for one, and it proposes the installed activation plus one |
| Opening.SidesAgree | src/state/browse.rs:2592-2684 | whenever nothing is in flight what the actor serves is what the interface shows, under the installed activation, and the interface shows nothing else unless word that the database was replaced went unheard |
| Opening.RoutedSidesAgree | src/app.rs:1738-1772 | where no reply loses its route the two agree exactly, though the database be replaced at any moment |
| Opening.InstalledByOne | src/app.rs:1287-1306 | the installed activation changes only when an open succeeds, and then to the one it proposed, the next |
| Opening.OpenLeavesIff | src/app.rs:1234-1278 | over every run, an open leaves exactly if none is in flight and it is accepted, under a number none on its way has had |
| Opening.OpenAnswers | src/state/browse.rs:2592-2690 | from any state of the actor: when an open succeeds, when it is a loss and when a refusal, and what the actor serves after it |
| Opening.ReadAnswers | src/state/browse.rs:1562-1644 | a read is a loss exactly if the actor has let go of the database, or finds another file now; and it looks only for what it serves |
| Opening.LossIsTold | src/state/browse.rs:1536-1549 | once the actor has let go, everything is answered with the loss in every run until an open succeeds |
| Opening.LetsGoIff | src/app.rs:1738-1772 | the interface lets go of what it shows exactly if the open it waits for is lost, or a routed read of the installed activation or of the database only |
| Browsing.App.OpenViaActor | src/app.rs:1234-1278 | one open at a time, with what it proposes |
| Browsing.App.OnOpenFinished | src/app.rs:1738-1772 | the routed reply installs its scan and clears all that answered the last one, or uninstalls, or changes nothing |
| Browsing.App.OpenSelectedGroup | src/app.rs:1610-1643 | the first page and the count of the selected group are asked for, or nothing is open |
| Browsing.App.OnGroup | src/app.rs:1817-1887 | a page goes where its route says, if it is of the installed activation and of the group asked for, and a missed one where it was owed |
| Browsing.App.AppendOpenGroup | src/app.rs:1979-2001 | a page is appended only at the end it was asked for, of the rank that is open |
| Browsing.App.MaybeLoadMoreFiles | src/app.rs:4995-5049 | the next page is asked for only near the end, below the limit, and one at a time |
| Browsing.App.StartGateReload | src/app.rs:2426-2475 | both reads are issued and the gate waits for them, or planning is blocked |
| Browsing.App.SettleGate | src/app.rs:2478-2555 | a read counts for its own half of its own reload only |
| Browsing.App.OnMarkedCount | src/app.rs:2362-2393 | the routed count of the installed activation is shown and counted, a refusal blocks |
| Browsing.App.BrowserMark | src/app.rs:5064-5157 | no mark is written while a plan of the group view is being built, and one that is remembers the rows it may have to restore |
| Browsing.App.OpenReview | src/app.rs:5331-5357 | a plan is asked for only in a calm moment |
| Browsing.App.OnMarkAck | src/app.rs:2690-2755 | the mark is no longer pending, and an unreadable answer of the installed activation restores the rows |
| Browsing.App.UninstallBrowsing | src/app.rs:1521-1565 | the state of an interface that shows nothing of the results and refuses to plan |
| Browsing.App.GroupOfRank | src/app.rs:5029-5037 | the first group of the list with that rank, if there is one |
| BrowsingRuns.RunKeeps | src/app.rs:618-631 | every run keeps the invariant of routes, view, marks and log |
| BrowsingRuns.ShownIsCurrent | src/app.rs:1578-1580 | in every reachable state everything shown from a reply — each page of the open group on its own — answers a request of the activation installed now, whatever late or superseded replies came |
| BrowsingRuns.InstallsNext | src/app.rs:1287-1306 | installed activations go up by one, each only by the routed reply to an open |
| BrowsingRuns.PlansAreCalm | src/app.rs:5151-5357 | every plan ever requested was asked for when no mark write was pending, no sweep ran and the gate was settled, and a pending plan of the group view excludes its own unacknowledged marks and any sweep |
| BrowsingRuns.GateSettles | src/app.rs:2478-2555 | the gate settles only by an installed open, or by the reply that completes the reads of the last reload, each answered under the activation it was asked under |
| BrowsingRuns.CountsAnswers | src/app.rs:2362-2393 | a read is counted only when its own good reply comes under the activation it was asked under |
| BrowsingRuns.ReloadIsFresh | src/app.rs:2426-2475 | the reads of a reload are new and unanswered when it starts, so no earlier reply contributes |
| BrowsingRuns.GoneShowsNothing | src/app.rs:1516-1565 | over every run, a reply that is heard and says that the database was replaced leaves nothing shown — no scan, groups, open group, counts, directory group, watches — and the gate blocked |
| BrowsingRuns.GoneAsksNothing | src/app.rs:1516-1565 | and in every run on until an open is installed no plan, no sweep, no page of the browser's own and no mark of the group view is asked for |
| BrowsingReplies.WaitsUntilSettled | src/app.rs:618-631 | over every run, from the step that sends it a request waits for its reply exactly until that comes or its actor is retired; counts of the marks and plans so long as none is asked for after them |
| BrowsingReplies.HeardOnce | src/app.rs:1652-1772 | over every run a second reply to anything but a mark or a sweep changes nothing |
| BrowsingAnswers.AskedIff | src/app.rs:1610-1643 | whatever the operator does is asked for exactly if nothing stands against it, under the installed activation or for an open the next, and changes nothing else that is shown |
| BrowsingAnswers.TotalIsTold | src/app.rs:1890-1915 | the first page shows its group, its rows and the number of files it was said to have; a count for the rank that is open sets that number |
| BrowsingAnswers.PanelHears | src/app.rs:2004-2060 | what a panel that watches is shown is the answer to its own request, or none, and no reply begins or ends its watching |
| BrowsingAnswers.OpenShows | src/app.rs:1287-1330 | an open that succeeds shows its groups and nothing of the last scan, settles the gate and asks for the first group |
| BrowsingAnswers.MarkAcknowledged | src/app.rs:2690-2748 | an acknowledged mark stays, one whose answer cannot be read is taken back, and the marks are counted again |
| BrowsingAnswers.SweepEnds | src/app.rs:2846-2905 | a sweep that ran in whole or part has the marks and rows read again behind the gate, any other changes nothing |
| BrowsingAnswers.RetiredMarks | src/app.rs:3304-3340 | marks nobody acknowledged are taken back with their actor, and planning is refused |
| BrowsingPages.RowsAreThePages | src/app.rs:1938-2001 | the rows of the open group are its first members, no page twice, missing or another group's, and at most 50,000 |
| BrowsingPages.OnePageInFlight | src/app.rs:5015-5049 | no second page of the open group is ever on its way beside another |
| BrowsingPages.MoreIffNear | src/app.rs:4995-5049 | the next page is asked for exactly if the cursor is within a page of the end, more is to come, none is on its way and the group is on the list; it is for the rows after the last |
| BrowsingAnswers.ScrollingShowsAll | src/app.rs:4995-5049 | from any state: scrolling on, each page being answered, shows all of the group in the end, or its first 50,000 files |
| BrowsingGate.GateOpens | src/app.rs:2426-2555 | a gate all of whose reads are answered or will be heard opens as soon as their good replies are there, in either order |
| BrowsingGate.ReloadIsAlive | src/app.rs:2426-2475 | such is the gate when a reload starts, exactly if its count can be asked for; else it is blocked |
| BrowsingGate.StepFollows | src/app.rs:2426-2555 | from any reachable state and for any step that starts no other reload: only such a gate opens, and it stays such exactly if the step takes none of its reads away — no mark acknowledged and no idle batch ended before the count, no reply that names another group |
| BrowsingGate.AliveStays | src/app.rs:2426-2555 | so over every run without such a step what the reload waits for can still come |
| BrowsingGate.ClosedStays | src/app.rs:2426-2555 | and over every run, a gate that is blocked, or waits for what will not be heard, stays shut until another reload starts or an open is installed |
| BrowsingGate.GateWaitsForEver | src/app.rs:2362-2393 | a run from the start in which everything is answered in order and well and the gate waits for a reply nobody hears |
| BrowsingPages.RollbackKeepsRows | src/app.rs:2656-2668 | a rollback leaves the open group its own rows exactly if it is the group the mark was made in |
| BrowsingPages.RollbackElsewhere | src/app.rs:2656-2668 | from any state in which another group is on its way, a mark and its failure give that group the rows of the one that was left, none of which are its own |
| BrowsingPages.RowsGoWrong | src/app.rs:2656-2668 | a run from the start of the program after which the open group shows rows that are all another group's |
| Shutdown.App.OpenViaActor | src/app.rs:1234-1278 | one open at a time; its route is kept only if the request was accepted |
| Shutdown.App.SettleScanScreen | src/app.rs:4480-4515 | with no scan and no open in flight the scan screen asks for what it owes, or is left |
| Shutdown.App.AdvanceShutdown | src/app.rs:3704-3779 | the loop ends and does what the stages say |
| Shutdown.App.RequestShutdown | src/app.rs:3675-3696 | a first signal starts the exit and cancels the successor, a forced one leaves at once |
| Shutdown.App.SendPendingReconcile | src/app.rs:3202-3215 | the settlement is sent only for the scan it was planned against, and routed if it was accepted |
| Shutdown.App.RetireActor | src/app.rs:3239-3340 | what the actor still held makes the marks unsettled, the open it owed is released and the scan screen settled, and a successor follows only a close that was asked for outside an exit, with its scan opened again |
| Shutdown.App.BeginClose | src/state/browse.rs:1394-1425 | a live actor is asked to close, or is there to be retired if it is gone |
| Shutdown.App.OnReconcileAck | src/app.rs:3028-3083 | only the routed acknowledgement settles, and it takes the exit on if the exit waits for it |
| Shutdown.App.OnApplyFinished | src/app.rs:3377-3497 | what each of the four outcomes of a batch owes and says of the marks, and that the exit is asked again |
| Shutdown.App.OnFinished | src/app.rs:3118-3185 | the exit is asked first; then a completed scan's result is opened, or owed by the scan screen if another one is opening |
| Shutdown.App.OnOpenFinished | src/app.rs:1738-1772 | only the routed reply counts, and then the scan screen is settled |
| Shutdown.App.SetReadOnly | src/app.rs:3638-3664 | an idle fleet opens the scan again, a live actor is asked to close with a successor to follow; not while a batch runs |
| Shutdown.App.OnActorClosed | src/app.rs:3342-3351 | only the actor the fleet knows is retired, once |
| Shutdown.RunKeeps | src/app.rs:3698-3779 | every run keeps the invariant: each stage, once looked at, has what it waits for, and no stage is entered unasked |
| ExitSteps.ResultIsOpenedOrOwed | src/app.rs:3118-3185 | the result of a scan that completed is opened, or owed while another scan is being opened; only an actor that accepts nothing leaves it |
| ExitSteps.OwedResultIsAsked | src/app.rs:1738-1772 | and what is owed on the scan screen is asked for as soon as that open is answered |
| ExitSteps.RoleChangeReopens | src/app.rs:3638-3664 | a change of role outside an exit closes the actor, and once it has closed another one opens the scan that was shown; during a batch nothing changes |
| ExitSteps.FollowsIff | src/app.rs:3261-3300 | a successor follows exactly outside an exit and if one was asked for, with its scan opened again |
| ExitSteps.EndIsSaid | src/app.rs:3239-3340 | what an actor held unacknowledged when it ends is said to be unsettled, a panic always is, and the open it owed is let go of or asked for again |
| ExitSteps.BatchOwes | src/app.rs:3377-3456 | a batch that ran owes its settlement to the scan it was planned against and says so; one that did not owes nothing and says nothing |
| ExitSteps.RequestBegins | src/app.rs:3675-3696 | asking for the exit begins it and leaves no successor to follow |
| ExitRuns.ActorClosesLast | src/app.rs:3704-3771 | the exit asks an actor to close only when it drains, and on leaving the producers only with no work running and no settlement pending |
| ExitRuns.SettlementEnds | src/app.rs:3028-3083 | a settlement stops being pending only by the routed good acknowledgement of a request that carried it, or with the marks marked unsettled |
| ExitRuns.SettlementHeard | src/app.rs:3028-3083 | over every run, a refused settlement that is heard leaves the marks marked unsettled, and uninstalls the results exactly if it says they are lost; a good one outside an exit settles them |
| ExitRuns.ForcedEnds | src/app.rs:3675-3687 | a second signal: whatever runs and whatever is owed, the program is to quit, no successor follows, nothing else is touched, and the loop is over with its pass |
| ExitRuns.SettlementsGoHome | src/app.rs:3202-3215 | a settlement is sent only while the scan it was planned against is the one shown |
| ExitRuns.StrandedIsSaid | src/app.rs:3306-3340 | unacknowledged marks an actor still held are let go of only with the marks marked unsettled |
| ExitRuns.EndsWith | src/app.rs:3704-3779 | when the loop ends unforced the exit was asked for and is done, the work running is exactly what was begun past the producers and has not ended, and a settlement is owed exactly if a batch reported once the exit drained |
| ExitRuns.QuitsClean | src/app.rs:3704-3779 | so it quits with no work running and nothing owed if no work is begun past the producers |
| ExitRuns.LeavesAnActorIff | src/app.rs:3118-3140 | over every run, the event that ends the loop leaves an actor exactly if the program had decided to quit before it and it asks an actor for something, or it is the end of a completed scan that the exit waited for last, with no live actor |
| ExitRuns.AdvanceTwice | src/app.rs:3698-3704 | advancing again changes nothing, from any state |
| ExitRuns.RequestTwice | src/app.rs:3668-3675 | nor does asking for the exit again |
| ExitEnds.AwaitedLowers | src/app.rs:3704-3779 | nothing takes the exit back but work that is begun, by its weight at most, and each awaited answer lowers its rank |
| ExitEnds.WorkAdds | src/app.rs:3711-3720 | work that is begun raises the rank by exactly its weight: its own end where the exit still waits for work, and a scan's result |
| ExitEnds.ExitEnds | src/app.rs:3704-3779 | over every run the awaited answers are no more than the rank and what was begun; with as many the program quits, whatever comes between |
| ExitEnds.SomethingAwaitedIff | src/app.rs:3704-3779 | a pass that has begun waits for something that is still to come — the end of running work, the acknowledgement by the actor that accepted the request, the terminal of an actor closing or gone — exactly if the exit is not stuck |
| ExitEnds.StuckIff | src/app.rs:3743-3757 | an event leaves the exit stuck exactly if, while it settles, a batch that ran reports to a live actor, or the actor ends with an open in flight and the scan screen still owes a result |
| ExitEnds.StuckStays | src/app.rs:3743-3757 | a stuck exit stays so, and the program does not quit, over every run without the end of the actor that is there or an answer nobody owes |
| ExitFindings.QuitsWithWork | src/app.rs:1079-1092 | a run from the start in which a late reply begins a scan and the program quits with it running |
| ExitFindings.QuitsOwing | src/app.rs:5628-5658 | a run from the start in which a batch begun while the actor is being closed leaves its settlement owed |
| ExitFindings.QuitsWithAnActor | src/app.rs:3118-3140 | a run from the start in which the first scan completes after a signal and leaves a live actor with an open in flight |
| ExitFindings.LateBatchSticks | src/app.rs:3444-3456 | a run from the start in which a second batch's settlement takes over the route the exit waits for |
| ExitFindings.NewActorSticks | src/app.rs:3251-3260 | a run from the start in which the exit waits for an actor that has died, because another one is there |
| SessionList.App.SpawnSessionsLoad | src/app.rs:5741-5764 | a load starts under the next number unless one is out or the list is loaded |
| SessionList.App.SupersedeSessionsLoad | src/app.rs:5766-5773 | a new load starts whatever was out |
| SessionList.App.OnSessionsReady | src/app.rs:1013-1067 | a reply that is not the newest changes nothing; the newest sets list, cursor, flags, error and status |
| SessionList.AskedAnew | src/app.rs:5741-5773 | over every run, superseding puts out a new load under a number never used, and asking does so exactly if none is out and the list is not loaded |
| SessionList.NewestDecides | src/app.rs:1013-1067 | for any order of replies and any superseding, the spinner turns exactly while the newest load is out, and its answer alone decides list, flags and owned error |
| SessionList.LateRepliesDoNothing | src/app.rs:1013-1019 | the screen is what it would be had no superseded reply ever come |
| SessionList.StatusTakenBack | src/app.rs:1046-1054 | after every run a success that is heard clears the status exactly if it is what the last reply heard before it failed with, whatever was superseded in between |
| SessionList.CursorKeepsItsScan | src/app.rs:1020-1045 | over every run in which the list is in use, the cursor is on the scan it was last moved to as long as each list that is installed has it, whatever superseded loads say |
| SessionList.CursorStaysOnARow | src/app.rs:1020-1045 | and over every run it is on some row if there is one |

## Left out

- Text: bytes of 0x80 and above are single opaque characters; decoding, and Unicode digits and blanks in a seal or state line, are not modelled.
- Publication: `fsync` and a loss of power; a `close` that raises is a death of the call; names are told apart by kind there, and FileNames says when their spellings are; records in another directory than the state file cannot be spelt like its names; a stale temporary is found or not found as the directory listing pleases.
- FileTree: `..` in a path, the limit on links counted over a whole resolution rather than along one chain of links, and mount points.
- InstanceLock: the walk to the state directory and the open of the lock file are one step, on a path without links, where `try_acquire` opens by path, following links on the way, after an earlier walk has established the directory; reading and writing the holder's note in the lock file, and what `decide` makes of an answer.
- OpenDatabases: databases named like a journal, connections of other processes (they may keep a journal alive: the close event says whether this one is the last), and names compared otherwise than by their bytes.
- DatabaseRuns.HeldFilesAreSafe: `OpenDatabase::at` is one step there, because the look and the entry apart do not keep it; LockSurvivesIff and LateEntry say exactly when. The question about a descriptor and its close are one step. A rename of another process, which asks another list, is taken at its call. Renames in hand that overlap are excluded unless still let through when made, because they do not keep it either; HeldNameKeptIff says exactly when.
- InstanceLock.HeldLockKeepsItsName: overlapping renames are excluded unless still harmless when made, because they do not keep it; TimelyIsExact says exactly when.
- InstanceLock.OneOperator: holds in the runs of HeldLockKeepsItsName only; OverlappingRenamesTwoOperators is one outside them.
- StateDirectory: contents of files, access control lists, and the wording of refusals.
- Opening: the closing and replacement of an actor, which `Shutdown` has.
- Browsing: what marks do to a row (keepers, actions, devices), panels, file information, covering scans, and where the screen goes.
- Browsing.App.BrowserMark: rows are paths, so the keeper and the action it sets, and their restoring after a refused send, are not modelled; which rows are shown and which would be restored are.
- Browsing.App.OnMarkAck: the after-image of a settled or failed write changes marks only, which are not modelled.
- BrowsingPages.RowsAreThePages: holds where marks are rolled back only while their group is open, because it fails otherwise; RollbackKeepsRows, RollbackElsewhere and RowsGoWrong say exactly when. Published lists in which a rank occurs twice are excluded there.
- Shutdown: keys that quit at once, a second signal in the runs, and the exhaustion of the activation counter; two scans or two batches at once, which the screens keep apart; a panic counts as a signal.
- Shutdown.App.RequestShutdown: the cancellation flags of a running scan and batch, which change nothing the exit reads.
- The interface: keys, mouse, rendering, status texts other than the session list's.
- `src/maint.rs`, `src/consent.rs`, `src/signals.rs`, `src/panics.rs`, `src/sysmon.rs`, `src/bench.rs`, the policy tables of `src/lock.rs` and the SQL checks of `scripts/g6-verify-counts.py`: short, tabular, or input and output, they would add only easy members.
