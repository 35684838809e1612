# SentinelPass: verified core behaviour

A Dafny model of the parts of SentinelPass whose correctness is not visible in any one
function: the private-file protocol of `anvai-secure-io`, keyed domain matching, the
browser extension's trackers and session secrets, the clipboard expiry controller, the
choice of the captured password field, and log redaction.

`dafny verify dfyconfig.toml` checks the whole project.

## Layout

| file | models |
|---|---|
| Publication.dfy | `PrivateDir` on Linux as a transition system: one event is one system call of one caller, a process starting or a process being killed |
| PublicationInvariant.dfy, PublicationSteps.dfy | the invariant, what a bystander tolerates, and the proof that every step keeps it |
| AtomicRegister.dfy | the register each name is to its callers, and the refinement |
| PublicationTheorems.dfy | whole runs: honest answers, atomic reads, power cuts, names and links, temporaries, locks |
| PublicationAnswers.dfy, PublicationBusy.dfy | which answer a call gives, from what its name holds, when no system call fails, and when the answer is `Busy` |
| PublicationProgress.dfy | every call ends within a bounded number of its own steps |
| PublicationCrashes.dfy | power cuts and restarts, any number of them |
| PrivateDirCalls.dfy | the code of `write`, `read` and `lock`, which sees only what its system calls answer, kept in step with that system while others work in between |
| LockDiscipline.dfy, LockMoves.dfy | what happens to locks when lock names are written |
| Names.dfy, Walk.dfy | spelling of temporaries, path components, and the walk by directory handles |
| DomainChain.dfy | label chains, tags, and `domains_match` |
| Trackers.dfy | the message rate limiter and the request de-duplication map |
| SessionSecrets.dfy | lifetimes, sweeps and purges of session secrets, in time |
| Clipboard.dfy | copies, timers, expiries and backend replies in any order |
| PasswordForms.dfy, LogRedaction.dfy | capture targets, and redaction of JSON trees |
| Wrappers.dfy | the optional value shared by all modules |

## How the publication protocol is modelled

Any number of processes run any number of calls. A caller holds a program counter, and
an event moves one caller by one system call. Every system call may fail; a failure
changes nothing and is reported as the source reports it. A process may be killed
between any two system calls, which ends all its calls and closes their handles. A system
call that a signal interrupts is repeated where the standard library repeats it. Runs
start in any directory nobody is working on, with any files, links, hard links and stale
temporaries in it. `write_all` and `read_to_end` move any number of bytes at a time.

After a power cut a name may be bound as after any commit since the last directory
sync, each name on its own (`MaySurvive`). A synced file is whole, any other may hold
anything, and the file system's own recovery gets link counts right (`PowerCut`).

What the code and its documentation rest on is carried openly:

- only this crate works in the directory, and callers' names stay outside `.anvai-pending-`;
- live processes have different process ids, and the temporary counter does not wrap;
- lock names are never `write` targets (`Disciplined`); the crate's documentation asks only
  that lock names are never unlinked, and a rename over one moves the lock (`LockDiscipline`,
  `LockMoves`);
- a rename is one atomic step, as POSIX `rename()` requires, and a failed system call has
  had no effect.

Auxiliary state that no step reads: who made an inode, what a call has done to its name,
which counter values a call drew, the log of commits and the starting names.

## Other assumptions

- HMAC-SHA-256 (section 2 of RFC 2104) is a function that keeps the chains of the two
  hosts in question apart. No function into 32 bytes keeps all strings apart.
- `normalize_host` is any partial function that never gives the empty host.
- Clocks do not run backwards. `RateLimiter.BackwardClockForgets` shows what happens otherwise.
- Session storage calls succeed, a sweep starts at least once a period and finishes within
  its duration; period and duration are arbitrary.
- The commands of the desktop backend run one after the other; between the two native calls
  of an expiry anything else may happen.

## Where code and comments differ

- The comment on `selectCaptureTarget` says a login form gives the filled current-password
  field and a new-account form the last non-empty new-password field. The code gives the
  first filled password input on a login form and the last filled one of any role on a
  new-account form. `LoginCanCaptureACode` and `NewAccountCanCaptureACode` are forms where
  the two differ; `LoginCapturesCurrentPassword` and `NewAccountCapturesNewPassword` say
  exactly when they agree.
- `redactForLog` fills a fresh object by assignment, so an own entry named `__proto__` sets
  that object's prototype and disappears. `RedactionKeepsTheRest` gives the exact condition.
- A sweep removes by key after an `await`, so a secret rewritten in between is lost early.
  `SweptEarlyIffRewritten` gives the exact condition.
- `leaf` is meant to admit single components and also admits a name with slashes behind it;
  `LeafExactly` gives the exact set.
- The clipboard tracker is said never to wipe unrelated content, and its `clear_clipboard` to
  have a window between read and clear; `WipesAnotherIffOvertaken` gives the exact condition.
- A failed read or a failed clear leaves a secret on the clipboard with nothing registered;
  `SecretStaysIffMissed` gives the exact condition.
- Tag matching equals string matching only up to the documented cap of ten chains;
  `CapCutsOff` covers the hosts beyond it.

## Model

| member | source | states |
|---|---|---|
| Refinement.RunsRefineAtomicRegisters | anvai-secure-io/src/linux.rs:122-240 | In every run of any number of interleaved `write`, `read` and `lock` calls, with kills and failed system calls anywhere, each step is a step of one atomic register per name: a write acts at its rename, a read at its open, and each call answers only what its action allows |
| PublicationTheorems.ReadsAreAtomic | anvai-secure-io/src/linux.rs:131-147 | A read that returns `Ok` returns, whole and within its limit, what its name held at one moment while the call was under way, even if the name was replaced meanwhile; the file it came from was then a regular file of the user with at most one link and no special, group or other bits |
| PublicationTheorems.NamesHoldWholePayloads | anvai-secure-io/src/linux.rs:149-215 | In every reachable state a write target holds the starting file or the complete payload of one `write` to that name |
| PublicationTheorems.AnswersAreHonest | anvai-secure-io/src/lib.rs:14-25 | `Ok` or `CommitUncertain` exactly when the call's own rename took effect, once; any other answer means it never did |
| PublicationAnswers.AnswersAreExact | anvai-secure-io/src/linux.rs:122-240 | Which answer comes: a returned call none of whose system calls failed answers the argument's error, else the directory's, else exactly what its name held at the moment it looked decides, by owner, kind, mode digits, links and size: `Ok`, with exactly the bytes for a read, `Missing`, `AlreadyExists`, `UnsafePath`, `NotPrivate`, `TooLarge`, or `Io` for a socket or a directory; otherwise only `Busy`, for a lock that is held or for temporaries that are all taken |
| PublicationAnswers.FailuresAddOnlyIo | anvai-secure-io/src/linux.rs:122-240 | Failed system calls change nothing about that but for the answers `Io` and `CommitUncertain` |
| PublicationBusy.BusyWriteTried128 | anvai-secure-io/src/linux.rs:164-186 | A write that answers `Busy` has tried 128 temporary names, under strictly increasing counter values, and found each of them taken |
| PublicationBusy.BusyLockWasHeld | anvai-secure-io/src/linux.rs:235-240 | A lock that answers `Busy` has found its file locked by a call that held it at that moment |
| PublicationAnswers.WritersPassPrivateFiles | anvai-secure-io/src/linux.rs:122-161 | A write past its pre-check has found its name free, or met there a regular file of the user with at most one link and special, group and other digits 0 |
| PublicationAnswers.HoldersPassPrivateFiles | anvai-secure-io/src/linux.rs:218-240 | A call that holds a lock has made its file, or met there such a file with exactly one link |
| PublicationAnswers.CleanWritesLeaveNothing | anvai-secure-io/src/linux.rs:209-215 | A write that has returned, none of whose system calls failed, has left no temporary of its own behind |
| PublicationAnswers.CreatedModeIs | anvai-secure-io/src/linux.rs:169-175 | A file made under any umask has special, group and other digits 0, and its user digit is 6 less what the umask takes |
| PublicationTheorems.OnlyCommitsBind | anvai-secure-io/src/linux.rs:193-207 | The binding of a name changes only in a step of a call that asked for this name, and that step appends this call's commit of the new binding and nothing else |
| PublicationTheorems.PowerCutKeepsWholeFiles | anvai-secure-io/src/linux.rs:187-207 | Whatever binding a power cut may leave under a write target, the file behind it is synced and is a starting file or one write's whole payload |
| PublicationTheorems.OkIsDurable | anvai-secure-io/src/linux.rs:207-215 | After `Ok`, a power cut at any later time leaves this write's file or a later commit's under the name, never an older one and never nothing |
| PublicationCrashes.OkOutlivesPowerCuts | anvai-secure-io/src/linux.rs:187-215 | Once `write` has returned `Ok`, the name holds its payload or that of a later write to the name in every later state, over any number of power cuts and restarts |
| PublicationCrashes.CutIsInitial | anvai-secure-io/README.md:38-46 | What a power cut leaves, in any state of any run, is a directory a new run can start from |
| PublicationCrashes.AnyCutCanHappen | anvai-secure-io/README.md:38-46 | Power cuts can happen in any state of any run, with any number of the commits since the last directory sync lost |
| PublicationCrashes.EpochsAreRuns | anvai-secure-io/README.md:38-46 | So every stretch of work between two cuts is a run, and all other results hold in it |
| PublicationTheorems.LinkCountsAreNames | anvai-secure-io/src/linux.rs:45-55 | In every reachable state a file made by the crate has as many links as names, and at most one |
| PublicationTheorems.MadeFilesArePrivate | anvai-secure-io/src/linux.rs:164-187 | Every file the crate made, under whatever umask, is in every reachable state a regular file of the user with at most one link and special, group and other digits 0 |
| PublicationTheorems.RacesNeverTurnAway | anvai-secure-io/src/linux.rs:122-129 | Once a name holds a private file, no interleaving turns a later read or replace pre-check of it into `Missing`, `NotPrivate` or `UnsafePath` |
| PublicationTheorems.PrivateForever | anvai-secure-io/src/linux.rs:193-204 | A name that holds a private file holds one in every later state, however often it is replaced |
| PublicationTheorems.BoundForever | anvai-secure-io/src/linux.rs:193-204 | A name once bound stays bound in every later state |
| PublicationTheorems.OneCreator | anvai-secure-io/src/linux.rs:193-201 | Over a whole run at most one `CreateNew` on a name succeeds, and only if the run started without the name |
| PublicationTheorems.ReplaceFindsItsTarget | anvai-secure-io/src/linux.rs:155-161 | A `ReplaceExisting` past its pre-check finds its name bound to a private file when it renames |
| PublicationTheorems.LiveTempsAreDistinct | anvai-secure-io/src/linux.rs:164-185 | Two writers never hold the same temporary name or inode, and each holds the inode it made |
| PublicationTheorems.UnlinkTakesOnlyItsOwn | anvai-secure-io/src/linux.rs:209-213 | In every reachable state the failure-path unlink removes the caller's own temporary or nothing, never a caller's name, and nothing after a commit |
| PublicationTheorems.ResidueIsExplained | anvai-secure-io/src/linux.rs:209-215 | A temporary still in the directory was there at the start, is in use, or belongs to a killed writer or one whose unlink failed |
| PublicationTheorems.OneHolder | anvai-secure-io/src/linux.rs:218-240 | In every reachable state at most one live handle holds a lock name |
| PublicationTheorems.LockNamesNeverMove | anvai-secure-io/src/linux.rs:217-232 | A lock name keeps its inode for the whole run |
| LockDiscipline.TwoHoldersWithoutTheRule | anvai-secure-io/README.md:44-48 | If lock names may be written, a run from a directory with one lock file reaches two holders of one name |
| LockDiscipline.WriteBreaksTheLock | anvai-secure-io/README.md:44-48 | Whoever holds a lock name, one write to the name lets a second call hold it too |
| LockMoves.TwoHoldersNeedAWrite | anvai-secure-io/README.md:44-48 | Over all runs, whatever is locked and written: if two calls hold one lock name, a write to that name committed while one of them had it open and before the other opened it |
| LockMoves.LockIsCurrentIffUnwritten | anvai-secure-io/src/linux.rs:218-240 | Over all those runs, a holder's lock is still the lock of its name exactly when no write to the name has committed since the holder opened it |
| LockMoves.AttemptBesideHolder | anvai-secure-io/src/linux.rs:218-240 | Beside a holder an attempt ends with `Busy` as long as no such write has committed; once one has, it gets the lock unless a later attempt holds the new file |
| LockMoves.MovedIffWritten | anvai-secure-io/src/linux.rs:193-204 | Over all those runs, a name leads elsewhere exactly when a write to it has committed since, and it never leads back |
| PublicationTheorems.RunGrows | anvai-secure-io/README.md:38-48 | Over any stretch of a run commits are only appended, a returned call keeps its answer, an effect once taken is never taken again, and a published file never changes |
| PublicationProgress.MovesAreBounded | anvai-secure-io/src/linux.rs:131-215 | Whatever the other calls do, a call takes no more steps than its remaining rank |
| PublicationProgress.CallsAreWaitFree | anvai-secure-io/src/linux.rs:164-240 | No call waits for another: 267 steps plus one per byte end it, whatever the others do and however often system calls are interrupted and repeated, and until then it can always step |
| PublicationSteps.RunInv | anvai-secure-io/src/linux.rs:149-240 | The invariant of the protocol (files, temporaries, log, tickets, locks and every call's own condition) holds in every state of every run |
| PublicationInvariant.CallStays | anvai-secure-io/src/linux.rs:149-240 | A call that stands still keeps its own condition under every change the others may make |
| PublicationSteps.NeverStuck | anvai-secure-io/src/linux.rs:149-240 | A live call in a state that satisfies the invariant always has a next step |
| PrivateDirCalls.Directory.Write | anvai-secure-io/src/linux.rs:149-215 | The code of `write`, deciding only from what its system calls answer and with any steps of others in between, ends and stays in step with the transition system; its answer is `Ok` or `CommitUncertain` exactly when the log holds one commit of the call, `Ok` means that commit is covered by a directory sync, and when no system call fails the answer is the one the name's content decides |
| PrivateDirCalls.Directory.Claim | anvai-secure-io/src/linux.rs:164-186 | The loop over temporary names gives a private file under a name of its own, with one link and made by this call, or the error the transition system gives |
| PrivateDirCalls.Directory.Fill | anvai-secure-io/src/linux.rs:187-190 | On success the temporary is still the call's own, holds the whole payload and is synced |
| PrivateDirCalls.Directory.Read | anvai-secure-io/src/linux.rs:131-147 | The code of `read`, with others working in between, ends and stays in step with the transition system; an `Ok` answer is within the limit and is what the name held at one moment of the call, and when no system call fails the answer is the one the name's content decides |
| PrivateDirCalls.Directory.ReadToEnd | anvai-secure-io/src/linux.rs:139-146 | The bounded read loop ends, never buffers more than limit + 1 bytes, leaves the transition system at the answer the code gives for its buffer, and fails only if a system call failed |
| PrivateDirCalls.Directory.Lock | anvai-secure-io/src/linux.rs:218-240 | The code of `lock` ends with the error the transition system gives, which when no system call fails is the one the name's content decides, or with a handle whose inode this call has locked |
| Names.SpellingIsInjective | anvai-secure-io/src/linux.rs:166-170 | Temporaries are spelled alike only if process and counter agree, and never like a caller's name outside the `.anvai-pending-` namespace |
| Names.DecimalReads | anvai-secure-io/src/linux.rs:166-170 | A number is read back from its printed digits, which have no leading zero |
| Names.DecimalIsInjective | anvai-secure-io/src/linux.rs:166-170 | Different numbers are printed differently |
| Names.DashCutsOnce | anvai-secure-io/src/linux.rs:166-170 | The dash between process and counter can be found in one place only |
| Names.LeafOfPlainNames | anvai-secure-io/src/linux.rs:36-43 | On names without a slash, `leaf` over path components accepts exactly the names the protocol accepts |
| Names.TrailingSlashPasses | anvai-secure-io/src/linux.rs:36-43 | `leaf` also accepts every such name with a slash appended |
| Names.LeafExactly | anvai-secure-io/src/linux.rs:36-43 | On all strings, `leaf` accepts a plain name followed by slashes with nothing or dots between them, and nothing else |
| Walk.FileTree.Walk | anvai-secure-io/src/linux.rs:78-120 | Whatever other processes do meanwhile, a directory that is reached is the user's, with no special bits and nothing for anybody else, when the walk ends, and was reached handle by handle: every hop a real entry or `..` at the time it was made, every handle a trusted directory at the time it was checked. If others only add entries: the walk changes no existing node, answers `Io` or exactly what a plain resolution of the path answers at the end, `Io` only after a fault, never `Missing` when it creates, and without faults always finds a directory that was there. In a quiet tree `open` changes nothing and `open_or_create` adds only directories of the user |
| Walk.CreateMissing | anvai-secure-io/src/linux.rs:82-120 | `open_or_create` in a quiet tree, of a path whose first part is there and whose other components are missing: each of these is now a new directory of the user with group and other digits 0, and the walk reaches the last one, unless it started in a set-gid directory, whose bit they inherit and which is refused as `NotPrivate` |
| Walk.OpenMeans | anvai-secure-io/src/linux.rs:57-76 | A path opens at a directory exactly when a chain of trusted handles leads there and it is the user's, with special, group and other digits 0; `NotPrivate` exactly when it leads to one that is not |
| Walk.RefusalHasACause | anvai-secure-io/src/linux.rs:92-117 | Any other refusal comes from the root not being trusted or from one component: `Missing` if it is not there, `UnsafePath` if it is no directory, or a directory of somebody else, or one that others may write to and that is not root's with the sticky bit |
| Walk.TimedTrailIsTrail | anvai-secure-io/src/linux.rs:86-120 | If others only add entries, such a walk through time is a chain of handles in the tree as it is at the end |
| Walk.FileTree.FollowAt | anvai-secure-io/src/linux.rs:93-117 | One component is entered by a hop that was real when made, into a directory that was trusted when checked; if others only add entries, the answer is `Io` or the one the resulting tree gives |
| Walk.FileTree.OpenAt | anvai-secure-io/src/linux.rs:102-115 | `openat`, `mkdirat` and the second `openat` reach what the tree holds under the name at that moment; if others only add entries the answer is `Io` or that, and never `Missing` when it creates |
| Walk.FileTree.EnsureDir | anvai-secure-io/src/linux.rs:104-111 | If others only add entries, `mkdirat` and the directory sync leave an entry under the name and every existing node as it was, or answer `Io`; in a quiet tree only a directory of the user is added |
| Walk.ResolveHasTrail | anvai-secure-io/src/linux.rs:92-117 | A path resolves to a directory exactly when a chain of directory handles leads there, each hop a real entry, `..` or nothing, every handle a trusted directory and none a symbolic link |
| Walk.ResolveStays | anvai-secure-io/src/linux.rs:86-120 | What a path reaches it reaches again, at the same directory, in every larger tree, with `..` anywhere in it |
| Walk.OpenPathStays | anvai-secure-io/src/linux.rs:78-120 | A private directory stays the same private directory as the tree grows |
| Walk.CreateThenOpen | anvai-secure-io/src/linux.rs:78-84 | After `open_or_create(p)` succeeds, a later `open(p)` reaches the same directory while others keep adding entries |
| Walk.MakeDir | anvai-secure-io/src/linux.rs:104-106 | Creating a directory keeps every existing node, with owner, mode, parent and entries |
| DomainChain.TagMatchIsDomainMatch | sentinelpass-core/src/domain.rs:181-220 | For all non-empty hosts, tag sets match exactly when the hosts match as strings and their label counts differ by less than ten |
| DomainChain.TagMatchOfInputs | sentinelpass-core/src/domain.rs:106-177 | The same for all raw inputs and any normalizer: an input has tags exactly when the normalizer accepts it, tag matching is `domains_match` within the cap, and a refused input matches nothing either way |
| DomainChain.ShortHostsMatchAsTags | sentinelpass-core/src/domain.rs:214-220 | For hosts of at most ten labels tag sets match exactly when the hosts match as strings |
| DomainChain.CapCutsOff | sentinelpass-core/src/domain.rs:38-42 | A host and its parent ten or more labels up match as strings and never as tags |
| DomainChain.SuffixIsChain | sentinelpass-core/src/domain.rs:106-139 | A dot-suffix in characters is a suffix in labels, at the distance of the label counts |
| DomainChain.ChainIsSuffix | sentinelpass-core/src/domain.rs:106-139 | A suffix in labels is a dot-suffix in characters, with the remaining labels |
| DomainChain.ChainIndex | sentinelpass-core/src/domain.rs:126-139 | A host is among the chains of another exactly when it is a dot-suffix less than ten labels away |
| DomainChain.DomainChainSuffixes | sentinelpass-core/src/domain.rs:126-139 | The loop collects the label suffixes, longest first, min(labels, 10) of them, none for an empty host |
| DomainChain.ChainsAreDistinct | sentinelpass-core/src/domain.rs:123-139 | The chains of a host are pairwise different |
| DomainChain.ChainHostsMatchEachOther | sentinelpass-core/src/domain.rs:126-139 | Any two chains of one host match each other, within the cap |
| DomainChain.RootsInOneSetMatch | sentinelpass-core/src/domain.rs:141-164 | Hosts whose root tags lie in one host's tag set match one another, as strings and as tags |
| DomainChain.MatchSharesATag | sentinelpass-core/src/domain.rs:156-164 | Matching tag sets share a tag, so a set-intersection pre-filter loses nothing |
| DomainChain.SharedTagIsNotAMatch | sentinelpass-core/src/domain.rs:141-147 | Hosts under a common suffix share its tag and need not match |
| DomainChain.CtSetContains | sentinelpass-core/src/domain.rs:203-212 | The loop without early exit decides membership |
| DomainChain.ChainTagSetsMatch | sentinelpass-core/src/domain.rs:218-220 | The code decides the tag predicate |
| DomainChain.RootInAll | sentinelpass-core/src/domain.rs:181-220 | A root tag is in the other host's set exactly when the host is among the other's chains |
| DomainChain.JoinSplit | sentinelpass-core/src/domain.rs:131-136 | Joining the labels of a host gives the host back |
| DomainChain.SplitJoin | sentinelpass-core/src/domain.rs:131-136 | Splitting joined labels gives the labels back |
| RateLimiter.LimiterIsExact | browser-extension/chrome/background.ts:51-71 | The pruned per-tab limiter decides exactly as the full message history would, wherever cleanups fall: it turns a message away when at least 30 others of its tab, accepted or not, lie less than 5000 ms back |
| RateLimiter.NoBurst | browser-extension/chrome/background.ts:46-58 | No span of 5000 ms ever holds more than 30 accepted messages of one tab |
| RateLimiter.PrunedIsFull | browser-extension/chrome/background.ts:51-71 | At any later time the pruned tracker shows what the full history shows |
| RateLimiter.BackwardClockForgets | browser-extension/chrome/background.ts:60-71 | With a clock that steps back the decision changes: after thirty messages and a cleanup a message from before the cleanup is let through although the history counts thirty in its window |
| RateLimiter.MessageRates.IsMessageRateLimited | browser-extension/chrome/background.ts:51-58 | On the mutable tracker: a message is turned away exactly when the whole history has at least 30 of its tab less than 5000 ms back, and the tracker stays the pruned form of that history |
| RateLimiter.MessageRates.Cleanup | browser-extension/chrome/background.ts:60-71 | The loop over the entries keeps the tracker the pruned form of the whole history |
| RequestDedup.DedupIsExact | browser-extension/chrome/background.ts:461-474 | A request is suppressed exactly when some earlier request with its key, over the whole history, is less than 4000 ms back |
| RequestDedup.UnsuppressedAreApart | browser-extension/chrome/content.ts:112-126 | A request that gets through is at least 4000 ms after every earlier request with its key |
| RequestDedup.MapIsHistory | browser-extension/chrome/background.ts:465-472 | The pruned map holds the last request of a key, or that request is out of the window for good |
| RequestDedup.RecentRequests.IsDuplicate | browser-extension/chrome/background.ts:461-474 | On the mutable map: a request is a duplicate exactly when some earlier one with its key, over the whole history, is less than 4000 ms back, and the map stays its pruned form |
| SessionSecretLifecycle.BoundedResidency | browser-extension/chrome/background.ts:296-322 | In every run no stored secret outlives its 30 seconds, two minutes or ten minutes by more than one sweep period and one sweep, whatever stamp its payload carried |
| SessionSecretLifecycle.OthersAreKept | browser-extension/chrome/background.ts:299-341 | Sweeps, purges and discards never take a key that holds no secret |
| SessionSecretLifecycle.PurgeLeavesOnlyNewer | browser-extension/chrome/background.ts:333-341 | A finished purge leaves no secret but those written after it read the store |
| SessionSecretLifecycle.SweptEarlyIffRewritten | browser-extension/chrome/background.ts:299-307 | A sweep takes a secret that has not expired exactly when the key was on its list and has been written again since the sweep read the store |
| SessionSecretLifecycle.FreshSecretCanBeSwept | browser-extension/chrome/background.ts:299-307 | That does happen: a run from an empty store in which a login captured again between a sweep's choice and its removal is lost |
| SessionSecretLifecycle.RunInv | browser-extension/chrome/background.ts:299-341 | Either no due sweep has begun, or one that began in time is still at work, for every stored secret in every run |
| SessionSecretLifecycle.ChoiceIsExact | browser-extension/chrome/background.ts:299-307 | Of what it has read a sweep chooses exactly the secrets that carry no finite number `expiresAt` or one that is not ahead; any other key it leaves |
| SessionSecretPolicy.SecretHasTtl | browser-extension/chrome/session-secrets.ts:46-74 | The keys with a bounded lifetime are exactly the keys that hold secrets |
| SessionSecretPolicy.StampBoundsLifetime | browser-extension/chrome/session-secrets.ts:76-107 | What any of the four writers stores expires exactly when its lifetime is over, 30 000, 600 000, 600 000 and 120 000 ms after it was written, whatever `expiresAt` the payload carried |
| SessionSecretPolicy.ExpiredMeans | browser-extension/chrome/session-secrets.ts:84-107 | A secret without a usable stamp counts as expired at any time, and a key that holds no secret never does |
| SessionSecretPolicy.PolicyMeans | browser-extension/chrome/session-secrets.ts:46-74 | The names under which secrets are kept and the lifetime of each |
| SessionSecretPolicy.StampWins | browser-extension/chrome/background.ts:1175-1178 | The stored stamp is the writer's, overlaid on whatever the payload carried |
| SessionSecretPolicy.PayloadIsKept | browser-extension/chrome/background.ts:866-871 | Everything else a spread payload carries is stored as it was |
| Clipboard.PendingIsExact | sentinelpass-ui/clipboard.ts:57-108 | Under every interleaving at most one timer is live and `hasPendingExpiry` reports it exactly |
| Clipboard.TimersMove | sentinelpass-ui/clipboard.ts:59-107 | At every event of every run: after an expiry now, a cancellation or a tick no timer is live, the first and the last have an expire request under way, a copy that succeeded leaves one new timer, and nothing else touches them |
| Clipboard.EmptyIsNeverCopied | sentinelpass-ui/clipboard.ts:75-80 | Under every interleaving the backend is never asked to copy an empty text and never registers one |
| Clipboard.NothingIsForgotten | sentinelpass-ui/clipboard.ts:75-101 | When everything has settled no secret is left registered, unless expiry was cancelled by hand or an expire request failed |
| Clipboard.SecretStaysIffMissed | sentinelpass-ui/src-tauri/src/main.rs:1441-1454 | Once nothing is registered and no clear is under way, a copied secret is on the clipboard exactly when the read or the clear of an expiry that met it failed and nothing has been copied over it since |
| Clipboard.SettledSecretStaysIffMissed | sentinelpass-ui/src-tauri/src/main.rs:1441-1461 | So it is in every settled state that nothing excuses |
| Clipboard.FailedClearLeavesTheSecret | sentinelpass-ui/src-tauri/src/clipboard_secret.rs:127-133 | A failed clear does leave any secret behind: a settled, unexcused run that ends with it on the clipboard |
| Clipboard.FailedReadLeavesTheSecret | sentinelpass-ui/src-tauri/src/clipboard_secret.rs:59-71 | So does a failed read, after which no clear is tried |
| Clipboard.RunInv | sentinelpass-ui/clipboard.ts:57-108 | While a secret is registered a timer, a copy continuation or an expire request is outstanding, or one of the two excuses holds |
| Clipboard.WipesAnotherIffOvertaken | sentinelpass-ui/src-tauri/src/clipboard_secret.rs:118-133 | In every run the clipboard is emptied only by the clear of an expiry that had read the registered text there; what it wipes is another text exactly when the last text copied between that read and the clear is another one |
| Clipboard.OvertakenTextIsWiped | sentinelpass-ui/src-tauri/src/clipboard_secret.rs:118-126 | That does happen: any other text copied between the read and the clear is wiped |
| Clipboard.Manager.CancelExpiry | sentinelpass-ui/clipboard.ts:59-64 | Afterwards the runtime holds no timer |
| Clipboard.Manager.ResumeCopy | sentinelpass-ui/clipboard.ts:81-95 | Afterwards the runtime holds exactly one timer, and it is none of those it held before |
| Clipboard.Manager.TimerTick | sentinelpass-ui/clipboard.ts:86-93 | The timer that fires was the only one, and none is left |
| Clipboard.Manager.HasPendingExpiry | sentinelpass-ui/clipboard.ts:105-107 | Reports exactly whether the runtime holds a timer |
| PasswordForms.SelectCaptureTarget | browser-extension/chrome/content.ts:481-506 | Nothing only for an empty form; a login form gives its first filled field, else the first; the others give the last filled eligible field, else the last eligible. A form of password inputs without a telling token gives its first filled field, else position 0 |
| PasswordForms.FormKindMeans | browser-extension/chrome/field-semantics.ts:116-128 | A form is a login form exactly when no field is a new password, and a change form exactly when one is and a current password is filled |
| PasswordForms.PlainPasswordsAreLogins | browser-extension/chrome/field-semantics.ts:69-128 | A form of password inputs without a telling token is a login form of current passwords |
| PasswordForms.LastFilled | browser-extension/chrome/content.ts:500-505 | The backward loop finds the last filled position of the pool |
| PasswordForms.CaptureIsUnique | browser-extension/chrome/content.ts:478-506 | That description picks out one field |
| PasswordForms.CapturedIsNeverTheOldPassword | browser-extension/chrome/content.ts:478-480 | On a change or new-account form a filled captured field is never the current password; on a change form it is a new-password field |
| PasswordForms.NewAccountTakesTheLastFilled | browser-extension/chrome/content.ts:496-498 | On a new-account form the captured field is the last filled one, whatever its role |
| PasswordForms.NewAccountCapturesNewPassword | browser-extension/chrome/content.ts:477-480 | A new-account form gives a filled new-password field exactly when one has no filled field of another role behind it |
| PasswordForms.LoginCapturesCurrentPassword | browser-extension/chrome/content.ts:477-480 | A login form gives a filled current-password field exactly when one has no filled field of another role before it |
| PasswordForms.NewAccountCanCaptureACode | browser-extension/chrome/content.ts:496-505 | A new-account form whose one-time code is captured instead of its new password |
| PasswordForms.LoginCanCaptureACode | browser-extension/chrome/content.ts:493-495 | A login form whose one-time code is captured instead of its current password |
| PasswordForms.PoolIsNotEmpty | browser-extension/chrome/content.ts:496-499 | The fallback pool of all fields is never needed |
| PasswordForms.ClassifyInputField | browser-extension/chrome/field-semantics.ts:51-80 | The role is that of the first telling token, by position, whatever type, hints and later tokens say; without one a password input is a current password, any other is a user name if it is of type email or hinted, and else nothing |
| PasswordForms.TokenRoleIsTold | browser-extension/chrome/field-semantics.ts:53-66 | Which token tells which role |
| LogRedaction.RedactionHidesSecrets | browser-extension/chrome/logger.ts:140-163 | Two values of any depth that differ only in what stands under sensitive keys have equal redactions |
| LogRedaction.RedactionKeepsTheRest | browser-extension/chrome/logger.ts:140-163 | Every node at the end of a path free of sensitive keys and `__proto__` keeps its kind, its length or key list and its leaf value, exactly when no visible record has a `__proto__` entry |
| LogRedaction.RedactionFollowsPaths | browser-extension/chrome/logger.ts:140-163 | Along such a path the redaction has exactly the nodes of the value, each redacted |
| LogRedaction.SensitiveEntryIsMasked | browser-extension/chrome/logger.ts:149-153 | At the end of such a path every entry with a sensitive key reads `[REDACTED]`, and stands exactly where it was |
| LogRedaction.SensitiveMeans | browser-extension/chrome/logger.ts:134-153 | The sensitive keys are five words in any mixture of cases, with the Kelvin sign for a k, and no others |
| LogRedaction.ProtoEntryIsLost | browser-extension/chrome/logger.ts:149-158 | Such an entry is lost |
| LogRedaction.RedactionIsIdempotent | browser-extension/chrome/logger.ts:140-163 | Redacting twice is redacting once |
| LogRedaction.RedactForLog | browser-extension/chrome/logger.ts:140-163 | The recursive code computes the redaction |
| LogRedaction.RedactRecord | browser-extension/chrome/logger.ts:149-162 | The loop over a record's entries computes its redaction |

## Left out

- Publication.Leaf: refuses every name with a slash in it, while `leaf` accepts a leaf followed by slashes or `/.` (`Names.TrailingSlashPasses`); what the kernel does with such a name is not modelled.
- PublicationTheorems.ResidueIsExplained: a temporary of unknown maker found at the start of a run is not traced further back.
- Publication.TakeTicketStep: the 64-bit counter does not wrap.
- Publication.OpenFailure: errors of `openat` other than those for links and sockets are faults and read `Io`.
- PublicationProgress.CallsAreWaitFree: the repeats of interrupted system calls are steps that move nothing and are not in the bound, since there is no bound on signals.
- PrivateDirCalls.Directory.Write: the directory is one value that each system call replaces by the transition system's next state; the kernel's own data structures are not modelled.
- Walk.CreateMissing: for a quiet tree; while others add entries, `Walk` says what the walk answers and `RefusalHasACause` which entry refuses it.
- Walk.FileTree.Walk: takes the components of an absolute path; joining a relative path to the current directory is left out. What a path leads to at one moment is promised only while others add entries; otherwise each handle is accounted for at its own time.
- SessionSecretLifecycle.BoundedResidency: failing storage calls and a stopped alarm are outside the bound; all keys of one sweep are judged at one clock reading.
- DomainChain.TagMatchIsDomainMatch: the error of HMAC set-up with an unusable key is left out, and the tags' byte values are not computed.
- PasswordForms.ClassifyInputField: takes lower-cased tokens, type and the result of the hint pattern as given; splitting at white space and reading the page are left out.
- LogRedaction.RedactionKeepsTheRest: for records whose keys are pairwise different, as those of an object are.
- LogRedaction.Redact: lower-cases A to Z and the Kelvin sign, the only characters that reach a sensitive key; inherited properties, getters and cyclic values are left out.
- SessionSecretPolicy.Written: the names and values of a payload's properties are kept, nested values are not looked into.
- Clipboard.TimersMove: a timer may fire at any time; that it takes 30 seconds is not modelled.
- Clipboard.WipesAnotherIffOvertaken: the backend's digest stands for the text itself, and the expiry at exit, after which nothing runs, is left out.
- Permission of the owner's own read and write bits: a file the owner may not open reads as a fault.
- `Zeroizing` buffers and other memory hygiene.
- `normalize_host` and the URL helpers of the extension: they rest on URL parsers.
- Biometric sealing and release: they rest on cryptographic primitives and platform calls.
- The inline save prompt, notifications, native messaging, popup, TOTP and the desktop screens: user interface and I/O.
- That a captured payload is saved at most once: the handlers remove it only after an awaited save, so it is not claimed.
- `validateSenderDomainContext`, `decideCredentialChoice`, the mobile bridge and its bindings: each is settled by reading one branch or one table.
- Platforms other than Linux, compiled scripts and the Firefox copies of the extension.
