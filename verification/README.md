# The forward_auth gateway, modelled and proved

A Dafny model of the gateway's state machines and of what its comments and
documentation promise of them. `dafny verify dfyconfig.toml` checks everything.

| file | what it models |
|---|---|
| `Feed.dfy`, `FeedRuns.dfy` | one group's synchronisation with its feed: apply, hold, keep, accept, apply after the wait; and what holds over every run of it |
| `FeedRetry.dfy` | the numbered retry sequences beside the scheduled syncs |
| `Codes.dfy`, `SignIn.dfy` | sign-in codes and their two counters; the request and guess handlers over six limiters; the two-run claim that the allow-list cannot be seen from outside |
| `Sessions.dfy`, `Recheck.dfy` | session cookies, the cutoffs that end them early, the refusal path's memory |
| `Verify.dfy`, `VerifyLaws.dfy` | the forward_auth decision, renewal, the admin tier and the guest filters; what they promise |
| `SessionRuns.dfy` | every session over every run of sign-ins, renewals, second steps, scans, cutoffs and restarts |
| `Membership.dfy`, `MembershipAlone.dfy` | requests racing membership changes, step by step; alone, they come to the decision |
| `BreakGlass.dfy` | scans and offers racing a revoke or a re-mint, step by step |
| `Challenges.dfy` | single-use passkey challenges across prunes and restarts |
| `PasskeyBytes.dfy` | authenticator data and the COSE key, printed and parsed (sections 6.1 and 6.5.1 of WebAuthn Level 2; section 7.1.1 of RFC 9053), and the signature counter |
| `GroupGraph.dfy`, `IncludeRaces.dfy` | the include graph, its two recursive queries, the cycle check and the checked include; include requests that overlap |
| `RateLimit.dfy` | the token bucket with sweeping, over reals |
| `Authz.dfy`, `Policy.dfy`, `Strings.dfy` | group names, the Remote-Groups string, the access rule, the X-Auth-Policy header |
| `QrRaster.dfy` | the QR rasteriser (quiet zone: section 6.3.8 of ISO/IEC 18004:2015) |

## How to read it

Code that changes things step by step is a class whose methods are proved equal
to a function of the old state; the laws are lemmas about that function. Code
that only computes is functions. Concurrent code is a state machine whose steps
are the source's own database statements, clock readings and locked sections.

Times are integers: Unix seconds, or nanoseconds where the source keeps them. A
request reads the clock once, except where a module says otherwise. A store call
is one atomic step over maps and sets and may be told to fail. Hashes, MACs,
signatures and random values are opaque and injective: a signed cookie is the
value it encodes, the n-th challenge or card code made is called n. Feed fetches,
mail, alerts and the outcomes of unseen checks are inputs of the call or entries
in a log.

## What the proofs found

Most promises hold as stated. Where the code does otherwise, the model follows
the code: a concrete input or run shows it, and unless the item says so the
exact condition is proved beside it.

- A change an administrator keeps can be applied all the same: once a smaller
  change has brought the members nearer, the kept list is no longer one to hold
  (`FeedRuns.KeptChangeRevived`, `FeedRuns.KeptAppliesExactly`).
- When a feed's change is applied and its record cannot be written, the drift
  bound can be lost and a held change's lists can be out of date
  (`FeedRuns.StandingNeedsTheWrite`, `FeedRuns.DriftLostExactly`,
  `FeedRuns.PendingLostExactly`).
- The wait for a held change is counted from the start of the second in which it
  was first held, so it ends up to a second early (`FeedRuns.WaitEndsEarly`,
  `FeedRuns.WaitCountsWholeSeconds`).
- A feed's membership change is marked with the time its sync began, before the
  write. A session minted in between keeps its old groups past the mark
  (`Membership.FeedMarkCanMiss`, `Membership.MarkProtectsExactly`).
  Administrators' changes are not affected.
- A refused include is not always a no-op: it loses an include that was already
  there when the second check fails, and keeps a new one when the undo fails
  (`GroupGraph.RepeatedIncludeIsLost`, `GroupGraph.RefusalIsNoOpExactly`).
- Overlapping include requests can keep an outsider in
  (`IncludeRaces.OverlapLetsOutsiderIn`): looking is harmless exactly when the
  open includes admit nobody new (`IncludeRaces.QuietRunsGainNobody`,
  `IncludeRaces.LookingIsHarmlessExactly`, `IncludeRaces.LoudLookLetsIn`).
- The undo of a refused include is not marked, so a session minted between insert
  and undo keeps its groups until it is renewed (`Membership.UndoneIncludeLingers`,
  `Membership.GrantsRestExactly`).
- A live code is replaced before its cooldown is over within one second of the
  store's clock (`SignIn.EarlyOverwrite`, `SignIn.OverwriteExactly`).
- The 12-hour clamp on emergency sessions does not see a lifetime of zero or
  less, which stands for the ordinary session lifetime, and the configuration
  accepts one (`SessionRuns.EmergencyIsShort`, `SessionRuns.EmergencyCanLastADay`).
- A challenge guard that reads the clock after its post's cookie has expired can
  accept the challenge a second time (`Challenges.StraddlingPostAcceptedTwice`,
  `Challenges.AcceptedExactly`); with one clock reading it cannot
  (`Challenges.AcceptedOnce`).
- Right after a restart the guard's counter is below its table until the first
  sweep (`Challenges.CounterStartsBehind`, `Challenges.CounterCoversExactly`);
  the bound of 50000 holds throughout.
- Dropping a full bucket is observable when the sweep runs during that key's own
  insertion (`RateLimit.OwnSweepIsObservable`); "never stricter" is true of
  counts and not of each answer (`RateLimit.StricterForOneAnswer`,
  `RateLimit.StricterExactly`, `RateLimit.NoOwnSweepSameAnswers`).

## Model

| member | source | states |
|---|---|---|
| `FeedRuns.WaitedChangeWasWatched` | internal/server/group_feeds.go:401-430 | Over any run from a fresh group: a big change is applied with nobody accepting it only if a recorded sync alerted on it, in a second that began at least the full wait earlier, and every recorded sync since held that same set; it is not the kept change, and unless the group rotates not one more than halving or doubling it |
| `FeedRuns.MovesExactly` | internal/server/group_feeds.go:387-466 | Exactly when a sync moves the members, in plain numbers, and to what: an administrator accepts the very change held, or nobody does and it is small or has waited within the size bounds |
| `FeedRuns.TooLargeNeverApplied` | internal/server/group_feeds.go:484-493 | However often and however late a feed offers a big change outside the size bounds, it never moves a group that does not rotate unless somebody accepts it |
| `FeedRuns.OutcomeExactly` | internal/server/group_feeds.go:292-480 | Every outcome of a sync, by its digest, fetch, store calls and the size and age of the change |
| `FeedRuns.RecordExactly` | internal/server/group_feeds.go:317-342 | What a sync leaves on record: its times, the change held with its wait, the accepted list and the Keep |
| `FeedRuns.AttentionExactly` | internal/server/group_feeds.go:334-340 | Exactly when a sync asks for attention: a new trouble, another change held, or a wait that starts or ends |
| `FeedRuns.WaitCountsWholeSeconds` | internal/store/sqlite.go:855-867 | Exactly when the next sync to see a held change applies it unasked: the wait is counted from the start of the second in which the change was first held |
| `FeedRuns.WaitEndsEarly` | internal/store/sqlite.go:911-916 | So it can end up to a second early: four addresses for one, first held part way through a second, are let in by that part early |
| `FeedRuns.MembersAreTheLedger` | internal/server/group_feeds.go:455-465 | Nobody comes or goes unseen: over every run, whatever fails, each address is a member as often as the announcements and the accepted changes together say |
| `FeedRuns.MoveIsAnnounced` | internal/server/group_feeds.go:455-465 | A sync announces a change exactly when it makes one that nobody accepted, naming exactly who came and went and whether it had waited, also when its record cannot be written |
| `FeedRuns.RunStands` | internal/server/group_feeds.go:369-471 | Over every run whose state writes succeed: the members differ from a non-empty accepted list by at most max(3, a quarter), and a held change's add and remove lists are exactly what applying it would do, whatever the feed returns |
| `Feed.FeedGroup.SyncFeedAttempt` | internal/server/group_feeds.go:292-480 | One sync attempt: every refusal, hold, auto-apply, accept and result, with the new members, record as stored, audit, alerts and announcement |
| `Feed.FeedGroup.Decide` | internal/server/group_feeds.go:369-454 | The hold, wait, accept and auto-apply decision over the differences |
| `Feed.FeedGroup.Apply` | internal/server/group_feeds.go:431-480 | Applying a list: the actor it is audited under, the announcement when nobody accepted it, the accepted list and the kept digest it leaves |
| `Feed.FeedGroup.Finish` | internal/server/group_feeds.go:324-342 | Recording a result, in whole seconds, and deciding whether to alert |
| `Feed.FeedGroup.KeepHeldChange` | internal/server/group_feeds.go:523-546 | Keep records the digest only of the change now held |
| `FeedRuns.KeepExactly` | internal/server/group_feeds.go:523-546 | Every outcome of a Keep, each an if-and-only-if, and the one field it writes |
| `Feed.DiffMembers` | internal/server/group_feeds.go:550-569 | The two set differences, in list order |
| `Feed.MissingIsDifference` | internal/server/group_feeds.go:550-569 | On lists without repeats the differences are the set differences, each address once |
| `FeedRuns.FilledMembers` | internal/store/sqlite.go:821-849 | Applying a list leaves exactly that list's addresses as members, each once |
| `FeedRuns.FilledAudit` | internal/store/sqlite.go:821-849 | Applying writes one audit event for each address that comes or goes |
| `FeedRuns.RunWaitIsReal` | internal/server/group_feeds.go:401-430 | A running wait always began at a recorded, alerted sync since which every recorded sync held the change |
| `FeedRuns.DriftLostExactly` | internal/server/group_feeds.go:387-480 | One sync loses the drift bound exactly when its state write fails, an accepted list is on record, and the change it applied was accepted or waited out and is further from that list than the bound |
| `FeedRuns.PendingLostExactly` | internal/server/group_feeds.go:387-480 | One sync leaves a held change's lists out of date exactly when its state write fails while a change is held and it moves the members: by a change accepted or waited out, or by one small enough to apply directly |
| `FeedRuns.StandingNeedsTheWrite` | internal/server/group_feeds.go:324-342 | Such a sync exists for both: from a fresh group, three syncs, the last with its state write failing, leave the members five addresses from a list three are allowed from, and the lists of the held change as they were |
| `FeedRuns.AcceptIsExact` | internal/server/group_feeds.go:315-454 | Accepting the change shown leaves exactly the hashed set as members with one audit event for each address that comes or goes, those the page listed if its lists are up to date; or it changes no member and audits nothing. Which of the two is an if-and-only-if on the fetch and the store |
| `FeedRuns.KeepHolds` | internal/server/group_feeds.go:523-546 | A Keep stays in force, however the feed comes and goes, until another Keep, an accepted change or a waited one supersedes it; meanwhile the kept list moves the members exactly when it has become too small a change to hold |
| `FeedRuns.KeptAppliesExactly` | internal/server/group_feeds.go:387-454 | Exactly when a kept list is applied with nobody accepting it: it differs from the members, no threshold holds it now, and no store call it needs fails. The wait never applies it |
| `FeedRuns.KeptChangeRevived` | internal/server/group_feeds.go:317-319 | And it is, from any ten addresses: three are dropped and the change is kept, one is dropped and that is applied, the kept list comes back and is applied with the Keep in force |
| `FeedRuns.RetriesLeaveNoTrace` | internal/server/group_feeds.go:344-350 | Syncs left to a retry leave no trace: the run without them, however many there are, ends with the same members, record, waits, audit, alerts and history |
| `Feed.FeedGroup.ApplyGroupSync` | internal/store/sqlite.go:821-849 | Members and audit move together: each addition that is not there yet, then the removals, then the events |
| `FeedRetry.RunSound` | internal/server/group_feeds.go:187-237 | Over every interleaving of rounds, sequences and manual syncs: starting a sequence never overwrites a waiting one, a waiting entry always has a live sequence, and no sequence makes more than four attempts |
| `FeedRetry.RoundAlone` | internal/server/group_feeds.go:154-208 | A round passes over a waiting group, starts a sequence on a transient failure, and clears what waits on a recorded result |
| `FeedRetry.SequenceAlone` | internal/server/group_feeds.go:209-237 | A sequence that owns its entry makes one more attempt when it wakes; then it moves its entry on and sleeps, or ends and drops it |
| `FeedRetry.LastAttemptIsFinal` | internal/server/group_feeds.go:209-237 | The fourth attempt cannot be retried; a cancelled sleep drops the entry; another sync drops it exactly when it records a result |
| `FeedRetry.LostForGood` | internal/server/group_feeds.go:209-237 | Once lost, an entry is never regained, the sequence starts no further attempt, and at its next check it is done for good |
| `FeedRetry.LostSequenceTouchesNothing` | internal/server/group_feeds.go:97-115 | A sequence that has lost its entry changes no entry, except that a result it records ends whatever is waiting, and at its next check it stops |
| `FeedRetry.RecordedResultEndsTheWait` | internal/server/group_feeds.go:344-350 | A result recorded by anyone ends the sequence then waiting: whatever follows, it makes no further attempt, and it is done when it next wakes |
| `FeedRetry.FeedSyncer.StartRetry` | internal/server/group_feeds.go:77-84 | A new number for each sequence |
| `FeedRetry.FeedSyncer.AdvanceRetry` | internal/server/group_feeds.go:97-106 | Only an owner moves its entry |
| `FeedRetry.FeedSyncer.EndRetry` | internal/server/group_feeds.go:109-115 | Only an owner drops its entry |
| `FeedRetry.FeedSyncer.ClearRetry` | internal/server/group_feeds.go:126-130 | Any waiting entry of the group is dropped |
| `SignIn.TwinsGuess` | internal/server/handlers.go:872-964 | One wrong guess answers and counts alike for a real code and a decoy |
| `SignIn.RunSound` | internal/server/handlers.go:560-964 | Every run of requests and guesses keeps the store's counters in agreement |
| `SignIn.Server.HandleRequest` | internal/server/handlers.go:560-690 | The whole request: limits, pruning, the recent-code check, the decoy and the mail |
| `SignIn.Server.AllowSend` | internal/server/handlers.go:705-729 | Which of the four send limits are charged, in order, and for whom |
| `SignIn.RefusedSpendsNothing` | internal/server/handlers.go:696-729 | A request that the per-client cap, the ceiling or the daily cap refuses leaves what every key can spend in all three as it was; exactly when all three are charged, and exactly when a code is sent |
| `SignIn.Server.HandleVerifyCode` | internal/server/handlers.go:872-964 | The guess: the wrong-code limiter charged first and refunded on success |
| `SignIn.GuessExactly` | internal/server/handlers.go:909-964 | Every answer to a guess as an if-and-only-if: it signs in exactly when permitted, with a token, with the stored code in date and both counts below their caps; the token comes back exactly on a right code |
| `SignIn.GuessUses` | internal/server/handlers.go:909-964 | What a guess leaves of the codes: used up, burned, out of date, counted against, or untouched, each with its condition |
| `SignIn.SignInNeedsItsCode` | internal/server/handlers.go:909-964 | After any run, a guess signs in only with the hash of the code last minted for the address, and within that code's lifetime |
| `SignIn.RequestAnswered` | internal/server/handlers.go:560-690 | Every answer to a request for a code, and exactly when mail goes out |
| `SignIn.RequestLeaves` | internal/server/handlers.go:603-683 | What a request does to every address's code: replaced, filled in, kept or pruned, each with its condition; whether it is permitted does not show |
| `SignIn.UnsentSpendsNothing` | internal/server/handlers.go:642-683 | A request turned away, too soon, or finding the mail full spends no send token |
| `Codes.CodeStore.ConsumeCode` | internal/store/sqlite.go:380-470 | Every outcome of a guess and both counters, in one transaction |
| `Codes.AnswerExactly` | internal/store/sqlite.go:380-470 | Each answer to a guess as an if-and-only-if on the row, the two counts, the caps, the hash and the clock |
| `Codes.GuessLeaves` | internal/store/sqlite.go:380-470 | What a guess changes: the code and its counts go when it was right, expired or burned; a compared wrong guess adds one to two counts; nothing else moves |
| `Codes.SuccessNeedsItsCode` | internal/store/sqlite.go:313-470 | Over every run a guess succeeds only with the hash the address's code was minted with, no later than the expiry given then |
| `Codes.CodeStore.SaveCode` | internal/store/sqlite.go:313-333 | A new code starts with no wrong guesses from anyone |
| `Codes.CodeStore.EnsureCode` | internal/store/sqlite.go:337-344 | A code is inserted only where there is none |
| `Codes.StoredLeaves` | internal/store/sqlite.go:313-344 | Storing a code touches no other address, starts its counts at zero, and an insert leaves a code that is there |
| `Codes.CodeStore.DeleteExpiredCodes` | internal/store/sqlite.go:365-372 | Expired codes go with their attempts |
| `Codes.PruneExactly` | internal/store/sqlite.go:365-372 | Exactly the codes out of date go, counts and all |
| `Codes.RunSound` | internal/store/sqlite.go:313-470 | In every reachable state a code's total equals the sum of its per-source attempts and is below the total cap; no source is over its cap or counted without a code |
| `Codes.GuessBudget` | internal/store/sqlite.go:380-470 | Over any run, wrong guesses compared with an address's codes number at most the cap for each code minted: the total cap over all sources, the per-source cap from one |
| `Codes.OneSuccessPerCode` | internal/store/sqlite.go:380-470 | Successes never outnumber codes minted |
| `Codes.BurnNeedsManySources` | internal/store/sqlite.go:380-470 | Burning a code takes enough sources that their caps add up to the total cap |
| `Codes.CountedSum` | internal/store/sqlite.go:430-470 | Counting one wrong guess adds one to the sum over sources |
| `SignIn.PolicyIsInvisible` | internal/server/handlers.go:560-690 | Two runs of the same calls, each call permitted or not in either run as its policy says of the address and the destination, no guess matching a code: the same responses, code expiries, attempt counters and limiter states |
| `SignIn.RoutinesStoreAlike` | internal/server/handlers.go:737-834 | The routine that mints for a permitted address and the one that mints a decoy, failing alike, leave tables that differ in code hashes alone |
| `SignIn.TwinsRequest` | internal/server/handlers.go:642-690 | One request answers and moves every counter alike in both runs |
| `SignIn.Server.IssueCode` | internal/server/handlers.go:631-683 | Sending a code, saving a decoy over one, keeping one back-dated, or nothing: the switch, with every failure |
| `SignIn.Server.SendCode` | internal/server/handlers.go:737-754 | Stored over any other code, and mailed, unless generating or saving fails |
| `SignIn.Server.SaveDecoyCode` | internal/server/handlers.go:828-834 | Stored over any other code and never mailed, unless generating or saving fails |
| `SignIn.Server.StoreDecoyCode` | internal/server/handlers.go:812-822 | Stored only where there is no code, dated a cooldown back |
| `SignIn.OverwriteExactly` | internal/server/handlers.go:631-683 | After any run, exactly when a request replaces a code that is still there; a real one before its cooldown is over exactly when its expiry and that of a code a cooldown old fall within one second of the store, and a decoy never holds a request up |
| `SignIn.EarlyOverwrite` | internal/store/sqlite.go:350-362 | Such a replacement: a code minted at 0.5 s with a cooldown of 60 s is replaced at 60.25 s |
| `SignIn.OverwriteWaitsForCooldown` | internal/server/handlers.go:631-683 | To within the store's second, a real code waits out its cooldown |
| `RateLimit.Limiter.Allow` | internal/ratelimit/ratelimit.go:41-50 | One Allow, with the write landing nowhere when the sweep has just dropped the bucket |
| `RateLimit.Limiter.Refund` | internal/ratelimit/ratelimit.go:56-63 | One Refund, up to a full bucket |
| `RateLimit.Limiter.Refill` | internal/ratelimit/ratelimit.go:67-82 | Insertion of a full bucket, then the sweep, then the top-up |
| `RateLimit.Limiter.Gc` | internal/ratelimit/ratelimit.go:90-100 | The sweep drops exactly the buckets full by now |
| `RateLimit.Conservation` | internal/ratelimit/ratelimit.go:41-100 | Tokens spent plus tokens left never exceed those held, accrued, refunded, or forgotten by sweeps of the key's own insertion |
| `RateLimit.AllowBound` | internal/ratelimit/ratelimit.go:41-100 | Successful Allows over any interval are at most count + rate x length + refunds + own-insertion sweeps |
| `RateLimit.AllowBoundInWindows` | internal/ratelimit/ratelimit.go:41-100 | In plain numbers: over n windows at most n + 1 times the count, and the same refunds and sweeps |
| `RateLimit.AccruedExactly` | internal/ratelimit/ratelimit.go:67-82 | Tokens come at the count a window |
| `RateLimit.SweepExactly` | internal/ratelimit/ratelimit.go:90-100 | A sweep runs from a thousand buckets on, at most once a second, and drops exactly the full ones |
| `RateLimit.OwnSweepExactly` | internal/ratelimit/ratelimit.go:67-100 | A key's own call sweeps exactly when it inserts the thousandth bucket or a later one, a second past the last sweep |
| `RateLimit.SweepingNeverStricter` | internal/ratelimit/ratelimit.go:84-100 | Counted over any run, the sweeping limiter allows each key at least as often as one that never forgets |
| `RateLimit.StricterForOneAnswer` | internal/ratelimit/ratelimit.go:71-98 | Counted, not call by call: a concrete run where it refuses a request the other allows |
| `RateLimit.StricterExactly` | internal/ratelimit/ratelimit.go:71-98 | For a key not held and calls on it alone, some answer can be stricter exactly when its insertion reaches the sweep threshold and tokens do not come in whole numbers a nanosecond |
| `RateLimit.NoOwnSweepSameAnswers` | internal/ratelimit/ratelimit.go:71-98 | With no sweep in the key's own insertion the two answer it identically, call by call |
| `RateLimit.OwnSweepIsObservable` | internal/ratelimit/ratelimit.go:71-98 | Dropping a full bucket shows exactly when it is the key's own insertion that sweeps: one more of a burst is allowed |
| `RateLimit.AllowThenRefund` | internal/ratelimit/ratelimit.go:41-63 | Allow then Refund leaves every level as a plain refill does, and the same state exactly when the insertion did not sweep |
| `RateLimit.ToppedKeepsLevels` | internal/ratelimit/ratelimit.go:67-100 | Topping up, with or without a sweep, changes no key's level |
| `RateLimit.LevelLater` | internal/ratelimit/ratelimit.go:67-82 | Waiting adds the rate times the wait, up to full |
| `GroupGraph.Walk` | internal/store/sqlite.go:960-984 | The recursive query ends on any include graph, cyclic or not, with exactly the reachable groups |
| `GroupGraph.WalksAreDual` | internal/store/sqlite.go:1454-1482 | An address is among a group's resolved members exactly when the group is among the address's groups, even in a cyclic graph; the group then exists |
| `GroupGraph.CycleCheckIsExact` | internal/store/sqlite.go:733-765 | An include is refused as a cycle exactly when adding it would make the graph cyclic |
| `GroupGraph.RunsStayAcyclic` | internal/store/sqlite.go:733-771 | Every run of store operations keeps the include graph acyclic and its foreign keys whole |
| `GroupGraph.GroupStore.AddGroupInclude` | internal/store/sqlite.go:733-765 | The row is added, or nothing changes, with the error the cycle check or the foreign keys give |
| `GroupGraph.GroupStore.RemoveGroupInclude` | internal/store/sqlite.go:768-771 | Only that row goes |
| `GroupGraph.GroupStore.DeleteGroup` | internal/store/sqlite.go:919-922 | The group goes with its memberships and includes |
| `GroupGraph.ChangesExactly` | internal/store/sqlite.go:719-942 | What each change of the store does to every group, membership and include |
| `GroupGraph.GroupStore.GroupsForEmail` | internal/store/sqlite.go:960-984 | Exactly the groups the address belongs to, directly or by includes |
| `GroupGraph.GroupStore.GroupMembersResolved` | internal/store/sqlite.go:1454-1482 | Exactly the addresses the group admits |
| `GroupGraph.GroupStore.AppRoleOutsiders` | internal/server/admin_group_lists.go:221-244 | For each hand-managed application role, the outside addresses it admits |
| `GroupGraph.GainedOutsider` | internal/server/admin_group_lists.go:248-257 | True exactly when some group admits an address it did not before |
| `GroupGraph.GroupStore.CheckInclude` | internal/server/admin_group_lists.go:189-216 | The check after the insert, and its undo |
| `GroupGraph.GainedMeansNew` | internal/server/admin_group_lists.go:248-257 | The map comparison means some role admits a new outside address |
| `GroupGraph.FewerIncludesGainNobody` | internal/server/admin_group_lists.go:167-217 | Removing includes admits nobody new |
| `GroupGraph.GroupStore.HandleAddInclude` | internal/server/admin_group_lists.go:167-217 | Stored exactly when nobody outside gains an application role through any path. A refusal leaves the relation as it was, with two exceptions, each an if-and-only-if: the second check cannot be made and the include was there already, or the undo itself fails |
| `GroupGraph.RefusalIsNoOpExactly` | internal/server/admin_group_lists.go:167-217 | Exactly when a request that is not stored changes the tables, for every combination of failing store calls |
| `GroupGraph.OutcomeExactly` | internal/server/admin_group_lists.go:167-217 | Every outcome of an include request, in terms of names, paths, failing calls and who is gained |
| `GroupGraph.RepeatedIncludeIsLost` | internal/server/admin_group_lists.go:196-216 | Asking again for a stored include, with the second check failing, removes it |
| `GroupGraph.GroupStore.RemoveGroupMember` | internal/store/sqlite.go:934-938 | Only that membership goes |
| `IncludeRaces.QuietRunsGainNobody` | internal/server/admin_group_lists.go:167-217 | Over every interleaving of overlapping requests in which each first looks while the open includes admit nobody whom the settled ones do not, the settled includes admit no outsider to an application role who was not admitted at the start |
| `IncludeRaces.LookingIsHarmlessExactly` | internal/server/admin_group_lists.go:167-217 | From then on, and whatever follows without another first look, looking lets no outsider in exactly when the database, open includes and all, admits none who was not admitted at the start |
| `IncludeRaces.LoudLookLetsIn` | internal/server/admin_group_lists.go:167-217 | In any state, what the open includes admit beyond the settled ones can be made to stay by requests that look now |
| `IncludeRaces.EverythingOpenCanStay` | internal/server/admin_group_lists.go:167-217 | Asking again for every open include, and looking, can leave exactly the present database stored with nothing undecided |
| `IncludeRaces.RunOrderly` | internal/server/admin_group_lists.go:167-195 | Over every interleaving the includes stay acyclic and every request one the page allows |
| `IncludeRaces.OverlapLetsOutsiderIn` | internal/server/admin_group_lists.go:167-217 | One such run: a request that looks while a doomed include is open takes its outsider for an old one, and stores an include that keeps them in |
| `IncludeRaces.AloneIsHandled` | internal/server/admin_group_lists.go:167-217 | One request's steps with no other at work come to the whole request of GroupGraph: same tables, same word on whether it was stored |
| `Sessions.ReadSession` | internal/session/session.go:337-356 | The one session cookie, in date; none, or two by the name, are no session |
| `Sessions.SessionCutoffs.EndSessions` | internal/server/session_cutoffs.go:58-69 | Store first, then memory; a failing store changes nothing |
| `Sessions.SessionCutoffs.EndSessionsBefore` | internal/store/sqlite.go:1423-1428 | A later time replaces an earlier one, never the reverse |
| `Sessions.SessionCutoffs.MarkGroupsChanged` | internal/server/session_cutoffs.go:73-86 | The mark moves forward in memory even if the store fails |
| `Sessions.SessionCutoffs.IsEnded` | internal/server/session_cutoffs.go:93-124 | Every way a validly signed session has ended |
| `Sessions.SessionCutoffs.constructor` | internal/server/session_cutoffs.go:35-43 | A restart reads both the cutoffs and the last membership change back |
| `SessionRuns.HonouredIsCurrent` | internal/server/session_cutoffs.go:93-124 | Over all runs of sign-ins, renewals, second steps, scans, cutoffs and restarts: no session is honoured past the maximum age from the real sign-in, nor after any cutoff at or past it for its person, passkey or card; an emergency session ends within 12 hours |
| `SessionRuns.HonouredExactly` | internal/server/session_cutoffs.go:93-124 | And nothing else ends one: honoured exactly when in date, within the maximum age and not cut off |
| `SessionRuns.AdminNeedsRealStep` | internal/server/handlers.go:1247-1283 | Over all runs, and for every kind of session, an application sees admin only in a normal session of a current administrator and, with TOTP on, within 12 hours of a second step really passed |
| `SessionRuns.RunSound` | internal/session/session.go:308-323 | Every cookie ever minted carries the real sign-in time or none, and each table of cutoffs holds the latest recorded |
| `SessionRuns.EmergencyIsShort` | internal/server/admin.go:289-314 | The clamp keeps an emergency session to 12 hours exactly when the lifetime it clamps is positive, or the ordinary lifetime standing in for it is that short |
| `SessionRuns.ScanExactly` | internal/server/handlers.go:1691-1737 | An emergency session's every field, and its lifetime: the saved one, else the configured one, twelve hours at most |
| `SessionRuns.SignInExactly` | internal/server/handlers.go:1194-1235 | A sign-in mints a session exactly when the configured lists admit the address, or it could be a guest at an open host without a passkey: which kind, and its every time |
| `SessionRuns.SignInHolds` | internal/server/handlers.go:1194-1235 | With the groups the database holds under the tier earned, and the lifetime asked for |
| `SessionRuns.AdminDoorExactly` | internal/server/handlers.go:970-985 | Exactly which sessions the admin door takes, and the session it adds |
| `SessionRuns.RequestExactly` | internal/server/handlers.go:97-200 | A request adds a session exactly when its answer carries a cookie, under the sign-in time its session had |
| `SessionRuns.OtherEventsExactly` | internal/server/session_cutoffs.go:58-86 | What scans, cutoffs, marks and restarts leave in memory, in the store and among the sessions |
| `SessionRuns.RunEntitled` | internal/authz/authz.go:45-145 | Over every run, a normal session is only ever of an address the configured lists admit, and a guest's of another that could receive mail |
| `Verify.Gateway.HandleVerify` | internal/server/handlers.go:97-233 | The whole forward_auth decision, its cookie, and what the memory of refusals gains |
| `Verify.Gateway.Decide` | internal/server/handlers.go:126-205 | The policy, the guest filter, the admin door and the refusal path |
| `Verify.Gateway.RenewSession` | internal/server/handlers.go:37-74 | Renewal: refused for a withdrawn person or removed passkey, else freshly computed groups |
| `Verify.Gateway.ComputeGroups` | internal/server/handlers.go:1392-1398 | The groups header from the stored groups, filtered twice |
| `Verify.Gateway.GuestNow` | internal/server/breakglass_targets.go:151-158 | A guest's groups filtered again |
| `Verify.Withhold` | internal/server/breakglass_targets.go:167-194 | The groups kept, in order |
| `VerifyLaws.AdminHeaderExactly` | internal/server/handlers.go:97-210 | On every normal session granted, Remote-Groups names admin exactly when the policy names the person an administrator and, with TOTP on, a second step lies within 12 hours; a guest's never does |
| `VerifyLaws.VerifyOnlyReissues` | internal/server/handlers.go:37-74 | Every cookie /verify writes is the same person's session re-issued: kind, passkey, sign-in time and second step unchanged, and never for a break-glass session |
| `VerifyLaws.GrantIsEarned` | internal/server/handlers.go:97-210 | A grant needs a live session, a person the policy still admits, a well-formed policy and a rule that admits the groups handed on |
| `VerifyLaws.NoSessionNoAnswer` | internal/server/handlers.go:97-110 | Exactly when a request carries a session that is not over, and what it is answered without one |
| `VerifyLaws.OutOfDateIsRenewed` | internal/server/handlers.go:111-200 | A session whose interval has passed, whose groups are no later than the membership mark, whose tier is wrong or whose person is no longer admitted is never decided on its own groups: refused, or everything rests on the groups worked out now |
| `VerifyLaws.UpToDateIsDecided` | internal/server/handlers.go:121-205 | Any other is decided on its own groups without a cookie, and read again exactly when a rule on groups refused them and the refusal is not remembered |
| `VerifyLaws.AddedMemberAdmitted` | internal/server/handlers.go:156-205 | Someone the stored groups now admit is let in at their next request, whatever their cookie said, unless that refusal was confirmed within half a minute or their second step is wanted |
| `VerifyLaws.GuestHoldsNoAppRole` | internal/server/breakglass_targets.go:151-194 | An outsider's guest session hands on no application role, even one that became a role after sign-in |
| `VerifyLaws.GuestGroupsExactly` | internal/server/breakglass_targets.go:151-194 | A guest's groups after filtering: exactly those there were, less the application roles while an outsider |
| `VerifyLaws.HeaderNames` | internal/server/breakglass_targets.go:113-194 | Exactly which stored groups reach the header |
| `VerifyLaws.SignInTier` | internal/server/handlers.go:1194-1235 | A sign-in carries admin exactly for an administrator whose second step was passed, or any with TOTP off |
| `Recheck.GroupRecheck.ForgetAll` | internal/server/group_recheck.go:43-48 | Everything forgotten, under a new generation |
| `Recheck.GroupRecheck.Confirm` | internal/server/group_recheck.go:60-74 | A result from an earlier generation is not recorded |
| `Recheck.RememberedExactly` | internal/server/group_recheck.go:28-74 | A confirmed refusal is remembered for half a minute and no longer; no other is remembered or forgotten by it |
| `Recheck.GroupRecheck.Sweep` | internal/server/group_recheck.go:66-72 | Only expired entries go |
| `Membership.MarkedChangeReachesEveryRequest` | internal/server/session_cutoffs.go:73-86 | However sign-ins, renewals and changes interleave, every request starting after an administrator's change is marked is granted or refused on groups read after the change, also from memory, and across restarts if the mark was stored |
| `Membership.MarkProtectsExactly` | internal/server/group_feeds.go:455 | A mark protects every later request exactly when no session dated after it was minted, or is about to be, from older groups: the condition a feed's early clock reading can break |
| `Membership.FeedMarkCanMiss` | internal/server/group_feeds.go:306 | A concrete interleaving in which a feed's sync leaves such a session |
| `Membership.LateSignInKeepsOldGroups` | internal/server/session_cutoffs.go:129-140 | The next request with such a session is granted on the old groups |
| `Membership.AdminMarkKept` | internal/server/admin.go:1108-1125 | An administrator's mark is protective and kept whenever the store's write works |
| `Membership.RunSound` | internal/server/handlers.go:97-200 | Every reachable interleaving: no decision rests on groups older than its request is owed |
| `Membership.GrantIsAdmitted` | internal/server/handlers.go:97-200 | However steps interleave, a request is granted only on groups that its route admits |
| `Membership.OtherStepsExactly` | internal/server/session_cutoffs.go:35-43 | A request whose groups cannot be read ends undecided; a restart keeps what is stored and the sessions people hold |
| `MembershipAlone.AloneAnswersAsVerify` | internal/server/handlers.go:97-200 | One request's steps with nobody else at work come to the forward_auth decision: the same answer, the same renewed session, the same refusal remembered |
| `MembershipAlone.AloneSignsIn` | internal/server/handlers.go:1194-1235 | A sign-in's steps mint the session the gateway issues |
| `MembershipAlone.AloneMarks` | internal/server/session_cutoffs.go:73-86 | A change's steps, an administrator's or a feed's, leave the cutoffs and the memory as marking a change does |
| `Membership.UndoneIncludeLingers` | internal/server/admin_group_lists.go:196-216 | The undo of a refused include marks nothing: a person who signs in between insert and undo is granted on the groups it gave, afterwards, as the condition says |
| `Membership.GrantsRestExactly` | internal/server/session_cutoffs.go:129-140 | In any reachable state, exactly when no later request, however steps interleave, can be granted on groups older than a given version: every session not stale saw it, and so did every request still to mint one |
| `BreakGlass.NoOldCardSession` | internal/server/handlers.go:1691-1800 | Once a revoke or re-mint has recorded its cutoff, no session from the card's earlier codes is usable, minted before or after, by a scan or an offer already under way, in any later state |
| `BreakGlass.ChangeCoversEarlierTokens` | internal/server/admin.go:1371-1418 | A revoke or re-mint closes every code the card has had, and none of them finds the card again |
| `BreakGlass.RemintedCardWorks` | internal/store/sqlite.go:1074-1079 | The re-minted code finds its card and is not among those closed |
| `BreakGlass.ScanAlone` | internal/server/handlers.go:1691-1800 | A scan is granted or offered a session exactly when its code is the card's present one and the card is active |
| `BreakGlass.OfferAlone` | internal/server/handlers.go:1739-1800 | And so when an offer is taken up |
| `BreakGlass.ChangeAlone` | internal/server/admin.go:1371-1418 | A revoke or re-mint withdraws or replaces the code, and its cutoff is in force and stored exactly when the store works |
| `BreakGlass.RunSound` | internal/store/sqlite.go:1066-1079 | Every reachable interleaving keeps what the cutoffs rely on |
| `Challenges.ChallengeGuard.Use` | internal/server/passkeys.go:157-184 | The sweep, the bound, the insert and the counter, with the store failing at any call |
| `Challenges.UseExactly` | internal/server/passkeys.go:157-184 | Exactly when a challenge is accepted, which entries go, and what the counter and the next sweep become |
| `Challenges.ChallengeStore.UseChallenge` | internal/store/sqlite.go:1396-1406 | Fresh exactly when unknown or expired, and recorded then |
| `Challenges.ChallengeStore.PruneChallenges` | internal/store/sqlite.go:1410-1417 | Expired entries go; how many remain |
| `Challenges.AcceptedOnce` | internal/server/passkeys.go:135-184 | A minted challenge is accepted at most once over any run, with prunes and restarts, when the guard reads the clock within the cookie's time |
| `Challenges.AcceptedExactly` | internal/server/passkeys.go:157-184 | Exactly when a post is accepted |
| `Challenges.SecondAcceptanceStraddlesExpiry` | internal/server/passkeys.go:157-184 | The only way to a second acceptance: a cookie checked in time whose guard reads the clock after it expired |
| `Challenges.StraddlingPostAcceptedTwice` | internal/server/passkeys.go:610-615 | A concrete such run |
| `Challenges.RunSound` | internal/server/passkeys.go:144-184 | The table and the counter never pass 50000, and the table never passes the counter once the guard has swept |
| `Challenges.CounterCoversExactly` | internal/server/passkeys.go:135-184 | Over every run the table is within the counter exactly when the guard has swept since it started or the table is empty |
| `Challenges.CounterStartsBehind` | internal/server/passkeys.go:150-152 | A concrete restart leaves the counter below the table |
| `PasskeyBytes.RegisterRoundTrip` | internal/passkey/passkeytest/authenticator.go:81-97 | What Register prints parses back to its own values exactly for an ID of 1 to 1023 bytes with presence and verification reported |
| `PasskeyBytes.CanonicalIsAccepted` | internal/passkey/passkey.go:111-160 | Every canonical encoding is accepted and gives back what was written |
| `PasskeyBytes.AcceptedIsCanonical` | internal/passkey/passkey.go:111-160 | Every accepted registration is the canonical encoding of what is returned, with nothing more unless the extensions flag is set |
| `PasskeyBytes.Authenticator.Register` | internal/passkey/passkeytest/authenticator.go:81-97 | The bytes an authenticator writes |
| `PasskeyBytes.Authenticator.SignIn` | internal/passkey/passkeytest/authenticator.go:101-106 | The counter advances before it is written, a zero one never |
| `PasskeyBytes.CounterClimbs` | internal/server/passkeys.go:641-656 | Over any sequential sign-ins the stored counter stays zero or strictly increases |
| `PasskeyBytes.GenuineSignInAccepted` | internal/passkey/passkey.go:167-191 | A genuine authenticator passes the counter check exactly until its 32 bits wrap |
| `PasskeyBytes.AssertionExactly` | internal/passkey/passkey.go:167-191 | Every answer to a sign-in by the bytes of its data, in the order of the checks |
| `PasskeyBytes.RegistrationRefused` | internal/passkey/passkey.go:111-160 | Why a registration is refused: client data, party and length, presence and verification, the credential ID, or else the key |
| `PasskeyBytes.CoseKeyIsCbor` | internal/passkey/passkeytest/authenticator.go:62-71 | The key's bytes are the CBOR map of an ES256 key on P-256 |
| `PasskeyBytes.Get32Put32` | internal/passkey/passkey.go:228-241 | Big-endian reading and writing undo each other |
| `Authz.BuildGroups` | internal/authz/authz.go:167-191 | The header of the role and the stored groups |
| `Authz.GroupNamesAre` | internal/authz/authz.go:167-191 | The role first, then each stored group that is not a reserved role, once each |
| `Authz.HeaderNamesExactly` | internal/authz/authz.go:167-254 | Splitting the header gives those names back, and a reserved role is named only as the role itself |
| `Authz.AccessIsTheSetRule` | internal/authz/authz.go:303-342 | On the strings the gateway writes, CanAccessApp is the rule over sets |
| `Authz.PrintedListIsRead` | internal/authz/authz.go:271-279 | A list printed into a guard is read back |
| `Authz.NewPolicy` | internal/authz/authz.go:45-62 | The normalised domains and administrators, with "*" kept out of the domains |
| `Authz.RoleExactly` | internal/authz/authz.go:71-127 | From the configured lists, for an address local@domain: administrator exactly when listed, user exactly when the domain is admitted, nobody otherwise; guest exactly when nobody, at an open host, with a local part and a domain that could receive mail |
| `Authz.RoleWithoutDomain` | internal/authz/authz.go:71-83 | Without an "@", administrator exactly when listed and otherwise nobody |
| `Authz.AdmittedExactly` | internal/authz/authz.go:71-165 | Who may sign in at all, as a user, a guest or an administrator, for every string |
| `Authz.DeliverableExactly` | internal/authz/authz.go:132-160 | The domains open registration admits: two labels or more joined by dots, none empty, the last a word of two letters, 253 characters |
| `Policy.ParsePolicy` | internal/server/handlers.go:1917-1958 | The header read field by field |
| `Policy.AcceptedExactly` | internal/server/handlers.go:1917-1958 | Accepted exactly when every field is in the grammar and it says any or a list, not both; lists are empty only for an explicit any |
| `Policy.ParsingUndoesPrinting` | internal/server/handlers.go:1917-1958 | A policy printed into a header parses back to its lists and its guests flag |
| `QrRaster.Raster` | internal/breakglass/qr.go:25-60 | Every pixel of the finished image has the colour of the module it falls in; every write is in bounds |
| `QrRaster.DrawModule` | internal/breakglass/qr.go:44-58 | One module's block and nothing else |
| `QrRaster.FillBlock` | internal/breakglass/qr.go:52-57 | A scale by scale block, row by row |
| `QrRaster.SampleRecoversGrid` | internal/breakglass/qr.go:25-60 | Any one pixel per module recovers the grid |
| `QrRaster.QuietZoneIsWhite` | internal/breakglass/qr.go:25-60 | Every pixel within four modules of an edge is white |
| `QrRaster.ImageFitsRequest` | internal/breakglass/qr.go:30-36 | The image is the largest whole multiple that fits the requested size |
| `QrRaster.SmallestImage` | internal/breakglass/qr.go:30-36 | Asked for less than one pixel a module, the image has exactly one |

## Left out

- SignIn.PolicyIsInvisible: takes as equal inputs to both runs whether the mail queue is saturated, which store calls fail, and whether the address signed in from that network before; timing, mail delivery and audit rows are not modelled.
- SignIn.Server.HandleVerifyCode: a guess without its state cookie is turned away before anything is charged, and is not modelled.
- SignIn.RunSound: a prune that fails does nothing; one that deletes the codes and then fails on their attempts is not modelled.
- RateLimit.SweepingNeverStricter: stated of counts over a run, because call by call it is false (see `RateLimit.StricterForOneAnswer`).
- RateLimit.Limiter.Allow: tokens are reals, so floating-point rounding is not captured; a bucket the source reaches through a pointer is a map value, written back only while the map still holds it.
- FeedRuns.RunStands: needs every state write to succeed (see `FeedRuns.DriftLostExactly` and `FeedRuns.PendingLostExactly`).
- Feed.FeedGroup.SyncFeedAttempt: an alert is an entry in a log, whether or not an alert address is configured and its post arrives; creating the group's row, the texts of details and alerts, and skipped feed entries are not modelled; member lists keep the feed's order where the store would sort.
- FeedRetry.RunSound: sequence numbers are unbounded where the source's are 64 bits wide; a sync attempt appears only by its result, and the timers' lengths are not modelled.
- GroupGraph.GroupStore.HandleAddInclude: one request at a time (`IncludeRaces.dfy` is about more); which groups are application roles is an input, not read from the route files.
- IncludeRaces.QuietRunsGainNobody: reading the outsiders of every role is one step, no store call fails, and no other change to the groups comes in between.
- Verify.Gateway.HandleVerify: one clock reading serves the whole request, where the source reads it again for the age of the second step; redirect targets, the access log and the rate of audit rows are not modelled.
- VerifyLaws.AdminHeaderExactly: stored group names are taken to be valid, as every page that stores one checks; a name with a comma written by hand could forge one.
- VerifyLaws.AddedMemberAdmitted: assumes the groups query works, as the source refuses when it fails.
- SessionRuns.HonouredExactly: for sessions whose sign-in time is known; one minted before sign-in times were kept is covered by `SessionRuns.HonouredIsCurrent` alone.
- SessionRuns.HonouredIsCurrent: the 12 hours of an emergency session are for a positive lifetime, saved or configured (see `SessionRuns.EmergencyIsShort`).
- Membership.MarkedChangeReachesEveryRequest: a person's groups are one string per database version, without the guest filter or the admin tier; a session becomes usable when its groups are read, a little earlier than when its cookie is sent.
- Membership.GrantsRestExactly: a restart of the gateway, which forgets the marks in memory, is not among the steps that follow.
- MembershipAlone.AloneAnswersAsVerify: for a live normal session on a route whose rule is on groups, wants no second step of the person, and whose groups query works.
- RateLimit.StricterExactly: about calls on the one key; others' calls move how many buckets there are when it is inserted.
- BreakGlass.NoOldCardSession: about changes whose cutoff was recorded; a crash between the write and the cutoff leaves the card closed and its sessions to their own lifetime.
- Challenges.RunSound: an insert that fails is taken to have changed nothing.
- PasskeyBytes.AcceptedIsCanonical: the client data, the SubjectPublicKeyInfo parse and the signature check are outcomes of the input; points are 32-byte coordinates and not checked to lie on the curve.
- Authz.AccessIsTheSetRule: case folding and domain rules cover ASCII, and characters are code points, not bytes.
- Policy.ParsePolicy: spaces are Unicode's, case is as written; the legacy headers the handler warns about are not modelled.
- QrRaster.Raster: the module grid is an input; encoding the QR code and the PNG is not modelled.
- HTTP routing, templates, cookie attributes, CSRF and same-origin checks: presentation, or gates before the modelled code.
- Mail, webhooks, SMTP and feed transport: input and output.
- SQLite, its migrations and its write-ahead log: tables are maps and sets.
- The authenticator code itself, its lockout and replay guard, and bulk adding of members: would add only easier members.
- net/url and net/mail behaviour behind redirect and address checks: library semantics.
