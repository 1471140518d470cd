# A verified model of yazi's core logic

This project models, in Dafny, the parts of the terminal file manager yazi whose correctness is not visible from
reading one function: the comparators behind its sorting, the planner of bulk renames, the condition language, the
query normalizer, the directory listing with the scans that feed it, the scheduler's task life cycle, the
publish-subscribe server with its sticky state, the SFTP wire format and session, and the scroll arithmetic.

Each module follows one part of the program. Code that works by expressions is a function; code that works by
updating variables or fields is a method or a class, proved to compute a function of its inputs or of its old
state. The lemmas about those functions state what the program is for. Protocols with several participants are
state machines whose steps are the atomic steps of the code, and their theorems speak of every interleaving.

- `Ordering`, `NatSort`, `Sorter`: natural comparison and the file sorter. The order of two names is defined as the
  lexicographic order of their token sequences, and the index-juggling loops are proved to compute it.
- `BulkRename`, `RenameOrder`, `RenameRun`: the planner, the order it puts renames in, a step-by-step semantics of
  carrying a plan out, and the proof of exactly when it amounts to renaming everything at once.
- `Condition`, `Grammar`: tokens, compiler to postfix, stack evaluator, and their agreement with expression trees;
  exactly which texts are accepted.
- `Normalizer`: a span semantics of regular expressions under flags, and the meaning of the rewrite.
- `Entries`, `Refresher`: the incrementally split and lazily sorted listing, and the event loop whose ticketed scans
  feed it. `Upserts`: when an upsert is a rename, and how a key gets listed twice. `Scans`: many scans interleaved on
  one listing.
- `TaskStatus`, `Waiting`, `Scheduler`: the status cell, its waiters, and the task map.
- `Dds`, `DdsStore`: the server's handlers, and its saved state.
- `SftpMaps`, `SftpCodec`, `SftpPacket`, `SftpSession`: the data types of section 5 of RFC 4251 driven by a schema, packets and the
  frame of section 3 of draft-ietf-secsh-filexfer-02, and the matching of responses to requests.
- `Scroll`: step targets and the scrolling window.

`dafny verify dfyconfig.toml` checks all of it.

Properties that do not hold of the code without a condition, and the condition under which they do:

- SFTP attributes do not always survive a round trip: an owner without a group is written with group 0
  (`SftpCodec.LoneOwnerIsCompleted`). They do exactly when owner ids and times come in pairs
  (`SftpCodec.AttrsRoundTripIff`). Nor were decoded attributes always written that way: unknown flags, an empty
  announcement of extended attributes, repeated keys and an exhausted input are accepted
  (`SftpCodec.AttrsWereWrittenIff` says exactly when they were, `SftpCodec.EmptyIsDecoded`,
  `SftpCodec.UnknownFlagIsDropped`, `SftpCodec.EmptyAnnouncementIsDropped` and `SftpCodec.RepeatedKeysAreDropped`
  show the inputs). The same goes for the extensions of a Version reply (`SftpPacket.RepeatedExtensionsAreDropped`).
- Renames carried out one by one do not always amount to the simultaneous rename. They do exactly when targets are
  distinct, each free or a source, and there is no cycle (`RenameRun.NothingFailsIff`); `RenameRun.TakenNameFails`,
  `RenameRun.SharedNameFails` and `RenameRun.SwapFails` are the smallest requests of each kind that fail, and for
  distinct targets `RenameRun.OrderMovesWhatCanGo` says what happens in any case, and `RenameRun.OrderMovesWinners`
  for colliding ones too.
- With colliding targets a rename may be planned before its destination is moved away
  (`BulkRename.CollisionBreaksTheOrder`): `RenameOrder.FreedFirstIff` says exactly when that does not happen. A cycle
  need not be in the final block then (`BulkRename.EntranceOpensTheCycle`, and `BulkRename.LastIsTheSealedCycles` for
  what the block is).
- A client that lists a sticky kind only in a later hello is not sent the kept line: `Dds.LateHelloFollowsIff`
  says exactly when it agrees with the server all the same, `Dds.LaterAbilityMisses` is a run in which it does not.
  Loading a saved state that lacks a kept line leaves clients with a value the server has forgotten:
  `Dds.LoadAgreesIff` says exactly when, `Dds.LoadForgets` is a run.
- An upsert does not remove the old file when the rename moves it between the visible and the hidden files
  (`Upserts.HidingLeavesTheOldFile`), nor all of several files listed under the old key
  (`Upserts.RepeatedKeyOutlivesRename`). `Upserts.UpsertIsRenameIff` says for every listing exactly when it is a
  rename.
- A listing may hold a key twice: when a chunk of a scan brings a file that was created since the scan began, for
  example. `Upserts.KeysStayDistinctIff` says over which runs that never happens, `Upserts.StepKeepsKeysIff` by which
  events it does.
- A hook that waits with a task is not submitted when a report of the task installs another:
  `Scheduler.HookIsLostIffReplaced` says that this is the only way to lose one, `Scheduler.SecondHookReplaces` is a run.
- Request ids repeat after 4294967295; a call kept open that long loses its place in the table
  (`SftpSession.SharedIdDrivesOut` says exactly when, `SftpSession.FirstCallIsDrivenOut` is a run).

## Model

| member | source | states |
|---|---|---|
| `NatSort.CompareLeft` | yazi-shared/src/natsort.rs:19-39 | The loop for digit runs with a leading zero returns the left-to-right lexicographic order of the two whole runs; on a tie both positions stand behind their runs. |
| `NatSort.CompareRight` | yazi-shared/src/natsort.rs:42-65 | The loop for other digit runs returns the order of the lengths and, for equal lengths, that of the first differing digit; on a tie both positions stand behind their runs. |
| `NatSort.SkipSpaces` | yazi-shared/src/natsort.rs:89-94 | Skipping white space changes no token still to be read and stops at the end or at another byte. |
| `NatSort.CompareHeads` | yazi-shared/src/natsort.rs:96-122 | One round at two bytes that are not white space returns the order of the two tokens that start there, and on a tie moves behind both. |
| `NatSort.NatSort` | yazi-shared/src/natsort.rs:67-124 | The comparator ends and equals, for all byte strings, the lexicographic order of the two token sequences. |
| `NatSort.NatCmpIsTotalPreorder` | yazi-shared/src/natsort.rs:67-124 | That order is reflexive, flips under swapping and is transitive (ties included), for all byte strings and both case modes: what `sort_unstable_by` relies on. |
| `NatSort.RunsCompareAsNumbers` | yazi-shared/src/natsort.rs:42-65 | Digit runs without a leading zero, of any length, compare as the decimal numbers they denote. |
| `NatSort.RunOrder` | yazi-shared/src/natsort.rs:98-108 | The single key that defines the token order agrees with the choice between the two loops: left to right when either run is zero-led, else by length and digits. |
| `Sorter.CmpInsensitive` | yazi-fs/src/sorter.rs:138-150 | The byte loop equals the lexicographic order of the lower-cased names, flipped when the order is reversed. |
| `Sorter.CompareIsTotalPreorder` | yazi-fs/src/sorter.rs:30-135 | Every comparator (directories first, each criterion, each fallback, both directions) is a total preorder. |
| `Sorter.NamesBreakAllTies` | yazi-fs/src/sorter.rs:96-133 | With names as the fallback two files tie only when their names are equal. |
| `Sorter.SortedIsUnique` | yazi-fs/src/sorter.rs:20-94 | Hence a multiset of files with distinct names has exactly one sorted arrangement, so the unstable sort has one possible result. |
| `Sorter.Sort` | yazi-fs/src/sorter.rs:20-94 | Stands for the library sort: a sorted rearrangement; for `None` no change. |
| `Sorter.HitsIsOrderEquivalent` | yazi-fs/src/file/file.rs:65-67 | A file that hits another under the same key and path compares with every third file as the other does, so replacing it keeps a list sorted. |
| `BulkRename.Prepare` | yazi-actor/src/mgr/bulk_rename.rs:196-205 | The two maps hold every source with its target, and a source is flagged exactly when it is some target. |
| `BulkRename.Outcomes` | yazi-actor/src/mgr/bulk_rename.rs:210-211 | The unflagged sources in descending input order. |
| `BulkRename.Peel` | yazi-actor/src/mgr/bulk_rename.rs:222-227 | The inner loop moves the outcomes from the maps to the result, clears just the flags of their targets, and never meets the branch marked unreachable. |
| `BulkRename.Remain` | yazi-actor/src/mgr/bulk_rename.rs:215-216 | What is left, in input order. |
| `BulkRename.Turn` | yazi-actor/src/mgr/bulk_rename.rs:208-228 | One turn keeps the invariant of the loop and leaves strictly fewer renames to do. |
| `BulkRename.PrioritizedPaths` | yazi-actor/src/mgr/bulk_rename.rs:195-231 | For distinct sources the planner ends and returns the round-by-round order, a permutation of the pairs; for distinct targets as well that is the recursively defined plan. |
| `BulkRename.SomeWantingRenameComesLater` | yazi-actor/src/mgr/bulk_rename.rs:207-230 | Even with colliding targets: a rename outside the final block whose source is some target comes before some rename onto it. |
| `BulkRename.CollisionBreaksTheOrder` | yazi-actor/src/mgr/bulk_rename.rs:222-227 | But not before all of them: with a to c, x to b, b to c and c to d the plan renames b to c before c to d, since the first rename onto c has cleared its flag. |
| `BulkRename.LeadAndLastAreAll` | yazi-actor/src/mgr/bulk_rename.rs:195-231 | The leading part and the final block of the order together have the pairs that were given, each as often. |
| `BulkRename.LastIsTheSealedCycles` | yazi-actor/src/mgr/bulk_rename.rs:213-220 | Colliding targets or not: the final block holds, in input order, exactly the renames on cycles that no chain of renames enters from outside a cycle. |
| `BulkRename.EntranceOpensTheCycle` | yazi-actor/src/mgr/bulk_rename.rs:222-227 | So it need not hold every cycle: with a to b, b to a and x to b the block is empty, since the rename of x clears the flag of b. |
| `BulkRename.OrderForDistinctTargets` | yazi-actor/src/mgr/bulk_rename.rs:207-231 | For distinct targets the block is exactly the renames on cycles, no leading rename takes a name that a rename at or after it still holds as its source, and no rename of either part has a source of the other part as its target. |
| `RenameOrder.OrderIsByDistance` | yazi-actor/src/mgr/bulk_rename.rs:207-231 | The planner puts renames by the length of the shortest row of renames that leads to each from one whose source nobody wants, the farthest first and equally far ones as they were asked for; those no such row reaches form the final block. |
| `RenameOrder.FreedFirstIff` | yazi-actor/src/mgr/bulk_rename.rs:207-231 | Targets colliding or not: every wanted name outside the final block is moved away before any rename takes it if and only if no rename onto it is farther than the rename that moves it away, nor as far and asked for before. |
| `BulkRename.PlanIsPermutation` | yazi-actor/src/mgr/bulk_rename.rs:195-231 | For distinct targets: the recursively defined plan has the pairs it was given, each as often. |
| `BulkRename.PeeledOrder` | yazi-actor/src/mgr/bulk_rename.rs:207-231 | For distinct targets: no rename of the leading part takes a name that a rename planned at or after it still holds as its source, and no rename of the trailing block has a leading source as its target. |
| `BulkRename.PeeledAvoidsCore` | yazi-actor/src/mgr/bulk_rename.rs:213-220 | For distinct targets no leading rename takes the place of a file that a cycle still holds. |
| `BulkRename.CoreIsTheCycles` | yazi-actor/src/mgr/bulk_rename.rs:213-220 | For distinct targets: the trailing block of the plan holds exactly the renames that lie on a cycle, in input order. |
| `BulkRename.IndependentKeepTheirOrder` | yazi-actor/src/mgr/bulk_rename.rs:207-231 | Renames whose targets are no sources stay in the order they were asked for, colliding or not. |
| `RenameRun.CarryOut` | yazi-actor/src/mgr/bulk_rename.rs:118-135 | The loop over the plan is the step-by-step semantics in which a rename fails without effect when its destination exists or its source does not. |
| `RenameRun.NothingIsLost` | yazi-actor/src/mgr/bulk_rename.rs:118-135 | Whatever the list of renames, no content is lost or invented. |
| `RenameRun.NothingFailsIff` | yazi-actor/src/mgr/bulk_rename.rs:106-135 | The exact condition, for distinct existing sources and whatever targets: carrying the order out meets no failure if and only if the targets are distinct, each free or a source, and no rename lies on a cycle; then it is all renames at once. |
| `RenameRun.OrderMovesWhatCanGo` | yazi-actor/src/mgr/bulk_rename.rs:106-135 | For distinct targets, taken or not: the effect is to rename at once exactly the files whose target is free or held by a file that can go itself; precisely the others fail, in their order. |
| `RenameRun.OrderMovesWinners` | yazi-actor/src/mgr/bulk_rename.rs:106-135 | For all distinct existing sources, colliding and taken targets included: the effect is that of all successes at once and the others fail in order; a rename succeeds exactly when its target is free, or was moved away by an earlier success, and no earlier success took it. |
| `RenameRun.OrderRenamesAllButCycles` | yazi-actor/src/mgr/bulk_rename.rs:106-135 | When each taken target is a source as well: everything on no cycle is renamed, all at once in effect, and precisely the renames on cycles fail, in input order. |
| `RenameRun.SuccessIsSensible` | yazi-actor/src/mgr/bulk_rename.rs:118-135 | In whatever order: renames that all succeed have distinct targets, each free or a source. |
| `RenameRun.TakenNameFails` | yazi-actor/src/mgr/bulk_rename.rs:126-127 | The smallest request with a taken target fails. |
| `RenameRun.SharedNameFails` | yazi-actor/src/mgr/bulk_rename.rs:126-127 | Of two files that should get one name the first gets it and the other fails. |
| `RenameRun.SwapFails` | yazi-actor/src/mgr/bulk_rename.rs:118-130 | The smallest request with a cycle: two files that should swap names keep them, and both renames fail. |
| `Condition.Build` | yazi-shared/src/condition.rs:78-114 | The shunting loop over the text computes the token-level compiler run over the tokens of the text. |
| `Condition.Evaluate` | yazi-shared/src/condition.rs:116-140 | The stack loop computes the recursive evaluator, failing early on an empty stack or a stray parenthesis. |
| `Condition.FromStr` | yazi-shared/src/condition.rs:67-74 | A text is accepted if and only if its program denotes a tree, and an accepted condition never evaluates to `None`, whatever the terms are. |
| `Condition.AcceptedIffItCounts` | yazi-shared/src/condition.rs:67-74 | A program is accepted if and only if, read from left to right, no operator lacks an operand, no parenthesis is left in it, and one operand remains. |
| `Condition.EvalIsTreeValue` | yazi-shared/src/condition.rs:116-140 | A program evaluates to the value of the one tree it denotes and to `None` when it denotes none; which of the two does not depend on the terms. |
| `Condition.TreeOfIsInverseOfPostfix` | yazi-shared/src/condition.rs:116-140 | The programs that denote a tree are exactly the postfix forms, each of one tree. |
| `Condition.CompileIsPostfix` | yazi-shared/src/condition.rs:37-114 | Compiling a rendering with left-grouped chains and any parentheses gives the postfix form of its tree. |
| `Condition.Tighten` | yazi-shared/src/condition.rs:47-57 | A rendering whose chains are grouped in any way is a left-grouped rendering of a tree of the same value. |
| `Condition.LayoutRoundTrip` | yazi-shared/src/condition.rs:82-108 | Tokens written with any white space between them are read back, unless two terms touch. |
| `Condition.ConditionIsCorrect` | yazi-shared/src/condition.rs:67-140 | For every expression tree and every legal text of it (precedence, parentheses, grouping, white space), evaluating the compiled text gives the value of the tree. |
| `Grammar.CompileFollowsGrammar` | yazi-shared/src/condition.rs:78-114 | Every derivation of a grammar of rows (terms, groups, `!`), joined by `&`, those joined by `|`, and those separated by parentheses that close nothing, compiles to the program read off its parts: the terms of a row in order, then its `!`, then the operator that joined it. |
| `Grammar.LinesAreAcceptedIff` | yazi-shared/src/condition.rs:67-74 | A derived text is accepted if and only if the operands its parts need and leave, added up along the derivation, come to needing none and leaving one. |
| `Grammar.AcceptedIffBalanced` | yazi-shared/src/condition.rs:67-114 | Exactly the texts that are accepted, for every text: those with such a derivation. Others than the legal expressions are among them; none leaves a parenthesis open. |
| `Grammar.OperatorsStandAnywhere` | yazi-shared/src/condition.rs:86-91 | The smallest of these: an operator may stand before or after its two operands as well as between them. |
| `Normalizer.NormalizeAst` | yazi-fs/src/normalizer.rs:26-65 | The rewrite with its threaded flag equals the recursive specification: new tree, flag left behind, and the report of a change. |
| `Normalizer.NormalizeBranches` | yazi-fs/src/normalizer.rs:51-57 | The loop over alternatives threads the flag from branch to branch and reports a change of any. |
| `Normalizer.NormalizeConcat` | yazi-fs/src/normalizer.rs:89-118 | The loop that collects literals into runs and flushes them equals the recursion over the parts. |
| `Normalizer.Flush` | yazi-fs/src/normalizer.rs:89-118 | Flushing a run appends its one node and reports whether it is new. |
| `Normalizer.SameFlagsAfter` | yazi-fs/src/normalizer.rs:26-65 | For every tree and starting flag, the rewritten tree leaves the flags in force that the original does, and the flag threaded along is the one in force. |
| `Normalizer.RunMeansItsForms` | yazi-fs/src/normalizer.rs:120-164 | In Unicode mode a run of literals is rewritten to match exactly its raw, composed and decomposed spelling; in byte mode just itself. |
| `Normalizer.NormalizedMeansFinds` | yazi-fs/src/normalizer.rs:26-164 | For every tree and flags the rewritten tree matches a span if and only if the original, read with all forms of its literal runs and with trailing marks after its dots, does. |
| `Normalizer.FindsVersusMatches` | yazi-fs/src/normalizer.rs:26-164 | That reading includes the plain meaning, and coincides with it when no change is reported. |
| `Normalizer.NormalizationIsSound` | yazi-fs/src/normalizer.rs:26-164 | The three facts together: nothing is missed, exactly the other forms are added, and unchanged means unchanged. |
| `Normalizer.BytesUnchanged` | yazi-fs/src/normalizer.rs:26-65 | A tree that stays in byte mode is left as it is. |
| `Normalizer.PlainUnchanged` | yazi-fs/src/normalizer.rs:18-24 | The fast path that skips the rewrite skips only trees that the rewrite would not change. |
| `Scroll.ClampIsValid` | yazi-widgets/src/step.rs:90-101 | The bounds of the viewport clamp never cross and stay inside the window. |
| `Scroll.AddLandsInRange` | yazi-widgets/src/step.rs:81-116 | Every step lands inside the list, on 0 when it is empty. |
| `Scroll.ViewportStepStaysVisible` | yazi-widgets/src/step.rs:90-102 | A viewport step lands on a visible row and outside the scroll margins that do not touch an end of the list. |
| `Scroll.PrevUndoesNext` | yazi-widgets/src/step.rs:103-115 | Inside the list `Prev` and `Next` undo each other, around the ends as well. |
| `Scroll.ScrollKeepsCursorVisible` | yazi-widgets/src/scrollable.rs:23-58 | From any state with the cursor in the window, even one whose list has shrunk below the cursor, a step ends with the cursor inside the list and inside the window; a window not reaching past the end keeps not doing so. |
| `Scroll.RunsKeepCursorVisible` | yazi-widgets/src/scrollable.rs:23-58 | The same over every run of steps and changes of the list. |
| `Scroll.Scrollable.Scroll` | yazi-widgets/src/scrollable.rs:23-29 | Changes cursor and offset as specified and reports a change exactly when there is one. |
| `Scroll.Scrollable.GoNext` | yazi-widgets/src/scrollable.rs:31-44 | Moving down: the new cursor and offset, and whether anything changed. |
| `Scroll.Scrollable.GoPrev` | yazi-widgets/src/scrollable.rs:46-58 | Moving up: the new cursor and offset, and whether anything changed. |
| `TaskStatus.TaskHandle.Start` | yazi-scheduler/src/handle.rs:26-37 | Only a pending task is started, and only then are waiters to be told. |
| `TaskStatus.TaskHandle.Transition` | yazi-scheduler/src/handle.rs:39-69 | The status changes exactly when the update allows it, and exactly then waiters are to be told. |
| `TaskStatus.UpdatesMoveForward` | yazi-scheduler/src/status.rs:15-27 | Under any sequence of updates a status only moves forward: success and cancellation are final and a failed task can only become canceled. |
| `TaskStatus.ReachesIsReachable` | yazi-scheduler/src/status.rs:15-27 | Conversely, every status claimed reachable is reached by some updates. |
| `Waiting.RunsKeepInv` | yazi-scheduler/src/handle.rs:61-86 | In every interleaving, a waiter about to park has a notification still to come if its condition holds. |
| `Waiting.NobodyIsLeftParked` | yazi-scheduler/src/handle.rs:71-86 | No lost wake-up: once every successful write has sent its notification, a waiter whose condition holds has returned or can run. |
| `Waiting.ReturnedWasReady` | yazi-shared/src/completion_token.rs:26-39 | What a waiter returns satisfied its condition and was the status of the cell after some part of the run. |
| `Waiting.ReadyWaiterProgresses` | yazi-scheduler/src/handle.rs:71-86 | Once its condition holds it keeps holding, nobody sets the waiter back, and it returns within two steps of its own. |
| `Scheduler.Worker.AddTask` | yazi-scheduler/src/ongoing.rs:14-27 | A new task gets an id that no task ever had, pending, with its hook. |
| `Scheduler.Worker.OngoingCancel` | yazi-scheduler/src/ongoing.rs:29-44 | Canceling marks the task and removes it, unless its hook is still there: then the hook is taken out and the task stays. |
| `Scheduler.Worker.CancelRequest` | yazi-scheduler/src/worker.rs:87-99 | A request to cancel has the specified effect and returns true exactly when the task is not in the map afterwards. |
| `Scheduler.Worker.Handle` | yazi-scheduler/src/worker.rs:277-303 | One turn of the op loop: report applied, failure noted, then finished, hooked, kept or left alone. |
| `Scheduler.TaskMapInvariant` | yazi-scheduler/src/worker.rs:87-99 | Over every run the map holds no succeeded task, a task is gone only as succeeded or canceled, and no hook is submitted twice. |
| `Scheduler.RunsMoveForward` | yazi-scheduler/src/worker.rs:277-303 | Over every run each status only moves forward and a removed task never comes back. |
| `Scheduler.FailedAndCanceledAreNotUndone` | yazi-scheduler/src/worker.rs:277-303 | However a run goes on, a canceled task stays canceled, and a failed one stays in the map as failed or has been canceled. |
| `Scheduler.FailedLeavesOnlyByCancel` | yazi-scheduler/src/task.rs:40-43 | Only the events that cancel a task end its being failed. |
| `Scheduler.HooksAreNotDropped` | yazi-scheduler/src/worker.rs:294-300 | No event removes a task whose hook has not been submitted. |
| `Scheduler.HookIsLostIffReplaced` | yazi-scheduler/src/task.rs:54-60 | Over every run each hook that was installed waits or was submitted, unless a report installed another on its task while it waited; exactly then it never runs. |
| `Scheduler.SecondHookReplaces` | yazi-scheduler/src/task.rs:54-60 | The smallest run that loses a hook: a task with one reports that it installs another. |
| `Dds.Server.Tell` | yazi-dds/src/server.rs:79-80 | Every addressed connection gets the lines appended to its queue and no other connection does. |
| `Dds.Server.HandleHi` | yazi-dds/src/server.rs:95-113 | A hello replaces the registration of its connection, is answered with the kept lines only the first time, and is announced to all. |
| `Dds.Server.SetKept` | yazi-dds/src/state.rs:27-46 | Storing overwrites, removes on `null`, ignores repetitions, and tells whether that was news. |
| `Dds.Server.HandleSend` | yazi-dds/src/server.rs:50-81 | A message goes to the able receivers only, and a sticky one only if it was news; without a receiver nothing is stored. |
| `Dds.Server.HandleLeave` | yazi-dds/src/server.rs:86-89 | A connection that ends loses its registration and the others are told. |
| `Dds.RunsKeepInv` | yazi-dds/src/server.rs:44-113 | Every state in a run from the empty server is in order: each client is registered under the id its connection last gave, and kept lines are filed under their kind. |
| `Dds.ConnectedFollows` | yazi-dds/src/server.rs:86-113 | A fresh connection meets the starting condition of the next row. |
| `Dds.ClientsRebuildWhatIsKept` | yazi-dds/src/server.rs:61-113 | In every run from the empty server, for a connection made in it that lists the sticky kind in each hello while no load forgets a kept line of it: the lines to everyone queued to it, applied in order, rebuild exactly the value the server keeps, through sets, overwrites, repetitions, removals, a late hello and loads. |
| `Dds.RebuiltReplay` | yazi-dds/src/server.rs:102-104 | The kept lines, sent in whatever order the hash map yields them, bring a client to what is kept. |
| `Dds.FirstHelloAgrees` | yazi-dds/src/server.rs:100-112 | A first hello brings agreement about every sticky kind, listed or not. |
| `Dds.HelloAgain` | yazi-dds/src/server.rs:95-113 | A later hello of a known connection, under the same id or another, brings it the list of peers and nothing else. |
| `Dds.LateHelloFollowsIff` | yazi-dds/src/server.rs:61-113 | The exact condition for a kind listed only later: a client that agreed when it did not list the kind, and lists it in its next hello, follows from there if and only if what is then kept is what the last load in between that named the kind brought; without such a load, if and only if it is what was kept before. |
| `Dds.LaterAbilityMisses` | yazi-dds/src/server.rs:100-104 | A run from the empty server in which that fails: the kind is first listed after something was kept for it, and the client is never told. |
| `Dds.LoadAgreesIff` | yazi-dds/src/state.rs:89-96 | Loading keeps a registered client that lists a kind in agreement about it if and only if the kind was saved or nothing was kept for it. |
| `Dds.LoadRepairs` | yazi-dds/src/state.rs:89-94 | A load that names a kind brings every registered client to what is kept, however far behind it was. |
| `Dds.LoadForgets` | yazi-dds/src/state.rs:89-96 | A run from the empty server in which a load that lacks a kept line leaves its client with it. |
| `DdsStore.Load` | yazi-dds/src/state.rs:75-87 | The line loop files every well-formed line under its kind, later lines winning. |
| `DdsStore.SetIsKept` | yazi-dds/src/state.rs:38-43 | What setting a sticky message stores is a line that the loader files under that kind. |
| `DdsStore.DrainLoadRoundTrip` | yazi-dds/src/state.rs:55-97 | Loading what was drained, the kinds in any order, gives back the same map. |
| `Entries.Entries.SplitFiles` | yazi-fs/src/entries.rs:254-264 | Splits into invisible and visible files, each in order, dropping empty keys. |
| `Entries.Entries.UpdateFull` | yazi-fs/src/entries.rs:38-47 | A whole listing replaces everything under a new ticket. |
| `Entries.Entries.UpdatePart` | yazi-fs/src/entries.rs:49-71 | An empty part starts over under its ticket; a chunk is appended only if it carries the current ticket. |
| `Entries.Entries.UpdateSize` | yazi-fs/src/entries.rs:73-86 | Sizes are merged; only a change while sorting by size asks for a new sort. |
| `Entries.Entries.UpdateRank` | yazi-fs/src/entries.rs:88-111 | Ranks are merged, zero removing one; only a change while sorting by rank asks for a new sort. |
| `Entries.Entries.UpdateFail` | yazi-fs/src/entries.rs:113-119 | A failed listing empties both sides under a new ticket. |
| `Entries.Entries.UpdateCreate` | yazi-fs/src/entries.rs:121-148 | Only files with unknown keys are added, each on its side, the last of equal keys. |
| `Entries.Entries.UpdateDelete` | yazi-fs/src/entries.rs:150-172 | The named files go from both sides and the positions of the visible ones are returned. |
| `Entries.Entries.UpdateExisting` | yazi-fs/src/entries.rs:174-218 | Known files are exchanged in place on their side and the rest is returned; a sort is asked for unless every exchanged file hits. |
| `Entries.Entries.UpdateUpsert` | yazi-fs/src/entries.rs:220-242 | Overwritten files are deleted, known ones exchanged, and the rest appended on its side. |
| `Entries.Entries.CatchupRevision` | yazi-fs/src/entries.rs:244-252 | Sorts when the version is behind, then it is current; tells whether it was behind. |
| `Entries.Entries.SetSorterTo` | yazi-fs/src/entries.rs:284-291 | Another sorter is taken over and asks for a sort; the same one changes nothing. |
| `Entries.Entries.SetFilter` | yazi-fs/src/entries.rs:295-318 | A new filter moves files between the sides and leaves the visible ones sorted; the same filter changes nothing. |
| `Entries.Entries.SetShowHiddenTo` | yazi-fs/src/entries.rs:320-336 | Showing or hiding moves just the files that change sides. |
| `Entries.CutOut` | yazi-fs/src/entries.rs:150-172 | The deletion loop: what is left, which keys were not met, and where the deleted files stood. |
| `Entries.Exchange` | yazi-fs/src/entries.rs:174-218 | The exchange loop: each known file replaced in place, the unused replacements, and whether all of them hit. |
| `Entries.StepPlaced` | yazi-fs/src/entries.rs:38-336 | Every operation keeps the visible files in one list and the others in the other. |
| `Entries.SplitIsCurrent` | yazi-fs/src/entries.rs:254-264 | So splitting everything anew gives the same two multisets: the incremental split is always up to date. |
| `Entries.ViewChangesKeepFiles` | yazi-fs/src/entries.rs:244-336 | Filter, hidden flag, sorter and sorting lose and invent no file. |
| `Entries.StepInSync` | yazi-fs/src/entries.rs:38-336 | Every operation keeps: if version equals revision, the visible files are sorted under the current sorter, sizes and ranks. |
| `Entries.RunsStayPlaced` | yazi-fs/src/entries.rs:36-336 | After every run from an empty list each file is on its side, so the incremental split is a full one. |
| `Entries.RunsStayInSync` | yazi-fs/src/entries.rs:244-252 | After every such run a list whose version is current is sorted. |
| `Upserts.UpsertLeaves` | yazi-fs/src/entries.rs:220-242 | Exactly what an upsert leaves on each side of any listing, keys repeated or not: under each key the first files go, one where a new file replaces it and one where a rename takes the key, and all the new files are there. |
| `Upserts.UpsertIsRenameIff` | yazi-fs/src/entries.rs:220-242 | For any listing and any upsert it is the simultaneous rename, swaps and chains included, if and only if each key involved is listed no more often than the upsert takes it off its side. |
| `Upserts.DistinctUpsertIsRenameIff` | yazi-fs/src/entries.rs:220-242 | In a listing without repeated keys that is so if and only if no renamed file is left over on the other side of the view from its replacement. |
| `Upserts.DistinctUpsertLeaves` | yazi-fs/src/entries.rs:220-242 | There an upsert leaves the renamed files and those left over, nothing else. |
| `Upserts.StepKeepsKeysIff` | yazi-fs/src/entries.rs:38-336 | For each event exactly when it keeps a listing free of repeated keys: a chunk when its keys are new and distinct, a whole listing when they are distinct, a create when no key gets on both sides, an update when what it exchanges takes distinct keys and none of a file not exchanged itself, an upsert when its target keys are distinct and no file keeps its key but changes sides; all others always. |
| `Upserts.KeysStayDistinctIff` | yazi-fs/src/entries.rs:36-336 | Over every run from an empty list no listing holds a key twice if and only if each event met its condition. |
| `Upserts.UpsertInRunIsRenameIff` | yazi-fs/src/entries.rs:220-242 | After every run of such events an upsert is the simultaneous rename if and only if nothing is left over on the other side. |
| `Upserts.RepeatedKeyOutlivesRename` | yazi-fs/src/entries.rs:49-61 | A run from an empty list, with everything shown: a file created while a scan runs is listed again by its chunk, and a rename of it leaves one of the two under the old key. |
| `Upserts.HidingLeavesTheOldFile` | yazi-fs/src/entries.rs:220-242 | The smallest upsert that is no rename: a new name that hides the file leaves the old file shown. |
| `Scans.RunsKeepInv` | yazi-fs/src/entries.rs:38-71 | In every run of scans, whole listings and failures that draw their tickets from one counter, the listing holds exactly what its owner sent, and a listing without owner has no scan's ticket. |
| `Scans.ScansDoNotMix` | yazi-fs/src/entries.rs:38-119 | After a whole listing or a failure the listing is just that, and no chunk is ever added; after a scan's reset it is everything that scan has sent and nothing else, whatever other scans send. |
| `Scans.SharedTicketMixes` | yazi-fs/src/entries.rs:49-61 | Why tickets must be taken once: a whole listing under a scan's ticket would take in that scan's chunks. |
| `Refresher.Loop.SpawnScan` | yazi-watcher/src/refresher.rs:122-145 | A scan starts only for an entry that wants one and has none running; it takes the wishes with it under a new ticket. |
| `Refresher.Loop.HandleSync` | yazi-watcher/src/refresher.rs:45-50 | Keeps the listed entries as they are, drops the others and adds the new ones. |
| `Refresher.Loop.HandleLoad` | yazi-watcher/src/refresher.rs:51-66 | A load while a scan runs only renews the file; otherwise it starts a forced streaming scan. |
| `Refresher.Loop.HandleRefresh` | yazi-watcher/src/refresher.rs:67-83 | A refresh while a scan runs only renews the file unless it is forced; otherwise it asks for a scan. |
| `Refresher.Loop.HandleDone` | yazi-watcher/src/refresher.rs:84-118 | A result is taken only under the current ticket; then the entry is free and a request that came meanwhile starts. |
| `Refresher.Loop.HandleTick` | yazi-watcher/src/refresher.rs:30-35 | The tick makes every remote entry want a scan and starts those that have none running. |
| `Refresher.DirtyIsBusyAndTicketsCountOnce` | yazi-watcher/src/refresher.rs:43-145 | After every run an entry that wants a scan has one running, and no ticket is accepted twice, late and repeated results included. |
| `Refresher.AcceptedIffCurrent` | yazi-watcher/src/refresher.rs:84-88 | A result is accepted if and only if its ticket is the current one of its entry, and otherwise changes nothing. |
| `Refresher.TicketsAreNotRevived` | yazi-watcher/src/refresher.rs:43-145 | A ticket that no entry holds is held by none however the run goes on, whatever is dropped and added again, and is not accepted any more. |
| `Refresher.ResultCountsUnlessDroppedOrRepeated` | yazi-watcher/src/refresher.rs:84-118 | Over every run, the result of a scan under way counts unless its entry was dropped meanwhile, even if it was added again, or a result came under the same ticket before; then it changes nothing. |
| `Refresher.EachScanHasItsTicket` | yazi-watcher/src/refresher.rs:222-234 | In every run the tickets of scans increase strictly, so none is given twice. |
| `Refresher.ForcedRefreshCounts` | yazi-watcher/src/refresher.rs:67-83 | A forced refresh either starts a forced scan or leaves one owed. |
| `Refresher.OwedUntilReport` | yazi-watcher/src/refresher.rs:84-118 | An owed scan stays owed until the entry is dropped or the running scan reports, and then it starts. |
| `Refresher.ForcedScanFollows` | yazi-watcher/src/refresher.rs:43-145 | Over every run an owed forced scan has been started, or its entry was dropped, or the scan under way has not reported. |
| `SftpCodec.BeRoundTrip` | yazi-sftp/src/ser.rs:40-57 | Big-endian numbers in range are read back. |
| `SftpCodec.UnBeRoundTrip` | yazi-sftp/src/de.rs:69-103 | Any bytes are the big-endian form of the number read from them. |
| `SftpCodec.RoundTrip` | yazi-sftp/src/de.rs:69-247 | For every schema not open at its end and every value of it, decoding the encoding followed by any bytes gives the value and those bytes. |
| `SftpCodec.EndRoundTrip` | yazi-sftp/src/de.rs:230-235 | With maps and raw data at the end only, a value is decoded from exactly its encoding. |
| `SftpMaps.CollectedHolds` | yazi-sftp/src/fs/attrs.rs:133-141 | Pairs inserted into a map one after the other: no key twice, the last value under each key, nothing else lost; so they stay as they were if and only if no key comes twice. |
| `SftpMaps.SameMapIsReordering` | yazi-sftp/src/fs/attrs.rs:86-93 | Two listings of one map differ in their order only. |
| `SftpCodec.DecodedWasEncoded` | yazi-sftp/src/de.rs:69-247 | Conversely, for every schema, whatever is decoded fits it; the input was its encoding and the rest if the attributes and maps in it are canonical and, when what is open stands at the end, only if they are. |
| `SftpCodec.AttrsWereWrittenIff` | yazi-sftp/src/fs/attrs.rs:98-149 | Decoded attributes are in range, come in pairs, and were written so, in some order of their map, if and only if the input is not exhausted, its flag word has no other bits than those of its flags, and extended attributes that are announced are some, no key coming twice. |
| `SftpCodec.EmptyIsDecoded` | yazi-sftp/src/fs/attrs.rs:112-117 | First input for which it fails: an exhausted one decodes to no attributes. |
| `SftpCodec.UnknownFlagIsDropped` | yazi-sftp/src/fs/attrs.rs:116-133 | Second: a flag that means nothing is dropped. |
| `SftpCodec.EmptyAnnouncementIsDropped` | yazi-sftp/src/fs/attrs.rs:133-141 | Third: an announcement of no extended attributes is dropped. |
| `SftpCodec.RepeatedKeysAreDropped` | yazi-sftp/src/fs/attrs.rs:133-141 | Fourth: whatever the extended pairs, if a key comes twice they decode to fewer, with the last values, and no attributes are written that way. |
| `SftpCodec.SecondValueWins` | yazi-sftp/src/fs/attrs.rs:135-140 | The smallest such input: of two values under one key the second is kept. |
| `SftpCodec.PlainIsCanonical` | yazi-sftp/src/de.rs:69-247 | Without attributes and maps inside every input is canonical, so there no value has a second encoding. |
| `SftpCodec.OnceIffEncoding` | yazi-sftp/src/de.rs:9-20 | A whole canonical input decodes to a value if and only if it is the encoding of that fitting value, with attributes and maps or without: nothing may be left over. |
| `SftpCodec.ReadWasWrittenIff` | yazi-sftp/src/de.rs:9-20 | Whatever order the maps of a value are written in, it is read back with those maps; and what is read from a whole input was written, in some order of its maps, if and only if the input is canonical. |
| `SftpCodec.AttrsRoundTripIff` | yazi-sftp/src/fs/attrs.rs:41-149 | Attributes come back as they were if and only if owner ids and times are given in pairs; otherwise the missing half comes back as zero. |
| `SftpCodec.LoneOwnerIsCompleted` | yazi-sftp/src/fs/attrs.rs:41-96 | The input for which it fails: a user id without a group id. |
| `SftpPacket.Serializer.PutBytes` | yazi-sftp/src/ser.rs:71-80 | Appends length and bytes, or refuses a length that does not fit. |
| `SftpPacket.Serializer.PutPairs` | yazi-sftp/src/ser.rs:158-160 | A map appends its keys and values in turn without a count. |
| `SftpPacket.Serializer.Put` | yazi-sftp/src/ser.rs:40-168 | Writing a value appends exactly its encoding and fails if and only if some length does not fit in 32 bits. |
| `SftpPacket.Serializer.PutListing` | yazi-sftp/src/ser.rs:130-136 | A sequence appends its count and then its elements. |
| `SftpPacket.Serializer.PutAttrs` | yazi-sftp/src/fs/attrs.rs:41-96 | Attributes append their flags and then the parts the flags announce, extended ones up to their count cut to 32 bits. |
| `SftpPacket.Deserializer.Take` | yazi-sftp/src/de.rs:69-247 | Reading advances the input by exactly what the decoding function consumes and gives its value, or fails when it does. |
| `SftpPacket.Deserializer.TakeEach` | yazi-sftp/src/de.rs:201-209 | The counting loop over elements is the recursive decoding of a sequence. |
| `SftpPacket.Deserializer.TakePairs` | yazi-sftp/src/de.rs:230-235 | The loop to the end of the input inserts pair after pair into a map, which is the decoding of a map, later keys winning. |
| `SftpPacket.Deserializer.TakeAttrs` | yazi-sftp/src/fs/attrs.rs:98-149 | Reading flags and parts is the decoding of attributes, extended ones inserted into a map; an exhausted input gives empty ones. |
| `SftpPacket.LenIsExact` | yazi-sftp/src/packet.rs:201-237 | The length computed before writing is the length written, for every schema and every value short enough for a packet. |
| `SftpPacket.AttrsLenIsExactIff` | yazi-sftp/src/fs/attrs.rs:20-38 | For attributes it is so if and only if their extended ones are fewer than 4294967296: otherwise their count is cut, and only so many are written. |
| `SftpPacket.WriteFrame` | yazi-sftp/src/packet.rs:240-255 | A frame is written if and only if all lengths fit in 32 bits, and then consists of the exact length, the type byte and the encoding. |
| `SftpPacket.ToBytes` | yazi-sftp/src/packet.rs:240-255 | The same for a packet with the type byte of its kind. |
| `SftpPacket.FromBytes` | yazi-sftp/src/packet.rs:258-272 | Parsing picks the schema by the type byte and needs the whole body; an empty body and unknown types are refused. |
| `SftpPacket.ResponseRoundTrip` | yazi-sftp/src/packet.rs:258-272 | Every well-formed response of every type is parsed back from its body. |
| `SftpPacket.ParsedIffWritten` | yazi-sftp/src/packet.rs:258-272 | Conversely, a body is parsed as a packet, its attributes and maps canonical, if and only if it is the body of that well-formed response. |
| `SftpPacket.RepeatedExtensionsAreDropped` | yazi-sftp/src/packet.rs:258-272 | A Version reply that names an extension twice is parsed with the last naming only, and is the body of no response. |
| `SftpPacket.ReadLoop` | yazi-sftp/src/session.rs:32-41 | The reading loop computes the recursive splitting of the channel. |
| `SftpPacket.FramesSplit` | yazi-sftp/src/session.rs:32-41 | A concatenation of frames splits into exactly its bodies up to the first over 1 MiB, hence into all of them if and only if none is over. |
| `SftpPacket.ResponsesArrive` | yazi-sftp/src/session.rs:65-84 | Responses sent one after the other are split and parsed into the responses that were sent. |
| `SftpPacket.WithIdSetsId` | yazi-sftp/src/packet.rs:126-199 | Setting the id changes just the four bytes of the id and is read back; on Init and Version it does nothing. |
| `SftpSession.Id.Next` | yazi-sftp/src/id.rs:10-18 | The loop ends, and the i-th call returns i modulo 4294967295, plus one. |
| `SftpSession.Id.FetchAdd` | yazi-sftp/src/id.rs:12-15 | One atomic step: the counter wraps, and a value other than 0 is the next id. |
| `SftpSession.SameIdIff` | yazi-sftp/src/id.rs:10-18 | Ids are never 0, and two are equal if and only if whole cycles of 4294967295 lie between them. |
| `SftpSession.DistinctWithinACycle` | yazi-sftp/src/id.rs:10-18 | So any 4294967295 consecutive ids are different. |
| `SftpSession.Session.Begin` | yazi-sftp/src/session.rs:97-101 | A call enters with its request, needing an id when that is 0. |
| `SftpSession.Session.Fetch` | yazi-sftp/src/session.rs:102-104 | One try at an id: the request gets it unless it was 0. |
| `SftpSession.Session.Register` | yazi-sftp/src/session.rs:106-109 | The channel of the call is put into the table under its id. |
| `SftpSession.Session.Transmit` | yazi-sftp/src/session.rs:110-111 | The request goes out and the call waits, or it fails and its entry stays behind. |
| `SftpSession.Session.SendSync` | yazi-sftp/src/session.rs:97-112 | Uninterrupted, a call goes through these four steps, passing over 0. |
| `SftpSession.Session.OnPacket` | yazi-sftp/src/session.rs:76-80 | A packet takes the entry under its id out of the table and answers its call if that still listens. |
| `SftpSession.Session.Poll` | yazi-sftp/src/receiver.rs:35-47 | A look at the channel: the answer if there is one, and an error if the sending end is gone without one. |
| `SftpSession.Session.Quit` | yazi-sftp/src/receiver.rs:15-21 | A receiver dropped before its answer takes its entry with it. |
| `SftpSession.Session.Lose` | yazi-sftp/src/session.rs:53-60 | The table is drained, and every call in it that still listens gets a connection-lost status under its own id. |
| `SftpSession.RunsKeepInv` | yazi-sftp/src/session.rs:76-112 | Under every interleaving in which requests start with id 0, one Init is open at a time and fewer ids than a cycle are drawn while a call is open: calls go by the ids they drew, open calls by different ones, each unanswered listener is in the table, and answers carry the id of their call. |
| `SftpSession.ResponseFindsItsRequest` | yazi-sftp/src/session.rs:76-80 | A response answers exactly the one unanswered listener with its id and touches no other call. |
| `SftpSession.SlotZeroIsForInit` | yazi-sftp/src/packet.rs:126-160 | Slot 0 of the table belongs to Init only, and Init goes by 0 only. |
| `SftpSession.AnsweredAtMostOnce` | yazi-sftp/src/session.rs:76-80 | Over every such run an answer, once given, stays. |
| `SftpSession.TheFirstReplyIsTheAnswer` | yazi-sftp/src/session.rs:76-112 | Over every such run without a loss, a waiting call that is not dropped is answered by the first response with its id, or is unanswered if there was none. |
| `SftpSession.LossIsTold` | yazi-sftp/src/session.rs:50-60 | At a loss each listener without an answer is told so under its own id; all else stays. |
| `SftpSession.NobodyIsStranded` | yazi-sftp/src/session.rs:50-62 | After every such run from the start a waiting call finds its answer or is still in the table, never a broken channel; and once the connection is lost it has an answer. |
| `SftpSession.SharedIdDrivesOut` | yazi-sftp/src/session.rs:106-109 | The bound on ids is exact: registering a newly drawn id drives an open unanswered call out of the table if and only if whole cycles of ids lie between the two. |
| `SftpSession.FirstCallIsDrivenOut` | yazi-sftp/src/session.rs:97-112 | A run from the start that gets there: the first call waits while all other ids are drawn, the next call gets its id, and the first is left with a broken channel. |

## Left out

- BulkRename.PrioritizedPaths: sources are distinct, as those of a selection are; the maps of the code would merge repeated ones.
- RenameRun.CarryOut: does not model two names of one file (`must_identical`, case-insensitive file systems), nor failures of the file system other than a destination that exists or a source that does not.
- BulkRename: prompts, the editor, the replacement of roots, and the messages about failures.
- Sorter.Sort: for `Random` only a rearrangement is promised, without the directories first, because a comparator that draws its answers is no order and the library's sort then promises nothing else; the transliterating option uses an abstract map of names.
- Condition.LayoutRoundTrip: characters are Dafny characters; white space is the ASCII white space of the code.
- Normalizer: parsing and printing of patterns, the NFC and NFD tables and the matching of one character are parameters; it is assumed that matching a literal depends on its character and not on how it was written. The printed text is not modelled.
- Normalizer.PlainUnchanged: the quick test of the pattern text is a test of the tree: ASCII literals as typed, no dot.
- Scroll.AddLandsInRange: integers are unbounded, so the overflow of `n * len` for lists near 2^56 entries is not modelled.
- Scroll.ScrollKeepsCursorVisible: needs a positive limit that stays as it is; what happens when the limit shrinks is not covered.
- TaskStatus, Waiting: memory orderings weaker than interleaving are not modelled; a notification and a store are separate atomic steps.
- Scheduler: what a running task does is an arbitrary progress report; priorities, logs and the work of hooks are not modelled.
- Scheduler.Worker.AddTask: ids come from an unbounded counter.
- Dds.ClientsRebuildWhatIsKept: broadcasts are serialized, with each other and with loads, instances do not share ids, and the bodies of hello and peer lists are abstract; the line itself, not its text, is what is queued.
- Dds: a sticky message that no client is able to receive is not stored by the code; the model does the same and claims nothing for it.
- DdsStore.DrainLoadRoundTrip: file errors and the check that skips writing an unchanged file are not modelled; the kinds are taken to be free of commas and line ends.
- Entries: filters are compared by their text alone, as in the code; changing the list from outside through `DerefMut` is not modelled.
- Entries.StepInSync: assumes that a file replaced under the same key lies at the same path.
- Entries.Entries.UpdateFull: the new ticket is an argument; `Scans` draws it from the counter that scans draw from.
- Scans.ScansDoNotMix: filters, single changes and plugins that send parts of their own are not part of the runs.
- Refresher: what a scan finds is an arbitrary outcome; the messages to the listing are in `Scans`, tickets that others take are a step of their own.
- Refresher.Loop.HandleLoad: a load while a scan runs does not owe another scan, as in the code.
- SftpMaps: a map is listed in the order in which its keys first came in; that a hash map may yield them in another is said by the relation `SameMap`.
- SftpPacket.LenIsExact: one length function over schemas stands for the sum that each packet type writes out for its fields.
- SftpPacket.Deserializer.TakeAttrs: the counter that limits the elements read as attributes is not kept, because every element takes at least four bytes of the input it was set from.
- SftpSession.RunsKeepInv: time-outs are drops of the receiver; a failed request leaves its unused entry in the table, as in the code.
- SftpSession: version negotiation, extensions and the operator's convenience calls.
- UI widgets, image drivers, package manager, plugins and configuration: plumbing around the parts above.
