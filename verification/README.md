# Satelle: verified models of its hard parts

Satelle lets a Controller run Codex turns on remote Hosts. Seven of its parts
depend on arguments that a reader cannot check by looking at one function. Each
has a model here that takes the same branches as the code, and theorems about
every input, every run or every crash point of that model.

- **Bootstrap Lock** (`LockEvidence`, `LockOwner`, `LockCourse`, `LockProtocol`,
  `LockTakeover`, `LockComposition`). A directory lock between any number of shell processes
  that may crash anywhere. Claims are published by rename, stale ones are moved
  to quarantine, compared with what was first read, then discarded or put back.
  The POSIX script is modelled as a transition system; the owner's command loop
  and its retirement of finished attempts are imperative.
- **TOON output** (`ToonText`, `ToonTable`, `ToonCodec`, `ToonRoundTrip`,
  `ToonDocument`, `ToonForms`, `ToonEncoder`). The encoder is a class that appends
  to one string. It is proved to write a specified text, a decoder for that text
  is proved to return every value, and which values are written as tables, on one
  line or in quotes is stated of the values alone.
- **Log follow** (`LogStore`, `LogPages`, `LogRead`, `LogReconnect`,
  `LogFollow`). Cursor paging over a log that grows and is pruned while it is
  read, across lost connections, within a reconnect budget. The page contract is
  proved of the Host's store, not assumed.
- **Attached Turn follower** (`TurnEvents`, `TurnFollower`, `TurnLaws`). Live
  events, sequence gaps, disconnects, a reconciliation clock and durable reads.
- **Self-update** (`SelfUpdate`, `Version`). A receipt and an executable that
  are replaced together, where every file operation may fail and the process may
  die before each of them; and the version parser with its printer (items 2, 9
  and 10 of Semantic Versioning 2.0.0, build metadata rejected).
- **Batch pool** (`BatchPool`). Workers that claim slots with one shared counter
  in any interleaving.
- **Unified diff** (`UnifiedDiff`). The one-hunk diff that a configuration
  repair shows.

`Options`, `Numbers`, `Sequences` and `Decimal` hold shared vocabulary. Run
`dafny verify dfyconfig.toml` to check everything.

## How the surroundings are modelled

What the code cannot decide itself is an input: probe answers, the clock, what
other processes do (transition labels); the answers of the network and of the
terminal user (a script that is read in order, where a script that ends is a run
observed up to that point); the fate of each file operation (a function from its
number); random samples. Every theorem quantifies over all of them.

## Results worth knowing

- Mutual exclusion of lock owners holds in every run in which no process accepts
  the claim of a contender that has not yet printed READY. A step that accepts
  one is the only kind of step that loses the protocol's invariant, and it always
  does (`InvLostOnlyByTakingContender`, an equivalence); one run in which that
  ends with two owners is `LateContenderBreaksExclusion`. Contenders that are
  never stale are never accepted (`TimelyIsNotTaken`).
- A live claim stays without markers over a whole tenure exactly when no
  EXECUTING arrives before its claim was started (`EveryTenureIsRecorded`).
- A daemon start whose failure marker is still present stays fenced after the
  commit rename of its retirement; this is the only crash point at which
  retirement depends on anything (`RetirementCommitsAtRename`, an equivalence).
- The host-activity guard after stale classification can never fire
  (`ActivityGuardIsRedundant`).
- Recovery of an interrupted self-update is right when it is run by the
  installed program. Run by another version it keeps the installation consistent
  exactly when it has nothing to decide (`StaleProgramRecovers`). The failing
  case needs no crash: an update that completes but cannot remove its backup,
  followed by an updater of the older version, which was already running and
  takes the lock next (`StaleRecovery`, an equivalence over both runs).
- A contender that meets only claims that can be taken always becomes the owner,
  however many there are (`TakeoverSucceeds`).
- The Controller's ordinary order of commands is always echoed, for any number of
  attempts, and the next phase is admitted exactly when the attempt before it is
  over (`CampaignIsEchoed`, `NextPhaseIsAdmitted`).
- A version text is accepted exactly when it is canonical, so the later
  comparisons of a parsed version's text with its source cannot fail.

## Model

| member | source | states |
|---|---|---|
| LockEvidence.ScanMarkers | crates/satelle/src/bootstrap-lock.rs:1032-1047 | the marker loop flags a directory exactly when some entry is not a real directory or is not named by the phase's contract |
| LockEvidence.AcceptedExactly | crates/satelle/src/bootstrap-lock.rs:993-1193 | a claim may be taken if and only if, by its files: operation and identity are well formed and no heartbeat came for more than thirty seconds; and it is live, or a mutation of a known operation, phase and attempt whose markers are its own, of kinds that form one of the listed sets, with the probes that the set calls for |
| LockEvidence.AcceptedMarkersAreTheBooleans | crates/satelle/src/bootstrap-lock.rs:1006-1078 | when nothing unexpected is found, the marker set is exactly what the five booleans say: no other entry of any attempt is there |
| LockEvidence.SameObservationSameMarkers | crates/satelle/src/bootstrap-lock.rs:1198-1320 | a quarantined claim that passes the comparison is the same claim, marker for marker, as the one classified |
| LockEvidence.UnresolvedAcceptedOnlyProbeProved | crates/satelle/src/bootstrap-lock.rs:1131-1193 | evidence that started and did not end is accepted if and only if the claim is abandoned, its attempt is known and one of three cases holds, each spelled out by phase and probes that answered a definite no |
| LockEvidence.ActivityGuardIsRedundant | crates/satelle/src/bootstrap-lock.rs:1183-1193 | a claim that was reconciled never meets the later host-activity guard |
| LockOwner.Owner.HasExecutionMarkers | crates/satelle/src/bootstrap-lock.rs:837-843 | finds a marker exactly when the claim holds one of any attempt |
| LockOwner.Owner.CheckRetirable | crates/satelle/src/bootstrap-lock.rs:844-870 | the marker loop accepts exactly the sets that are one complete finished attempt |
| LockOwner.Owner.RetireTerminalAttempt | crates/satelle/src/bootstrap-lock.rs:844-877 | for a file operation failing at any point: the markers left are that prefix of the retirement, and success leaves none |
| LockOwner.RetirementCommitsAtRename | crates/satelle/src/bootstrap-lock.rs:844-877 | after the rename, at every crash point, an abandoned claim with a known attempt is accepted by stale recovery whatever the probes say, except a daemon start whose failure marker remains (if and only if) |
| LockOwner.RetirementBeforeRename | crates/satelle/src/bootstrap-lock.rs:1131-1188 | before the rename a finished attempt on such a claim is accepted if and only if it has its terminal marker and no failure, or a probe-proved case applies |
| LockOwner.Owner.FinalizeInterruptedClaim | crates/satelle/src/bootstrap-lock.rs:878-930 | the closing loop and its branches remove the claim exactly for a closable marker set, else put it back recovery pending with all markers |
| LockOwner.FlagsDescribeMarkers | crates/satelle/src/bootstrap-lock.rs:892-904 | the flags of the closing loop say whether the set is empty and whether every marker is in order |
| LockOwner.BranchesDecideClosable | crates/satelle/src/bootstrap-lock.rs:905-926 | the branch conditions decide closability as the statement about the whole set does |
| LockOwner.Owner.AdvancePhase | crates/satelle/src/bootstrap-lock.rs:1359-1383 | the STARTED branch: retire, then record the new phase, or exit without recording it |
| LockOwner.Owner.HandleLine | crates/satelle/src/bootstrap-lock.rs:1352-1407 | one command of the owner loop does what the owner's transition function says, for every line and failure point; what that function does to the ordinary order of commands is CourseIsEchoed |
| LockOwner.Owner.Cleanup | crates/satelle/src/bootstrap-lock.rs:931-946 | the exit trap ends in the specified state |
| LockOwner.AcceptedAdvanceRetiresEverything | crates/satelle/src/bootstrap-lock.rs:1359-1383 | a new phase is echoed only when the prior attempt was complete and the directory then holds no marker at all |
| LockOwner.RefusedAdvanceStaysRecorded | crates/satelle/src/bootstrap-lock.rs:1359-1383 | at any point of any run that kept its record, a refused advance exits 75, keeps phase and attempt, and ends recovery pending with the evidence untouched or at a retirement crash point |
| LockOwner.ChannelLossKeepsOpenEvidence | crates/satelle/src/bootstrap-lock.rs:878-946 | losing the channel at any such point after a mutation removes the claim if and only if the markers are closable; unresolved evidence always stays |
| LockOwner.RecordLostOnlyByEarlyExecuting | crates/satelle/src/bootstrap-lock.rs:1391-1396 | one event loses the record if and only if it is an EXECUTING that marks a claim still live |
| LockOwner.EveryTenureIsRecorded | crates/satelle/src/bootstrap-lock.rs:1352-1407 | over every sequence of commands, executor steps and channel losses: throughout, a live claim carries no marker and every marker belongs to the recorded attempt, if and only if no such EXECUTING comes |
| LockOwner.DisciplineIsEnough | crates/satelle/src/ssh-bootstrap.rs:714-775 | the Controller's order of commands never sends one |
| LockOwner.EveryExitSettlesTheClaim | crates/satelle/src/bootstrap-lock.rs:931-946 | every run that ended did so by one event, which released the claim, removed it with nothing open, or left it recovery pending with all its evidence |
| LockOwner.LeftoverAttemptMarksALiveClaim | crates/satelle/src/bootstrap-lock.rs:1391-1396 | the scan's leftover variables do let an early EXECUTING mark any live claim, so the condition of the previous equivalence can fail |
| LockCourse.CourseIsEchoed | crates/satelle/src/ssh-bootstrap.rs:714-775 | an attempt sent in the Controller's order, STARTED, EXECUTING, the executor's result and COMMITTED where the phase asks for it, is echoed at every line, and leaves exactly the markers of how it went |
| LockCourse.OverIsRetirable | crates/satelle/src/bootstrap-lock.rs:844-870 | those markers can be retired if and only if the attempt is over |
| LockCourse.StatusDecides | crates/satelle/src/ssh-bootstrap.rs:2314-2322 | whether an executed attempt is over, by phase, exit status and commit: zero with the commit its phase wants, a digest mismatch in a cache phase, a recorded failure, or a commit after an unrecorded one |
| LockCourse.NextPhaseIsAdmitted | crates/satelle/src/bootstrap-lock.rs:1359-1383 | after any such course the next STARTED is echoed if and only if the attempt is over; else the owner exits and leaves all the evidence recovery pending |
| LockCourse.LossAfterAttempt | crates/satelle/src/bootstrap-lock.rs:878-946 | losing the channel then removes the claim if and only if the attempt is over and did not fail, else leaves it recovery pending with the attempt's markers |
| LockCourse.CampaignIsEchoed | crates/satelle/src/ssh-bootstrap.rs:714-775 | any number of attempts, each over before the next, are echoed at every line |
| LockCourse.ReleaseRemovesTheClaim | crates/satelle/src/bootstrap-lock.rs:1397-1404 | RELEASE at any point of a tenure is echoed, ends it and removes the claim |
| LockCourse.HeartbeatProtects | crates/satelle/src/bootstrap-lock.rs:1354-1357 | a heartbeat changes only the time, without an echo, and for thirty seconds after it no contender accepts the claim, whatever the probes say |
| LockCourse.MalformedStartIsRefused | crates/satelle/src/bootstrap-lock.rs:1360-1367 | a STARTED line ends the owner with status 64 if and only if it does not have two words, a phase of letters, digits, hyphens and underscores and an attempt of 32 hexadecimal digits; nothing changes then |
| LockCourse.StrangeMarkIsRefused | crates/satelle/src/bootstrap-lock.rs:1384-1396 | EXECUTING and COMMITTED are echoed if and only if the claim is still the owner's, they name the recorded phase and attempt, and their marker comes next; it is then the only change, else the owner exits with 75 and nothing changes |
| LockProtocol.StepKeepsFacts | crates/satelle/src/bootstrap-lock.rs:947-1353 | every step of every process, crashes included, keeps the facts about names and holders, whatever claims it takes |
| LockProtocol.StepKeepsInv | crates/satelle/src/bootstrap-lock.rs:947-1353 | every such step keeps the whole protocol invariant unless it accepts the claim of a process that is still contending |
| LockProtocol.InvLostOnlyByTakingContender | crates/satelle/src/bootstrap-lock.rs:1004-1004 | a step loses the invariant if and only if it accepts such a claim |
| LockProtocol.TimelyIsNotTaken | crates/satelle/src/bootstrap-lock.rs:1004-1004 | no step accepts such a claim while no contender's claim is stale |
| LockProtocol.TimelyRunIsAssumed | crates/satelle/src/bootstrap-lock.rs:1004-1004 | so a run in which contenders are always timely, with fresh names, is one in which no contender's claim is accepted |
| LockProtocol.MutualExclusion | crates/satelle/src/bootstrap-lock.rs:947-1353 | in every run of any number of processes in which no contender's claim is accepted, two claims in the lock root whose owners printed READY are the same claim |
| LockProtocol.OneOwnerPassesSameOwner | crates/satelle/src/bootstrap-lock.rs:813-819 | in every such run at most one owner passes the check that precedes every command |
| LockProtocol.DiscardedEvidenceWasClassified | crates/satelle/src/bootstrap-lock.rs:1194-1344 | in every run, timely or not, a discarded claim has the identity, heartbeat, state and markers that were classified, and unresolved evidence goes only in the three cases with definite noes before and after the move |
| LockProtocol.NoClaimVanishes | crates/satelle/src/bootstrap-lock.rs:1194-1353 | in every run with fresh names, also when contenders' claims are accepted, a claim leaves the host only by its own process or by such a discard |
| LockProtocol.LateContenderBreaksExclusion | crates/satelle/src/bootstrap-lock.rs:1271-1344 | a run with fresh names and identities, in which a stale contender's claim is accepted, ends with two ready owners' claims in the root |
| LockProtocol.TwoOwnersMeanTaken | crates/satelle/src/bootstrap-lock.rs:1271-1344 | every run with fresh names that ends so accepted a contender's claim on the way |
| LockTakeover.TakeoverSucceeds | crates/satelle/src/bootstrap-lock.rs:947-1353 | from any state, a contender that finds only claims that can be taken, however many and in whatever order, becomes owner: its claim is the only one left in the root, the interrupted restarts are archived in order, and no other process changes |
| LockTakeover.BusyContenderLeaves | crates/satelle/src/bootstrap-lock.rs:998-1193 | at the first claim that cannot be taken it leaves: its own claim and those taken before are gone, all others are untouched |
| LockTakeover.RenewedClaimIsGivenBack | crates/satelle/src/bootstrap-lock.rs:1194-1344 | a claim whose heartbeat its owner renewed between the look and the move is put back exactly as the owner left it, and the contender leaves |
| LockTakeover.ArchivedIsKept | crates/satelle/src/bootstrap-lock.rs:1321-1344 | of the accepted claims exactly the interrupted service restarts, with nothing but a started marker, are archived |
| LockComposition.CommandIsContentStep | crates/satelle/src/bootstrap-lock.rs:1352-1407 | every owner command is one of the in-place changes the protocol allows |
| LockComposition.TenureMovesByContentSteps | crates/satelle/src/ssh-bootstrap.rs:2294-2323 | over a whole tenure that keeps its record, commands, executor and channel loss change a claim only by such steps, so the protocol's theorems apply to them |
| ToonText.QuotedReads | crates/satelle/src/output-toon.rs:222-236 | reading a quoted text gives back every character, whatever follows |
| ToonText.KeyReads | crates/satelle/src/output-toon.rs:209-220 | a written key, plain or quoted, is read back |
| ToonText.IntegersLookNumeric | crates/satelle/src/output-toon.rs:300-317 | every text that reads as an integer is one the encoder quotes when it is a string |
| ToonText.FractionalsLookNumeric | crates/satelle/src/output-toon.rs:300-317 | the same for decimal fractions |
| ToonText.PrimitiveReads | crates/satelle/src/output-toon.rs:180-207 | every primitive is read back with its type: a string that looks like a number, a boolean or null stays a string |
| ToonTable.KeyOrder | crates/satelle/src/output-toon.rs:10-24 | the order in which an object's keys come: decided where two keys first differ, and total |
| ToonTable.TableRowsFit | crates/satelle/src/output-toon.rs:244-282 | when a table shape is chosen, every row, the first included, has exactly that shape |
| ToonTable.TableChosenExactly | crates/satelle/src/output-toon.rs:244-282 | a table shape is chosen if and only if there are rows, all of them non-empty objects with the same keys and, under each key, all primitive or all non-empty objects that agree again |
| ToonTable.RebuildRow | crates/satelle/src/output-toon.rs:164-178 | an object is rebuilt from its cells and the shared column tree |
| ToonCodec.HeaderReads | crates/satelle/src/output-toon.rs:144-162 | count, keyed flag and nested columns of a header are read back |
| ToonCodec.RowsRead | crates/satelle/src/output-toon.rs:97-105 | the rows of a table are read back, with what follows untouched |
| ToonCodec.KeyedRowsRead | crates/satelle/src/output-toon.rs:42-50 | the rows of a keyed table are read back with their keys |
| ToonRoundTrip.ArrayRT | crates/satelle/src/output-toon.rs:82-110 | inline, table and list forms of an array are read back at any depth and before any following lines |
| ToonRoundTrip.ItemRT | crates/satelle/src/output-toon.rs:112-142 | every list item is read back, also an object whose first field shares the dash line |
| ToonRoundTrip.FieldRT | crates/satelle/src/output-toon.rs:65-80 | every field is read back |
| ToonRoundTrip.DocumentRT | crates/satelle/src/output-toon.rs:10-24 | every document is read back from its lines |
| ToonDocument.DecodeInvertsEncode | crates/satelle/src/output-toon.rs:10-24 | decoding the text of any value with sorted object keys gives the value |
| ToonDocument.EncodeInjective | crates/satelle/src/output-toon.rs:10-24 | different values have different texts |
| ToonDocument.NoTrailingBreak | crates/satelle/src/output-toon.rs:21-23 | only the empty object is the empty text, and no text ends in a line break |
| ToonForms.ArrayFormDecided | crates/satelle/src/output-toon.rs:82-110 | an array is written as a table if and only if tables are allowed and its rows agree in shape, and on one line if and only if all its items are primitive |
| ToonForms.FieldFormDecided | crates/satelle/src/output-toon.rs:65-80 | a field holding an object is written as a keyed table if and only if it has at least two fields that agree in shape, and one holding an array as a table if and only if its items do; an empty array is written in place |
| ToonForms.DocumentFormDecided | crates/satelle/src/output-toon.rs:10-24 | the text of a document opens a table if and only if it is an array whose items agree in shape or an object of at least two fields that do |
| ToonForms.NumeralsLookNumeric | crates/satelle/src/output-toon.rs:300-317 | every numeral, signed, with fraction or exponent, looks numeric |
| ToonForms.LooksNumericIsNumeral | crates/satelle/src/output-toon.rs:300-317 | only numerals look numeric |
| ToonForms.QuotesDecided | crates/satelle/src/output-toon.rs:284-298 | a string is quoted if and only if it is empty, a reserved word or a numeral, begins or ends with one of the listed characters, or holds a control or structural character |
| ToonForms.KeyQuotesDecided | crates/satelle/src/output-toon.rs:209-220 | a key is plain if and only if it begins with a letter or underscore and holds only letters, digits, underscores and dots |
| ToonForms.EscapesDecided | crates/satelle/src/output-toon.rs:222-236 | which characters are escaped, and how |
| ToonForms.IntegersPrintPlainly | crates/satelle/src/output-toon.rs:180-207 | an integer has a minus sign if and only if it is negative, and no leading zero |
| ToonEncoder.Encoder.constructor | crates/satelle/src/output-toon.rs:11-11 | an encoder starts with an empty output |
| ToonEncoder.Encoder.WriteIndent | crates/satelle/src/output-toon.rs:29-33 | appends the indentation of a depth |
| ToonEncoder.Encoder.WriteQuoted | crates/satelle/src/output-toon.rs:222-236 | the character loop appends the quoted text |
| ToonEncoder.Encoder.WriteKey | crates/satelle/src/output-toon.rs:209-220 | appends the key's text |
| ToonEncoder.Encoder.WritePrimitive | crates/satelle/src/output-toon.rs:180-207 | appends the text that reads back to the value |
| ToonEncoder.Encoder.WriteColumns | crates/satelle/src/output-toon.rs:150-162 | the nested column loop appends the column text |
| ToonEncoder.Encoder.WriteTableHeader | crates/satelle/src/output-toon.rs:144-148 | appends a header line |
| ToonEncoder.Encoder.WriteCells | crates/satelle/src/output-toon.rs:164-178 | the recursive cell loop appends the flat, comma-separated cells of the row |
| ToonEncoder.Encoder.WriteObject | crates/satelle/src/output-toon.rs:35-63 | appends an object, keyed or at the root, as a table or as fields |
| ToonEncoder.Encoder.WriteField | crates/satelle/src/output-toon.rs:65-80 | appends a field's block |
| ToonEncoder.Encoder.WriteArray | crates/satelle/src/output-toon.rs:82-110 | appends an array's block |
| ToonEncoder.Encoder.WriteItem | crates/satelle/src/output-toon.rs:112-142 | appends a list item's block |
| ToonEncoder.EncodeDocument | crates/satelle/src/output-toon.rs:10-24 | the encoder's output is the specified text, decoding it gives the value, and it opens a table if and only if the rows agree in shape |
| LogStore.HighWaterIsLast | crates/satelle/src/host/storage/codec.rs:337-367 | the high-water mark is the cursor of the last entry ever appended, also when all rows are pruned |
| LogStore.PruneDropsOldPrefix | crates/satelle/src/host/storage/sql.rs:110-153 | pruning drops exactly the rows older than every row at or after the cutoff, and never moves the bounds back |
| LogStore.AppendEvolves | crates/satelle/src/host/storage/sql.rs:105-108 | appending under the next cursor is a step of the store |
| LogPages.ForwardPageCovers | crates/satelle/src/host/storage/logs.rs:232-280 | a served forward page holds precisely the matches from its start through its next cursor; truncated pages are full and end at their last entry, others reach the end of the log |
| LogPages.ForwardPageGives | crates/satelle/src/host/storage/logs.rs:232-280 | an entry is on a served page if and only if it is stored, above the cursor, through the next cursor, and of the asked session, time, source, severity and binding; entries are in cursor order |
| LogPages.NarrowingNeverAdds | crates/satelle/src/host/storage/codec.rs:275-292 | asking for less never adds an entry to the stretch that a page covers |
| LogPages.TruncatedMeansMore | crates/satelle/src/host/storage/logs.rs:232-280 | a page is truncated if and only if a further match is stored after it |
| LogPages.RefusalNamesResumption | crates/satelle/src/host/storage/logs.rs:240-256 | the cursor named by a refusal is served, gives what a read without a cursor gives, and lies below everything that is stored |
| LogPages.ForwardPageRefusals | crates/satelle/src/host/storage/logs.rs:240-256 | a forward page is refused exactly when its cursor is below what is pruned or beyond the end |
| LogPages.TailPageCovers | crates/satelle/src/host/storage/logs.rs:258-280 | a tail page is the newest matches in order, with the end of the log as next cursor |
| LogPages.TailPageGives | crates/satelle/src/host/storage/logs.rs:258-280 | a tail page holds only stored entries that were asked for, by their fields and in order, at most the limit; one left out is older than all of them, and then the page is full |
| LogPages.TruncatedTailMeansMore | crates/satelle/src/host/storage/logs.rs:258-280 | a tail page is truncated if and only if an older match is stored |
| LogPages.StretchIsStable | crates/satelle/src/host/storage/codec.rs:236-335 | a stretch of matches below the end does not change when the log grows or is pruned |
| LogPages.MatchingSplit | crates/satelle/src/host/storage/codec.rs:236-335 | neighbouring stretches add up without gap or overlap |
| LogRead.RefusedReads | crates/satelle/src/logs.rs:293-316 | a read served by a store fails if and only if its cursor is below what is pruned or beyond the last entry, with the code for each |
| LogRead.VisitForwardSnapshot | crates/satelle/src/logs.rs:293-316 | a finite read delivers precisely the entries, by their fields, that were asked for after its start and at or below the captured snapshot, while the log grows; it terminates because those run out, every page but the last being full; stopped early it has delivered the prefix through its cursor |
| LogReconnect.JitterWithinBand | crates/satelle/src/logs.rs:706-710 | a jittered backoff is within 80 and 120 percent of it and at most five seconds |
| LogReconnect.JitterNeverExceedsCap | crates/satelle/src/logs.rs:706-710 | the cap and the upper edge hold for every duration |
| LogReconnect.WaitsAddUp | crates/satelle/src/logs.rs:433-484 | attempts start no earlier than the least sum of the delays before them, or the budget is used up |
| LogReconnect.AttemptWithinBudget | crates/satelle/src/logs.rs:433-484 | an attempt that starts within the minute is at most the eighteenth |
| LogReconnect.EachWithinBudget | crates/satelle/src/logs.rs:433-484 | no attempt of a reconnect starts a minute or more after the loss |
| LogReconnect.EighteenAttemptsFit | crates/satelle/src/logs.rs:20-24 | the least waits of eighteen attempts fit into the budget and those of nineteen do not |
| LogReconnect.EighteenAttemptsAreMade | crates/satelle/src/logs.rs:424-485 | a run of the reconnect loop makes eighteen attempts, so the bound cannot be lowered |
| LogReconnect.AttemptOnce | crates/satelle/src/logs.rs:449-484 | one turn of the reconnect loop: no attempt starts at or after the deadline, and a late reply is not used |
| LogReconnect.Reconnect | crates/satelle/src/logs.rs:424-485 | every retried attempt failed transiently and started in time, at most eighteen were made, and giving up has its reason in the last reply, an interruption or the budget |
| LogFollow.PageDelivers | crates/satelle/src/logs.rs:351-360 | one more page keeps the exactly-once property, whichever connection it came over |
| LogFollow.ResumeContinues | crates/satelle/src/logs.rs:361-378 | a run that stopped and a rerun after the reported cursor together write what one run would have written |
| LogFollow.FollowTail | crates/satelle/src/logs.rs:850-864 | starting at a tail writes the newest matches and follows from the end of the log |
| LogFollow.FollowAfter | crates/satelle/src/logs.rs:865-880 | starting after a cursor writes the first page after it |
| LogFollow.ReadPages | crates/satelle/src/logs.rs:893-922 | the paging loop: it ends at the first page that reaches the snapshot or the first reply that fails, with the fold of the pages before it |
| LogFollow.ReadToSnapshot | crates/satelle/src/logs.rs:893-922 | the initial paging writes precisely the matches up to the snapshot and hands over at the snapshot; stopped early it wrote precisely those of its pages, with the reply that stopped it |
| LogFollow.FollowFromOldest | crates/satelle/src/logs.rs:881-922 | the same with the snapshot query before it and its errors |
| LogFollow.FollowInitial | crates/satelle/src/logs.rs:850-922 | the initial read of any position: what a started follow begins with, and why and with what written it does not start |
| LogFollow.NextPage | crates/satelle/src/logs.rs:349-410 | the next page on this connection or after a reconnect; it ends the follow only for the code of a reply, the tenth interruption, the first one without reconnecting, or an exhausted budget, each named with the reply that shows it |
| LogFollow.FoldDelivers | crates/satelle/src/logs.rs:343-421 | the fold of single reads over any stretch of replies writes every match exactly once in order |
| LogFollow.FollowTurns | crates/satelle/src/logs.rs:343-421 | the loop: its turns lead from the opening to the one that ends it, and what it wrote is that fold over the replies used |
| LogFollow.FollowFrom | crates/satelle/src/logs.rs:343-421 | for any pattern of losses and growth every match is written exactly once in order, and the end has its reason in the last turn |
| LogFollow.HeadsFold | crates/satelle/src/logs.rs:343-421 | what any head of the loop has written is that fold over the replies before it |
| LogFollow.EveryHeadDelivers | crates/satelle/src/logs.rs:343-421 | so at every head of the loop every match so far was written exactly once in order |
| LogFollow.InterruptionsCount | crates/satelle/src/logs.rs:349-410 | at most nine interruptions are survived, none without reconnecting |
| LogFollow.LossDecides | crates/satelle/src/logs.rs:361-410 | by the code of a failed read: four losses of the Host are survived until the tenth unless reconnecting is off, anything else ends the follow at once |
| LogFollow.TurnsWritePages | crates/satelle/src/logs.rs:924-931 | one turn writes at most 200 entries, and fewer only when it reaches the end of the log |
| LogFollow.InitialPages | crates/satelle/src/logs.rs:893-900 | a page of the initial read holds at most 10000 entries, and fewer only when it reaches the end of the log |
| LogFollow.FollowWritesAsked | crates/satelle/src/logs.rs:318-422 | what a follow from a tail, a cursor or the oldest row has written is, entry by entry and by their fields, what was asked for |
| LogFollow.FollowLogs | crates/satelle/src/logs.rs:318-422 | the whole command, including the seam between the initial read and the follow: what is written is exactly what was asked for, by the fields of the entries, and the exact reason and output when it does not start |
| TurnEvents.RelayedRevisionsAscend | crates/satelle/src/direct-attached.rs:1263-1273 | revisions relayed for the Turn never decrease and repeat only for approvals and preflights |
| TurnEvents.RelayedExactly | crates/satelle/src/direct-attached.rs:1243-1273 | an event is relayed if and only if it is exempt, or names the Turn with a revision newer than that of every such event received before; approvals and preflights also when it is as new |
| TurnFollower.Check | crates/satelle/src/direct-attached.rs:197-260 | one reconciliation: its result is what the read means, and a verdict comes only from a durable terminal read at or above the asked revision |
| TurnFollower.CheckRetaining | crates/satelle/src/direct-attached.rs:262-282 | at most three reads: all but the last found the Host unreachable, and the result is what the last one means |
| TurnFollower.ProvenIsDurable | crates/satelle/src/direct-attached.rs:225-259 | a verdict names the target Turn in a terminal state with a log entry at exactly its revision |
| TurnFollower.EndWithVerdict | crates/satelle/src/direct-attached.rs:73-84 | a terminal event is passed on exactly when the durable state agrees with it, else the run gives up with an invalid response |
| TurnFollower.CloseGap | crates/satelle/src/direct-attached.rs:468-506 | a sequence gap takes one read and goes on if and only if that read, not behind the event, found the Turn active; a Turn that is over ends the run with one terminal, and an error is the read's own |
| TurnFollower.RelayBound | crates/satelle/src/direct-attached.rs:507-552 | a deliverable event is relayed, or ends the run when terminal, with one read exactly for terminals and recovery notices; giving up is what that read, asked at the event's revision, says |
| TurnFollower.HandleEvent | crates/satelle/src/direct-attached.rs:450-552 | after any event the deliveries are exactly what relaying the received events passes on; every read used was waited for, it goes on only after the last one, and it stops only where the run stands at that outcome; how many reads an event asks for is MissedEventsAreReadFor |
| TurnFollower.ResumeAfterConnect | crates/satelle/src/direct-attached.rs:570-592 | the stream is resumed if and only if the last of the reads after its subscription found the Turn active; a failure is that read's own code |
| TurnFollower.AfterRefusal | crates/satelle/src/direct-attached.rs:593-626 | a refused connection takes one read; it is retried only within the budget for an active Turn or an unreachable Host, and fails only with that read's code or with a lost stream for an active Turn at the end of the budget |
| TurnFollower.ConnectOnce | crates/satelle/src/direct-attached.rs:563-626 | one attempt where a connection is waited for: every answer used was waited for, and the result is where the run then stands |
| TurnFollower.Recover | crates/satelle/src/direct-attached.rs:553-628 | reconnecting changes nothing delivered, counts its attempts, uses only answers it waits for, subscribes at most one stream and says where, resumes only after an active read, and ends only where the run stands at that outcome |
| TurnFollower.Probe | crates/satelle/src/direct-attached.rs:417-446 | a clocked check leaves the verdict of an ended Turn pending behind the events already there, drops none, and otherwise changes nothing; it stops only for the code of its last read, or for want of the read or the drain it waits for |
| TurnFollower.FollowTurn | crates/satelle/src/direct-attached.rs:374-632 | every run: its loop heads lead from the start to the turn that ends it; every answer used was the kind waited for at its position; events received and queued are all that arrived, in order; at most one terminal is delivered and only last; only the last delivery can have been refused, and then the outcome says so; connections are at most three per event received plus three; no stream is used before an active read after its subscription; and it ends only where it stands at that outcome |
| TurnFollower.EndIsDecided | crates/satelle/src/direct-attached.rs:374-632 | where a run ended, no other outcome is possible and the next answer, if there is one, is not the kind waited for |
| TurnFollower.MissedEventsAreReadFor | crates/satelle/src/direct-attached.rs:456-506 | in every run, for every event dealt with: right after it came, exactly as many durable reads were used as it asks for, one if its sequence number is more than one above that of the last event on the same stream, and one if it is passed on and needs confirming |
| TurnFollower.MissedEventStopsTheRun | crates/satelle/src/direct-attached.rs:456-506 | and for the event a run ends with: no more reads than it asks for, and without the one for a missed event the run is left waiting for it |
| TurnLaws.EndedExactly | crates/satelle/src/direct-attached.rs:197-260 | a durable read ends the Turn if and only if it shows the first Turn of that name completed, blocked, failed or stopped, not behind the asked revision, with a log line at exactly its revision |
| TurnLaws.ActiveExactly | crates/satelle/src/direct-attached.rs:197-260 | it finds the Turn active if and only if it shows it starting or running, not behind the asked revision |
| TurnLaws.ErrorExactly | crates/satelle/src/direct-attached.rs:197-260 | every other read is an error, and its code says which: the read's own, a missing or stale Turn, one awaiting recovery, the log's own, or an end without its log line |
| TurnLaws.DeliversOneEnd | crates/satelle/src/direct-attached.rs:374-632 | over every run, each delivery before the last is of a kind that leaves the Turn open, and a run that finished ends with the kind named after the durable state, whose read has the log line |
| TurnLaws.EventsCameInOrder | crates/satelle/src/direct-attached.rs:417-446 | what counts as arrived: an arrival brings its event, a drain all that were there, in order, and nothing else brings any |
| TurnLaws.StreamGivenUpAfterThree | crates/satelle/src/direct-attached.rs:553-628 | in every run, it ends for a lost stream only when an answer ruled out another attempt or three attempts were made since the last event was taken up |
| TurnLaws.UnreachableIsRiddenOut | crates/satelle/src/direct-attached.rs:262-282 | in every run, away from the reads of an event, it gives up on an unreachable Host only after three reads of a new stream or three attempts to get one |
| TurnLaws.EndedReadStops | crates/satelle/src/direct-attached.rs:553-628 | in every stretch of a run away from the reads of an event, a read that shows the Turn over is the last answer used but for the drain of events already there |
| TurnFollower.FinishedMeansOneTerminal | crates/satelle/src/direct-attached.rs:399-410 | an Ok return delivered exactly one terminal, of the kind of the durable state it returns, whose revision is logged |
| TurnFollower.VerdictIsHighest | crates/satelle/src/direct-attached.rs:399-410 | a made-up terminal is at or above every relayed revision, given that a Turn's terminal revision is its largest |
| TurnFollower.OrderDecides | crates/satelle/src/direct-attached.rs:573-592 | for every active read: subscribing first makes every history's terminal commit come on the stream, reading first does not |
| TurnFollower.NoTerminalLostOnReconnect | crates/satelle/src/direct-attached.rs:553-592 | a stream the follower goes on with brings the terminal commit of every history that its reads show |
| TurnFollower.EveryStreamKeptBringsTheEnd | crates/satelle/src/direct-attached.rs:374-632 | in every run this holds of every stream subscribed, unless the run ended in the reads right after it |
| SelfUpdate.InstalledProgramRecovers | crates/satelle/src/self-update.rs:1399-1439 | from every consistent state the installed program's recovery succeeds and leaves one receipt, for exactly this executable, and nothing else |
| SelfUpdate.StaleProgramRecovers | crates/satelle/src/self-update.rs:1399-1439 | recovery by another version keeps consistency if and only if it has nothing to decide, which the receipts show beforehand |
| SelfUpdate.StaleRecoveryCanMislabel | crates/satelle/src/self-update.rs:1399-1439 | the disk that an update leaves when its backup stays is consistent, and recovery by the older version makes it wrong if and only if the versions differ |
| SelfUpdate.ConsistentKeepsAReceipt | crates/satelle/src/self-update.rs:1453-1502 | live and backup receipt are never both absent, and one of them describes the executable |
| SelfUpdate.Installation.constructor | crates/satelle/src/self-update.rs:1404-1409 | an installation as found on disk, before any operation |
| SelfUpdate.Installation.Recover | crates/satelle/src/self-update.rs:1399-1451 | for every failure and crash point: done means exactly what was decided, and consistency survives otherwise |
| SelfUpdate.Installation.SwapReceipts | crates/satelle/src/self-update.rs:1470-1483 | the two renames and their undoing keep the installation consistent for every failure and crash point |
| SelfUpdate.Installation.Replace | crates/satelle/src/self-update.rs:1453-1502 | for every failure and crash point the installation stays consistent; an error leaves the old executable, success the new one with its receipt and the backup only if its removal failed |
| SelfUpdate.Installation.Section | crates/satelle/src/self-update.rs:501-532 | one locked section; undisturbed it installs the target, and a program that is not installed changes nothing without a backup |
| SelfUpdate.Installation.StaleRecovery | crates/satelle/src/self-update.rs:501-532 | a complete update and then a complete recovery by the replaced version leave a wrong installation if and only if the backup could not be removed; that one failure suffices |
| SelfUpdate.Installation.Lifetime | crates/satelle/src/self-update.rs:430-535 | after any number of updates cut short anywhere, a completed recovery leaves a clean installation; undisturbed, all complete and the last target is installed |
| Version.ParseDisplay | crates/satelle/src/self-update.rs:1579-1626 | every version with 64-bit numbers and valid prerelease is recovered from its text |
| Version.DisplayParse | crates/satelle/src/self-update.rs:1579-1641 | every accepted text is the text of what it parses to |
| Version.AcceptedIffCanonical | crates/satelle/src/self-update.rs:313-316 | a text is accepted if and only if it is the canonical text of a well-formed version |
| Version.AcceptedAs | crates/satelle/src/self-update.rs:1579-1641 | a text is accepted as a version if and only if it is three printed 64-bit numbers with dots between them, then nothing, or a hyphen and dotted identifiers, each a printed number or letters, digits and hyphens that are not all digits |
| BatchPool.StepKeepsInv | crates/satelle/src/automation.rs:1282-1288 | every claim and every report keeps each slot held or reported at most once and is one of the steps that were left |
| BatchPool.EveryRunExecutesEachSlotOnce | crates/satelle/src/automation.rs:1272-1297 | in every interleaving no slot is executed twice, the counter stays within one claim per worker past the input, the length of a run is known, and a joined pool has one result per slot |
| BatchPool.PoolMakesProgress | crates/satelle/src/automation.rs:1282-1288 | no run is stuck before all workers are gone |
| BatchPool.NoWorkerNoResult | crates/satelle/src/automation.rs:174-181 | with a concurrency of zero all slots are filled if and only if there are none, so the lower limit of one is needed |
| BatchPool.FinishedRunIsComplete | crates/satelle/src/automation.rs:1293-1297 | the joined results hold every slot exactly once |
| BatchPool.OrderedResults | crates/satelle/src/automation.rs:1298-1303 | every result lands in its own slot and every slot is filled |
| BatchPool.Summarize | crates/satelle/src/automation.rs:1302-1310 | records are written in input order and the two counts add up to the total |
| UnifiedDiff.CommonPrefix | crates/satelle/src/config-repair.rs:273-277 | the longest common prefix: equal up to it and different after it |
| UnifiedDiff.FrameOf | crates/satelle/src/config-repair.rs:278-286 | prefix, suffix and context never overlap or leave the lines, context is three lines where there are three, and what lies between differs at both ends |
| UnifiedDiff.SharedEnds | crates/satelle/src/config-repair.rs:273-283 | both sides agree before the prefix and after the suffix |
| UnifiedDiff.PatchProducesAfter | crates/satelle/src/config-repair.rs:270-309 | patching the old lines with the hunk gives the new lines, and both counts in the header are right |
| UnifiedDiff.PatchReadsBack | crates/satelle/src/config-repair.rs:287-308 | the text of the diff determines its hunk |
| UnifiedDiff.PushLines | crates/satelle/src/config-repair.rs:296-298 | the line loop appends one marked line per text |
| UnifiedDiff.BuildDiff | crates/satelle/src/config-repair.rs:270-309 | the builder writes exactly the text of the hunk |
| UnifiedDiff.ShownDiffProducesAfter | crates/satelle/src/config-repair.rs:270-309 | the text shown, read back and applied, turns the old lines into the new ones |

## Left out

- MutualExclusion: assumes that 128-bit identities are drawn once and that a claim's random name is not drawn twice; the condition on accepted claims is exact for the invariant, while a run may break the invariant and still end without two owners.
- FollowTurn: a run with an initial connection error is the run whose first stream answer is a loss; recording and provider-smoke results are not carried.
- PatchReadsBack: lines and path must hold no line break, which splitting into lines guarantees for the lines.
- VerdictIsHighest: needs the stated cap only for the terminal made up after a clocked check; for all others FollowTurn proves it without.
- Windows lock script: it differs from the POSIX script and nothing is claimed of it.
- Lock file access: directory scans and claim reads are atomic snapshots, `rm -rf` and small writes are atomic, a signal whose trap lets the script go on is an abort, and symbolic links are never followed.
- Numbers in TOON: integers of any size and decimal fractions by their digits; which digits Rust prints for a given double is not modelled.
- Log rows: SQLite, timestamps' 64-bit range and the JSON form of entries; only the fields that select rows are kept.
- Host identity and session validation of a follow connection: one error of the reply.
- Replacing the running executable: one atomic operation that either happens or leaves the old file.
- The install lock directory: sections run one after another; a lock directory left by a crash has to be cleared before recovery runs.
- Network downloads, attestation checks, archive extraction and package-manager detection: foreign calls.
- Release selection, reports and exit codes of self-update: would only add easy members.
- The rest of the repository, such as the Host daemon's queue, transports and configuration: outside these models.
