# Verified model of the arena referee and its replay verifier

The arena plays two-seat games between two untrusted programs. A referee asks each for moves,
rules on them, and writes what decided the outcome into a hash-chained transcript. Anyone can
later hand that transcript to a verifier, which trusts none of it and derives everything again.
This project models both halves, the integrity layer under them, the byte channel to the
programs, and the custody of the engine's own source, and proves how they fit together.

Everything is stated for an abstract game (setup, legal moves, application, end, move bound, any
call of which may raise) and for arbitrary replies. SHA-256 and Ed25519 are parameters. Nothing
is assumed of the hash: where the original relies on collision resistance, a theorem says
"equal, or here are two different inputs with one hash".

## How it is built

| part | files |
|---|---|
| values, keys, UTF-8, canonical text and its inverse parser | `JsonValues`, `KeyOrder`, `Utf8`, `Canonical`, `JsonLoads`, `CanonicalInverse` |
| where the parser stops, and what it reads of a text cut short | `ParserSuffix`, `ParserCut` |
| the transcript: writer, loader, chain check | `Transcript`, `ChainCheck` |
| the referee as a function of the replies, and as the loops that write records | `Games`, `Scoring`, `Referee`, `MatchRunner` |
| the verifier as a function of the records, and as the loops that read them | `Replay`, `HeaderSeats`, `Verifier` |
| what a PASS means | `Lawful`, `Verdict`, `Endings` |
| what a run leaves, and which runs pass | `Adjudication`, `RunShape`, `LiveScore`, `RunLawful`, `Completeness`, `RunVerdict`, `GameContract`, `Noninterference`, `VoidingReplies`, `Reproduction` |
| signed identity | `Base64`, `Passport`, `IdentityBinding` |
| the wrapper of the generated verifier | `Preflight`, `LoaderAgreement`, `WrapperRuns` |
| source snapshots | `SourcePaths`, `DirectoryWalk`, `PathOrder`, `SourceTrie`, `WalkOrder`, `SourceCustody`, `SnapshotDigest`, `BlobTable` |
| the byte pump of an entrant | `LineStream`, `BytePump` |
| cleanup after a crash | `CrashCustody` |
| concrete runs that meet the hypotheses, runs that show the limits, and a source map that does | `Example`, `SkippedSnapshot` |

`dafny verify dfyconfig.toml` checks the whole project. Code that updates objects step by step is
modelled by classes and loops (`TranscriptWriter`, `Entrant`, `Custody`, the match runner, the
replay loop, the scans); each is proved equal to a function of its inputs, and the theorems are
about those functions.

## What turned out not to hold as one might expect

* A run that ends on a terminal position or an illegal move does not always pass replay. It
  passes exactly when its move records carry an integer seat and its ending is replayable: an
  illegal move needs a non-empty reason and a ruling that reproduces on the move as recorded, and
  an unencodable move is recorded as null. `RunVerdict.PassIffReplayable` gives the exact
  condition, `GameContract.RulesDecidedRunsPass` what a game must promise to meet it always, and
  `Example.UnexplainedRejectionFails` a run that does not.
* A run that stops at the move bound records the reason "unfinished", although the variable the
  loop kept says "move_bound_exceeded"; every other live outcome is the committed one.
  `LiveScore.LiveIsRecomputed` is the general statement, `Example.BoundRunIsUnfinished` such a run.
* What an entrant says besides readiness and moves can decide a result. `_safe` catches the
  non-canonical only: a message without floats that holds an unpaired surrogate, in any field at
  all, raises when it is recorded, and the fault boundary voids the match. So a seat that stands to
  lose can void any match with the very move it was going to make, and the void passes replay
  (`VoidingReplies.OneNoteVoids`, with the input in `VoidingReplies.LoserVoids`). Self-reports stay
  out of the projection, the outcome and the score exactly as long as, wherever the two runs come
  to, both messages can be recorded or neither can (`Noninterference.SelfReportsMatterIff`).
* A seat named -1 is asked like seat 1, and its forfeit is won by "seat 2", decisively and for no
  points (`LiveScore.SeatTwoWinsNothing`). Points and decisiveness agree exactly when the winner is
  nobody, 0 or 1 (`Endings.PointsFollowWinner`).
* An entrant's own message can turn the effective verdict to FAIL although replay says PASS: the
  wrapper looks for the key `agent_passport` at any depth of any record, and messages are recorded
  whole. `WrapperRuns.RunIsProper` shows this is the only way for the shape check, and
  `Example.BoastingLosesTrust` is such a run.
* The order of engine sources is the walk order (files of a directory before its
  subdirectories), not "sorted by path" as the docstring of `engine_files` says: a walk is sorted
  by the text of its paths exactly when the two orders agree where any two of them first differ
  (`PathOrder.WalkSortedIff`), and the engine's own walk is not (`PathOrder.EngineWalkIsNotSorted`).
* The order of a snapshot agrees with the engine's walk exactly when no path goes through `__pycache__`, `.git` or
  `.pytest_cache`, which path validation does not rule out (`WalkOrder.OrderIsEngineWalk`);
  `SkippedSnapshot.HiddenSourceIsUnlisted` is a source map the builder accepts and the engine
  unpacked from it lists differently.
* The cleanup of an abandoned run removes both output paths whether or not this run created them,
  so a file that another process puts there between the check and the exclusive open is removed
  too, exactly when its deletion works (`CrashCustody.ForeignFilesAreRemoved`, with the input in
  `CrashCustody.ForeignTranscriptIsDeleted`).
* The proof scope of a passport is compared with Python equality, so 1 and 0 stand for true and
  false in it. An accepted passport carries the fixed statement exactly when no value in its scope
  is an int (`Passport.FixedStatementIff`); `Passport.LooseScopeIsAccepted` is one that does not.

## Model

| member | source | states |
|---|---|---|
| JsonValues.ExactEqualIsIdentity | arena/replay.py:55-67 | on values that can be hashed, the verifier's equality is identity: it never confuses a bool with an int and overlooks nothing |
| KeyOrder.SortedUnique | arena/canonical.py:49-54 | sorting keys depends on the set of keys alone |
| Utf8.EncodeInjective | arena/canonical.py:49-54 | no two texts have one UTF-8 form |
| CanonicalInverse.LoadsInvertsText | arena/canonical.py:25-54 | parsing the canonical text of any float-free value gives back that value |
| CanonicalInverse.CanonicalBytesInjective | arena/canonical.py:49-59 | two encodable values have equal canonical bytes if and only if they are equal |
| CanonicalInverse.ObjectTextIsBraced | arena/canonical.py:49-54 | the text of an object begins and ends with its braces |
| CanonicalInverse.SeparatorNeverOccurs | arena/canonical.py:17-18 | neither the separator byte nor a line break ever occurs in canonical output |
| CanonicalInverse.PreimageDeterminesRecord | arena/canonical.py:62-72 | what chain hashes determines both the previous hash and the record |
| CanonicalInverse.EqualDigestsMeanEqualValues | arena/canonical.py:57-59 | equal digests mean equal values, or exhibit a collision |
| Transcript.TranscriptWriter.constructor | arena/transcript.py:35-48 | a new writer is valid, at the genesis hash, with nothing recorded |
| Transcript.TranscriptWriter.Append | arena/transcript.py:50-64 | commits one record that extends the chain and the file; fails exactly on a body without canonical bytes, and then changes nothing |
| Transcript.NextRecordChains | arena/transcript.py:50-64 | a record made from the head extends a chain to a chain |
| Transcript.FileTextAppend | arena/transcript.py:55-58 | the file grows by one line a record |
| Transcript.Load | arena/transcript.py:86-102 | one object per non-blank line in order, or the first bad line and its fault |
| Transcript.WrittenFileLoads | arena/transcript.py:50-102 | loading what any sequence of appends wrote returns exactly the records, one per line |
| ChainCheck.VerifyChain | arena/transcript.py:113-155 | the first record objected to and why, if any |
| ChainCheck.NoObjectionIsAccepted | arena/transcript.py:124-155 | there is no objection if and only if every record is acceptable where it stands |
| ChainCheck.AcceptedIsChained | arena/transcript.py:113-155 | every accepted list of hostile values is the list of a proper chain, with no other content |
| ChainCheck.WrittenRecordsAreAccepted | arena/transcript.py:50-155 | a writer's records are accepted if and only if every kind is non-empty |
| ChainCheck.HeadCommits | arena/transcript.py:113-159 | two chains with one head are equal, or hold two colliding records, or one is empty and the genesis value was hit |
| ChainCheck.AcceptedHeadCommits | arena/transcript.py:113-159 | the same for any two value lists that verify_chain accepts |
| Scoring.RefereeProjection | arena/scoring.py:29-41 | every record stripped of entrant-authored fields, in order, or the exception of the first that cannot be |
| Verdict.ProjectedBodies | arena/scoring.py:29-41 | of every kind but the header, the projection keeps each body in order, stripped |
| Endings.PointsFollowWinner | arena/scoring.py:66-110 | one point exactly when the winner is seat 0 or 1, decisive exactly when there is a winner; so the points of a decisive score sum to one, and of any other to zero, exactly when the winner is nobody, 0 or 1 |
| Endings.ScoreReads | arena/scoring.py:52-110 | what a score was read from: a fault first, then the first forfeit, then the last state |
| MatchRunner.Handshake | arena/match.py:383-425 | the loop over both seats records and decides what the model of the handshake says |
| MatchRunner.Play | arena/match.py:438-536 | the play loop with its fault boundary records and decides what the model of play says, and terminates |
| MatchRunner.ScoreRecords | arena/match.py:543-563 | the score of the records so far, or the void and its error record |
| MatchRunner.Prepare | arena/match.py:315-376 | the header and the opening position, or the exception that ends the run |
| MatchRunner.RunMatch | arena/match.py:224-582 | the whole imperative run writes a chain whose entries, outcome and score are those of the run as a function of the replies |
| Adjudication.PlayHasShape | arena/match.py:438-536 | play records accepted moves each followed by a state, then at most one ending, and never more moves than the bound leaves |
| RunShape.RunHasShape | arena/match.py:316-575 | every run leaves a header, a handshake that stops at the first seat not ready, the opening state, play within the move bound, and one result |
| Adjudication.PlaySummary | arena/match.py:438-536 | whatever the replies, the entries of play record the outcome decided live |
| LiveScore.SceneSummary | arena/match.py:315-536 | the same from the header on, over all endings |
| LiveScore.ResultLeavesScore | arena/scoring.py:52-60 | appending the result never changes the score |
| LiveScore.LiveIsRecomputed | arena/match.py:378-575 | scoring never faults on a run, the committed winner is the one decided live, with the same reason except at the bound, and moves stay within the bound |
| LiveScore.SeatTwoWinsNothing | arena/scoring.py:66-90 | a forfeit of a seat named -1 scores as decisive, won by 2, with no points |
| Verifier.ReplayRecords | arena/replay.py:395-513 | the replay loop, stopping at the first exception, is the fold over the records |
| Verifier.VerifyHeaderIdentity | arena/replay.py:140-269 | the loop over seats gives the status of the header |
| HeaderSeats.StatusIffHolds | arena/replay.py:140-269 | on any header, identity is not invalid if and only if both seats stand in order, each passport is valid and bound to its row, and no agent holds two seats |
| Verifier.Verify | arena/replay.py:272-743 | on any text at all, a report |
| Lawful.CleanIffLawful | arena/replay.py:395-530 | the replay loop finds no fault if and only if every record is lawful where it stands, judged against the position its predecessors reach |
| Lawful.Collected | arena/replay.py:497-505 | the loop gathers exactly the forfeits, aborts and engine errors |
| Verdict.PassIsEveryCheck | arena/replay.py:694-711 | PASS if and only if every single check holds |
| Verdict.LawfulIsPlay | arena/replay.py:413-530 | a lawful record list is a play: each accepted move legal at its position, by the seat to move, none after the end, each state the position reached |
| Verdict.BoundIsEqual | arena/replay.py:423-449 | a state whose digest matched is the computed one, or exhibits a collision |
| Verdict.PassIsPlay | arena/replay.py:413-530 | a PASS is a play from the recorded seed, and only an engine error can leave an accepted move without its state |
| Endings.IllegalMoveIsRuled | arena/replay.py:81-137 | a replayable forfeit is preceded by a move of that seat that the game itself rejects at that position |
| Endings.WinnerIsRuled | arena/replay.py:532-623 | a PASS with a winner has one the game declares at the final position, or the opponent of a seat whose last move the game rejects there |
| Endings.NoWinnerIsRuled | arena/replay.py:532-711 | a PASS without a winner and without an engine error has a game that declares a draw, or no end, at the last recorded state, which is the final position or collides with it |
| Endings.EndingsAreExclusive | arena/replay.py:559-644 | no PASS holds an abort, none both a forfeit and an engine error, and one with an engine error is an exact zero-point void |
| Verifier.PassRestsOnChain | arena/replay.py:300-323 | a PASS on any text rests on an accepted chain that carries all its content |
| Verifier.PassedTextIsPlay | arena/replay.py:272-711 | soundness on hostile text: the accepted moves are a play, its states the positions up to the last unless an engine error follows, its winner or its want of one ruled, its endings exclusive, its passports valid, bound to their rows and of distinct agents |
| RunLawful.PlayIsLawful | arena/match.py:438-536 | play recorded from a lawful position is lawful if and only if its moves name seats and the ruling that ended it reproduces |
| Completeness.OpenedIsWellPlayed | arena/match.py:383-536 | the entries of any run are well formed for replay, from the handshake on |
| Completeness.EndingDecidesChecks | arena/replay.py:532-644 | the checks on forfeits, aborts and errors pass if and only if the ending is replayable |
| RunVerdict.PassIffReplayable | arena/replay.py:413-711 | exact classification: a run passes the verifier of the same engine if and only if its moves name seats and its ending is replayable |
| GameContract.PlayKeepsContract | arena/match.py:438-536 | for a game that names seats and rejects null with a reason, play keeps both conditions |
| GameContract.RulesDecidedRunsPass | arena/replay.py:413-565 | for such a game every terminal or illegal-move run passes, every runtime forfeit or exhausted bound fails, and an engine fault passes exactly when it is replayable |
| Verifier.WrittenFileIsExamined | arena/replay.py:300-323 | the file a writer leaves is judged on exactly the entries written |
| Verifier.FilePassesIffReplayable | arena/replay.py:272-711 | end to end: the text of a run passes if and only if the run meets the condition |
| Noninterference.SelfReportsMatterIff | arena/match.py:402-528 | for entrants that get ready and move alike: projections agree, and with them ending, outcome and score, if and only if at every hello and ruled turn come to both messages can be recorded or neither can; otherwise one of the runs is void for that |
| Noninterference.PlaysAlike | arena/match.py:448-536 | under that condition play makes the same states, rulings and ending |
| Noninterference.PlaysApart | arena/match.py:448-536 | without it the records of the two plays differ in kind where the replies first do, and one play is void |
| Noninterference.SelfReportsDoNotMatter | arena/scoring.py:20-41 | among messages that can be recorded: entrants that get ready and move alike get the same projection, ending, outcome and score, whatever else they say |
| VoidingReplies.UnrecordableVoids | arena/match.py:484-536 | in every game, a reply that is ruled on and cannot be recorded voids the match, whatever its move |
| VoidingReplies.OneNoteVoids | arena/match.py:664-674 | at any turn of any run that comes to a ruling on a reply without floats, the same reply with one unpaired surrogate in a field no rule reads leaves nobody the winner; and the run passes replay if the game keeps its contract |
| VoidingReplies.LoserVoids | arena/match.py:654-674 | the input: a seat that loses by an illegal move, and the same move with a note, where nobody wins and replay says PASS |
| Reproduction.EntriesDetermineChain | arena/transcript.py:50-64 | two chains that record the same entries are the same chain |
| Reproduction.ChainUpHolds | arena/transcript.py:50-64 | entries that have canonical bytes can be committed one by one, and the chain records just them |
| Reproduction.RunIsEncodable | arena/match.py:224-582 | everything any run records has canonical bytes, so nothing it appends can fail |
| Reproduction.RerunReproducesHead | arena/match.py:99-107 | a re-run on the same replies reproduces the records, the file and the chain head |
| Base64.DecodeInvertsEncode | arena/passport.py:120-131 | decoding undoes encoding |
| Base64.StrictIsCanonical | arena/passport.py:120-131 | the strict reader accepts exactly the canonical encodings of n-byte strings |
| Passport.SignedVerifies | arena/passport.py:199-286 | whatever can be declared can be signed, and is accepted and returned unchanged |
| Passport.VerifiedIsUnchanged | arena/passport.py:224-286 | what verify_passport accepts it returns unchanged |
| Passport.SignedScopeVerifies | arena/passport.py:208-286 | a declaration signed over any proof scope is accepted if and only if Python finds that scope equal to the fixed statement, and comes back unchanged |
| Passport.FixedStatementIff | arena/passport.py:240-251 | an accepted passport carries the fixed statement itself if and only if no value in its scope is an int |
| Passport.LooseScopeIsAccepted | arena/passport.py:60-71 | a signed passport whose scope is not the fixed statement, accepted and returned as it is |
| Passport.EqualVersionsMeanEqualDeclarations | arena/passport.py:188-196 | equal versionIds mean equal declarations, or a collision of their signing bytes |
| Passport.EqualAgentsMeanEqualKeys | arena/passport.py:154-157 | equal agentIds mean equal public keys, or a collision |
| IdentityBinding.PreflightDecidesIdentity | arena/match.py:58-96 | the runner's checks before play pass if and only if the verifier finds the header's identities valid |
| IdentityBinding.SeatRowIdentity | arena/replay.py:183-258 | a seat row is signed, legacy or invalid by its passport, its binding to the row and the agents seen before |
| Preflight.ContainsObjectKey | bin/build_verifier.py:516-531 | the loop with an explicit stack is the recursive scan, for any order of dict values |
| Preflight.ScanDecidesMention | bin/build_verifier.py:516-531 | the scan agrees with "the key occurs at some depth", refuses only beyond the node limit, and says no exactly of a value within it that nowhere holds the key |
| Preflight.InspectTranscript | bin/build_verifier.py:534-591 | the digest, the signed flag and the shape it reports on any text, those of an unclean inspection included |
| Preflight.ReadingIsTrue | bin/build_verifier.py:539-562 | what is read to the end is the rows of the file and whether one holds the key; a refusal leaves the flag true of the rows before it, and needs a line that does not parse or a row beyond the node limit |
| Preflight.CleanIffProper | bin/build_verifier.py:563-591 | an inspection is clean if and only if every line parses, no scan is refused and the rows have the proper shape, and then it tells the truth about the whole file |
| Preflight.EffectiveVerdict | bin/build_verifier.py:619-650 | an effective PASS exactly of the trusted transcripts whose scan is not refused, hence of exactly the trusted ones among all within the node limit |
| Preflight.NoSignedDowngrade | bin/build_verifier.py:580-591 | an effective PASS on a transcript that mentions a passport anywhere has one in an entrant row, from an engine that contains the passport module |
| LoaderAgreement.ObjectLineStrips | bin/build_verifier.py:543-562 | a line that parses to an object parses to the same object once stripped |
| LoaderAgreement.LoaderReadsSameRows | arena/transcript.py:86-102 | on any text whose rows the wrapper reads as objects, the engine loads exactly those rows |
| LoaderAgreement.MentionedPassportIsVerified | bin/build_verifier.py:619-650 | no signed downgrade, said of the records the engine judged: the passport the wrapper asked for is one that engine found valid and bound to its row |
| WrapperRuns.WrittenFileRows | bin/build_verifier.py:543-562 | the wrapper reads a written file as the records written |
| WrapperRuns.RunIsProper | bin/build_verifier.py:563-589 | the file of a run has the shape asked for unless an unsigned match mentions a passport somewhere |
| WrapperRuns.RunIsTrustedIff | bin/build_verifier.py:619-650 | the exact condition for an effective PASS on the file of a run |
| Example.SomeRunPasses | arena/match.py:224-582 | the hypotheses of the classification can all be met: a run that passes |
| Example.UnexplainedRejectionFails | arena/replay.py:114-115 | a run that ends on an illegal move rejected without a reason fails replay |
| Example.BoundRunIsUnfinished | arena/match.py:443-446 | a run at the move bound: "move_bound_exceeded" while playing, "unfinished" in the result, and a FAIL at replay |
| Example.BoastingLosesTrust | bin/build_verifier.py:583-589 | a concrete run and bundle: the file passes replay and is not trusted, for one key in an entrant's message |
| SourcePaths.PartsOfJoin | bin/build_verifier.py:117 | splitting undoes joining |
| SourcePaths.FoldOfJoin | bin/build_verifier.py:448 | folding a path folds its parts |
| SourcePaths.ValidStaysInside | bin/build_verifier.py:491-495 | a valid path resolves below the root, to the place its parts spell |
| DirectoryWalk.EngineFiles | arena/integrity.py:32-44 | the recursive walk lists Python files by name, then kept subdirectories by name |
| DirectoryWalk.WalkInOrder | arena/integrity.py:36-43 | a walk is strictly ascending in the walk order |
| DirectoryWalk.WalkLists | arena/integrity.py:36-43 | a walk lists exactly what the tree holds |
| DirectoryWalk.PrunedHolds | arena/integrity.py:37-40 | passing over skipped directories and other files hides exactly those |
| DirectoryWalk.InOrderUnique | arena/integrity.py:36-43 | a listing in order is determined by its members |
| PathOrder.AgreeIff | arena/integrity.py:32-44 | two paths are listed in the order of their texts if and only if the orders agree at the part where they first differ |
| PathOrder.WalkSortedIff | arena/integrity.py:32-44 | a walk is sorted by path if and only if that is so of every two paths in it |
| PathOrder.EngineWalkIsNotSorted | arena/integrity.py:33 | the input: integrity.py is listed before games/__init__.py |
| SourceTrie.InsertFinds | bin/build_verifier.py:138-153 | planting a path stores it at its place and moves nothing else |
| SourceTrie.CompatibleInserts | bin/build_verifier.py:142-152 | a path that collides with nothing stored can be planted |
| SourceTrie.InsertedIsCompatible | bin/build_verifier.py:142-152 | a planted path collides with nothing stored |
| WalkOrder.EngineWalkOrder | bin/build_verifier.py:135-168 | the building loop and the nested walk give the order, or the collision error |
| WalkOrder.WalkNode | bin/build_verifier.py:157-165 | the nested walk lists files by name, then subdirectories by name |
| WalkOrder.OrderedIsPermutation | bin/build_verifier.py:135-168 | the order is a permutation in walk order, given exactly to valid paths no two of which collide |
| WalkOrder.InputOrderIsInvisible | bin/build_verifier.py:135-168 | neither the order nor the refusal depends on the order of the input |
| WalkOrder.OrderIsEngineWalk | arena/integrity.py:32-44 | it equals the engine's walk of the unpacked files if and only if no path goes through a skipped directory |
| SourceCustody.DecodeSourceMap | bin/build_verifier.py:171-194 | the files of a source map in walk order, or the snapshot error |
| SourceCustody.DecodeSources | bin/build_verifier.py:434-484 | the files in dict order, accepted exactly under the generated reader's own rules |
| SourceCustody.CompatibleIffApart | bin/build_verifier.py:138-153 | the trie's collision rule is the flat rule plus like spelling of shared directories |
| SourceCustody.AcceptedIsUnpackable | bin/build_verifier.py:434-484 | whatever the builder accepts the generated verifier accepts, and the exact difference between the two |
| SourceCustody.UnpacksApart | bin/build_verifier.py:487-501 | whatever the generated reader accepts unpacks inside the root, distinct after case folding, none inside another |
| SnapshotDigest.UnpackedListsItself | bin/build_verifier.py:231-254 | the unpacked engine lists itself as its snapshot does if and only if no source is skipped |
| SnapshotDigest.SnapshotDigestIsEngineDigest | arena/integrity.py:47-49 | the digest that names a snapshot is the digest its unpacked engine computes, under that condition; else equal digests exhibit a collision |
| SkippedSnapshot.HiddenSourceIsUnlisted | bin/build_verifier.py:110-132 | a concrete source map with a file below .git: accepted by the builder and the reader, and listed differently by the engine unpacked from it |
| BlobTable.GatherBlobs | bin/build_verifier.py:345-351 | every source is found under its identifier and nothing else is stored, or two encodings collide |
| BlobTable.ChunksAdjoin | bin/build_verifier.py:355-359 | a blob split over lines reads back whole |
| LineStream.SegmentsJoin | arena/sandbox.py:221-234 | reading a stream in two parts gives the same lines but for the one the cut falls in |
| BytePump.CheckedLimits | arena/sandbox.py:99-121 | limits are accepted exactly when positive, integer and in order |
| BytePump.Entrant.PumpStdout | arena/sandbox.py:205-239 | for any reads and either ending, the queue gains exactly what the specification says, and the line being assembled stays bounded |
| BytePump.Entrant.PumpStderr | arena/sandbox.py:241-252 | the buffer is the first bytes of the stream, up to the limit |
| BytePump.ChunkingIsInvisible | arena/sandbox.py:205-239 | within the total limit the queue holds the non-blank lines up to the first overlong one, then at most one error and one eof, and nothing else, however the stream was cut |
| BytePump.CutShortIsAPrefix | arena/sandbox.py:214-239 | over the total limit or on a torn pipe it holds a prefix of those lines and nothing but lines, then one error and eof |
| CrashCustody.Custody.TryBlock | arena/match.py:311-592 | the first failing step decides the exception, what is constructed, what is opened and whether the result is committed |
| CrashCustody.Custody.Run | arena/match.py:300-635 | existing output is refused and left alone; otherwise disk, commitment, attempts and the exception raised are those that the faults and the disk met by the exclusive opens determine |
| CrashCustody.Custody.Finally | arena/match.py:593-635 | the whole plan is attempted in order whatever fails; what is not there is not unlinked, an unlink that returns has removed, and scratch may stay without an error |
| CrashCustody.TranscriptSurvivesIffCommitted | arena/match.py:619-626 | a result is committed exactly if no step up to its append fails, and if deletion works the transcript and sidecar are there afterwards exactly then |
| CrashCustody.EveryEntrantIsClosed | arena/match.py:605-608 | every entrant constructed before the failure gets a close attempt, whatever fails |
| CrashCustody.RaisedIsFirst | arena/match.py:593-635 | the first cleanup error is raised, or without one the exception of the first step that failed |
| CrashCustody.ForeignFilesAreRemoved | arena/match.py:300-314 | a file another process put in the way after the check is removed if and only if its deletion works, and the run never owns it |
| CrashCustody.ForeignTranscriptIsDeleted | arena/match.py:619-626 | the input that shows it: nothing fails but the exclusive open, and the foreign transcript is gone |
| CrashCustody.FlawlessRunCommits | arena/match.py:311-592 | with no fault and nothing in the way the result is committed, both entrants are closed and nothing is raised |
| CrashCustody.ScratchStaysInSilence | arena/match.py:627-628 | the input: a scratch directory that stays raises nothing |
| CrashCustody.NothingToUnlink | arena/match.py:619-626 | the input: unlinking is attempted and raises nothing where no file was ever made |
| CrashCustody.FirstErrorIsFirst | arena/match.py:597-603 | the error raised is that of an action before which nothing failed |

## Left out

- The concrete games; any deterministic game is a parameter, and its calls may raise.
- Processes, threads, timeouts, the writer thread and signals: an entrant is an oracle of replies and failures. The queue of the pump is modelled by everything ever put on it, without a concurrent reader.
- The sidecar file, latency, fsync, scratch directories, symlink and permission checks; an append either happens whole or fails before it changes the writer. Cleanup after failing steps is modelled on its own in `CrashCustody`.
- The admission, isolation and reviewed-source tables, which are exact-equality checks: their verdicts are values and predicates of the engine.
- SHA-256 and Ed25519 themselves, UTF-8 decoding with replacement, Unicode categories and normalisation: parameters.
- Interpreter limits of `json.loads` (recursion depth, length of integers), and floats beyond their text. The order in which a dict keeps its keys is a parameter wherever code reads it.
- Strings are sequences of Unicode scalar values. A value with an unpaired surrogate is kept apart as `Broken`; an object key with one is reported as malformed JSON.
- Where the seed is null the original draws entropy; setup is a function of the seed here.
- The texts of error messages and of the report's prose lists, and the request an entrant is sent.
- The `seq` field and marker of a projected record, which no rule reads.
- `_load_snapshot`'s file checks, the default-digest bookkeeping of `source_sets`, and the download in the generated wrapper.
- `Transcript.Load` reads text whose byte decoding has already succeeded.
- `SourceTrie.InsertFinds`: the nested dicts are modelled as values rebuilt along the path rather than updated in place, so sharing between them is not captured.
- `Passport.SignedVerifies`: assumes of the signature scheme that what a key signs its public half accepts.
