# A verified model of the setup ceremony

The ceremony collects, one contributor after another, contributions to the public parameters of
an encrypted mempool. A server keeps a queue, hands every contributor the latest accepted
contribution, takes the new one and verifies it against it. This project models the server, the
algebra of the contributions and the bytes they are stored in, and proves that every state the
server can reach holds a verified, structured, hash-linked chain of contributions.

Check the project with `dafny verify dfyconfig.toml` (Dafny 4.11).

## How it is built

**The server as a state machine** (`Ceremony`, on top of `ContributorsDb` and
`ContributionFiles`). `Ceremony.PlanOf` is what each handler decides under the mutex from the
table it reads, with `CheckCorrectState`, `PlanStatus`, `PlanProgress`, `PlanJoin` and `PlanTick`
for its branches: a list of storage operations and an answer. `Ceremony.Next` is one event: a
request takes the mutex (`Begin`), its next storage operation is made at a later time
(`Perform`) or fails and releases the mutex (`Abort`); meanwhile clients may write parts
(`PutPart`), and verification jobs, which do not hold the mutex while they work, choose the
previous contribution, read the two files, judge, and finish or kick whoever is current. A run is
a sequence of events, in any order. `CeremonyInvariant` states what holds in every state,
`CeremonySteps`, `CeremonyEvents` and `CeremonyTasks` prove that every event keeps it, and
`CeremonySafety`, `QueueLaws`, `QueueRuns`, `TimedProgress`, `WaitingTime`,
`PromptHeads`, `HonestTurn` and `HonestUpload` draw the conclusions.
`Server.ServerState` is the code in place, with the table and the bucket as objects it updates;
every method is proved to be a run of the machine that carries out all that was planned unless an
operation of the storage fails, so the conclusions hold of it. `ServerOutcomes` says what each answer
means in the fields of the rows.

**The algebra** (`PrimeField` to `Aptos`, then `Chains` and `Contributions`). Group elements are
their discrete logarithms modulo a prime `p`, a pairing is a product, hashing to the curve is any
function. The verifier's random choices are one sequence of field elements, the tape, in the
order in which they are drawn. `Batching` treats the nesting of random combinations as a tree;
`Refinement` and the `BatchedValue` lemmas show that the equation the verifier builds is the
value of that tree. `MultipairingEquations.WithSharedG2s`, `ScalarMul`, `Combine` and
`CompactWith`, and `FirstContribution`, `Generate` and `Check` of `PowersOfTau`, `Fptx`,
`HidingKzg` and `Aptos` follow the source function by function.

**The bytes** (`ParallelArkSerde`, `SerdeLaws`, `Upload`, `Truncate`). The encoders and decoders
work on 64-bit lengths that wrap around, as the release build does. The element codec is a
parameter with one positive size.

`EndToEnd` puts the three together: the server's verdict is `Contributions.Verify` on parsed
files.

## Where the code does less than one might expect

- The list of earlier hashes of the first contribution is never looked at
  (`Contributions.FirstListIsFree`); all later ones are checked. The contributor named in a
  contribution is never looked at either (`Contributions.ContributorIsFree`), so the names in the
  lists are what the uploaders wrote; the hashes still pin down the contributions
  (`Contributions.LastDetermines`).
- A listed hash need not be the one that was announced, when a file is not the encoding of what it
  parses to (`EndToEnd.ListedMayDiffer`); otherwise it is (`EndToEnd.ListedAreAnnounced`).
- The verifier panics instead of refusing when a largest power is zero (`Aptos.PanicsIff`), which
  needs a batch size or a hiding-KZG power of zero; the params accept a batch size of zero next to
  the powers of two (`Fptx.NewParams`).
- The nested decoder does not return every vector it is given
  (`SerdeLaws.NestedRoundTrip`), and both decoders take inputs that no encoder produces
  (`SerdeLaws.DecodedReencodes`, `EmptyRowsReencode`, `FlatReencodes`, with an input for each in
  `WrappedLengthAccepted`, `UnreadLengthAccepted` and `PaddingAccepted`); structured contributions
  are not affected (`EndToEnd.StructuredRoundTrip`).
- The flat decoder panics on a count without any bytes (`SerdeLaws.FlatPanicsIff`), the nested one
  on counts that cannot be allocated and on rows that end before they begin
  (`SerdeLaws.NestedPanicsIff`).
- Truncating leaves the list of hashes as it is, so truncated contributions are accepted against
  each other only when nothing was cut, or by a collision of the hash
  (`Truncate.TruncatedListIffUncut`, `TruncatedVerdict`).
- There is no time limit on the verification itself: the bound of `TimedProgress` ends with the
  upload, and no number of ticks ends a verification (`TimedProgress.VerifyingOutlastsTicks`). With
  a limit there is a bound on every wait (`WaitingTime.WaitsEnd`).
- `combine` is documented to be zero exactly when both equations are; by `ExactBatching` that
  holds up to one scalar in `p`.

## Model

| member | source | states |
|---|---|---|
| EndToEnd.FinishedChain | server/src/handlers.rs:180-235 | After any run of the server, over all interleavings of requests, ticks, uploads, verification jobs and failures, the finished contributors in listing order hold parsed contributions that were each accepted, on the random choices drawn for it, against the one before (the first against none), each file having the hash its contributor announced |
| EndToEnd.CeremonyResult | common/src/contribution.rs:140-180 | After any run the last finished contribution lists the hashes of all before it, and unless a random choice of the verifier was a bad one, its tau, every alpha and xi are the products of one secret for each finished contributor, the secret that made their proof of knowledge; if parsing yields field elements, at most 4/p of the random choices are bad for each of them |
| CeremonySafety.AcceptedChain | server/src/store/contributors_db/mod.rs:82-98 | The same about the bytes: for every list that the query for the finished contributors may return, each stored file was accepted, on the random choices drawn for it, against the file now stored for the contributor listed before |
| CeremonySafety.HistoryIsList | server/src/store/contributors_db/mod.rs:82-89 | In every reachable state there is such a list |
| CeremonySafety.ListIsHistory | server/src/store/contributors_db/mod.rs:82-89 | The listing by finish time is the order in which the contributions were accepted; there is only one such list |
| CeremonySafety.FinishedForever | server/src/store/contribution_files.rs:99-135 | In every run a finished contributor stays finished, with the same hash, finish time and file, byte for byte |
| CeremonyTasks.RunKeeps | server/src/handlers.rs:16-312 | The invariant of the server (rows, queue, pending operations, jobs, files and history) holds after every run |
| CeremonyTasks.NextKeeps | server/src/handlers.rs:35-312 | Every single event keeps it: taking the mutex, each storage operation of a handler, its failure, an uploaded part, and each step of a verification job |
| CeremonyTasks.TaskConcludesItsOwn | server/src/handlers.rs:195-213 | When a job ends, the current contributor is the one the job was started for, still being verified with the announced hash, and no other job is outstanding; so it finishes or kicks its own contributor and the expectation that somebody is current holds |
| CeremonyTasks.LatestIsLast | server/src/store/contributors_db/mod.rs:91-98 | The most recent finished contributor is the last one accepted |
| CeremonySafety.DownloadedIsVerifiedAgainst | server/src/handlers.rs:82-106 | Throughout one turn at the head, the contributor whose file is offered for download, and its bytes, are those the verification job uses as the previous contribution |
| CeremonySafety.TurnHistory | server/src/handlers.rs:225-234 | Nothing is accepted while the same contributor stays at the head |
| CeremonySafety.PreviousFileExists | server/src/store/contribution_files.rs:90-97 | The file of the most recent finished contributor is always there, so no status answer fails for want of it |
| HonestTurn.DeservingIsFinished | server/src/verification_job.rs:19-70 | If the composed file parses, has the announced hash and is accepted on every random choice, then in every run without a failing operation of the job the contributor is still being verified or finished: nothing else can get them kicked |
| HonestTurn.EffectSparesVerifying | server/src/handlers.rs:246-263 | No operation that any handler may still make touches the contributor being verified or their files |
| EndToEnd.HonestUploadSucceeds | server/src/handlers.rs:180-194 | A contributor who builds with nonzero secrets on what was offered at the head, and whose slices are in the bucket when their last progress message composes them, is from then on about to be verified, being verified or finished in every run, whatever others send or upload, unless an operation of this upload or of its job fails |
| HonestUpload.ClosedIsFinished | server/src/store/contribution_files.rs:117-135 | From the composed file on, no interleaving but a failure of that upload or job keeps a deserving contributor from being verified or finished |
| HonestUpload.NextClosing | server/src/store/contribution_files.rs:117-135 | While an upload is composed and its parts are deleted, no event but its own failure takes it anywhere but to the next deletion or to the verification |
| EndToEnd.DownloadParses | client/src/contribute.rs:287-292 | What a contributor downloads as the previous contribution parses, and there is one exactly when somebody has finished |
| EndToEnd.ComposedUploadHash | server/src/verification_job.rs:28-34 | The slices of the client, composed by the server, have the hash of the bytes the client hashed |
| CeremonySteps.CheckPassesIff | server/src/handlers.rs:121-142 | `check_correct_state` lets through exactly the queued head in the expected step, although `pos` is 0 for every row that is not queued; it answers GONE exactly to the kicked and to those waiting behind the head; its `expect` never fails |
| CeremonySteps.PlanHolds | server/src/handlers.rs:61-119 | Every operation that a handler sets out to make is allowed by the invariant; no request runs into a failed expectation, and the "DB error" answer of the status request is unreachable |
| QueueLaws.MoveKeepsAll | server/src/store/contributors_db/types.rs:250-378 | Every update the server makes keeps the rows in order: a later timestamp only with all earlier ones and after them, `finished_verify_at` exactly for finished rows, an error exactly for kicked ones, none for those who never joined, distinct join and finish times, and among the queued only the head has started |
| QueueLaws.PositionsAreRanks | server/src/store/contributors_db/mod.rs:25-34 | The positions of the k queued contributors are exactly 0 to k-1 |
| QueueLaws.HeadIsPositionZero | server/src/store/contributors_db/mod.rs:100-109 | Position 0 among the queued is the row that `get_current` returns |
| QueueLaws.Joined | server/src/store/contributors_db/types.rs:250-277 | Joining goes to the end and changes nobody's position |
| QueueLaws.HeadLeft | server/src/store/contributors_db/mod.rs:111-127 | Finishing or kicking takes the head and lowers every other position by exactly one |
| QueueRuns.QueueMoves | server/src/handlers.rs:35-312 | In every event the queue stays as it is, one contributor joins at its end, or its head leaves and all others move up by one |
| QueueRuns.RankNext | server/src/store/contributors_db/types.rs:380-395 | Within a turn a contributor goes through waiting, downloading, computing, uploading and being verified one step at a time, ends finished only from being verified, and is kicked only from the head |
| QueueRuns.TurnOrder | server/src/handlers.rs:61-119 | Over any run within one turn the position does not grow, the steps come in order, and finished and kicked are final |
| QueueRuns.StatusTellsRank | server/src/handlers.rs:66-118 | A registered contributor always gets a status that tells their place; a kicked one is given a reason, and the previous contribution named is the most recent finished one |
| QueueRuns.AnswersInOrder | server/src/handlers.rs:61-119 | The status answers within one turn come in order, whatever is interleaved |
| QueueRuns.AfterUpload | client/src/contribute.rs:366-385 | After the upload is marked finished, a contributor for whom nobody asks to join again is only told verifying, finished or kicked |
| QueueRuns.FinishedAnswer | server/src/handlers.rs:54-57 | A finished contributor is told so forever and cannot join again |
| TimedProgress.TurnsEnd | server/src/handlers.rs:265-305 | In every run, from the event that makes a contributor the head, they have finished uploading or lost their place within the download, contribute and upload timeouts plus 4d, whatever messages arrive, if at most d passes from the clock reading of one completed tick to the end of the next |
| TimedProgress.HeadsAreTimely | server/src/handlers.rs:265-305 | The same from any state in which the head has not started |
| TimedProgress.SilentHeadsLeave | server/src/handlers.rs:246-263 | A head that has not finished uploading became the head or was heard of no longer ago than the ping timeout plus d |
| PromptHeads.HeadLeavesForCause | server/src/handlers.rs:246-305 | In any event a head leaves only because their verification has ended or because a tick found them silent for longer than the ping timeout or late in their step |
| PromptHeads.PromptTurns | server/src/handlers.rs:246-305 | So in every run of the server a head whom no tick finds late stays the head until their upload is verified, whatever others send and whatever fails |
| PromptHeads.PromptSurvivesTick | server/src/handlers.rs:246-305 | One tick, at any time and with any delay, leaves a head in place who was heard of within the ping timeout and is within the timeout of the step |
| TimedProgress.NewHeadStartsFresh | server/src/store/contributors_db/types.rs:250-277 | Whoever becomes the head has nothing started, so the time above runs from becoming the head |
| WaitingTime.WaitsAreBounded | server/src/handlers.rs:265-305 | In every run with ticks at gaps of at most d and verifications of at most v, a contributor who has moved up from position n to position m has waited at most n - m + 1 whole turns of the three timeouts plus 4d plus v, whoever joins, fails or is silent |
| WaitingTime.WaitsEnd | server/src/handlers.rs:265-305 | So after n + 1 whole turns whoever was at position n is finished or kicked |
| WaitingTime.NextDue | server/src/handlers.rs:265-305 | No event puts off the time by which a waiting contributor is the head |
| TimedProgress.VerifyingOutlastsTicks | server/src/handlers.rs:246-305 | After any number of ticks, however late, a head being verified is still the head and being verified, and nothing but the clock has moved |
| TimedProgress.NoLimitOnVerifying | server/src/handlers.rs:246-305 | So ticks alone pass any time while the head is being verified |
| Server.ServerState.HandleRegister | server/src/handlers.rs:314-317 | The handler, run on the table in place, is a run of the state machine for this message that carries out all that was planned unless the storage failed. It answers with success, without a fault, exactly for an unknown key; then the row has this name and email, the time, and nothing else, and any other answer changes nothing |
| Server.ServerState.HandleJoin | server/src/handlers.rs:35-59 | Such a run. Without a fault it succeeds exactly when the ceremony is open and the contributor is registered and never joined or was kicked; otherwise it is forbidden when stopped, an error for an unknown key, and a bad request for the queued and the finished. On success the row is queued at this time and everything of an earlier turn is cleared, but for the finish time |
| Server.ServerState.HandleGetStatus | server/src/handlers.rs:61-119 | Such a run. Without a fault every registered contributor gets an answer, and each answer is true of the table: status, position, step, reason of a kick and latest finished contributor. The row is touched at a later time whatever the answer, the download of a head who has not started is started, and no other field or row changes; the files change only with the answer to upload, which comes with all old ones removed |
| Server.ServerState.HandleUpdateDownloadProgress | server/src/handlers.rs:144-160 | Such a run. Without a fault it succeeds exactly for the head that is downloading; the kicked and those who wait are told GONE, unknown keys get an error and all others a bad request. On success the start of the compute step is set, or the row touched, and nothing else changes |
| Server.ServerState.HandleUpdateComputeProgress | server/src/handlers.rs:162-178 | The same for the head that is computing, with the start of the upload step |
| Server.ServerState.HandleUpdateUploadProgress | server/src/handlers.rs:180-221 | The same for the head that is uploading. The last message needs every part as well; on success the finish time and the hash are set, the parts have become the whole and the job is spawned, and any other message leaves files and jobs alone |
| Server.ServerState.HandleTick | server/src/handlers.rs:237-311 | Such a run. With t the time read, a head that was heard of within the ping timeout before t and is within the timeout of its own step, or is being verified, keeps its place, and its row changes only when the download has not started; any other head is kicked, with silence as the reason or else the timeout of its step, and with nobody queued nothing changes |
| Server.ServerState.ConcludeTask | server/src/handlers.rs:198-213 | The end of a job: the row of its contributor is marked finished with the time if the verification passed and kicked for the verification otherwise, no other row or field changes, and the job is gone |
| Server.ServerState.RunVerify | server/src/handlers.rs:225-235 | A job from start to end is a run of the state machine. Without a fault it ends the process exactly when parser or verifier panic, and otherwise its contributor is finished exactly when hash, parse and verification on the given random choices accept, and kicked when one does not; with a fault of the bucket they are kicked |
| Server.ServerState.ReadUploaded | server/src/verification_job.rs:26-40 | Without a fault the job goes on with the bytes exactly when they have the announced hash and parse, fails for another hash or malformed bytes, and the process ends exactly when the parser panics; with a fault it fails |
| Server.ServerState.JudgeFiles | server/src/verification_job.rs:19-70 | Without a fault reading both files and verifying comes to the verdict: the job passes, fails or panics exactly as hash, parse and verification say |
| Server.ServerState.ReceivePart | common/src/upload.rs:23-30 | An uploaded part replaces that object and no other, as an event of the state machine that may happen at any time |
| Server.ServerState.HoldsAcceptedChain | server/src/store/contributors_db/mod.rs:82-98 | At any moment the fields of the server hold an accepted chain |
| ServerSteps.RemovalSteps | server/src/store/contribution_files.rs:99-109 | As many deletions as have been made are as many events of the state machine, and remove those objects |
| ContributorsDb.ContributorsDB.Update | server/src/store/contributors_db/types.rs:250-378 | An update of a row, or a fault that changes nothing |
| ContributorsDb.ContributorsDB.Register | server/src/store/contributors_db/mod.rs:49-53 | A new row for a new key; a second insert is refused |
| ContributorsDb.ContributorsDB.GetWithPos | server/src/store/contributors_db/mod.rs:68-80 | A scan that counts the queued rows that joined before. The count is 0 exactly when the row is not queued or nobody queued joined before it, and is less than the number of the queued; nothing is returned exactly for an unknown key |
| ContributorsDb.ContributorsDB.GetCurrent | server/src/store/contributors_db/mod.rs:100-109 | A queued row with the least join time, exactly when somebody is queued |
| ContributorsDb.ContributorsDB.GetMostRecentFinished | server/src/store/contributors_db/mod.rs:91-98 | A finished row with the greatest finish time, exactly when somebody has finished |
| ContributorsDb.ContributorsDB.FinishCurrent | server/src/store/contributors_db/mod.rs:111-118 | Marks the head finished; without a fault it fails exactly when nobody is queued |
| ContributorsDb.ContributorsDB.KickCurrent | server/src/store/contributors_db/mod.rs:120-127 | Marks the head kicked; without a fault it fails exactly when nobody is queued |
| ContributorsDb.CurrentExists | server/src/store/contributors_db/mod.rs:100-109 | The query for the current contributor finds one exactly when somebody is queued |
| ContributionFiles.ContributionFilesStore.GetUploadPlan | server/src/store/contribution_files.rs:99-115 | On success nothing of the contributor is left and nothing of anybody else has changed; on failure just the first objects are gone |
| ContributionFiles.ContributionFilesStore.FinalizeUpload | server/src/store/contribution_files.rs:117-135 | On success the whole is the parts in order, the parts are gone and nothing of anybody else has changed; without a fault it fails exactly when a part is missing |
| ContributionFiles.ContributionFilesStore.DownloadContribution | server/src/store/contribution_files.rs:189-204 | The chunks collected are the object |
| ContributionFiles.ContributionFilesStore.GetDownloadUrl | server/src/store/contribution_files.rs:90-97 | Only for an object that exists |
| ContributionFiles.NamesDiffer | server/src/store/contribution_files.rs:17-29 | Different objects have different names in the bucket |
| ContributionFiles.HexDigitsAt | server/src/store/contribution_files.rs:17-29 | In a name each byte of the key is two lower-case hexadecimal digits, the higher half first |
| Client.JoinAndWaitInQueue | client/src/contribute.rs:189-239 | The loop ends at the first answer that is ready, verifying or finished: ready gives the previous contribution named in it, finished and verifying give the outcomes of those names; it has joined exactly after the answers not-joined and kicked |
| Client.WaitForTurn | client/src/contribute.rs:189-239 | Fed with the answers of any run, what the loop concludes is true of the server at the last answer: the contributor is finished, is the head being verified, or is the head before computing and the previous contribution is that of the latest finished contributor |
| Client.WaitForServerVerification | client/src/contribute.rs:356-386 | The loop goes on exactly while the server is verifying and ends with the outcome of the first other answer |
| Client.WaitAfterUpload | client/src/contribute.rs:366-385 | Fed with the answers of any run after the upload is marked finished, the loop never takes its unexpected exit; success means that the contributor is finished and the reason of a kick is the one in the row |
| Client.NeverUnexpected | client/src/contribute.rs:366-385 | None of these answers is unexpected, whenever the client asks |
| Client.UploadMyContribution | client/src/contribute.rs:325-354 | With an upload plan, and only then, the slices are the bytes and the hash is that of the bytes |
| Aptos.StructuredIff | common/src/aptos.rs:62-69 | All checks pass and all unbatched equations are zero exactly when there are nonzero tau, alphas and xi such that every power is a power of tau, every round is the powers times its alpha, both xi agree, and all proofs of knowledge hold, for both parts at once |
| Aptos.Soundness | common/src/aptos.rs:62-69 | A contribution that is not structured, or whose proofs of knowledge do not hold, is accepted on at most 4/p of all random choices of the verifier |
| Aptos.HoldsOnEveryTape | common/src/aptos.rs:62-69 | One that is, is accepted on every random choice |
| Aptos.HonestStep | common/src/aptos.rs:56-60 | An honest step on a structured contribution multiplies tau, every alpha and xi by the secrets; with nonzero secrets the result is structured and accepted on every random choice, with a zero secret it is refused as trivial |
| Aptos.PanicsIff | common/src/aptos.rs:62-69 | Some contribution makes the verifier fail its own assertion exactly when a largest power is zero; the first contribution then does |
| Aptos.BatchedValue | common/src/aptos.rs:62-69 | The equation that the verifier returns is, modulo p, the nested random combination of the unbatched equations |
| Chains.HonestChain | common/src/contribution.rs:113-138 | After any number of honest steps with nonzero secrets the contribution is structured with tau, every alpha and xi the products of all secrets, and each is accepted against the one before on every random choice |
| Chains.SoundChainProduct | common/src/fptx.rs:202-277 | In any chain whose contributions are structured with valid proofs of knowledge, each of tau, the alphas and xi is the product of one secret per contributor, and that secret made the proof in the contribution |
| EndToEnd.AcceptedSetup | common/src/contribution.rs:168-180 | An accepted sequence without a bad random choice is such a chain |
| EndToEnd.HeldHaveFewBadTapes | common/src/contribution.rs:168-180 | If parsing yields field elements, then for every contribution the server holds at most 4/p of the random choices of the verifier accept it although it is not structured or its proofs do not hold |
| FptxLaws.StructuredIff | common/src/fptx.rs:202-277 | The same equivalence for the FPTX part |
| FptxLaws.StructuredEntries | common/src/fptx.rs:55-73 | In a structured contribution entry i of round j is alpha_j times tau to the i |
| FptxLaws.HonestStep | common/src/fptx.rs:124-200 | An honest FPTX step is structured and passes all unbatched equations exactly when no secret is zero |
| FptxLaws.FirstIsStructured | common/src/fptx.rs:94-122 | The first contribution is structured, with tau and all alphas one |
| FptxLaws.BatchedValue | common/src/fptx.rs:269-275 | The batched FPTX equation is the random combination of its parts |
| Fptx.NewParams | common/src/fptx.rs:42-51 | Accepts exactly the powers of two, and zero |
| Fptx.RunChecks | common/src/fptx.rs:202-218 | The shape checks with their loops and early returns refuse exactly wrong sizes, a zero alpha or tau, and a wrong row or first power, each with its error and in this order |
| PowersOfTau.StructuredIff | common/src/powers_of_tau.rs:115-147 | The equivalence for the powers of tau |
| PowersOfTau.HonestStep | common/src/powers_of_tau.rs:80-113 | An honest step multiplies tau by the secret and is accepted exactly when it is not zero |
| PowersOfTau.BatchedValue | common/src/powers_of_tau.rs:131-147 | The combined equation is the random combination of the proof of knowledge and the power checks |
| PowersOfTau.FirstIsStructured | common/src/powers_of_tau.rs:72-78 | The first contribution is structured with tau one |
| HidingKzg.StructuredIff | common/src/hiding_kzg.rs:123-157 | The equivalence for the hiding-KZG part: powers of tau, and one xi in both groups |
| HidingKzg.HonestStep | common/src/hiding_kzg.rs:79-120 | An honest step multiplies tau and xi by the secrets |
| HidingKzg.BatchedValue | common/src/hiding_kzg.rs:150-156 | The batched equation is the random combination of its three parts |
| BlsSok.VerifyIffKnown | common/src/bls_sok.rs:61-70 | The equation holds exactly when the signature was made with the discrete logarithm of the key to the base point |
| BlsSok.HonestSignature | common/src/bls_sok.rs:49-70 | A signature made with the factor between base and key verifies |
| ExactBatching.CompactCount | common/src/multipairing_equation.rs:135-158 | All n equations zero: all p^n scalar vectors make `compact` zero; otherwise exactly p^(n-1) do |
| ExactBatching.SharedCount | common/src/multipairing_equation.rs:34-61 | The same for the challenge of `with_shared_g2s` |
| ExactBatching.CombineWrong | common/src/multipairing_equation.rs:75-83 | With a nonzero second equation exactly one scalar makes `combine` zero |
| ExactBatching.CombineRight | common/src/multipairing_equation.rs:75-83 | With a zero second equation `combine` is zero for any scalar exactly when the first is |
| Batching.WrongLeafBound | common/src/multipairing_equation.rs:34-158 | For any nesting of the batching steps, if some equation is nonzero then at most one in p for each layer of the random choices are accepted |
| Batching.ZeroOnEveryTape | common/src/multipairing_equation.rs:34-158 | If all equations are zero, every choice is accepted |
| MultipairingEquations.Compact | common/src/multipairing_equation.rs:135-158 | The loop draws one scalar an equation and the result is the scaled equations joined |
| MultipairingEquations.CompactValue | common/src/multipairing_equation.rs:144-157 | The value of the compacted equation is the scalars times the values |
| MultipairingEquations.SharedValue | common/src/multipairing_equation.rs:41-60 | The value with shared second points is the challenge times the values of the rows, after exchanging the double sum |
| MultipairingEquations.CombineValue | common/src/multipairing_equation.rs:77-83 | The value of a combination |
| Contributions.HashChain | common/src/contribution.rs:140-144 | In an accepted sequence the list of the last contribution is that of the first followed by the contributors and hashes of all before the last, in order |
| Contributions.LastDetermines | common/src/contribution.rs:163-166 | Of two linked sequences that end in the same contribution the shorter one is the end of the longer one, or two contributions at the same distance from the end show a collision of the hash, whatever the first ones list |
| Contributions.LastDeterminesAll | common/src/contribution.rs:163-166 | They are equally long exactly when their first contributions list equally many, and then they are equal or show a collision |
| Contributions.FromEmptyLists | common/src/contribution.rs:113-138 | In particular when both begin with an empty list, as `generate` makes it |
| EndToEnd.SameLastSameChain | common/src/contribution.rs:163-166 | After any two runs with equally many finished contributors and the same last contribution the same contributions are held throughout, or there is a collision |
| Contributions.FirstListIsFree | common/src/contribution.rs:176-179 | Without a previous contribution the list is not looked at: any other list is accepted alike |
| Contributions.ContributorIsFree | common/src/contribution.rs:168-180 | The contributor is never looked at: with any other name and key the verdict is the same |
| Contributions.HonestIsAccepted | common/src/contribution.rs:113-138 | A contribution generated with nonzero secrets on a structured one lists it and is accepted against it on every random choice |
| Contributions.BuildPreviousHashes | common/src/contribution.rs:140-144 | The list of the previous contribution is a prefix, there is one entry more, for that contribution, and this is the only list with which a contribution is linked to it |
| Contributions.GenerateContribution | common/src/contribution.rs:113-138 | Generating is the generation of the inner part with that list and this contributor; the result is linked to the previous contribution, and without one its list is empty |
| Contributions.MismatchIff | common/src/contribution.rs:168-180 | Verification fails with the error about the hashes exactly when there is a previous contribution and the list is not the one linked to it |
| EndToEnd.ListedHashes | common/src/contribution.rs:140-166 | The last finished contribution lists the hashes of all before it |
| EndToEnd.ListedAreAnnounced | server/src/verification_job.rs:28-34 | After any run, every entry of the last list that stands for a finished contributor has the hash they announced exactly when their stored file is the encoding of what it is parsed to, or its hash collides with that of the encoding |
| EndToEnd.ListedMayDiffer | server/src/verification_job.rs:28-40 | With a parser that takes bytes which are not the encoding of the result there is a held contribution whose listed hash is not the announced one |
| SerdeLaws.NestedRoundTrip | common/src/parallel_ark_serde.rs:137-211 | Decoding an encoded nested vector gives it back exactly when it is empty, its first row is not, or all rows are empty, and an error otherwise |
| SerdeLaws.FlatRoundTrip | common/src/parallel_ark_serde.rs:55-94 | The flat decoder, which infers the element size by division, inverts the flat encoder on every vector |
| SerdeLaws.DecodedReencodes | common/src/parallel_ark_serde.rs:168-210 | When decoding succeeds and the first row is not empty, encoding the result gives a prefix of the input exactly when no row length read makes the 64-bit arithmetic wrap around |
| SerdeLaws.WrappedLengthAccepted | common/src/parallel_ark_serde.rs:183-188 | An input with a length that wraps around, which is decoded to a row of one element |
| SerdeLaws.ScanTiles | common/src/parallel_ark_serde.rs:174-190 | The ranges of a scan that did not wrap are within the input and follow each other with only the lengths between them |
| SerdeLaws.EmptyRowsReencode | common/src/parallel_ark_serde.rs:157-163 | When the first row is announced as empty, encoding the result gives the input back exactly when all later bytes are zero |
| SerdeLaws.UnreadLengthAccepted | common/src/parallel_ark_serde.rs:157-163 | An input whose second row is announced with five elements, which is decoded to two empty rows |
| SerdeLaws.NestedPanicsIff | common/src/parallel_ark_serde.rs:150-208 | The nested decoder panics exactly on a count too large to allocate, on one that wraps around to the length of an input of empty rows and is too large, or when all rows end within the input in 64-bit arithmetic and one of them before it begins |
| SerdeLaws.NoWrapNoPanic | common/src/parallel_ark_serde.rs:150-208 | So it never panics on a count that can be allocated with lengths that do not wrap |
| SerdeLaws.NestedPanics | common/src/parallel_ark_serde.rs:150-208 | One input for each of the three ways |
| SerdeLaws.FlatReencodes | common/src/parallel_ark_serde.rs:72-93 | The flat decoder also takes padded elements: the result has the announced count, and encoding it gives the input back exactly when the length is that of so many elements |
| SerdeLaws.PaddingAccepted | common/src/parallel_ark_serde.rs:72-93 | An input with one byte of padding, which is decoded to the element without it |
| SerdeLaws.FlatPanicsIff | common/src/parallel_ark_serde.rs:80-83 | The flat decoder fails its own assertion exactly on a count without any bytes |
| ParallelArkSerde.ParArkSeVec | common/src/parallel_ark_serde.rs:29-53 | The loop writes the count in eight bytes, byte i being the count divided by 256^i, modulo 256, and element i of a fixed size es from byte 8 + i es on, and nothing else |
| ParallelArkSerde.ParArkSeVecVec | common/src/parallel_ark_serde.rs:98-135 | The same for the outer count, and for the count and the elements of every row, one row after the other |
| ParallelArkSerde.LaidOutRowsIff | common/src/parallel_ark_serde.rs:98-135 | That layout is met by the sequential encoding and by no other bytes |
| SerdeLaws.LaidOutDecodes | common/src/parallel_ark_serde.rs:55-94 | Bytes in the layout of a flat vector are decoded to it |
| SerdeLaws.LaidOutRowsDecode | common/src/parallel_ark_serde.rs:137-211 | Bytes in the layout of a nested vector are decoded to it exactly in the domain of the round trip |
| ParallelArkSerde.ScanBoundaries | common/src/parallel_ark_serde.rs:174-190 | The scanning loop computes the recursive scan |
| ParallelArkSerde.ParArkDeVecVec | common/src/parallel_ark_serde.rs:137-211 | The nested decoder with its early returns computes the decoding function; a result has as many rows as the sum of the first eight bytes, byte i times 256^i |
| EndToEnd.StructuredRoundTrip | common/src/fptx.rs:30-31 | Encoding and decoding the rows of a structured contribution gives them back, for any codec of fixed size |
| Upload.UploadParallel | common/src/upload.rs:7-21 | Slice i is the bytes from i parts of the rounded-down length and one more for each of the first ones on; in order the slices are the bytes, and their lengths differ by at most one |
| Upload.SplitThenCompose | server/src/store/contribution_files.rs:117-130 | Composing uploaded slices restores the bytes |
| Truncate.Truncatable.Truncate | common/src/truncate.rs:11-36 | Truncating in place, vector by vector, is cutting the powers and every round |
| Truncate.TruncateGenerate | common/src/truncate.rs:11-24 | Truncating commutes with contributing: with the same secrets, the truncated new contribution is the one made on the truncated previous one |
| Truncate.TruncateKeepsValid | common/src/truncate.rs:17-24 | A pair that meets all unbatched FPTX equations meets them under the smaller params after truncation |
| Truncate.TruncatedIsAccepted | common/src/truncate.rs:26-30 | For the contribution of the ceremony: truncated, it is accepted against the truncated previous one on every random choice |
| Truncate.TruncatedListIffUncut | common/src/truncate.rs:32-36 | The truncated contribution lists the truncated previous one exactly when nothing is cut, or the previous one and its truncation have the same hash |
| Truncate.TruncatedVerdict | common/src/truncate.rs:32-36 | So a sound pair, truncated, is accepted under the smaller params exactly then, on every random choice, and otherwise refused with a hash mismatch |

## Left out

- HTTP, JSON, authentication, SQL text, signed URLs and the tick loop itself: only their effect on the table and the bucket is modelled, and the messages are taken to be authenticated.
- The queries of `handle_report`, `handle_download_all` and `handle_download_latest`, which change nothing, and the speed-test figures stored with a row.
- Real curves, hash-to-curve, ed25519, blake3 and BCS: parameters of the model. Subgroup and curve membership belong to the element codec; that parsed contributions consist of field elements, a guarantee of the source's types, is the hypothesis `EndToEnd.ParsesCanonical`.
- `output`, the digest key and the hiding-KZG setup, and the smoke tests, which live in libraries.
- `AptosParams::new`, whose padding is arithmetic on a library constant; the FPTX part is `Fptx.NewParams`.
- Server restarts, clocks that stand still or go backwards, and a request dropped while its last database statement is being carried out: a run is one process, each event has a later time than the one before, and marking an upload finished and spawning its job are one event.
- A panic anywhere ends the process (the server installs such a hook), so it ends the run; failing reads of the database are not modelled in `Server`, where every write and every bucket operation may fail, which the storage counts in `faults`.
- The deletions for the contributor of the upload speed test, whose key is drawn at random for every request, are modelled for keys that are not registered (`DropForeign`).
- The order in which the rounds of FPTX draw from their own random sources: the tape lists the rounds one after the other.
- `usize` is 64 bits wide and lengths fit in memory where a vector is given; the addition of one in `truncate` and in the shape checks is not wrapped.
- Allocation that fails for want of memory; the capacity limits of the nested decoder are modelled.
- Rayon and Tokio scheduling inside a computation: parallel maps keep the order. When decoding several rows, a panic in one is taken to come before an error in another.
- Spinners, the ping loop's process exits, the download and compute steps of the client and its report.
- Upload.UploadParallel: the parts are sent independently; the model has the slices and leaves their arrival to `PutPart` events in any order.
- Aptos.Soundness: the bound counts one layer of batching at a time and is not claimed to be the exact number; the single steps are counted exactly in `ExactBatching`.
- TimedProgress.HeadsAreTimely: assumes that ticks come and succeed at gaps of at most d; without that no bound holds.
- WaitingTime.WaitsAreBounded: assumes in addition that every verification ends within v of its upload; the code sets no such limit.
