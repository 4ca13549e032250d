# Checkpoint Store: a verified model

This project models the core of Checkpoint Store, a content-addressed store for training
checkpoints, and proves what its design promises. It covers publication with deduplication and
rollback, retention, garbage collection, restore and verification, saving and loading the state,
the streaming SHA-256 hasher and the CRC-32, the framed protocol, and the coordinator's authority
checks.

## How it is organised

Every public operation of the store runs under one mutex, so an operation is one atomic step.
`StoreState`, `Retention`, `Collection`, `Recovery` and `Persistence` say what each step does as a
function of values. `Store.CheckpointStore` is the object that does it in place, loop by loop, and
each of its methods is proved to have exactly the effect of the function. `Runs` puts the steps
together: `After(Start(cfg, boot), ops)` is the state after any sequence of operations from an
empty store, together with a history of what was published under which id.

The environment is an input. `Faults` says for each backend call of one operation whether it goes
through, `View` says what the clock reads and in which order the policy map is walked (which decides
between two policies of one family, see `PolicyOrder`), and the content hash is a parameter of the
store, so the theorems hold for every hash. No theorem assumes
that a hash has no collisions; where a collision matters it appears in the statement, about the
strings in play.

| files | what they hold |
|---|---|
| `Basics`, `Binary`, `Sums`, `Ordering`, `Model` | bytes, little-endian numbers, sums over maps, sorted listings, the store's records |
| `Sha256`, `Sha256Constants`, `Sha256Abc`, `Crc32`, `Framing` | the two checksums, which constants they use, and the protocol frames |
| `Codec`, `RecordCodec`, `Persistence`, `Layout`, `Restart` | the state file, where each field of it stands, and a store that loads it |
| `Chunking`, `Dedup`, `Backend`, `StoreState` | slices, the reference table, the in-memory backend, publication |
| `Invariant`, `Publication`, `Retention`, `LatestN`, `PolicyOrder`, `Collection`, `CollectionSafety`, `CollectionGuards`, `Recovery`, `RestoreCorrectness`, `Marks`, `Records` | what each operation keeps, and what it records |
| `Runs`, `Generations`, `Exactness`, `Completeness`, `Shelter` | what whole runs keep |
| `Commits`, `Admitted` | exactly which publications are taken up and commit |
| `Flicker`, `Failure`, `Course`, `Leak`, `FailingRuns`, `StaleLoad` | exactly when the code falls short: content lost, references left over, objects never collected, files that are out of date |
| `Store`, `Coordinator` | the objects |

## Main results

- **Nothing is lost.** In every honest run (nobody outside touches the objects, and no publication has an
  unanswered verification followed by an accepted write), through failed publications, retirements,
  policy changes, collections, restarts and restores, every checkpoint that is not deleted and whose
  eight-byte chunk ids tell its digests apart restores to bytes with the digest of the bytes it was
  published with (`Runs.NothingIsLost`). If besides no object stored for one of its slices is another
  string with the slice's digest, a checkpoint that is not deleted restores to exactly the published
  bytes if and only if its chunk ids tell its slices apart (`Runs.PublishedBytesComeBack`).
- **Publications commit.** With every backend call going through and no two strings in play sharing a digest, an
  admitted publication of any number of slices returns if and only if the table's entries agree with its
  slices, the 64-bit reference counters have room, and no chunk id stands for slices of two lengths
  (`Commits.CommitsExactly`). In every run that publishes under ids the store handed out, a descriptor the
  store makes is admitted, so the same holds of it (`Admitted.MadeCommitsExactly`), and of a publication a
  coordinator accepts (`Coordination.AcceptedCommitsExactly`).
- **Protection holds.** Over every run, a live checkpoint that is pinned or a restore point, or is
  under-replicated or under protecting policies whenever a collection sweeps, is never deleted
  (`Shelter.ShieldedForGood`), nor is one that a protected checkpoint names in its lineage
  (`Shelter.AncestorsStay`). What a sweep may take is stated exactly, by lifecycle, newer generations and
  time to live (`Shelter.EligibleExactly`, `Shelter.TtlExactly`).
- **Authority.** Over every history a publish, retire or collect request is accepted if and only if it names the
  epoch, one more than the advances so far, and the boot of the first worker to register in it
  (`Coordination.AcceptedExactly`).
- **The formats are the formats.** The round constants and initial value of SHA-256 are the roots of primes that
  FIPS 180-4 asks for, and "abc" has its published digest (`Sha256Constants.RoundConstants`,
  `Sha256Abc.AbcDigest`); the CRC-32 has the generator of clause 3.2.9 and the usual check value
  (`Crc32.CheckValue`); every field of a saved file stands where the source writes it (`Layout.SavedFile`).
- **Nothing is forged.** Whatever fails and whatever outsiders do to the stored objects, bytes that a
  restore returns have the digest of what was published (`Runs.RestoredIsPublished`).
- **Collection is safe twice over.** The reference counts alone protect live content, whatever ran
  between plan and run and however the clock moved (`CollectionSafety.RunKeeps`); with one reading of
  the clock reachability alone does, whatever the counts say (`CollectionGuards.ReachabilitySuffices`).
- **Collection is complete.** In a fault-free run without blob-id collisions nothing remains that no
  protected checkpoint needs (`Completeness.FaultFreeCollection`).
- **Books balance.** While no admitted publication fails, references equal uses and referenced bytes
  equal the bytes of live manifests (`Exactness.BooksBalance`).
- **Generations.** At every point of a run, and whatever is published from there on, there is one commit
  for each family and generation and each family's commits increase, if and only if every
  `create_family` of the run found an id no checkpoint belongs to (`Generations.UniqueExactly`).
- **Failed publications.** From any safe state and under any faults, a publication that throws loses
  content in use exactly when some slice it reached was in use, was not verified, was written again and
  had its removal go through; and from exact books it leaves exact books exactly when every digest was
  shared as often as it was rewritten, or is unused and was rewritten more often. Both conditions are
  over the store, the data and the environment's answers alone (`Course.LossByAnswers`,
  `Course.LeakByAnswers`).
- **Retention does not depend on hash-map order** while no family has two policies
  (`PolicyOrder.OrderMakesNoDifference`), and only then (`PolicyOrder.OrderFreeExactly`).
- **Restart.** A state within the format's bounds reloads, saves to the same bytes, and restores every
  checkpoint as before (`Restart.ReachableStatesReload`).
- **Loading.** A saved state loads exactly into the stores that know none of its digests
  (`Persistence.LoadExactly`). A file saved earlier in an honest run loads to a store with all live
  checkpoints whole exactly when those deleted since still have their objects
  (`StaleLoad.StaleLoadExactly`).

## Where the code does less than its documentation says

- "Existing shared blobs are untouched" by a failed publication: false when the backend does not answer a
  verification and then accepts the write, because content that a live checkpoint shares is written again
  as if it were new and the rollback removes it. `Failure.FlickerRunLoses` is a run from an empty store
  after which a live checkpoint no longer restores, `Failure.LossExactly` and `Course.LossByAnswers` say
  exactly when content in use is lost, and `Flicker.FlickerMiscounts` when a publication that returns
  miscounts. The run theorems assume `Steady` answers for this reason.
- "Refcounts are exact": false after a failed publication, which leaves the references it added to shared
  content counted. `Failure.FailedRunLeaks` is a run with two references and one use; `Failure.LeakExactly`
  says exactly when under steady answers and `Course.LeakByAnswers` whatever fails. In every honest run the counts are an upper bound on the uses (`Runs.RefsCoverUses`)
  and they are exact while no admitted publication fails (`Exactness.BooksBalance`). Blob and placement
  records of a failed publication stay as well.
- The family counter is not saved, so a family created after a load can reuse an id and restart its
  generations at 1. `Generations.FamilyIdReused` is such a run; `Generations.UniqueExactly` says exactly when
  a generation can be committed twice.
- A family can have two policies, because policies are keyed by their own id, and the first one met on the
  way through an unordered map applies. `PolicyOrder.OrderDecides` is a run after which the same store at
  the same time protects a checkpoint or not, by that order; `PolicyOrder.OrderFreeExactly` says exactly when
  the order makes no difference.
- A collection that is refused a removal drops the blob record all the same
  (`Completeness.ReclaimedExactly`): planned content that is neither reachable nor referenced goes if and only
  if one of its removals goes through, and is stranded otherwise (`Leak.CollectionStrandsExactly`;
  `FailingRuns.RefusedRunStrands` is a run). A stranded object stays, on no plan, until some publication notes
  its blob id again (`Leak.StrandedForGood`, `Leak.RepublishingRelists`).
- Every retain request of the coordinator sets the policy with id 1, so a request for one family ends the policy
  of every other (`Coordination.OnePolicyAtATime`).
- A reader of frames waits for 15 bytes before it looks at the magic, so a buffer that can never become a frame
  is asked to grow (`Framing.ShortGarbageWaits`; exact condition in `Framing.ReadExactly`).
- The coordinator saves on request only. `StaleLoad.StaleLoadLoses` is a run with a file that loads to a live
  checkpoint whose objects are gone; `StaleLoad.StaleLoadExactly` says exactly when that happens.
- Chunk ids are the first eight bytes of a digest. Two slices of one checkpoint with the same id make
  restore return something else, or fail, while verification still reports the checkpoint as verified
  (`RestoreCorrectness.RestoreReturnsData`). Such a checkpoint does commit: `FailingRuns.CollidingIdsCommit`
  is a run for every hash and every two pieces of chunk size whose digests differ and begin alike.
- Creation times are saved in whole milliseconds (`Persistence.WholeTimesSurvive`).
- Loading does not clear the deduplication table: a store that holds any entry refuses the very file it has
  just written (`Persistence.NoReloadInPlace`; exact condition in `Persistence.LoadExactly`). Nor does it
  clear the generation counters: those of families that are not in the file move up by one
  (`Persistence.NextExactly`).
- After an epoch advance a request that names boot 0 passes the publish check until a worker registers
  (`Coordination.AdvanceRevokes`; `Coordination.AdvanceOpensBootZero` is a history).
- "A stale boot cannot restore": false, because an epoch advance does not clear the roster.
  `Coordination.RevokedBootRestores` is such a history and `Coordination.RestoreExactly` says exactly which
  restores pass.

## Model

| member | source | states |
|---|---|---|
| Binary.PutLe | src/binformat.cpp:9-14 | the bytes appended are the little-endian digits of the number, least significant first |
| Binary.GetLe | src/binformat.cpp:15-25 | the number read is the value of the bytes at the position |
| Binary.ValueOfLittleEndian | src/binformat.cpp:9-25 | reading back what was written gives the number, for every number that fits |
| Binary.LittleEndianOfValue | src/binformat.cpp:9-25 | writing what was read gives the same bytes |
| Sha256.Hasher.Transform | src/hash.cpp:40-89 | the registers become the compression of section 6.2.2 of FIPS 180-4 applied to the block |
| Sha256.Hasher.TopUp | src/hash.cpp:91-105 | completing a partly filled buffer feeds exactly a prefix of the data |
| Sha256.Hasher.AbsorbBlocks | src/hash.cpp:106-111 | whole blocks are compressed straight from the data and fewer than 64 bytes remain |
| Sha256.Hasher.Update | src/hash.cpp:91-116 | everything fed so far is what was fed before followed by the data |
| Sha256.Hasher.FeedZeros | src/hash.cpp:118-133 | the zero-padding loop stops after exactly the padding of section 5.1.1 of FIPS 180-4 |
| Sha256.Hasher.Final | src/hash.cpp:118-146 | the digest is the hash, as FIPS 180-4 defines it, of everything fed |
| Sha256.HashPieces | src/hash.cpp:91-154 | for every way of splitting a message across updates the digest is the hash of the concatenation |
| Sha256Constants.RoundConstants | src/hash.cpp:13-24 | the sixty-four round constants are the first 32 bits of the fractional parts of the cube roots of the first sixty-four primes (section 4.2.2 of FIPS 180-4) |
| Sha256Constants.InitialHashValue | src/hash.cpp:32-38 | the eight initial words are those of the square roots of the first eight primes (section 5.3.3) |
| Sha256Abc.AbcDigest | src/hash.cpp:40-154 | the digest of "abc" is ba7816bf 8f01cfea 414140de 5dae2223 b00361a3 96177a9c b410ff61 f20015ad |
| Crc32.Compute | src/hash.cpp:160-169 | the loop computes the CRC of the data from the seed |
| Crc32.FeedIsSerial | src/hash.cpp:160-169 | the byte-wise register equals the bit-serial division of IEEE Std 802.3, clause 3.2.9 |
| Crc32.Chains | src/hash.cpp:160-169 | the CRC of a concatenation is the CRC of the second part seeded with the CRC of the first |
| Crc32.BurstChangesCrc | src/hash.cpp:160-169 | any change confined to four consecutive bytes changes the CRC |
| Crc32.GeneratorOfClause329 | src/hash.cpp:160-169 | the polynomial has exactly the powers clause 3.2.9 of IEEE Std 802.3 lists |
| Crc32.CheckValue | src/hash.cpp:160-169 | the checksum of "123456789" is CBF43926 |
| Framing.DecodeEncode | src/protocol.cpp:33-108 | for every frame, decoding inverts encoding if and only if the payload is within the limit |
| Framing.EncodeDecode | src/protocol.cpp:71-108 | any bytes decoding accepts are the encoding of what it returned |
| Framing.RefusedExactly | src/protocol.cpp:71-108 | which error refuses which bytes, for all bytes |
| Framing.ReadWhole | src/protocol.cpp:110-135 | a whole frame is read and exactly its bytes consumed, whatever follows |
| Framing.ReadPrefix | src/protocol.cpp:110-135 | a proper prefix of a frame always asks for more |
| Framing.ReadStable | src/protocol.cpp:110-135 | appending bytes never changes a frame already read |
| Framing.EncodedFields | src/protocol.cpp:33-69 | magic, version, kind, length, payload and checksum stand at their positions |
| Framing.ReadExactly | src/protocol.cpp:110-135 | more is asked for exactly below 15 bytes or when a passing header announces more than there is; the header is refused exactly when 15 bytes do not pass |
| Framing.MoreExactly | src/protocol.cpp:110-135 | of 15 bytes or more, what is asked to grow never has its header refused later and is decided once the announced bytes are there; a refused header stays refused |
| Framing.ShortGarbageWaits | src/protocol.cpp:112-115 | a byte that begins no magic is asked to grow although no continuation is ever read |
| Framing.Drain | src/protocol.cpp:110-135 | reading until more is needed yields the complete frames in order and leaves the rest |
| Framing.Receive | src/protocol.cpp:110-135 | under any segmentation of the stream exactly the frames sent come out, in order |
| Framing.BurstRejected | src/protocol.cpp:95-99 | corruption confined to four consecutive payload bytes is rejected |
| Model.HexInjective | src/hash.cpp:171-180 | different byte strings have different hexadecimal forms |
| Model.BlobKeyInjective | src/gc.cpp:146-147 | different digests have different backend keys |
| Model.KeyShape | src/store.cpp:31-34 | a blob's key is "blobs/", two digits, a slash and the sixty-four lower-case digits of its digest |
| Model.HexAt | src/hash.cpp:171-180 | the two digits of each byte, high half first |
| Model.PrefixIdIs | src/model.cpp:173-196 | a chunk's id is its digest's first eight bytes as a big-endian number, or 1 for zero |
| Model.SameIdExactly | src/model.cpp:173-196 | two digests have one id exactly when these bytes agree or are the numbers 0 and 1 |
| Chunking.SlicesTile | src/chunking.cpp:45-65 | the slices cover the data without gap or overlap, all of the chunk size but the last, each under the digest of its bytes |
| Chunking.SlicesJoin | src/chunking.cpp:45-65 | joined, the slices are the data |
| Chunking.SliceCount | src/chunking.cpp:45-65 | their number is the length divided by the chunk size, rounded up |
| Chunking.ChunkStream | src/chunking.cpp:45-65 | rejects exactly the invalid sizes and otherwise returns the slices |
| Dedup.DedupTable.Insert | src/dedup.cpp:45-65 | a new entry starts at one reference; an existing one is left alone; a different size is a conflict |
| Dedup.DedupTable.AddReference | src/dedup.cpp:67-81 | adds one reference, and refuses corrupt entries and a full counter |
| Dedup.DedupTable.ReleaseReference | src/dedup.cpp:83-94 | takes one reference away exactly when there is one; never underflows |
| Dedup.DedupTable.ReleaseUntilOrphan | src/dedup.cpp:142-152 | drops the entry exactly when it has no reference |
| Dedup.DedupTable.UniquePhysicalBytes | src/dedup.cpp:120-127 | the sum of the entry sizes, in whatever order the table is walked |
| Backend.PutThenCommit | src/synthetic_backend.cpp:73-109 | a staged write that commits replaces exactly one object |
| Backend.SyntheticBackend.Put | src/synthetic_backend.cpp:73-84 | stages the data under the next serial number, or changes nothing |
| Backend.SyntheticBackend.CommitKey | src/synthetic_backend.cpp:86-109 | the staged bytes become the object, or nothing changes and the error says why |
| Invariant.AcquireHolds | src/store.cpp:211-237 | obtaining a reference, shared or written, keeps every used object and adds one covered reference, under steady answers |
| Invariant.UnsharedIsUnused | src/store.cpp:211-231 | content that cannot be shared is used by no checkpoint |
| Publication.StepsKeep | src/store.cpp:189-276 | after any number of slices the references held cover them and the draft describes them in order |
| Publication.UndoSound | src/store.cpp:390-407 | rolling back any attempt leaves every used object untouched and the counts covering |
| Publication.DraftInOrder | src/store.cpp:299-313 | the manifest entries are already sorted by offset |
| Publication.CommitKeeps | src/store.cpp:278-373 | a confirmed attempt commits a record whose stored content has the digest of the data |
| Publication.PublishKeeps | src/store.cpp:144-408 | publication keeps the invariant; an error leaves records, families, generations, replicas and used objects unchanged; a receipt means one new committed record |
| Admitted.AdmittedExactly | src/store.cpp:144-187 | exactly which descriptors are taken up; a refused one changes nothing, and another boot's is refused as stale authority |
| Admitted.MadeIsAdmitted | src/store.cpp:114-187 | a descriptor just made for a known family is taken up unless its id was used by somebody |
| Admitted.RunIssued | src/store.cpp:114-139 | in a run that publishes only under ids handed out, the next id is always free |
| Admitted.RunCountersFit | src/dedup.cpp:67-81 | in every run reference counters stay within 64 bits |
| Commits.CommitsExactly | src/store.cpp:189-388 | with every call going through and no digest clash, a publication of any size returns if and only if entries agree, counters have room and chunk ids stand for one length |
| Commits.ReadBackExactly | src/store.cpp:278-293 | whatever fails, the chunks read back if and only if each answers, exists, has its size and its digest; otherwise the first fault is thrown |
| Course.ReceiptExactly | src/store.cpp:209-388 | a receipt's hits, misses and written bytes by the store, the data and the answers |
| Admitted.MadeCommitsExactly | src/store.cpp:114-388 | the same of a descriptor the store has just made, in every run that publishes under ids handed out |
| Records.CommitShape | src/store.cpp:189-388 | the record, manifest, chunks, placements, replica and receipt of a commit, field by field |
| Records.CommittedBlobs | src/store.cpp:239-258 | every chunk's blob is recorded on the new replica, and every other blob is as it was |
| Records.FamilyCreated | src/store.cpp:94-107 | a new family is empty, at generation 1, under the next id |
| Admitted.FirstIssued | src/impl.hpp:58-59 | a new store hands out family 1 and identity 1000 first |
| Retention.ProtectedLeast | src/retention.cpp:117-147 | the protected set is inside every set that has the direct members and is closed under lineage |
| Retention.ProtectedClosed | src/retention.cpp:136-145 | the protected set is closed under lineage to existing checkpoints |
| Retention.AddDirect | src/retention.cpp:123-133 | the first pass adds exactly the directly protected checkpoints and says whether it added any |
| Retention.AddLineage | src/retention.cpp:134-145 | the second pass adds only protected ancestors, and nothing more is missing when it adds none |
| Retention.ComputeProtected | src/retention.cpp:117-147 | stops, and returns exactly the least protected set of the view in whatever order the checkpoint map is walked; the order of the policy map is part of the view |
| Shelter.ShieldedForGood | src/retention.cpp:17-36 | over every run whose sweeps take what is eligible, a live checkpoint that is pinned or a restore point, or under-replicated or under protecting policies at each sweep, is never deleted |
| Shelter.AncestorsStay | src/retention.cpp:134-145 | over every run, a checkpoint named in the lineage of a published one stays live while that one is protected |
| Shelter.EligibleExactly | src/retention.cpp:17-84 | a checkpoint no other protected one needs may be swept if and only if nothing shields it and it is retired, or committed with N newer ones, its time up, or no rule |
| Shelter.TtlExactly | src/retention.cpp:70-80 | a committed time-to-live checkpoint that nothing shields or needs may be swept if and only if its policy has a positive time and that has passed |
| Shelter.FamilylessIsKept | src/retention.cpp:50-54 | a committed latest-N checkpoint whose family is not recorded is never swept |
| PolicyOrder.OrderMakesNoDifference | src/retention.cpp:106-147 | with at most one policy for each family, any two walks of the policy map at one time protect the same checkpoints |
| PolicyOrder.OrderFreeExactly | src/retention.cpp:106-115 | every two walks find the same policy for every family if and only if no family has two |
| PolicyOrder.OrderDecides | src/retention.cpp:106-115 | a run with two policies for one family after which one walk protects a checkpoint and another does not |
| LatestN.PolicyFound | src/retention.cpp:106-115 | with at most one policy for each family every walk finds the same policy |
| LatestN.SortedIdsStay | src/retention.cpp:86-104 | sorting a list that is in generation order changes nothing |
| LatestN.AnySortAgrees | src/retention.cpp:86-104 | while generations increase along a family's list, every rearrangement the comparison accepts as sorted is the list itself, stable or not |
| LatestN.LatestNKeepsNewest | src/retention.cpp:48-68 | under keep-latest-N a checkpoint is directly protected exactly when fewer than N of its family are newer |
| CollectionSafety.ReleaseAllEffect | src/gc.cpp:104-113 | releasing covered references takes exactly one for each chunk and never underflows |
| CollectionSafety.SweepKeeps | src/gc.cpp:95-119 | sweeping any list of checkpoints keeps the invariant and touches no object |
| CollectionSafety.ReclaimOneKeeps | src/gc.cpp:122-168 | reclaiming one candidate keeps the invariant and every used object, whatever fails |
| CollectionSafety.RunKeeps | src/gc.cpp:76-176 | a collection keeps the invariant and every object a checkpoint live after it uses, whatever was planned, swept or taken to be retained |
| CollectionGuards.ReachabilitySuffices | src/gc.cpp:76-168 | with one reading of the clock reachability alone spares live content, whatever the counts |
| RestoreCorrectness.RestoreResolves | src/restore.cpp:150-249 | restore succeeds exactly when the chunks its lookups by id find are whole, and returns their content |
| RestoreCorrectness.RestoreExact | src/restore.cpp:150-249 | with faithful chunk ids restore succeeds exactly when the checkpoint is whole |
| RestoreCorrectness.VerifyExact | src/restore.cpp:22-73 | verification reports verified exactly when the checkpoint is whole |
| RestoreCorrectness.VerifyAgreesWithRestore | src/restore.cpp:22-73 | on an available backend verification reports verified exactly when restore succeeds |
| RestoreCorrectness.RestoreNeverLies | src/restore.cpp:150-249 | restored bytes have the manifest's digest, whatever is stored and whatever fails |
| RestoreCorrectness.RestoreHealth | src/restore.cpp:150-249 | a restore changes nothing but integrity marks, replica roles and durability states |
| RestoreCorrectness.HealthKeepsSafe | src/restore.cpp:199-241 | those marks are outside the invariant |
| Marks.VerifyMarks | src/restore.cpp:22-73 | verification changes the one integrity mark to what it returns, or nothing |
| Marks.VerdictExactly | src/restore.cpp:22-73 | missing, corrupt or verified, by the first object that is not good and the digest of the whole |
| Marks.ScanExactly | src/restore.cpp:47-63 | whatever fails, the chunks are joined, or the first that is absent, bad or unreadable decides |
| Marks.RestoreMarks | src/restore.cpp:150-265 | the integrity mark each outcome of a restore leaves, whatever fails; replicas are only ever quarantined, and the checkpoint degraded with them |
| Marks.CandidatesExactly | src/restore.cpp:189-198 | restore tries the replicas of the chunk's recorded placements, or the checkpoint's own when none is recorded |
| Marks.FetchExactly | src/restore.cpp:199-241 | whatever fails, a chunk is found if and only if its object is good and some candidate is reachable and answers |
| Marks.RestoreWhateverFails | src/restore.cpp:150-249 | whatever fails and whatever is stored, a restore returns if and only if every manifest entry is served and the whole has the manifest's digest, and returns just that |
| Marks.BadObjectQuarantines | src/restore.cpp:186-231 | a restore that meets an object that is not good takes its replica out of service exactly when the object was there to be read |
| RestoreCorrectness.RestoreReturnsData | src/restore.cpp:176-249 | restore returns the data if and only if chunk ids tell the slices apart; verification does not notice |
| FailingRuns.CollidingIdsCommit | src/store.cpp:189-373 | for every hash, two pieces of chunk size with one chunk id and different digests commit as one checkpoint, verification reports verified, and restore does not return them |
| Runs.StepSafe | src/store.cpp:94-408 | every operation of the store keeps the invariant |
| Runs.PublishPromises | src/store.cpp:144-408 | whatever fails, a receipt means one new record with the data's digest and slices under the family's next generation, and an error means none |
| Runs.RestoredIsPublished | src/restore.cpp:150-265 | in every run, with faults and tampering, restored bytes have the digest of the published bytes |
| Runs.RefsCoverUses | src/dedup.cpp:45-94 | in every state of an honest run each digest has at least as many references as uses by live checkpoints |
| Runs.NothingIsLost | src/store.cpp:144-408 | in every honest run every checkpoint that is not deleted and whose chunk ids tell its digests apart restores, and verifies, to the digest of its published bytes |
| Runs.PublishedBytesComeBack | src/restore.cpp:150-265 | in every honest run, when no object stored for its slices is another string with the same digest, it restores to exactly the published bytes if and only if chunk ids tell its slices apart |
| Runs.RestartLoads | src/persistence.cpp:564-767 | the restart of the run model is loading what was saved |
| Generations.OneCommitPerGeneration | src/store.cpp:159-163 | two checkpoints of one family have different generations |
| Generations.EnterOrdered | src/store.cpp:363-368 | a commit keeps each family's list complete and strictly increasing |
| Generations.CreateOrdered | src/store.cpp:94-107 | creating a family keeps the order exactly when no checkpoint belongs to its id |
| Generations.RestartOrdered | src/persistence.cpp:635-668 | a reloaded store keeps the order and continues past every generation |
| Generations.OrderedExactly | src/store.cpp:94-163 | the invariant of lists and generation counters holds throughout a run if and only if every create_family finds an unused id |
| Generations.UniqueExactly | src/store.cpp:94-163 | at every point of a run and whatever is published from there on, one commit for each family and generation, in increasing order, if and only if every create_family finds an unused id |
| Generations.ReuseRepeats | src/store.cpp:94-107 | from a store that has handed out a used id, publications reach a generation that is committed already |
| Generations.GenerationsIncrease | src/store.cpp:114-163 | every run that creates no family after a restart is in order |
| Generations.CommitsStay | src/store.cpp:152-155 | a committed id keeps its family and generation for ever |
| Generations.CommitsAreUnique | src/store.cpp:144-163 | over a whole run at most one checkpoint ever commits for a family and a generation |
| Generations.FamilyIdReused | src/impl.hpp:58-58 | a run with two checkpoints of the same family and generation after a restart |
| Exactness.AcquireExact | src/store.cpp:209-237 | when every entry has its object, content is written exactly when the table does not know it |
| Exactness.PublishLedger | src/store.cpp:189-373 | a receipt's write size is the growth of unique bytes, hits and misses add up to the slices, and the books stay exact |
| Exactness.SweepLedger | src/gc.cpp:95-119 | sweeping takes exactly the swept manifest's bytes out of the books |
| Exactness.ReclaimLedger | src/gc.cpp:122-168 | reclaiming an unreferenced digest leaves the books exact |
| Exactness.BooksBalance | src/dedup.cpp:45-127 | while no admitted publication fails, references equal uses and referenced bytes equal live manifest bytes |
| Completeness.PublishTidy | src/store.cpp:239-275 | publication gives every object its entry, every entry its blob record and every record its replicas |
| Completeness.ReclaimedExactly | src/gc.cpp:134-168 | the blob record goes in any case; the entry goes exactly when some removal goes through |
| Leak.CollectionStrandsExactly | src/gc.cpp:76-176 | over a whole collection, planned content that is not reachable and has no reference after the sweep is gone if some removal of it goes through and is stored without a blob record otherwise |
| FailingRuns.RefusedRunStrands | src/gc.cpp:134-168 | a run from an empty store, with one collection that is refused its removal, after which content is stored without a blob record |
| Leak.StrandedForGood | src/gc.cpp:61-66 | over every continuation in which no publication notes its blob id it stays stored and is on no plan |
| Leak.RepublishingRelists | src/store.cpp:239-258 | a publication that returns gives every blob id it notes a record again |
| Completeness.StepSettled | src/gc.cpp:95-119 | whatever fails, checkpoints are committed, retired or deleted |
| Completeness.CollectionIsComplete | src/gc.cpp:35-176 | plan and run at one reading of the clock leave only what a protected checkpoint needs |
| Completeness.NothingProtectedNothingLeft | src/gc.cpp:35-176 | when nothing is protected the table, the blob records and the objects are empty afterwards |
| Completeness.FaultFreeCollection | src/gc.cpp:35-176 | the same after every fault-free run |
| Flicker.FlickerLosesContent | src/store.cpp:211-237 | a verification without answer, an accepted write and a failed read-back lose content a live checkpoint shares |
| Failure.LossExactly | src/store.cpp:390-407 | a publication that throws leaves content in use intact if and only if its rollback removes nothing in use, whatever failed |
| Failure.LossOverInputs | src/store.cpp:189-407 | it loses content in use if and only if a slice it reached was in use, was not verified, was written and had its removal go through |
| Course.ReachedExactly | src/store.cpp:189-276 | a slice is reached if and only if all before it pass by the store at the start and the answers, and as many were written as do not share |
| Course.FaresExactly | src/store.cpp:209-237 | a slice is shared or written, and its content known at its turn, exactly as that account says |
| Course.LossByAnswers | src/store.cpp:189-407 | exactly which publications that throw lose content in use, by the store, the data and the answers alone |
| Failure.FlickerRunLoses | src/store.cpp:211-237 | a run from an empty store after which a live checkpoint no longer restores |
| Failure.LeakExactly | src/store.cpp:390-407 | from exact books and under steady answers a publication that throws leaves exact books if and only if no slice that got its reference had content known before |
| Failure.CountsAfterThrow | src/store.cpp:390-407 | whatever fails, after a throw each digest has its old references, one more for each slice shared and one less, down to zero, for each slice rewritten |
| Failure.LeakWhateverFails | src/store.cpp:390-407 | from exact books and whatever fails, a throw leaves exact books if and only if each digest was shared as often as rewritten, or is unused and was rewritten more often |
| Course.LeakByAnswers | src/store.cpp:189-407 | the same by the store, the data and the answers alone |
| Failure.FailedRunLeaks | src/store.cpp:399-405 | a run from an empty store after which content has more references than uses |
| Flicker.FlickerMiscounts | src/store.cpp:211-237 | a publication that returns leaves exact books if and only if every known slice was verified |
| Codec.ListBack | src/binformat.cpp:133-145 | a counted list within the bound reads back element by element |
| Codec.BytesBack | src/binformat.cpp:36-39 | a length-prefixed byte string reads back |
| RecordCodec.DescriptorBack | src/persistence.cpp:96-166 | a descriptor reads back with its time in whole milliseconds |
| RecordCodec.ManifestBack | src/persistence.cpp:168-230 | a manifest reads back |
| RecordCodec.ChunkBack | src/persistence.cpp:232-270 | a chunk record reads back |
| RecordCodec.ReplicaSetBack | src/persistence.cpp:272-298 | a replica set reads back |
| RecordCodec.BlobBack | src/persistence.cpp:300-334 | a blob record reads back |
| RecordCodec.ReplicaBack | src/persistence.cpp:336-358 | a replica record reads back |
| RecordCodec.PlacementBack | src/persistence.cpp:360-384 | a placement record reads back |
| RecordCodec.PolicyBack | src/persistence.cpp:386-412 | a retention policy reads back |
| Ordering.ListingUnique | src/persistence.cpp:430-438 | a set has exactly one listing in a strict total order |
| Ordering.SortKeys | src/persistence.cpp:430-438 | the keys come out as that listing in whatever order the map is walked |
| Persistence.ImageInto | src/persistence.cpp:416-735 | every table of a saved body reads back with nothing left over, unless one of its digests is known already |
| Persistence.UnframeFrame | src/persistence.cpp:551-596 | the frame of a body passes all checks and yields the body if and only if the body is within the limit |
| Persistence.FrameUnframe | src/persistence.cpp:564-596 | a file that passes the checks is byte for byte the frame of its body |
| Persistence.RefusedExactly | src/persistence.cpp:564-596 | which error refuses which file before its body is read, for all bytes |
| Layout.ChunkStands | src/persistence.cpp:232-250 | every field of a chunk record stands at its position |
| Layout.DescriptorStands | src/persistence.cpp:96-131 | every field of a descriptor stands at its position |
| Layout.ManifestStands | src/persistence.cpp:168-196 | every field of a manifest stands at its position |
| Layout.ReplicaSetStands | src/persistence.cpp:272-284 | every field of a replica set stands at its position |
| Layout.BlobStands | src/persistence.cpp:300-316 | every field of a blob record stands at its position |
| Layout.ReplicaStands | src/persistence.cpp:336-346 | every field of a replica record stands at its position |
| Layout.PlacementStands | src/persistence.cpp:360-371 | every field of a placement record stands at its position |
| Layout.PolicyStands | src/persistence.cpp:386-397 | every field of a policy stands at its position |
| Layout.DedupStands | src/persistence.cpp:534-548 | every field of a deduplication entry stands at its position |
| Layout.BodyStands | src/persistence.cpp:416-548 | the head, the tables in their order and the collector's state stand one after another and make up the body |
| Layout.SavedFile | src/persistence.cpp:416-562 | magic, version, length, body, checksum and digest of the file a store saves, with that body |
| Layout.SavedInOrder | src/persistence.cpp:428-541 | every table is written in ascending order of its identities, the entries in that of their digests' digits |
| Layout.SemanticsStand | src/store.cpp:36-55 | the canonical bytes under a manifest's semantic digest, position by position |
| Codec.CountExactly | src/binformat.cpp:133-145 | a count is accepted exactly up to 4194304 |
| Persistence.LoadExactly | src/persistence.cpp:564-735 | loading what was saved succeeds if and only if the store knows none of the saved digests, and gives the saved records over the store's own entries and counters |
| Persistence.NoReloadInPlace | src/persistence.cpp:715-733 | a store reloads its own file if and only if it holds no entry |
| Persistence.LoadSave | src/persistence.cpp:416-767 | loading what was saved into a fresh store recovers every persisted record |
| Persistence.SaveAgain | src/persistence.cpp:416-562 | a recovered store saves to identical bytes |
| Persistence.SaveState | src/persistence.cpp:416-562 | the bytes do not depend on the order in which maps are walked |
| Persistence.NextExactly | src/persistence.cpp:635-668 | after a load into any store each counter is exactly one past the highest of its starting point and the family's saved generations |
| Persistence.GenerationsRecovered | src/persistence.cpp:635-668 | in a fresh store that is one past the family's highest generation, and 2 for a family without checkpoints |
| Persistence.WholeTimesSurvive | src/binformat.cpp:54-59 | a time survives saving if and only if it is in whole milliseconds |
| Restart.RestoresAsBefore | src/persistence.cpp:564-767 | after a restart every checkpoint restores to the same bytes or the same error |
| Restart.RunKeysMatch | src/persistence.cpp:416-562 | in every run each table is keyed by its records' own identities |
| Restart.ReachableStatesReload | src/persistence.cpp:416-767 | every reachable state within the bounds reloads, saves to the same bytes and restores as before |
| StaleLoad.LoadsOver | src/persistence.cpp:564-767 | loading an older file over newer objects gives the saved records over those objects |
| StaleLoad.StaleLoadExactly | src/persistence.cpp:564-767 | for a file saved at any point of an honest run and loaded at any later one, every live checkpoint is whole if and only if those deleted in between still have their objects |
| StaleLoad.StaleLoadLoses | tools/coordinator.cpp:160-163 | a run in which a commit, saved, is retired and collected before the load: the loaded store has it live and not whole |
| Store.CheckSpan | src/store.cpp:304-313 | the manifest entries add up without gap or overlap, or the check fails |
| Store.ComputeReachable | src/gc.cpp:18-31 | the blob ids of the retained records' chunks |
| Store.MarkBytes | src/gc.cpp:55-60 | the bytes of the reachable blobs that have a record |
| Store.ListReclaimable | src/gc.cpp:61-66 | every recorded blob that is not reachable, once |
| Store.ListEligible | src/retention.cpp:169-183 | the committed or retired checkpoints that are not protected, once each |
| Store.CheckpointStore.CreateFamily | src/store.cpp:94-107 | a new family at generation 1 under the next id |
| Store.CheckpointStore.MakeFullDescriptor | src/store.cpp:114-139 | a descriptor with a new id and the family's next generation, or not found |
| Store.CheckpointStore.ObtainReference | src/store.cpp:208-237 | shares an intact object or writes a new one, as the publication step says |
| Store.CheckpointStore.StoreSlices | src/store.cpp:190-276 | the loop over the slices, up to the first that is refused |
| Store.CheckpointStore.ReadChunks | src/store.cpp:278-293 | the chunks read back and joined, or the first error |
| Store.CheckpointStore.RollBack | src/store.cpp:390-407 | removes what was written and releases its references |
| Store.CheckpointStore.Commit | src/store.cpp:315-368 | the record, its replica, the family's list and the next generation |
| Store.CheckpointStore.Publish | src/store.cpp:144-408 | the whole new state and the receipt or error of publication |
| Store.CheckpointStore.Retire | src/retention.cpp:189-199 | only a committed checkpoint is retired |
| Records.RetireExactly | src/retention.cpp:189-199 | only committed checkpoints are retired; any other request changes nothing |
| Store.CheckpointStore.SetRetentionPolicy | src/retention.cpp:157-162 | the policy is recorded under its id |
| Store.CheckpointStore.GcPlan | src/gc.cpp:35-74 | marks what protected checkpoints reach and lists every other blob |
| Store.CheckpointStore.GcRun | src/gc.cpp:76-176 | sweeps exactly the eligible checkpoints and reclaims the planned blobs that retained ones do not reach |
| Records.CollectorMarks | src/gc.cpp:48-173 | the phase, epoch and generation a plan leaves, and what a run forgets |
| Records.RestartForgetsPlan | src/persistence.cpp:710-714 | a loaded collector has its totals but no plan, at unknown freshness |
| Store.CheckpointStore.Restore | src/restore.cpp:150-265 | the bytes or the error, and the health marks left behind |
| Store.CheckpointStore.VerifyCheckpoint | src/restore.cpp:22-73 | the integrity found, or the error |
| Store.CheckpointStore.ResetAuthority | src/accounting.cpp:71-94 | unfinished checkpoints fail and blobs must be revalidated |
| Records.ResetExactly | src/accounting.cpp:71-94 | nothing is being created or written afterwards, and no blob counts as verified |
| Store.CheckpointStore.SaveState | src/persistence.cpp:416-562 | the bytes of the state file |
| Store.CheckpointStore.LoadState | src/persistence.cpp:564-767 | the recovered state, or the error; a refused frame changes nothing |
| Coordination.AcceptedEpochsGrow | tools/coordinator.cpp:44-64 | the epochs of accepted publish, retire and collect requests never decrease |
| Coordination.OneBootPerEpoch | tools/coordinator.cpp:44-81 | in one epoch all accepted requests from nonzero boots come from one boot |
| Coordination.AdvanceRevokes | tools/coordinator.cpp:59-64 | between an advance and the next registration exactly requests naming boot 0 and the new epoch are accepted |
| Coordination.AcceptedExactly | tools/coordinator.cpp:44-81 | over every history a guarded request is accepted if and only if it names one more than the advances before it as epoch and the first boot registered since the last, or boot 0 while none has |
| Coordination.RejectionsExactly | tools/coordinator.cpp:44-64 | the rejection counter is the number of advances and of requests whose authority failed |
| Coordination.AdvanceOpensBootZero | tools/coordinator.cpp:44-64 | a history in which a request from boot 0, which nobody registered, is accepted after an advance |
| Coordination.ActiveIsStoreBoot | tools/coordinator.cpp:69-81 | an active boot is always the store's authority boot |
| Coordination.RosterIsRegistered | tools/coordinator.cpp:69-73 | the roster holds exactly the boots that have registered |
| Coordination.RestoreExactly | tools/coordinator.cpp:53-57 | over every history a restore passes exactly with the epoch of its time and a boot that registered at any time before |
| Coordination.RevokedBootRestores | tools/coordinator.cpp:53-64 | a boot that registered before an epoch advance restores after it |
| Coordination.Coordinator.Dispatch | tools/coordinator.cpp:66-176 | the store performs exactly the operations the request comes to, with the descriptor made, the plan listed and the checkpoints swept, none when it is rejected, and stays where the logged operations lead a new store; a registration that takes authority leaves nothing being written and every blob to be revalidated |
| Coordination.ServedCheckpointsAreWhole | tools/coordinator.cpp:66-176 | in the store of a coordinator whose log is honest every live checkpoint is whole |
| Coordination.AcceptedCommitsExactly | tools/coordinator.cpp:83-108 | an accepted publication for a known family commits, when all calls go through, exactly when entries, counters and chunk ids allow it |
| Coordination.AcceptedPublishes | tools/coordinator.cpp:88-105 | an accepted publish request publishes its size of its fill byte, under a descriptor made for owner 1 with local durability |
| Coordination.OnePolicyAtATime | tools/coordinator.cpp:148-159 | a coordinator's store has no policy but that of the last retain request |
| Coordination.RetainMeans | tools/coordinator.cpp:148-157 | a retain request keeps its family's newest checkpoints, as many as it says, and protects nothing else |

## Left out

- Files, sockets, threads and the command line: the backend is a map of objects and the state file a byte sequence; every public method holds the store's mutex, so operations are atomic steps.
- More than one backend: the primary backend is the only one, as in every publication; candidates on other backends, replication and restore planning are not modelled.
- Monitoring counters, capacity reports, restore evidence, collection notes and textual output; the seven counters that are saved are kept as they are and never advanced.
- 64-bit wrap-around of identities, generations, epochs and sizes, except the reference counter's overflow check, the hasher's length counter and the bounds of the state format.
- The streamed digest over several chunks in publish, restore and verify is taken as the hash of the joined bytes; Sha256.HashPieces is what justifies this.
- Active-restore protection, which the source always switches off.
- Persistence.LoadSave: writers and readers are functions on byte sequences rather than an output buffer and a cursor; the order and width of every field are those of the source.
- Store.CheckpointStore.LoadState: says nothing about the state left by a body that is refused after its frame was accepted, where the source has already cleared its tables.
- Store.CheckpointStore.Publish: std::sort of the manifest entries is a stable insertion by offset; offsets never repeat, so every sort gives the same order.
- The fault injection of the synthetic backend (corrupt and missing marks) is covered by the environment's refusals and by tampering with objects in Runs.
- Runs.NothingIsLost: assumes that a verification that fails to answer is not followed by an accepted write in the same publication, and chunk ids that tell the checkpoint's digests apart; Course.LossByAnswers and RestoreCorrectness.RestoreReturnsData say exactly what happens otherwise.
- Publication.PublishKeeps: the same assumption on answers; Failure.LossExactly holds without it.
- Publication.StepsKeep: the same assumption on answers; Failure.StepsKeepIntact holds without it.
- Retention.ComputeProtected: reads the clock once for the whole computation.
- Retention.SortIds: the source's sort is not stable and this one is; they differ only when two checkpoints of a family share a generation, as after Generations.FamilyIdReused, and LatestN.AnySortAgrees excludes it otherwise.
- Failure.LeakExactly: assumes steady answers; Failure.LeakWhateverFails and Course.LeakByAnswers do not.
- The flat payload codecs of the coordinator's requests, the contents of its replies, and a coordinator that starts over an existing state file.
- dedup_accounting and capacity_report, sums over committed descriptors.
