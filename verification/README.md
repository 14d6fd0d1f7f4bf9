# CARE-KV: a verified model

CARE-KV keeps an LLM's keys and values in a paged cache of 2-, 3- or 4-bit codes, and stores the largest
quantization residuals in a sparse arena of slots. For each query a router picks a few slots, and a
correction computed from them is added to base attention. The repository writes the correction several
times (a loop over slots, a batched tensor form, a chunked form, an exact-softmax form) over one mutable
cache that every layer of a model shares. This project models that code in Dafny and proves how the forms
relate, what the cache keeps over whole runs, and what its arithmetic kernels conserve.

Numbers are exact: tensors are sequences or arrays of `real` and `int`, packed bytes are bit-vectors. The
exponential, square root and logarithm, the Euclidean norm, the sketch projection, `topk` and `argsort` are
parameters; each theorem states the little it needs of them (`Exponential`, `Roots`, `NormOk`, `Chooses`,
`Sorts`, `PicksTop`), so ties may fall either way.

## How it is organised

Modules follow the repository's files.

- Codecs (`quantizer.py`, `residual_store.py`): `Quantizer`, `ResidualPack`, `BaseRows`.
- Router (`residual_router.py`): `Selection` (stable sort, top-k), `Pages` (slot positions), `Router`,
  `RouterSoundness`; `SketchDots` and `ScoreMeanings` say what its scores measure.
- Correction (`attention.py`): `Correction` says what a selection of slots does token by token; `SlotLoop`
  is the per-query loop, `Batched` and `Vectorized` the batched and chunked form, `ExactSoftmax` the
  renormalised form, `CorrectedKeys` what that form means in terms of keys. `Choices`, `Selections` and `Policies`
  compare the slots the router picks, under each of its policies and modes, with those the batched path may;
  `Silence` shows which slots do not matter, `Agreement` is the theorem that the paths compute the same rows and
  when, and `Divergence` has inputs on which they do not.
- Cache (`cache.py`, `residual_store.py`, `layer.py`, `llama_patch.py`): the classes `Cache.KVCache`,
  `LlamaPatch.CacheDict`, `LlamaPatch.CareAttention` and `LlamaPatch.PatchedModel` update buffers, free lists,
  counters and dictionaries in place. Every method is proved against a function on the cache as a value
  (`SlotArena`, `CacheState`, `StorePlan`, `StoreStep`, `LayerSteps`, `Prefill`, `Decode`, `LayerRuns`), and
  the laws over runs are proved about those functions (`PageTables`, `Sessions`, `Protocol`, `SharedCache`).
  `Losses` says what the stored blocks and their errors are in terms of original and dequantized rows, and
  `TrueSlots` that slots hold what was lost of the tokens themselves. `Occupancy` counts the slots a prompt takes,
  `Capacity` bounds them, `Saturation` shows the bound is reached, and `RatioArena` works it out for arenas sized by
  a ratio. `Reachable` and `Restored` join the two halves: correction over the caches that runs produce, and the
  tokens it restores.
- Kernels: `Config` (layer budgets), `Apportionment`, `Hadamard`, `Rotation`, `Eviction`.

Long proofs use `hide` to keep the bodies of functions they do not need out of the solver's sight.

## What the proofs turned up

- The batched V score multiplies by the layer sensitivity twice, once in the index and once in the score; the
  router does it once. Each kind's own ranking survives that. The merged ranking survives exactly when no slot the
  router left out overtakes one of the other kind; it always does at sensitivity one, and when scores are
  normalised by a mean above the floor. At every other positive sensitivity some input separates the paths, with
  scores as they come and with scores normalised below the floor.
- Under the joint policy the router ranks both kinds together even when one has no budget; the batched path never
  reads that kind. With a budget of `b` for V alone, the two agree exactly when `b` V slots outscore every K slot, and
  likewise for K.
- Slots on tokens without attention, such as later pages under a causal mask, all score zero, and the two paths may
  break those ties differently. Reading such a slot changes nothing, in exact mode as long as the clamp does not act.
- The batched path ignores the router's `k_first` and `adaptive` policies and its thresholds. The two still agree
  exactly when no threshold drops a slot and, for `k_first`, as many V slots as the V budget reach the mean V score;
  for `adaptive`, the V share comes out at the V budget.
- The exact-softmax branch is chosen for a whole batch as soon as any of its rows reads a K slot. A row that reads
  none is then still right, but only where its base output is the average its weights give; elsewhere cutting the
  batch changes it exactly when its own chunk has no K read and the batch has one. Every layer passes the base
  attention it has just computed, so no caller sees this.
- Two of the four walks over the page table skip pages without metadata, two count them. They agree exactly when no
  page before the last has tokens and no metadata, which every run keeps.
- A page filled by decode is processed against its own dequantized rows, so it stores no slot. Slots its
  earlier metadata listed stay allocated with nothing referring to them. Hence no page stores twice, and the
  factor 2 in the arena size is what absorbs the rounding of per-layer budgets.
- A prompt needs exactly one slot for every block it stores, and what went before never takes room from it. Blocks of
  one kind are bounded by the store budget and by the groups of a page, and some prompt reaches that bound on every
  page: entries far below the quantizer's scale floor leave a residual in every group. So an arena is large enough
  for every prompt exactly when it holds that bound.
- A negative absolute budget is clamped where pages are filled but not where the arena is sized. With equal
  multipliers and no ratio estimate the arena then suffices for every prompt exactly when, for each kind, 64 slots
  hold the bound or twice the plain sum of the budgets covers it. There are configurations on which a prompt fails.
- Sized by a ratio, as by default, the arena can be too small as well: a page stores at least one block of a kind even
  where the ratio of its groups rounds down to none. The default configuration has 512 pages; prompts of up to 204
  pages always fit, and beyond that some prompt fails.
- At 4 bits a residual block with an odd number of entries is half a byte larger than its slot, so storing it fails.
- `layer_budget_multiplier` is documented as always positive. It is, except where the sensitivity policy has a
  positive mean and the layer's own sensitivity is zero or negative. Conservation of the total holds regardless.
- `allocate_impact_budget` is documented as largest-remainder apportionment; its sort key also adds a multiple of the
  impact. The result is the largest-remainder one exactly when that term lets no unit past one with a larger fraction
  across the cut.

## Model

| member | source | states |
|---|---|---|
| Quantizer.QuantizeAccurate | quantizer.py:31-99 | with clip ratio 1 every code is in the symmetric range and every reconstructed entry is within half a step of the input |
| Quantizer.QuantizeWithin | quantizer.py:31-99 | whatever bounds the magnitudes of a group, m, every reconstructed entry is within m over twice the largest code of the input |
| Quantizer.LargestExact | quantizer.py:31-99 | the entry of largest magnitude, above the scale floor, gets an outermost code and reads back exactly |
| Quantizer.ClippedWithin | quantizer.py:53-60 | with any clip ratio, entries up to the clipped range lose at most half a part of it, and larger positive ones read back as its end |
| Quantizer.CodeError | quantizer.py:31-82 | an entry loses at most half a step exactly when it lies between the clamp points, whatever the clip ratio |
| Quantizer.PackRoundTrip | quantizer.py:147-246 | packing any number of 2-, 3- or 4-bit codes, padding included, and unpacking gives the codes back |
| Quantizer.UnpackInt2 | quantizer.py:163-173 | the strided stores, in-place sign fix and trim are the unpacker the round trip is about |
| Quantizer.UnpackInt3 | quantizer.py:235-246 | the position-by-position loop equals the broadcast shift form, so the same round trip holds |
| Quantizer.RowsAgreeWithFlat | quantizer.py:257-383 | each row of a 2-D pack is what the 1-D packer makes of it, has the advertised byte count, and unpacks to the row |
| ResidualPack.SlotCodesRoundTrip | residual_store.py:121-176 | residual codes survive a slot at 4 or 8 bits, for any number of entries |
| ResidualPack.ResidualAccurate | residual_store.py:121-176 | every entry of a stored residual reads back within half a slot step |
| ResidualPack.ResidualWithin | residual_store.py:121-176 | whatever bounds the entries of a slot, m, each reads back within m over twice the largest code, and one of magnitude m exactly |
| ResidualPack.ZeroStaysZero | residual_store.py:121-176 | a zero residual entry reads back as exactly zero |
| ResidualPack.BlockEntry | residual_store.py:164-176 | both facts for entry (i, c) of a block that was flattened, packed, unpacked and reshaped |
| ResidualPack.NibblesArePack | residual_store.py:121-136 | the residual packer, which masks after shifting, makes the same bytes as the base packer for any number of codes |
| BaseRows.CodesRoundTrip | cache.py:635-643 | a row of codes survives the base buffers, packed or not |
| BaseRows.StoredRowAccurate | cache.py:617-772 | a stored token reads back as its dequantized form; each entry is within half a step of what was written, so within m over twice the largest code for every bound m of its group, and a largest one is exact |
| Config.MultipliersConserve | cache.py:166-202 | whatever the policy, the layer multipliers add up to the number of layers |
| Config.BudgetDrift | residual_store.py:390-396 | rounded per-layer budgets drift from the global total by at most half a slot a layer |
| Config.MultiplierPositiveIff | cache.py:180-202 | a layer multiplier is positive except under the sensitivity policy, on a positive mean, for a layer whose own sensitivity is not positive |
| Config.UShapeFavoursEdges | cache.py:166-177 | under the U shape a layer farther from the middle gets strictly more, layers equally far the same, and the edges four times an exact middle |
| Config.SensitivityProportional | cache.py:190-194 | under the sensitivity policy, on a positive mean, multipliers are in proportion to sensitivities |
| Config.SomeMultipliers | cache.py:190-194 | a zero and a negative multiplier, and the fall-back to one when no sensitivity is positive |
| Selection.OfKindSort | residual_router.py:315-320 | sorting is stable: ranking both kinds together and keeping one is ranking that kind alone |
| Selection.TakeIsTopK | residual_router.py:327-363 | sorting and taking the first k is a top-k answer |
| Selection.TopKUnique | attention.py:856-875 | with distinct scores there is one top-k answer, however ties would be broken |
| Pages.WalksAgree | attention.py:408-433 | when no page before the last has tokens and no metadata, the walks that skip such pages place every slot like the walks that do not |
| Pages.CursorsAgreeIff | attention.py:550-573 | the two kinds of walk reach every page at the same token if and only if no page before the last has tokens and no metadata |
| Pages.EntriesWellPlaced | attention.py:408-433 | enumerated slots stand in page and group order, cover existing tokens, and V ranges never overlap |
| Router.ScoreKPage | residual_router.py:175-213 | appends exactly the stored K slots of a page, scored and in group order |
| Router.ScoreVPage | residual_router.py:220-253 | appends exactly the V slots that still cover a valid token |
| Router.Route | residual_router.py:88-413 | the page walk, ranking, policy, thresholds and split return the chosen slots of each kind |
| Router.ReadBudgets | residual_router.py:37-76 | a disabled kind gets no budget and no kind more than it has candidates |
| Router.ReadBudgetsScaled | residual_router.py:56-76 | against its share on the layer, a ratio budget is rounded down but to no less than one slot when positive, an absolute one to the nearest, both capped by the candidates |
| Router.OwnRatioDecides | residual_router.py:51-67 | in ratio mode a kind's own ratio decides whether it is read at all whenever it is given and not negative, and the common one otherwise |
| RouterSoundness.RoutedSound | residual_router.py:274-413 | under all four policies, in every mode, thresholding included: at most the two budgets in all, nothing twice, each kind a prefix of its own score order |
| RouterSoundness.ThresholdMonotone | residual_router.py:385-410 | on one ranking, raising either threshold leaves a prefix of the reads before |
| RouterSoundness.RoutedMonotone | residual_router.py:385-410 | of two routers that differ in thresholds only, the stricter one reads, of each kind, the first few of what the other reads, under every policy |
| RouterSoundness.ScoresNonNegative | residual_router.py:175-253 | the scores the router computes are non-negative |
| SketchDots.SketchEstimates | residual_router.py:128-192 | the sketch estimate is the size of the query, on the slot's own channels, times the mean of original less dequantized keys over the page's tokens, through the Gram matrix of the projection |
| SketchDots.OrthonormalEstimates | residual_router.py:128-192 | with an orthonormal projection it is the size of the mean of the products that reading the block would add to the logits |
| SketchDots.OtherChannelsMute | residual_router.py:132-136 | query channels outside the slot's group change nothing of it |
| ScoreMeanings.RiskBetween | residual_router.py:158-166 | the boundary risk of a page is its attention mass over its tokens' distance from the top logit: between the mass over the largest and over the smallest distance |
| ScoreMeanings.SpreadBetween | residual_router.py:158-168 | the value spread of a page is its attention mass times its values' distance from the output: between the least and the greatest |
| ScoreMeanings.VScoreBoundsEffect | residual_router.py:220-235 | where a slot's tokens weigh the same, its V score is the sensitivity times the weighted norms of its rows, and bounds what reading it adds to the output |
| ScoreMeanings.EntropyEnds | residual_router.py:339-352 | even attention over at least two tokens gives the whole adaptive budget to V, a single token all of it to K |
| RouterSoundness.ThresholdPrefix | residual_router.py:385-406 | thresholding a ranking keeps a prefix of it, the minimum-keep floor included |
| RouterSoundness.ThresholdKeeps | residual_router.py:385-406 | thresholding keeps exactly the first slots of a ranking, as many as pass, but no fewer than the minimum while there are any |
| RouterSoundness.ZeroBudgetReadsNothing | residual_router.py:44-46 | without a positive budget no slot is read |
| ExactSoftmax.NewWeightsNonNegative | attention.py:112-114 | renormalised weights are non-negative |
| ExactSoftmax.NewWeightsNormalised | attention.py:112-114 | they sum to one exactly when the 1e-30 clamp is inactive |
| ExactSoftmax.NewWeightIsSoftmax | attention.py:96-118 | on softmax base weights they are the softmax of the shifted logits, whatever maximum was subtracted |
| ExactSoftmax.CorrectedOutputInHull | attention.py:96-118 | base output plus correction lies, coordinate by coordinate, between the least and greatest corrected value |
| ExactSoftmax.NoShiftIsLinear | attention.py:344-356 | without a logit shift the exact form is the linear V term |
| ExactSoftmax.UnweightedShifts | attention.py:107-114 | shifts of tokens without weight change no weight, even where they set the maximum that is subtracted |
| CorrectedKeys.ShiftIsDot | attention.py:307-342 | the logit shift is the query times the whole key residual: channel groups of a page make up one key |
| CorrectedKeys.ExactModeAttends | attention.py:96-118 | in exact mode the new weights are attention over the dequantized keys plus the residual blocks read |
| SlotLoop.PageTokenOffsets | attention.py:191-205 | every page with tokens is mapped to its range in the concatenation of valid tokens |
| SlotLoop.ApplyV | attention.py:269-305 | the V loop accumulates the selected slots' value term and marks exactly the tokens carrying a residual |
| SlotLoop.ApplyK | attention.py:307-342 | the K loop accumulates the first-order term and the logit shift, channel groups of a page adding up |
| SlotLoop.ApplySlotCorrections | attention.py:208-356 | for either mode the loop returns the token-level correction of the routed slots |
| SlotLoop.RoutedRefs | residual_router.py:412-413 | routed references are distinct and each names a stored slot of its kind |
| Batched.BuildVSlotIndex | attention.py:386-441 | lists every stored V slot with its block and its place by the skipping walk |
| Batched.BuildKSlotIndex | attention.py:540-573 | lists every stored K slot with its block and its place by the counting walk |
| Batched.VScoreTwiceWeighted | attention.py:787-790 | the batched V score is the router's score times the sensitivity once more |
| Batched.GatherIsSum | attention.py:911-926 | gathering one residual row a token equals summing over all selected slots, because ranges never overlap |
| Batched.LinearKIsSum | attention.py:937-941 | subtracting the base output once per row equals the sum over slots and tokens of weight times q·R times value difference |
| Batched.ExactWithoutKReads | attention.py:928-943 | in exact mode a row that reads no K slot still gets its linear V term, for base-attention rows |
| Batched.CombinedRow | attention.py:877-943 | the combined row is the token-level correction of the row's own selection, in both modes |
| Vectorized.ScoreColumns | attention.py:704-725 | the column-by-column fill computes every K score of every row |
| Vectorized.BuildShifts | attention.py:897-907 | adding page slices slot by slot sums q·R over each row's selected slots |
| Vectorized.CorrectBatch | attention.py:638-943 | the batch as it runs: every row from its own reads, and from whether any row reads a slot of a kind |
| Vectorized.BatchRowsCorrect | attention.py:877-943 | in any batch every row gets the token-level correction of its own picks |
| Vectorized.VectorizedJointCorrection | attention.py:616-636 | the loop over chunks computes the chunks one after another |
| Vectorized.ChunkingInvisible | attention.py:616-636 | for every chunk size and number of queries the assembled rows are those of one batch, in exact mode for rows of base attention |
| Vectorized.ChunkingShows | attention.py:616-636 | in exact mode, for any batch, chunk size, row and coordinate, the chunked result is that of one batch unless the batch has a K read and the row's own chunk has none, and then only where the base output is what the weights give |
| Choices.RowPicksLegal | attention.py:848-875 | whichever way top-k breaks ties, the masks are a legal selection |
| Choices.LegalUnique | attention.py:848-875 | legal selections differ among tied slots only |
| Selections.TakingLegalIff | residual_router.py:313-363 | what the joint or the separate policy takes is a legal selection of the batched path if and only if the split survives the second weighting and a lone budget is filled by its own kind |
| Policies.RouterLegalIff | residual_router.py:313-410 | under all four policies and in every mode, the router's reads are a legal selection of the batched path if and only if nothing is dropped and the policy's own condition holds |
| Policies.Filtered | residual_router.py:385-410 | thresholds keep a part of what the policy took, and all of it exactly when every slot passes or there are no more than are always kept |
| Policies.KFirstCounts | residual_router.py:322-337 | k_first takes as many slots of each kind as its budget if and only if that many V slots reach the mean V score |
| Policies.AdaptiveCounts | residual_router.py:339-356 | adaptive takes as many slots of each kind as its budget if and only if the V share is the V budget |
| Silence.SilentIffMassless | attention.py:787-790 | with non-negative weights a slot without attention mass covers weightless tokens only, and conversely |
| Silence.SilentScoresZero | residual_router.py:190-237 | a slot on tokens without weight scores zero in both kinds |
| Silence.SilentSlotsDoNothing | attention.py:877-943 | reading such a slot or not changes no coordinate, in exact mode where the clamp does not act |
| Agreement.SelectionsAgree | attention.py:852-875 | without ties, under every policy and mode, any top-k over the batched scores reads the slots the router reads if and only if no threshold drops a slot and the policy's condition holds |
| Agreement.LiveSelectionsAgree | attention.py:852-875 | when only slots without attention tie, the two read the same other slots |
| Agreement.WeighsAlikeChoice | attention.py:828-838 | at sensitivity one, or normalised by means above the floor, the second weighting never separates the paths under the joint or separate policy |
| Agreement.OneSidedBudgetIff | residual_router.py:313-320 | with a budget for one of two competing kinds, the paths agree if and only if that many of its slots outscore every slot of the other and no threshold drops any |
| Agreement.BatchedEqualsLooped | attention.py:576-943 | every batched row is what the per-query loop returns, ties among slots without attention allowed |
| Agreement.CorrectHead | layer.py:538-637 | the choice between the two implementations cannot be observed |
| Agreement.OneSidedBudgetDisagrees | residual_router.py:313-320 | with no K budget, one K slot that outscores every V slot is read by the loop and not by the batched path |
| Divergence.EverySensitivityDiverges | attention.py:787-861 | at every positive sensitivity other than one, an input without ties on which the paths read different slots, with scores as they come or normalised by means below the floor |
| Divergence.OneSidedInputs | residual_router.py:313-320 | one K slot, two V slots and a single read, of any distinct scores the stored errors and the query give: exactly when the paths agree |
| Divergence.ChunkedApart | attention.py:928-936 | two queries and a chunk size on which the exact correction depends on the cut, for a base output that is not what the weights give, which no layer passes |
| SlotArena.GrabAllKeeps | cache.py:548-566 | taking slots keeps the free list duplicate-free and complementary to the owned slots, hands out its front in order, and leaves every owned slot alone |
| SlotArena.PartitionCounts | cache.py:901-905 | free and owned slots add up to the arena |
| SlotArena.ReleaseIff | cache.py:562-566 | freeing keeps the partition exactly when the slot is owned: a second free lists it twice |
| SlotArena.SlotFits | cache.py:517-526 | a packed block fills its buffer row exactly at 8 bits, and at 4 bits exactly when it has an even number of entries |
| SlotArena.ReadBackEntry | cache.py:871-883 | an entry written to a slot reads back within half a step, zeros as zeros |
| CacheState.NoSharing | residual_store.py:424-463 | no two (layer, head, page, group) positions refer to the same slot of one kind |
| CacheState.ReferredIsTaken | residual_store.py:424-463 | a slot some metadata refers to is never free and still holds the block its owner wrote |
| CacheState.AppendedTokensUntouched | residual_store.py:282-285 | on every row appended since its page was processed a slot unpacks to exactly zero |
| CacheState.HeadStep | cache.py:430-536 | replacing one head while the arenas only grow keeps the whole invariant |
| CacheState.PageCountIsCeil | layer.py:224 | the number of pages is the token count over the page size, rounded up |
| PageTables.PageStart | cache.py:542-583 | under the page table, page p starts at token p times the page size |
| PageTables.TableInOrder | layer.py:1027-1035 | only the last page can be non-full or lack metadata, and the pages hold exactly the token count |
| PageTables.ViewSound | attention.py:191-205 | every state keeping the invariant gives correction a well-formed view whose offsets agree in all walks |
| PageTables.AppendKeeps | cache.py:656-701 | appending to the open page keeps shapes and references and extends the log by that row |
| PageTables.OpenedTable | layer.py:1029-1035 | a page for one more token exists exactly when the tokens are short of the capacity, and it is the right one |
| StorePlan.BlockZeroFrom | residual_store.py:282-285 | padded rows cannot leak into a block: it is zero from the first padded row on |
| StorePlan.SelectedPrefix | residual_store.py:374-422 | whatever the policy, the blocks stored are distinct groups of positive prior and a prefix of their kind's ranking |
| StorePlan.SelectedWithinBudget | residual_store.py:390-420 | in absolute mode a page stores at most its two budgets, off the joint policy each kind at most its own |
| StorePlan.StoredAreTop | residual_store.py:374-420 | per-kind policies store a top-k of the positive priors |
| Losses.ErrorIsLost | residual_store.py:279-340 | the recorded error of a group, times its live rows, is the sum over them of the norm of that part of original less dequantized |
| Losses.PriorGrows | residual_store.py:299-342 | a page that loses at least as much on every live row of a group, and more on one, gives the group a strictly higher error and prior |
| Losses.CandidateIff | residual_store.py:374-375 | with a positive sensitivity a group is a candidate if and only if something was lost on one of its live rows |
| Losses.PlaceDecides | residual_store.py:287-314 | of groups with equal errors, sink pages rank before others, and among equals the recent ones first |
| StorePlan.ReprocessingStoresNothing | residual_store.py:279-375 | a page processed against its own dequantized rows selects nothing, whatever policy and budget |
| StoreStep.AssignedSlots | residual_store.py:425-438 | each picked group gets its own slot and no other group gets one |
| StoreStep.ProcessKeeps | residual_store.py:239-464 | processing a page keeps the invariant and every block already stored, and claims exactly the selected blocks |
| StoreStep.StoredBlock | residual_store.py:429-438 | a group has a slot exactly when it was selected, and that slot holds its block |
| StoreStep.StoredKRestores | residual_store.py:279-324 | base plus stored K residual is within half a slot step of the original |
| StoreStep.StoredVRestores | residual_store.py:326-360 | the same for a V block |
| TrueSlots.PromptRow | layer.py:311-329 | the rows a prompt page is processed with are its own tokens', original and dequantized |
| TrueSlots.PromptPlace | layer.py:273-275 | a prompt page counts as recent when no token lies more than three pages beyond it, and as a sink when it starts among the sink tokens |
| TrueSlots.PrefillTrue | layer.py:738-749 | after a prompt on an empty layer every slot a page refers to holds what base storage loses of that page's tokens, and the metadata beside it describes that block |
| TrueSlots.DecodeTrue | layer.py:978-1146 | every decoded token keeps it so |
| StoreStep.ReprocessTakesNothing | residual_store.py:463 | re-processing a filled page cannot fail, takes no slot, and leaves the old ones owned but unreferenced |
| StoreStep.ProcessFailsIff | residual_store.py:425-438 | processing fails exactly when an arena is short of slots, or a block to be stored has an odd number of entries at 4 bits |
| StoreStep.RecordedErrors | residual_store.py:287-360 | the error norms in metadata, which the router scores with, are non-negative |
| Prefill.WrotePages | layer.py:254-329 | the page loop appends exactly the prompt's rows in order, whatever the head held, and touches no other head |
| Prefill.PromptTable | layer.py:204-334 | from an empty head the page loop leaves a page table |
| Decode.DecodedHead | layer.py:1027-1146 | decoding appends exactly the new row, fails only when no page is left, and takes no slot even when it fills a page |
| Decode.DecodedTable | layer.py:1001-1146 | the page table survives, the metadata start of a filled page being the tokens in earlier pages |
| LayerRuns.Prefilled | layer.py:738-749 | prefill over all heads keeps the invariant, leaves every other layer alone and appends each head's prompt |
| LayerRuns.Decoded | layer.py:978-1146 | decode over all heads likewise appends one row to each |
| Sessions.PrefillHolds | layer.py:738-749 | a prompt on an empty layer leaves every head holding exactly the prompt, in lockstep, and its slots what was lost of it |
| Sessions.PositionIsTotal | layer.py:1001-1002 | the position read from head 0 is the number of tokens every head holds |
| Sessions.DecodeNeedsOnlyPages | layer.py:1087-1146 | decode succeeds while pages have room, however full the slot arenas are |
| Sessions.RunHolds | layer.py:978-1146 | any run of decode steps within the page capacity succeeds, and every head then holds exactly the run's tokens in order, its slots what was lost of them |
| Sessions.ReachableView | attention.py:191-205 | in every state of a run the pages are in order and all offset walks agree on every stored slot |
| Occupancy.ProcessIff | residual_store.py:424-438 | processing a page succeeds exactly when its selected blocks fit, and takes exactly one slot for each |
| Occupancy.PrefillIff | layer.py:738-749 | a prompt on an empty layer succeeds if and only if there are pages for its tokens and slots, of the right size, for every block it stores, and takes exactly those |
| Capacity.SelectedAtMost | residual_store.py:374-422 | a page stores no more of a kind than its budget and its groups, whatever the policy and mode |
| Capacity.LayersAtMost | cache.py:507-509 | no prompt takes more slots of a kind, over all layers, heads and pages, than that bound |
| Capacity.ArenaSuffices | cache.py:507-509 | with absolute budgets the arena holds every layer's worst case at once, for every multiplier policy: both kinds' budgets together, and each kind's worst case |
| Capacity.UniformNeedsHalf | cache.py:507-509 | with equal multipliers half of the absolute estimate is enough |
| Capacity.UniformWorstIff | cache.py:507-509 | with equal multipliers, absolute budgets of either sign and no ratio estimate, a kind's worst case is within the arena if and only if 64 slots hold it or twice the plain sum of the budgets covers what live layers can store |
| Saturation.TinySelected | quantizer.py:31-60 | on a page of entries far below the scale floor every group has a residual, and the page stores the most it ever can |
| Saturation.TinyTakes | cache.py:507-509 | a prompt of such pages, of any number of them, takes exactly the worst case |
| Saturation.ArenaIff | cache.py:507-509 | every prompt of at most so many pages succeeds if and only if the arenas hold the worst case of both kinds, in every budget mode and policy |
| Saturation.RunsSucceed | cache.py:507-509 | then every run succeeds too; with non-negative absolute budgets this needs only blocks of the size of a slot |
| Saturation.UniformFitsIff | cache.py:507-509 | with equal multipliers, absolute budgets of either sign and no ratio estimate: every prompt succeeds if and only if, for each kind stored at all, blocks have the size of a slot and 64 slots hold them or twice the plain sum of the budgets covers them |
| Saturation.NegativeBudgetShrinks | cache.py:507-509 | configurations in which a negative budget is harmless, and one on which some prompt fails |
| RatioArena.RatioFitsIff | cache.py:507-509 | sized by a ratio, with equal multipliers and under every store policy: every prompt of at most so many pages succeeds if and only if, for each kind stored at all, blocks have the size of a slot and 64 slots hold them or four times the ratio covers them |
| RatioArena.FourGroupsFit | cache.py:507-509 | with kinds budgeted by themselves, at most four groups of each, and the minimum within the rounded fraction of them, no prompt fails |
| RatioArena.DefaultFitsIff | cache.py:211-236 | in the default configuration prompts of up to 204 pages always fit, and from 205 pages on, of the 512, some prompt fails |
| Protocol.FreshOk | cache.py:430-536 | a new cache keeps the invariant with every slot free and no page allocated |
| SharedCache.AskPass | llama_patch.py:165-226 | a prompt pass from any state of the shared cache succeeds if and only if the prompt fits a new cache, and leaves every layer holding exactly the new prompt |
| SharedCache.NextPass | llama_patch.py:200-226 | a single-token pass extends every layer's log by that token |
| SharedCache.RunSynced | llama_patch.py:87-226 | after any run of prompt and single-token passes on one device, every layer's slice is exactly the latest prompt and the later tokens, with slots that hold what was lost of them; the run succeeds if and only if each of its prompts fits a new cache |
| SharedCache.DeviceIff | llama_patch.py:94-101 | inside a prompt pass a later layer leaves the earlier slices alone exactly when its hidden states are on the cache's device |
| Cache.KVCache.constructor | cache.py:425-536 | the allocated buffers are the new cache |
| Cache.KVCache.AllocPage | cache.py:542-546 | hands out the next page, or reports a full cache and changes nothing |
| Cache.KVCache.GetOpenPage | cache.py:572-583 | the last page if it has room |
| Cache.KVCache.WriteBase | cache.py:617-654 | writes one page's rows and count of one head, and nothing else |
| Cache.KVCache.AppendToPage | cache.py:656-701 | writes one row at the page's first free offset |
| Cache.KVCache.ReadBaseConcat | cache.py:720-772 | decodes exactly the valid rows of the listed pages, concatenated |
| Cache.GatherAll | cache.py:720-772 | over all allocated pages that is the whole token log |
| Cache.KVCache.TotalValidTokens | cache.py:895-899 | the length of the token log |
| Cache.KVCache.ReadView | layer.py:513-517 | what correction reads is the allocated pages and the slot buffers |
| Cache.KVCache.AllocKSlot | cache.py:548-556 | pops the head of the K free list, or reports a full arena |
| Cache.KVCache.AllocVSlot | cache.py:558-560 | the same for V |
| Cache.KVCache.FreeKSlot | cache.py:562-563 | appends the slot to the K free list |
| Cache.KVCache.FreeVSlot | cache.py:565-566 | the same for V |
| Cache.KVCache.WriteKResidual | cache.py:871-873 | replaces one K slot, or refuses a block of another size |
| Cache.KVCache.WriteVResidual | cache.py:875-877 | replaces one V slot, or refuses a block of another size |
| Cache.KVCache.SetMeta | residual_store.py:463 | replaces a page's metadata and frees nothing |
| ResidualStore.ComputeResidual | residual_store.py:279-285 | subtracts, then zeroes the padded rows in place |
| ResidualStore.Enumerate | residual_store.py:294-360 | the candidates and error norms of one kind, group by group |
| ResidualStore.StoreSelected | residual_store.py:424-438 | takes slots in ranking order; fails exactly when an arena is too small or a block has not the size of a slot |
| ResidualStore.ProcessPage | residual_store.py:239-464 | the whole of page processing on the cache object |
| Layer.WritePagesForKvHead | layer.py:204-334 | the page loop on the cache object, returning the dequantized rows of exactly the prompt's tokens |
| Layer.PrefillHeads | layer.py:738-749 | the write half of prefill on the cache object |
| Layer.DecodeOne | layer.py:1027-1146 | one head of a decode step on the cache object |
| Layer.DecodeHeads | layer.py:1001-1146 | the write half of a decode step, the position read once before any append |
| LlamaPatch.CareAttention.ResetCache | llama_patch.py:103-110 | drops one sequence's cache and this layer's flag, or all of them |
| LlamaPatch.CareAttention.GetOrCreateCache | llama_patch.py:87-101 | makes a new cache exactly when none is there or it is on another device |
| LlamaPatch.CareAttention.Forward | llama_patch.py:165-226 | one call of one layer does to the shared state what the protocol says |
| LlamaPatch.PatchedModel.constructor | llama_patch.py:321-352 | distinct wrappers, one shared dictionary, no cache yet |
| LlamaPatch.PatchedModel.Forward | llama_patch.py:165-226 | a pass over all wrappers is the protocol's pass |
| Reachable.BatchedEqualsLoopedInRuns | attention.py:576-943 | batched equals looped on every cache a run reaches, with no hypothesis on its pages |
| Reachable.CorrectStored | layer.py:458-637 | on the cache object, over the head's own dequantized values, every row gets the token-level correction of the slots the router picks |
| Reachable.ReadBlock | attention.py:319-326 | a slot that metadata refers to reads back within half a step of the block written when that metadata was made |
| Restored.SlotIsTrue | residual_store.py:424-463 | in every state of a run a referenced slot holds what base storage loses of the run's own tokens in its place, and its metadata records their error and sketch |
| Restored.SlotRestoresToken | attention.py:269-342 | every entry of such a slot belongs to one token and channel of the run, and reading it back restores that channel to within half a slot step |
| Restored.KeyRestored | attention.py:307-342 | whatever slots are read, what correction adds to a channel of a key restores the run's own key there to within half a step of the one slot that touches it, or is zero on a token appended since |
| Restored.ValueRestored | attention.py:269-305 | the same for values |
| Restored.StoredErrorIsLost | residual_router.py:220-235 | the error the router scores a stored slot with is the mean norm of what was lost of the run's own tokens there |
| Restored.StoredEstimate | residual_router.py:191-192 | the estimate it scores a stored K slot with is the query times the mean of what was lost of those keys, through the Gram matrix |
| Reachable.ReadRun | cache.py:720-772 | reading all pages after a run returns the codes and scales of exactly the run's tokens, in order |
| Reachable.AppendedTokensUncorrected | attention.py:269-342 | whatever slots are read, a token appended since its page was processed gets no value residual and no logit shift |
| Apportionment.SharesAddUp | attention.py:155-156 | proportional shares add up to the budget |
| Apportionment.RemainderSmall | attention.py:157-158 | the floors leave less than one slot a unit, so the hand-out never wraps |
| Apportionment.AllocateImpactBudget | attention.py:144-164 | allocations are non-negative and sum to the budget |
| Apportionment.ImpactOrder | attention.py:144-164 | each is the floored share or one more, and more impact never gets less |
| Apportionment.SmallImpacts | attention.py:157-164 | when the impact term reverses no two fractions, the allocation is the largest-remainder one for every budget |
| Apportionment.LargestRemainderIff | attention.py:157-164 | without ties it is the largest-remainder one if and only if the impact term lets no unit past one with a larger fraction across the cut |
| Apportionment.NotLargestRemainder | attention.py:161 | an input where it does |
| Hadamard.BitTrick | kivi_helpers.py:81 | n & (n-1) is zero exactly for powers of two |
| Hadamard.DoubledOrthogonal | kivi_helpers.py:85-86 | doubling keeps H times its transpose equal to n times the identity |
| Hadamard.WalshHadamard | kivi_helpers.py:76-87 | the loop stops at exactly n by n for powers of two and refuses all else; the result is symmetric, orthonormal and ±1 over the root of n |
| Rotation.UnrotateRotate | kivi_helpers.py:116-135 | rotating and rotating back is the identity |
| Rotation.RotationKeepsError | kivi_helpers.py:116-135 | rotate, quantize in any way, rotate back: the squared error is the quantizer's on the rotated row |
| Rotation.HadamardRotates | kivi_helpers.py:138-147 | the Walsh-Hadamard matrix is such a rotation |
| Rotation.PerTokenError | kivi_helpers.py:127-135 | a rotated per-token row's squared error is at most the sum of squared half steps |
| Rotation.PerChannelError | kivi_helpers.py:116-124 | the same for per-channel scales |
| Eviction.MarkKept | layer.py:911-925 | exactly the larger of the keep count and the protected keys survive, and every evicted key scores at most as much as every chosen one |
| Eviction.ApplyTokenEviction | layer.py:895-932 | the same end to end, with rows left alone when nothing is evicted |
| Eviction.ScoresConserve | layer.py:915-918 | heavy-hitter scores of all keys add up to the number of attention rows |
| Eviction.HeavierScoresMore | layer.py:915-918 | a key that no row gives less than another and some row more scores higher; by recency, the later one does |
| Eviction.KeepCountFits | layer.py:910 | the keep count is the fraction of keys to the nearest number, at least one and at most all |
| Eviction.EvictionConditions | layer.py:928-930 | each new attention row is the old one conditioned on the kept keys |
| Eviction.EvictedRowNormalised | layer.py:928-930 | the new row sums to one |

## Left out

- Floating point: casts, TF32, tiling, NaN guards and scale widths. Comments that promise bit-identical results are stated as equality over the reals.
- Agreement.BatchedEqualsLooped: the default score formula and a positive sensitivity; the router's ablation scores, which the batched path ignores, are not compared. Where slots that do carry attention tie, which of them is read depends on the tie rule of top-k, and nothing is claimed.
- Capacity.ArenaSuffices: absolute store budgets only. In ratio mode the arena can be too small; `RatioArena.RatioFitsIff` says when, for equal multipliers.
- Saturation.TinyTakes: real arithmetic. A 16-bit float rounds such entries to zero, and the bound then still holds but need not be reached.
- Protocol.Forward: one batch row. The branch for larger batches never resets its caches and has no comparable law.
- RouterSoundness.RoutedSound: sensitivities are non-negative, since a negative one makes budgets negative and Python then slices from the end.
- Cache.KVCache.WriteKResidual: a block packed into a single byte counts as refused when its slot has another size; the tensor assignment would broadcast it.
- `scale_quant="int8"`: pages that decode allocates read their scales back as zero there.
- Side-buffer base quantizers, pre-rotary key storage, mixed bit widths, low-rank and evaluation-mode corrections.
- `vdom_optimized`, whose one-slot K arena makes the slot count of `num_stored_residual_slots` wrong.
- Experimental score changes: the shortlist prefilters, the query-aware K score, selector variants, position policies, the q·R clamp and the norm guard. They change the ranking in one path only.
- The random ablation score and seeded random rotations; the rotation laws hold for any orthonormal matrix.
- `vectorized_v_correction`, which no caller reaches, and the decode-time correction gate, which looks at the read ratio alone.
- The memo of unpacked slots: the loop here unpacks each slot it reads, which gives the same block.
- Projections, rotary embedding and base attention itself: tokens and attention rows are inputs. The prompt's own attention mask is part of the base logits.
- Environment variables, debug counters, chunk records, devices beyond their identity, and HuggingFace's own cache.
- The code, scale, count and metadata tensors of a page are kept as one array of stored rows, one of counts and one of metadata; the four code and scale tensors are not four arrays.
- Negative sink sizes for eviction, where Python would slice from the end.
