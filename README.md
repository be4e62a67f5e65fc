# Perceptron branch predictor with a direct-mapped BTB

This project models, in Dafny, the core of a branch-prediction simulator
(`checkpoint1A_perceptron.cpp`). The simulator takes a stream of branch events,
each an instruction address and a taken or not-taken outcome. For each event it
consults a Branch Target Buffer (BTB). The BTB is a direct-mapped table of 1024
entries, indexed by `address & 0x3FF` and tagged with the full address. Each entry
holds a 10-weight perceptron. All entries share one global 10-position history
register.

- On a hit, the entry's perceptron predicts "taken" when the dot product of
  history and weights is positive. The prediction is scored.
- The hit then trains the weights with the thresholded rule
  `w[i] += t * History[i]`. The rule fires when the prediction was wrong or
  `|x| < 1.93*10+14` (= 33.3).
- After that, the outcome `t` (+1 or -1) is shifted into the history.
- On a miss, the implicit prediction is "not taken". A taken miss installs the
  address in its slot. If the slot was occupied, this counts a replacement, and
  the slot's weights are kept.
- Six global counters are kept: seen, taken, correct, replaced, BTB hits and
  BTB misses.

The project has four modules, one per file:

- `Perceptron` (perceptron.dfy) covers the arithmetic. It holds the dot
  product, the prediction, the training condition and step, and the history
  shift. It also proves what training does to the perceptron output.
- `Btb` (btb.dfy) covers the table. It holds the 64-bit address, the slot
  index, the entry record, insertion, and the sum of the per-slot replacement
  counters.
- `Simulator` (simulator.dfy) treats the whole global state as a value
  (`State`). Each routine of the simulator is a transition on that value
  (`AfterLookup`, `AfterUpdate`, `AfterInsert`, `Step` for `br_predict`), and
  `Run` handles a sequence of events. The file also holds the lemmas: the
  per-operation properties, the bookkeeping invariant across any event
  sequence, and two end-to-end scenarios.
- `BranchPredictor` (predictor.dfy) has the class `Predictor`. It is the
  simulator's global state, updated in place. It holds the `BTB[]` record
  array as an `array<Entry>`, `History[]` as an `array<int>` and the counters
  as fields. Its methods have the simulator's loops and are proved to perform
  exactly the `Simulator` transitions on `Abs()`.

Notes on how the model reads the code:

- Weights and history are declared `float` in the code. They only ever hold
  integers: history is 1 and 0 at start and then +1 or -1, and weights start
  at 0 and move by one history value per step. So they are `int` here.
- The threshold is kept as the real constant `1.93 * 10.0 + 14.0`. It is
  proved to mean `-33 <= x <= 33` on integer outputs.
- 33.3 is small enough that the confidence gate matters:
  `TrainingConditionWitnesses` shows both of its outcomes, a confident,
  correct prediction that is not trained, and a correct prediction that is
  trained because its output is below 33.3.
- `BTBHit` and `BTBMiss` are never explicitly initialised. As globals they
  start at zero, and the model starts them at zero.
- `History` starts as `{1, 0, ..., 0}`.
- The constructor models static storage followed by the `BTB_init()` call in
  `main`.

## Model

| member | source | states |
|---|---|---|
| Btb.SlotIndex | checkpoint1A_perceptron.cpp:49-50 | the slot `mask & ins_ptr` is always below 1024 (every table access is in bounds) and equals the address modulo 1024 |
| Btb.IsHit | checkpoint1A_perceptron.cpp:98-101 | a lookup hits when slot `mask & a` is valid and tagged a; while a hits, no other address of the same slot can (the table is direct-mapped) |
| Btb.Installed | checkpoint1A_perceptron.cpp:182-190 | the installed slot holds a (and no other address) with prediction true, keeps its weights, and its ReplaceCount rises by 1 iff it was valid |
| Btb.TotalReplacedUpdate | checkpoint1A_perceptron.cpp:182-186 | rewriting one slot changes the sum of all ReplaceCount values by exactly that slot's change |
| Btb.TotalReplacedZero | checkpoint1A_perceptron.cpp:78 | a table whose ReplaceCount values are all zero sums to zero |
| Perceptron.Outcome | checkpoint1A_perceptron.cpp:145-152 | the recorded outcome is +1 or -1, and positive exactly when the branch was taken |
| Perceptron.Dot | checkpoint1A_perceptron.cpp:118-121 | the output loop (also at :140-143) sums History[i] * w[i]; all-zero weights give output 0 |
| Perceptron.PredictsTaken | checkpoint1A_perceptron.cpp:111-128 | the perceptron predicts "taken" iff its output is positive; a slot with all-zero weights predicts "not taken" |
| Perceptron.ShouldTrain | checkpoint1A_perceptron.cpp:154 | when a perceptron is not trained, it predicted the outcome with an output of at least 34 in the outcome's direction |
| Perceptron.Trained | checkpoint1A_perceptron.cpp:157-160 | the training step keeps 10 weights and, on a well-formed history, always changes them (History[0] is never 0) |
| Perceptron.BelowThreshold | checkpoint1A_perceptron.cpp:154 | `abs(x) < 1.93*10+14` holds for an integer output exactly when -33 <= x <= 33 |
| Perceptron.Shifted | checkpoint1A_perceptron.cpp:164-169 | after the shift, position 0 holds t, each position i >= 1 holds the old value of position i-1, and the length is unchanged |
| Perceptron.ShiftedKeepsHistoryOk | checkpoint1A_perceptron.cpp:164-169 | recording an outcome keeps the history at 10 values in {-1, 0, 1} with a non-zero newest value |
| Perceptron.DotZeroWeights | checkpoint1A_perceptron.cpp:118-121 | weights that are 0 at every position (as left by BTB_init) are AllZero and give output 0, so such a slot predicts "not taken" |
| Perceptron.DotFirstOnly | checkpoint1A_perceptron.cpp:118-121 | weights that are zero beyond position 0 give output History[0] * w[0] |
| Perceptron.DotTrained | checkpoint1A_perceptron.cpp:157-160 | the training step adds exactly t * (History . History) to the output |
| Perceptron.DotSelfLowerBound | checkpoint1A_perceptron.cpp:164-169 | History . History is never negative, and at least 1 because History[0] is non-zero |
| Perceptron.TrainingMovesTowardOutcome | checkpoint1A_perceptron.cpp:154-162 | one training step moves the output strictly towards the outcome: t * x' >= t * x + 1 |
| Perceptron.DotNonNegativeBound | checkpoint1A_perceptron.cpp:118-124 | with non-negative history and weights the output is at least History[0] * w[0] |
| Simulator.Initialized | checkpoint1A_perceptron.cpp:69-91 | BTB_init leaves a full table in which every lookup misses |
| Simulator.Boot | checkpoint1A_perceptron.cpp:38-52 | the state at the first event (static storage, then the `BTB_init()` call at :324) is well formed, has History = [1, 0, ..., 0], and no address hits |
| Simulator.AfterLookup | checkpoint1A_perceptron.cpp:94-108 | BTB_lookup raises BTBHit by 1 on a hit and BTBMiss by 1 on a miss, leaving the other one unchanged, and changes nothing else |
| Simulator.Predict | checkpoint1A_perceptron.cpp:111-128 | BTB_prediction of a is the slot's perceptron on the shared history, so every address of the same slot gets the same prediction |
| Simulator.SlotPeersPredictAlike | checkpoint1A_perceptron.cpp:111-128 | two addresses that share a slot always get the same prediction, since the tag plays no part in BTB_prediction |
| Simulator.Counted | checkpoint1A_perceptron.cpp:231-233 | CountSeen rises by 1 and CountTaken by 1 iff taken; nothing else changes |
| Simulator.Scored | checkpoint1A_perceptron.cpp:237 | CountCorrect rises by 1 iff the event was predicted correctly (used at :237 and :242); nothing else changes |
| Simulator.Run | checkpoint1A_perceptron.cpp:229-244 | handling a sequence of events in order keeps the state well formed and raises CountSeen by the number of events |
| Simulator.AfterUpdate | checkpoint1A_perceptron.cpp:132-173 | the BTB_update transition keeps the table and history in shape; its effect is stated by UpdateShiftsHistory and UpdateTrainsIff |
| Simulator.AfterInsert | checkpoint1A_perceptron.cpp:176-192 | the BTB_insert transition keeps the table in shape; its effect is stated by InsertInstalls |
| Simulator.Step | checkpoint1A_perceptron.cpp:229-244 | the br_predict transition keeps the state in shape; its effect is stated by StepBookkeeping and the lemmas after it |
| Simulator.InitializedEmptiesTable | checkpoint1A_perceptron.cpp:69-91 | BTB_init leaves all 1024 slots invalid, not predicted, tag 0, ReplaceCount 0 and all 10 weights 0, and keeps history and counters |
| Simulator.BootInv | checkpoint1A_perceptron.cpp:38-52 | at program start (static storage and then BTB_init) the bookkeeping invariant holds |
| Simulator.LookupCountsOnce | checkpoint1A_perceptron.cpp:94-108 | a lookup hits iff slot `mask & a` is valid and tagged a; BTBHit rises by 1 on a hit and BTBMiss by 1 on a miss, the other staying unchanged; nothing else changes |
| Simulator.TrainingCondition | checkpoint1A_perceptron.cpp:154 | training happens iff (x > 0) differs from taken or -33 <= x <= 33 |
| Simulator.TrainingConditionWitnesses | checkpoint1A_perceptron.cpp:154 | each disjunct decides on its own: output 40 is trained only when mispredicted; output 5 is trained although correctly predicted |
| Simulator.UpdateShiftsHistory | checkpoint1A_perceptron.cpp:164-169 | after BTB_update, History[0] is +1 or -1 per taken and History[i] is the old History[i-1] for 1 <= i <= 9, whether or not the weights changed |
| Simulator.UpdateTrainsIff | checkpoint1A_perceptron.cpp:140-162 | the slot's weights change iff the training condition holds, then to w[i] + t * History[i]; no other field, no other slot and no counter changes |
| Simulator.InsertInstalls | checkpoint1A_perceptron.cpp:176-192 | after BTB_insert(a), a lookup of a hits and of any other address of that slot misses; prediction is true; weights are kept; ReplaceCount and CountReplaced rise by 1 iff the slot was valid; other slots, history and all other counters are unchanged |
| Simulator.AliasedInsertEvicts | checkpoint1A_perceptron.cpp:182-190 | inserting a and then an aliasing b raises the slot's ReplaceCount by exactly 1; b then hits and a misses |
| Simulator.StepBookkeeping | checkpoint1A_perceptron.cpp:229-244 | an event raises CountSeen by 1, CountTaken by 1 iff taken, and hits + misses by 1; CountCorrect rises by 1 iff (hit and the perceptron predicts taken) equals taken, so a hit is scored against the perceptron and a miss counts as a "not taken" prediction; a miss leaves history and all weights alone; a not-taken miss leaves the table alone; a replacement only evicts a different, valid address |
| Simulator.StepTable | checkpoint1A_perceptron.cpp:235-244 | an event rewrites at most its own slot, and CountReplaced moves exactly as that slot's ReplaceCount |
| Simulator.StepInv | checkpoint1A_perceptron.cpp:229-244 | an event preserves hits + misses == seen, CountReplaced == sum of ReplaceCount, correct <= seen and taken <= seen |
| Simulator.RunInv | checkpoint1A_perceptron.cpp:229-244 | any sequence of events preserves that invariant and raises CountSeen by the number of events |
| Simulator.BookkeepingFromBoot | checkpoint1A_perceptron.cpp:229-244 | from program start, after any events, the invariant holds and CountSeen is the number of events |
| Simulator.LearnedStep | checkpoint1A_perceptron.cpp:235-239 | once a's slot holds a with non-negative history and weights and a positive first weight, a taken event is a hit, is predicted correctly, and keeps that state |
| Simulator.LearnedRun | checkpoint1A_perceptron.cpp:235-239 | such a branch taken n more times is predicted correctly all n times, with n hits and no miss or replacement |
| Simulator.TakenIntoEmptySlot | checkpoint1A_perceptron.cpp:240-244 | a taken branch whose slot is empty misses, is installed without a replacement, and leaves history and weights alone |
| Simulator.TakenOnZeroWeights | checkpoint1A_perceptron.cpp:235-239 | a taken hit on all-zero weights with non-negative history is mispredicted and leaves the slot learned |
| Simulator.ZeroWeightsLearnOnTaken | checkpoint1A_perceptron.cpp:157-169 | training all-zero weights towards "taken" on a non-negative history leaves the slot learned |
| Simulator.AlwaysTakenScenario | checkpoint1A_perceptron.cpp:229-244 | from program start, 0x1000 taken n >= 2 times gives 1 miss, n-1 hits, n-2 correct and no replacement; accuracy is at least 90% from 20 events on |
| Simulator.AliasedTakenEvicts | checkpoint1A_perceptron.cpp:240-244 | a taken branch whose slot holds a different address misses, takes the slot and counts one replacement there and globally |
| Simulator.AlternateRun | checkpoint1A_perceptron.cpp:240-244 | each round of two aliasing taken branches replaces the shared slot twice |
| Simulator.AliasingScenario | checkpoint1A_perceptron.cpp:229-244 | from program start, two aliasing addresses alternating 10 times each give 20 misses, 0 correct, and ReplaceCount == CountReplaced == 19 |
| BranchPredictor.Predictor.constructor | checkpoint1A_perceptron.cpp:38-66 | static storage and then BTB_init give the start state: empty table, History = [1, 0, ..., 0], all counters 0 |
| BranchPredictor.Predictor.BtbInit | checkpoint1A_perceptron.cpp:69-91 | the loop leaves every slot invalid, not predicted, tag 0, ReplaceCount 0 and all weights 0; history and counters are untouched |
| BranchPredictor.Predictor.Lookup | checkpoint1A_perceptron.cpp:94-108 | returns true iff the indexed slot is valid and tagged a; BTBHit rises by 1 on a hit and BTBMiss by 1 otherwise; no entry changes |
| BranchPredictor.Predictor.Prediction | checkpoint1A_perceptron.cpp:111-128 | returns (History . weights of the slot) > 0 and changes nothing (no modifies clause) |
| BranchPredictor.Predictor.Output | checkpoint1A_perceptron.cpp:115-121 | the accumulation loop computes the dot product of History and the slot's weights |
| BranchPredictor.Predictor.Update | checkpoint1A_perceptron.cpp:132-173 | History[0] becomes t, History[i] the old History[i-1]; the state becomes AfterUpdate of the old state |
| BranchPredictor.Predictor.Train | checkpoint1A_perceptron.cpp:157-160 | the slot's weights become w[i] + t * History[i]; nothing else in the table changes |
| BranchPredictor.Predictor.ShiftHistory | checkpoint1A_perceptron.cpp:164-169 | the descending copy loop and the write of t yield the shifted history |
| BranchPredictor.Predictor.Insert | checkpoint1A_perceptron.cpp:176-192 | the slot becomes valid, predicted, tagged a, with weights kept; ReplaceCount and CountReplaced rise by 1 iff it was valid |
| BranchPredictor.Predictor.BrPredict | checkpoint1A_perceptron.cpp:229-244 | the state becomes Step of the old state, and the bookkeeping invariant is preserved |

## Left out

- Pin instrumentation and start-up are not modelled: `Usage`, the command-line
  switches, `Instruction` and `main`'s `PIN_*` calls. Every branch kind (return,
  syscall, direct or indirect, call or not) is forwarded to `br_predict`
  identically, so the model has a single `Event(addr, taken)`.
- The branch-limit check and `exit(0)` at the end of `br_predict` are not
  modelled, because they are process termination. `WriteResults` and `Fini`
  are not modelled either, because they do file I/O, pid suffixing and
  floating-point percentages.
- `BTB_Table` is written by `BTB_init` and never read, so it is not modelled.
- The top-level `Perceptron[size]` array is never used, so it is not modelled.
- `float` arithmetic is not modelled. Weights and history are integers. The
  model does not capture the loss of exactness once a weight or a partial sum
  of the output passes 2^24 in magnitude.
- BranchPredictor.Predictor.BrPredict: `taken` is a bool, while the code
  takes an `INT32` and compares it with a `bool` prediction. The model
  assumes `taken` is 0 or 1; for any other non-zero value the code's
  comparison would differ from the model's.
- The counters are unbounded naturals, so the `UINT64` wrap-around of
  `CountSeen`, `CountTaken`, `CountCorrect`, `CountReplaced`, `BTBHit`,
  `BTBMiss` and `ReplaceCount` is not modelled. It needs 2^64 events.
- Simulator.AfterUpdate: its own contract only keeps the shapes. The training
  and shift it performs are stated by UpdateShiftsHistory, UpdateTrainsIff
  and BranchPredictor.Predictor.Update.
- Simulator.AfterInsert: its own contract only keeps the shapes. The
  insertion it performs is stated by InsertInstalls.
- Simulator.Step: its own contract only keeps the shapes. The event it
  handles is stated by StepBookkeeping, StepTable, StepInv and
  BranchPredictor.Predictor.BrPredict.
