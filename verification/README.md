# MQuery: verified models of the distributed query pipeline

MQuery answers corpus queries by cutting a corpus into chunks, queueing one job per chunk in Redis,
letting workers run the jobs, and merging the partial frequency lists again. This project models that
machinery in Dafny and proves what it keeps: on values where the program computes, on heap objects
where it updates through pointers, and as transition systems where several processes interleave.
`dafny verify dfyconfig.toml` verifies everything.

## What is modelled

**Frequency lists** (`Permutations`, `FreqRows`, `FreqDistribs`, `Compile`, `SplitCorpus`, `Pipeline`).
The engine is a list of hits, each with one position and one value; a worker counts the hits of its
chunk, adds zero rows for the values only the norms know, sorts and cuts (`CompileFreqResult`).
`MergeWith` runs on objects: it keeps the other side's item pointers and later updates the items through
them. The main results: for every chunk size, frequency limit, cut and order of arrival the merged
frequency of a value never exceeds its true count and misses at most the sum of what the chunks' cuts
may hide; a value lost in the final cut is bounded by the last kept row; and when nothing is cut the
parallel form is the sequential one exactly if the frequency limit is harmless.

**Automatic binning** (`ZScores`, `Binning`). Floats are reals; a score is kept as deviation and
variance, so that bounds are on squares. The z-score of an item of a window of w items is at most
(w - 1) / sqrt(w), and the bound is sharp; from it follows that windows of 10 never reach the threshold
3.5. The bin count is within one of what the heuristic wants, and the bins conserve the totals.

**Requests over Redis** (`Protocol`, `Workers`). `Protocol` is a transition system with any number of
clients, workers and queries; one step is one Redis command or one local decision, so that results may
expire, timers may fire and commands may fail anywhere in between. `Workers` holds the worker's and the
client's code as classes over that system: every command of theirs is a step, and between any two of
them everybody else takes arbitrarily many steps.

The frame of the classes is that nobody else's step changes what a worker or a waiting client is doing
(`Workers.OthersLeaveAlone`, `Workers.World.Interfere`). A worker cannot tell a failed pop from an empty
queue, because the missing value is tested before the error (`Workers.DequeueQuery`); only the ghost
result of `Workers.WorkerProcess.TryNextQuery` can.

**The fan-in of the streamed answer** (`FanIn`, `FanInMessages`, `LastMessage`, `Streaming`), on top of the
guarantee of `Protocol` that each waiting goroutine gets exactly one answer. A merge takes one step per
row, so a goroutine that reads the shared result without the lock may see half of somebody else's rows.
A message is a copy of the result's fields: its size is a value, its rows are shared and go on growing
until they are read. The model keeps the rows as they were when they were copied, and `Received` is what
is read of them later.

**Norms and their cache** (`Norms`), **structural attributes across the C++/Go border** (`StructAttrs`),
**renaming of attributes** (`TextProps`), with splitting and joining of strings in `Text` and the
option type in `Wrappers`.

## What the models show about the code

Each of these is a lemma or a contract, with the exact condition where there is one.

- Binning as called from `filterByYearRange` panics exactly for series of 5 to 9 items: the smallest
  window is 10 and nobody checks the length (`Binning.BinFiltered`).
- A window of equal frequencies has no z-score; the comparison with the thresholds then fails and the
  series is left unbinned, however long it is (`Binning.ConstantWindowUngroups`).
- A frequency limit above 1 is applied per chunk. Without a cut, the parallel list has the entries of the
  sequential one under the same limit if and only if each value of positive norm either is below the
  limit in the whole corpus or is below it in no chunk that holds it
  (`Pipeline.ParallelRefinesSequential`); its frequency is then the true one under the second condition
  only (`Pipeline.ExactUnlessBelowLimit`).
- A value with norm 0 has IPM 0 in each worker's list (`Compile.ZeroNormRow`), and no number as its IPM as
  soon as two lists that name it are merged: without a cut, whenever there is more than one chunk
  (`Pipeline.ZeroNormMerged`).
- An empty corpus has no chunks: the parallel form lists nothing, the sequential one lists every norm
  (`Pipeline.EmptyCorpusListsNothing`).
- A chunk size that is negative and no larger than the corpus makes the split panic
  (`SplitCorpus.SplitCorpus`).
- What is read of the last message of a stream has final frequencies, but it covers only the rows that
  were there when it was copied, and these can be the rows of any single chunk
  (`LastMessage.LastMessageMayBePartial`). If every chunk succeeds, it is always complete if and only if
  each chunk's list names every value that any chunk counted (`LastMessage.LastMessageCondition`). With a
  limit that cuts nothing that is so, as every list names every norm (`Streaming.UncutStreamIsWhole`).
  Its concordance size is always that of all chunks if and only if there is a single chunk, or no hit at all
  (`LastMessage.LastSizeCondition`).
- The cache key joins corpus and attribute with `#`. Two requests share a key exactly when one
  attribute holds a `#` in the right place (`Norms.KeysCollide`), and then the later request gets the
  norms of the earlier one (`Norms.HashBreaksAgreement`). A run is right for every engine if and only if
  no request that may store its norms shares its key with a later, different one
  (`Norms.AlwaysAgreesCondition`).
- Flattening and regrouping lose attributes without values and unite neighbours of the same name, and
  lose nothing else (`StructAttrs.RegroupOfFlatten`, `StructAttrs.RoundTrip`).
- Rewriting a map while ranging over it is the plain renaming if and only if new names differ, take no
  original name and are not renamed again (`TextProps.RenamingCondition`).

## Model

| member | source | states |
|---|---|---|
| `SplitCorpus.SplitCorpus` | corpus/edit/edit.go:71-116 | file i holds the start of chunk i of the tiling in its first eight bytes and the end in the other eight, the least significant byte first; more than 200 chunks are refused; a negative chunk size panics if it is no larger than the corpus, and writes nothing otherwise |
| `SplitCorpus.ChunksTile` | corpus/edit/edit.go:93-95 | the chunks are non-empty, each begins where the one before ends, the first at 0 and the last at the corpus size |
| `SplitCorpus.SubcorpusRoundTrip` | corpus/edit/edit.go:105-116 | the 16 bytes of a subcorpus file decode to the range that was written |
| `SplitCorpus.SubcorpusBytes` | corpus/edit/edit.go:105-116 | the file of a chunk has sixteen bytes: the start of the range, then its end, each the sum of its bytes times the powers of 256 |
| `FreqDistribs.FreqDistrib.FindItem` | rdb/results/results.go:231-238 | the item of the first row with the word, nil exactly if there is none |
| `FreqDistribs.FreqDistrib.MergeWith` | rdb/results/results.go:240-255 | in spite of the shared pointers the list becomes the merge of the two lists as they were; sizes are added; the query template is cleared |
| `FreqDistribs.MergeArrived` | corpus/handlers/ttypes2.go:96-101 | results that share no items merge to the fold of their lists in the order of arrival, the sizes add up, and the corpus size is that of the last result, although earlier results are updated through later ones |
| `FreqDistribs.CollectParallel` | corpus/handlers/ttypes2.go:66-125 | the first error if there is one, else a panic for a negative limit, else the merge, stably sorted and cut, with 100 for a limit of 0, the sum of the sizes and the corpus size of the last result |
| `FreqRows.MergeAllAddsTotals` | rdb/results/results.go:240-255 | each value's merged frequency is the sum over the lists |
| `FreqRows.MergeAllOrderIndependent` | rdb/results/results.go:240-255 | every permutation of the lists gives the same values with the same frequencies |
| `FreqRows.MergeAllWords` | rdb/results/results.go:240-255 | the merge has exactly the values that some list has |
| `FreqRows.MergeAllWellFormed` | rdb/results/results.go:240-255 | words stay distinct, bases stay the norms, and IPM * Base = 1e6 * Freq wherever the base is positive |
| `FreqRows.MergeGrows` | rdb/results/results.go:240-255 | a merge removes, moves or shrinks no earlier row |
| `FreqRows.ZeroNormIpm` | rdb/results/results.go:245-253 | lists with at most a zero row for a value merge to a finite IPM exactly as long as one list at most names it |
| `FreqRows.SortSorts` | corpus/handlers/ttypes2.go:115-120 | the sort is a descending permutation |
| `FreqRows.SortIsStable` | corpus/handlers/ttypes2.go:115-120 | rows of equal frequency keep their order |
| `Compile.CompileFreqResult` | worker/common.go:35-88 | the list is an arrangement, cut at the limit, of the counted rows and a zero row for each other norm; a missing norm stops it with the unsorted rows so far |
| `Compile.CompileIsExactTopK` | worker/common.go:41-87 | with norms: one row per norm, with the counted frequency or 0; sorted; as long as limit and norms allow; no dropped value is more frequent than a kept one |
| `Compile.TopKWithoutNorms` | worker/common.go:53-87 | without norms: each row is a counted value based on the size of the corpus; sorted; as long as limit and values allow; no dropped row is more frequent than a kept one |
| `Compile.ZeroNormRow` | worker/common.go:69-80 | a value without a positive norm has the zero row with IPM 0 |
| `Pipeline.ChunksCountAll` | corpus/edit/edit.go:93-101 | for every chunk size the counts and concordance sizes of the chunks add up to those of the corpus |
| `Pipeline.ListedReachesLimit` | worker/actions.go:74-79 | what the engine is taken to list for a chunk: the values with a hit in it whose count reaches the frequency limit |
| `Pipeline.WholeCorpusCounts` | worker/actions.go:74-79 | over the whole corpus a count is the number of hits with that value, and the concordance size the number of hits |
| `Pipeline.ChunkBound` | worker/actions.go:74-101 | a worker's frequency misses at most the last kept one if the list was cut, or what the frequency limit hides |
| `Pipeline.ChunkExact` | worker/actions.go:74-101 | without a cut it is the count, or 0 below the frequency limit |
| `Pipeline.TopKErrorBound` | corpus/handlers/ttypes2.go:66-125 | for every order of arrival, true count minus the sum of the chunks' losses <= merged frequency <= true count, and values above the sum of the losses survive |
| `Pipeline.LostInFinalCut` | corpus/handlers/ttypes2.go:115-125 | a value that the final cut loses has a true count of at most the last kept frequency plus the sum of the losses |
| `Pipeline.MergedWellFormed` | rdb/results/results.go:240-255 | whatever the workers answered, the merged list has distinct words, whole-corpus bases and exact IPMs |
| `Pipeline.ExactUnlessBelowLimit` | worker/actions.go:74-101 | without a cut a merged frequency is exact if and only if no chunk holds the value below the frequency limit |
| `Pipeline.ParallelRefinesSequential` | corpus/handlers/ttypes2.go:66-125 | without a cut and for every frequency limit: split, compile, merge, sort and cut give the entries, and then the sorted frequencies, of one compilation of the whole corpus, if and only if the limit is harmless for each value of positive norm |
| `Pipeline.DefaultLimitRefines` | corpus/handlers/ttypes2.go:51-125 | with the default limit of 1 they always do |
| `Pipeline.ZeroNormMerged` | rdb/results/results.go:245-253 | whatever the workers answered, a value of norm 0 has a finite merged IPM exactly as long as one list at most names it; without a cut as many name it as there are chunks |
| `Pipeline.EmptyCorpusListsNothing` | corpus/edit/edit.go:78-93 | the exception: a corpus without positions has no chunks |
| `ZScores.BdMean` | rdb/results/tfbinning.go:51-57 | the loop computes the mean |
| `ZScores.BdVariance` | rdb/results/tfbinning.go:39-49 | the two loops compute the sample variance |
| `ZScores.BdMovingZScores` | rdb/results/tfbinning.go:59-71 | entry i is the score of item i in the window that starts with it |
| `ZScores.BelowMeans` | rdb/results/results.go:81-104 | comparing the squares is comparing the absolute score with the threshold |
| `ZScores.NumZeroIs` | rdb/results/tfbinning.go:73-81 | the number of items without a hit |
| `ZScores.DeviationsCancel` | rdb/results/tfbinning.go:39-57 | the deviations of a window add up to zero |
| `ZScores.ScoreBound` | rdb/results/tfbinning.go:59-71 | w * deviation^2 <= (w - 1)^2 * variance for every window of w >= 2 items |
| `ZScores.SpikeAttainsBound` | rdb/results/tfbinning.go:59-71 | a lone hit attains the bound, and reaches 3.5 in windows of 15 and more |
| `ZScores.SmallWindowStaysBelow` | rdb/results/tfbinning.go:59-71 | no defined score of a window of at most 14 items reaches 3.5 |
| `ZScores.UndefinedIsConstant` | rdb/results/tfbinning.go:59-71 | a score is undefined exactly when all frequencies of its window are equal |
| `Binning.ChooseItemsPerBin` | rdb/results/results.go:79-104 | the maximum loop and the thresholds give the bin size of the specification, never 0 |
| `Binning.FillBins` | rdb/results/results.go:114-143 | the accumulating loop yields one bin per full block and one for a rest with a positive total |
| `Binning.BinAsDataSeries` | rdb/results/results.go:47-144 | all outcomes: short series and unreadable dates are returned as they are, bad windows panic, all others are sorted and binned |
| `Binning.BinFiltered` | corpus/handlers/ttchunked.go:192-211 | the windows are 10, 15, 20, 30 and 100 for up to 50, 100, 300, 1000 and more items; with them the binning panics if and only if the series has 5 to 9 items; 11 to 50 items come out in bins of 3 to 10, unless a window of 10 is constant |
| `Binning.BinSize` | rdb/results/results.go:89-104 | for n > 10 and k of 3, 5, 10: with m = ceil(n/k), 3 <= r = roundToEven(n/m) <= k and m <= ceil(n/r) <= m + 1 |
| `Binning.BinSizeCases` | rdb/results/results.go:81-104 | for every series and window: with all scores below 2.5 the number of wanted bins is n/10 rounded up if more than a tenth of the n items have no hit, else n/5; below 3.5 it is n/3; the bin size is n over that number, rounded to the nearest, halves to the even one; otherwise it is 1 |
| `Binning.BinCount` | rdb/results/results.go:89-142 | 1 <= r <= k and between m - 1 and m + 1 bins come out, for every series and window |
| `Binning.ConstantWindowUngroups` | rdb/results/results.go:81-104 | one window of equal frequencies, of whatever size, leaves the series unbinned |
| `Binning.GroupedUnlessConstant` | rdb/results/results.go:81-104 | with windows of at most 14, more than 10 items go into bins of 3 to 10 unless some window is constant, and stay unbinned if one is |
| `Binning.SpikeUngroups` | rdb/results/results.go:81-104 | in a window of 15 items or more one lone hit leaves the series unbinned |
| `Binning.BinsAreBlocks` | rdb/results/results.go:114-143 | bin i is the i-th consecutive non-empty block of the sorted dates |
| `Binning.BinsAreExact` | rdb/results/results.go:114-143 | IPM * Base = 1e6 * Freq for each bin of positive base; a bin without a base has an infinite IPM, or none if it has no hit |
| `Binning.BinsAndTail` | rdb/results/results.go:114-143 | the number of full blocks, and one more bin exactly if some item behind them has a hit |
| `Binning.BinningConserves` | rdb/results/results.go:55-143 | for every bin size, total frequency is conserved, total base too but for a dropped block of zeros at the end |
| `Binning.LabelIsEarliest` | rdb/results/results.go:72-129 | each label is the earliest date of its block |
| `Binning.LabelsInOrder` | rdb/results/results.go:72-129 | labels never go back in time |
| `Protocol.KeepsInv` | rdb/client.go:235-398 | each of the twelve kinds of step keeps the invariant of queue, workers and channels |
| `Protocol.JobConservation` | rdb/client.go:356-370 | each pushed query is queued, held by one worker or finished, exactly one of these, and was run at most once |
| `Protocol.FirstInFirstOut` | rdb/client.go:266-269 | the popped queries are the oldest pushed ones, in push order |
| `Protocol.SingleCorrelatedAnswer` | rdb/client.go:272-349 | a waiting goroutine sends at most one value, exactly one before it closes, and it is what the backend returned for its own query or an error, the timeout if no notification was sent |
| `Protocol.DeliveredValue` | worker/worker.go:94-195 | exactly the value that is delivered: what the backend returned if the first attempt succeeded, else the error that belongs to the attempt that did and to the way the run ended |
| `Protocol.SetBeforeNotify` | rdb/client.go:390-396 | a pending or received notification names its own channel, under which the result is stored unless it expired since; there is at most one |
| `Protocol.NotificationArrives` | rdb/client.go:375-398 | a notification that was sent is there for its waiting client to receive |
| `Protocol.LookupAnswers` | rdb/client.go:283-333 | a notified client emits one answer: a failed or late lookup and an undecodable result are reported as such, otherwise it is the stored result of its own query; the key is gone exactly if it expired |
| `Protocol.LookupSucceedsBeforeExpiry` | rdb/client.go:283-333 | a client that looks up its result before the key expires gets it |
| `Protocol.ListenerDecides` | worker/worker.go:215-227 | once its listeners can be counted, a query runs if its client has not closed its channel and is dropped if it has |
| `Protocol.BoundedPublication` | worker/worker.go:94-195 | past the listener check a query takes one to three publish attempts, two at most for an unknown function and one after a panic, and is given up after the last only; it is replied to exactly if one notification was sent; it is dropped for want of a listener only if its client has closed |
| `Workers.WorkerProcess.PublishResult` | worker/worker.go:70-83 | a successful attempt ends the step as replied, a failed one leaves the next plan, or gives up after the last |
| `Workers.WorkerProcess.PublishFunctionResult` | worker/worker.go:104-110 | the result, else an error of its type, else only the last attempt is left |
| `Workers.WorkerProcess.RunQueryProtected` | worker/worker.go:94-195 | no error means an answer was sent; after a panic or two failures only the last attempt is left |
| `Workers.WorkerProcess.TryNextQuery` | worker/worker.go:197-244 | under any interference: pops one query and finishes it, dropped only if it cannot be decoded, its listeners cannot be counted or its client has closed, or finds everything popped that was pushed before, unless Redis was out of reach |
| `Workers.WorkerProcess.Start` | worker/worker.go:47-63 | the ticker alone drains the queue: as many ticks as queries and Redis failures suffice, whatever is pushed meanwhile |
| `Workers.ClientProcess.PublishQuery` | rdb/client.go:248-270 | the client waits on a name nobody had, and the query is pushed, or the error leaves an abandoned subscription |
| `Workers.ClientProcess.AwaitAnswer` | rdb/client.go:273-349 | whichever of message and timer wins, the goroutine sends exactly one value and closes; a delivered value is what was published for its own query in the last attempt: the result or an error |
| `FanIn.KeepsInv` | corpus/handlers/ttchunked.go:238-289 | each action of each goroutine keeps the invariant of merges, snapshots and messages |
| `FanIn.KeepsSizes` | rdb/results/results.go:240-241 | so it does with the sizes: each is the sum over the chunks that had got the lock |
| `FanInMessages.OneMessagePerChunk` | corpus/handlers/ttchunked.go:238-292 | at the close, the chunk numbers sent are a permutation of 1 to the number of chunks |
| `FanInMessages.FailureIsReported` | corpus/handlers/ttchunked.go:245-275 | a chunk whose query could not be published or answered has sent a failure, and no rows, when the channel closes |
| `FanInMessages.MessageCoversItsChunk` | corpus/handlers/ttchunked.go:277-286 | when a message is built it holds at least what its own chunk counted and at most what all chunks counted, even in the middle of another merge |
| `FanInMessages.ReceivedCoversItsChunk` | corpus/handlers/ttchunked.go:284-286 | the same bounds hold for what is read of it, whenever it is read |
| `FanInMessages.SomeMessageIsComplete` | corpus/handlers/ttchunked.go:277-292 | some message is the final result: exactly the frequencies and the size of all chunks that succeeded |
| `FanInMessages.SomeMessageIsTheWholeMerge` | corpus/handlers/ttchunked.go:277-292 | if all succeed, some message is the final result, with the values and frequencies of the merge of all lists |
| `LastMessage.LastMessageMayBePartial` | corpus/handlers/ttchunked.go:277-286 | for any number of chunks and each of them, a run without failures whose last message copies the rows and the size of this chunk alone |
| `FanInMessages.LastIsReadAfterAllMerges` | corpus/handlers/ttchunked.go:277-292 | once each chunk has its message nothing changes the result any more |
| `LastMessage.LastMessageCondition` | corpus/handlers/ttchunked.go:284-292 | what is read of the last message of every run without failures has the frequencies of the whole merge if and only if there is a chunk and each list names every value that any chunk counted |
| `LastMessage.LastSizeCondition` | corpus/handlers/ttchunked.go:284-292 | the last message of every run without failures has the size of all chunks if and only if there is exactly one chunk, or there are chunks but no hits |
| `LastMessage.MessageSize` | rdb/results/results.go:240-241 | the size in a message is at least that of its own chunk and at most that of all |
| `Streaming.UncutStreamIsWhole` | corpus/handlers/ttchunked.go:219-295 | if no worker's list is cut, the last message of every run without failures is read complete |
| `Streaming.LastMessageIsTrue` | corpus/handlers/ttchunked.go:219-295 | with the default frequency limit as well, the client reads the true counts in it |
| `Streaming.StreamErrorBound` | corpus/handlers/ttchunked.go:219-295 | whatever is cut, no message is ever read with more than the true count, and one misses no more than the chunks' cuts may hide |
| `FanInMessages.MessagesGrow` | corpus/handlers/ttchunked.go:277-286 | through the shared rows a reader sees the words that were copied, in place, with frequencies that only grew |
| `FanInMessages.StreamEnds` | corpus/handlers/ttchunked.go:235-292 | every run has at most one action per row, five per chunk and the close |
| `FanInMessages.GoesOn` | corpus/handlers/ttchunked.go:235-292 | while the channel is open some action other than a failure is possible: no deadlock before the close |
| `Norms.NormsCache.Get` | worker/normscache.go:31-37 | the entry of the key, or an empty map and false |
| `Norms.NormsCache.Set` | worker/normscache.go:39-47 | exactly the entry of the key changes |
| `Norms.Worker.TextTypeNorms` | worker/actions.go:240-259 | answers with the cached or the direct norms and stores only a successful computation |
| `Norms.CacheHolds` | worker/actions.go:240-259 | after any run the cache has an entry exactly for the keys of the requests for norms that were computed successfully |
| `Norms.Worker.FreqDistrib` | worker/actions.go:67-107 | rejects limits that are not positive, reports engine errors, and compiles with the cached or direct norms, reporting a failure to get them beside the rows; a query that is not about text types is compiled with the size of the subcorpus and no norms |
| `Norms.KeysCollide` | worker/normscache.go:27-29 | two requests have the same key if and only if they are equal or one attribute holds a `#` behind which the other begins |
| `Norms.AgreementCondition` | worker/actions.go:240-259 | a run of calls uses the direct norms throughout if and only if no successful computation precedes a call with the same key and other norms |
| `Norms.AlwaysAgreesCondition` | worker/normscache.go:27-47 | a run agrees whatever the engine answers if and only if no request for norms of the form struct.attr shares its key with a later request for another corpus or attribute |
| `Norms.CacheAgrees` | worker/actions.go:81-99 | with attributes free of `#` every run agrees with direct computation |
| `Norms.HashBreaksAgreement` | worker/normscache.go:27-29 | a pair of attributes with a `#` for which it does not |
| `Norms.NormsForAgree` | worker/actions.go:81-101 | in an agreeing run the rows are compiled with the direct norms, or without norms if these cannot be computed |
| `Norms.AttrOfCrit` | worker/common.go:90-93 | the worker recovers the attribute from the criterion that the handlers build |
| `StructAttrs.GetStructAttrValuesC` | mango/mango.cc:848-905 | the collected triples are those of the cut domains of all names; one unknown name fails the call |
| `StructAttrs.GetStructAttrValues` | mango/mango.go:474-499 | the loop with the moving pointer computes the regrouping |
| `StructAttrs.ParseWritten` | mango/mango.cc:861-876 | a list of attributes written with commas or bars is read back |
| `StructAttrs.DotlessIsIgnored` | mango/mango.cc:861-876 | an entry without a dot adds no name |
| `StructAttrs.NothingToParse` | mango/mango.cc:861-876 | an empty configuration value gives no names |
| `StructAttrs.TruncatedMeansCut` | mango/mango.cc:878-889 | the values are a prefix of the domain within the limit, and the flag is set exactly if it is a proper one |
| `StructAttrs.RegroupOfFlatten` | mango/mango.go:483-497 | for all inputs: regrouping yields the attributes without the empty ones, neighbours of one name united |
| `StructAttrs.RoundTrip` | mango/mango.go:483-497 | the round trip is the list of cut domains if and only if no domain is empty and no two neighbours have the same name |
| `StructAttrs.AvailableValues` | mango/mango.go:474-499 | both sides in a row, from the configuration value to the list |
| `TextProps.Line.ApplyMapping` | corpus/concordance.go:30-40 | the loop ends in a state that some order of visits allows |
| `TextProps.IndependentRenames` | corpus/concordance.go:30-40 | under the condition every order, visiting created entries or not, ends with the plain renaming |
| `TextProps.RenamingIsUnique` | corpus/concordance.go:30-40 | hence all orders end with the same entries |
| `TextProps.RenamingCondition` | corpus/concordance.go:30-40 | the loop is the plain renaming for all values if and only if new names differ, take no original name and are not renamed again |

## Left out

- The Manatee engine: query evaluation, KWIC, collocations, memory. Its frequency list of a chunk is assumed to name each value once, with the number of hits inside the chunk, if that reaches the limit. A hit has one position; a hit across a chunk border is counted where it starts.
- Norms missing for a counted value: `Pipeline` assumes that every value has one. What the compilation does otherwise is in `Compile.CompileFreqResult`; the caller ignores that error (worker/actions.go:100).
- Floats: means, scores and IPMs are reals, and the number of chunks and bins is computed without rounding. Integers have no width, except for the 64-bit bounds in subcorpus files.
- SplitCorpus.SplitCorpus: a chunk size of 0 is not part of this model; what the language converts an infinite number of chunks to is not defined.
- FreqDistribs.FreqDistrib.MergeWith: requires the two sides to share no items, which holds for decoded worker results.
- FreqDistribs.CollectParallel: the errors are given in the order in which they are noticed.
- `FreqDistribParallel`: its base comes from the first chunk, and a publish error leaves its wait group open.
- Pipeline.ParallelRefinesSequential: assumes a limit on rows not below the number of norms; `Pipeline.TopKErrorBound` tells what holds otherwise.
- Protocol: channel names are fresh numbers, encodings are injective or fail, clocks are arbitrary choices, a failed command has no effect, and subscriptions hold from the call on. A notification that is announced as failed but delivered is not part of this model.
- Workers.ClientProcess.PublishQuery: a failed announcement, after which the caller drops the answer channel, is not modelled; every waiting goroutine has a reader.
- The select between a message and the timer is a choice that may fall either way once both are ready; the goroutine looks a bounded number of times, for any bound.
- FanIn: the merge of one row is one action, and so is copying the shared result, although the program copies it without the lock.
- FanInMessages.ReceivedCoversItsChunk: a message is read in one go; for the last message, after which nothing changes, that makes no difference.
- FanInMessages.StreamEnds: relies on each query being answered and each message being read.
- Norms.Worker.FreqDistrib: a nil map of norms and an empty one are the same; the engine answers the same for the same corpus and attribute.
- `textTypesAvailValues`: it only filters the regrouped list by its flag.
- TextProps: the mapping is a function of the attribute; how the configuration finds a property is not part of this model. `extra` bounds the visits to created entries, for any bound.
- HTTP handlers, SSE writing, configuration, authentication, monitoring, logging and the CQL translator: plumbing.
