# A verified model of the cognitive-memory daemon

The daemon keeps memories and the weighted links between them for several users. Memories decay, are
boosted and promoted when they are retrieved, supersede one another when an LLM judges them to
conflict, and are compressed into summaries when they fade. This project models the core of the daemon
in Dafny and proves what holds for every input, every run and every interleaving.

- **Lifecycle machine.** `Tables` holds the tables as a value (`Db`) and as an object (`Store`) that the
  handlers update. `Associations`, `Ingest`, `Retrieval`, `Conflicts`, `Consolidation`, `Compression`,
  `Tick` and `Requests` are the handlers: each method is proved to have the effect of a function on
  `Db`. `Steps`, `Runs` and `Tenancy` prove invariants and trace properties of every run, with LLM
  answers, clocks, embeddings and query orders chosen arbitrarily; `Symmetry`, `Marking` and `TtlRule` give
  the exact conditions of three of them. `Verdicts`, `PairLinks` and `Effects` tell what judging, linking, editing,
  searching and the tick leave behind, by rows and positions alone; `Earning` is the way to the core tier.
  `Lineage` is the theory of `superseded_by`; `Lifecycle` and `Cosine` are the arithmetic, and `DecayLaws` its laws.
- **Retrieval and graphs.** `Walks` is the theory of breadth-first search; `Expansion` and `Bridges` use
  it for n-hop expansion and bridge paths. `Linking`, `Ranking` and `Searching` are top-k search with
  hybrid fusion and graph expansion; `Findable` says which memories a search returns, and until when, and
  `Exposure` which ones the graph adds. `EdgeDecay` is the decay of a single edge in place.
- **Connection protocol.** `Protocol` is the server's select loop, as steps of many connections sharing
  two semaphores; `ClientCalls` is the client's id-matching loop and its composition with a connection.
- **Small cores.** `RateLimit`, `Canonical`, `EmbeddingCache`.

Floats are reals. `exp`, `powf` and `sqrt` are parameters; the lemmas that need their monotonicity,
range or values at 0 and 1 have those as hypotheses (`GoodMath`, `GoodExp`, `GoodSqrt`). Ids are
naturals handed out by a counter. `dafny verify dfyconfig.toml` checks the whole project.

## Where the code does less than it promises

- **180-day rule.** Pass 2 of the tick spares core rows; pass 3 can then demote a core row that has been
  cold for longer, and the tick ends with a non-core row past its time (`TtlRule.TtlCanBeEscaped`, a run).
  The exact conditions on the tables before the tick are `TtlRule.RuleHoldsForAnyJudgeIff` and
  `TtlRule.RuleHoldsForTheHeuristicIff`.
- **An access can weaken a memory.** A client can store a stability above one; the boost's cap then cuts
  it to one, which lowers retention from some later instant on, unless the floor hides it
  (`Lifecycle.AccessKeepsRetentionIff`).
- **Links across users.** docs/concepts/memory-model.md promises none; the link handler does not compare
  the endpoints' users (`Tenancy.TenancyIffNoCrossingLink`, `Tenancy.LinkCanCrossUsers`).
- **Automatic cold migration** needs a positive floor, which only core rows have by default and core rows
  are exempt: without a floor set by a client it never happens (`Runs.NothingCoolsWithoutClientFloors`).
- **Collapsing parallel links** with independent maxima drops targets exactly when dated and undated
  links are mixed, as ingest and co-retrieval do (`Linking.CollapseIsSafeIffUniformlyDated`, with the witness
  `Linking.CollapseCanDropAnUndatedLink`).
- **Hidden memories come back by links.** docs/operations/troubleshooting.md:69 reserves superseded, cold and
  expired memories for deep recall. Graph expansion applies none of those filters, and since every memory that
  passes them is in the list it starts from, it adds nothing else (`Exposure.OnlyExcludedMemoriesJoin`).
  `Exposure.ExcludedMemoryShownIff` and `Exposure.PlainSearchesStayPlainIff` say exactly when, and
  `Exposure.ArchivedMemoriesComeBack` is a run.
- **MarkSuperseded** checks nothing: a client can close a cycle of superseded memories
  (`Runs.MarkSupersededBreaksTheForest`); `Marking.ForestIffEveryMarkIsSound` says exactly when not.
- **In-place edge decay** compounds when it is called repeatedly (`EdgeDecay.DecayCompoundsUnlessIdle`).
- **A client timeout** leaves the late answer on the stream, and it defeats the next call that finds it
  before its own answer (`ClientCalls.OkIffAnswerIsNext`). As long as the server answers in order, that is
  every later call (`ClientCalls.OkIffNothingWasAbandoned`); an answer that overtakes the late one saves its
  call (`ClientCalls.OvertakingAnswerSucceeds`). No call ever returns a foreign answer
  (`ClientCalls.OkCarriesOwnResponse`).
- **A token bucket whose wait is no duration**, because the refill is not positive or too small, panics
  while it holds its lock, and takes the poisoned lock for a grant from then on
  (`RateLimit.LimitHoldsIffWaitsFit`).
- **A token bucket of capacity below one** never grants, and its callers sleep for ever
  (`RateLimit.SomeCallIsGrantedIff`); above it rivals can keep a caller waiting (`RateLimit.RivalsCanStarve`).
- **Link writes that interleave** act as atomic bumps exactly when none of them is stale
  (`Symmetry.BumpsAreAtomicIffNoneIsStale`). A stale one loses a bump and can leave the two directions of a
  link different (`Symmetry.InterleavedBumpsLoseOne`, a run); `Symmetry.SymmetricIffNoneSkews` says exactly
  when they agree.

## Model

| member | source | states |
|---|---|---|
| `Runs.LineageStaysAForest` | crates/daemon/src/handlers.rs:467-559 | In every run without a client MarkSuperseded, whatever the LLM answers, `superseded_by` is acyclic, agrees with the superseded flag and never leaves its user |
| `Runs.EveryLineageEnds` | crates/daemon/src/handlers.rs:1331-1457 | From any row of such a run, following `superseded_by` ends at a live row of the same user or at a deleted id, and never returns to its start |
| `Marking.MarkKeepsForestIffSound` | crates/store/src/repos.rs:565-587 | A client MarkSuperseded keeps the forest if and only if it owns none of the rows it names, or its summary was handed out, belongs to the user if it still exists, and does not lead to a row it is to supersede |
| `Marking.ForestIffEveryMarkIsSound` | crates/daemon/src/handlers.rs:1732-1744 | Over every run the lineage is a forest throughout if and only if every MarkSuperseded in it is sound in that sense |
| `Runs.MarkSupersededBreaksTheForest` | crates/daemon/src/handlers.rs:1732-1744 | A witness of an unsound mark: a request that makes a memory supersede itself |
| `Runs.TablesStaySound` | crates/store/src/pool.rs:164-171 | In every reachable state, also when the read and the write of `create_or_strengthen` interleave with other writers: weights lie in [0,1], both endpoints of a link exist, queued pairs are unique and name two different rows of their user, ids and sessions are fresh |
| `Symmetry.SymmetricIffNoneSkews` | crates/store/src/repos.rs:907-1013 | Over every run, split link writes included, the graph is symmetric in weight throughout if and only if no request writes or cuts one direction of a link between two memories so that its mirror is missing or carries another weight |
| `Symmetry.StepIsSymmetricIffNotSkewed` | crates/store/src/repos.rs:1149-1174 | One request on a symmetric graph keeps it symmetric if and only if it does not skew it in that sense; Store, StoreBatch, Search, Delete, Clear and Tick never do |
| `Symmetry.LinksStaySymmetric` | crates/store/src/repos.rs:1002-1013 | In particular, runs without one-directional or split link writes stay symmetric |
| `Symmetry.WriteIsAtomicIffNotStale` | crates/store/src/repos.rs:907-951 | The second half of a split link write leaves what an atomic bump would leave if and only if the weight read and the weight now there bump to the same value, or an endpoint is gone |
| `Symmetry.BumpsAreAtomicIffNoneIsStale` | crates/store/src/repos.rs:907-951 | Over every run, all split writes act as atomic bumps if and only if none of them is stale |
| `Symmetry.InterleavedBumpsLoseOne` | crates/store/src/repos.rs:907-951 | A run from the empty tables: two tasks bump both directions by a quarter, interleave in one of them, and leave 0.75 there and 1.0 in the other |
| `Symmetry.SequentialBumpsLoseNone` | crates/store/src/repos.rs:907-951 | The same bumps one after another leave 1.0 in both directions |
| `Runs.FloorsFollowCategories` | crates/daemon/src/handlers.rs:1430-1440 | In runs without Update, UpdateRetention and BatchUpdate, the floor is 0.6 exactly for core rows and 0 for all others |
| `Runs.TicksSpareCoreRows` | crates/daemon/src/handlers.rs:1183-1251 | In such runs no pass of a tick changes `is_cold` or `is_stub` of a row that was core when the tick began |
| `Runs.NothingCoolsWithoutClientFloors` | crates/daemon/src/handlers.rs:1190-1222 | In such runs pass 1 moves no row at all to cold: the automatic migration needs a floor set by a client |
| `Runs.FloorCounterIsStreak` | crates/daemon/src/handlers.rs:1189-1208 | Along every run `days_at_floor` is the number of consecutive latest scans, since creation or the last restore to hot, that saw the row at a positive floor |
| `Runs.StreakIsLongestSuffix` | crates/daemon/src/handlers.rs:1189-1208 | The streak of a history is its longest suffix of scans at the floor |
| `Runs.ColdExactlyAtSeven` | crates/daemon/src/handlers.rs:1210-1220 | A tick makes a scanned non-core row cold in pass 1 if and only if that count reaches seven or more |
| `Runs.TicksConserveLiveRows` | crates/daemon/src/handlers.rs:1168-1253 | A tick of any run lowers the number of live rows by one per resolved conflict plus four per summary, makes at most five summaries, and removes min(50, length) queue entries |
| `Verdicts.TicksFollowTheAnswers` | crates/daemon/src/handlers.rs:1386-1446 | At every tick of every run, whatever the answers: if both sides of an entry are live at its turn, Contradiction or Update supersedes the existing memory by the new one until the end of the tick and after; Overlap and Unrelated change no row; without an LLM the more important, then more recent, side wins; only Update changes the winner, which takes the larger importance up to the rounding guard; a core loser is demoted |
| `Verdicts.TicksSupersedeForAReason` | crates/daemon/src/handlers.rs:1331-1457 | A memory that a tick of a run takes out of the live ones was absorbed by a summary of that tick, or is the existing side of an entry answered Contradiction or Update while both sides were live, or without an LLM the side that was outranked; and it names the winner |
| `Runs.TicksSummariseWhatFaded` | crates/daemon/src/handlers.rs:1487-1651 | At every tick of every run each cluster is of five distinct hot memories of one user and category with retention below 0.2, each at least 0.7 similar to the first, none in two clusters; its summary carries what the LLM and the provider gave for it, the largest importance and the mean stability of the five, which are superseded by it and cold from now on |
| `Effects.TicksArchive` | crates/daemon/src/handlers.rs:1224-1251 | Every tick of every run archives exactly the rows it finds non-core and cold for more than 180 days: a mark and the first 200 characters stay, the embedding goes; the content of every row stays |
| `Effects.TicksCoolForAReason` | crates/daemon/src/handlers.rs:1189-1222 | What a tick of a run makes cold was hot and is dated now; it was superseded or absorbed, or it is no core row and has been at a positive floor for seven scans or more |
| `Runs.FlagsAgree` | crates/store/src/repos.rs:565-587 | In every run, MarkSuperseded included, the superseded flag is set exactly on the rows that name what supersedes them |
| `Runs.TicksSpareSomeMember` | crates/daemon/src/handlers.rs:1331-1457 | At every tick of every run, for any answers, the batch leaves some member of a set of live memories live, if its entries pair members with members only |
| `Runs.TicksLeaveARepresentative` | crates/daemon/src/handlers.rs:1168-1256 | At every tick of every run, each live memory leads afterwards to a live one: itself, the winner of its conflicts or a summary |
| `Runs.StoresTreatByScore` | crates/daemon/src/handlers.rs:455-559 | Every Store of every run treats each older memory by the score of its hit and in no other way: queued with that similarity from 0.85, 0.05 more stability from 0.75, linked both ways at 0.2 plus half the excess over 0.4 from 0.4, otherwise nothing; links and conflicts among older memories stay |
| `Runs.StoresScoreByPosition` | crates/search/src/searcher.rs:203-209 | The score of a memory is the one at its position in the list of hits, and none if it is not in the list |
| `Runs.StoresKeepWhatTheyAreGiven` | crates/daemon/src/handlers.rs:374-424 | Every Store of every run adds one memory under a fresh id: hot, unread, dated now, with the content, vector and stamp given, importance within [0,1], stability 0.1 + 0.3 times it, and the floor 0.6 exactly if it is core |
| `Runs.SearchesReinforce` | crates/daemon/src/handlers.rs:744-807 | In every run a search leaves each non-stub result in the state the lifecycle boost, one more session and the promotion check give it |
| `Effects.SearchesTouchTheirResults` | crates/daemon/src/handlers.rs:744-807 | Every search of every run gives each result that is no stub the lifecycle boost of its own source, one more session and the promotion check; with deep recall no result stays cold |
| `Effects.SearchesSpareTheRest` | crates/daemon/src/handlers.rs:640-717 | A search of a run changes no row that is not among its results, no queue entry and no set of ids |
| `PairLinks.SearchesLinkTheirResults` | crates/daemon/src/handlers.rs:704-717 | Every search of every run leaves any two of its first ten results linked in both directions, dated now, at 0.1 more than before up to 1, or at 0.1 if they were not linked; every other link is as it was |
| `PairLinks.BatchesLinkTheirMemories` | crates/daemon/src/handlers.rs:611-625 | Every StoreBatch of every run links any two of its memories in both directions at the given weight within [0,1], dated now; every other link is as it was |
| `PairLinks.LinksAddUp` | crates/daemon/src/handlers.rs:948-980 | In every run a Link between two different memories adds its strength to exactly the links it names, within [0,1], and dates them; if one of the memories is missing nothing changes |
| `PairLinks.UnlinksRemove` | crates/daemon/src/handlers.rs:982-1003 | In every run an Unlink removes exactly the links it names |
| `Effects.BatchesKeepWhatTheyAreGiven` | crates/daemon/src/handlers.rs:561-607 | Every StoreBatch of every run stores its entries under consecutive fresh ids, each as it was given |
| `Effects.EditsWriteWhatTheyName` | crates/store/src/repos.rs:322-388 | Every Update, cold, hot, stub and floor request of every run gives each column it names the value it names, in that one row of the user, and changes nothing else |
| `Effects.BatchUpdatesSetFloors` | crates/store/src/repos.rs:540-563 | A BatchUpdate of a run gives each owned row it names the last floor it names for it, and changes nothing else in any row |
| `Effects.RemovalsRemove` | crates/daemon/src/handlers.rs:920-946 | Every Delete and confirmed Clear of every run takes exactly the rows of the user that it names, with the links and queued conflicts that mention one; everything else stays |
| `Effects.GetsRestore` | crates/daemon/src/handlers.rs:809-864 | Every Get of every run restores exactly the cold rows of the user that it names |
| `Effects.MarksSupersede` | crates/store/src/repos.rs:565-587 | Every MarkSuperseded of every run marks exactly the rows of the user that it names |
| `Earning.ReadsAreCounted` | crates/store/src/repos.rs:449-515 | In every run the retrieval count of a memory and its number of sessions both equal the number of searches that returned it while it was no stub |
| `Earning.CoreIsEarned` | crates/daemon/src/handlers.rs:744-807 | In every run a memory is core only if it was stored or summed up as core, or an Update wrote its category, or at least as many searches as the access and the session thresholds ask for have returned it |
| `Runs.SearchResultsAreLegal` | crates/search/src/searcher.rs:150-272 | What the search returns, with fusion and expansion, is what the handlers and the runs rely on: distinct rows of the user |
| `Tenancy.TenancyIffNoCrossingLink` | docs/concepts/memory-model.md:94 | Over every run, all links stay within one user throughout, if and only if no Link names memories of two users |
| `Tenancy.StepIsTenantedIffNotCrossing` | crates/daemon/src/handlers.rs:948-980 | One request keeps links within users if and only if it is no link write between two users' memories |
| `Tenancy.LinkCanCrossUsers` | crates/daemon/src/handlers.rs:948-980 | The handler does not compare the endpoints' users: a concrete Link between two users' memories is accepted |
| `Lifecycle.RetentionInRange` | crates/lifecycle/src/lib.rs:226-247 | For non-stubs with positive effective rate and floor at most 1, retention lies in [floor, 1] and is positive |
| `Lifecycle.RetentionNeverRises` | crates/lifecycle/src/lib.rs:226-247 | Without an access, retention never rises with time |
| `DecayLaws.AgeIsInDays` | crates/lifecycle/src/lib.rs:234-235 | An age is counted in days of 86400 seconds; a clock behind the last access counts as age zero |
| `DecayLaws.AgeScalesWithStrength` | crates/lifecycle/src/lib.rs:226-247 | A memory of stability s, importance i and base rate b retains at age s(1 + 2 min(i,1))b times d what one of stability 1, importance 0 and a rate of one day retains at age d |
| `DecayLaws.StandardDecay` | crates/lifecycle/src/lib.rs:242-247 | ... which is exp(-d), or (1 + d) to the power of minus gamma, or the floor if that is more |
| `DecayLaws.ImportanceStretchesAge` | crates/lifecycle/src/lib.rs:238-239 | A memory of importance i at age (1 + 2 min(i,1))d retains what one of importance 0 retains at age d; for stability and base rate see `DecayLaws.StabilityStretchesAge` and `DecayLaws.RateStretchesAge` |
| `DecayLaws.StabilityStretchesAge` | crates/lifecycle/src/lib.rs:237-239 | A memory of stability s at age s times d retains what one of stability 1 retains at age d; below 0.01 the stability counts as 0.01 |
| `DecayLaws.RateStretchesAge` | crates/lifecycle/src/lib.rs:239 | A memory of a base rate of b days at age b times d retains what one of a rate of one day retains at age d |
| `DecayLaws.ImportanceSlowsDecay` | crates/lifecycle/src/lib.rs:238-247 | Raising the importance towards 1 never lowers retention, and strictly raises it wherever the memory is older than zero and above its floor |
| `DecayLaws.ImportanceIsCapped` | crates/lifecycle/src/lib.rs:238 | Above 1 the importance makes no difference |
| `DecayLaws.StabilitySlowsDecay` | crates/lifecycle/src/lib.rs:237-247 | The same for raising the stability beyond 0.01 |
| `DecayLaws.RateSlowsDecay` | crates/lifecycle/src/lib.rs:239-247 | The same for a longer base rate |
| `DecayLaws.RowsDecayByTheirColumns` | crates/daemon/src/handlers.rs:1870-1888 | A stored row decays by its own columns and the rate of its category, 120 days if that is unknown |
| `DecayLaws.RowsAtTheExtremes` | crates/lifecycle/src/lib.rs:226-233 | A stub retains nothing, and a row of a category that never decays retains all |
| `DecayLaws.RetentionRanks` | crates/lifecycle/src/lib.rs:250-258 | Between equally relevant memories the one that retains more scores higher |
| `DecayLaws.RelevanceScales` | crates/lifecycle/src/lib.rs:250-258 | A score is linear in the relevance, and full retention leaves the relevance as it is |
| `DecayLaws.ExponentsAdd` | crates/lifecycle/src/lib.rs:250-258 | With exponent 1 the score is relevance times retention, and scoring with a, then with b, is scoring with a + b |
| `DecayLaws.SpacedAccessesPay` | crates/lifecycle/src/lib.rs:261-282 | k intervals after the last access a boost adds k times its amount, up to the largest multiplier and a stability of 1; an access that comes at once adds nothing |
| `DecayLaws.LinksFade` | crates/lifecycle/src/lib.rs:179-187 | After k time constants a link keeps exp(-k) of its weight, all of it at age zero, and strictly less the longer it rests |
| `Lifecycle.FloorIsRespected` | crates/lifecycle/src/lib.rs:226-247 | Retention of a non-stub never falls below a floor of at most 1, for any decay curve and rate |
| `Lifecycle.AccessNeverLowersRetention` | crates/lifecycle/src/lib.rs:261-282 | With stability at most 1 and a clock that does not run backwards, a boost never lowers retention at any later instant |
| `Lifecycle.AccessKeepsRetentionIff` | crates/lifecycle/src/lib.rs:269-274 | For any floor, a boost keeps retention at all later instants if and only if the stability was at most 1, or the memory left alone is down at its floor by the first instant at which the cut to 1 outweighs the fresh access |
| `Lifecycle.WithoutFloorTheCapWeakens` | crates/lifecycle/src/lib.rs:269-274 | Without a floor the exact condition is a stability of at most 1 |
| `Lifecycle.CompositeScoreInRange` | crates/lifecycle/src/lib.rs:250-258 | The composite score of a relevance in [-1,1] lies in [-1,1] |
| `Lifecycle.EdgeDecayIsMonotone` | crates/lifecycle/src/lib.rs:179-187 | Read-side decay lies between 0 and the stored weight, and heavier and fresher links stay heavier |
| `Lifecycle.MemoryCell.ApplyDirectBoost` | crates/lifecycle/src/lib.rs:269-274 | Stability gains the spaced-repetition amount up to 1, the access is counted and dated, nothing else changes |
| `Lifecycle.MemoryCell.ApplyAssociativeBoost` | crates/lifecycle/src/lib.rs:277-282 | The same with the associative amount |
| `Lifecycle.MemoryCell.CheckCorePromotion` | crates/lifecycle/src/lib.rs:286-298 | Promotes exactly the non-core memories that meet all three thresholds, and changes only the category |
| `Cosine.CosineSimilarity` | crates/search/src/cosine.rs:15-35 | The accumulation loop computes dot product over norms, 0 for zero vectors, always in [-1,1] |
| `Cosine.CauchySchwarz` | crates/search/src/cosine.rs:15-35 | The squared dot product is at most the product of the squared norms, for vectors of any length |
| `Cosine.SimilarityInRange` | crates/search/src/cosine.rs:15-35 | Every similarity lies in [-1,1] |
| `Cosine.SelfSimilarity` | crates/search/src/cosine.rs:15-35 | A vector that is not zero has similarity 1 to itself |
| `Cosine.SimilarityIsSymmetric` | crates/search/src/cosine.rs:15-35 | Similarity has no direction |
| `Cosine.SimilarityHasASign` | crates/search/src/cosine.rs:15-35 | Turning one of two vectors round turns their similarity round |
| `Searching.CompositeInRange` | crates/search/src/searcher.rs:188-192 | Every dense composite score lies in [-1,1] |
| `Tables.Store.InsertRow` | crates/store/src/repos.rs:165-190 | Inserts under a fresh id and changes nothing else |
| `Tables.Store.Delete` | crates/store/src/pool.rs:164-171 | Deletes the rows together with the links and queued conflicts that mention them, and nothing else |
| `Tables.SelectOwned` | crates/store/src/repos.rs:207-232 | Exactly the requested ids that are rows of the user, each once, in the order of the request |
| `Associations.LinkDirected` | crates/store/src/repos.rs:907-951 | Writes the clamped sum of the weight read and the bump with the time, or nothing if an endpoint is missing |
| `Associations.LinkAllPairs` | crates/daemon/src/handlers.rs:611-625 | Links every unordered pair of the new ids in both directions |
| `Associations.StrengthenInTransaction` | crates/store/src/repos.rs:958-999 | Bumps every pair in both directions, or none of them if any endpoint is missing |
| `Associations.LinkPairsKeeps` | crates/store/src/repos.rs:1002-1013 | Linking pairs in both directions keeps weights in range, endpoints present and symmetry, and touches only links |
| `Associations.StrengthenPairsKeeps` | crates/store/src/repos.rs:958-999 | Co-retrieval strengthening keeps weights in range, endpoints present and symmetry |
| `Ingest.DispatchHits` | crates/daemon/src/handlers.rs:479-556 | Stopping at the first hit below 0.40 has the effect of dispatching every hit, because hits come in descending score |
| `Ingest.DispatchOutcome` | crates/daemon/src/handlers.rs:455-559 | Each other memory gets exactly what its score asks for, with the similarity queued and the weight written; links and conflicts among older memories are unchanged |
| `Ingest.HandleStore` | crates/daemon/src/handlers.rs:374-424 | Inserts one row with clamped importance, derived stability and the category's floor, then dispatches all hits |
| `Ingest.HandleStoreBatch` | crates/daemon/src/handlers.rs:561-638 | Inserts the entries under consecutive fresh ids and links all pairs of them |
| `Searching.SearchFeedsIngest` | crates/search/src/searcher.rs:203-209 | The top of the dense pool is ranked, without repetition and owned by the user, as the early exit of ingest needs |
| `Retrieval.PlanBoosts` | crates/daemon/src/handlers.rs:752-796 | Plans a boost for exactly the owned non-stub results, by their source, and a promotion exactly where the gate with the pending session opens |
| `Retrieval.ApplyPostRetrievalStrengthening` | crates/daemon/src/handlers.rs:744-807 | The two transactions rewrite exactly the planned rows, all with one new session |
| `Retrieval.HandleSearchEffects` | crates/daemon/src/handlers.rs:664-717 | Restores cold results on deep recall, strengthens, then bumps all pairs of the top ten; what that leaves is `Effects.SearchesTouchTheirResults` and `PairLinks.SearchesLinkTheirResults` |
| `Retrieval.HandleGet` | crates/daemon/src/handlers.rs:809-834 | Returns the user's row, restored to hot if it was cold, or nothing |
| `Retrieval.StrengtheningMatchesLifecycle` | crates/store/src/repos.rs:449-537 | The precomputed boost plus the repository write equal the lifecycle boost, and the promotion decided with the pending session equals the check on the state after the write |
| `Lineage.EveryChainEnds` | crates/daemon/src/handlers.rs:1331-1457 | In a forest every chain ends at a live row of the same user or at a deleted id |
| `Lineage.NoCycle` | crates/daemon/src/handlers.rs:1331-1457 | In a forest no row leads back to itself |
| `Lineage.GraftedIsForest` | crates/daemon/src/handlers.rs:1421-1440 | Superseding live rows by another live row of their user keeps the forest |
| `Conflicts.SelectBatch` | crates/daemon/src/handlers.rs:1332-1342 | The min(50, length) most similar entries, in descending similarity |
| `Conflicts.ResolveEntry` | crates/daemon/src/handlers.rs:1345-1454 | Judges one entry on the rows as they are now and removes it; what each answer does is `Verdicts.JudgedEntriesDecide` |
| `Conflicts.ResolveConflicts` | crates/daemon/src/handlers.rs:1331-1457 | The loop shows the judge the existing and the new content of each entry in order, and counts the superseded rows |
| `Verdicts.JudgedEntriesDecide` | crates/daemon/src/handlers.rs:1386-1446 | Every entry of a batch, for any answers, does what its answer says, told by the rows before and after its turn and at the end of the batch |
| `Verdicts.LosersWereJudged` | crates/daemon/src/handlers.rs:1331-1457 | Whoever a batch supersedes was, at the turn of some entry with both sides live, its existing side under Contradiction or Update, or without an LLM its outranked side |
| `Conflicts.ResolveDrainsBatch` | crates/daemon/src/handlers.rs:1331-1457 | The batch and nothing else leaves the queue |
| `Conflicts.ResolveCountsLosers` | crates/daemon/src/handlers.rs:1331-1457 | For any answers exactly `resolved` rows move from live to superseded, and no row comes back |
| `Conflicts.ResolveEdits` | crates/daemon/src/handlers.rs:1421-1454 | A batch changes only lineage, category, floor and importance of live rows; a superseded row is never touched |
| `Conflicts.ResolveKeepsForest` | crates/daemon/src/handlers.rs:1331-1457 | For any answers a batch keeps the forest |
| `Conflicts.EveryMemoryHasASurvivor` | crates/daemon/src/handlers.rs:1331-1457 | Every memory live before the batch leads afterwards to a memory that was live before and still is, whatever marks clients have made |
| `Conflicts.SomeMemberSurvives` | crates/daemon/src/handlers.rs:1331-1457 | No batch supersedes every member of a set of live memories that the batch's conflicts pair among themselves only |
| `Consolidation.GatherGroup` | crates/daemon/src/handlers.rs:1544-1560 | The head and its first unused later neighbours at 0.70 or more, at most five; if fewer, all of them |
| `Consolidation.ConsolidateGroup` | crates/daemon/src/handlers.rs:1533-1572 | Disjoint clusters of five fading rows of the group, each compressed with what the LLM wrote when shown its contents in order; unless the cap or a failure stopped it, the group is exhausted |
| `Consolidation.ExhaustedLeavesNoFive` | crates/daemon/src/handlers.rs:1533-1572 | An exhausted group holds no five pairwise similar rows outside the clusters |
| `Consolidation.CompressCluster` | crates/daemon/src/handlers.rs:1582-1651 | Inserts the summary and marks the originals superseded by it and cold; what the summary says is `Compression.CompressAllSpeaks` |
| `Compression.ConsolidateAtTick` | crates/daemon/src/handlers.rs:1487-1577 | Pairwise disjoint clusters of five fading rows of one user and category, each at least 0.70 similar to the head, at most five in all; if the cap is not hit, each unused head with an embedding has fewer than four unused later rows similar to it |
| `Compression.CompressAllTo` | crates/daemon/src/handlers.rs:1582-1651 | After all compressions each original points at its cluster's summary, each summary is a fresh live row, and every other row is unchanged |
| `Compression.CompressAllSpeaks` | crates/daemon/src/handlers.rs:1594-1629 | Each summary carries the text, the embedding and the stamp it was given for its cluster; its importance bounds those of the five members and is 0 or one of them; five times its stability is the sum of theirs |
| `Compression.CompressAllCounts` | crates/daemon/src/handlers.rs:1582-1651 | Each summary lowers the live row count by exactly four, and the lineage stays a forest |
| `Tick.ScanPass` | crates/daemon/src/handlers.rs:1182-1222 | Rewrites exactly the hot rows' counters and tiers, and counts the rows at their floor |
| `Tick.ExpirePass` | crates/daemon/src/handlers.rs:1224-1251 | Turns exactly the stale non-core cold rows into stubs without embedding |
| `Tick.HandleTick` | crates/daemon/src/handlers.rs:1168-1281 | The four passes in order, with an arbitrary LLM that is shown the contents of the start of the tick; a failing summary ends pass 4 and keeps what was written |
| `TtlRule.RuleHoldsForAnyJudgeIff` | crates/daemon/src/handlers.rs:1224-1256 | With an LLM, no non-core, non-stub row is cold for more than 180 days after the tick, for every sequence of answers, if and only if no core row past that age is the existing side of a batch entry whose two memories are live before the tick |
| `TtlRule.RuleHoldsForTheHeuristicIff` | crates/daemon/src/handlers.rs:1408-1419 | Without an LLM, the rule holds after the tick if and only if no core row past that age is among the rows the batch decides against by importance and recency, computed on the tables before the tick |
| `TtlRule.DoomedAreWeakerSides` | crates/daemon/src/handlers.rs:1408-1419 | Only the less important, then older, side of an entry whose memories are live can be decided against |
| `TtlRule.TicksKeepTheRuleIff` | crates/daemon/src/handlers.rs:1224-1256 | Both conditions in every reachable state of every run, for the next tick |
| `TtlRule.TtlCanBeEscaped` | crates/daemon/src/handlers.rs:1421-1440 | A run of four requests from the empty tables (store a core memory, store a more important rival, archive the first, tick) that ends with a non-core row past its time |
| `TtlRule.HitsAreSearched` | crates/search/src/searcher.rs:150-209 | The hits in that run are the ones a search of its tables returns, with their scores |
| `Tick.TickKeepsFloorRule` | crates/daemon/src/handlers.rs:1168-1281 | A tick keeps floors tied to categories through all four passes |
| `Tick.TickCountsLiveRows` | crates/daemon/src/handlers.rs:1168-1281 | Live rows lost in a tick: one per resolved conflict and four per summary |
| `Tick.TickKeepsForest` | crates/daemon/src/handlers.rs:1168-1281 | A tick keeps the forest |
| `Requests.HandleRowEdit` | crates/store/src/repos.rs:540-664 | Get, Update, BatchUpdate, MarkSuperseded, cold, hot, stub and floor writes change exactly the named rows of the user |
| `Requests.HandleLinks` | crates/daemon/src/handlers.rs:948-1003 | Link, Unlink and the two halves of a split link write change exactly the named links |
| `Requests.HandleRemoval` | crates/daemon/src/handlers.rs:920-946 | Delete and confirmed Clear remove exactly the user's rows, with the cascades |
| `Steps.RequestRows` | crates/daemon/src/handlers.rs:334-369 | Every request but the tick keeps each row's user; lineage, floor rule and floor counter change only by the requests meant to change them; new rows are fresh and live |
| `Steps.RequestKeepsTables` | crates/store/src/pool.rs:139-290 | Every request but the tick keeps the schema's constraints, and symmetry unless it writes one direction only |
| `Walks.Complete` | crates/graph/src/lib.rs:84-124 | In a first-in first-out search everything reachable within the distance of the queue's head has been discovered at no greater distance |
| `Expansion.ExpandGraph` | crates/graph/src/lib.rs:84-124 | Terminates; each non-anchor node reachable by edges at or above the threshold within `max_hops` is returned exactly once, with its shortest distance and the weight product along a shortest walk |
| `EdgeDecay.EdgeHistoryIsSound` | crates/graph/src/lib.rs:48-60 | Over any sequence of strengthenings and decays the weight stays in [0,1], the age counts from the latest strengthening, and the target is kept |
| `EdgeDecay.StrengthenResetsAge` | crates/graph/src/lib.rs:48-51 | Whatever came before, a strengthening never lowers the weight, and what a decay then leaves depends only on the time since; all of it if none passed |
| `EdgeDecay.BumpsAddUp` | crates/graph/src/lib.rs:48-51 | Strengthenings with no decay between them add up, to 1 at most |
| `EdgeDecay.EdgeCell.Decay` | crates/graph/src/lib.rs:55-60 | Multiplies the weight by exp(-dt/tau) from the last co-retrieval, which it does not move |
| `EdgeDecay.DecayCompoundsUnlessIdle` | crates/graph/src/lib.rs:55-60 | After any earlier decays, a decay gives exp(-dt/tau) of the original weight if and only if none of them came after the last co-retrieval |
| `Bridges.NeighborEdges` | crates/store/src/repos.rs:1131-1146 | The targets of the links at or above the weight, each once, heaviest link first |
| `Bridges.BfsPath` | crates/search/src/searcher.rs:423-456 | For distinct endpoints a simple path of stored links at or above the weight with the fewest edges, and None exactly when there is none of at most `max_depth` edges |
| `Bridges.FindBridges` | crates/search/src/searcher.rs:383-418 | At most the allowed number of shortest paths with an intermediate node between the top three anchors; below the cap every pair is bridged, directly linked, or more than three edges apart |
| `Linking.LinkedForMany` | crates/store/src/repos.rs:1069-1123 | Each memory of the user that a source links to strongly exactly once, with the maxima of weight and of time taken independently, heaviest first |
| `Linking.CollapseNeverDrops` | crates/store/src/repos.rs:1083-1091 | A target that some dated link's own decayed weight admits is fetched and stays admitted after collapsing |
| `Linking.CollapseIsSafeIffUniformlyDated` | crates/store/src/repos.rs:1083-1091 | Collapsing the strong links to a target never drops, at any instant, a target that one of them admits by its own decayed weight, if and only if those links are all dated or all undated |
| `Linking.CollapseCanDropAnUndatedLink` | crates/store/src/repos.rs:1083-1091 | A witness: a heavy undated link and a lighter dated one collapse below the threshold |
| `Searching.ScoreCandidates` | crates/search/src/searcher.rs:178-201 | Every candidate once with its composite score, or an error exactly when some candidate has another dimension |
| `Searching.FuseHybrid` | crates/search/src/searcher.rs:211-255 | Exactly the dense pool, once each, in descending fused score |
| `Searching.ExpandHop` | crates/search/src/searcher.rs:305-371 | One hop adds exactly the targets not yet present whose collapsed link is still strong after decay |
| `Searching.ExpandViaGraph` | crates/search/src/searcher.rs:278-373 | Hop by hop exactly the targets that the newest entries admit after decay are added, each with relevance times retention times decayed weight; every added result is joined to a top hit by a chain of at most the given number of strong stored links; no id appears twice |
| `Searching.ExpansionIsDetermined` | crates/search/src/searcher.rs:278-373 | Whatever order the links come in, any two expansions of the same hits hold the same results with the same scores |
| `Searching.Search` | crates/search/src/searcher.rs:150-272 | Distinct ids in descending score, at most `limit`, nothing omitted outscores a result; hybrid ranks exactly the dense pool; with hops the pool is the expanded list with its scores; fails exactly on an empty query, a dimension mismatch, or hybrid without text |
| `Findable.DirectHitsAreFindable` | crates/store/src/repos.rs:769-812 | Every direct hit of a search, with any number of hops, is a row of the user with an embedding of the provider and model asked for, begun and no stub; without deep recall it is also hot and not expired |
| `Findable.AnswerIsComplete` | crates/search/src/searcher.rs:150-272 | Without hops every row that the search may return is a result, or there are `limit` results and each scores at least as much |
| `Findable.DeepRecallDropsThreeFilters` | crates/store/src/repos.rs:777-803 | Deep recall adds to the pool exactly the superseded, the cold and the expired rows; never a stub |
| `Findable.HiddenStaysHidden` | crates/store/src/repos.rs:793-803 | In every run a memory that is superseded or a stub is never again a direct hit of a plain search, and a cold one not until a request restores it |
| `Findable.LostMemoriesAreNotFound` | crates/daemon/src/handlers.rs:467-501 | What a tick of a run supersedes or archives is never again a direct hit of a plain search, nor a hit of a later ingest |
| `Findable.StoredMemoriesAreFound` | crates/daemon/src/handlers.rs:374-424 | What a Store of a run wrote, the next search finds, or it is outscored by `limit` results |
| `Findable.ExpandedHitsAreDamped` | crates/search/src/searcher.rs:305-371 | A result that came by the graph belongs to the user and scores as a direct hit would, times the decayed weight of a stored link into it, which is still at or above the minimum |
| `Findable.ExpandedHitsAreLinked` | crates/search/src/searcher.rs:278-373 | A chain of at most `hops` stored links at or above the minimum leads to it from one of the first `limit`, or first five, direct hits |
| `Exposure.LinkedMemoriesAreFound` | crates/search/src/searcher.rs:278-373 | The converse: whatever a chain of at most `hops` dated links, each still strong by itself, joins to one of the best direct hits, through no other direct hits, is a result or is outscored by `limit` results |
| `Exposure.OnlyExcludedMemoriesJoin` | crates/search/src/searcher.rs:299-316 | Every result that came by the graph is a memory that the filters of that very search exclude, because the expansion skips the whole list of candidates, not only the best of it |
| `Exposure.ExcludedMemoryShownIff` | crates/search/src/searcher.rs:259-271 | A search with hops whose answer has room to spare shows an excluded memory if and only if the collapsed links of its best direct hits to some excluded memory of the user are still strong after decay |
| `Exposure.PlainSearchesStayPlainIff` | docs/operations/troubleshooting.md:69 | On all sound tables no plain search with a given query, whatever its limit, hops and least weight, shows a hidden memory, if and only if no stored link leads from a memory it may return to an excluded one of the user with a vector of that dimension, or every such search fails |
| `Exposure.ArchivedMemoriesComeBack` | docs/operations/troubleshooting.md:69 | A witness: a run of two requests (store two linked memories, archive one) after which a plain search with one hop shows the archived one |
| `Findable.HybridScoreAddsPlaces` | crates/search/src/hybrid.rs:25-36 | The hybrid score of a memory is the sum of one over 60 plus its place in each of the two rankings that hold it |
| `Ranking.SortIsDescending` | crates/search/src/searcher.rs:203-209 | The sort orders by descending score and is a permutation |
| `Ranking.TruncatedSortIsTop` | crates/search/src/searcher.rs:203-271 | Sort and truncate gives the top of the pool |
| `Ranking.ReciprocalRankFusion` | crates/search/src/hybrid.rs:25-36 | Every id of the lists exactly once, with the sum of its reciprocal ranks, best first |
| `Ranking.FusionIsMonotone` | crates/search/src/hybrid.rs:25-36 | An id ranked no worse than another in every list containing the other never gets a lower fused score |
| `Protocol.ActIsSound` | crates/daemon/src/server.rs:301-417 | Every arm of the select loop keeps the connection sound: answers carry their request's id, none is answered twice, none is lost while sends work, events follow a confirmed subscription |
| `Protocol.StepIsFair` | crates/daemon/src/server.rs:359-373 | Every step of any connection keeps the permits held equal to the dispatches running, within both limits |
| `Protocol.DispatchesAreLimited` | crates/daemon/src/server.rs:25-26 | In every run at most 64 hot and 8 bulk dispatches run at once over all connections |
| `Protocol.PayloadsAreLimited` | crates/daemon/src/server.rs:530-544 | In every run at most eight requests at once are batch stores, batch deletes, batch updates, lifecycle, doctor or trace requests, and at most 64 are others |
| `Protocol.AnsweredAtMostOnce` | crates/daemon/src/server.rs:451-503 | In every run each answer carries the id of an accepted request, and no request is answered twice |
| `Protocol.ShutdownAnswersEverything` | crates/daemon/src/server.rs:407-416 | A connection shut down while its sends work accepts nothing more, and has answered all it accepted when its loop exits |
| `Protocol.DrainedMeansAnswered` | crates/daemon/src/server.rs:412-415 | A loop that drained with working sends has answered every accepted request |
| `Protocol.NoEventBeforeSubscribed` | crates/daemon/src/server.rs:329-357 | In every run no Event frame precedes the Subscribed response on its connection |
| `Protocol.SubscribersGetEvents` | crates/daemon/src/server.rs:382-394 | In every run a connection that has sent Subscribed and is at its select takes every event, and a working send puts it on the wire |
| `Protocol.RequestsCanProgress` | crates/daemon/src/server.rs:301-417 | In every run, while an open connection has a request waiting for a permit or running, the daemon can take a permit, finish a dispatch or send an answer: nothing is stuck |
| `ClientCalls.Client.RequestInner` | crates/client/src/lib.rs:106-137 | Draws a fresh id, skips events, and returns on the first other frame: its response, a mismatch, an unexpected payload, or the end of the call |
| `ClientCalls.OkIffFirstReplyIsMine` | crates/client/src/lib.rs:116-136 | A call returns Ok if and only if the first frame but events that reaches it is a response with its own id |
| `ClientCalls.OkCarriesOwnResponse` | crates/client/src/lib.rs:95-137 | In every interleaving of client and server, also after timeouts and failed sends, a call returning Ok carries the response to its own request |
| `ClientCalls.NoMismatchWithoutAnEarlierFailure` | crates/client/src/lib.rs:125-130 | In every such run no call ends in an id mismatch while all earlier calls succeeded |
| `ClientCalls.OkIffAnswerIsNext` | crates/client/src/lib.rs:106-137 | In every run, whatever order the server answers in, a call returns Ok if and only if its answer reaches it with no unread answer to an earlier message before it; a mismatch always names an earlier message |
| `ClientCalls.LateAnswerShiftsEveryCall` | crates/client/src/lib.rs:95-137 | Where messages are sent and answered in order, a call that gets an answer gets the one as many calls back as calls were abandoned before it: its own if none were, otherwise an older one, which is a mismatch |
| `ClientCalls.OkIffNothingWasAbandoned` | crates/client/src/lib.rs:95-137 | Where messages are sent and answered in order, a call succeeds if and only if neither it nor any call before it was abandoned |
| `ClientCalls.OvertakingAnswerSucceeds` | crates/daemon/src/server.rs:315-327 | Without the order it can succeed: a run in which the answer to the second call overtakes the abandoned first one |
| `ClientCalls.NoUnexpectedPayload` | crates/client/src/lib.rs:131-135 | In every run no call ends in an unexpected payload, because the server sends none |
| `RateLimit.TokenBucket.TryConsumeOne` | crates/llm/src/rate_limit.rs:42-58 | Refills up to the capacity, then grants one token or says how long to wait; if that wait is no duration the call panics and poisons the lock, and a poisoned lock grants |
| `RateLimit.TokenBucket.Acquire` | crates/llm/src/rate_limit.rs:61-68 | The loop, with any calls of others during its sleeps: it tries after each advised wait until it is granted or panics |
| `RateLimit.TokensStayInBounds` | crates/llm/src/rate_limit.rs:42-58 | Over any sequence of calls the tokens stay in [0, capacity] |
| `RateLimit.EveryWindowIsBounded` | crates/llm/src/rate_limit.rs:42-58 | While every wait fits into a duration, in any window of length T of any sequence of calls at non-decreasing times at most capacity + refill * T requests are granted |
| `RateLimit.BurstIsGrantedExactly` | crates/llm/src/rate_limit.rs:42-58 | A burst of calls at one instant gets exactly as many grants as the bucket holds whole tokens: what it last held plus the refill since, at most the capacity |
| `RateLimit.StaysIntact` | crates/llm/src/rate_limit.rs:42-58 | While every wait fits into a duration, no call panics |
| `RateLimit.LimitHoldsIffWaitsFit` | crates/llm/src/rate_limit.rs:42-58 | The bound holds in every window of every sequence of calls if and only if the refill is positive and the largest wait the bucket can advise is a duration |
| `RateLimit.SomeCallIsGrantedIff` | crates/llm/src/rate_limit.rs:42-58 | Some call is ever granted if and only if the capacity is at least one or some wait does not fit into a duration |
| `RateLimit.WaitingHelps` | crates/llm/src/rate_limit.rs:42-58 | A refused caller that waits at least the advised time with no rival succeeds on the next try |
| `RateLimit.RivalsCanStarve` | crates/llm/src/rate_limit.rs:61-68 | For any number of tries there are calls of others that defeat every one of them |
| `Canonical.Canonicalise` | crates/embeddings/src/canonical.rs:11-27 | The character loop yields the whitespace-separated words joined by single spaces |
| `Canonical.WordsOfJoin` | crates/embeddings/src/canonical.rs:11-27 | Splitting a joined text gives back its words |
| `Canonical.CanonIsIdempotent` | crates/embeddings/src/canonical.rs:11-27 | Canonicalising twice changes nothing |
| `Canonical.SameKeyIffSameWords` | crates/embeddings/src/canonical.rs:11-27 | Two texts share a key if and only if their word sequences agree |
| `EmbeddingCache.DecodeInvertsEncode` | crates/store/src/repos.rs:1192-1231 | The stored little-endian bytes decode to the same vector |
| `EmbeddingCache.BytesAreLittleEndian` | crates/store/src/repos.rs:1205 | Four bytes a float, in order, which spell its bit pattern from the least significant byte up |
| `EmbeddingCache.CachedEmbeddings.Embed` | crates/embeddings/src/lib.rs:75-96 | Returns the provider's own answer on the canonical text, whatever other providers and models have put into the table, asks it only when the key is not cached, and keeps every entry and the table sound for all of them |
| `EmbeddingCache.CachedEmbeddings.EmbedAll` | crates/embeddings/src/lib.rs:75-96 | Over any sequence of requests every result is the provider's, and the provider answers at most once per key |

## Left out

- SQLite, migrations, write-ahead logging and the full-text index: the tables' meaning is modelled, the lexical ranking is an arbitrary list of ids.
- Float rounding and NaN: reals throughout; a zero effective rate follows IEEE division, with NaN taking the floor.
- Configurations with a zero spacing interval or decay constant, on which the source divides by zero: excluded by preconditions.
- JSON, the frame codec and the Hello/Welcome handshake: frames arrive whole and in order.
- LLM, embedding and hashing implementations: arbitrary answers and given functions, the hash collision-free where a contract says so; the text parsing of the judge's reply is part of the answer.
- CLI, spawning, socket and PID files, HTTP bridge, tokens, traces, doctor checks and counts: only easy members.
- Read-only handlers (List, GetLinked, FindFading, FindStable, VectorSearch, SearchLexical): they write nothing.
- `require_user_match` rejections and malformed requests: they return an error and change no table, so a run contains accepted requests only.
- Columns that no modelled branch reads: metadata, memory type, tags, link kind, `updated_at`, `ttl`.
- A failing embedding or database write in the middle of a request, and a crash between two transactions: a modelled request runs to its end, except that a failing summary ends a tick early.
- Interleaving of whole handlers: requests are sequential, except for the two halves of a link write, which interleave freely.
- Order of rows without ORDER BY, and of ties: arbitrary.
- The library sort is a function; its stability is not stated.
- Consolidation takes groups by (user, category) in any order instead of users first and categories second; every order of the source is among them.
- The drain timeout of the whole server, and progress of a request queued behind a connection that waits for a bulk permit.
- Protocol.ActIsSound: the select loop is a step function on values rather than a method with a loop, because the property is about every interleaving; update in place of its local variables is not captured.
- ClientCalls.Client.RequestInner: the frames that reach the call before it ends are a parameter.
- Bridges.BfsPath: equal endpoints are answered at once with None, where the source explores first and then answers None.
- The platform's longest duration is a parameter of the token bucket.
