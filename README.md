# Join-path feature discovery and the ARDA baseline, in Dafny

This project models the core of a feature-discovery system for machine
learning over a schema graph of tables.

Starting from a base table with a target column, the system walks the graph
of join-key relations. Along every join path it:

- joins the next table onto the partial join;
- prunes joins whose right key is mostly null (the quality gate);
- runs a four-stage feature-selection cascade: relevance, conditional
  redundancy, joint mutual information and redundancy;
- ranks each surviving path by training a decision tree.

Two older trial-and-error traversals (breadth-first and depth-first over a
precomputed join tree) are modelled as a contrast. So is the ARDA baseline:
random-injection feature selection (count how often each real feature ranks
ahead of every injected random feature, threshold the frequencies, sweep
ascending thresholds and stop at the first accuracy drop), run in batches
bounded by a feature budget.

Modules:

- `Common` (`common.dfy`): identifiers, relations, the abstract table summary
  `Frame` (content token, row count, non-null count of the right key, column
  names), the null-ratio quality gate, Python's substring test and list
  helpers.
- `Cascade` (`cascade.dfy`): the selection cascade of `step_feature_selection`
  as pure functions over four measure oracles, with its rejection rule and
  the suffix inheritance of accepted features.
- `BfsPipeline` (`bfs_pipeline.dfy`): class `BfsAugmentation`, whose fields
  are the mutable state of the traversal: discovered nodes, join-name
  mapping, ranked paths and accepted features per path.
- `TrialError` (`trial_error.dfy`): class `TrialRun`, holding the caller's
  mapping, result list and node queue, with the breadth-first and depth-first
  traversals; `_select_features_train` as a function.
- `Arda` (`arda.dfy`): `_bin_count_ranking`, `select_features` and
  `wrapper_algo`, each a method proved against a specification function.
- `ArdaBudget` (`arda_budget.dfy`): the key orientation, skip rules, budget
  batches and per-batch selection of `select_arda_features_budget_join`.

The graph store, table reads, joins, sampling, the statistical measures,
correlation, training and the random forest are oracles. They are
arrow-typed fields of datatypes, so the same call in the same state always
gives the same answer. Iteration over a Python `set` (or `set.pop()`) is a
nondeterministic choice of an element.

Behaviour of the code as written that the model keeps:

- `BfsAugmentation` drains `previous_queue` for every neighbour and refills
  it with the initial paths plus that neighbour's new paths. The recursion
  therefore receives only the paths made for the last neighbour visited.
- The `node in self.discovered` test inside the neighbour loop
  (augmentation/bfs_pipeline.py:73) can never hold, because neighbours are
  computed minus `discovered` and are distinct. `ExpandNeighbours` requires
  it as a precondition.
- In the trial breadth-first traversal, the node popped at the start of a
  recursive call is looked up in the child subtree. When the queue still
  holds a node from an outer level, that lookup raises a `KeyError`. This
  is the `ok == false` outcome.
- The depth-first traversal loads the left table once, from the first path
  that needs it, and then joins every later path from that same table.
- The trial traversals record a join's file name before the quality gate.
  `BfsAugmentation` records it only after ranking, so a rejected attempt
  there reuses the next file number.
- The thresholds of `select_features` are strict (`>`). The correlation
  threshold is taken to be strict too: the comparison lives in
  `get_elements_higher_than_value`, which is not part of this model, and the
  model assumes it keeps values strictly above 0.4, as its name says. `_select_features_train` compares shapes; since the
  projection keeps the rows, this is modelled as a comparison of column
  counts.
- In the budget join, the batches where no selection runs (no new columns,
  only the target, or one column besides the target) do not add to
  `all_columns`. Those columns are offered again after the next batch.
- With `k == 0`, `counts / k` is NaN and selects nothing. `Frequent` is
  false for `k == 0`.

## Model

| member | source | states |
|---|---|---|
| Common.PassesQualityGate | augmentation/bfs_pipeline.py:164-172 | the gate keeps every join when `value_ratio` is not positive, and keeps a join whose right key has no nulls for any ratio up to 1 |
| Common.QualityGateIsRatio | augmentation/bfs_pipeline.py:164-172 | with rows, the gate rejects exactly the joins whose non-null ratio of the right key is below `value_ratio`; with no rows (0/0 is NaN) the join is kept |
| Common.IsSubstring | augmentation/bfs_pipeline.py:98 | `needle in haystack` holds iff the needle occurs at some index of the haystack |
| Common.SubstringOfItself | augmentation/bfs_pipeline.py:240-241 | a base label is contained in the path name that is that label, so the base path always passes the test of line 98 (given that the two labels agree; see Left out) |
| Common.RemoveFirst | arda/arda.py:277 | `list.remove` on a list holding the element: the first occurrence goes and the rest keep their order (one element fewer, the multiset minus that element). Python raises a ValueError when the element is absent; the model returns the list unchanged there and each call site decides the error itself (SelectBatch and SweepNewColumns report it as `ok` false) |
| Common.KeepOutside | arda/arda.py:192 | the columns kept are exactly those not excluded and different from the given column |
| Cascade.CombineStages | augmentation/bfs_pipeline.py:208-215 | rejects iff both stage lists are empty; otherwise a feature survives iff the joint-MI stage chose it and the non-conditional-redundancy stage chose it too or chose nothing |
| Cascade.Candidates | augmentation/bfs_pipeline.py:187-215 | stages 1 to 3: no relevant feature rejects the join; every surviving candidate was chosen by the joint-MI stage |
| Cascade.Select | augmentation/bfs_pipeline.py:174-231 | an accepted list is strictly longer than the ancestor list and ends with it |
| Cascade.SelectRejectsExactly | augmentation/bfs_pipeline.py:187-224 | the cascade rejects iff relevance is empty, or both middle stages are empty, or redundancy leaves nothing |
| Cascade.AddedFeaturesComeFromNewTable | augmentation/bfs_pipeline.py:195-228 | with measures that return subsets of their inputs, every added feature is a new-table feature chosen by joint MI and, when that stage is not empty, by conditional redundancy |
| Cascade.InheritedAlongPath | augmentation/bfs_pipeline.py:227-229 | along a path of any length whose joins were all accepted, the root's list is a suffix of the last list, which holds at least one added feature per join |
| BfsPipeline.SkipRulesCompared | augmentation/bfs_pipeline.py:105-106 | whatever the pipeline skips the trial traversal (trial_error.py:68-69) skips too; the two rules disagree exactly on reversed relations of weight at least 1, which only the pipeline follows |
| BfsPipeline.ReversedUniqueKeyFollowedOnlyHere | augmentation/trial_error.py:68-69 | a relation stored from b to a with weight 1, queried from a, is followed by the pipeline and skipped by the trial traversal |
| BfsPipeline.BfsAugmentation.constructor | augmentation/bfs_pipeline.py:17-34 | stores the parameters and starts with empty maps and an empty discovered set |
| BfsPipeline.BfsAugmentation.NextJoinFile | augmentation/bfs_pipeline.py:152 | the next join file is `join_BFS_{value_ratio}_{n}`, and it differs from every recorded file while the recorded files are numbered within the mapping size (the constructor establishes that and JoinOnRelation keeps it for a new name) |
| BfsPipeline.BfsAugmentation.StepFeatureSelection | augmentation/bfs_pipeline.py:174-231 | the outcome is the cascade on the joined table against the partial path's accepted features; only an accepted list is stored, under the new path name |
| BfsPipeline.BfsAugmentation.StepRankPath | augmentation/bfs_pipeline.py:233-237 | the path's score is training on its features plus the target, and no other path's score changes |
| BfsPipeline.BfsAugmentation.DeterminePartialJoin | augmentation/bfs_pipeline.py:239-247 | the base id resolves to the base table under its label and records its relevant features; another name resolves to its stored file, and fails (KeyError) iff it is not in the mapping |
| BfsPipeline.BfsAugmentation.JoinOnRelation | augmentation/bfs_pipeline.py:103-162 | a join is accepted iff the relation is not skipped, the gate passes and the cascade accepts; only then are the mapping (under the next join file), the score and the features recorded under the new name; otherwise nothing changes; a new name keeps the recorded files numbered |
| BfsPipeline.BfsAugmentation.ExtendPartialPath | augmentation/bfs_pipeline.py:90-133 | fails iff the path has no file; a path whose name lacks the base label changes nothing; every accepted name is a join of this path on a relation that is not skipped |
| BfsPipeline.BfsAugmentation.JoinFrontier | augmentation/bfs_pipeline.py:87-134 | drains the frontier; every new name extends some frontier path; it cannot fail when every path is resolvable |
| BfsPipeline.BfsAugmentation.VisitNeighbour | augmentation/bfs_pipeline.py:72-137 | the neighbour becomes discovered and a join target exactly once; the refilled frontier is the initial paths plus recorded names that extend the frontier |
| BfsPipeline.BfsAugmentation.ExpandNeighbours | augmentation/bfs_pipeline.py:72-137 | every neighbour is discovered unless a KeyError stops the loop; no node is a join target twice; the frontier holds only initial or recorded paths |
| BfsPipeline.BfsAugmentation.VisitBase | augmentation/bfs_pipeline.py:59-141 | the popped node becomes discovered; no node is a join target twice; discovered nodes, join targets and the mapping only grow; the frontier holds initial or recorded paths; it cannot fail when the initial paths resolve (the recursion runs only on newly discovered neighbours, which its termination measure checks) |
| BfsPipeline.BfsAugmentation.BfsTraverseJoinPipeline | augmentation/bfs_pipeline.py:36-141 | every queued node ends up discovered unless a KeyError aborts; no node is a join target twice; the mapping only grows; the first call on one node, or a call with recorded paths, never fails; termination is proved by the shrinking set of undiscovered nodes |
| TrialError.SampleKeys | augmentation/trial_error.py:66-73 | the right table is resampled once per followed relation, on that relation's right key |
| TrialError.AboveThreshold | augmentation/trial_error.py:220 | exactly the features whose score is strictly above the threshold |
| TrialError.LeftFeatures | augmentation/trial_error.py:214-215 | exactly the joined columns that are neither right columns nor the target |
| TrialError.SelectFeaturesTrain | augmentation/trial_error.py:211-238 | at most one result; none iff no feature passes 0.4 or the projection is as wide as the join; otherwise training on left features, selected features and target |
| TrialError.AcceptedJoinResults | augmentation/trial_error.py:94-102 | an accepted join yields the whole-join result first, then at most one selection result for the same path |
| TrialError.JoinNamesStep | augmentation/trial_error.py:66-76 | one more relation adds exactly its join name, unless it is skipped |
| TrialError.SampleKeysStep | augmentation/trial_error.py:66-73 | one more relation adds exactly its sampling key, unless it is skipped |
| TrialError.RelationNamesAreChildNames | augmentation/trial_error.py:152-198 | the names one followed relation gives the paths are among the names the whole relation list gives them |
| TrialError.TrialRun.constructor | augmentation/trial_error.py:15-16 | the queue holds the start node; the mapping and the results are empty |
| TrialError.TrialRun.TryJoin | augmentation/trial_error.py:75-102 | the mapping entry `join{n}` is written whatever the gate decides; the join is accepted iff the gate passes, and only then are its results appended |
| TrialError.TrialRun.ExtendPath | augmentation/trial_error.py:56-104 | fails (KeyError) iff the path is neither the node label nor mapped; the right sample accumulates every followed key; accepted names are joins of this path |
| TrialError.TrialRun.JoinFrontier | augmentation/trial_error.py:55-104 | every new name extends some frontier path and is recorded; it cannot fail when the frontier is resolvable |
| TrialError.TrialRun.ExpandChildren | augmentation/trial_error.py:48-107 | every child is added to the queue when no KeyError occurs; a KeyError stops the loop before the failing child is queued, so the queue never gains that child; the frontier is the initial paths or a non-empty set of recorded new paths |
| TrialError.TrialRun.BfsTraverseJoinPipeline | augmentation/trial_error.py:15-110 | an empty queue changes nothing; a queue of childless nodes pops one node and changes nothing else; the mapping only grows |
| TrialError.TrialRun.JoinPaths | augmentation/trial_error.py:161-198 | a table once loaded is kept; otherwise it is the file of some popped path; accepted names are this relation's joins of the paths |
| TrialError.TrialRun.JoinChild | augmentation/trial_error.py:146-200 | the next paths are recorded joins of the current paths on followed relations to the child |
| TrialError.TrialRun.DescendInto | augmentation/trial_error.py:144-205 | the paths found below a child are recorded; it cannot fail when the paths are resolvable |
| TrialError.TrialRun.DfsTraverseJoinPipeline | augmentation/trial_error.py:113-208 | a leaf returns its paths unchanged and changes nothing; otherwise the result contains the starting paths (the base label on the first call) plus recorded paths only |
| Arda.Ceil | arda/arda.py:29-30 | `math.ceil`: the least integer at or above x |
| Arda.GeneratedCount | arda/arda.py:30 | the number of injected features is ceil(eta*d), zero when eta*d is not positive |
| Arda.InjectionMaskMarksGenerated | arda/arda.py:84-87 | on the matrix widened by `gen_features`, the mask marks exactly as many columns as were generated and leaves the d real columns unmarked |
| Arda.FirstGenerated | arda/arda.py:54-56 | the ranking position of the first generated column: all before it are real |
| Arda.BinCountRanking | arda/arda.py:37-60 | `bin_size` bins, bin c is 1 exactly when real column c is ranked before the first generated column, else 0 |
| Arda.AheadMeansOutscoring | arda/arda.py:47-58 | with the order sorted by descending score, a real column strictly outscoring every generated one is counted, a counted column scores at least as high as every generated one, and nothing is counted when a generated column ranks first |
| Arda.TimesAheadBounded | arda/arda.py:87-95 | after k rounds each count is at most k, and generated columns (index at least d) are never counted |
| Arda.FrequentIndices | arda/arda.py:96 | `np.arange(d)[counts / k > tau]`: exactly the indices whose frequency is above tau, in ascending order |
| Arda.Selection | arda/arda.py:63-96 | the selected indices are exactly the real columns counted ahead in more than a tau fraction of the k rounds, ascending |
| Arda.CountRounds | arda/arda.py:89-95 | the count vector accumulated over the rounds equals the tally of the rankings |
| Arda.SelectFeatures | arda/arda.py:63-96 | raises (the ValueError of concatenating a one-dimensional empty array) iff ceil(eta*d) generates no column; otherwise computes exactly `Selection` |
| Arda.InsertKeepsAscending | arda/arda.py:124 | insertion keeps a list ascending |
| Arda.InsertAddsOne | arda/arda.py:124 | insertion adds exactly the inserted value |
| Arda.SortedThresholds | arda/arda.py:124 | `sorted(T)`: ascending and a permutation of T |
| Arda.Steps | arda/arda.py:124-138 | one sweep step per threshold |
| Arda.StepAt | arda/arda.py:124-138 | step j selects with the j-th smallest threshold, is scored by the accuracy oracle, and its indices are ascending real columns |
| Arda.AcceptedSteps | arda/arda.py:129-143 | every step before the stopping point is accepted and the step at it is not |
| Arda.AcceptedAccuraciesNonDecreasing | arda/arda.py:139-143 | the accuracies of accepted steps are non-negative and non-decreasing |
| Arda.SweepResultIsLastAccepted | arda/arda.py:121-144 | the result is empty iff the first step stops; otherwise it is the last accepted step's selection, which has the best accuracy so far |
| Arda.StopsAt | arda/arda.py:129-143 | a step stops the sweep iff it is not accepted, and then the previous selection is the result |
| Arda.SweepResultColumns | arda/arda.py:99-144 | the returned indices are ascending real-column indices |
| Arda.SweepStep | arda/arda.py:125-143 | one loop iteration fails iff no column is generated; otherwise it decides stop iff it is the stopping step, and otherwise yields that step's selection and accuracy |
| Arda.WrapperAlgo | arda/arda.py:99-144 | raises on mismatched row counts; with at least one threshold and no generated column it raises; otherwise returns exactly the sweep result, whose indices are below d |
| Arda.SweepThresholds | arda/arda.py:121-144 | the threshold loop: fails iff there is a threshold and no generated column, and otherwise returns exactly the sweep result |
| ArdaBudget.Prefixed | arda/arda.py:192 | `add_prefix`: each column qualified by the label, in order, and the list holds exactly the qualified names of the original columns |
| ArdaBudget.BaseColumns | arda/arda.py:192 | the target column comes first, followed by exactly the other base columns qualified by the base label |
| ArdaBudget.Orient | arda/arda.py:219-224 | for a relation between two distinct tables, the left key is the `from_table` column and the right key the `to_table` column, whichever way the property is stored |
| ArdaBudget.TargetKeySkipped | arda/arda.py:211-217 | a node whose first relation has the target as its base-side key (`BaseKeyIsTarget`) is skipped: the join is unchanged and the feature count gains nothing |
| ArdaBudget.JoinNext | arda/arda.py:203-248 | one popped node fails (IndexError) iff it has no relation; otherwise it is skipped when its base key is the target or the dtypes differ, and else merged and counted |
| ArdaBudget.JoinPoppedConcat | arda/arda.py:197-203 | popping a list joins its back part first, then its front part |
| ArdaBudget.JoinBatch | arda/arda.py:200-248 | a batch pops a back part of the list; every node is popped while the count is within budget; it fails iff a popped node has no relation, and that node is the last popped while all popped before it had one; otherwise the batch ends when the count exceeds the budget or the nodes run out; a non-empty list always shrinks |
| ArdaBudget.Unseen | arda/arda.py:252 | exactly the columns not seen in earlier batches |
| ArdaBudget.ColumnsAt | arda/arda.py:285 | the names of the chosen column positions, in order |
| ArdaBudget.BatchSweepIndices | arda/arda.py:283-285 | the sweep on a batch's matrix chooses column positions of that matrix |
| ArdaBudget.SweepColumns | arda/arda.py:283-285 | the chosen columns are columns of the feature matrix |
| ArdaBudget.SelectBatch | arda/arda.py:252-289 | no new columns or only the target select nothing; one besides the target selects it; otherwise the seen list loses one target when it holds one, the call fails iff the target is absent (`list.remove`) or the prepared matrix has no column (`wrapper_algo`), and else the sweep chooses |
| ArdaBudget.SweepNewColumns | arda/arda.py:272-289 | fails iff the target is neither new nor seen, or the prepared matrix has no column; when the target is present the seen list loses one occurrence of it; on success the sweep's columns are chosen |
| ArdaBudget.SweepBatch | arda/arda.py:280-285 | `wrapper_algo` on a prepared matrix raises iff the matrix has no column (nothing is generated), and otherwise yields the sweep's columns |
| ArdaBudget.SweepIndices | arda/arda.py:283 | `wrapper_algo` with labels of the matrix's row count: fails iff the matrix has no column, else the sweep result |
| ArdaBudget.SelectArdaFeaturesBudgetJoin | arda/arda.py:179-291 | fails without the target column; on success every adjacent node has a relation, and the table and join name are those of joining every adjacent node, in pop order, onto the prefixed base table (sampled only when a non-zero sample size is below its row count) |
| ArdaBudget.BatchesCompose | arda/arda.py:198-202 | successive batches compose into the join of everything popped so far, and the popped nodes all have relations iff each batch's nodes do |

## Left out

- The graph store, CSV reads and writes, pandas joins and sampling,
  `prepare_data_for_ml`, `compute_partial_join_filename` and
  `compute_join_name` are oracles. The join-name function is not assumed to
  be injective. Printing and progress bars are not modelled.
- The four mutual-information measures, `compute_correlation`,
  `get_relevant_features`, CART training, the random forest,
  `train_test_split` and `estimator.score` are oracles. Training is
  deterministic in the model; the source's randomness is not modelled.
- `gen_features`: only its count ceil(eta·d) is modelled. The
  multivariate-normal columns it draws are not; the importance rankings are
  inputs.
- `argsort`: `BinCountRanking` receives the descending order of the scores as
  its input. `AheadMeansOutscoring` relates the order to the scores; the
  order among equal scores is not modelled.
- Floating point: thresholds, ratios and accuracies are exact reals, and
  `np.arange(0.0, 1.0, 0.1)` is the ten exact decimals. The `regression`
  switch only selects which estimator the oracle stands for.
- Visiting order: iteration over Python sets is a nondeterministic choice,
  so no contract depends on it. The trial traversals iterate the keys of the
  join-tree dict, which Python visits in insertion order; the model chooses
  among them nondeterministically as well, so it admits every order rather
  than the one the dict fixes.
- Labels: `GraphStore.labelOf` stands both for the label of the node record
  (augmentation/bfs_pipeline.py:63) and for the label `get_df_with_prefix`
  returns (augmentation/bfs_pipeline.py:83,241). The model assumes the two
  agree; the conclusion drawn from SubstringOfItself, that the base path
  always passes the test at line 98, depends on it.
- Order handed to oracles: the stage-4 redundancy measure receives the
  candidate set, while the source passes `list(selected_features)`, whose
  order follows the set's iteration. An order-dependent redundancy result is
  not modelled.
- The correlation oracle returns a list of (feature, score) pairs, while
  `compute_correlation` returns a dict. The model does not exclude duplicate
  keys a dict could not hold; `AboveThreshold` keeps every pair above the
  threshold.
- select_arda_features (arda/arda.py:148-176) is not part of this model.
- BfsPipeline.BfsAugmentation.JoinOnRelation: a reversed relation of weight 1 passes the skip test (see ReversedUniqueKeyFollowedOnlyHere), yet the source then uses the stored property's columns unswapped: it samples the right table by `{right_label}.{to_column}` and joins on `{from_table}.{from_column}` (augmentation/bfs_pipeline.py:109-111,153-158), so pandas raises a KeyError unless those column names happen to exist. The sampling and join oracles are total and do not model that failure; the witness lemma states only which relations pass the skip test, not that their join succeeds.
- The budget join's `rightTable` and `sameDtype` oracles are total, while `groupby(to_column)` and `left_table[f"{from_table}.{from_column}"]` (arda/arda.py:229,236) raise a KeyError when the column is missing. That failure is not modelled.
- BfsPipeline.BfsAugmentation.NextJoinFile: freshness is stated only while the recorded files are numbered within the mapping size. When a join name is recorded a second time the mapping keeps its size and the source overwrites that entry; the numbering is then not carried forward, so the model does not promise a fresh file name after it.
- BfsPipeline.BfsAugmentation.ExtendPartialPath: states the provenance of the accepted names and that the maps only grow, not the exact new entries; JoinOnRelation states those per join.
- BfsPipeline.BfsAugmentation.JoinFrontier: the same weakening as ExtendPartialPath.
- BfsPipeline.BfsAugmentation.VisitNeighbour: the same weakening as ExtendPartialPath.
- BfsPipeline.BfsAugmentation.ExpandNeighbours: states the traversal invariants, not the exact map contents after all neighbours.
- BfsPipeline.BfsAugmentation.VisitBase: states the traversal invariants, not the exact map contents.
- BfsPipeline.BfsAugmentation.BfsTraverseJoinPipeline: states termination, discovery and growth, not the final map contents.
- TrialError.TrialRun.ExtendPath: states the provenance of the accepted names and that the mapping only grows, not the exact new entries or results; TryJoin states those per join.
- TrialError.TrialRun.JoinFrontier: the same weakening as ExtendPath.
- TrialError.TrialRun.ExpandChildren: states the queue and frontier outcome, not the exact mapping and results.
- TrialError.TrialRun.BfsTraverseJoinPipeline: characterises exactly only the early returns; otherwise it states that the mapping only grows.
- TrialError.TrialRun.JoinPaths: states which table is used and where accepted names come from, not the exact new entries.
- TrialError.TrialRun.JoinChild: the same weakening as JoinPaths.
- TrialError.TrialRun.DescendInto: states only that the paths found are recorded and when it cannot fail.
- TrialError.TrialRun.DfsTraverseJoinPipeline: bounds the returned paths between the starting paths and the recorded ones, without naming them.
- ArdaBudget.SelectArdaFeaturesBudgetJoin: the error message of a failed batch selection does not tell the `list.remove` ValueError from the `wrapper_algo` one. The final feature list is stated batch by batch (SelectBatch), not as a closed form over all batches.
