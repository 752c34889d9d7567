/**
 * The older trial-and-error traversals over a precomputed join tree: a
 * breadth-first one that shares a queue of nodes with its recursive calls,
 * and a depth-first one that returns every path it built. Both record a
 * join's file name before its quality gate, skip every relation stored in
 * the opposite direction, and train on each accepted join with and without
 * a correlation-based selection of the left table's features.
 */
module TrialError {
  import opened Common

  /** The nested `join_tree` dictionary: each node's children, keyed by node id. */
  datatype JoinTree = JoinTree(children: map<NodeId, JoinTree>)

  /** `Result.JOIN_ALL` or `Result.TFD`. */
  datatype Approach = JoinAll | Tfd

  /** One entry of `train_results`: approach, data path and the CART outcome. */
  datatype TrainResult = TrainResult(approach: Approach, dataPath: PathName, score: Score)

  /**
   * The oracles of these traversals:
   * - relations(from, to): get_relation_properties_node_name;
   * - labelOf(n): the label returned by get_df_with_prefix(n);
   * - rightColumns(n): the columns of get_df_with_prefix(n);
   * - join(left, right, rel, file): join_and_save, writing `file`;
   * - joinName(rel, path): compute_partial_join_filename (not assumed injective);
   * - train(frame, columns): CART trained on frame[columns];
   * - correlation(frame, features, target): compute_correlation, as the
   *   (feature, score) items of the dictionary it returns, in order.
   */
  datatype TrialStore = TrialStore(
    relations: (NodeId, NodeId) -> seq<Relation>,
    labelOf: NodeId -> Label,
    rightColumns: NodeId -> seq<Column>,
    join: (LeftSource, RightSample, Relation, FileName) -> Frame,
    joinName: (Relation, PathName) -> PathName,
    train: (Frame, seq<Column>) -> Score,
    correlation: (Frame, seq<Column>, Column) -> seq<(Column, real)>)

  /** The correlation threshold of `_select_features_train`. */
  const CorrelationThreshold: real := 0.4

  /** These traversals follow a relation only in its stored direction. */
  predicate TrialSkips(rel: Relation)
  {
    rel.prop.fromLabel != rel.fromTable
  }

  /**
   * The keys the right table is grouped and sampled by while walking `rels`:
   * one per followed relation, in order.
   */
  function SampleKeys(rightLabel: Label, rels: seq<Relation>): (keys: seq<Column>)
    ensures |keys| <= |rels|
    ensures forall k | k in keys :: exists i | 0 <= i < |rels| ::
      !TrialSkips(rels[i]) && k == Qualified(rightLabel, rels[i].prop.toColumn)
  {
    if rels == [] then []
    else
      var init := rels[..|rels| - 1];
      var last := rels[|rels| - 1];
      var keys := SampleKeys(rightLabel, init) + (if TrialSkips(last) then [] else [Qualified(rightLabel, last.prop.toColumn)]);
      assert forall k | k in SampleKeys(rightLabel, init) :: exists i | 0 <= i < |rels| - 1 ::
        !TrialSkips(rels[i]) && k == Qualified(rightLabel, rels[i].prop.toColumn);
      keys
  }

  /** `get_elements_higher_than_value`: the keys whose score is strictly above `threshold`, in order. */
  function AboveThreshold(scores: seq<(Column, real)>, threshold: real): (r: seq<Column>)
    ensures |r| <= |scores|
    ensures forall c :: c in r <==> exists i | 0 <= i < |scores| :: scores[i].0 == c && scores[i].1 > threshold
  {
    if scores == [] then []
    else
      var rest := AboveThreshold(scores[1..], threshold);
      assert forall i | 1 <= i < |scores| :: scores[i] == scores[1..][i - 1];
      assert forall i | 0 <= i < |scores| - 1 :: scores[1..][i] == scores[i + 1];
      if scores[0].1 > threshold then [scores[0].0] + rest else rest
  }

  /** The left table's features: the joined columns that are neither right columns nor the target. */
  function LeftFeatures(joined: Frame, rightColumns: seq<Column>, target: Column): (r: seq<Column>)
    ensures forall c :: c in r <==> c in joined.columns && c !in rightColumns && c != target
    ensures |r| <= |joined.columns|
  {
    KeepOutside(joined.columns, rightColumns, target)
  }

  /**
   * `_select_features_train`: the left features, the features whose
   * correlation with the target is above the threshold, and the target are
   * projected out and trained on; nothing is trained when no feature passes
   * the threshold or when the projection has as many columns as the join.
   */
  function SelectFeaturesTrain(store: TrialStore, joined: Frame, rightColumns: seq<Column>, target: Column, joinName: PathName)
    : (results: seq<TrainResult>)
    ensures |results| <= 1
    ensures var left := LeftFeatures(joined, rightColumns, target);
      var selected := AboveThreshold(store.correlation(joined, left, target), CorrelationThreshold);
      && (results == [] <==> selected == [] || |left| + |selected| + 1 == |joined.columns|)
      && (results != [] ==> results[0] == TrainResult(Tfd, joinName, store.train(joined, left + selected + [target])))
  {
    var left := LeftFeatures(joined, rightColumns, target);
    var selected := AboveThreshold(store.correlation(joined, left, target), CorrelationThreshold);
    if selected == [] then []
    else
      var columns := left + selected + [target];
      // A projection keeps the row count, so the shapes agree exactly when the column counts do
      if |columns| == |joined.columns| then []
      else [TrainResult(Tfd, joinName, store.train(joined, columns))]
  }

  /** Everything trained on one accepted join: the whole join, then the selection run. */
  function AcceptedJoinResults(store: TrialStore, joined: Frame, rightNode: NodeId, target: Column, joinName: PathName)
    : (results: seq<TrainResult>)
    ensures 1 <= |results| <= 2
    ensures results[0] == TrainResult(JoinAll, joinName, store.train(joined, joined.columns))
    ensures forall i | 1 <= i < |results| :: results[i].approach == Tfd && results[i].dataPath == joinName
  {
    [TrainResult(JoinAll, joinName, store.train(joined, joined.columns))]
      + SelectFeaturesTrain(store, joined, store.rightColumns(rightNode), target, joinName)
  }

  /** The names the followed relations of `rels` give a partial path. */
  ghost function JoinNames(store: TrialStore, rels: seq<Relation>, path: PathName): set<PathName>
  {
    set i | 0 <= i < |rels| && !TrialSkips(rels[i]) :: store.joinName(rels[i], path)
  }

  lemma JoinNamesStep(store: TrialStore, rels: seq<Relation>, i: nat, path: PathName)
    requires i < |rels|
    ensures JoinNames(store, rels[..i + 1], path) ==
      JoinNames(store, rels[..i], path) + (if TrialSkips(rels[i]) then {} else {store.joinName(rels[i], path)})
  {
    var a := JoinNames(store, rels[..i + 1], path);
    var b := JoinNames(store, rels[..i], path) + (if TrialSkips(rels[i]) then {} else {store.joinName(rels[i], path)});
    forall n | n in a ensures n in b {
      var k :| 0 <= k < i + 1 && !TrialSkips(rels[..i + 1][k]) && n == store.joinName(rels[..i + 1][k], path);
      if k < i {
        assert rels[..i][k] == rels[k];
      }
    }
    forall n | n in b ensures n in a {
      if n in JoinNames(store, rels[..i], path) {
        var k :| 0 <= k < i && !TrialSkips(rels[..i][k]) && n == store.joinName(rels[..i][k], path);
        assert rels[..i + 1][k] == rels[k];
      } else {
        assert rels[..i + 1][i] == rels[i];
      }
    }
  }

  lemma SampleKeysStep(rightLabel: Label, rels: seq<Relation>, i: nat)
    requires i < |rels|
    ensures SampleKeys(rightLabel, rels[..i + 1]) ==
      SampleKeys(rightLabel, rels[..i]) + (if TrialSkips(rels[i]) then [] else [Qualified(rightLabel, rels[i].prop.toColumn)])
  {
    assert rels[..i + 1][..i] == rels[..i];
  }

  /** The names one relation gives each of a set of paths. */
  ghost function NamesOf(store: TrialStore, rel: Relation, paths: set<PathName>): set<PathName>
  {
    set p | p in paths :: store.joinName(rel, p)
  }

  /** The names the followed relations of `rels` give any of `paths`. */
  ghost function ChildNames(store: TrialStore, rels: seq<Relation>, paths: set<PathName>): set<PathName>
  {
    set i, p | 0 <= i < |rels| && !TrialSkips(rels[i]) && p in paths :: store.joinName(rels[i], p)
  }

  lemma RelationNamesAreChildNames(store: TrialStore, rels: seq<Relation>, i: nat, paths: set<PathName>)
    requires i < |rels| && !TrialSkips(rels[i])
    ensures NamesOf(store, rels[i], paths) <= ChildNames(store, rels, paths)
  {
  }

  class TrialRun {
    const targetColumn: Column
    const valueRatio: real
    const store: TrialStore

    /** Join path name to the file holding its joined table (the caller's dictionary). */
    var joinNameMapping: map<PathName, FileName>
    /** The caller's `train_results` list. */
    var trainResults: seq<TrainResult>
    /** The node queue the breadth-first traversal shares with its recursive calls. */
    var queue: set<NodeId>

    constructor (targetColumn: Column, valueRatio: real, store: TrialStore, start: NodeId)
      ensures this.targetColumn == targetColumn && this.valueRatio == valueRatio && this.store == store
      ensures joinNameMapping == map[] && trainResults == [] && queue == {start}
    {
      this.targetColumn := targetColumn;
      this.valueRatio := valueRatio;
      this.store := store;
      joinNameMapping := map[];
      trainResults := [];
      queue := {start};
    }

    /**
     * One join of a partial path with the (sampled) right table. Its file name
     * is recorded first, so a join the quality gate rejects keeps its entry;
     * an accepted join is trained on with and without feature selection.
     */
    method TryJoin(rel: Relation, path: PathName, left: LeftSource, right: RightSample) returns (accepted: bool)
      modifies this`joinNameMapping, this`trainResults
      ensures var file := TrialJoinFile(|old(joinNameMapping)| + 1);
        var joined := store.join(left, right, rel, file);
        && joinNameMapping == old(joinNameMapping)[store.joinName(rel, path) := file]
        && (accepted <==> PassesQualityGate(joined, valueRatio))
        && trainResults == old(trainResults) +
             (if accepted then AcceptedJoinResults(store, joined, right.node, targetColumn, store.joinName(rel, path)) else [])
    {
      var joinName := store.joinName(rel, path);
      var joinFilename := TrialJoinFile(|joinNameMapping| + 1);
      joinNameMapping := joinNameMapping[joinName := joinFilename];
      var joined := store.join(left, right, rel, joinFilename);
      if !PassesQualityGate(joined, valueRatio) {
        return false;
      }
      var result := TrainResult(JoinAll, joinName, store.train(joined, joined.columns));
      trainResults := trainResults + [result];
      var results := SelectFeaturesTrain(store, joined, store.rightColumns(right.node), targetColumn, joinName);
      trainResults := trainResults + results;
      accepted := true;
    }

    /**
     * Breadth-first: one partial path popped for a child node. It is resolved
     * (the current node's own label stands for its table; any other name is
     * looked up, and `ok` is false on the KeyError of a missing one) and
     * joined on every followed relation; the right table is resampled on
     * each relation's key, cumulatively.
     */
    method ExtendPath(current: NodeId, nodeLabel: Label, node: NodeId, path: PathName, right: RightSample)
      returns (ok: bool, accepted: set<PathName>, resampled: RightSample)
      modifies this`joinNameMapping, this`trainResults
      ensures ok <==> path == nodeLabel || path in old(joinNameMapping)
      ensures !ok ==> joinNameMapping == old(joinNameMapping) && trainResults == old(trainResults)
      ensures old(joinNameMapping.Keys) <= joinNameMapping.Keys
      ensures ok ==> resampled == RightSample(right.node,
        right.groupKeys + SampleKeys(store.labelOf(node), store.relations(current, node)))
      ensures accepted <= joinNameMapping.Keys
      ensures accepted <= JoinNames(store, store.relations(current, node), path)
    {
      var partialJoin;
      if path == nodeLabel {
        partialJoin := BaseTable(current);
      } else if path in joinNameMapping {
        partialJoin := StoredJoin(joinNameMapping[path]);
      } else {
        return false, {}, right;
      }
      ok := true;
      accepted := {};
      var joinKeys := store.relations(current, node);
      var rightLabel := store.labelOf(node);
      var groupKeys := right.groupKeys;
      ghost var names: set<PathName> := {};
      for i := 0 to |joinKeys|
        invariant names == JoinNames(store, joinKeys[..i], path)
        invariant old(joinNameMapping.Keys) <= joinNameMapping.Keys
        invariant accepted <= joinNameMapping.Keys
        invariant groupKeys == right.groupKeys + SampleKeys(rightLabel, joinKeys[..i])
        invariant accepted <= names
      {
        JoinNamesStep(store, joinKeys, i, path);
        SampleKeysStep(rightLabel, joinKeys, i);
        var rel := joinKeys[i];
        if TrialSkips(rel) {
          continue;
        }
        // Transform to 1:1 or M:1 on this relation's right key
        var key := Qualified(rightLabel, rel.prop.toColumn);
        assert groupKeys + [key] == right.groupKeys + (SampleKeys(rightLabel, joinKeys[..i]) + [key]);
        groupKeys := groupKeys + [key];
        var passed := TryJoin(rel, path, partialJoin, RightSample(right.node, groupKeys));
        names := names + {store.joinName(rel, path)};
        if passed {
          accepted := accepted + {store.joinName(rel, path)};
        }
      }
      resampled := RightSample(right.node, groupKeys);
      assert joinKeys[..|joinKeys|] == joinKeys;
    }

    /**
     * Breadth-first: the frontier drained for one child node, every popped
     * path extended. `ok` is false when a KeyError aborts the loop.
     */
    method JoinFrontier(current: NodeId, nodeLabel: Label, node: NodeId, previous: set<PathName>)
      returns (ok: bool, currentQueue: set<PathName>)
      modifies this`joinNameMapping, this`trainResults
      ensures old(joinNameMapping.Keys) <= joinNameMapping.Keys
      ensures currentQueue <= joinNameMapping.Keys
      ensures forall n | n in currentQueue :: exists p | p in previous :: n in JoinNames(store, store.relations(current, node), p)
      ensures (forall p | p in previous :: p == nodeLabel || p in old(joinNameMapping)) ==> ok
    {
      var pending := previous;
      var right := RightSample(node, []);
      currentQueue := {};
      ok := true;
      while pending != {} && ok
        invariant pending <= previous
        invariant old(joinNameMapping.Keys) <= joinNameMapping.Keys
        invariant currentQueue <= joinNameMapping.Keys
        invariant forall n | n in currentQueue :: exists p | p in previous :: n in JoinNames(store, store.relations(current, node), p)
        invariant (forall p | p in previous :: p == nodeLabel || p in old(joinNameMapping)) ==> ok
        decreases pending
      {
        var path :| path in pending;
        pending := pending - {path};
        var accepted;
        ok, accepted, right := ExtendPath(current, nodeLabel, node, path, right);
        currentQueue := currentQueue + accepted;
      }
    }

    /**
     * Breadth-first: every child of the current node in turn. After each one
     * the frontier is replaced by that child's new paths, or by the initial
     * paths when it has none, and the child is added to the shared queue.
     * A KeyError while joining a child aborts before that child is queued.
     */
    method ExpandChildren(current: NodeId, nodeLabel: Label, children: set<NodeId>, initialQueue: set<PathName>)
      returns (ok: bool, frontier: set<PathName>)
      modifies this`queue, this`joinNameMapping, this`trainResults
      ensures old(queue) <= queue <= old(queue) + children
      ensures ok ==> queue == old(queue) + children
      ensures !ok ==> exists failed | failed in children :: queue <= old(queue) + (children - {failed})
      ensures old(joinNameMapping.Keys) <= joinNameMapping.Keys
      ensures frontier == initialQueue || (frontier != {} && frontier <= joinNameMapping.Keys)
      ensures children == {} ==> frontier == initialQueue
      ensures (forall p | p in initialQueue :: p == nodeLabel || p in old(joinNameMapping)) ==> ok
    {
      var remaining := children;
      frontier := initialQueue;
      ok := true;
      while remaining != {} && ok
        invariant remaining <= children
        invariant queue == old(queue) + (children - remaining)
        invariant old(joinNameMapping.Keys) <= joinNameMapping.Keys
        invariant frontier == initialQueue || (frontier != {} && frontier <= joinNameMapping.Keys)
        invariant remaining == children ==> frontier == initialQueue
        invariant (forall p | p in initialQueue :: p == nodeLabel || p in old(joinNameMapping)) ==> ok
        decreases remaining
      {
        var node :| node in remaining;
        remaining := remaining - {node};
        var currentQueue;
        ok, currentQueue := JoinFrontier(current, nodeLabel, node, frontier);
        if !ok {
          return;
        }
        frontier := if currentQueue != {} then currentQueue else initialQueue;
        queue := queue + {node};
      }
    }

    /**
     * The breadth-first traversal: pops a node from the shared queue, joins
     * the frontier with each of its children, and recurses into the node's
     * subtree with the resulting frontier. It returns at once on an empty
     * queue or a childless node; `ok` is false on a KeyError, either for a
     * popped node that is not in the current subtree or for a path name with
     * no recorded file.
     */
    method BfsTraverseJoinPipeline(tree: JoinTree, previousQueue: Option<set<PathName>>) returns (ok: bool)
      modifies this`queue, this`joinNameMapping, this`trainResults
      ensures old(queue) == {} ==> ok && queue == {} && joinNameMapping == old(joinNameMapping) && trainResults == old(trainResults)
      ensures old(queue) != {} && (forall n | n in old(queue) :: n in tree.children && tree.children[n].children == map[]) ==>
        && ok && queue < old(queue) && |queue| == |old(queue)| - 1
        && joinNameMapping == old(joinNameMapping) && trainResults == old(trainResults)
      ensures old(joinNameMapping.Keys) <= joinNameMapping.Keys
      decreases tree
    {
      if queue == {} {
        return true;
      }
      var current :| current in queue;
      queue := queue - {current};
      if current !in tree.children {
        return false;
      }
      var adjacent := tree.children[current];
      if adjacent.children == map[] {
        return true;
      }
      var nodeLabel := store.labelOf(current);
      var previous := if previousQueue.None? then {nodeLabel} else previousQueue.value;
      var initialQueue := previous;
      ok, previous := ExpandChildren(current, nodeLabel, adjacent.children.Keys, initialQueue);
      if ok {
        ok := BfsTraverseJoinPipeline(adjacent, Some(previous));
      }
    }

    /**
     * Depth-first: one followed relation tried on every path. The left table
     * is read from the file of the first path popped when none is loaded yet
     * (a KeyError, `ok` false, when that path has no file) and is then used
     * for every path.
     */
    method JoinPaths(rel: Relation, paths: set<PathName>, left: Option<LeftSource>, right: RightSample)
      returns (ok: bool, loaded: Option<LeftSource>, accepted: set<PathName>)
      modifies this`joinNameMapping, this`trainResults
      ensures left.Some? ==> loaded == left
      ensures ok && left.None? && paths != {} ==>
        exists p | p in paths :: p in old(joinNameMapping) && loaded == Some(StoredJoin(old(joinNameMapping)[p]))
      ensures ok && paths == {} ==> loaded == left
      ensures (left.Some? || paths <= old(joinNameMapping.Keys)) ==> ok
      ensures old(joinNameMapping.Keys) <= joinNameMapping.Keys
      ensures accepted <= joinNameMapping.Keys
      ensures accepted <= NamesOf(store, rel, paths)
    {
      var pending := paths;
      loaded := left;
      accepted := {};
      ok := true;
      ghost var first: PathName := "";
      while pending != {}
        invariant pending <= paths
        invariant left.Some? ==> loaded == left
        invariant pending == paths ==> loaded == left && joinNameMapping == old(joinNameMapping)
        invariant left.None? && pending != paths ==>
          first in paths && first in old(joinNameMapping) && loaded == Some(StoredJoin(old(joinNameMapping)[first]))
        invariant pending != paths ==> loaded.Some?
        invariant old(joinNameMapping.Keys) <= joinNameMapping.Keys
        invariant accepted <= joinNameMapping.Keys
        invariant accepted <= NamesOf(store, rel, paths)
        decreases pending
      {
        var path :| path in pending;
        if loaded.None? {
          if path !in joinNameMapping {
            return false, loaded, accepted;
          }
          loaded := Some(StoredJoin(joinNameMapping[path]));
          first := path;
        }
        pending := pending - {path};
        var passed := TryJoin(rel, path, loaded.value, right);
        if passed {
          accepted := accepted + {store.joinName(rel, path)};
        }
      }
      if left.None? && paths != {} {
        assert first in paths;
      }
    }

    /**
     * Depth-first: every relation from the base node to one child, in order.
     * The right table is resampled on each followed relation's key,
     * cumulatively, and each followed relation is tried on all paths.
     */
    method JoinChild(base: NodeId, node: NodeId, allPaths: set<PathName>, left: Option<LeftSource>)
      returns (ok: bool, loaded: Option<LeftSource>, nextPaths: set<PathName>)
      modifies this`joinNameMapping, this`trainResults
      ensures left.Some? ==> loaded == left
      ensures (left.Some? || allPaths <= old(joinNameMapping.Keys)) ==> ok
      ensures old(joinNameMapping.Keys) <= joinNameMapping.Keys
      ensures nextPaths <= joinNameMapping.Keys
      ensures nextPaths <= ChildNames(store, store.relations(base, node), allPaths)
    {
      var joinKeys := store.relations(base, node);
      var rightLabel := store.labelOf(node);
      var groupKeys: seq<Column> := [];
      loaded := left;
      nextPaths := {};
      ok := true;
      for i := 0 to |joinKeys|
        invariant groupKeys == SampleKeys(rightLabel, joinKeys[..i])
        invariant left.Some? ==> loaded == left
        invariant ok
        invariant old(joinNameMapping.Keys) <= joinNameMapping.Keys
        invariant nextPaths <= joinNameMapping.Keys
        invariant nextPaths <= ChildNames(store, joinKeys, allPaths)
      {
        SampleKeysStep(rightLabel, joinKeys, i);
        var rel := joinKeys[i];
        if TrialSkips(rel) {
          continue;
        }
        // Transform to 1:1 or M:1 on this relation's right key
        groupKeys := groupKeys + [Qualified(rightLabel, rel.prop.toColumn)];
        var accepted;
        ok, loaded, accepted := JoinPaths(rel, allPaths, loaded, RightSample(node, groupKeys));
        if !ok {
          return;
        }
        RelationNamesAreChildNames(store, joinKeys, i, allPaths);
        nextPaths := nextPaths + accepted;
      }
    }

    /**
     * Depth-first: one child of the base node, joined with every path and
     * then traversed with the paths that survived, inside the base node's
     * subtree. The paths the recursive call returns are handed back.
     */
    method DescendInto(base: NodeId, node: NodeId, sub: JoinTree, allPaths: set<PathName>, left: Option<LeftSource>)
      returns (ok: bool, loaded: Option<LeftSource>, found: set<PathName>)
      requires node in sub.children
      modifies this`joinNameMapping, this`trainResults
      ensures left.Some? ==> loaded == left
      ensures (left.Some? || allPaths <= old(joinNameMapping.Keys)) ==> ok
      ensures old(joinNameMapping.Keys) <= joinNameMapping.Keys
      ensures found <= joinNameMapping.Keys
      decreases sub, 2
    {
      var nextPaths;
      ok, loaded, nextPaths := JoinChild(base, node, allPaths, left);
      found := {};
      if ok {
        var result;
        ok, result := DfsTraverseJoinPipeline(node, sub, Some(nextPaths));
        if result.Some? {
          found := result.value;
        }
      }
    }

    /**
     * The depth-first traversal. A childless base node returns the paths it
     * was given; otherwise (starting from the base table's label on the
     * first call) every child is descended into and the paths it returns are
     * added to the result. `ok` is false on a KeyError: a base node missing
     * from the tree, or a path with no recorded file.
     */
    method DfsTraverseJoinPipeline(base: NodeId, tree: JoinTree, previousPaths: Option<set<PathName>>)
      returns (ok: bool, paths: Option<set<PathName>>)
      modifies this`joinNameMapping, this`trainResults
      ensures base !in tree.children ==> !ok
      ensures base in tree.children && (previousPaths.None? || previousPaths.value <= old(joinNameMapping.Keys)) ==> ok
      ensures base in tree.children && tree.children[base].children == map[] ==>
        paths == previousPaths && joinNameMapping == old(joinNameMapping) && trainResults == old(trainResults)
      ensures ok && previousPaths.Some? ==>
        paths.Some? && previousPaths.value <= paths.value <= previousPaths.value + joinNameMapping.Keys
      ensures ok && previousPaths.None? && tree.children[base].children != map[] ==>
        paths.Some? && store.labelOf(base) in paths.value && paths.value <= {store.labelOf(base)} + joinNameMapping.Keys
      ensures old(joinNameMapping.Keys) <= joinNameMapping.Keys
      decreases tree, 1
    {
      if base !in tree.children {
        return false, None;
      }
      var sub := tree.children[base];
      if sub.children == map[] {
        return true, previousPaths;
      }
      var left: Option<LeftSource> := None;
      var start: set<PathName>;
      if previousPaths.None? {
        left := Some(BaseTable(base));
        start := {store.labelOf(base)};
      } else {
        start := previousPaths.value;
      }
      ghost var resolvable := previousPaths.None? || previousPaths.value <= joinNameMapping.Keys;
      var allPaths := start;
      var remaining := sub.children.Keys;
      ok := true;
      while remaining != {} && ok
        invariant remaining <= sub.children.Keys
        invariant start <= allPaths <= start + joinNameMapping.Keys
        invariant old(joinNameMapping.Keys) <= joinNameMapping.Keys
        invariant resolvable ==> ok && (left.Some? || allPaths <= joinNameMapping.Keys)
        decreases remaining
      {
        var node :| node in remaining;
        remaining := remaining - {node};
        var found;
        ok, left, found := DescendInto(base, node, sub, allPaths, left);
        allPaths := allPaths + found;
      }
      paths := Some(allPaths);
    }
  }
}
