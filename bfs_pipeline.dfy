/**
 * The Transitive Feature Discovery traversal (`BfsAugmentation`): a
 * recursive breadth-first walk over the schema graph that joins every
 * partial join path reachable through a node with each undiscovered
 * neighbour, prunes joins by the null-ratio gate and the feature-selection
 * cascade, ranks the surviving paths, and goes one level deeper.
 *
 * The graph store, table storage, joins, statistical measures and training
 * are oracles held in two `const` fields; the object's own bookkeeping
 * (discovered nodes, join-name mapping, ranked paths and accepted features
 * per path) is the mutable state.
 */
module BfsPipeline {
  import opened Common
  import Cascade
  import TrialError

  /**
   * The graph store as the traversal queries it:
   * get_adjacent_nodes, get_node_by_id(..).get("label") and
   * get_relation_properties_node_name.
   */
  datatype GraphStore = GraphStore(
    adjacency: map<NodeId, set<NodeId>>,
    labelOf: NodeId -> Label,
    relations: (NodeId, NodeId) -> seq<Relation>)

  /**
   * Table storage, joins, measures and training:
   * - rightColumns(n): the columns of get_df_with_prefix(n);
   * - join(left, right, rel, file): join_and_save, writing `file`;
   * - joinName(rel, path): compute_partial_join_filename (not assumed injective);
   * - baseRelevant(n): get_relevant_features of the base table read for n;
   * - measures: the cascade's four measures;
   * - train(frame, columns): train_test_cart on frame[columns].
   */
  datatype DataStore = DataStore(
    rightColumns: NodeId -> seq<Column>,
    join: (LeftSource, RightSample, Relation, FileName) -> Frame,
    joinName: (Relation, PathName) -> PathName,
    baseRelevant: NodeId -> seq<Column>,
    measures: Cascade.Measures,
    train: (Frame, seq<Column>) -> Score)

  function Adjacent(g: GraphStore, n: NodeId): set<NodeId>
  {
    if n in g.adjacency then g.adjacency[n] else {}
  }

  /** Every node the graph mentions; finite, so the traversal terminates. */
  function AllNodes(g: GraphStore): (r: set<NodeId>)
    ensures forall n :: Adjacent(g, n) <= r
  {
    var r := g.adjacency.Keys + (set m, n | m in g.adjacency && n in g.adjacency[m] :: n);
    assert forall n, x | n in g.adjacency && x in g.adjacency[n] :: x in r;
    r
  }

  /**
   * A relation stored in the opposite direction of the query is only used when
   * its weight says the key is unique (weight 1).
   */
  predicate SkipsRelation(rel: Relation)
  {
    rel.prop.fromLabel != rel.fromTable && rel.prop.weight < 1.0
  }

  /**
   * The pipeline's skip rule is the trial traversal's rule relaxed for
   * reversed relations of weight 1: whatever the pipeline skips the trial
   * traversal skips too, and the two disagree exactly on reversed relations
   * whose weight is at least 1.
   */
  lemma SkipRulesCompared(rel: Relation)
    ensures SkipsRelation(rel) ==> TrialError.TrialSkips(rel)
    ensures !SkipsRelation(rel) && TrialError.TrialSkips(rel) <==>
      rel.prop.fromLabel != rel.fromTable && rel.prop.weight >= 1.0
  {
  }

  /** A relation stored from `b` to `a`, queried from `a`, with a unique key. */
  lemma ReversedUniqueKeyFollowedOnlyHere()
    ensures var rel := Relation(JoinProp("b", "id", "a", "id", 1.0), "a", "b");
      !SkipsRelation(rel) && TrialError.TrialSkips(rel)
  {
  }

  /** Every node of `targets` is distinct and in `found`. */
  ghost predicate TargetsWithin(targets: seq<NodeId>, found: set<NodeId>)
  {
    && (forall i, j | 0 <= i < j < |targets| :: targets[i] != targets[j])
    && (forall i | 0 <= i < |targets| :: targets[i] in found)
  }

  lemma AppendUndiscovered(targets: seq<NodeId>, found: set<NodeId>, x: NodeId)
    requires TargetsWithin(targets, found) && x !in found
    ensures TargetsWithin(targets + [x], found + {x})
  {
  }

  lemma SubsetIsNoLarger(a: set<NodeId>, b: set<NodeId>)
    requires a <= b
    ensures |a| <= |b|
  {
    assert b == a + (b - a);
  }

  lemma ProperSubsetIsSmaller(a: set<NodeId>, b: set<NodeId>, x: NodeId)
    requires a <= b && x in b && x !in a
    ensures |a| < |b|
  {
    assert b == a + (b - a);
    assert x in b - a;
  }

  class BfsAugmentation {
    const baseTableLabel: Label
    const targetColumn: Column
    const valueRatio: real
    const graph: GraphStore
    const data: DataStore

    /** CART result per accepted join path. */
    var rankedPaths: map<PathName, Score>
    /** Join path name to the file holding its joined table. */
    var joinNameMapping: map<PathName, FileName>
    /** Nodes already incorporated into the traversal. */
    var discovered: set<NodeId>
    /** Accepted features per join path (and per base-table label). */
    var partialJoinSelectedFeatures: map<PathName, seq<Column>>
    /** Every node taken as a join target so far, in order. */
    ghost var joinTargets: seq<NodeId>

    /**
     * No node is the join target twice, every target is discovered, and every
     * recorded join has its accepted features and its score.
     */
    ghost predicate Valid()
      reads this
    {
      TargetsWithin(joinTargets, discovered) && PathsRecorded()
    }

    ghost predicate PathsRecorded()
      reads this`joinNameMapping, this`rankedPaths, this`partialJoinSelectedFeatures
    {
      && joinNameMapping.Keys <= partialJoinSelectedFeatures.Keys
      && rankedPaths.Keys == joinNameMapping.Keys
    }

    constructor (baseTableLabel: Label, targetColumn: Column, valueRatio: real, graph: GraphStore, data: DataStore)
      ensures Valid() && FilesNumbered()
      ensures this.baseTableLabel == baseTableLabel && this.targetColumn == targetColumn
      ensures this.valueRatio == valueRatio && this.graph == graph && this.data == data
      ensures rankedPaths == map[] && joinNameMapping == map[] && discovered == {}
      ensures partialJoinSelectedFeatures == map[] && joinTargets == []
    {
      this.baseTableLabel := baseTableLabel;
      this.targetColumn := targetColumn;
      this.valueRatio := valueRatio;
      this.graph := graph;
      this.data := data;
      rankedPaths := map[];
      joinNameMapping := map[];
      discovered := {};
      partialJoinSelectedFeatures := map[];
      joinTargets := [];
    }

    /** Every recorded join file is numbered within the number of recorded joins. */
    ghost predicate FilesNumbered()
      reads this`joinNameMapping
    {
      forall p | p in joinNameMapping :: joinNameMapping[p].BfsJoinFile? && joinNameMapping[p].index <= |joinNameMapping|
    }

    /**
     * The file the next join writes: numbered one past the recorded joins, so
     * it is none of the recorded files while those are numbered within the
     * number of recorded joins.
     */
    function NextJoinFile(): (file: FileName)
      reads this
      ensures file.BfsJoinFile? && file.valueRatio == valueRatio
      ensures FilesNumbered() ==> forall p | p in joinNameMapping :: joinNameMapping[p] != file
    {
      BfsJoinFile(valueRatio, |joinNameMapping| + 1)
    }

    /** The neighbour table reduced to one row per value of the relation's right key. */
    function SampleFor(node: NodeId, rel: Relation): RightSample
    {
      RightSample(node, [Qualified(graph.labelOf(node), rel.prop.toColumn)])
    }

    /** A partial path name as `determine_partial_join` hands it on. */
    function Resolved(name: PathName, base: NodeId): PathName
    {
      if name == base then graph.labelOf(base) else name
    }

    /** The joined frame a relation would produce in the current state. */
    ghost function JoinedFrame(rel: Relation, partialJoin: LeftSource, node: NodeId): Frame
      reads this
    {
      data.join(partialJoin, SampleFor(node, rel), rel, NextJoinFile())
    }

    /** What the cascade would decide for that join in the current state. */
    ghost function CascadeOutcome(rel: Relation, partialName: PathName, partialJoin: LeftSource, node: NodeId): Option<seq<Column>>
      reads this
      requires partialName in partialJoinSelectedFeatures
    {
      Cascade.Select(data.measures, JoinedFrame(rel, partialJoin, node),
        RemoveFirst(data.rightColumns(node), targetColumn),
        partialJoinSelectedFeatures[partialName])
    }

    /**
     * `n` is the name of a join of `node` onto the path `name` through one of
     * the relations between `base` and `node` that is not skipped, and the
     * (resolved) path name contains the base node's label.
     */
    ghost predicate ExtendsFrom(n: PathName, name: PathName, base: NodeId, node: NodeId)
    {
      var resolved := Resolved(name, base);
      var rels := graph.relations(base, node);
      && IsSubstring(graph.labelOf(base), resolved)
      && exists i | 0 <= i < |rels| :: !SkipsRelation(rels[i]) && n == data.joinName(rels[i], resolved)
    }

    /**
     * Feature-selection step: runs the cascade against the features accepted
     * on the partial path and, on success, stores the result under the new
     * path's name.
     */
    method StepFeatureSelection(joined: Frame, rightNode: NodeId, partialJoinName: PathName, currentJoinName: PathName)
      returns (selected: Option<seq<Column>>)
      requires partialJoinName in partialJoinSelectedFeatures
      modifies this`partialJoinSelectedFeatures
      ensures selected == Cascade.Select(data.measures, joined,
        RemoveFirst(data.rightColumns(rightNode), targetColumn),
        old(partialJoinSelectedFeatures[partialJoinName]))
      ensures partialJoinSelectedFeatures ==
        if selected.Some? then old(partialJoinSelectedFeatures)[currentJoinName := selected.value]
        else old(partialJoinSelectedFeatures)
    {
      var currentSelected := partialJoinSelectedFeatures[partialJoinName];
      var rightFeatures := RemoveFirst(data.rightColumns(rightNode), targetColumn);
      var m := data.measures;

      // 1. relevance of the new features
      var relevant := m.relevance(joined, rightFeatures);
      if relevant == [] {
        return None;
      }
      // 2. conditional redundancy and 3. joint mutual information
      var nonCondRedundant := m.condRedundancy(joined, currentSelected, relevant);
      var jointRelevant := m.jointMI(joined, currentSelected, relevant);
      var combined := Cascade.CombineStages(nonCondRedundant, jointRelevant);
      if combined.None? {
        return None;
      }
      // 4. redundancy among the survivors
      var nonRedundant := m.redundancy(joined, combined.value);
      if nonRedundant == [] {
        return None;
      }
      var features := nonRedundant + currentSelected;
      partialJoinSelectedFeatures := partialJoinSelectedFeatures[currentJoinName := features];
      selected := Some(features);
    }

    /** Ranking step: trains on the accepted features plus the target. */
    method StepRankPath(joined: Frame, features: seq<Column>, joinName: PathName)
      modifies this`rankedPaths
      ensures rankedPaths == old(rankedPaths)[joinName := data.train(joined, features + [targetColumn])]
    {
      var columns := features + [targetColumn];
      rankedPaths := rankedPaths[joinName := data.train(joined, columns)];
    }

    /**
     * The table behind a partial path: the base table when the name is the
     * base node's id (recording its relevant features under its label), the
     * stored join file otherwise. None stands for the KeyError raised on a
     * name with no recorded file.
     */
    method DeterminePartialJoin(name: PathName, base: NodeId) returns (r: Option<(LeftSource, PathName)>)
      modifies this`partialJoinSelectedFeatures
      ensures name == base ==>
        && r == Some((BaseTable(base), graph.labelOf(base)))
        && partialJoinSelectedFeatures == old(partialJoinSelectedFeatures)[graph.labelOf(base) := data.baseRelevant(base)]
      ensures name != base ==>
        && partialJoinSelectedFeatures == old(partialJoinSelectedFeatures)
        && (r.Some? <==> name in joinNameMapping)
        && (r.Some? ==> r.value == (StoredJoin(joinNameMapping[name]), name))
    {
      if name == base {
        var baseLabel := graph.labelOf(base);
        partialJoinSelectedFeatures := partialJoinSelectedFeatures[baseLabel := data.baseRelevant(base)];
        r := Some((BaseTable(base), baseLabel));
      } else if name in joinNameMapping {
        r := Some((StoredJoin(joinNameMapping[name]), name));
      } else {
        r := None;
      }
    }

    /**
     * One join relation tried on one partial path: skip rule, join, quality
     * gate, cascade and ranking. Only a join that passes all of them is
     * recorded, in all three maps, under its new path name.
     */
    method JoinOnRelation(rel: Relation, partialName: PathName, partialJoin: LeftSource, node: NodeId)
      returns (accepted: Option<PathName>)
      requires Valid()
      requires partialName in partialJoinSelectedFeatures
      modifies this`joinNameMapping, this`rankedPaths, this`partialJoinSelectedFeatures
      ensures Valid()
      ensures old(FilesNumbered()) && data.joinName(rel, partialName) !in old(joinNameMapping) ==> FilesNumbered()
      ensures accepted.Some? <==>
        && !SkipsRelation(rel)
        && PassesQualityGate(old(JoinedFrame(rel, partialJoin, node)), valueRatio)
        && old(CascadeOutcome(rel, partialName, partialJoin, node)).Some?
      ensures accepted.None? ==>
        && joinNameMapping == old(joinNameMapping)
        && rankedPaths == old(rankedPaths)
        && partialJoinSelectedFeatures == old(partialJoinSelectedFeatures)
      ensures accepted.Some? ==>
        var name := data.joinName(rel, partialName);
        var features := old(CascadeOutcome(rel, partialName, partialJoin, node)).value;
        && accepted.value == name
        && joinNameMapping == old(joinNameMapping)[name := old(NextJoinFile())]
        && partialJoinSelectedFeatures == old(partialJoinSelectedFeatures)[name := features]
        && rankedPaths == old(rankedPaths)[name := data.train(old(JoinedFrame(rel, partialJoin, node)), features + [targetColumn])]
    {
      if SkipsRelation(rel) {
        return None;
      }
      ghost var outcome := CascadeOutcome(rel, partialName, partialJoin, node);
      // Sample the neighbour: one row per right-key value
      var sampled := RightSample(node, [Qualified(graph.labelOf(node), rel.prop.toColumn)]);
      // Join step: name the new path, number its file, perform the join
      var joinName := data.joinName(rel, partialName);
      var joinFilename := BfsJoinFile(valueRatio, |joinNameMapping| + 1);
      var joined := data.join(partialJoin, sampled, rel, joinFilename);
      assert joined == JoinedFrame(rel, partialJoin, node) && joinFilename == NextJoinFile();
      if !PassesQualityGate(joined, valueRatio) {
        return None;
      }
      var selected := StepFeatureSelection(joined, node, partialName, joinName);
      assert selected == outcome;
      if selected.None? {
        return None;
      }
      StepRankPath(joined, selected.value, joinName);
      joinNameMapping := joinNameMapping[joinName := joinFilename];
      accepted := Some(joinName);
    }

    /**
     * One partial path popped for a neighbour: resolve it, and unless its name
     * lacks the base node's label, try every join relation on it.
     * `ok` is false when the path has no recorded file (KeyError).
     */
    method ExtendPartialPath(name: PathName, base: NodeId, node: NodeId) returns (ok: bool, accepted: set<PathName>)
      requires Valid()
      modifies this`joinNameMapping, this`rankedPaths, this`partialJoinSelectedFeatures
      ensures Valid()
      ensures ok <==> name == base || name in old(joinNameMapping)
      ensures old(joinNameMapping.Keys) <= joinNameMapping.Keys
      ensures accepted <= joinNameMapping.Keys
      ensures forall n | n in accepted :: ExtendsFrom(n, name, base, node)
      ensures !IsSubstring(graph.labelOf(base), Resolved(name, base)) ==>
        accepted == {} && joinNameMapping == old(joinNameMapping) && rankedPaths == old(rankedPaths)
    {
      var r := DeterminePartialJoin(name, base);
      accepted := {};
      if r.None? {
        return false, {};
      }
      ok := true;
      var (partialJoin, partialName) := r.value;
      var baseLabel := graph.labelOf(base);
      // The neighbour can only be joined through the base node
      if !IsSubstring(baseLabel, partialName) {
        return;
      }
      var joinKeys := graph.relations(base, node);
      for i := 0 to |joinKeys|
        invariant Valid()
        invariant partialName in partialJoinSelectedFeatures
        invariant old(joinNameMapping.Keys) <= joinNameMapping.Keys
        invariant accepted <= joinNameMapping.Keys
        invariant forall n | n in accepted ::
          exists k | 0 <= k < i :: !SkipsRelation(joinKeys[k]) && n == data.joinName(joinKeys[k], partialName)
      {
        var a := JoinOnRelation(joinKeys[i], partialName, partialJoin, node);
        if a.Some? {
          accepted := accepted + {a.value};
        }
      }
    }

    /**
     * The frontier drained for one neighbour: every path of `previousQueue` is
     * popped and extended; the names of the accepted joins are returned. `ok`
     * is false when a popped path has no recorded file.
     */
    method JoinFrontier(base: NodeId, node: NodeId, previousQueue: set<PathName>)
      returns (ok: bool, currentQueue: set<PathName>)
      requires Valid()
      modifies this`joinNameMapping, this`rankedPaths, this`partialJoinSelectedFeatures
      ensures Valid()
      ensures (forall p | p in previousQueue :: p == base || p in old(joinNameMapping)) ==> ok
      ensures old(joinNameMapping.Keys) <= joinNameMapping.Keys
      ensures currentQueue <= joinNameMapping.Keys
      ensures forall n | n in currentQueue :: exists p | p in previousQueue :: ExtendsFrom(n, p, base, node)
    {
      var pending := previousQueue;
      currentQueue := {};
      ok := true;
      while pending != {}
        invariant Valid()
        invariant pending <= previousQueue
        invariant old(joinNameMapping.Keys) <= joinNameMapping.Keys
        invariant currentQueue <= joinNameMapping.Keys
        invariant forall n | n in currentQueue :: exists p | p in previousQueue :: ExtendsFrom(n, p, base, node)
        invariant ok
        decreases pending
      {
        var name :| name in pending;
        pending := pending - {name};
        var found, accepted := ExtendPartialPath(name, base, node);
        if !found {
          return false, currentQueue;
        }
        currentQueue := currentQueue + accepted;
      }
    }

    /**
     * One undiscovered neighbour: it is marked discovered and becomes the
     * join target of every path in the frontier; the drained frontier is then
     * refilled with the initial paths and the neighbour's new ones.
     */
    method VisitNeighbour(base: NodeId, node: NodeId, frontier: set<PathName>, initialQueue: set<PathName>)
      returns (ok: bool, refilled: set<PathName>)
      requires Valid()
      requires node !in discovered
      modifies this`discovered, this`joinTargets, this`joinNameMapping, this`rankedPaths, this`partialJoinSelectedFeatures
      ensures Valid()
      ensures discovered == old(discovered) + {node}
      ensures joinTargets == old(joinTargets) + [node]
      ensures old(joinNameMapping.Keys) <= joinNameMapping.Keys
      ensures initialQueue <= refilled && refilled - initialQueue <= joinNameMapping.Keys
      ensures forall n | n in refilled - initialQueue :: exists p | p in frontier :: ExtendsFrom(n, p, base, node)
      ensures (forall p | p in frontier :: p == base || p in old(joinNameMapping)) ==> ok
    {
      AppendUndiscovered(joinTargets, discovered, node);
      discovered := discovered + {node};
      joinTargets := joinTargets + [node];
      var currentQueue;
      ok, currentQueue := JoinFrontier(base, node, frontier);
      refilled := initialQueue + currentQueue;
    }

    /**
     * All undiscovered neighbours of one base node, visited in turn, each one
     * against the frontier left by the previous one. `ok` is false when a
     * KeyError aborts the loop.
     */
    method ExpandNeighbours(base: NodeId, neighbours: set<NodeId>, previous: set<PathName>, initialQueue: set<PathName>)
      returns (ok: bool, frontier: set<PathName>)
      requires Valid()
      requires neighbours !! discovered
      requires forall p | p in previous :: p in initialQueue || p in joinNameMapping
      modifies this`discovered, this`joinTargets, this`joinNameMapping, this`rankedPaths, this`partialJoinSelectedFeatures
      ensures Valid()
      ensures old(discovered) <= discovered <= old(discovered) + neighbours
      ensures ok ==> discovered == old(discovered) + neighbours
      ensures old(joinTargets) <= joinTargets
      ensures old(joinNameMapping.Keys) <= joinNameMapping.Keys
      ensures forall p | p in frontier :: p in initialQueue || p in joinNameMapping
      ensures neighbours != {} ==> frontier - initialQueue <= joinNameMapping.Keys
      ensures neighbours == {} ==> frontier == previous
      ensures (forall p | p in initialQueue :: p == base || p in old(joinNameMapping)) ==> ok
    {
      var remaining := neighbours;
      frontier := previous;
      ok := true;
      ghost var resolvable := forall p | p in initialQueue :: p == base || p in joinNameMapping;
      while remaining != {} && ok
        invariant Valid()
        invariant remaining <= neighbours
        invariant remaining !! discovered
        invariant old(discovered) <= discovered <= old(discovered) + neighbours
        invariant neighbours - remaining <= discovered
        invariant old(joinTargets) <= joinTargets
        invariant old(joinNameMapping.Keys) <= joinNameMapping.Keys
        invariant forall p | p in frontier :: p in initialQueue || p in joinNameMapping
        invariant remaining != neighbours ==> frontier - initialQueue <= joinNameMapping.Keys
        invariant remaining == neighbours ==> frontier == previous
        invariant resolvable ==> ok && forall p | p in frontier :: p == base || p in joinNameMapping
        decreases remaining
      {
        var node :| node in remaining;
        remaining := remaining - {node};
        ok, frontier := VisitNeighbour(base, node, frontier, initialQueue);
      }
    }

    /**
     * One node popped from the queue: it is marked discovered, its
     * undiscovered neighbours are expanded against the frontier, and the
     * traversal goes one level deeper on them with the paths that were not in
     * the initial frontier.
     */
    method VisitBase(base: NodeId, previous: set<PathName>, initialQueue: set<PathName>)
      returns (ok: bool, frontier: set<PathName>)
      requires Valid()
      requires forall p | p in previous :: p in initialQueue || p in joinNameMapping
      modifies this`discovered, this`joinTargets, this`joinNameMapping, this`rankedPaths, this`partialJoinSelectedFeatures
      ensures Valid()
      ensures old(discovered) + {base} <= discovered
      ensures old(joinTargets) <= joinTargets
      ensures old(joinNameMapping.Keys) <= joinNameMapping.Keys
      ensures forall p | p in frontier :: p in initialQueue || p in joinNameMapping
      ensures (forall p | p in initialQueue :: p == base || p in old(joinNameMapping)) ==> ok
      decreases |AllNodes(graph) - discovered|, 0
    {
      discovered := discovered + {base};
      var neighbours := Adjacent(graph, base) - discovered;
      if neighbours == {} {
        return true, previous;
      }
      ok, frontier := ExpandNeighbours(base, neighbours, previous, initialQueue);
      if ok {
        ghost var x :| x in neighbours;
        ProperSubsetIsSmaller(AllNodes(graph) - discovered, AllNodes(graph) - old(discovered), x);
        ok := BfsTraverseJoinPipeline(neighbours, Some(frontier - initialQueue));
      }
    }

    /**
     * The recursive traversal: every node of the queue is visited in turn,
     * each against the frontier left by the previous one. `ok` is false when
     * a KeyError on an unrecorded path name aborts it.
     */
    method BfsTraverseJoinPipeline(queue: set<NodeId>, previousQueue: Option<set<PathName>>) returns (ok: bool)
      requires Valid()
      modifies this`discovered, this`joinTargets, this`joinNameMapping, this`rankedPaths, this`partialJoinSelectedFeatures
      ensures Valid()
      ensures old(discovered) <= discovered
      ensures ok ==> queue <= discovered
      ensures old(joinTargets) <= joinTargets
      ensures old(joinNameMapping.Keys) <= joinNameMapping.Keys
      ensures (previousQueue.None? && |queue| <= 1) || (previousQueue.Some? && previousQueue.value <= old(joinNameMapping.Keys))
        ==> ok
      decreases |AllNodes(graph) - discovered|, 1
    {
      if queue == {} {
        return true;
      }
      var previous := if previousQueue.None? then queue else previousQueue.value;
      // Every path known on entry, used to repopulate the frontier
      var initialQueue := previous;
      ghost var resolvable := (previousQueue.None? && |queue| <= 1) ||
                              (previousQueue.Some? && previousQueue.value <= joinNameMapping.Keys);

      var q := queue;
      ok := true;
      while q != {} && ok
        invariant Valid()
        invariant q <= queue
        invariant old(discovered) <= discovered
        invariant |AllNodes(graph) - discovered| <= |AllNodes(graph) - old(discovered)|
        invariant ok ==> queue - q <= discovered
        invariant old(joinTargets) <= joinTargets
        invariant old(joinNameMapping.Keys) <= joinNameMapping.Keys
        invariant forall p | p in previous :: p in initialQueue || p in joinNameMapping
        invariant resolvable ==> ok
        invariant resolvable && previousQueue.None? ==> initialQueue == queue && (q == queue || q == {})
        invariant resolvable && previousQueue.Some? ==> initialQueue <= joinNameMapping.Keys
        decreases q
      {
        var base :| base in q;
        if resolvable && previousQueue.None? {
          assert initialQueue == {base} by {
            assert |queue - {base}| == 0;
          }
        }
        q := q - {base};
        ok, previous := VisitBase(base, previous, initialQueue);
        SubsetIsNoLarger(AllNodes(graph) - discovered, AllNodes(graph) - old(discovered));
      }
    }
  }
}
