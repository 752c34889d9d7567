/**
 * The budgeted ARDA baseline (`select_arda_features_budget_join`): the
 * tables adjacent to the base table are left-joined one at a time, popped
 * from the end of the adjacency list, in batches whose size is bounded by a
 * feature budget (the row count of the sampled base table); after every
 * batch the columns not seen before go through the ARDA threshold sweep.
 *
 * Table reads, sampling, merges, dtypes, join names and the preparation of
 * a batch for learning are oracles of the store.
 */
module ArdaBudget {
  import opened Common
  import opened Arda

  /** `eta` and `k` of `wrapper_algo`, left at their defaults by the caller. */
  const Eta: real := 0.2
  const RoundsPerStep: nat := 10

  /** `np.arange(0.0, 1.0, 0.1)` */
  const Thresholds: seq<real> := [0.0, 0.1, 0.2, 0.3, 0.4, 0.5, 0.6, 0.7, 0.8, 0.9]

  /**
   * The collaborators of the budgeted join.
   * - baseTable: the base table as read;
   * - sample(frame, n): a uniform sample of n rows;
   * - adjacent: the nodes adjacent to the base node, in the graph's order;
   * - relations(node): the relations between the base node and `node`;
   * - rightTable(node, key): the node's table with one row sampled per key value;
   * - sameDtype(left, leftKey, right, rightKey): the two key columns have one dtype;
   * - merge(left, right, leftKey, rightKey): the left merge with the right key dropped;
   * - joinName(relation, name): `compute_join_name`;
   * - project(frame, columns): the frame cut down to those columns;
   * - prepare(frame, target): the feature matrix `prepare_data_for_ml` builds;
   * - trials(matrix): what the threshold sweep on that matrix is handed.
   */
  datatype BudgetStore = BudgetStore(
    baseTable: Frame,
    sample: (Frame, nat) -> Frame,
    baseLabel: Label,
    adjacent: seq<NodeId>,
    relations: NodeId -> seq<Relation>,
    labelOf: NodeId -> Label,
    rightTable: (NodeId, Column) -> Frame,
    sameDtype: (Frame, Column, Frame, Column) -> bool,
    merge: (Frame, Frame, Column, Column) -> Frame,
    joinName: (Relation, PathName) -> PathName,
    project: (Frame, seq<Column>) -> Frame,
    prepare: (Frame, Column) -> Frame,
    trials: Frame -> Trials)

  /** Every node of `nodes` has at least one relation with the base node. */
  predicate Related(store: BudgetStore, nodes: seq<NodeId>)
  {
    forall n :: n in nodes ==> store.relations(n) != []
  }

  /** The threshold sweep run on a batch's feature matrix. */
  function BatchSweep(store: BudgetStore, x: Frame): Sweep
  {
    Sweep(|x.columns|, Eta, RoundsPerStep, Thresholds, store.trials(x))
  }

  /** Every feature matrix gets a sweep of genuine rankings. */
  ghost predicate SweepsWellFormed(store: BudgetStore)
  {
    forall x: Frame :: WellFormed(BatchSweep(store, x))
  }

  function WithColumns(f: Frame, columns: seq<Column>): Frame
  {
    Frame(f.content, f.rows, f.keyNonNull, columns)
  }

  /**
   * `add_prefix(f"{label}.")` on a list of columns: every column qualified
   * by the label, in order, and nothing else.
   */
  function Prefixed(tableLabel: Label, columns: seq<Column>): (r: seq<Column>)
    ensures |r| == |columns|
    ensures forall i :: 0 <= i < |r| ==> r[i] == Qualified(tableLabel, columns[i])
    ensures forall c :: c in r <==> exists o :: o in columns && c == Qualified(tableLabel, o)
  {
    var r := seq(|columns|, i requires 0 <= i < |columns| => Qualified(tableLabel, columns[i]));
    assert forall c :: c in r <==> exists o :: o in columns && c == Qualified(tableLabel, o) by {
      forall c | c in r
        ensures exists o :: o in columns && c == Qualified(tableLabel, o)
      {
        var i :| 0 <= i < |r| && r[i] == c;
        assert columns[i] in columns;
      }
      forall c | exists o :: o in columns && c == Qualified(tableLabel, o)
        ensures c in r
      {
        var o :| o in columns && c == Qualified(tableLabel, o);
        var i :| 0 <= i < |columns| && columns[i] == o;
        assert r[i] == c;
      }
    }
    r
  }

  /**
   * `set_index([target]).add_prefix(f"{label}.").reset_index()`: the target
   * column first, then every other column qualified by the base label.
   */
  function BaseColumns(tableLabel: Label, target: Column, columns: seq<Column>): (r: seq<Column>)
    ensures |r| >= 1 && r[0] == target
    ensures forall c :: c in r[1..] <==> exists o :: o in columns && o != target && c == Qualified(tableLabel, o)
  {
    var others := KeepOutside(columns, [], target);
    var r := [target] + Prefixed(tableLabel, others);
    assert r[1..] == Prefixed(tableLabel, others);
    r
  }

  /** The base-side key column of the relation is the target column: the node is skipped. */
  predicate BaseKeyIsTarget(rel: Relation, baseLabel: Label, target: Column)
  {
    || (rel.prop.fromLabel == baseLabel && rel.prop.fromColumn == target)
    || (rel.prop.toLabel == baseLabel && rel.prop.toColumn == target)
  }

  /** The column a join property names for the table labelled `tableLabel`. */
  function ColumnFor(p: JoinProp, tableLabel: Label): Column
  {
    if p.fromLabel == tableLabel then p.fromColumn else p.toColumn
  }

  /**
   * The key columns `(from_column, to_column)` of a relation: the property's
   * columns, swapped when the property is stored from the `to_table` side.
   * For a relation between two distinct tables named by its property, the
   * left key is always the `from_table` column and the right key the
   * `to_table` column.
   */
  function Orient(rel: Relation): (keys: (Column, Column))
    ensures rel.fromTable != rel.toTable &&
      ((rel.prop.fromLabel == rel.fromTable && rel.prop.toLabel == rel.toTable) ||
       (rel.prop.fromLabel == rel.toTable && rel.prop.toLabel == rel.fromTable))
      ==> keys == (ColumnFor(rel.prop, rel.fromTable), ColumnFor(rel.prop, rel.toTable))
    ensures keys.0 in {rel.prop.fromColumn, rel.prop.toColumn}
    ensures keys.1 in {rel.prop.fromColumn, rel.prop.toColumn}
  {
    if rel.prop.fromLabel == rel.toTable then (rel.prop.toColumn, rel.prop.fromColumn)
    else (rel.prop.fromColumn, rel.prop.toColumn)
  }

  /** The joined table and its join name, which the feature budget does not influence. */
  datatype Joined = Joined(left: Frame, joinName: PathName)

  /** The right table of a node, sampled on its key and qualified by its label. */
  function RightFrame(store: BudgetStore, node: NodeId, toColumn: Column): Frame
  {
    var right := store.rightTable(node, toColumn);
    WithColumns(right, Prefixed(store.labelOf(node), right.columns))
  }

  /**
   * The node is joined: it has a relation, whose base key is not the target
   * and whose key dtypes agree. (A node without a relation never reaches
   * this point: reading its first relation raises an IndexError.)
   */
  predicate Merges(store: BudgetStore, target: Column, st: Joined, node: NodeId)
  {
    store.relations(node) != [] &&
    var rel := store.relations(node)[0];
    var (fromColumn, toColumn) := Orient(rel);
    && !BaseKeyIsTarget(rel, store.baseLabel, target)
    && store.sameDtype(st.left, Qualified(rel.fromTable, fromColumn),
                       RightFrame(store, node, toColumn), Qualified(rel.toTable, toColumn))
  }

  /** One popped node: skipped, or left-merged with the join name extended. */
  function JoinNode(store: BudgetStore, target: Column, st: Joined, node: NodeId): Joined
  {
    if !Merges(store, target, st, node) then st
    else
      var rel := store.relations(node)[0];
      var (fromColumn, toColumn) := Orient(rel);
      Joined(
        store.merge(st.left, RightFrame(store, node, toColumn),
                    Qualified(rel.fromTable, fromColumn), Qualified(rel.toTable, toColumn)),
        store.joinName(rel, st.joinName))
  }

  /** What a popped node adds to the feature count: its table's width less the dropped key. */
  function NodeGain(store: BudgetStore, target: Column, st: Joined, node: NodeId): int
  {
    if !Merges(store, target, st, node) then 0
    else |RightFrame(store, node, Orient(store.relations(node)[0]).1).columns| - 1
  }

  /**
   * The nodes of `nodes` joined onto `st` in the order `nodes.pop()` hands
   * them out: the last node first, the first node last.
   */
  function JoinPopped(store: BudgetStore, target: Column, st: Joined, nodes: seq<NodeId>): Joined
  {
    if nodes == [] then st
    else JoinNode(store, target, JoinPopped(store, target, st, nodes[1..]), nodes[0])
  }

  /** The feature count after popping and joining all of `nodes` onto `st`. */
  function GainPopped(store: BudgetStore, target: Column, st: Joined, nodes: seq<NodeId>): int
  {
    if nodes == [] then 0
    else
      GainPopped(store, target, st, nodes[1..])
      + NodeGain(store, target, JoinPopped(store, target, st, nodes[1..]), nodes[0])
  }

  /**
   * Popping a list empties its back part first: joining `front + back` is
   * joining `back`, then `front` onto the result.
   */
  lemma {:induction false} JoinPoppedConcat(store: BudgetStore, target: Column, st: Joined, front: seq<NodeId>, back: seq<NodeId>)
    ensures JoinPopped(store, target, st, front + back) ==
      JoinPopped(store, target, JoinPopped(store, target, st, back), front)
  {
    if front != [] {
      assert (front + back)[1..] == front[1..] + back;
      JoinPoppedConcat(store, target, st, front[1..], back);
    } else {
      assert front + back == back;
    }
  }

  /**
   * One popped node (the body of the inner loop): fail (`ok` false, the
   * IndexError of taking the first of no relations) when the node has no
   * relation, skip it when its base key is the target or the key dtypes
   * differ, otherwise merge its table.
   */
  method JoinNext(store: BudgetStore, target: Column, joined: Joined, node: NodeId)
    returns (ok: bool, next: Joined, gain: int)
    ensures ok <==> store.relations(node) != []
    ensures ok ==> next == JoinNode(store, target, joined, node)
    ensures ok ==> gain == NodeGain(store, target, joined, node)
  {
    if store.relations(node) == [] {
      return false, joined, 0;
    }
    ok := true;
    var rel := store.relations(node)[0];
    var prop := rel.prop;
    if prop.fromLabel == store.baseLabel && prop.fromColumn == target {
      return true, joined, 0;
    }
    if prop.toLabel == store.baseLabel && prop.toColumn == target {
      return true, joined, 0;
    }
    var fromColumn, toColumn;
    if prop.fromLabel == rel.toTable {
      fromColumn := prop.toColumn;
      toColumn := prop.fromColumn;
    } else {
      fromColumn := prop.fromColumn;
      toColumn := prop.toColumn;
    }
    var right := store.rightTable(node, toColumn);
    right := WithColumns(right, Prefixed(store.labelOf(node), right.columns));
    var leftKey := Qualified(rel.fromTable, fromColumn);
    var rightKey := Qualified(rel.toTable, toColumn);
    if !store.sameDtype(joined.left, leftKey, right, rightKey) {
      return true, joined, 0;
    }
    var left := store.merge(joined.left, right, leftKey, rightKey);
    next := Joined(left, store.joinName(rel, joined.joinName));
    gain := |right.columns| - 1;
  }

  /**
   * The inner loop: pop and join nodes while the feature count is within the
   * budget. The nodes taken are a back part of the list; the count is the sum
   * of their gains; every node was popped while the count was within the
   * budget, so the batch ends at the first count that exceeds it or when the
   * nodes run out. A non-empty list always loses at least one node. `ok`
   * is false when the last node popped has no relation; every node popped
   * before it had one.
   */
  method JoinBatch(store: BudgetStore, target: Column, budget: nat, st: Joined, nodes: seq<NodeId>)
    returns (ok: bool, joined: Joined, featureCount: int, rest: seq<NodeId>)
    ensures |rest| <= |nodes| && rest == nodes[..|rest|]
    ensures nodes != [] ==> |rest| < |nodes|
    ensures ok ==> Related(store, nodes[|rest|..])
    ensures !ok ==> |rest| < |nodes| && store.relations(nodes[|rest|]) == [] && Related(store, nodes[|rest| + 1..])
    ensures ok ==> rest == [] || featureCount > budget
    ensures ok ==> joined == JoinPopped(store, target, st, nodes[|rest|..])
    ensures ok ==> featureCount == GainPopped(store, target, st, nodes[|rest|..])
    ensures forall j :: |rest| < j <= |nodes| ==> GainPopped(store, target, st, nodes[j..]) <= budget
  {
    ok := true;
    joined := st;
    featureCount := 0;
    rest := nodes;
    while featureCount <= budget && |rest| > 0
      invariant |rest| <= |nodes| && rest == nodes[..|rest|]
      decreases |rest|
      invariant Related(store, nodes[|rest|..])
      invariant joined == JoinPopped(store, target, st, nodes[|rest|..])
      invariant featureCount == GainPopped(store, target, st, nodes[|rest|..])
      invariant forall j :: |rest| < j <= |nodes| ==> GainPopped(store, target, st, nodes[j..]) <= budget
    {
      var node := rest[|rest| - 1];
      rest := rest[..|rest| - 1];
      PoppedStep(store, target, st, nodes, |rest|);
      var gain;
      ok, joined, gain := JoinNext(store, target, joined, node);
      if !ok {
        return;
      }
      RelatedCons(store, nodes, |rest|);
      featureCount := featureCount + gain;
    }
  }

  /** A node whose relation has the target as its base-side key is skipped and adds no feature. */
  lemma TargetKeySkipped(store: BudgetStore, target: Column, st: Joined, node: NodeId)
    requires store.relations(node) != [] && BaseKeyIsTarget(store.relations(node)[0], store.baseLabel, target)
    ensures JoinNode(store, target, st, node) == st
    ensures NodeGain(store, target, st, node) == 0
  {
  }

  /** Popping the node at `k` joins it onto everything popped after it. */
  lemma PoppedStep(store: BudgetStore, target: Column, st: Joined, nodes: seq<NodeId>, k: nat)
    requires k < |nodes|
    ensures JoinPopped(store, target, st, nodes[k..]) ==
      JoinNode(store, target, JoinPopped(store, target, st, nodes[k + 1..]), nodes[k])
    ensures GainPopped(store, target, st, nodes[k..]) ==
      GainPopped(store, target, st, nodes[k + 1..]) + NodeGain(store, target, JoinPopped(store, target, st, nodes[k + 1..]), nodes[k])
  {
    assert nodes[k..][1..] == nodes[k + 1..];
  }

  /** A related back part of a list grows by a node that has a relation. */
  lemma RelatedCons(store: BudgetStore, nodes: seq<NodeId>, k: nat)
    requires k < |nodes| && store.relations(nodes[k]) != [] && Related(store, nodes[k + 1..])
    ensures Related(store, nodes[k..])
  {
    assert nodes[k..] == [nodes[k]] + nodes[k + 1..];
  }

  /** `[c for c in columns if c not in seen]` */
  function Unseen(columns: seq<Column>, seen: seq<Column>): (r: seq<Column>)
    ensures forall c :: c in r <==> c in columns && c !in seen
    ensures |r| <= |columns|
  {
    if columns == [] then []
    else
      var rest := Unseen(columns[1..], seen);
      assert forall c :: c in columns <==> c == columns[0] || c in columns[1..];
      if columns[0] !in seen then [columns[0]] + rest else rest
  }

  /** The outcome of the budgeted join. */
  datatype BudgetOutcome = BudgetOutcome(table: Frame, baseLabel: Label, selected: seq<Column>, joinName: PathName)

  /** `X.iloc[:, indices].columns`: the names of the chosen columns of a feature matrix. */
  function ColumnsAt(columns: seq<Column>, indices: seq<nat>): (r: seq<Column>)
    requires forall i :: i in indices ==> i < |columns|
    ensures |r| == |indices|
    ensures forall p :: 0 <= p < |r| ==> indices[p] in indices && r[p] == columns[indices[p]]
    ensures forall c :: c in r ==> c in columns
  {
    seq(|indices|, p requires 0 <= p < |indices| => assert indices[p] in indices; columns[indices[p]])
  }

  /** The sweep on a feature matrix chooses column indices of that matrix. */
  lemma BatchSweepIndices(store: BudgetStore, x: Frame)
    requires SweepsWellFormed(store)
    ensures WellFormed(BatchSweep(store, x))
    ensures forall c :: c in SweepResult(Steps(BatchSweep(store, x))) ==> c < |x.columns|
  {
    SweepResultColumns(BatchSweep(store, x));
  }

  /** The columns of a feature matrix that the ARDA sweep keeps. */
  function SweepColumns(store: BudgetStore, x: Frame): (r: seq<Column>)
    requires SweepsWellFormed(store)
    ensures forall c :: c in r ==> c in x.columns
  {
    BatchSweepIndices(store, x);
    ColumnsAt(x.columns, SweepResult(Steps(BatchSweep(store, x))))
  }

  /**
   * The selection step after a batch. Of the columns not seen in earlier
   * batches: none, or only the target, selects nothing; one besides the
   * target selects that one; otherwise they are recorded as seen (less one
   * occurrence of the target, `ok` false where `list.remove` raises because
   * the target is absent) and the ARDA sweep on their feature matrix chooses
   * (`ok` false where it raises on a matrix without columns).
   */
  method SelectBatch(store: BudgetStore, target: Column, left: Frame, allColumns: seq<Column>)
    returns (ok: bool, seen: seq<Column>, chosen: seq<Column>)
    requires SweepsWellFormed(store)
    ensures var columns := Unseen(left.columns, allColumns);
      (|columns| == 0 || (|columns| == 1 && target in columns)) ==>
        ok && seen == allColumns && chosen == []
    ensures var columns := Unseen(left.columns, allColumns);
      (|columns| == 2 && target in columns) ==>
        ok && seen == allColumns && chosen == RemoveFirst(columns, target) && |chosen| == 1
    ensures var columns := Unseen(left.columns, allColumns);
      !(|columns| == 0 || (|columns| <= 2 && target in columns)) ==>
        && (ok <==> (target in columns || target in allColumns) &&
                    |store.prepare(store.project(left, columns), target).columns| > 0)
        && ((target in columns || target in allColumns) ==> seen == RemoveFirst(allColumns + columns, target))
        && (ok ==> chosen == SweepColumns(store, store.prepare(store.project(left, columns), target)))
  {
    var columns := Unseen(left.columns, allColumns);
    if |columns| == 0 {
      return true, allColumns, [];
    }
    if |columns| == 1 && target in columns {
      return true, allColumns, [];
    }
    if |columns| == 2 && target in columns {
      columns := RemoveFirst(columns, target);
      return true, allColumns, columns;
    }
    ok, seen, chosen := SweepNewColumns(store, target, left, allColumns, columns);
  }

  /** A batch of new columns beyond the special cases: record them as seen and sweep them. */
  method SweepNewColumns(store: BudgetStore, target: Column, left: Frame, allColumns: seq<Column>, columns: seq<Column>)
    returns (ok: bool, seen: seq<Column>, chosen: seq<Column>)
    requires SweepsWellFormed(store)
    ensures ok <==> (target in columns || target in allColumns) &&
                    |store.prepare(store.project(left, columns), target).columns| > 0
    ensures (target in columns || target in allColumns) ==> seen == RemoveFirst(allColumns + columns, target)
    ensures ok ==> chosen == SweepColumns(store, store.prepare(store.project(left, columns), target))
  {
    var batch := store.project(left, columns);
    seen := allColumns + columns;
    if target !in seen {
      return false, seen, [];
    }
    seen := RemoveFirst(seen, target);
    ok, chosen := SweepBatch(store, store.prepare(batch, target));
  }

  /**
   * `wrapper_algo` on a prepared feature matrix and its labels, which have
   * one row count, then the names of the columns it keeps. A matrix without
   * columns generates no random column, and the sweep raises.
   */
  method SweepBatch(store: BudgetStore, x: Frame) returns (ok: bool, chosen: seq<Column>)
    requires SweepsWellFormed(store)
    ensures ok <==> |x.columns| > 0
    ensures ok ==> chosen == SweepColumns(store, x)
  {
    BatchSweepIndices(store, x);
    var indices := SweepIndices(store, x);
    if indices.Failure? {
      return false, [];
    }
    ok := true;
    chosen := ColumnsAt(x.columns, indices.value);
  }

  /** `wrapper_algo` on a feature matrix and labels of one row count. */
  method SweepIndices(store: BudgetStore, x: Frame) returns (r: Result<seq<nat>>)
    requires WellFormed(BatchSweep(store, x))
    ensures |x.columns| == 0 ==> r.Failure?
    ensures |x.columns| > 0 ==> r == Success(SweepResult(Steps(BatchSweep(store, x))))
  {
    GeneratesForColumns(|x.columns|);
    r := WrapperAlgo(x.rows, x.rows, BatchSweep(store, x));
  }

  /** With the default `eta`, a random column is generated exactly when the matrix has a column. */
  lemma GeneratesForColumns(d: nat)
    ensures GeneratedCount(Eta, d) > 0 <==> d > 0
  {
  }

  /**
   * The base table, sampled, its columns prefixed, and named by its label:
   * where the joins start. The sample is drawn only when a non-zero
   * `sampleSize` is below the row count; its row count is the budget.
   */
  function Start(store: BudgetStore, target: Column, sampleSize: nat): Joined
  {
    var base :=
      if sampleSize > 0 && sampleSize < store.baseTable.rows
      then store.sample(store.baseTable, sampleSize)
      else store.baseTable;
    Joined(WithColumns(base, BaseColumns(store.baseLabel, target, base.columns)), store.baseLabel)
  }

  /**
   * `select_arda_features_budget_join`. The base table must hold the target
   * column (`set_index` raises otherwise). Batching decides only when the
   * ARDA selector runs: the table and join name returned are those of
   * joining every adjacent node, in pop order, onto the base table, and
   * every adjacent node has a relation (the first relation of a node without
   * one raises an IndexError).
   */
  method SelectArdaFeaturesBudgetJoin(store: BudgetStore, target: Column, sampleSize: nat)
    returns (r: Result<BudgetOutcome>)
    requires SweepsWellFormed(store)
    ensures target !in store.baseTable.columns ==> r.Failure?
    ensures r.Success? ==>
      && r.value.baseLabel == store.baseLabel
      && Joined(r.value.table, r.value.joinName) == JoinPopped(store, target, Start(store, target, sampleSize), store.adjacent)
    ensures r.Success? ==> Related(store, store.adjacent)
  {
    var base := store.baseTable;
    if target !in base.columns {
      return Failure("KeyError: " + target);
    }
    if sampleSize > 0 && sampleSize < base.rows {
      base := store.sample(base, sampleSize);
    }
    var budget := base.rows;
    var left := WithColumns(base, BaseColumns(store.baseLabel, target, base.columns));
    var joinName := store.baseLabel;
    ghost var start := Start(store, target, sampleSize);
    assert Joined(left, joinName) == start;
    var nodes := store.adjacent;
    var finalSelected: seq<Column> := [];
    var allColumns: seq<Column> := [];
    while |nodes| > 0
      invariant |nodes| <= |store.adjacent| && nodes == store.adjacent[..|nodes|]
      invariant Joined(left, joinName) == JoinPopped(store, target, start, store.adjacent[|nodes|..])
      invariant Related(store, store.adjacent[|nodes|..])
      decreases |nodes|
    {
      var related, joined, featureCount, rest := JoinBatch(store, target, budget, Joined(left, joinName), nodes);
      if !related {
        return Failure("IndexError: list index out of range");
      }
      BatchesCompose(store, target, start, store.adjacent, nodes, rest);
      left, joinName, nodes := joined.left, joined.joinName, rest;
      var ok, seen, chosen := SelectBatch(store, target, left, allColumns);
      if !ok {
        return Failure("ValueError");
      }
      allColumns := seen;
      finalSelected := finalSelected + chosen;
    }
    return Success(BudgetOutcome(left, store.baseLabel, finalSelected, joinName));
  }

  /** A batch popped after earlier ones continues the join of everything popped so far. */
  lemma BatchesCompose(store: BudgetStore, target: Column, start: Joined, adjacent: seq<NodeId>, nodes: seq<NodeId>, rest: seq<NodeId>)
    requires |nodes| <= |adjacent| && nodes == adjacent[..|nodes|]
    requires |rest| <= |nodes| && rest == nodes[..|rest|]
    ensures rest == adjacent[..|rest|]
    ensures Related(store, adjacent[|rest|..]) <==> Related(store, nodes[|rest|..]) && Related(store, adjacent[|nodes|..])
    ensures JoinPopped(store, target, start, adjacent[|rest|..]) ==
      JoinPopped(store, target, JoinPopped(store, target, start, adjacent[|nodes|..]), nodes[|rest|..])
  {
    assert adjacent[|rest|..] == nodes[|rest|..] + adjacent[|nodes|..];
    JoinPoppedConcat(store, target, start, nodes[|rest|..], adjacent[|nodes|..]);
  }
}
