/**
 * The four-stage feature-selection cascade run on every accepted join
 * (`step_feature_selection`). The statistical measures are oracles: each
 * one is a function of the joined frame and of the feature lists it is
 * given, and the model only fixes how their outputs are combined.
 */
module Cascade {
  import opened Common

  /**
   * The measures of the cascade.
   * - relevance(frame, candidates): the relevant candidates (stage 1);
   * - condRedundancy(frame, accepted, relevant): the relevant features that
   *   stay informative given the already accepted ones (stage 2);
   * - jointMI(frame, accepted, relevant): the relevant features whose joint
   *   mutual information with the accepted ones beats their own (stage 3);
   * - redundancy(frame, group): the group with near-duplicates removed,
   *   as a list (stage 4).
   */
  datatype Measures = Measures(
    relevance: (Frame, seq<Column>) -> seq<Column>,
    condRedundancy: (Frame, seq<Column>, seq<Column>) -> seq<Column>,
    jointMI: (Frame, seq<Column>, seq<Column>) -> seq<Column>,
    redundancy: (Frame, set<Column>) -> seq<Column>)

  /**
   * What every implementation of the measures guarantees: each one returns
   * a selection out of the features it was asked about.
   */
  ghost predicate Selective(m: Measures)
  {
    && (forall f, cs, c :: c in m.relevance(f, cs) ==> c in cs)
    && (forall f, acc, cs, c :: c in m.condRedundancy(f, acc, cs) ==> c in cs)
    && (forall f, acc, cs, c :: c in m.jointMI(f, acc, cs) ==> c in cs)
    && (forall f, g, c :: c in m.redundancy(f, g) ==> c in g)
  }

  /**
   * Combination of stages 2 and 3: when no feature is non-conditionally
   * redundant, fall back on the jointly relevant ones (or reject when there
   * are none of those either); otherwise keep the features both stages chose.
   */
  function CombineStages(nonCondRedundant: seq<Column>, jointRelevant: seq<Column>): (r: Option<set<Column>>)
    ensures r.None? <==> nonCondRedundant == [] && jointRelevant == []
    ensures r.Some? ==> forall c :: c in r.value <==>
      c in jointRelevant && (c in nonCondRedundant || nonCondRedundant == [])
  {
    if nonCondRedundant == [] then
      if jointRelevant == [] then None else Some(set x | x in jointRelevant)
    else
      Some((set x | x in nonCondRedundant) * (set x | x in jointRelevant))
  }

  /** The survivors of stages 1 to 3, or None when the join is rejected before stage 4. */
  function Candidates(m: Measures, joined: Frame, newFeatures: seq<Column>, ancestor: seq<Column>): (r: Option<set<Column>>)
    ensures m.relevance(joined, newFeatures) == [] ==> r.None?
    ensures r.Some? ==> forall c :: c in r.value ==> c in m.jointMI(joined, ancestor, m.relevance(joined, newFeatures))
  {
    var relevant := m.relevance(joined, newFeatures);
    if relevant == [] then None
    else
      CombineStages(m.condRedundancy(joined, ancestor, relevant), m.jointMI(joined, ancestor, relevant))
  }

  /**
   * The whole cascade: None when the join is rejected, otherwise the list
   * stored for the new path, namely the stage-4 survivors followed by the
   * ancestor path's accepted features.
   */
  function Select(m: Measures, joined: Frame, newFeatures: seq<Column>, ancestor: seq<Column>): (r: Option<seq<Column>>)
    ensures r.Some? ==> |r.value| > |ancestor| && r.value[|r.value| - |ancestor|..] == ancestor
  {
    match Candidates(m, joined, newFeatures, ancestor)
    case None => None
    case Some(candidates) =>
      var nonRedundant := m.redundancy(joined, candidates);
      if nonRedundant == [] then None
      else
        assert (nonRedundant + ancestor)[|nonRedundant|..] == ancestor;
        Some(nonRedundant + ancestor)
  }

  /** The features a successful cascade adds in front of the ancestor list. */
  function Added(r: seq<Column>, ancestor: seq<Column>): seq<Column>
    requires |r| >= |ancestor|
  {
    r[..|r| - |ancestor|]
  }

  /**
   * A join is rejected exactly when stage 1 finds nothing relevant, when
   * stages 2 and 3 both come back empty, or when stage 4 removes everything.
   */
  lemma SelectRejectsExactly(m: Measures, joined: Frame, newFeatures: seq<Column>, ancestor: seq<Column>)
    ensures var relevant := m.relevance(joined, newFeatures);
      Select(m, joined, newFeatures, ancestor).None? <==>
        || relevant == []
        || (m.condRedundancy(joined, ancestor, relevant) == [] && m.jointMI(joined, ancestor, relevant) == [])
        || (var c := Candidates(m, joined, newFeatures, ancestor); c.Some? && m.redundancy(joined, c.value) == [])
  {
  }

  /**
   * With selective measures every feature the cascade adds is a column of the
   * new table, and a stage-2 survivor whenever stage 2 kept anything.
   */
  lemma {:induction false} AddedFeaturesComeFromNewTable(m: Measures, joined: Frame, newFeatures: seq<Column>, ancestor: seq<Column>)
    requires Selective(m)
    requires Select(m, joined, newFeatures, ancestor).Some?
    ensures var r := Select(m, joined, newFeatures, ancestor).value;
      var relevant := m.relevance(joined, newFeatures);
      var cr := m.condRedundancy(joined, ancestor, relevant);
      forall c :: c in Added(r, ancestor) ==>
        && c in newFeatures
        && c in m.jointMI(joined, ancestor, relevant)
        && (cr != [] ==> c in cr)
  {
    var r := Select(m, joined, newFeatures, ancestor).value;
    var relevant := m.relevance(joined, newFeatures);
    var cr := m.condRedundancy(joined, ancestor, relevant);
    var jmi := m.jointMI(joined, ancestor, relevant);
    var candidates := Candidates(m, joined, newFeatures, ancestor).value;
    var nonRedundant := m.redundancy(joined, candidates);
    assert Added(r, ancestor) == nonRedundant;
    forall c | c in nonRedundant
      ensures c in newFeatures && c in jmi && (cr != [] ==> c in cr)
    {
      assert c in candidates;
      assert c in jmi;
      assert c in relevant;
    }
  }

  /** One join along a path: the joined frame and the new table's features. */
  datatype JoinStep = JoinStep(joined: Frame, newFeatures: seq<Column>)

  /**
   * The list stored for the end of a path: the cascade run join after join,
   * each on the list of the path before it, starting from `root`; None when
   * some join on the way is rejected.
   */
  function Chain(m: Measures, steps: seq<JoinStep>, root: seq<Column>): Option<seq<Column>>
  {
    if steps == [] then Some(root)
    else
      match Chain(m, steps[..|steps| - 1], root)
      case None => None
      case Some(parent) => Select(m, steps[|steps| - 1].joined, steps[|steps| - 1].newFeatures, parent)
  }

  /**
   * Feature inheritance along a path: when every join of a path was accepted,
   * the root's list is a suffix of the last list, behind at least one added
   * feature per join.
   */
  lemma {:induction false} InheritedAlongPath(m: Measures, steps: seq<JoinStep>, root: seq<Column>)
    requires Chain(m, steps, root).Some?
    ensures var r := Chain(m, steps, root).value;
      |r| >= |root| + |steps| && r[|r| - |root|..] == root
  {
    if steps != [] {
      var last := steps[|steps| - 1];
      InheritedAlongPath(m, steps[..|steps| - 1], root);
      var parent := Chain(m, steps[..|steps| - 1], root).value;
      var r := Select(m, last.joined, last.newFeatures, parent).value;
      assert r[|r| - |parent|..] == parent;
      assert r[|r| - |root|..] == r[|r| - |parent|..][|parent| - |root|..];
    } else {
      assert root[0..] == root;
    }
  }
}
