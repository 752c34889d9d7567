/**
 * Types and small rules shared by the join-path traversals and the ARDA
 * baseline: schema-graph identifiers, join-key relations, abstract table
 * summaries, join file names, the null-ratio quality gate and the
 * substring test that decides which partial paths a node can extend.
 */
module Common {

  type NodeId = string
  type Label = string
  type Column = string
  type PathName = string

  datatype Option<T> = None | Some(value: T)

  /** The property map of one join-key relation as stored in the graph. */
  datatype JoinProp = JoinProp(
    fromLabel: Label, fromColumn: Column,
    toLabel: Label, toColumn: Column,
    weight: real)

  /** A `(join_prop, from_table, to_table)` triple returned by the graph store. */
  datatype Relation = Relation(prop: JoinProp, fromTable: Label, toTable: Label)

  /**
   * On-disk name of a join result. The traversals only ever build these from
   * a counter, so the counter and (for the BFS class) the value ratio that is
   * formatted into the name are kept instead of the formatted string.
   */
  datatype FileName =
    | BfsJoinFile(valueRatio: real, index: nat)   // join_BFS_{ratio}_{n}.csv
    | TrialJoinFile(index: nat)                   // join{n}.csv

  /** Where the left side of a join comes from. */
  datatype LeftSource = BaseTable(node: NodeId) | StoredJoin(file: FileName)

  /**
   * The right-hand table of a join after `groupby(key).sample(n=1)` has been
   * applied once per key in `groupKeys`, in that order.
   */
  datatype RightSample = RightSample(node: NodeId, groupKeys: seq<Column>)

  /**
   * What the model keeps of a joined dataframe: an opaque content token,
   * the row count, the non-null count of the right join-key column, and
   * the column names.
   */
  datatype Frame = Frame(content: nat, rows: nat, keyNonNull: nat, columns: seq<Column>)

  /** Outcome of training the decision tree on a frame. */
  datatype Score = Score(accuracy: real, trainTime: real)

  /** `f"{table}.{column}"` */
  function Qualified(table: Label, column: Column): Column
  {
    table + "." + column
  }

  /**
   * The data-quality gate: a join is kept unless the non-null count of the
   * right key column is below `valueRatio` times the row count (the ratio
   * itself is related to this in QualityGateIsRatio).
   */
  predicate PassesQualityGate(joined: Frame, valueRatio: real)
    ensures valueRatio <= 0.0 ==> PassesQualityGate(joined, valueRatio)
    ensures joined.keyNonNull >= joined.rows && valueRatio <= 1.0 ==> PassesQualityGate(joined, valueRatio)
  {
    !(joined.keyNonNull as real < valueRatio * joined.rows as real)
  }

  /**
   * The gate rejects exactly the joins whose non-null ratio is below
   * `valueRatio`. With zero rows the source divides NumPy integers, obtains
   * NaN, and NaN compares false, so such a join is kept.
   */
  lemma QualityGateIsRatio(joined: Frame, valueRatio: real)
    ensures joined.rows > 0 ==>
      (PassesQualityGate(joined, valueRatio) <==> joined.keyNonNull as real / joined.rows as real >= valueRatio)
    ensures joined.rows == 0 ==> PassesQualityGate(joined, valueRatio)
  {
    if joined.rows > 0 {
      RatioBelowIffProductBelow(joined.keyNonNull as real, joined.rows as real, valueRatio);
    }
  }

  lemma RatioBelowIffProductBelow(n: real, rows: real, ratio: real)
    requires rows > 0.0
    ensures n / rows < ratio <==> n < ratio * rows
  {
    var q := n / rows;
    assert q * rows == n;
    if q < ratio {
      assert q * rows < ratio * rows;
    } else {
      assert q * rows >= ratio * rows;
    }
  }

  /** `needle` occurs in `haystack` starting at index `i`. */
  ghost predicate OccursAt(needle: string, haystack: string, i: int)
  {
    0 <= i <= |haystack| - |needle| && haystack[i..i + |needle|] == needle
  }

  /** Python's `needle in haystack` on strings. */
  function IsSubstring(needle: string, haystack: string): (r: bool)
    ensures r <==> exists i :: OccursAt(needle, haystack, i)
    decreases |haystack|
  {
    if |needle| > |haystack| then false
    else if haystack[..|needle|] == needle then
      assert OccursAt(needle, haystack, 0);
      true
    else
      var r := IsSubstring(needle, haystack[1..]);
      SubstringShift(needle, haystack);
      r
  }

  lemma SubstringShift(needle: string, haystack: string)
    requires |needle| <= |haystack| && haystack[..|needle|] != needle
    ensures (exists i :: OccursAt(needle, haystack, i)) <==> (exists i :: OccursAt(needle, haystack[1..], i))
  {
    if exists i :: OccursAt(needle, haystack, i) {
      var i :| OccursAt(needle, haystack, i);
      assert i != 0;
      assert haystack[1..][i - 1..i - 1 + |needle|] == needle;
      assert OccursAt(needle, haystack[1..], i - 1);
    }
    if exists i :: OccursAt(needle, haystack[1..], i) {
      var i :| OccursAt(needle, haystack[1..], i);
      assert haystack[i + 1..i + 1 + |needle|] == needle;
      assert OccursAt(needle, haystack, i + 1);
    }
  }

  /** Every string contains itself: a base label is found in its own path name. */
  lemma {:induction false} SubstringOfItself(s: string)
    ensures IsSubstring(s, s)
  {
    assert s[..|s|] == s;
  }

  /** `list.index(x)`: the position of the first occurrence of `x`. */
  function FirstIndex(s: seq<Column>, x: Column): (i: nat)
    requires x in s
    ensures i < |s| && s[i] == x && x !in s[..i]
  {
    if s[0] == x then 0
    else
      var i := 1 + FirstIndex(s[1..], x);
      assert s[..i] == [s[0]] + s[1..][..i - 1];
      i
  }

  /**
   * `list.remove(x)` when `x` is present: the first occurrence goes and the
   * order of the rest is kept. The list is unchanged otherwise.
   */
  function RemoveFirst(s: seq<Column>, x: Column): (r: seq<Column>)
    ensures x !in s ==> r == s
    ensures x in s ==> exists i | 0 <= i < |s| :: s[i] == x && x !in s[..i] && r == s[..i] + s[i + 1..]
    ensures x in s ==> |r| == |s| - 1 && multiset(r) == multiset(s) - multiset{x}
  {
    if x !in s then s
    else
      var i := FirstIndex(s, x);
      assert s == s[..i] + [s[i]] + s[i + 1..];
      s[..i] + s[i + 1..]
  }

  /** The elements of a list that occur nowhere in `excluded` and differ from `x`. */
  function KeepOutside(s: seq<Column>, excluded: seq<Column>, x: Column): (r: seq<Column>)
    ensures forall c :: c in r <==> c in s && c !in excluded && c != x
    ensures |r| <= |s|
  {
    if s == [] then []
    else
      var rest := KeepOutside(s[1..], excluded, x);
      assert forall c :: c in s <==> c == s[0] || c in s[1..];
      if s[0] !in excluded && s[0] != x then [s[0]] + rest else rest
  }
}
