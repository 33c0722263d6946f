/**
 * The pivot dimension strategies: the no-op strategy, the row strategy that
 * builds the row hierarchy, the column strategy that aggregates every row
 * group over its leaf records, and the dimension-aware field-value lookup used
 * by filtering.
 *
 * The pivot utility helpers these strategies call are not part of this model:
 * they are the uninterpreted functions of a `PivotUtil` value. Helpers that
 * update their arguments in place are modelled by the value they leave behind,
 * and `applyAggregations`, whose writes are not modelled, by the sequence of
 * calls made to it.
 */
module PivotStrategy {
  import opened Wrappers

  /** A cell value of a data record; the strategies never look inside one. */
  datatype FieldValue = Null | Text(text: string) | Number(number: real) | Flag(flag: bool)

  /**
   * A pivot record. `records` is the array stored under the configured records key
   * (missing on a plain data row); `children` are the child groups, in insertion order.
   * A missing children map and a child group without an array behave as empty ones.
   */
  datatype Rec = Rec(fields: map<string, FieldValue>, records: RecordsField, children: seq<ChildGroup>)

  /** The field under the records key: missing, or an array of records. */
  datatype RecordsField = Missing | Present(recs: seq<Rec>)

  /** One entry of a record's children map: a dimension value and its child records. */
  datatype ChildGroup = ChildGroup(key: string, recs: seq<Rec>)

  /** A pivot dimension; `level` is set by the level assignment helper. */
  datatype Dimension = Dimension(memberName: string, enabled: bool, childLevel: Option<Dimension>, level: Option<nat>)

  /** The dimension the row strategy groups by when no row dimension is configured. */
  const EmptyDimension := Dimension("", true, None, None)

  datatype DimensionType = RowDimension | ColumnDimension

  /** A value (aggregation) configuration; passed through to the helpers unread. */
  datatype PivotValue = PivotValue(member: string, enabled: bool)

  /** The reserved key names; `records` names the field modelled by `Rec.records`. */
  datatype PivotKeys = PivotKeys(records: string)

  /** What the hierarchy builder returns: dimension value to hierarchy node. */
  type Hierarchy = map<string, Rec>

  /** The pivot utility helpers the strategies rely on, left uninterpreted. */
  datatype PivotUtil = PivotUtil(
    assignLevels: seq<Dimension> -> seq<Dimension>,
    getFieldsHierarchy: (seq<Rec>, seq<Dimension>, DimensionType, PivotKeys) -> Hierarchy,
    processHierarchy: (Hierarchy, PivotKeys, nat, bool) -> seq<Rec>,
    processGroups: (seq<Rec>, Dimension, PivotKeys) -> seq<Rec>,
    flatten: seq<Dimension> -> seq<Dimension>,
    extractValueFromDimension: (Option<Dimension>, Rec) -> FieldValue)

  /** One call of `applyAggregations(rec, hierarchy, values, pivotKeys)`. */
  datatype AggregationCall = AggregationCall(rec: Rec, hierarchy: Hierarchy, values: seq<PivotValue>)

  // ---------------------------------------------------------------------------
  // Leaf records

  /** The leaf records under `records`: each record with a records array replaced, recursively, by its leaves. */
  function Leaves(records: seq<Rec>): seq<Rec>
    decreases records
  {
    if records == [] then [] else Leaves(records[..|records| - 1]) + LeavesOf(records[|records| - 1])
  }

  /** The leaf records one record contributes. */
  function LeavesOf(rec: Rec): seq<Rec>
    decreases rec
  {
    match rec.records
    case Present(nested) => Leaves(nested)
    case Missing => [rec]
  }

  /** `x` is a leaf reached from `rec` through records arrays. */
  ghost predicate LeafUnder(x: Rec, rec: Rec)
    decreases rec
  {
    match rec.records
    case Missing => x == rec
    case Present(nested) => exists r | r in nested :: LeafUnder(x, r)
  }

  /** The number of records in a forest, counted through records arrays; it bounds the leaf recursion. */
  function Weight(records: seq<Rec>): nat
    decreases records
  {
    if records == [] then 0 else Weight(records[..|records| - 1]) + WeightOf(records[|records| - 1])
  }

  function WeightOf(rec: Rec): nat
    decreases rec
  {
    match rec.records
    case Present(nested) => 1 + Weight(nested)
    case Missing => 1
  }

  lemma {:induction false} WeightOfMember(records: seq<Rec>, i: nat)
    requires i < |records|
    ensures WeightOf(records[i]) <= Weight(records)
    decreases records
  {
    if i < |records| - 1 {
      WeightOfMember(records[..|records| - 1], i);
    }
  }

  /** The records array of a record weighs less than any forest holding that record. */
  lemma NestedWeightBelow(records: seq<Rec>, i: nat)
    requires i < |records| && records[i].records.Present?
    ensures Weight(records[i].records.recs) < Weight(records)
  {
    WeightOfMember(records, i);
  }

  /** Leaf extraction distributes over concatenation: depth-first, left-to-right order is kept. */
  lemma {:induction false} LeavesAppend(a: seq<Rec>, b: seq<Rec>)
    ensures Leaves(a + b) == Leaves(a) + Leaves(b)
    decreases b
  {
    if b == [] {
      assert a + b == a;
    } else {
      assert (a + b)[..|a + b| - 1] == a + b[..|b| - 1];
      LeavesAppend(a, b[..|b| - 1]);
    }
  }

  /** No leaf has a records array. */
  lemma {:induction false} LeavesAreFlat(records: seq<Rec>)
    ensures forall x | x in Leaves(records) :: x.records.Missing?
    decreases records
  {
    if records != [] {
      LeavesAreFlat(records[..|records| - 1]);
      LeavesOfAreFlat(records[|records| - 1]);
    }
  }

  lemma {:induction false} LeavesOfAreFlat(rec: Rec)
    ensures forall x | x in LeavesOf(rec) :: x.records.Missing?
    decreases rec
  {
    match rec.records
    case Present(nested) => LeavesAreFlat(nested);
    case Missing =>
  }

  /** A forest of plain data rows is its own leaf set. */
  lemma {:induction false} FlatLeaves(records: seq<Rec>)
    requires forall r | r in records :: r.records.Missing?
    ensures Leaves(records) == records
    decreases records
  {
    if records != [] {
      FlatLeaves(records[..|records| - 1]);
      LastSplit(records);
    }
  }

  /** A non-empty sequence is its front followed by its last element. */
  lemma LastSplit(s: seq<Rec>)
    requires s != []
    ensures s[..|s| - 1] + [s[|s| - 1]] == s
  {
  }

  /** Extracting leaves twice gives the same leaves. */
  lemma LeavesIdempotent(records: seq<Rec>)
    ensures Leaves(Leaves(records)) == Leaves(records)
  {
    LeavesAreFlat(records);
    FlatLeaves(Leaves(records));
  }

  /** A record whose records array is empty contributes nothing. */
  lemma EmptyGroupContributesNothing(before: seq<Rec>, rec: Rec, after: seq<Rec>)
    requires rec.records == Present([])
    ensures Leaves(before + [rec] + after) == Leaves(before + after)
  {
    LeavesAppend(before + [rec], after);
    LeavesAppend(before, [rec]);
    LeavesAppend(before, after);
    assert [rec][..0] == [];
  }

  /** The leaves of a forest are exactly the leaves reached from one of its records. */
  lemma {:induction false} LeavesMembership(records: seq<Rec>, x: Rec)
    ensures x in Leaves(records) <==> exists r | r in records :: LeafUnder(x, r)
    decreases records
  {
    if records != [] {
      var init, last := records[..|records| - 1], records[|records| - 1];
      LeavesMembership(init, x);
      LeavesOfMembership(last, x);
      assert records == init + [last];
      if x in Leaves(records) {
        if x in Leaves(init) {
          var r :| r in init && LeafUnder(x, r);
          assert r in records;
        } else {
          assert LeafUnder(x, last);
        }
      }
      if exists r | r in records :: LeafUnder(x, r) {
        var r :| r in records && LeafUnder(x, r);
        if r != last {
          assert r in init;
        }
      }
    }
  }

  lemma {:induction false} LeavesOfMembership(rec: Rec, x: Rec)
    ensures x in LeavesOf(rec) <==> LeafUnder(x, rec)
    decreases rec
  {
    match rec.records
    case Present(nested) => LeavesMembership(nested, x);
    case Missing =>
  }

  // ---------------------------------------------------------------------------
  // The order in which the column strategy aggregates records

  /** `groupColumns(rec)` aggregates its child groups' records, recursively, and then `rec` itself. */
  function PostOrder(rec: Rec): seq<Rec>
    decreases rec
  {
    GroupsPostOrder(rec.children) + [rec]
  }

  function GroupsPostOrder(groups: seq<ChildGroup>): seq<Rec>
    decreases groups
  {
    if groups == [] then [] else GroupsPostOrder(groups[..|groups| - 1]) + RecsPostOrder(groups[|groups| - 1].recs)
  }

  /** The records `groupColumns` aggregates when it is called on each of `recs` in turn. */
  function RecsPostOrder(recs: seq<Rec>): seq<Rec>
    decreases recs
  {
    if recs == [] then [] else RecsPostOrder(recs[..|recs| - 1]) + PostOrder(recs[|recs| - 1])
  }

  lemma RecsPostOrderStep(recs: seq<Rec>, j: nat)
    requires j < |recs|
    ensures RecsPostOrder(recs[..j + 1]) == RecsPostOrder(recs[..j]) + PostOrder(recs[j])
  {
    assert recs[..j + 1][..j] == recs[..j];
  }

  lemma GroupsPostOrderStep(groups: seq<ChildGroup>, k: nat)
    requires k < |groups|
    ensures GroupsPostOrder(groups[..k + 1]) == GroupsPostOrder(groups[..k]) + RecsPostOrder(groups[k].recs)
  {
    assert groups[..k + 1][..k] == groups[..k];
  }

  /** `d` is reachable from `rec` through `children`. */
  ghost predicate Reaches(rec: Rec, d: Rec)
    decreases rec
  {
    GroupsReach(rec.children, d)
  }

  /** `d` lies in the subtree of a record of one of `groups`. */
  ghost predicate GroupsReach(groups: seq<ChildGroup>, d: Rec)
    decreases groups
  {
    exists g | g in groups :: RecsReach(g.recs, d)
  }

  /** `d` is one of `recs` or reachable from one of them. */
  ghost predicate RecsReach(recs: seq<Rec>, d: Rec)
    decreases recs
  {
    exists c | c in recs :: c == d || Reaches(c, d)
  }

  lemma {:induction false} PostOrderMembership(rec: Rec, d: Rec)
    ensures d in GroupsPostOrder(rec.children) <==> Reaches(rec, d)
    ensures d in PostOrder(rec) <==> d == rec || Reaches(rec, d)
    decreases rec
  {
    GroupsMembership(rec.children, d);
  }

  lemma {:induction false} GroupsMembership(groups: seq<ChildGroup>, d: Rec)
    ensures d in GroupsPostOrder(groups) <==> GroupsReach(groups, d)
    decreases groups
  {
    if groups != [] {
      var init, last := groups[..|groups| - 1], groups[|groups| - 1];
      GroupsMembership(init, d);
      RecsMembership(last.recs, d);
      assert groups == init + [last];
      if GroupsReach(groups, d) {
        var g :| g in groups && RecsReach(g.recs, d);
        if g != last {
          assert g in init;
        }
      }
    }
  }

  lemma {:induction false} RecsMembership(recs: seq<Rec>, d: Rec)
    ensures d in RecsPostOrder(recs) <==> RecsReach(recs, d)
    decreases recs
  {
    if recs != [] {
      var init, last := recs[..|recs| - 1], recs[|recs| - 1];
      RecsMembership(init, d);
      PostOrderMembership(last, d);
      assert recs == init + [last];
      if d in RecsPostOrder(init) {
        var c :| c in init && (c == d || Reaches(c, d));
        assert c in recs;
      }
      assert last in recs;
      if RecsReach(recs, d) {
        var c :| c in recs && (c == d || Reaches(c, d));
        if c != last {
          assert c in init;
        }
      }
    }
  }

  /**
   * `groupColumns(rec)` aggregates `rec` last, and before it exactly the records
   * reachable from `rec` through `children`.
   */
  lemma ChildrenAggregatedFirst(rec: Rec, d: Rec)
    ensures PostOrder(rec)[|PostOrder(rec)| - 1] == rec
    ensures Reaches(rec, d) <==> d in PostOrder(rec)[..|PostOrder(rec)| - 1]
  {
    PostOrderMembership(rec, d);
    assert PostOrder(rec)[..|PostOrder(rec)| - 1] == GroupsPostOrder(rec.children);
  }

  /** Everything aggregated for a child's subtree is aggregated for its parent's. */
  lemma SubtreeInPostOrder(rec: Rec, g: ChildGroup, c: Rec)
    requires g in rec.children && c in g.recs
    ensures forall x | x in PostOrder(c) :: x in PostOrder(rec)
  {
    forall x | x in PostOrder(c)
      ensures x in PostOrder(rec)
    {
      PostOrderMembership(c, x);
      PostOrderMembership(rec, x);
      assert RecsReach(g.recs, x);
      assert GroupsReach(rec.children, x);
    }
  }

  /** Everything aggregated for one record of a collection is aggregated for the collection. */
  lemma SubtreeInCollection(recs: seq<Rec>, i: nat)
    requires i < |recs|
    ensures forall x | x in PostOrder(recs[i]) :: x in RecsPostOrder(recs)
  {
    forall x | x in PostOrder(recs[i])
      ensures x in RecsPostOrder(recs)
    {
      PostOrderMembership(recs[i], x);
      RecsMembership(recs, x);
      assert recs[i] in recs;
    }
  }

  /** Every record the column strategy will aggregate has a records array (the source throws on one without). */
  predicate Aggregatable(recs: seq<Rec>) {
    forall r | r in recs :: r.records.Present?
  }

  /**
   * The `applyAggregations` call made for `rec`: the column hierarchy is built over all of `rec`'s
   * leaf records. (Only reached for a record with a records array.)
   */
  function CallFor(util: PivotUtil, rec: Rec, columns: seq<Dimension>, values: seq<PivotValue>, keys: PivotKeys): AggregationCall {
    AggregationCall(rec, util.getFieldsHierarchy(Leaves(if rec.records.Present? then rec.records.recs else []), columns, ColumnDimension, keys), values)
  }

  /** The `applyAggregations` calls made for `recs`, in order. */
  function CallsFor(util: PivotUtil, recs: seq<Rec>, columns: seq<Dimension>, values: seq<PivotValue>, keys: PivotKeys): seq<AggregationCall>
    decreases recs
  {
    if recs == [] then [] else CallsFor(util, recs[..|recs| - 1], columns, values, keys) + [CallFor(util, recs[|recs| - 1], columns, values, keys)]
  }

  /** One call per aggregated record, for every sequence of records, the empty one included. */
  lemma {:induction false} CallsForLength(util: PivotUtil, recs: seq<Rec>, columns: seq<Dimension>, values: seq<PivotValue>, keys: PivotKeys)
    ensures |CallsFor(util, recs, columns, values, keys)| == |recs|
    decreases recs
  {
    if recs != [] {
      CallsForLength(util, recs[..|recs| - 1], columns, values, keys);
    }
  }

  lemma {:induction false} CallsForAppend(util: PivotUtil, a: seq<Rec>, b: seq<Rec>, columns: seq<Dimension>, values: seq<PivotValue>, keys: PivotKeys)
    ensures CallsFor(util, a + b, columns, values, keys) == CallsFor(util, a, columns, values, keys) + CallsFor(util, b, columns, values, keys)
    decreases b
  {
    if b == [] {
      assert a + b == a;
    } else {
      assert (a + b)[..|a + b| - 1] == a + b[..|b| - 1];
      CallsForAppend(util, a, b[..|b| - 1], columns, values, keys);
    }
  }

  /** One more record in `groupColumns`' inner loop: its subtree's calls follow the earlier ones. */
  lemma RecsCallsStep(util: PivotUtil, recs: seq<Rec>, j: nat, columns: seq<Dimension>, values: seq<PivotValue>, keys: PivotKeys)
    requires j < |recs|
    ensures CallsFor(util, RecsPostOrder(recs[..j + 1]), columns, values, keys) ==
      CallsFor(util, RecsPostOrder(recs[..j]), columns, values, keys) + CallsFor(util, PostOrder(recs[j]), columns, values, keys)
  {
    RecsPostOrderStep(recs, j);
    CallsForAppend(util, RecsPostOrder(recs[..j]), PostOrder(recs[j]), columns, values, keys);
  }

  /** Pushing the next element onto a prefix gives the next prefix. */
  lemma SlicePush(s: seq<Rec>, i: nat)
    requires i < |s|
    ensures s[..i] + [s[i]] == s[..i + 1]
  {
  }

  /** One more child group in `groupColumns`' outer loop. */
  lemma GroupsCallsStep(util: PivotUtil, groups: seq<ChildGroup>, k: nat, columns: seq<Dimension>, values: seq<PivotValue>, keys: PivotKeys)
    requires k < |groups|
    ensures CallsFor(util, GroupsPostOrder(groups[..k + 1]), columns, values, keys) ==
      CallsFor(util, GroupsPostOrder(groups[..k]), columns, values, keys) + CallsFor(util, RecsPostOrder(groups[k].recs), columns, values, keys)
  {
    GroupsPostOrderStep(groups, k);
    CallsForAppend(util, GroupsPostOrder(groups[..k]), RecsPostOrder(groups[k].recs), columns, values, keys);
  }

  /** `groupColumns(rec)` ends with the call for `rec` itself. */
  lemma OwnCallLast(util: PivotUtil, rec: Rec, columns: seq<Dimension>, values: seq<PivotValue>, keys: PivotKeys)
    ensures CallsFor(util, PostOrder(rec), columns, values, keys) ==
      CallsFor(util, GroupsPostOrder(rec.children), columns, values, keys) + [CallFor(util, rec, columns, values, keys)]
  {
    assert PostOrder(rec)[..|PostOrder(rec)| - 1] == GroupsPostOrder(rec.children);
  }

  /** `rec` and every record below it through `children` has a records array. */
  predicate TreeAggregatable(rec: Rec)
    decreases rec
  {
    rec.records.Present? && forall g, c | g in rec.children && c in g.recs :: TreeAggregatable(c)
  }

  /** The structural condition is exactly that every record `groupColumns(rec)` aggregates has a records array. */
  lemma {:induction false} TreeAggregatableIff(rec: Rec)
    ensures TreeAggregatable(rec) <==> Aggregatable(PostOrder(rec))
    decreases rec
  {
    forall g, c | g in rec.children && c in g.recs
      ensures TreeAggregatable(c) <==> Aggregatable(PostOrder(c))
    {
      TreeAggregatableIff(c);
    }
    if TreeAggregatable(rec) {
      forall r | r in PostOrder(rec)
        ensures r.records.Present?
      {
        PostOrderMembership(rec, r);
        if r != rec {
          var g :| g in rec.children && RecsReach(g.recs, r);
          var c :| c in g.recs && (c == r || Reaches(c, r));
          PostOrderMembership(c, r);
        }
      }
    }
    if Aggregatable(PostOrder(rec)) {
      PostOrderMembership(rec, rec);
      forall g, c | g in rec.children && c in g.recs
        ensures TreeAggregatable(c)
      {
        SubtreeInPostOrder(rec, g, c);
      }
    }
  }

  /** Each record is aggregated once per occurrence: one call per record, in the same order. */
  lemma {:induction false} CallsForAre(util: PivotUtil, recs: seq<Rec>, columns: seq<Dimension>, values: seq<PivotValue>, keys: PivotKeys, i: nat)
    requires i < |recs|
    ensures |CallsFor(util, recs, columns, values, keys)| == |recs|
    ensures CallsFor(util, recs, columns, values, keys)[i] == CallFor(util, recs[i], columns, values, keys)
    decreases recs
  {
    if i < |recs| - 1 {
      CallsForAre(util, recs[..|recs| - 1], columns, values, keys, i);
    } else if |recs| > 1 {
      CallsForAre(util, recs[..|recs| - 1], columns, values, keys, 0);
    }
  }

  // ---------------------------------------------------------------------------
  // The row strategy's control flow

  /** The flat rows built from the hierarchy of one dimension. */
  function Seed(util: PivotUtil, collection: seq<Rec>, dim: Dimension, keys: PivotKeys): seq<Rec> {
    util.processHierarchy(util.getFieldsHierarchy(collection, [dim], RowDimension, keys), keys, 0, true)
  }

  /** `data` after `processGroups` has been applied with each of `dims`, first to last. */
  function ExtendGroups(util: PivotUtil, data: seq<Rec>, dims: seq<Dimension>, keys: PivotKeys): seq<Rec>
    decreases |dims|
  {
    if dims == [] then data else util.processGroups(ExtendGroups(util, data, dims[..|dims| - 1], keys), dims[|dims| - 1], keys)
  }

  /** What the row strategy returns. */
  function RowDimensionsResult(util: PivotUtil, collection: seq<Rec>, rows: seq<Dimension>, keys: PivotKeys): seq<Rec> {
    var dims := util.assignLevels(rows);
    if dims == [] then Seed(util, collection, EmptyDimension, keys)
    else ExtendGroups(util, Seed(util, collection, dims[0], keys), dims[1..], keys)
  }

  /** Extending by `a` and then by `b` is extending by `a + b`. */
  lemma {:induction false} ExtendGroupsAppend(util: PivotUtil, data: seq<Rec>, a: seq<Dimension>, b: seq<Dimension>, keys: PivotKeys)
    ensures ExtendGroups(util, data, a + b, keys) == ExtendGroups(util, ExtendGroups(util, data, a, keys), b, keys)
    decreases |b|
  {
    if b == [] {
      assert a + b == a;
    } else {
      assert (a + b)[..|a + b| - 1] == a + b[..|b| - 1];
      ExtendGroupsAppend(util, data, a, b[..|b| - 1], keys);
    }
  }

  /** The first of the later dimensions is processed first, on the seeded data. */
  lemma ExtendGroupsFirst(util: PivotUtil, data: seq<Rec>, dim: Dimension, rest: seq<Dimension>, keys: PivotKeys)
    ensures ExtendGroups(util, data, [dim] + rest, keys) == ExtendGroups(util, util.processGroups(data, dim, keys), rest, keys)
  {
    ExtendGroupsAppend(util, data, [dim], rest, keys);
    assert [dim][..0] == [];
  }

  /** With one row dimension the result is that dimension's hierarchy alone; `processGroups` is never called. */
  lemma RowSingleDimension(util: PivotUtil, collection: seq<Rec>, rows: seq<Dimension>, keys: PivotKeys)
    requires |util.assignLevels(rows)| == 1
    ensures RowDimensionsResult(util, collection, rows, keys) == Seed(util, collection, util.assignLevels(rows)[0], keys)
  {
  }

  // ---------------------------------------------------------------------------
  // Dimension lookup for filtering

  /** `filter(x => x && x.enabled)`: the enabled dimensions, in order, skipping missing entries. */
  function EnabledDimensions(all: seq<Option<Dimension>>): (r: seq<Dimension>)
    ensures forall d :: d in r <==> Some(d) in all && d.enabled
    ensures |r| <= |all|
  {
    if all == [] then []
    else (if all[0].Some? && all[0].value.enabled then [all[0].value] else []) + EnabledDimensions(all[1..])
  }

  /** Filtering keeps order: it distributes over concatenation. */
  lemma {:induction false} EnabledDimensionsAppend(a: seq<Option<Dimension>>, b: seq<Option<Dimension>>)
    ensures EnabledDimensions(a + b) == EnabledDimensions(a) + EnabledDimensions(b)
    decreases a
  {
    if a != [] {
      assert (a + b)[1..] == a[1..] + b;
      EnabledDimensionsAppend(a[1..], b);
    } else {
      assert a + b == b;
    }
  }

  /** `find(x => x.memberName === name)`: the first dimension with that member name. */
  function FindByMember(dims: seq<Dimension>, name: string): (r: Option<Dimension>)
    ensures r.None? <==> forall i | 0 <= i < |dims| :: dims[i].memberName != name
    ensures forall i | 0 <= i < |dims| && dims[i].memberName == name && (forall j | 0 <= j < i :: dims[j].memberName != name) ::
      r == Some(dims[i])
  {
    if dims == [] then None
    else if dims[0].memberName == name then Some(dims[0])
    else
      var r := FindByMember(dims[1..], name);
      assert forall i | 1 <= i < |dims| :: dims[i] == dims[1..][i - 1];
      r
  }

  // ---------------------------------------------------------------------------
  // The strategies

  class NoopPivotDimensionsStrategy {
    constructor () {}

    /** `process`: the collection, unchanged. */
    function Process(collection: seq<Rec>, dims: seq<Dimension>, values: seq<PivotValue>): (r: seq<Rec>)
      ensures r == collection
    {
      collection
    }
  }

  class PivotRowDimensionsStrategy {
    constructor () {}

    /**
     * `process`: with no row dimension, a single pass with the empty dimension; otherwise the first
     * dimension seeds the hierarchy and each later one is passed to `processGroups`, in order.
     */
    method Process(util: PivotUtil, collection: seq<Rec>, rows: seq<Dimension>, values: seq<PivotValue>, keys: PivotKeys)
      returns (data: seq<Rec>)
      ensures data == RowDimensionsResult(util, collection, rows, keys)
    {
      // `cloneArray(rows, true)`: the levels are assigned on a deep copy; dimensions are values
      // here, so the caller's `rows` is left as it was
      var currRows := util.assignLevels(rows);
      if |currRows| == 0 {
        var hierarchies := util.getFieldsHierarchy(collection, [EmptyDimension], RowDimension, keys);
        data := util.processHierarchy(hierarchies, keys, 0, true);
        return;
      }
      var current: Option<seq<Rec>> := None;
      var i := 0;
      while i < |currRows|
        invariant 0 <= i <= |currRows|
        invariant current.None? <==> i == 0
        invariant i > 0 ==> current == Some(ExtendGroups(util, Seed(util, collection, currRows[0], keys), currRows[1..i], keys))
      {
        var row := currRows[i];
        if current.None? {
          var hierarchies := util.getFieldsHierarchy(collection, [row], RowDimension, keys);
          current := Some(util.processHierarchy(hierarchies, keys, 0, true));
        } else {
          assert currRows[1..i + 1][..i - 1] == currRows[1..i];
          current := Some(util.processGroups(current.value, row, keys));
        }
        i := i + 1;
      }
      assert currRows[1..i] == currRows[1..];
      data := current.value;
    }
  }

  class PivotColumnDimensionsStrategy {
    constructor () {}

    /** `process`: the records come back as they went in; every group is aggregated in post-order. */
    method Process(util: PivotUtil, collection: seq<Rec>, columns: seq<Dimension>, values: seq<PivotValue>, keys: PivotKeys)
      returns (res: seq<Rec>, calls: seq<AggregationCall>)
      requires forall i | 0 <= i < |collection| :: TreeAggregatable(collection[i])
      ensures res == collection
      ensures calls == CallsFor(util, RecsPostOrder(collection), columns, values, keys)
    {
      res, calls := ProcessHierarchy(util, collection, columns, values, keys);
    }

    /** `processHierarchy`: `groupColumns` on each record in turn, collecting the records in the same order. */
    method ProcessHierarchy(util: PivotUtil, collection: seq<Rec>, columns: seq<Dimension>, values: seq<PivotValue>, keys: PivotKeys)
      returns (result: seq<Rec>, calls: seq<AggregationCall>)
      requires forall i | 0 <= i < |collection| :: TreeAggregatable(collection[i])
      ensures result == collection
      ensures calls == CallsFor(util, RecsPostOrder(collection), columns, values, keys)
    {
      result, calls := [], [];
      var i := 0;
      while i < |collection|
        invariant 0 <= i <= |collection|
        invariant result == collection[..i]
        invariant calls == CallsFor(util, RecsPostOrder(collection[..i]), columns, values, keys)
      {
        var rec := collection[i];
        var recCalls := GroupColumns(util, rec, columns, values, keys);
        RecsCallsStep(util, collection, i, columns, values, keys);
        calls := calls + recCalls;
        SlicePush(collection, i);
        result := result + [rec];
        i := i + 1;
      }
      assert collection[..|collection|] == collection;
    }

    /** `groupColumns`: the child groups' records first, recursively, then `rec` itself. */
    method GroupColumns(util: PivotUtil, rec: Rec, columns: seq<Dimension>, values: seq<PivotValue>, keys: PivotKeys)
      returns (calls: seq<AggregationCall>)
      requires TreeAggregatable(rec)
      ensures calls == CallsFor(util, PostOrder(rec), columns, values, keys)
      decreases rec
    {
      calls := [];
      var children := rec.children;
      var k := 0;
      while k < |children|
        invariant 0 <= k <= |children|
        invariant calls == CallsFor(util, GroupsPostOrder(children[..k]), columns, values, keys)
      {
        var childCalls := GroupChildRecords(util, rec, children[k], columns, values, keys);
        calls := calls + childCalls;
        GroupsCallsStep(util, children, k, columns, values, keys);
        k := k + 1;
      }
      assert children[..k] == children;
      var own := ApplyAggregates(util, rec, columns, values, keys);
      OwnCallLast(util, rec, columns, values, keys);
      calls := calls + [own];
    }

    /** The `childRecs.forEach` callback of `groupColumns`: `groupColumns` on each child record in turn. */
    method GroupChildRecords(util: PivotUtil, ghost rec: Rec, group: ChildGroup, columns: seq<Dimension>, values: seq<PivotValue>, keys: PivotKeys)
      returns (calls: seq<AggregationCall>)
      requires group in rec.children && TreeAggregatable(rec)
      ensures calls == CallsFor(util, RecsPostOrder(group.recs), columns, values, keys)
      decreases group
    {
      var childRecs := group.recs;
      calls := [];
      var j := 0;
      while j < |childRecs|
        invariant 0 <= j <= |childRecs|
        invariant calls == CallsFor(util, RecsPostOrder(childRecs[..j]), columns, values, keys)
      {
        var child := childRecs[j];
        var childCalls := GroupColumns(util, child, columns, values, keys);
        RecsCallsStep(util, childRecs, j, columns, values, keys);
        calls := calls + childCalls;
        j := j + 1;
      }
      assert childRecs[..j] == childRecs;
    }

    /** `applyAggregates`: the column hierarchy over all of `rec`'s leaf records, handed to `applyAggregations`. */
    method ApplyAggregates(util: PivotUtil, rec: Rec, columns: seq<Dimension>, values: seq<PivotValue>, keys: PivotKeys)
      returns (call: AggregationCall)
      requires rec.records.Present?
      ensures call == CallFor(util, rec, columns, values, keys)
    {
      var leafRecords := GetLeafs(rec.records.recs);
      var hierarchy := util.getFieldsHierarchy(leafRecords, columns, ColumnDimension, keys);
      call := AggregationCall(rec, hierarchy, values);
    }

    /** `getLeafs`: the records, each one with a records array replaced by its own leaves. */
    method GetLeafs(records: seq<Rec>) returns (leafs: seq<Rec>)
      ensures leafs == Leaves(records)
      decreases Weight(records)
    {
      leafs := [];
      var i := 0;
      while i < |records|
        invariant 0 <= i <= |records|
        invariant leafs == Leaves(records[..i])
      {
        var rec := records[i];
        assert records[..i + 1][..i] == records[..i];
        if rec.records.Present? {
          NestedWeightBelow(records, i);
          var nested := GetLeafs(rec.records.recs);
          leafs := leafs + nested;
        } else {
          leafs := leafs + [rec];
        }
        i := i + 1;
      }
      assert records[..i] == records;
    }

    /** `isLeaf`: no records array, or none of its records has one. */
    function IsLeaf(record: Rec): (r: bool)
      ensures record.records.Missing? ==> r
      ensures record.records.Present? ==> (r <==> Leaves(record.records.recs) == record.records.recs)
    {
      if record.records.Present? then
        LeavesAreFlat(record.records.recs);
        if forall c | c in record.records.recs :: c.records.Missing? then FlatLeaves(record.records.recs); true
        else false
      else true
    }
  }

  class DimensionValuesFilteringStrategy {
    /** The field names given at construction; this strategy does not read them. */
    const fields: Option<seq<string>>

    constructor (fields: Option<seq<string>>)
      ensures this.fields == fields
    {
      this.fields := fields;
    }

    /**
     * `getFieldValue`: the value extracted through the first of the flattened enabled dimensions whose
     * member name is `fieldName`, or through no dimension when there is none. `allDimensions` is the grid's.
     */
    function GetFieldValue(util: PivotUtil, rec: Rec, fieldName: string, allDimensions: seq<Option<Dimension>>): (v: FieldValue)
      ensures var dims := util.flatten(EnabledDimensions(allDimensions));
        (forall i | 0 <= i < |dims| :: dims[i].memberName != fieldName) ==> v == util.extractValueFromDimension(None, rec)
      ensures var dims := util.flatten(EnabledDimensions(allDimensions));
        forall i | 0 <= i < |dims| && dims[i].memberName == fieldName && (forall j | 0 <= j < i :: dims[j].memberName != fieldName) ::
          v == util.extractValueFromDimension(Some(dims[i]), rec)
    {
      var dims := util.flatten(EnabledDimensions(allDimensions));
      var dim := FindByMember(dims, fieldName);
      assert dim.None? ==> dim == None;
      util.extractValueFromDimension(dim, rec)
    }
  }

  /** The static `_instance` slots of the three strategy classes, filled on first use. */
  class StrategyInstances {
    var noop: NoopPivotDimensionsStrategy?
    var row: PivotRowDimensionsStrategy?
    var column: PivotColumnDimensionsStrategy?

    constructor ()
      ensures noop == null && row == null && column == null
    {
      noop, row, column := null, null, null;
    }

    /** `NoopPivotDimensionsStrategy.instance()`. */
    method NoopInstance() returns (s: NoopPivotDimensionsStrategy)
      modifies this`noop
      ensures old(noop) == null ==> fresh(s)
      ensures old(noop) != null ==> s == old(noop)
      ensures noop == s
    {
      if noop == null {
        noop := new NoopPivotDimensionsStrategy();
      }
      s := noop;
    }

    /** `PivotRowDimensionsStrategy.instance()`. */
    method RowInstance() returns (s: PivotRowDimensionsStrategy)
      modifies this`row
      ensures old(row) == null ==> fresh(s)
      ensures old(row) != null ==> s == old(row)
      ensures row == s
    {
      if row == null {
        row := new PivotRowDimensionsStrategy();
      }
      s := row;
    }

    /** `PivotColumnDimensionsStrategy.instance()`. */
    method ColumnInstance() returns (s: PivotColumnDimensionsStrategy)
      modifies this`column
      ensures old(column) == null ==> fresh(s)
      ensures old(column) != null ==> s == old(column)
      ensures column == s
    {
      if column == null {
        column := new PivotColumnDimensionsStrategy();
      }
      s := column;
    }
  }

  /** A client of the slots: every call after the first returns the object the first call created. */
  method SingletonScenario() {
    var slots := new StrategyInstances();
    var n1 := slots.NoopInstance();
    var n2 := slots.NoopInstance();
    var r1 := slots.RowInstance();
    var r2 := slots.RowInstance();
    var c1 := slots.ColumnInstance();
    var c2 := slots.ColumnInstance();
    assert n1 == n2 && r1 == r2 && c1 == c2;
  }
}
