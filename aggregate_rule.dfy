/**
 * VoltDBPAggregateRule: every logical aggregate is offered to the planner as two
 * physical alternatives, a hash aggregate over an unordered input and a serial
 * aggregate over an input sorted on the GROUP BY fields.
 */
module AggregateRule {
  import opened Wrappers
  import opened Bits
  import opened Rel

  /** The part of RelOptRuleCall a rule writes to: the alternatives proposed with transformTo, in order. */
  class RuleCall {
    var proposed: seq<RelNode>

    constructor ()
      ensures proposed == []
    {
      proposed := [];
    }

    /** transformTo: registers one more alternative. */
    method TransformTo(rel: RelNode)
      modifies this
      ensures proposed == old(proposed) + [rel]
    {
      proposed := proposed + [rel];
    }
  }

  /** The rule's operand: a logical aggregate in the VoltDB logical convention. */
  predicate Matches(n: RelNode)
  {
    n.AggregateNode? && n.agg.strategy == LogicalAggregate && n.agg.traits.convention == VoltDBLogical
  }

  /** An ascending field collation per index, in the order given. */
  function AscendingOn(indices: seq<nat>): (r: Collation)
    ensures |r| == |indices|
  {
    if indices == [] then [] else [FieldCollation(indices[0], Ascending)] + AscendingOn(indices[1..])
  }

  /** The k-th field of AscendingOn is the k-th index, ascending. */
  lemma {:induction false} AscendingOnAt(indices: seq<nat>, k: nat)
    requires k < |indices|
    ensures AscendingOn(indices)[k] == FieldCollation(indices[k], Ascending)
  {
    if k > 0 {
      AscendingOnAt(indices[1..], k - 1);
    }
  }

  /** The collation the serial aggregate requires: the group set's bits, ascending. */
  function GroupByCollation(groupSet: seq<bool>): Collation
  {
    AscendingOn(SetBits(groupSet))
  }

  /**
   * The group-by collation lists each member of the group set exactly once, in strictly
   * ascending field order, every field ascending; so it has as many fields as the group
   * set's cardinality, and none when the group set is empty.
   */
  lemma GroupByCollationMeaning(groupSet: seq<bool>)
    ensures var c := GroupByCollation(groupSet);
      && |c| == Cardinality(groupSet) == |Members(groupSet)|
      && (forall k :: 0 <= k < |c| ==> c[k].direction == Ascending && c[k].fieldIndex in Members(groupSet))
      && (forall k, l :: 0 <= k < l < |c| ==> c[k].fieldIndex < c[l].fieldIndex)
      && (forall i :: i in Members(groupSet) ==> exists k :: 0 <= k < |c| && c[k].fieldIndex == i)
      && (Members(groupSet) == {} ==> c == [])
  {
    var bits := SetBits(groupSet);
    var c := GroupByCollation(groupSet);
    SetBitsEnumerateMembers(groupSet);
    forall k | 0 <= k < |c| ensures c[k] == FieldCollation(bits[k], Ascending) {
      AscendingOnAt(bits, k);
    }
    forall i | i in Members(groupSet) ensures exists k :: 0 <= k < |c| && c[k].fieldIndex == i {
      assert i in bits;
      var k :| 0 <= k < |bits| && bits[k] == i;
      assert c[k].fieldIndex == i;
    }
  }

  /** buildGroupByCollation: walks the group set's bits upward, one ascending field per bit. */
  method BuildGroupByCollation(aggr: Aggregate) returns (r: Collation)
    requires AllBelow(aggr.groupSet, |aggr.rowType|)
    ensures r == GroupByCollation(aggr.groupSet)
    ensures forall k :: 0 <= k < |r| ==> r[k].fieldIndex < |aggr.rowType|
  {
    var groupBy := aggr.groupSet;
    var rowTypeList := aggr.rowType;
    var collationFields: seq<FieldCollation> := [];
    ghost var pos: nat := 0;
    var index := NextSetBit(groupBy, 0);
    while index != -1
      invariant pos <= |groupBy| && index == NextSetBit(groupBy, pos)
      invariant collationFields + AscendingOn(SetBitsFrom(groupBy, pos)) == GroupByCollation(groupBy)
      invariant forall k :: 0 <= k < |collationFields| ==> collationFields[k].fieldIndex < |rowTypeList|
      decreases |groupBy| - pos
    {
      SetBitsFromNext(groupBy, pos);
      collationFields := collationFields + [FieldCollation(index, Ascending)];
      pos := index + 1;
      index := NextSetBit(groupBy, index + 1);
    }
    SetBitsFromNext(groupBy, pos);
    r := collationFields;
  }

  /** The hash alternative: the aggregate in the physical convention over its input converted to it. */
  function HashAlternative(aggregate: Aggregate): Aggregate
  {
    var input := aggregate.input;
    Aggregate(HashAggregate, WithConvention(aggregate.traits, VoltDBPhysical),
              Converted(input, WithConvention(TraitsOf(input), VoltDBPhysical)),
              aggregate.indicator, aggregate.groupSet, aggregate.groupSets, aggregate.aggCalls,
              None, aggregate.rowType)
  }

  /**
   * The serial alternative: as the hash one, with the group-by collation added both to
   * the traits requested of the input and to the aggregate's own traits.
   */
  function SerialAlternative(aggregate: Aggregate, groupByCollation: Collation): Aggregate
  {
    var input := aggregate.input;
    Aggregate(SerialAggregate, PlusCollation(WithConvention(aggregate.traits, VoltDBPhysical), groupByCollation),
              Converted(input, PlusCollation(WithConvention(TraitsOf(input), VoltDBPhysical), groupByCollation)),
              aggregate.indicator, aggregate.groupSet, aggregate.groupSets, aggregate.aggCalls,
              None, aggregate.rowType)
  }

  /** onMatch: proposes the hash alternative, then the serial one. */
  method OnMatch(call: RuleCall, aggregate: Aggregate)
    requires Matches(AggregateNode(aggregate))
    requires AllBelow(aggregate.groupSet, |aggregate.rowType|)
    modifies call
    ensures call.proposed == old(call.proposed) + [AggregateNode(HashAlternative(aggregate)),
                                                   AggregateNode(SerialAlternative(aggregate, GroupByCollation(aggregate.groupSet)))]
  {
    var hashAggr := HashAlternative(aggregate);
    call.TransformTo(AggregateNode(hashAggr));
    var groupByCollation := BuildGroupByCollation(aggregate);
    var serialAggr := SerialAlternative(aggregate, groupByCollation);
    call.TransformTo(AggregateNode(serialAggr));
  }

  /**
   * `alt` is a physical aggregate equivalent to the logical `aggregate`: the same indicator,
   * group set, group sets, calls and row type, no HAVING predicate, and the logical
   * aggregate's input requested in the physical convention with its other traits kept.
   */
  predicate PhysicalEquivalent(alt: Aggregate, aggregate: Aggregate)
  {
    && alt.strategy != LogicalAggregate
    && alt.traits.convention == VoltDBPhysical
    && alt.traits.otherTraits == aggregate.traits.otherTraits
    && alt.postPredicate.None?
    && alt.indicator == aggregate.indicator && alt.groupSet == aggregate.groupSet
    && alt.groupSets == aggregate.groupSets && alt.aggCalls == aggregate.aggCalls
    && RowTypeOf(AggregateNode(alt)) == RowTypeOf(AggregateNode(aggregate))
    && alt.input.Converted? && alt.input.source == aggregate.input
    && TraitsOf(alt.input).convention == VoltDBPhysical
    && TraitsOf(alt.input).otherTraits == TraitsOf(aggregate.input).otherTraits
  }

  /**
   * Both alternatives are equivalent to the logical aggregate. The hash alternative keeps
   * the collations of the aggregate and of its input; the serial one requires and delivers
   * exactly the group-by collation.
   */
  lemma AlternativesEquivalent(aggregate: Aggregate)
    requires Matches(AggregateNode(aggregate))
    ensures PhysicalEquivalent(HashAlternative(aggregate), aggregate)
    ensures PhysicalEquivalent(SerialAlternative(aggregate, GroupByCollation(aggregate.groupSet)), aggregate)
    ensures var h := HashAlternative(aggregate);
      && h.strategy == HashAggregate
      && h.traits.collation == aggregate.traits.collation
      && TraitsOf(h.input).collation == TraitsOf(aggregate.input).collation
    ensures var s := SerialAlternative(aggregate, GroupByCollation(aggregate.groupSet));
      && s.strategy == SerialAggregate
      && s.traits.collation == GroupByCollation(aggregate.groupSet)
      && TraitsOf(s.input).collation == GroupByCollation(aggregate.groupSet)
  {
  }
}
