/**
 * VoltDBPAggregateScanMergeRule: a physical aggregate sitting directly on a physical table
 * scan is offered as one more alternative, the scan with the aggregate inlined.
 *
 * The scan here is the calciteadapter physical scan (AbstractVoltDBPTableScan), whose
 * copyWithAggregate is not part of this model: the rule receives it as a parameter.
 */
module AggregateScanMerge {
  import opened Wrappers
  import opened Rel
  import SeqTableScans

  /** AbstractVoltDBPTableScan.copyWithAggregate(traitSet, aggregate). */
  type CopyWithAggregateOp = (DbpTableScan, TraitSet, RelNode) -> RelNode

  /** The two operands bound by a match. */
  datatype Binding = Binding(aggregate: Aggregate, scan: DbpTableScan)

  /** The rule's pattern: a physical aggregate whose input is a physical table scan (a scan has no inputs). */
  function Match(n: RelNode): (r: Option<Binding>)
    ensures r.Some? <==> n.AggregateNode? && n.agg.strategy != LogicalAggregate && n.agg.input.DbpScanNode?
    ensures r.Some? ==> n == AggregateNode(r.value.aggregate) && n.agg.input == DbpScanNode(r.value.scan)
  {
    match n
    case AggregateNode(agg) =>
      if agg.strategy != LogicalAggregate && agg.input.DbpScanNode? then Some(Binding(agg, agg.input.dbpScan))
      else None
    case _ => None
  }

  /** onMatch: the scan, copied under its own traits with the matched aggregate inlined. */
  function OnMatch(b: Binding, copyWithAggregate: CopyWithAggregateOp): RelNode
  {
    copyWithAggregate(b.scan, b.scan.traits, AggregateNode(b.aggregate))
  }

  /** The alternatives the rule proposes for `n`: none when the pattern does not match. */
  function Proposals(n: RelNode, copyWithAggregate: CopyWithAggregateOp): (r: seq<RelNode>)
    ensures |r| <= 1
  {
    match Match(n)
    case None => []
    case Some(b) => [OnMatch(b, copyWithAggregate)]
  }

  /**
   * The rule fires exactly on the pattern and then proposes exactly one node: the matched
   * scan's copy under the scan's own traits (not the aggregate's), with the matched
   * aggregate as the inlined one.
   */
  lemma ProposalsExactlyOnPattern(n: RelNode, copyWithAggregate: CopyWithAggregateOp)
    ensures |Proposals(n, copyWithAggregate)| == 1 <==>
      n.AggregateNode? && n.agg.strategy != LogicalAggregate && n.agg.input.DbpScanNode?
    ensures |Proposals(n, copyWithAggregate)| == 1 ==>
      Proposals(n, copyWithAggregate)[0] ==
        copyWithAggregate(n.agg.input.dbpScan, n.agg.input.dbpScan.traits, n)
  {
  }

  /**
   * The contract assumed of AbstractVoltDBPTableScan.copyWithAggregate, whose body is not part
   * of this model: the copy exposes the inlined aggregate's row type and uses the traits it is
   * given. This is a definition of that assumption, not a proved fact.
   */
  ghost predicate InlinesAggregate(copyWithAggregate: CopyWithAggregateOp)
  {
    forall s, t, a :: RowTypeOf(copyWithAggregate(s, t, a)) == RowTypeOf(a) && TraitsOf(copyWithAggregate(s, t, a)) == t
  }

  /**
   * With such a copy, the proposed alternative has the aggregate's row type, as an
   * alternative for the matched node must, and carries the scan's traits.
   */
  lemma ProposalEquivalent(n: RelNode, copyWithAggregate: CopyWithAggregateOp)
    requires InlinesAggregate(copyWithAggregate)
    requires Match(n).Some?
    ensures RowTypeOf(Proposals(n, copyWithAggregate)[0]) == RowTypeOf(n)
    ensures TraitsOf(Proposals(n, copyWithAggregate)[0]) == Match(n).value.scan.traits
  {
  }
}
