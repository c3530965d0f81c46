/**
 * The executable plan nodes the lowering fills in (org.voltdb.plannodes), reduced to
 * the setters the lowering calls. The expression and schema translators are
 * represented by symbolic values: `TupleValue(f)` is what RelConverter makes of
 * field `f`, `FromRex(e)` what RexConverter makes of expression `e`, and
 * `Lowered(n)` is the plan node tree that lowering `n` yields.
 */
module PlanNodes {
  import opened Wrappers
  import opened Rel
  import opened VoltTypes

  /** An executable expression (AbstractExpression), as produced by the translators. */
  datatype VoltExpr =
    | TupleValue(field: Field)                            // RelConverter.convertDataTypeField
    | FromRex(rex: Rex)                                   // RexConverter.convert
    | JoinPredicate(numLhsFields: nat, condition: Rex)    // RexConverter.convertJoinPred

  /** RexConverter.convertToVoltDBNodeSchema of a row type. */
  datatype NodeSchema = NodeSchema(rowType: RowType)

  /** The plan node produced by lowering an operator (inputRelNodeToPlanNode). */
  datatype PlanRef = Lowered(rel: RelNode)

  /** One entry of AggregatePlanNode.addAggregate. */
  datatype AggregateColumn = AggregateColumn(
    aggType: ExpressionType, distinct: bool, outputIndex: nat, expr: Option<VoltExpr>)

  /** AggregatePlanNode (or HashAggregatePlanNode, as `strategy` says). */
  class AggregatePlanNode {
    const strategy: AggStrategy
    var outputSchema: Option<NodeSchema>
    var aggregates: seq<AggregateColumn>
    var groupByExpressions: seq<VoltExpr>
    var postPredicate: Option<VoltExpr>
    var children: seq<PlanRef>

    constructor (strategy: AggStrategy)
      ensures this.strategy == strategy
      ensures outputSchema == None && aggregates == [] && groupByExpressions == []
      ensures postPredicate == None && children == []
    {
      this.strategy := strategy;
      outputSchema, aggregates, groupByExpressions := None, [], [];
      postPredicate, children := None, [];
    }

    method SetOutputSchema(schema: NodeSchema)
      modifies this`outputSchema
      ensures outputSchema == Some(schema)
    {
      outputSchema := Some(schema);
    }

    method AddAggregate(aggType: ExpressionType, distinct: bool, outputIndex: nat, expr: Option<VoltExpr>)
      modifies this`aggregates
      ensures aggregates == old(aggregates) + [AggregateColumn(aggType, distinct, outputIndex, expr)]
    {
      aggregates := aggregates + [AggregateColumn(aggType, distinct, outputIndex, expr)];
    }

    method AddGroupByExpression(e: VoltExpr)
      modifies this`groupByExpressions
      ensures groupByExpressions == old(groupByExpressions) + [e]
    {
      groupByExpressions := groupByExpressions + [e];
    }

    method SetPostPredicate(e: VoltExpr)
      modifies this`postPredicate
      ensures postPredicate == Some(e)
    {
      postPredicate := Some(e);
    }

    /** addAndLinkChild; the child's back link to its parent is not modelled. */
    method AddAndLinkChild(child: PlanRef)
      modifies this`children
      ensures children == old(children) + [child]
    {
      children := children + [child];
    }
  }

  /** NestLoopPlanNode. */
  class NestLoopPlanNode {
    var joinType: Option<JoinType>
    var children: seq<PlanRef>
    var joinPredicate: Option<VoltExpr>
    var inlineOffset: Option<Rex>
    var inlineLimit: Option<Rex>
    var outputSchema: Option<NodeSchema>

    constructor ()
      ensures joinType == None && children == [] && joinPredicate == None
      ensures inlineOffset == None && inlineLimit == None && outputSchema == None
    {
      joinType, children, joinPredicate := None, [], None;
      inlineOffset, inlineLimit, outputSchema := None, None, None;
    }

    method SetJoinType(t: JoinType)
      modifies this`joinType
      ensures joinType == Some(t)
    {
      joinType := Some(t);
    }

    method AddAndLinkChild(child: PlanRef)
      modifies this`children
      ensures children == old(children) + [child]
    {
      children := children + [child];
    }

    method SetJoinPredicate(e: VoltExpr)
      modifies this`joinPredicate
      ensures joinPredicate == Some(e)
    {
      joinPredicate := Some(e);
    }

    /** The join's inherited addLimitOffset, reduced to recording the two values. */
    method AddLimitOffset(offset: Option<Rex>, limit: Option<Rex>)
      modifies this`inlineOffset, this`inlineLimit
      ensures inlineOffset == offset && inlineLimit == limit
    {
      inlineOffset, inlineLimit := offset, limit;
    }

    method SetOutputSchema(schema: NodeSchema)
      modifies this`outputSchema
      ensures outputSchema == Some(schema)
    {
      outputSchema := Some(schema);
    }
  }
}
