/**
 * Lowering a physical aggregate to an AggregatePlanNode
 * (AbstractVoltDBPAggregate.toPlanNode), and its digest.
 *
 * The output row of an aggregate holds the GROUP BY fields first and then
 * one field per aggregate call, in call order; lowering numbers the calls'
 * output fields from the group count upward.
 */
module AggregateLowering {
  import opened Wrappers
  import opened Bits
  import opened VoltTypes
  import opened Rel
  import opened PlanNodes

  /**
   * An exception raised while lowering: the CalcitePlanningException for an aggregate kind
   * with no executable type, or the IndexOutOfBoundsException of looking up an argument
   * field that the input row does not have.
   */
  datatype PlanningError = UnsupportedAggregate(kindName: string) | FieldIndexOutOfBounds(index: nat)

  /** ExpressionTypeConverter.calicteTypeToVoltType: a partial map from aggregate kinds to executable types. */
  type KindMap = SqlKind -> Option<ExpressionType>

  /** The call shape the lowering asserts: at most one argument. */
  predicate CallWellFormed(call: AggregateCall)
  {
    |call.args| < 2
  }

  predicate CallsWellFormed(calls: seq<AggregateCall>)
  {
    forall i :: 0 <= i < |calls| ==> CallWellFormed(calls[i])
  }

  /** A call that lowers without an exception: its kind is mapped and its argument is a field of the input row. */
  predicate Supported(call: AggregateCall, inputRow: RowType, kindMap: KindMap)
  {
    kindMap(call.kind).Some? && (|call.args| != 0 ==> call.args[0] < |inputRow|)
  }

  /** getGroupCount(). */
  function GroupCount(agg: Aggregate): nat
  {
    Cardinality(agg.groupSet)
  }

  /** The requirements the lowering asserts of the aggregate it lowers over `inputRow`. */
  predicate Lowerable(agg: Aggregate)
  {
    && agg.strategy != LogicalAggregate
    && CallsWellFormed(agg.aggCalls)
    && GroupCount(agg) + |agg.aggCalls| <= |agg.rowType|
    && AllBelow(agg.groupSet, |agg.rowType|)
  }

  /** The entry that the aggregate call `call` contributes when its output field is `outputIndex`. */
  function LowerCall(call: AggregateCall, outputIndex: nat, inputRow: RowType, kindMap: KindMap)
    : (r: Result<AggregateColumn, PlanningError>)
    requires CallWellFormed(call)
    ensures r.Success? <==> Supported(call, inputRow, kindMap)
  {
    match kindMap(call.kind)
    case None => Failure(UnsupportedAggregate(call.kind.lowerName))
    case Some(aggrType) =>
      if |call.args| != 0 then
        if call.args[0] < |inputRow| then
          Success(AggregateColumn(aggrType, call.distinct, outputIndex, Some(TupleValue(inputRow[call.args[0]]))))
        else
          Failure(FieldIndexOutOfBounds(call.args[0]))
      else
        var t := if aggrType == ExprAggregateCount then ExprAggregateCountStar else aggrType;
        Success(AggregateColumn(t, call.distinct, outputIndex, None))
  }

  /**
   * What a lowered call means: an unmapped kind is reported by its name, and a mapped one whose
   * argument lies outside the input row by that argument's index; otherwise the entry
   * keeps the output field and DISTINCT, reads its single argument's input field, and a
   * COUNT without arguments becomes COUNT(*) while every other kind keeps its mapped type.
   */
  lemma LowerCallMeaning(call: AggregateCall, outputIndex: nat, inputRow: RowType, kindMap: KindMap)
    requires CallWellFormed(call)
    ensures var r := LowerCall(call, outputIndex, inputRow, kindMap);
      && (r.Failure? && kindMap(call.kind).None? ==> r.error == UnsupportedAggregate(call.kind.lowerName))
      && (r.Failure? && kindMap(call.kind).Some? ==>
            |call.args| == 1 && call.args[0] >= |inputRow| && r.error == FieldIndexOutOfBounds(call.args[0]))
      && (r.Success? ==> r.value.outputIndex == outputIndex && r.value.distinct == call.distinct)
      && (r.Success? && |call.args| == 1 ==>
            r.value.aggType == kindMap(call.kind).value && r.value.expr == Some(TupleValue(inputRow[call.args[0]])))
      && (r.Success? && |call.args| == 0 ==> r.value.expr == None)
      && (r.Success? && |call.args| == 0 && kindMap(call.kind) == Some(ExprAggregateCount) ==>
            r.value.aggType == ExprAggregateCountStar)
      && (r.Success? && |call.args| == 0 && kindMap(call.kind) != Some(ExprAggregateCount) ==>
            r.value.aggType == kindMap(call.kind).value)
  {
  }

  /**
   * The aggregate entries of the calls, in call order, the i-th at output field
   * `firstIndex + i`; or the error for the first call that does not lower.
   */
  function LowerCalls(calls: seq<AggregateCall>, firstIndex: nat, inputRow: RowType, kindMap: KindMap)
    : (r: Result<seq<AggregateColumn>, PlanningError>)
    requires CallsWellFormed(calls)
    ensures r.Success? <==> forall i :: 0 <= i < |calls| ==> Supported(calls[i], inputRow, kindMap)
    ensures r.Success? ==> |r.value| == |calls|
    ensures r.Success? ==> forall i :: 0 <= i < |calls| ==>
      LowerCall(calls[i], firstIndex + i, inputRow, kindMap) == Success(r.value[i])
    decreases |calls|
  {
    if calls == [] then Success([])
    else
      var n := |calls| - 1;
      match LowerCalls(calls[..n], firstIndex, inputRow, kindMap)
      case Failure(e) => Failure(e)
      case Success(prefix) =>
        match LowerCall(calls[n], firstIndex + n, inputRow, kindMap)
        case Failure(e) => Failure(e)
        case Success(col) => Success(prefix + [col])
  }

  /** Lowering one more call extends the lowered prefix by that call's entry. */
  lemma LowerCallsSnoc(calls: seq<AggregateCall>, firstIndex: nat, inputRow: RowType, kindMap: KindMap, i: nat)
    requires CallsWellFormed(calls) && i < |calls|
    ensures CallsWellFormed(calls[..i]) && CallsWellFormed(calls[..i + 1])
    ensures LowerCalls(calls[..i + 1], firstIndex, inputRow, kindMap) ==
      match LowerCalls(calls[..i], firstIndex, inputRow, kindMap)
      case Failure(e) => Failure(e)
      case Success(prefix) =>
        match LowerCall(calls[i], firstIndex + i, inputRow, kindMap)
        case Failure(e) => Failure(e)
        case Success(col) => Success(prefix + [col])
  {
    assert calls[..i + 1][..i] == calls[..i];
  }

  /** A call that lowers to `col` extends a successfully lowered prefix by `col`. */
  lemma LowerCallsStep(calls: seq<AggregateCall>, firstIndex: nat, inputRow: RowType, kindMap: KindMap,
                       i: nat, col: AggregateColumn)
    requires CallsWellFormed(calls) && i < |calls|
    requires CallsWellFormed(calls[..i])
    requires LowerCalls(calls[..i], firstIndex, inputRow, kindMap).Success?
    requires LowerCall(calls[i], firstIndex + i, inputRow, kindMap) == Success(col)
    ensures CallsWellFormed(calls[..i + 1])
    ensures LowerCalls(calls[..i + 1], firstIndex, inputRow, kindMap)
         == Success(LowerCalls(calls[..i], firstIndex, inputRow, kindMap).value + [col])
  {
    LowerCallsSnoc(calls, firstIndex, inputRow, kindMap, i);
  }

  /**
   * The error reported is that of the first call that does not lower: its kind's name when
   * the kind has no mapping, and otherwise the index of its out-of-range argument.
   */
  lemma {:induction false} LowerCallsFirstError(calls: seq<AggregateCall>, firstIndex: nat, inputRow: RowType,
                                                kindMap: KindMap, i: nat)
    requires CallsWellFormed(calls)
    requires i < |calls| && !Supported(calls[i], inputRow, kindMap)
    requires forall j :: 0 <= j < i ==> Supported(calls[j], inputRow, kindMap)
    ensures LowerCalls(calls, firstIndex, inputRow, kindMap) ==
      Failure(if kindMap(calls[i].kind).None? then UnsupportedAggregate(calls[i].kind.lowerName)
              else FieldIndexOutOfBounds(calls[i].args[0]))
    decreases |calls|
  {
    var n := |calls| - 1;
    if i < n {
      assert CallsWellFormed(calls[..n]);
      LowerCallsFirstError(calls[..n], firstIndex, inputRow, kindMap, i);
    } else {
      assert CallsWellFormed(calls[..n]);
      assert LowerCalls(calls[..n], firstIndex, inputRow, kindMap).Success?;
    }
  }

  /**
   * The aggregate output field indices are groupCount, groupCount + 1, ... in call order:
   * they follow the GROUP BY fields, are distinct, and stay inside the aggregate's row.
   */
  lemma OutputIndicesFollowGroupFields(agg: Aggregate, inputRow: RowType, kindMap: KindMap)
    requires Lowerable(agg)
    requires LowerCalls(agg.aggCalls, GroupCount(agg), inputRow, kindMap).Success?
    ensures var cols := LowerCalls(agg.aggCalls, GroupCount(agg), inputRow, kindMap).value;
      && |cols| == |agg.aggCalls|
      && (forall k :: 0 <= k < |cols| ==> cols[k].outputIndex == GroupCount(agg) + k < |agg.rowType|)
      && (forall k, l :: 0 <= k < l < |cols| ==> cols[k].outputIndex < cols[l].outputIndex)
  {
    var g := GroupCount(agg);
    var cols := LowerCalls(agg.aggCalls, g, inputRow, kindMap).value;
    forall k | 0 <= k < |cols| ensures cols[k].outputIndex == g + k {
      assert LowerCall(agg.aggCalls[k], g + k, inputRow, kindMap) == Success(cols[k]);
      LowerCallMeaning(agg.aggCalls[k], g + k, inputRow, kindMap);
    }
  }

  /** The expressions for the fields at `indices` of `rowType`, in order. */
  function FieldExprs(indices: seq<nat>, rowType: RowType): (r: seq<VoltExpr>)
    requires forall k :: 0 <= k < |indices| ==> indices[k] < |rowType|
    ensures |r| == |indices|
  {
    if indices == [] then []
    else [TupleValue(rowType[indices[0]])] + FieldExprs(indices[1..], rowType)
  }

  /** The k-th expression is the field at the k-th index. */
  lemma {:induction false} FieldExprsAt(indices: seq<nat>, rowType: RowType, k: nat)
    requires forall k :: 0 <= k < |indices| ==> indices[k] < |rowType|
    requires k < |indices|
    ensures FieldExprs(indices, rowType)[k] == TupleValue(rowType[indices[k]])
  {
    if k > 0 {
      FieldExprsAt(indices[1..], rowType, k - 1);
    }
  }

  /** The GROUP BY expressions: the aggregate's row fields at the group set's bits, ascending. */
  function GroupByExprs(groupSet: seq<bool>, rowType: RowType): seq<VoltExpr>
    requires AllBelow(groupSet, |rowType|)
  {
    FieldExprs(SetBits(groupSet), rowType)
  }

  /**
   * There is one GROUP BY expression per member of the group set; the k-th is the
   * field at the k-th member in strictly ascending order.
   */
  lemma GroupByOnePerMember(groupSet: seq<bool>, rowType: RowType)
    requires AllBelow(groupSet, |rowType|)
    ensures |GroupByExprs(groupSet, rowType)| == |Members(groupSet)| == GroupCountOf(groupSet)
    ensures forall k :: 0 <= k < |GroupByExprs(groupSet, rowType)| ==>
      && SetBits(groupSet)[k] in Members(groupSet)
      && GroupByExprs(groupSet, rowType)[k] == TupleValue(rowType[SetBits(groupSet)[k]])
    ensures forall k, l :: 0 <= k < l < |GroupByExprs(groupSet, rowType)| ==> SetBits(groupSet)[k] < SetBits(groupSet)[l]
    ensures forall i :: i in Members(groupSet) ==> i in SetBits(groupSet)
  {
    SetBitsEnumerateMembers(groupSet);
    forall k | 0 <= k < |GroupByExprs(groupSet, rowType)|
      ensures GroupByExprs(groupSet, rowType)[k] == TupleValue(rowType[SetBits(groupSet)[k]])
    {
      FieldExprsAt(SetBits(groupSet), rowType, k);
    }
  }

  function GroupCountOf(groupSet: seq<bool>): nat
  {
    Cardinality(groupSet)
  }

  /** The HAVING predicate as the node carries it. */
  function PostPredicateOf(agg: Aggregate): Option<VoltExpr>
  {
    if agg.postPredicate.Some? then Some(FromRex(agg.postPredicate.value)) else None
  }

  /** computeDigest: the inherited digest, followed by the HAVING predicate's text when there is one. */
  function ComputeDigest(baseDigest: string, agg: Aggregate): (r: string)
    ensures |r| >= |baseDigest| && r[..|baseDigest|] == baseDigest
    ensures agg.postPredicate.None? ==> r == baseDigest
    ensures agg.postPredicate.Some? ==> r[|baseDigest|..] == agg.postPredicate.value.text
  {
    if agg.postPredicate.Some? then baseDigest + agg.postPredicate.value.text else baseDigest
  }

  /** setGroupByExpressions: walks the group set's bits upward with nextSetBit. */
  method SetGroupByExpressions(apn: AggregatePlanNode, agg: Aggregate)
    requires AllBelow(agg.groupSet, |agg.rowType|)
    modifies apn`groupByExpressions
    ensures apn.groupByExpressions == old(apn.groupByExpressions) + GroupByExprs(agg.groupSet, agg.rowType)
  {
    var groupBy := agg.groupSet;
    var rowTypeList := agg.rowType;
    ghost var start := apn.groupByExpressions;
    ghost var pos: nat := 0;
    var index := NextSetBit(groupBy, 0);
    while index != -1
      invariant pos <= |groupBy| && index == NextSetBit(groupBy, pos)
      invariant apn.groupByExpressions + FieldExprs(SetBitsFrom(groupBy, pos), rowTypeList)
                == start + GroupByExprs(groupBy, rowTypeList)
      decreases |groupBy| - pos
    {
      SetBitsFromNext(groupBy, pos);
      var groupByExpr := TupleValue(rowTypeList[index]);
      apn.AddGroupByExpression(groupByExpr);
      pos := index + 1;
      index := NextSetBit(groupBy, index + 1);
    }
    SetBitsFromNext(groupBy, pos);
  }

  /** setPostPredicate. */
  method SetPostPredicate(apn: AggregatePlanNode, agg: Aggregate)
    modifies apn`postPredicate
    ensures agg.postPredicate.Some? ==> apn.postPredicate == PostPredicateOf(agg)
    ensures agg.postPredicate.None? ==> apn.postPredicate == old(apn.postPredicate)
  {
    if agg.postPredicate.Some? {
      var havingExpression := FromRex(agg.postPredicate.value);
      apn.SetPostPredicate(havingExpression);
    }
  }

  /**
   * The aggregate-call loop of toPlanNode: appends one entry per call, the i-th at
   * output field `firstIndex + i`, stopping at the first call that does not lower.
   */
  method AddAggregates(apn: AggregatePlanNode, calls: seq<AggregateCall>, firstIndex: nat,
                       inputRowType: RowType, kindMap: KindMap)
    returns (err: Option<PlanningError>)
    requires CallsWellFormed(calls)
    modifies apn`aggregates
    ensures err.None? <==> LowerCalls(calls, firstIndex, inputRowType, kindMap).Success?
    ensures err.Some? ==> err.value == LowerCalls(calls, firstIndex, inputRowType, kindMap).error
    ensures err.None? ==>
      apn.aggregates == old(apn.aggregates) + LowerCalls(calls, firstIndex, inputRowType, kindMap).value
  {
    ghost var start := apn.aggregates;
    var aggrFieldIdx := firstIndex;
    var i := 0;
    while i < |calls|
      invariant 0 <= i <= |calls|
      invariant aggrFieldIdx == firstIndex + i
      invariant CallsWellFormed(calls[..i])
      invariant LowerCalls(calls[..i], firstIndex, inputRowType, kindMap).Success?
      invariant apn.aggregates == start + LowerCalls(calls[..i], firstIndex, inputRowType, kindMap).value
    {
      var call := calls[i];
      var aggrType := kindMap(call.kind);
      if aggrType.None? {
        LowerCallsFirstError(calls, firstIndex, inputRowType, kindMap, i);
        return Some(UnsupportedAggregate(call.kind.lowerName));
      }
      var t := aggrType.value;
      var aggrExpr: Option<VoltExpr> := None;
      if |call.args| != 0 {
        if call.args[0] >= |inputRowType| {
          LowerCallsFirstError(calls, firstIndex, inputRowType, kindMap, i);
          return Some(FieldIndexOutOfBounds(call.args[0]));
        }
        aggrExpr := Some(TupleValue(inputRowType[call.args[0]]));
      } else if t == ExprAggregateCount {
        t := ExprAggregateCountStar;
      }
      LowerCallsStep(calls, firstIndex, inputRowType, kindMap, i,
                     AggregateColumn(t, call.distinct, aggrFieldIdx, aggrExpr));
      apn.AddAggregate(t, call.distinct, aggrFieldIdx, aggrExpr);
      aggrFieldIdx := aggrFieldIdx + 1;
      i := i + 1;
    }
    assert calls[..i] == calls;
    return None;
  }

  /**
   * toPlanNode(inputRowType): a fresh aggregate node with the output schema, one
   * entry per aggregate call, the GROUP BY expressions and the HAVING predicate,
   * or the error for the first call that does not lower.
   */
  method ToPlanNodeForInput(agg: Aggregate, inputRowType: RowType, kindMap: KindMap)
    returns (r: Result<AggregatePlanNode, PlanningError>)
    requires Lowerable(agg)
    ensures r.Success? <==> LowerCalls(agg.aggCalls, GroupCount(agg), inputRowType, kindMap).Success?
    ensures r.Failure? ==> r.error == LowerCalls(agg.aggCalls, GroupCount(agg), inputRowType, kindMap).error
    ensures r.Success? ==> fresh(r.value)
    ensures r.Success? ==>
      && r.value.strategy == agg.strategy
      && r.value.outputSchema == Some(NodeSchema(agg.rowType))
      && r.value.aggregates == LowerCalls(agg.aggCalls, GroupCount(agg), inputRowType, kindMap).value
      && r.value.groupByExpressions == GroupByExprs(agg.groupSet, agg.rowType)
      && r.value.postPredicate == PostPredicateOf(agg)
      && r.value.children == []
  {
    var apn := new AggregatePlanNode(agg.strategy);
    apn.SetOutputSchema(NodeSchema(agg.rowType));
    var err := AddAggregates(apn, agg.aggCalls, GroupCount(agg), inputRowType, kindMap);
    if err.Some? {
      return Failure(err.value);
    }
    SetGroupByExpressions(apn, agg);
    SetPostPredicate(apn, agg);
    return Success(apn);
  }

  /** toPlanNode(): lowers over the input's row type and links the lowered input as the only child. */
  method ToPlanNode(agg: Aggregate, kindMap: KindMap) returns (r: Result<AggregatePlanNode, PlanningError>)
    requires Lowerable(agg)
    ensures r.Success? <==> LowerCalls(agg.aggCalls, GroupCount(agg), RowTypeOf(agg.input), kindMap).Success?
    ensures r.Failure? ==> r.error == LowerCalls(agg.aggCalls, GroupCount(agg), RowTypeOf(agg.input), kindMap).error
    ensures r.Success? ==> fresh(r.value)
    ensures r.Success? ==>
      && r.value.strategy == agg.strategy
      && r.value.outputSchema == Some(NodeSchema(agg.rowType))
      && r.value.aggregates == LowerCalls(agg.aggCalls, GroupCount(agg), RowTypeOf(agg.input), kindMap).value
      && r.value.groupByExpressions == GroupByExprs(agg.groupSet, agg.rowType)
      && r.value.postPredicate == PostPredicateOf(agg)
      && r.value.children == [Lowered(agg.input)]
  {
    r := ToPlanNodeForInput(agg, RowTypeOf(agg.input), kindMap);
    if r.Success? {
      r.value.AddAndLinkChild(Lowered(agg.input));
    }
  }
}
