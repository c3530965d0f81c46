/**
 * Fixed encodings and stream-type predicates shared by the execution engine
 * (src/ee/common/types.h): the ValueType, JoinType and ExpressionType code tables,
 * and TableStreamType with its inline predicates.
 */
module VoltTypes {
  import opened Wrappers

  /** Column and value types; the codes must equal the Java ordinals. */
  datatype ValueType =
    | ValueInvalid
    | ValueNull
    | ValueForDiagnosticsOnlyNumeric
    | ValueTinyInt
    | ValueSmallInt
    | ValueInteger
    | ValueBigInt
    | ValueDouble
    | ValueVarchar
    | ValueTimestamp
    | ValueDecimal
    | ValueBoolean
    | ValueAddress
    | ValueVarbinary
    | ValueArray

  /** The numeric value of each ValueType constant (types.h lines 67-87). */
  function ValueTypeCode(t: ValueType): int
  {
    match t
    case ValueInvalid => 0
    case ValueNull => 1
    case ValueForDiagnosticsOnlyNumeric => 2
    case ValueTinyInt => 3
    case ValueSmallInt => 4
    case ValueInteger => 5
    case ValueBigInt => 6
    case ValueDouble => 8
    case ValueVarchar => 9
    case ValueTimestamp => 11
    case ValueDecimal => 22
    case ValueBoolean => 23
    case ValueAddress => 24
    case ValueVarbinary => 25
    case ValueArray => -99
  }

  /** Decoding a numeric value back to its ValueType constant, when there is one. */
  function ValueTypeFromCode(code: int): (r: Option<ValueType>)
    ensures r.Some? ==> ValueTypeCode(r.value) == code
  {
    match code
    case 0 => Some(ValueInvalid)
    case 1 => Some(ValueNull)
    case 2 => Some(ValueForDiagnosticsOnlyNumeric)
    case 3 => Some(ValueTinyInt)
    case 4 => Some(ValueSmallInt)
    case 5 => Some(ValueInteger)
    case 6 => Some(ValueBigInt)
    case 8 => Some(ValueDouble)
    case 9 => Some(ValueVarchar)
    case 11 => Some(ValueTimestamp)
    case 22 => Some(ValueDecimal)
    case 23 => Some(ValueBoolean)
    case 24 => Some(ValueAddress)
    case 25 => Some(ValueVarbinary)
    case -99 => Some(ValueArray)
    case _ => None
  }

  /** Every ValueType constant has its own code: decoding its code gives it back. */
  lemma ValueTypeCodeRoundTrip(t: ValueType)
    ensures ValueTypeFromCode(ValueTypeCode(t)) == Some(t)
  {
    match t
    case ValueInvalid =>
    case ValueNull =>
    case ValueForDiagnosticsOnlyNumeric =>
    case ValueTinyInt =>
    case ValueSmallInt =>
    case ValueInteger =>
    case ValueBigInt =>
    case ValueDouble =>
    case ValueVarchar =>
    case ValueTimestamp =>
    case ValueDecimal =>
    case ValueBoolean =>
    case ValueAddress =>
    case ValueVarbinary =>
    case ValueArray =>
  }

  /** Distinct constants have distinct codes. */
  lemma ValueTypeCodeInjective(t: ValueType, u: ValueType)
    ensures ValueTypeCode(t) == ValueTypeCode(u) ==> t == u
  {
    ValueTypeCodeRoundTrip(t);
    ValueTypeCodeRoundTrip(u);
  }
  /** Join kinds of the executable plan. */
  datatype JoinType =
    | JoinInvalid
    | JoinInner
    | JoinLeft
    | JoinFull
    | JoinRight

  /** The numeric value of each JoinType constant (types.h lines 126-132). */
  function JoinTypeCode(t: JoinType): int
  {
    match t
    case JoinInvalid => 0
    case JoinInner => 1
    case JoinLeft => 2
    case JoinFull => 3
    case JoinRight => 4
  }

  /** Decoding a numeric value back to its JoinType constant, when there is one. */
  function JoinTypeFromCode(code: int): (r: Option<JoinType>)
    ensures r.Some? ==> JoinTypeCode(r.value) == code
  {
    match code
    case 0 => Some(JoinInvalid)
    case 1 => Some(JoinInner)
    case 2 => Some(JoinLeft)
    case 3 => Some(JoinFull)
    case 4 => Some(JoinRight)
    case _ => None
  }

  /** Every JoinType constant has its own code: decoding its code gives it back. */
  lemma JoinTypeCodeRoundTrip(t: JoinType)
    ensures JoinTypeFromCode(JoinTypeCode(t)) == Some(t)
  {
    match t
    case JoinInvalid =>
    case JoinInner =>
    case JoinLeft =>
    case JoinFull =>
    case JoinRight =>
  }

  /** Distinct constants have distinct codes. */
  lemma JoinTypeCodeInjective(t: JoinType, u: JoinType)
    ensures JoinTypeCode(t) == JoinTypeCode(u) ==> t == u
  {
    JoinTypeCodeRoundTrip(t);
    JoinTypeCodeRoundTrip(u);
  }
  /** Expression operation types. */
  datatype ExpressionType =
    | ExprInvalid
    | ExprOperatorPlus
    | ExprOperatorMinus
    | ExprOperatorMultiply
    | ExprOperatorDivide
    | ExprOperatorConcat
    | ExprOperatorMod
    | ExprOperatorCast
    | ExprOperatorNot
    | ExprOperatorIsNull
    | ExprCompareEqual
    | ExprCompareNotEqual
    | ExprCompareLessThan
    | ExprCompareGreaterThan
    | ExprCompareLessThanOrEqualTo
    | ExprCompareGreaterThanOrEqualTo
    | ExprCompareLike
    | ExprCompareIn
    | ExprConjunctionAnd
    | ExprConjunctionOr
    | ExprValueConstant
    | ExprValueParameter
    | ExprValueTuple
    | ExprValueTupleAddress
    | ExprValueNull
    | ExprValueVector
    | ExprAggregateCount
    | ExprAggregateCountStar
    | ExprAggregateSum
    | ExprAggregateMin
    | ExprAggregateMax
    | ExprAggregateAvg
    | ExprFunction
    | ExprHashRange
    | ExprOperatorCaseWhen
    | ExprOperatorAlternative

  /** The numeric value of each ExpressionType constant (types.h lines 247-321). */
  function ExpressionTypeCode(t: ExpressionType): int
  {
    match t
    case ExprInvalid => 0
    case ExprOperatorPlus => 1
    case ExprOperatorMinus => 2
    case ExprOperatorMultiply => 3
    case ExprOperatorDivide => 4
    case ExprOperatorConcat => 5
    case ExprOperatorMod => 6
    case ExprOperatorCast => 7
    case ExprOperatorNot => 8
    case ExprOperatorIsNull => 9
    case ExprCompareEqual => 10
    case ExprCompareNotEqual => 11
    case ExprCompareLessThan => 12
    case ExprCompareGreaterThan => 13
    case ExprCompareLessThanOrEqualTo => 14
    case ExprCompareGreaterThanOrEqualTo => 15
    case ExprCompareLike => 16
    case ExprCompareIn => 17
    case ExprConjunctionAnd => 20
    case ExprConjunctionOr => 21
    case ExprValueConstant => 30
    case ExprValueParameter => 31
    case ExprValueTuple => 32
    case ExprValueTupleAddress => 33
    case ExprValueNull => 34
    case ExprValueVector => 35
    case ExprAggregateCount => 40
    case ExprAggregateCountStar => 41
    case ExprAggregateSum => 42
    case ExprAggregateMin => 43
    case ExprAggregateMax => 44
    case ExprAggregateAvg => 45
    case ExprFunction => 100
    case ExprHashRange => 200
    case ExprOperatorCaseWhen => 300
    case ExprOperatorAlternative => 301
  }

  /** Decoding a numeric value back to its ExpressionType constant, when there is one. */
  function ExpressionTypeFromCode(code: int): (r: Option<ExpressionType>)
    ensures r.Some? ==> ExpressionTypeCode(r.value) == code
  {
    match code
    case 0 => Some(ExprInvalid)
    case 1 => Some(ExprOperatorPlus)
    case 2 => Some(ExprOperatorMinus)
    case 3 => Some(ExprOperatorMultiply)
    case 4 => Some(ExprOperatorDivide)
    case 5 => Some(ExprOperatorConcat)
    case 6 => Some(ExprOperatorMod)
    case 7 => Some(ExprOperatorCast)
    case 8 => Some(ExprOperatorNot)
    case 9 => Some(ExprOperatorIsNull)
    case 10 => Some(ExprCompareEqual)
    case 11 => Some(ExprCompareNotEqual)
    case 12 => Some(ExprCompareLessThan)
    case 13 => Some(ExprCompareGreaterThan)
    case 14 => Some(ExprCompareLessThanOrEqualTo)
    case 15 => Some(ExprCompareGreaterThanOrEqualTo)
    case 16 => Some(ExprCompareLike)
    case 17 => Some(ExprCompareIn)
    case 20 => Some(ExprConjunctionAnd)
    case 21 => Some(ExprConjunctionOr)
    case 30 => Some(ExprValueConstant)
    case 31 => Some(ExprValueParameter)
    case 32 => Some(ExprValueTuple)
    case 33 => Some(ExprValueTupleAddress)
    case 34 => Some(ExprValueNull)
    case 35 => Some(ExprValueVector)
    case 40 => Some(ExprAggregateCount)
    case 41 => Some(ExprAggregateCountStar)
    case 42 => Some(ExprAggregateSum)
    case 43 => Some(ExprAggregateMin)
    case 44 => Some(ExprAggregateMax)
    case 45 => Some(ExprAggregateAvg)
    case 100 => Some(ExprFunction)
    case 200 => Some(ExprHashRange)
    case 300 => Some(ExprOperatorCaseWhen)
    case 301 => Some(ExprOperatorAlternative)
    case _ => None
  }

  /** Every ExpressionType constant has its own code: decoding its code gives it back. */
  lemma ExpressionTypeCodeRoundTrip(t: ExpressionType)
    ensures ExpressionTypeFromCode(ExpressionTypeCode(t)) == Some(t)
  {
    match t
    case ExprInvalid =>
    case ExprOperatorPlus =>
    case ExprOperatorMinus =>
    case ExprOperatorMultiply =>
    case ExprOperatorDivide =>
    case ExprOperatorConcat =>
    case ExprOperatorMod =>
    case ExprOperatorCast =>
    case ExprOperatorNot =>
    case ExprOperatorIsNull =>
    case ExprCompareEqual =>
    case ExprCompareNotEqual =>
    case ExprCompareLessThan =>
    case ExprCompareGreaterThan =>
    case ExprCompareLessThanOrEqualTo =>
    case ExprCompareGreaterThanOrEqualTo =>
    case ExprCompareLike =>
    case ExprCompareIn =>
    case ExprConjunctionAnd =>
    case ExprConjunctionOr =>
    case ExprValueConstant =>
    case ExprValueParameter =>
    case ExprValueTuple =>
    case ExprValueTupleAddress =>
    case ExprValueNull =>
    case ExprValueVector =>
    case ExprAggregateCount =>
    case ExprAggregateCountStar =>
    case ExprAggregateSum =>
    case ExprAggregateMin =>
    case ExprAggregateMax =>
    case ExprAggregateAvg =>
    case ExprFunction =>
    case ExprHashRange =>
    case ExprOperatorCaseWhen =>
    case ExprOperatorAlternative =>
  }

  /** Distinct constants have distinct codes. */
  lemma ExpressionTypeCodeInjective(t: ExpressionType, u: ExpressionType)
    ensures ExpressionTypeCode(t) == ExpressionTypeCode(u) ==> t == u
  {
    ExpressionTypeCodeRoundTrip(t);
    ExpressionTypeCodeRoundTrip(u);
  }
  /** The aggregate codes COUNT=40 .. AVG=45 are six distinct values, COUNT_STAR right after COUNT. */
  lemma AggregateCodesDistinct()
    ensures ExpressionTypeCode(ExprAggregateCountStar) == ExpressionTypeCode(ExprAggregateCount) + 1
    ensures forall t, u :: t in AggregateTypes() && u in AggregateTypes() && t != u ==>
      ExpressionTypeCode(t) != ExpressionTypeCode(u)
  {
    forall t, u | t in AggregateTypes() && u in AggregateTypes() && t != u
      ensures ExpressionTypeCode(t) != ExpressionTypeCode(u)
    {
      ExpressionTypeCodeInjective(t, u);
    }
  }

  /** The aggregate expression types. */
  function AggregateTypes(): set<ExpressionType>
  {
    {ExprAggregateCount, ExprAggregateCountStar, ExprAggregateSum, ExprAggregateMin, ExprAggregateMax, ExprAggregateAvg}
  }

  // ------------------------------------------------------------------
  // Table stream types
  // ------------------------------------------------------------------

  /** Table stream types; the enum's values are implicit except NONE. */
  datatype TableStreamType =
    | StreamSnapshot
    | StreamElasticIndex
    | StreamElasticIndexRead
    | StreamElasticIndexClear
    | StreamRecovery
    | StreamNone

  /** The implicit C++ enumerator values: declaration order from 0, and NONE pinned to -1. */
  function TableStreamTypeCode(t: TableStreamType): int
  {
    match t
    case StreamSnapshot => 0
    case StreamElasticIndex => 1
    case StreamElasticIndexRead => 2
    case StreamElasticIndexClear => 3
    case StreamRecovery => 4
    case StreamNone => -1
  }

  function TableStreamTypeFromCode(code: int): (r: Option<TableStreamType>)
    ensures r.Some? ==> TableStreamTypeCode(r.value) == code
    ensures r.None? <==> !(-1 <= code <= 4)
  {
    match code
    case 0 => Some(StreamSnapshot)
    case 1 => Some(StreamElasticIndex)
    case 2 => Some(StreamElasticIndexRead)
    case 3 => Some(StreamElasticIndexClear)
    case 4 => Some(StreamRecovery)
    case -1 => Some(StreamNone)
    case _ => None
  }

  lemma TableStreamTypeCodeRoundTrip(t: TableStreamType)
    ensures TableStreamTypeFromCode(TableStreamTypeCode(t)) == Some(t)
  {
    match t
    case StreamSnapshot =>
    case StreamElasticIndex =>
    case StreamElasticIndexRead =>
    case StreamElasticIndexClear =>
    case StreamRecovery =>
    case StreamNone =>
  }

  /** tableStreamTypeHasPredicates: the stream types declared before ELASTIC_INDEX_CLEAR. */
  predicate HasPredicates(t: TableStreamType): (r: bool)
    ensures r <==> 0 <= TableStreamTypeCode(t) < TableStreamTypeCode(StreamElasticIndexClear)
  {
    t == StreamSnapshot || t == StreamElasticIndex || t == StreamElasticIndexRead
  }

  /** tableStreamTypeIsSnapshot. */
  predicate IsSnapshot(t: TableStreamType): (r: bool)
    ensures r <==> TableStreamTypeCode(t) == 0
    ensures r ==> HasPredicates(t)
  {
    t == StreamSnapshot
  }

  /** tableStreamTypeIsRecovery. */
  predicate IsRecovery(t: TableStreamType): (r: bool)
    ensures r <==> TableStreamTypeCode(t) == 4
    ensures r ==> !HasPredicates(t)
  {
    t == StreamRecovery
  }

  /** tableStreamTypeIsValid: every stream type except NONE. */
  predicate IsValid(t: TableStreamType): (r: bool)
    ensures r <==> TableStreamTypeCode(t) >= 0
  {
    t != StreamNone
  }

  /** tableStreamTypeAppliesToPreTruncateTable. */
  predicate AppliesToPreTruncateTable(t: TableStreamType): (r: bool)
    ensures r <==> TableStreamTypeCode(t) == 1
    ensures r ==> HasPredicates(t) && IsValid(t) && !IsSnapshot(t)
  {
    t == StreamElasticIndex
  }

  /** A stream type with predicates is always a valid one; NONE has none. */
  lemma PredicatesImplyValid(t: TableStreamType)
    ensures HasPredicates(t) ==> IsValid(t)
    ensures !IsValid(t) ==> !HasPredicates(t) && !IsSnapshot(t) && !IsRecovery(t) && !AppliesToPreTruncateTable(t)
  {
  }
}
