/**
 * VoltPhysicalNestLoopJoin: its two copy operations and its lowering to a NestLoopPlanNode.
 */
module NestLoopJoins {
  import opened Wrappers
  import opened VoltTypes
  import opened Rel
  import opened PlanNodes

  /** The public constructor: no inline LIMIT or OFFSET. */
  function NewNestLoopJoin(traits: TraitSet, left: RelNode, right: RelNode, condition: Rex,
                           variablesSet: set<nat>, joinType: JoinRelType, semiJoinDone: bool,
                           systemFieldList: seq<Field>, splitCount: int): (r: NestLoopJoin)
    ensures r.traits == traits && r.left == left && r.right == right && r.condition == condition
    ensures r.variablesSet == variablesSet && r.joinType == joinType && r.semiJoinDone == semiJoinDone
    ensures r.systemFieldList == systemFieldList && r.splitCount == splitCount
    ensures r.offset.None? && r.limit.None?
  {
    NestLoopJoin(traits, left, right, condition, variablesSet, joinType, semiJoinDone,
                 systemFieldList, splitCount, None, None)
  }

  /**
   * copy: a join with the given traits, condition, inputs, join type and semiJoinDone; the
   * correlation variables, system fields and split count are kept. It goes through the
   * public constructor, so the copy has no LIMIT or OFFSET.
   */
  function Copy(j: NestLoopJoin, traits: TraitSet, condition: Rex, left: RelNode, right: RelNode,
                joinType: JoinRelType, semiJoinDone: bool): (r: NestLoopJoin)
    ensures r.traits == traits && r.condition == condition && r.left == left && r.right == right
    ensures r.joinType == joinType && r.semiJoinDone == semiJoinDone
    ensures r.variablesSet == j.variablesSet && r.systemFieldList == j.systemFieldList
    ensures r.splitCount == j.splitCount
    ensures r.offset.None? && r.limit.None?
  {
    NewNestLoopJoin(traits, left, right, condition, j.variablesSet, joinType, semiJoinDone,
                    j.systemFieldList, j.splitCount)
  }

  /** copyWithLimitOffset: new traits, OFFSET and LIMIT; everything else is kept. */
  function CopyWithLimitOffset(j: NestLoopJoin, traits: TraitSet, offset: Option<Rex>, limit: Option<Rex>)
    : (r: NestLoopJoin)
    ensures r.traits == traits && r.offset == offset && r.limit == limit
    ensures r.left == j.left && r.right == j.right && r.condition == j.condition
    ensures r.variablesSet == j.variablesSet && r.joinType == j.joinType
    ensures r.semiJoinDone == j.semiJoinDone && r.systemFieldList == j.systemFieldList
    ensures r.splitCount == j.splitCount
  {
    NestLoopJoin(traits, j.left, j.right, j.condition, j.variablesSet, j.joinType, j.semiJoinDone,
                 j.systemFieldList, j.splitCount, offset, limit)
  }

  /**
   * Copying a join onto its own fields gives the join back exactly when it has no
   * inline LIMIT or OFFSET; so copying a join whose LIMIT/OFFSET were set drops them.
   */
  lemma CopyIsIdentityIffNoLimitOffset(j: NestLoopJoin)
    ensures Copy(j, j.traits, j.condition, j.left, j.right, j.joinType, j.semiJoinDone) == j
        <==> j.offset.None? && j.limit.None?
  {
  }

  /** copy forgets what copyWithLimitOffset set. */
  lemma CopyForgetsLimitOffset(j: NestLoopJoin, t: TraitSet, offset: Option<Rex>, limit: Option<Rex>,
                               traits: TraitSet, condition: Rex, left: RelNode, right: RelNode,
                               joinType: JoinRelType, semiJoinDone: bool)
    ensures Copy(CopyWithLimitOffset(j, t, offset, limit), traits, condition, left, right, joinType, semiJoinDone)
         == Copy(j, traits, condition, left, right, joinType, semiJoinDone)
  {
  }

  /**
   * Setting LIMIT/OFFSET does not change the join's row type; the last setting wins, and
   * setting the original values back restores the join.
   */
  lemma CopyWithLimitOffsetLastWins(j: NestLoopJoin, t1: TraitSet, o1: Option<Rex>, l1: Option<Rex>,
                                    t2: TraitSet, o2: Option<Rex>, l2: Option<Rex>)
    ensures RowTypeOf(NestLoopJoinNode(CopyWithLimitOffset(j, t1, o1, l1))) == RowTypeOf(NestLoopJoinNode(j))
    ensures CopyWithLimitOffset(CopyWithLimitOffset(j, t1, o1, l1), t2, o2, l2) == CopyWithLimitOffset(j, t2, o2, l2)
    ensures CopyWithLimitOffset(CopyWithLimitOffset(j, t1, o1, l1), j.traits, j.offset, j.limit) == j
  {
  }

  /**
   * toPlanNode (INNER joins only): a fresh nested-loop plan node of join type INNER with the
   * lowered left and right inputs as its children in that order, the condition converted
   * against the left input's field count, the join's LIMIT/OFFSET inlined, and the join's
   * row type as output schema. Without system fields, the predicate's left field count is
   * where the right input's fields start in that schema.
   */
  method ToPlanNode(j: NestLoopJoin) returns (nlpn: NestLoopPlanNode)
    requires j.joinType == Inner
    ensures fresh(nlpn)
    ensures nlpn.joinType == Some(JoinInner)
    ensures nlpn.children == [Lowered(j.left), Lowered(j.right)]
    ensures nlpn.joinPredicate == Some(JoinPredicate(|RowTypeOf(j.left)|, j.condition))
    ensures nlpn.inlineOffset == j.offset && nlpn.inlineLimit == j.limit
    ensures nlpn.outputSchema == Some(NodeSchema(RowTypeOf(NestLoopJoinNode(j))))
    ensures j.systemFieldList == [] ==>
      var row, n := RowTypeOf(NestLoopJoinNode(j)), nlpn.joinPredicate.value.numLhsFields;
      n <= |row| && row[..n] == RowTypeOf(j.left) && row[n..] == RowTypeOf(j.right)
  {
    nlpn := new NestLoopPlanNode();
    nlpn.SetJoinType(JoinInner);
    var lch := Lowered(j.left);
    var rch := Lowered(j.right);
    nlpn.AddAndLinkChild(lch);
    nlpn.AddAndLinkChild(rch);
    var numLhsFields := |RowTypeOf(j.left)|;
    nlpn.SetJoinPredicate(JoinPredicate(numLhsFields, j.condition));
    nlpn.AddLimitOffset(j.offset, j.limit);
    nlpn.SetOutputSchema(NodeSchema(RowTypeOf(NestLoopJoinNode(j))));
  }
}
