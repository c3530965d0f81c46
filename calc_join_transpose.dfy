/**
 * VoltLCalcJoinTransposeRule: pushes the projection of a logical calc down through the
 * inner join beneath it. The rule declines unless the join is a plain inner join, the
 * calc has no filter, and the projection leaves some input field unreferenced; otherwise
 * it narrows each join input with a calc of its own and rebuilds the projection on top.
 *
 * Calcite's PushProjector, which decides the narrowing, and RexProgram.split are not
 * part of this model: the rule receives them as the operations in `ProjectorOps`.
 */
module CalcJoinTranspose {
  import opened Wrappers
  import opened Rel

  /** Preconditions.checkState failing in projectToVoltCalc: "RelNode is not a Project". */
  datatype TransposeError = NotAProject

  /** A PushProjector, known by the inputs it was built from. */
  datatype Projector = Projector(origProject: ProjectRel, condition: Option<Rex>, join: JoinRel)

  /** The operations of Calcite the rule relies on. */
  datatype ProjectorOps = ProjectorOps(
    split: Program -> (seq<Rex>, seq<Rex>),                           // RexProgram.split: projects, filters
    locateAllRefs: Projector -> bool,                                  // true: every field is referenced
    createProjectRefsAndExprs: (Projector, RelNode, bool, bool) -> RelNode,
    getAdjustments: Projector -> seq<int>,
    convertRefsAndExprs: (Projector, Rex, RowType, seq<int>) -> Rex,
    createNewProject: (Projector, RelNode, seq<int>) -> RelNode)

  /** The rule's pattern: a logical calc directly over a logical join. */
  predicate Matches(n: RelNode)
  {
    n.CalcNode? && n.calcRel.input.JoinNode?
  }

  /** The calc projectToVoltCalc makes of a project: a program over the project's input, in the VoltDB logical convention. */
  function CalcOfProject(p: ProjectRel, isTopJoin: bool): (c: CalcRel)
    ensures c.input == p.input && c.isTopJoin == isTopJoin
    ensures c.traits.convention == VoltLogical
    ensures c.traits.collation == p.traits.collation && c.traits.otherTraits == p.traits.otherTraits
    ensures RowTypeOf(CalcNode(c)) == RowTypeOf(ProjectNode(p))
  {
    var program := Created(RowTypeOf(p.input), p.projects, None, p.rowType);
    CalcRel(WithConvention(p.traits, VoltLogical), p.input, program, isTopJoin)
  }

  /** projectToVoltCalc: only a project can be converted. */
  function ProjectToVoltCalc(rel: RelNode, isTopJoin: bool): (r: Result<CalcRel, TransposeError>)
    ensures r.Success? <==> rel.ProjectNode?
    ensures r.Success? ==> r.value == CalcOfProject(rel.project, isTopJoin)
    ensures r.Failure? ==> r.error == NotAProject
  {
    if rel.ProjectNode? then Success(CalcOfProject(rel.project, isTopJoin)) else Failure(NotAProject)
  }

  /** The logical join's copy: new traits, condition, inputs, join type and semiJoinDone; the rest is kept. */
  function CopyJoin(j: JoinRel, traits: TraitSet, condition: Option<Rex>, left: RelNode, right: RelNode,
                    joinType: JoinRelType, semiJoinDone: bool): JoinRel
  {
    j.(traits := traits, condition := condition, left := left, right := right,
       joinType := joinType, semiJoinDone := semiJoinDone)
  }

  /** The first three guards: a non-inner join or a semi-join, a filter in the calc, or every field referenced. */
  predicate Declines(origCalc: CalcRel, join: JoinRel, ops: ProjectorOps)
  {
    || join.joinType != Inner || join.isSemiJoin
    || ops.split(origCalc.program).1 != []
    || ops.locateAllRefs(ProjectorFor(origCalc, join, ops))
  }

  /** The project recreated from the calc's projections, and the PushProjector built on it. */
  function ProjectorFor(origCalc: CalcRel, join: JoinRel, ops: ProjectorOps): Projector
  {
    var origProject := ProjectRel(WithConvention(origCalc.traits, NoConvention), origCalc.input,
                                  ops.split(origCalc.program).0, RowTypeOf(CalcNode(origCalc)));
    Projector(origProject, join.condition, join)
  }

  /** The narrowed left and right inputs, as PushProjector builds them. */
  function LeftProjRel(origCalc: CalcRel, join: JoinRel, ops: ProjectorOps): RelNode
  {
    ops.createProjectRefsAndExprs(ProjectorFor(origCalc, join, ops), join.left, true, false)
  }

  function RightProjRel(origCalc: CalcRel, join: JoinRel, ops: ProjectorOps): RelNode
  {
    ops.createProjectRefsAndExprs(ProjectorFor(origCalc, join, ops), join.right, true, true)
  }

  /**
   * The join rebuilt over the two narrowed calcs: the original's traits, join type and
   * semiJoinDone; a condition exactly when the original had one, rewritten against the
   * system fields and the two narrowed row types.
   */
  function NewJoin(origCalc: CalcRel, join: JoinRel, ops: ProjectorOps): (nj: JoinRel)
    requires LeftProjRel(origCalc, join, ops).ProjectNode? && RightProjRel(origCalc, join, ops).ProjectNode?
    ensures nj.traits == join.traits && nj.joinType == join.joinType && nj.semiJoinDone == join.semiJoinDone
    ensures nj.variablesSet == join.variablesSet && nj.systemFieldList == join.systemFieldList
    ensures nj.left == CalcNode(CalcOfProject(LeftProjRel(origCalc, join, ops).project, false))
    ensures nj.right == CalcNode(CalcOfProject(RightProjRel(origCalc, join, ops).project, false))
    ensures nj.condition.None? <==> join.condition.None?
  {
    var pushProject := ProjectorFor(origCalc, join, ops);
    var leftProjRel := LeftProjRel(origCalc, join, ops);
    var rightProjRel := RightProjRel(origCalc, join, ops);
    var adjustments := ops.getAdjustments(pushProject);
    var newJoinFilter :=
      if join.condition.Some? then
        Some(ops.convertRefsAndExprs(pushProject, join.condition.value,
                                     join.systemFieldList + RowTypeOf(leftProjRel) + RowTypeOf(rightProjRel),
                                     adjustments))
      else None;
    CopyJoin(join, join.traits, newJoinFilter,
             CalcNode(CalcOfProject(leftProjRel.project, false)), CalcNode(CalcOfProject(rightProjRel.project, false)),
             join.joinType, join.semiJoinDone)
  }

  /**
   * onMatch: `Success(None)` when the rule declines, `Success(Some(n))` when it proposes `n`,
   * and a failure when a narrowed input is not a project.
   */
  function OnMatch(origCalc: CalcRel, join: JoinRel, ops: ProjectorOps): (r: Result<Option<RelNode>, TransposeError>)
    requires origCalc.input == JoinNode(join)
    ensures r == Success(None) <==> Declines(origCalc, join, ops)
    ensures r.Failure? <==>
      !Declines(origCalc, join, ops) && !(LeftProjRel(origCalc, join, ops).ProjectNode? && RightProjRel(origCalc, join, ops).ProjectNode?)
    ensures r.Failure? ==> r.error == NotAProject
  {
    if join.joinType != Inner || join.isSemiJoin then Success(None)
    else
      var (projects, filters) := ops.split(origCalc.program);
      if filters != [] then Success(None)
      else
        var pushProject := ProjectorFor(origCalc, join, ops);
        if ops.locateAllRefs(pushProject) then Success(None)
        else
          var leftProjRel := ops.createProjectRefsAndExprs(pushProject, join.left, true, false);
          match ProjectToVoltCalc(leftProjRel, false)
          case Failure(e) => Failure(e)
          case Success(leftCalcRel) =>
            var rightProjRel := ops.createProjectRefsAndExprs(pushProject, join.right, true, true);
            match ProjectToVoltCalc(rightProjRel, false)
            case Failure(e) => Failure(e)
            case Success(rightCalcRel) =>
              var adjustments := ops.getAdjustments(pushProject);
              var newJoinRel := NewJoin(origCalc, join, ops);
              var resultRel := ops.createNewProject(pushProject, JoinNode(newJoinRel), adjustments);
              if resultRel.ProjectNode? then Success(Some(CalcNode(CalcOfProject(resultRel.project, true))))
              else Success(Some(resultRel))
  }

  /**
   * When the rule fires, both narrowed inputs were projects, and the proposal is what
   * PushProjector puts over the rebuilt join: a top project is proposed as the calc
   * projectToVoltCalc builds from it, a logical calc marked as sitting on a join, with the
   * project's input and row type; anything else (the join itself, when nothing is left to
   * project) is proposed unwrapped.
   */
  lemma OnMatchResultShape(origCalc: CalcRel, join: JoinRel, ops: ProjectorOps)
    requires origCalc.input == JoinNode(join)
    requires OnMatch(origCalc, join, ops).Success? && OnMatch(origCalc, join, ops).value.Some?
    ensures LeftProjRel(origCalc, join, ops).ProjectNode? && RightProjRel(origCalc, join, ops).ProjectNode?
    ensures var top := ops.createNewProject(ProjectorFor(origCalc, join, ops), JoinNode(NewJoin(origCalc, join, ops)),
                                            ops.getAdjustments(ProjectorFor(origCalc, join, ops)));
      var res := OnMatch(origCalc, join, ops).value.value;
      && (top.ProjectNode? ==> res == CalcNode(CalcOfProject(top.project, true)))
      && (!top.ProjectNode? ==> res == top)
      && (top.ProjectNode? ==>
            && res.CalcNode? && res.calcRel.isTopJoin && res.calcRel.traits.convention == VoltLogical
            && res.calcRel.input == top.project.input && RowTypeOf(res) == RowTypeOf(top))
  {
  }
}
