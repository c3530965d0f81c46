/**
 * The relational operators the planner rules and the plan lowering work on.
 *
 * Calcite's operators are immutable records; here each is a datatype and
 * `RelNode` is the closed sum of the operators the rules see. Row types,
 * scalar expressions (RexNode) and programs (RexProgram) are Calcite values
 * whose internals are not part of this model: a field is known by its name
 * and type name, an expression by its printed form, and a program by how it
 * was built.
 */
module Rel {
  import opened Wrappers

  /** A field of a row type (RelDataTypeField). */
  datatype Field = Field(name: string, typeName: string)

  type RowType = seq<Field>

  /** A scalar expression (RexNode), known by its printed form. */
  datatype Rex = Rex(text: string)

  /** A RexProgram, recorded by how it was made. */
  datatype Program =
    | Identity(rowType: RowType)                      // RexProgram.createIdentity
    | Merged(top: Program, bottom: Program)           // RexProgramBuilder.mergePrograms
    | Created(inputRowType: RowType, projects: seq<Rex>,
              condition: Option<Rex>, outputRowType: RowType) // RexProgram.create

  /** The row type a program produces; a merged program produces what its top program produces. */
  function ProgramOutput(p: Program): RowType
  {
    match p
    case Identity(rt) => rt
    case Merged(top, _) => ProgramOutput(top)
    case Created(_, _, _, out) => out
  }

  /** Calling conventions of the two planner generations. */
  datatype Convention = NoConvention | VoltDBLogical | VoltDBPhysical | VoltLogical | VoltPhysical

  datatype Direction = Ascending | Descending

  /** RelFieldCollation; `new RelFieldCollation(index)` is ascending. */
  datatype FieldCollation = FieldCollation(fieldIndex: nat, direction: Direction)

  type Collation = seq<FieldCollation>

  /** The trait set: convention, collation, and the remaining traits, which no code here changes. */
  datatype TraitSet = TraitSet(convention: Convention, collation: Collation, otherTraits: string)

  /** RelTraitSet.replace(convention). */
  function WithConvention(t: TraitSet, c: Convention): TraitSet
  {
    t.(convention := c)
  }

  /** RelTraitSet.plus(collation): the collation trait is overridden. */
  function PlusCollation(t: TraitSet, c: Collation): TraitSet
  {
    t.(collation := c)
  }

  /** The kind of an aggregate function (SqlKind), known by its lower-case name. */
  datatype SqlKind = SqlKind(lowerName: string)

  /** AggregateCall: the function kind, argument field indices into the input row, DISTINCT. */
  datatype AggregateCall = AggregateCall(kind: SqlKind, args: seq<nat>, distinct: bool, name: Option<string>)

  datatype AggStrategy = LogicalAggregate | HashAggregate | SerialAggregate

  datatype JoinRelType = Inner | LeftOuter | RightOuter | FullOuter

  /** A table in the catalog and the planner's view of it. */
  datatype TableRef = TableRef(qualifiedName: seq<string>)
  datatype VoltTable = VoltTable(name: string, rowType: RowType)

  /**
   * An aggregate: VoltDBLAggregate (logical) or one of the two physical
   * AbstractVoltDBPAggregate subclasses. The HAVING predicate exists only on the physical ones.
   */
  datatype Aggregate = Aggregate(
    strategy: AggStrategy,
    traits: TraitSet,
    input: RelNode,
    indicator: bool,
    groupSet: seq<bool>,
    groupSets: seq<seq<bool>>,
    aggCalls: seq<AggregateCall>,
    postPredicate: Option<Rex>,
    rowType: RowType)

  /** VoltSeqTableScan: a sequential scan, possibly carrying an inlined aggregate. */
  datatype SeqTableScan = SeqTableScan(
    traits: TraitSet,
    table: TableRef,
    voltTable: VoltTable,
    program: Program,
    offset: Option<Rex>,
    limit: Option<Rex>,
    aggregate: Option<RelNode>,
    preAggregateRowType: Option<RowType>,
    preAggregateProgram: Option<Program>,
    splitCount: int)

  /** A calciteadapter physical table scan (AbstractVoltDBPTableScan); its body is not part of this model. */
  datatype DbpTableScan = DbpTableScan(traits: TraitSet, table: TableRef, rowType: RowType)

  /** A logical join (VoltLogicalJoin); `isSemiJoin` records whether the object is a Calcite SemiJoin. */
  datatype JoinRel = JoinRel(
    traits: TraitSet,
    left: RelNode,
    right: RelNode,
    condition: Option<Rex>,
    variablesSet: set<nat>,
    joinType: JoinRelType,
    semiJoinDone: bool,
    systemFieldList: seq<Field>,
    isSemiJoin: bool)

  /** VoltPhysicalNestLoopJoin. */
  datatype NestLoopJoin = NestLoopJoin(
    traits: TraitSet,
    left: RelNode,
    right: RelNode,
    condition: Rex,
    variablesSet: set<nat>,
    joinType: JoinRelType,
    semiJoinDone: bool,
    systemFieldList: seq<Field>,
    splitCount: int,
    offset: Option<Rex>,
    limit: Option<Rex>)

  /** VoltLogicalCalc: a program over one input; `isTopJoin` marks a calc placed over a join. */
  datatype CalcRel = CalcRel(traits: TraitSet, input: RelNode, program: Program, isTopJoin: bool)

  /** LogicalProject. */
  datatype ProjectRel = ProjectRel(traits: TraitSet, input: RelNode, projects: seq<Rex>, rowType: RowType)

  /** The operators the rules and the lowering see. */
  datatype RelNode =
    | AggregateNode(agg: Aggregate)
    | SeqScanNode(scan: SeqTableScan)
    | DbpScanNode(dbpScan: DbpTableScan)
    | JoinNode(join: JoinRel)
    | NestLoopJoinNode(nestLoop: NestLoopJoin)
    | CalcNode(calcRel: CalcRel)
    | ProjectNode(project: ProjectRel)
      /** What the host's convert(rel, traits) hands back: `source`, to be produced under `requested`. */
    | Converted(source: RelNode, requested: TraitSet)
      /** Any other operator: only its traits and row type matter here. */
    | OtherNode(name: string, otherTraits: TraitSet, otherRowType: RowType)

  /** The row type a scan exposes: the output of its program. */
  function ScanRowType(s: SeqTableScan): RowType
  {
    ProgramOutput(s.program)
  }

  /** getRowType(). A join exposes its system fields, then its left fields, then its right fields. */
  function RowTypeOf(n: RelNode): RowType
  {
    match n
    case AggregateNode(a) => a.rowType
    case SeqScanNode(s) => ScanRowType(s)
    case DbpScanNode(d) => d.rowType
    case JoinNode(j) => j.systemFieldList + RowTypeOf(j.left) + RowTypeOf(j.right)
    case NestLoopJoinNode(j) => j.systemFieldList + RowTypeOf(j.left) + RowTypeOf(j.right)
    case CalcNode(c) => ProgramOutput(c.program)
    case ProjectNode(p) => p.rowType
    case Converted(source, _) => RowTypeOf(source)
    case OtherNode(_, _, rt) => rt
  }

  /** getTraitSet(). */
  function TraitsOf(n: RelNode): TraitSet
  {
    match n
    case AggregateNode(a) => a.traits
    case SeqScanNode(s) => s.traits
    case DbpScanNode(d) => d.traits
    case JoinNode(j) => j.traits
    case NestLoopJoinNode(j) => j.traits
    case CalcNode(c) => c.traits
    case ProjectNode(p) => p.traits
    case Converted(_, t) => t
    case OtherNode(_, t, _) => t
  }
}
