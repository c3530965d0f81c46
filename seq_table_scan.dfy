/**
 * VoltSeqTableScan: a sequential physical table scan. Its "copy with" operations rebuild
 * the immutable scan record with chosen fields replaced; the row type the scan exposes
 * is the output row type of its program.
 */
module SeqTableScans {
  import opened Wrappers
  import opened Rel

  /** Preconditions.checkArgument failing in the constructor (IllegalArgumentException). */
  datatype ScanError = IllegalArgument

  /**
   * The table-only constructor: an identity program over the table's row type, no LIMIT,
   * OFFSET or inlined aggregate; rejected unless the traits are in the VoltDB physical convention.
   */
  function NewSeqTableScan(traits: TraitSet, table: TableRef, voltTable: VoltTable, splitCount: int)
    : (r: Result<SeqTableScan, ScanError>)
    ensures r.Success? <==> traits.convention == VoltPhysical
    ensures r.Failure? ==> r.error == IllegalArgument
    ensures r.Success? ==>
      && ScanRowType(r.value) == voltTable.rowType
      && r.value.traits == traits && r.value.table == table && r.value.voltTable == voltTable
      && r.value.splitCount == splitCount
      && r.value.offset.None? && r.value.limit.None? && r.value.aggregate.None?
      && r.value.preAggregateRowType.None? && r.value.preAggregateProgram.None?
  {
    var scan := SeqTableScan(traits, table, voltTable, Identity(voltTable.rowType),
                             None, None, None, None, None, splitCount);
    if scan.traits.convention == VoltPhysical then Success(scan) else Failure(IllegalArgument)
  }

  /** copyWithLimitOffset: new traits, OFFSET and LIMIT; everything else is kept. */
  function CopyWithLimitOffset(s: SeqTableScan, traits: TraitSet, offset: Option<Rex>, limit: Option<Rex>)
    : (r: SeqTableScan)
    ensures r.traits == traits && r.offset == offset && r.limit == limit
    ensures r.table == s.table && r.voltTable == s.voltTable && r.program == s.program
    ensures r.aggregate == s.aggregate && r.preAggregateRowType == s.preAggregateRowType
    ensures r.preAggregateProgram == s.preAggregateProgram && r.splitCount == s.splitCount
  {
    SeqTableScan(traits, s.table, s.voltTable, s.program, offset, limit, s.aggregate,
                 s.preAggregateRowType, s.preAggregateProgram, s.splitCount)
  }

  /** copyWithProgram: the new program is merged on top of the current one; everything else but the traits is kept. */
  function CopyWithProgram(s: SeqTableScan, traits: TraitSet, newProgram: Program): (r: SeqTableScan)
    ensures r.traits == traits && r.program == Merged(newProgram, s.program)
    ensures ScanRowType(r) == ProgramOutput(newProgram)
    ensures r.table == s.table && r.voltTable == s.voltTable && r.offset == s.offset && r.limit == s.limit
    ensures r.aggregate == s.aggregate && r.preAggregateRowType == s.preAggregateRowType
    ensures r.preAggregateProgram == s.preAggregateProgram && r.splitCount == s.splitCount
  {
    var mergedProgram := Merged(newProgram, s.program);
    SeqTableScan(traits, s.table, s.voltTable, mergedProgram, s.offset, s.limit, s.aggregate,
                 s.preAggregateRowType, s.preAggregateProgram, s.splitCount)
  }

  /**
   * copyWithAggregate: the scan now carries `aggregate` inlined and exposes the aggregate's
   * row type through an identity program; its former row type and program are kept as the
   * pre-aggregate ones.
   */
  function CopyWithAggregate(s: SeqTableScan, traits: TraitSet, aggregate: RelNode): (r: SeqTableScan)
    ensures ScanRowType(r) == RowTypeOf(aggregate)
    ensures r.preAggregateRowType == Some(ScanRowType(s)) && r.preAggregateProgram == Some(s.program)
    ensures r.aggregate == Some(aggregate) && r.traits == traits
    ensures r.table == s.table && r.voltTable == s.voltTable && r.offset == s.offset && r.limit == s.limit
    ensures r.splitCount == s.splitCount
  {
    var aggProgram := Identity(RowTypeOf(aggregate));
    var preAggRowType := ScanRowType(s);
    var preAggProgram := s.program;
    SeqTableScan(traits, s.table, s.voltTable, aggProgram, s.offset, s.limit, Some(aggregate),
                 Some(preAggRowType), Some(preAggProgram), s.splitCount)
  }

  /** The pre-aggregate fields are both present or both absent, and the row type is what the program produces. */
  predicate PreAggregateConsistent(s: SeqTableScan)
  {
    && s.preAggregateRowType.Some? == s.preAggregateProgram.Some?
    && s.aggregate.Some? == s.preAggregateProgram.Some?
    && (s.preAggregateProgram.Some? ==> ProgramOutput(s.preAggregateProgram.value) == s.preAggregateRowType.value)
  }

  /** Every way of building a scan leaves its pre-aggregate fields consistent. */
  lemma PreAggregateConsistentPreserved(s: SeqTableScan, traits: TraitSet, table: TableRef, voltTable: VoltTable,
                                        splitCount: int, offset: Option<Rex>, limit: Option<Rex>,
                                        p: Program, aggregate: RelNode)
    ensures NewSeqTableScan(traits, table, voltTable, splitCount).Success? ==>
      PreAggregateConsistent(NewSeqTableScan(traits, table, voltTable, splitCount).value)
    ensures PreAggregateConsistent(s) ==> PreAggregateConsistent(CopyWithLimitOffset(s, traits, offset, limit))
    ensures PreAggregateConsistent(s) ==> PreAggregateConsistent(CopyWithProgram(s, traits, p))
    ensures PreAggregateConsistent(CopyWithAggregate(s, traits, aggregate))
  {
  }

  /** Replacing LIMIT and OFFSET leaves the row type alone, and the last replacement wins. */
  lemma CopyWithLimitOffsetLastWins(s: SeqTableScan, t1: TraitSet, o1: Option<Rex>, l1: Option<Rex>,
                                    t2: TraitSet, o2: Option<Rex>, l2: Option<Rex>)
    ensures ScanRowType(CopyWithLimitOffset(s, t1, o1, l1)) == ScanRowType(s)
    ensures CopyWithLimitOffset(CopyWithLimitOffset(s, t1, o1, l1), t2, o2, l2) == CopyWithLimitOffset(s, t2, o2, l2)
    ensures CopyWithLimitOffset(CopyWithLimitOffset(s, t1, o1, l1), s.traits, s.offset, s.limit) == s
  {
  }

  /** Merging a program and replacing LIMIT/OFFSET are independent: either order gives the same scan. */
  lemma ProgramAndLimitOffsetCommute(s: SeqTableScan, t: TraitSet, p: Program, o: Option<Rex>, l: Option<Rex>)
    ensures CopyWithProgram(CopyWithLimitOffset(s, t, o, l), t, p) == CopyWithLimitOffset(CopyWithProgram(s, t, p), t, o, l)
  {
  }

  /** Programs merge on top of each other, the newest outermost. */
  lemma CopyWithProgramStacks(s: SeqTableScan, t1: TraitSet, p1: Program, t2: TraitSet, p2: Program)
    ensures CopyWithProgram(CopyWithProgram(s, t1, p1), t2, p2).program == Merged(p2, Merged(p1, s.program))
    ensures ScanRowType(CopyWithProgram(CopyWithProgram(s, t1, p1), t2, p2)) == ProgramOutput(p2)
  {
  }

  /** Takes the inlined aggregate out again: the pre-aggregate program becomes the program. */
  function WithoutAggregate(s: SeqTableScan, traits: TraitSet): SeqTableScan
    requires s.preAggregateProgram.Some?
  {
    s.(traits := traits, program := s.preAggregateProgram.value, aggregate := None,
       preAggregateRowType := None, preAggregateProgram := None)
  }

  /**
   * Inlining loses nothing: on a scan without an inlined aggregate, removing the aggregate
   * again restores the original scan, and its row type is the stored pre-aggregate row type.
   */
  lemma CopyWithAggregateRestorable(s: SeqTableScan, traits: TraitSet, aggregate: RelNode)
    requires s.aggregate.None? && s.preAggregateRowType.None? && s.preAggregateProgram.None?
    ensures WithoutAggregate(CopyWithAggregate(s, traits, aggregate), s.traits) == s
    ensures ScanRowType(WithoutAggregate(CopyWithAggregate(s, traits, aggregate), s.traits))
         == CopyWithAggregate(s, traits, aggregate).preAggregateRowType.value
  {
  }
}
